/**
 * The free-text variant src/summarize_and_structurize_old.py: the model's
 * reply is plain text, bullets first and a JSON object after them, split with
 * the greedy pattern `\{(?:.|\n)*\}`.
 */
module StructurizeLegacy {
  import opened Wrappers
  import opened Text
  import opened Json
  import Schema

  /** Where the span the pattern matches lies: `text[start..end]`. */
  datatype Split = Split(start: nat, end: nat)

  /** Some `{` has a `}` somewhere after it, i.e. the pattern matches at all. */
  predicate HasBracePair(text: string) {
    exists i, j :: 0 <= i < j < |text| && text[i] == '{' && text[j] == '}'
  }

  /** `re.finditer(r"\{(?:.|\n)*\}", text)`: the alternation matches every
      character, so the leftmost match starts at the first `{` and, being
      greedy, runs to the last `}`; nothing is left for a second match, so
      `match[-1]` is this one. */
  function SplitOutput(text: string): (r: Option<Split>)
    ensures r.Some? ==> r.value.start + 2 <= r.value.end <= |text|
  {
    match (FindFirst(text, '{'), FindLast(text, '}'))
    case (Some(i), Some(j)) =>
      if i < j then Some(Split(i, j + 1)) else None
    case _ => None
  }

  /** There is a span exactly when a `{` has a `}` after it; it starts at the
      first `{` and ends just after the last `}`. */
  lemma SplitOutputSpec(text: string)
    ensures SplitOutput(text).None? <==> !HasBracePair(text)
    ensures SplitOutput(text).Some? ==> var sp := SplitOutput(text).value;
      && text[sp.start] == '{' && text[sp.end - 1] == '}'
      && (forall i :: 0 <= i < sp.start ==> text[i] != '{')
      && (forall j :: sp.end <= j < |text| ==> text[j] != '}')
  {
    var i, j := FindFirst(text, '{'), FindLast(text, '}');
    if i.Some? && j.Some? && i.value >= j.value {
      forall a, b | 0 <= a < b < |text| && text[a] == '{' ensures text[b] != '}' {
        assert i.value <= a;
      }
    }
  }

  /** Slicing bookkeeping: prefix, span and the discarded tail put back
      together are the text. Which span is cut is stated by
      `SplitOutputSpec`. */
  lemma SplitRoundTrip(text: string)
    requires SplitOutput(text).Some?
    ensures var sp := SplitOutput(text).value;
            text[..sp.start] + text[sp.start..sp.end] + text[sp.end..] == text
  {
    var sp := SplitOutput(text).value;
    ThreeWay(text, sp.start, sp.end);
  }

  lemma ThreeWay(s: string, a: nat, b: nat)
    requires a <= b <= |s|
    ensures s[..a] + s[a..b] + s[b..] == s
  {
    assert s[..a] + s[a..b] == s[..b];
  }

  /** The bullets are the text before the first `{`, so they contain none. */
  lemma BulletsHaveNoBrace(text: string)
    requires SplitOutput(text).Some?
    ensures '{' !in Strip(text[..SplitOutput(text).value.start])
  {
    var sp := SplitOutput(text).value;
    SplitOutputSpec(text);
    assert forall c :: c in text[..sp.start] ==> c != '{';
  }

  /** Whatever follows the last `}` is discarded: appending text without a
      `}` changes neither the span nor the bullets. */
  lemma TailDiscarded(text: string, tail: string)
    requires SplitOutput(text).Some?
    requires '}' !in tail
    ensures SplitOutput(text + tail) == SplitOutput(text)
  {
    var sp := SplitOutput(text).value;
    SplitOutputSpec(text);
    SplitAt(text, sp.start, sp.end - 1);
    TailKeepsSplit(text, tail, sp.start, sp.end - 1);
  }

  lemma TailKeepsSplit(text: string, tail: string, i: nat, j: nat)
    requires i < j < |text| && text[i] == '{' && text[j] == '}'
    requires forall a :: 0 <= a < i ==> text[a] != '{'
    requires forall b :: j < b < |text| ==> text[b] != '}'
    requires '}' !in tail
    ensures SplitOutput(text + tail) == Some(Split(i, j + 1))
  {
    var t := text + tail;
    forall b | j < b < |t| ensures t[b] != '}' {
      if b < |text| { assert t[b] == text[b]; } else { assert t[b] == tail[b - |text|]; }
    }
    forall a | 0 <= a < i ensures t[a] != '{' {
      assert t[a] == text[a];
    }
    SplitAt(t, i, j);
  }

  /** The span runs from the first `{` to the last `}` when there is a `}`
      after that `{`. */
  lemma SplitAt(text: string, i: nat, j: nat)
    requires i < j < |text| && text[i] == '{' && text[j] == '}'
    requires forall a :: 0 <= a < i ==> text[a] != '{'
    requires forall b :: j < b < |text| ==> text[b] != '}'
    ensures SplitOutput(text) == Some(Split(i, j + 1))
  {
    FirstAt(text, '{', i);
    LastAt(text, '}', j);
  }

  lemma FirstAt(s: string, c: char, k: nat)
    requires k < |s| && s[k] == c
    requires forall i :: 0 <= i < k ==> s[i] != c
    ensures FindFirst(s, c) == Some(k)
  {
  }

  lemma LastAt(s: string, c: char, k: nat)
    requires k < |s| && s[k] == c
    requires forall i :: k < i < |s| ==> s[i] != c
    ensures FindLast(s, c) == Some(k)
  {
  }

  /** The exceptions the legacy function lets escape. */
  datatype LegacyError =
    | NoContent
    | NoJsonFound
    | BadJson(message: string)
    | NotAMapping(value: Value)
    | Invalid(errors: seq<Schema.FieldError>)

  /** `str(e)` for each of them. For `NotAMapping` it is the text after the
      name of the called class; for `Invalid` it is pydantic's headline. */
  function LegacyMessage(e: LegacyError): string {
    match e
    case NoContent => "expected string or bytes-like object, got 'NoneType'"
    case NoJsonFound => "No JSON found in model output."
    case BadJson(m) => m
    case NotAMapping(v) => "argument after ** must be a mapping, not " + TypeName(v)
    case Invalid(errs) =>
      Decimal(|errs|) + " validation error" + (if |errs| == 1 then "" else "s") + " for ClinicalNoteJSON"
  }

  /** An empty object is rejected with one problem per note field, so the
      headline counts four errors. */
  lemma EmptyObjectProblems()
    ensures Schema.Validate(map[]).Err? && |Schema.Validate(map[]).error| == 4
  {
    MissingAll(Schema.NoteFields);
  }

  /** Against an empty dict every field is one problem. */
  lemma {:induction false} MissingAll(fields: seq<string>)
    ensures |Schema.FieldProblems(map[], fields)| == |fields|
  {
    if fields != [] {
      MissingAll(fields[1..]);
    }
  }

  /** `summarize_and_structurize` (legacy) from the reply's `message.content`
      on; `load` stands for `json.loads`. */
  function SummarizeLegacy(content: Option<string>, load: string -> Loaded): (r: Result<(string, Dict), LegacyError>)
    ensures r == Err(NoContent) <==> content.None?
    ensures content.Some? ==> (r == Err(NoJsonFound) <==> !HasBracePair(content.value))
    ensures r.Ok? ==> Schema.Conforms(r.value.1)
  {
    match content
    case None => Err(NoContent)
    case Some(text) =>
      SplitOutputSpec(text);
      match SplitOutput(text)
      case None => Err(NoJsonFound)
      case Some(sp) =>
        match load(text[sp.start..sp.end])
        case Undecodable(m) => Err(BadJson(m))
        case Decoded(v) =>
          if !v.Object? then Err(NotAMapping(v))
          else
            var data := DictOf(v.members);
            match Schema.Validate(data)
            case Err(errs) => Err(Invalid(errs))
            case Ok(_) => Ok((Strip(text[..sp.start]), data))
  }

  /** A text without a `{ ... }` pair raises "No JSON found in model output." */
  lemma NoBracesRaise(text: string, load: string -> Loaded)
    requires !HasBracePair(text)
    ensures SummarizeLegacy(Some(text), load) == Err(NoJsonFound)
    ensures LegacyMessage(NoJsonFound) == "No JSON found in model output."
  {
    SplitOutputSpec(text);
  }

  /** On success the dict is exactly what `json.loads` made of the span (it
      is validated, not rebuilt), and it conforms to the note schema. */
  lemma LegacyReturnsParsedSpan(text: string, load: string -> Loaded)
    requires SummarizeLegacy(Some(text), load).Ok?
    ensures SplitOutput(text).Some?
    ensures var sp := SplitOutput(text).value;
            var loaded := load(text[sp.start..sp.end]);
            && loaded.Decoded? && loaded.value.Object?
            && SummarizeLegacy(Some(text), load).value == (Strip(text[..sp.start]), DictOf(loaded.value.members))
            && Schema.Conforms(DictOf(loaded.value.members))
  {
  }
}
