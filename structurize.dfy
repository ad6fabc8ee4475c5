/**
 * The deterministic part of src/summarize_and_structurize.py: the start-up
 * configuration checks, `_fill_unknowns`, and what `summarize_and_structurize`
 * does with the completion service's reply.
 */
module Structurize {
  import opened Wrappers
  import opened Text
  import opened Json
  import Schema

  // ---------------------------------------------------------------------
  // Configuration, checked when the module is imported

  const EndpointVar := "AZURE_OPENAI_ENDPOINT"
  const ApiKeyVar := "AZURE_OPENAI_API_KEY"
  const ApiVersionVar := "AZURE_OPENAI_API_VERSION"
  const DeploymentVar := "AZURE_OPENAI_DEPLOYMENT"
  const DefaultApiVersion := "2025-01-01-preview"
  const ServiceDomain := ".openai.azure.com"

  datatype Config = Config(endpoint: string, apiKey: string, apiVersion: string, deployment: string)

  /** The two `SystemExit`s raised at import time. */
  datatype ConfigError = Missing(name: string) | EndpointLooksWrong(endpoint: string)

  function ConfigMessage(e: ConfigError): string {
    match e
    case Missing(name) => "Missing " + name + " in .env"
    case EndpointLooksWrong(endpoint) => "Endpoint looks wrong: " + endpoint
  }

  /** `os.getenv(name, default)`. */
  function GetEnv(env: map<string, string>, name: string, default: string): string {
    if name in env then env[name] else default
  }

  /** `_require(name, value)`: an empty value is fatal. */
  function Require(name: string, value: string): (r: Option<ConfigError>)
    ensures r.Some? <==> value == ""
    ensures r.Some? ==> r.value == Missing(name)
  {
    if value == "" then Some(Missing(name)) else None
  }

  /** `re.search(r"\.openai\.azure\.com/?$", s)` finds a match: `$` matches at
      the end of the string or just before a newline that ends it. */
  predicate EndpointPatternFound(s: string) {
    || EndsWith(s, ServiceDomain)
    || EndsWith(s, ServiceDomain + "/")
    || EndsWith(s, ServiceDomain + "\n")
    || EndsWith(s, ServiceDomain + "/\n")
  }

  /** The module-level checks: read and strip the four variables, require three
      of them, then check the endpoint's domain. */
  function LoadConfig(env: map<string, string>): (r: Result<Config, ConfigError>)
    ensures r.Ok? ==> r.value.endpoint != "" && r.value.apiKey != "" && r.value.deployment != ""
    ensures r.Ok? ==> EndpointPatternFound(r.value.endpoint)
    ensures r.Err? && r.error.Missing? ==> r.error.name in {EndpointVar, ApiKeyVar, DeploymentVar}
  {
    var endpoint := Strip(GetEnv(env, EndpointVar, ""));
    var apiKey := Strip(GetEnv(env, ApiKeyVar, ""));
    var apiVersion := Strip(GetEnv(env, ApiVersionVar, DefaultApiVersion));
    var deployment := Strip(GetEnv(env, DeploymentVar, ""));
    if Require(EndpointVar, endpoint).Some? then Err(Require(EndpointVar, endpoint).value)
    else if Require(ApiKeyVar, apiKey).Some? then Err(Require(ApiKeyVar, apiKey).value)
    else if Require(DeploymentVar, deployment).Some? then Err(Require(DeploymentVar, deployment).value)
    else if !EndpointPatternFound(endpoint) then Err(EndpointLooksWrong(endpoint))
    else Ok(Config(endpoint, apiKey, apiVersion, deployment))
  }

  /** For a stripped endpoint the pattern means: ends in the service domain,
      optionally followed by one `/`. */
  lemma StrippedEndpointPattern(s: string)
    requires s == [] || !IsSpace(s[|s| - 1])
    ensures EndpointPatternFound(s) <==> EndsWith(s, ServiceDomain) || EndsWith(s, ServiceDomain + "/")
  {
    LastCharOfSuffix(s, ServiceDomain + "\n");
    LastCharOfSuffix(s, ServiceDomain + "/\n");
  }

  lemma LastCharOfSuffix(s: string, t: string)
    requires t != []
    ensures EndsWith(s, t) ==> s != [] && s[|s| - 1] == t[|t| - 1]
  {
  }

  /** Start-up succeeds exactly when the endpoint, key and deployment are
      non-blank and the endpoint names the service domain, optionally followed
      by one `/`. */
  lemma LoadConfigAccepts(env: map<string, string>)
    ensures var endpoint := Strip(GetEnv(env, EndpointVar, ""));
            LoadConfig(env).Ok? <==>
              && endpoint != ""
              && Strip(GetEnv(env, ApiKeyVar, "")) != ""
              && Strip(GetEnv(env, DeploymentVar, "")) != ""
              && (EndsWith(endpoint, ServiceDomain) || EndsWith(endpoint, ServiceDomain + "/"))
  {
    var endpoint := Strip(GetEnv(env, EndpointVar, ""));
    assert LoadConfig(env).Ok? <==>
      && endpoint != ""
      && Strip(GetEnv(env, ApiKeyVar, "")) != ""
      && Strip(GetEnv(env, DeploymentVar, "")) != ""
      && EndpointPatternFound(endpoint);
    StrippedEndpointPattern(endpoint);
  }

  /** The accepted settings are the stripped values; the API version is
      optional and defaults to `2025-01-01-preview`. */
  lemma LoadConfigValues(env: map<string, string>)
    requires LoadConfig(env).Ok?
    ensures LoadConfig(env).value.endpoint == Strip(GetEnv(env, EndpointVar, ""))
    ensures LoadConfig(env).value.apiKey == Strip(GetEnv(env, ApiKeyVar, ""))
    ensures LoadConfig(env).value.deployment == Strip(GetEnv(env, DeploymentVar, ""))
    ensures LoadConfig(env).value.apiVersion == Strip(GetEnv(env, ApiVersionVar, DefaultApiVersion))
    ensures ApiVersionVar !in env ==> LoadConfig(env).value.apiVersion == DefaultApiVersion
  {
    var c := Config(Strip(GetEnv(env, EndpointVar, "")), Strip(GetEnv(env, ApiKeyVar, "")),
                    Strip(GetEnv(env, ApiVersionVar, DefaultApiVersion)),
                    Strip(GetEnv(env, DeploymentVar, "")));
    assert LoadConfig(env) == Ok(c);
    if ApiVersionVar !in env {
      DefaultVersionStripped();
    }
  }

  lemma DefaultVersionStripped()
    ensures Strip(DefaultApiVersion) == DefaultApiVersion
  {
    assert !IsSpace(DefaultApiVersion[0]);
    assert TrimStart(DefaultApiVersion) == DefaultApiVersion;
    assert !IsSpace(DefaultApiVersion[|DefaultApiVersion| - 1]);
    assert TrimEnd(DefaultApiVersion) == DefaultApiVersion;
  }

  /** The checks run in source order: a missing endpoint is reported even
      when the key and deployment are missing too. */
  lemma LoadConfigReportsFirstMissing(env: map<string, string>)
    requires Strip(GetEnv(env, EndpointVar, "")) == ""
    ensures LoadConfig(env) == Err(Missing(EndpointVar))
  {
  }

  // ---------------------------------------------------------------------
  // `_fill_unknowns`

  const SummaryKey := "summary_bullets"

  /** The five keys `_fill_unknowns` visits, in its order. */
  const FillKeys: seq<string> :=
    ["chief_complaint", "diagnosis", "plan", "follow_up_instructions", "summary_bullets"]

  /** The five keys are the note's four fields followed by the summary, and
      no key is visited twice. */
  lemma FillKeysLayout()
    ensures FillKeys == Schema.NoteFields + [SummaryKey]
    ensures forall a, b :: 0 <= a < b < |FillKeys| ==> FillKeys[a] != FillKeys[b]
  {
  }

  const Unknown: Value := Str("unknown")

  /** Key `k` is missing from `d` or holds a string of whitespace. This is
      `not str(d.get(k, "")).strip()`, as `BlankIsPythonTest` shows. */
  predicate Blank(d: Dict, k: string) {
    k !in d || (d[k].Str? && Strip(d[k].s) == "")
  }

  lemma BlankIsPythonTest(d: Dict, k: string)
    ensures Blank(d, k) <==> BlankStr(GetOrEmpty(d, k))
  {
    BlankOnlyIfString(GetOrEmpty(d, k));
    if k in d && d[k].Str? {
      StripEmptyIff(d[k].s);
    }
    if k !in d {
      StripEmptyIff("");
    }
  }

  /** What `_fill_unknowns` leaves in the dict, stated all at once: every one
      of the five keys that is blank becomes `"unknown"`, everything else is
      as it was. */
  function Filled(d: Dict): Dict {
    map k | k in d.Keys + (set f | f in FillKeys) ::
      if k in FillKeys && Blank(d, k) then Unknown else d[k]
  }

  /** One visit of the loop: a blank key is overwritten. */
  function FillKey(d: Dict, k: string): Dict {
    if Blank(d, k) then d[k := Unknown] else d
  }

  /** The dict after the first `n` keys of the loop have been visited. */
  function FillPrefix(d: Dict, n: nat): Dict
    requires n <= |FillKeys|
  {
    if n == 0 then d else FillKey(FillPrefix(d, n - 1), FillKeys[n - 1])
  }

  /** After `n` visits, each visited key that was blank holds `"unknown"`
      and every other key is as it was. */
  lemma {:induction false} FillPrefixPointwise(d: Dict, n: nat, k: string)
    requires n <= |FillKeys|
    ensures k in FillPrefix(d, n) <==> k in d || k in FillKeys[..n]
    ensures k in FillPrefix(d, n) ==>
      FillPrefix(d, n)[k] == if k in FillKeys[..n] && Blank(d, k) then Unknown else d[k]
  {
    if n > 0 {
      var key := FillKeys[n - 1];
      FillKeysLayout();
      assert FillKeys[..n] == FillKeys[..n - 1] + [key];
      assert key !in FillKeys[..n - 1];
      FillPrefixPointwise(d, n - 1, k);
      FillPrefixPointwise(d, n - 1, key);
    }
  }

  lemma FillDone(d: Dict)
    ensures FillPrefix(d, |FillKeys|) == Filled(d)
  {
    var a, b := FillPrefix(d, |FillKeys|), Filled(d);
    assert FillKeys[..|FillKeys|] == FillKeys;
    assert a.Keys == b.Keys by {
      forall k ensures k in a <==> k in b {
        FillPrefixPointwise(d, |FillKeys|, k);
      }
    }
    forall k | k in a ensures a[k] == b[k] {
      FillPrefixPointwise(d, |FillKeys|, k);
    }
  }

  /** `_fill_unknowns(d)`: one pass over the five keys, overwriting each blank
      one. */
  method FillUnknowns(d: Dict) returns (r: Dict)
    ensures r == Filled(d)
  {
    r := d;
    for i := 0 to |FillKeys|
      invariant r == FillPrefix(d, i)
    {
      var k := FillKeys[i];
      BlankIsPythonTest(r, k);
      if Strip(PyStr(GetOrEmpty(r, k))) == "" {
        r := r[k := Unknown];
      }
    }
    FillDone(d);
  }

  lemma UnknownNotBlank(d: Dict, k: string)
    requires k in d && d[k] == Unknown
    ensures !Blank(d, k)
  {
    StripNonEmpty("unknown");
  }

  /** After the fill all five keys are present and none of them is blank. */
  lemma FilledComplete(d: Dict)
    ensures forall k :: k in FillKeys ==> k in Filled(d) && !Blank(Filled(d), k)
  {
    forall k | k in FillKeys ensures k in Filled(d) && !Blank(Filled(d), k) {
      if Blank(d, k) {
        UnknownNotBlank(Filled(d), k);
      } else {
        assert Filled(d)[k] == d[k];
      }
    }
  }

  /** A key is overwritten with `"unknown"` exactly when it is missing or its
      value is a string of whitespace only; any other value, a non-string one
      included, is kept. */
  lemma FilledReplacesOnlyBlank(d: Dict, k: string)
    requires k in FillKeys
    ensures Blank(d, k) <==> k !in d || (d[k].Str? && AllSpace(d[k].s))
    ensures BlankStr(GetOrEmpty(d, k)) ==> Filled(d)[k] == Unknown
    ensures !BlankStr(GetOrEmpty(d, k)) ==> k in d && Filled(d)[k] == d[k]
  {
    BlankIsPythonTest(d, k);
    if k in d && d[k].Str? {
      StripEmptyIff(d[k].s);
    }
  }

  /** Keys outside the five pass through untouched. */
  lemma FilledKeepsOtherKeys(d: Dict, k: string)
    requires k !in FillKeys
    ensures k in Filled(d) <==> k in d
    ensures k in d ==> Filled(d)[k] == d[k]
  {
  }

  /** Filling twice is filling once: the `except ValidationError` branch,
      which fills again, changes nothing. */
  lemma FilledIdempotent(d: Dict)
    ensures Filled(Filled(d)) == Filled(d)
  {
    var f := Filled(d);
    FilledComplete(d);
    assert (set k | k in FillKeys) <= f.Keys;
    assert Filled(f).Keys == f.Keys;
    forall k | k in f ensures Filled(f)[k] == f[k] {
      if k in FillKeys {
        assert !Blank(f, k);
      }
    }
  }

  // ---------------------------------------------------------------------
  // The reply of the completion service and its post-processing

  /** A tool call, with `json.loads` already applied to its `function.arguments`. */
  datatype ToolCall = ToolCall(arguments: Loaded)

  /** `client.chat.completions.create(...)`: it raises, or the first choice's
      message carries `tool_calls` (possibly `None`). */
  datatype Completion = RequestFailed(message: string) | Replied(toolCalls: Option<seq<ToolCall>>)

  /** The exceptions `summarize_and_structurize` lets escape. */
  datatype ExtractError =
    | ServiceError(message: string)
    | NoFunctionCall
    | BadJson(message: string)
    | NotADict(value: Value)

  /** `str(e)` for each of them. */
  function ErrorMessage(e: ExtractError): string {
    match e
    case ServiceError(m) => m
    case NoFunctionCall => "Model did not return a function call with JSON."
    case BadJson(m) => m
    case NotADict(v) => "'" + TypeName(v) + "' object has no attribute 'get'"
  }

  /** The pair `summarize_and_structurize` returns: `(bullets, data)`. */
  datatype Extraction = Extraction(bullets: Value, structured: Dict)

  /** The decoded dict of the first tool call, when there is one. */
  function FirstCallDict(calls: seq<ToolCall>): Option<Dict> {
    if calls != [] && calls[0].arguments.Decoded? && calls[0].arguments.value.Object?
    then Some(DictOf(calls[0].arguments.value.members))
    else None
  }

  /** What `summarize_and_structurize` returns or raises for a reply. */
  function Extract(c: Completion): (r: Result<Extraction, ExtractError>)
    ensures r.Ok? <==> c.Replied? && FirstCallDict(if c.toolCalls.Some? then c.toolCalls.value else []).Some?
    ensures c.RequestFailed? ==> r == Err(ServiceError(c.message))
    ensures r.Ok? ==> SummaryKey !in r.value.structured
  {
    match c
    case RequestFailed(m) => Err(ServiceError(m))
    case Replied(calls) =>
      var tcalls := if calls.Some? then calls.value else [];
      if tcalls == [] then Err(NoFunctionCall)
      else
        match tcalls[0].arguments
        case Undecodable(m) => Err(BadJson(m))
        case Decoded(v) =>
          if !v.Object? then Err(NotADict(v))
          else
            var data := Filled(DictOf(v.members));
            var data' := if Schema.Validate(data).Ok? then data else Filled(data);
            var bullets := if SummaryKey in data' then data'[SummaryKey] else Unknown;
            Ok(Extraction(bullets, data' - {SummaryKey}))
  }

  /** `summarize_and_structurize` from the reply on. */
  method SummarizeAndStructurize(c: Completion) returns (r: Result<Extraction, ExtractError>)
    ensures r == Extract(c)
  {
    if c.RequestFailed? {
      return Err(ServiceError(c.message));
    }
    var tcalls := if c.toolCalls.Some? then c.toolCalls.value else [];
    if tcalls == [] {
      return Err(NoFunctionCall);
    }
    var args := tcalls[0].arguments;
    if args.Undecodable? {
      return Err(BadJson(args.message));
    }
    if !args.value.Object? {
      return Err(NotADict(args.value));
    }
    var data := DictOf(args.value.members);
    data := FillUnknowns(data);
    if Schema.Validate(data).Err? {
      // As a last resort the source fills once more.
      data := FillUnknowns(data);
    }
    var bullets := if SummaryKey in data then data[SummaryKey] else Unknown;
    data := data - {SummaryKey};
    return Ok(Extraction(bullets, data));
  }

  /** Failure for lack of a tool call happens exactly when `tool_calls` is
      `None` or empty. */
  lemma NoCallFails(calls: Option<seq<ToolCall>>)
    ensures Extract(Replied(calls)) == Err(NoFunctionCall) <==> calls == None || calls == Some([])
  {
  }

  /** Only the first tool call is looked at. */
  lemma OnlyFirstCallUsed(first: ToolCall, rest: seq<ToolCall>)
    ensures Extract(Replied(Some([first] + rest))) == Extract(Replied(Some([first])))
  {
  }

  /** A successful result is the filled dict split in two: the bullets are the
      filled `summary_bullets` (so never blank, and the `pop` default is never
      used) and the structured dict is everything else. */
  lemma ExtractSplitsFilled(c: Completion)
    requires Extract(c).Ok?
    ensures c.Replied? && c.toolCalls.Some? && FirstCallDict(c.toolCalls.value).Some?
    ensures var d := Filled(FirstCallDict(c.toolCalls.value).value);
            && SummaryKey in d
            && Extract(c).value.bullets == d[SummaryKey]
            && Extract(c).value.structured == d - {SummaryKey}
  {
    var d := Filled(FirstCallDict(c.toolCalls.value).value);
    FilledIdempotent(FirstCallDict(c.toolCalls.value).value);
    FilledComplete(FirstCallDict(c.toolCalls.value).value);
  }

  /** On success: the bullets are not blank, `summary_bullets` is gone from the
      structured dict, the four note fields are present and not blank, and
      every other key of the tool call's arguments is passed through
      unchanged (`additionalProperties: False` is not enforced here). */
  lemma ExtractResultShape(c: Completion)
    requires Extract(c).Ok?
    ensures !BlankStr(Extract(c).value.bullets)
    ensures SummaryKey !in Extract(c).value.structured
    ensures forall k :: k in Schema.NoteFields ==>
              k in Extract(c).value.structured && !Blank(Extract(c).value.structured, k)
    ensures var args := FirstCallDict(c.toolCalls.value).value;
            forall k :: k !in FillKeys ==>
              (k in Extract(c).value.structured <==> k in args) &&
              (k in args ==> Extract(c).value.structured[k] == args[k])
  {
    ExtractSplitsFilled(c);
    var args := FirstCallDict(c.toolCalls.value).value;
    var s := Extract(c).value.structured;
    FilledComplete(args);
    BlankIsPythonTest(Filled(args), SummaryKey);
    FieldsSurviveRemoval(Filled(args), s);
    OthersSurviveRemoval(args, s);
  }

  /** Removing the summary key keeps the four filled note fields. */
  lemma FieldsSurviveRemoval(f: Dict, s: Dict)
    requires s == f - {SummaryKey}
    requires forall k :: k in FillKeys ==> k in f && !Blank(f, k)
    ensures forall k :: k in Schema.NoteFields ==> k in s && !Blank(s, k)
  {
    FillKeysLayout();
    forall k | k in Schema.NoteFields ensures k in s && !Blank(s, k) {
      assert k in FillKeys;
    }
  }

  /** Removing the summary key keeps every key outside the five as it came. */
  lemma OthersSurviveRemoval(args: Dict, s: Dict)
    requires s == Filled(args) - {SummaryKey}
    ensures forall k :: k !in FillKeys ==>
              (k in s <==> k in args) && (k in args ==> s[k] == args[k])
  {
    forall k | k !in FillKeys ensures (k in s <==> k in args) && (k in args ==> s[k] == args[k]) {
      FilledKeepsOtherKeys(args, k);
    }
  }

  /** Empty arguments (what the service sends when the transcript gives it
      nothing to say) yield `"unknown"` everywhere, not an error. */
  lemma EmptyArgumentsAllUnknown(c: Completion)
    requires c.Replied? && c.toolCalls.Some? && c.toolCalls.value != []
    requires c.toolCalls.value[0].arguments == Decoded(Object([]))
    ensures Extract(c) ==
            Ok(Extraction(Unknown, map["chief_complaint" := Unknown, "diagnosis" := Unknown,
                                       "plan" := Unknown, "follow_up_instructions" := Unknown]))
  {
    var notes := map["chief_complaint" := Unknown, "diagnosis" := Unknown,
                     "plan" := Unknown, "follow_up_instructions" := Unknown];
    assert FirstCallDict(c.toolCalls.value) == Some(map[]);
    ExtractSplitsFilled(c);
    FilledEmpty();
    RemoveAdded(notes, SummaryKey, Unknown);
  }

  lemma RemoveAdded(m: Dict, k: string, v: Value)
    requires k !in m
    ensures m[k := v] - {k} == m
  {
  }

  /** Filling an empty dict gives the five keys, all `"unknown"`. */
  lemma FilledEmpty()
    ensures Filled(map[]) ==
            map["chief_complaint" := Unknown, "diagnosis" := Unknown, "plan" := Unknown,
                "follow_up_instructions" := Unknown, "summary_bullets" := Unknown]
  {
    var a := Filled(map[]);
    var b := map["chief_complaint" := Unknown, "diagnosis" := Unknown, "plan" := Unknown,
                 "follow_up_instructions" := Unknown, "summary_bullets" := Unknown];
    assert a.Keys == b.Keys by {
      forall k ensures k in a <==> k in b {
        assert k in a <==> k in FillKeys;
      }
    }
    forall k | k in a ensures a[k] == b[k] {
      assert Blank(map[], k);
    }
  }

  /** A non-string field survives both fills: an integer diagnosis is
      returned as it came, although the note schema rejects it. */
  lemma NonStringFieldSurvives()
    ensures var c := Replied(Some([ToolCall(Decoded(Object([("diagnosis", Int(7))])))]));
            && Extract(c).Ok?
            && Extract(c).value.structured["diagnosis"] == Int(7)
            && Schema.Validate(Extract(c).value.structured).Err?
  {
    var c := Replied(Some([ToolCall(Decoded(Object([("diagnosis", Int(7))])))]));
    var args := DictOf([("diagnosis", Int(7))]);
    assert args == map["diagnosis" := Int(7)];
    assert FirstCallDict(c.toolCalls.value) == Some(args);
    assert Extract(c).Ok?;
    ExtractSplitsFilled(c);
    var s := Filled(args) - {SummaryKey};
    assert Extract(c).value.structured == s;
    assert Filled(args)["diagnosis"] == Int(7) by {
      FilledReplacesOnlyBlank(args, "diagnosis");
      BlankOnlyIfString(Int(7));
      assert GetOrEmpty(args, "diagnosis") == Int(7);
    }
    assert s["diagnosis"] == Int(7);
    assert !Schema.Conforms(s) by { assert "diagnosis" in Schema.NoteFields; }
  }
}
