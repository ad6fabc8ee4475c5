/**
 * The values `json.loads` produces, the dictionaries built from them, and
 * Python's `str()` of a value (the only use the scripts make of `str()`).
 */
module Json {
  import opened Text

  /** A decoded JSON value. An object keeps its members in source order. */
  datatype Value =
    | Null
    | Bool(b: bool)
    | Int(i: int)
    | Str(s: string)
    | Array(items: seq<Value>)
    | Object(members: seq<(string, Value)>)

  /** What `json.loads(text)` does: return a value, or raise with a message. */
  datatype Loaded = Decoded(value: Value) | Undecodable(message: string)

  /** A Python `dict` with string keys, as `json.loads` returns for an object. */
  type Dict = map<string, Value>

  /** `d.get(k, "")`. */
  function GetOrEmpty(d: Dict, k: string): Value {
    if k in d then d[k] else Str("")
  }

  /** The dict `json.loads` builds from an object's members: a later duplicate
      key replaces the value of an earlier one. */
  function DictOf(members: seq<(string, Value)>): (d: Dict)
    ensures d.Keys == set i | 0 <= i < |members| :: members[i].0
    decreases |members|
  {
    if members == [] then map[]
    else
      var front := members[..|members| - 1];
      var last := members[|members| - 1];
      assert forall i :: 0 <= i < |front| ==> front[i] == members[i];
      assert (set i | 0 <= i < |members| :: members[i].0)
          == (set i | 0 <= i < |front| :: front[i].0) + {last.0};
      DictOf(front)[last.0 := last.1]
  }

  /** The value a key gets in `DictOf` is the one of its last occurrence. */
  lemma {:induction false} DictOfLastWins(members: seq<(string, Value)>, i: nat)
    requires i < |members|
    requires forall j :: i < j < |members| ==> members[j].0 != members[i].0
    ensures members[i].0 in DictOf(members) && DictOf(members)[members[i].0] == members[i].1
    decreases |members|
  {
    var front := members[..|members| - 1];
    if i < |members| - 1 {
      assert forall j :: i < j < |front| ==> front[j] == members[j];
      DictOfLastWins(front, i);
      assert front[i] == members[i];
    }
  }

  /** Python's `str(v)`: a string is itself; anything else is its `repr`. */
  function PyStr(v: Value): string {
    if v.Str? then v.s else Repr(v)
  }

  /** Python's `repr(v)` for decoded JSON values. */
  function Repr(v: Value): (r: string)
    ensures r != [] && !IsSpace(r[0])
    decreases v
  {
    match v
    case Null => "None"
    case Bool(b) => if b then "True" else "False"
    case Int(i) => Decimal(i)
    case Str(s) => "'" + s + "'"
    case Array(items) =>
      "[" + Join(seq(|items|, k requires 0 <= k < |items| => Repr(items[k]))) + "]"
    case Object(members) =>
      "{" + Join(seq(|members|, k requires 0 <= k < |members| =>
                       "'" + members[k].0 + "': " + Repr(members[k].1))) + "}"
  }

  /** `", ".join(parts)`. */
  function Join(parts: seq<string>): string {
    if parts == [] then ""
    else if |parts| == 1 then parts[0]
    else parts[0] + ", " + Join(parts[1..])
  }

  /** Python's type name of a decoded value. */
  function TypeName(v: Value): string {
    match v
    case Null => "NoneType"
    case Bool(_) => "bool"
    case Int(_) => "int"
    case Str(_) => "str"
    case Array(_) => "list"
    case Object(_) => "dict"
  }

  /** `str(i)` for a Python `int`. */
  function Decimal(i: int): (r: string)
    ensures r != [] && (r[0] == '-' || '0' <= r[0] <= '9')
  {
    if i < 0 then "-" + Digits(-i) else Digits(i)
  }

  function Digits(n: nat): (r: string)
    ensures r != []
    ensures forall k :: 0 <= k < |r| ==> '0' <= r[k] <= '9'
  {
    if n < 10 then [DigitChar(n)] else Digits(n / 10) + [DigitChar(n % 10)]
  }

  function DigitChar(d: nat): (c: char)
    requires d < 10
    ensures '0' <= c <= '9'
  {
    ('0' as int + d) as char
  }

  /** Whether `not str(v).strip()` holds. */
  predicate BlankStr(v: Value) {
    Strip(PyStr(v)) == ""
  }

  /** Only a string can have a blank `str()`: `None`, booleans, numbers, lists
      and dicts all render with a visible first character. */
  lemma BlankOnlyIfString(v: Value)
    ensures BlankStr(v) ==> v.Str? && AllSpace(v.s)
    ensures v.Str? ==> (BlankStr(v) <==> AllSpace(v.s))
  {
    StripEmptyIff(PyStr(v));
    if !v.Str? {
      assert !AllSpace(PyStr(v)) by { assert !IsSpace(PyStr(v)[0]); }
    }
  }
}
