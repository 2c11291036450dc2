/**
 * JSON values as Python's `json` module hands them to the handlers, and the
 * few Python operations the handlers apply to them: truthiness, `d[k]`,
 * `d.get(k)`, `float(v)` and iteration.
 */
module Json {
  import opened Wrappers

  /** A decoded JSON document. Integers and decimals stay apart, as in Python. */
  datatype Value =
    | Null
    | Bool(b: bool)
    | Int(i: int)
    | Num(r: real)
    | Str(s: string)
    | Arr(items: seq<Value>)
    | Obj(fields: map<string, Value>)

  /** Python truthiness: `None`, `False`, zero, and empty strings, lists and dicts are false. */
  predicate Truthy(v: Value) {
    match v
    case Null => false
    case Bool(b) => b
    case Int(i) => i != 0
    case Num(r) => r != 0.0
    case Str(s) => s != ""
    case Arr(a) => |a| != 0
    case Obj(m) => |m| != 0
  }

  /**
   * Python `v[k]` with a string key: the entry of a dict, or `None` when the
   * access raises (KeyError on a dict without `k`, TypeError on anything else).
   */
  function Field(v: Value, k: string): (r: Option<Value>)
    ensures r.Some? <==> v.Obj? && k in v.fields
    ensures r.Some? ==> r.value == v.fields[k]
  {
    if v.Obj? && k in v.fields then Some(v.fields[k]) else None
  }

  /**
   * Python `v.get(k)`: the entry, or JSON null when the dict lacks `k`;
   * `None` when `v` is not a dict (AttributeError).
   */
  function GetKey(v: Value, k: string): (r: Option<Value>)
    ensures r.Some? <==> v.Obj?
    ensures r.Some? && k in v.fields ==> r.value == v.fields[k]
    ensures r.Some? && k !in v.fields ==> r.value == Null
  {
    match v
    case Obj(m) => Some(if k in m then m[k] else Null)
    case _ => None
  }

  /**
   * Python `float(v)`: numbers and booleans convert, a string converts when
   * `parse` (the platform's decimal-text reader) accepts it, and null, lists
   * and dicts raise (`None`).
   */
  function PyFloat(parse: string -> Option<real>, v: Value): (r: Option<real>)
    ensures v.Int? ==> r == Some(v.i as real)
    ensures v.Num? ==> r == Some(v.r)
    ensures v.Str? ==> r == parse(v.s)
    ensures v.Null? || v.Arr? || v.Obj? ==> r.None?
  {
    match v
    case Int(i) => Some(i as real)
    case Num(x) => Some(x)
    case Bool(b) => Some(if b then 1.0 else 0.0)
    case Str(s) => parse(s)
    case _ => None
  }

  /**
   * What a Python `for` loop visits in `v`: the items of a list, the
   * one-character strings of a string; `None` for values that are not
   * iterated that way (numbers, null and booleans raise TypeError).
   */
  function Elements(v: Value): (r: Option<seq<Value>>)
    ensures v.Arr? ==> r == Some(v.items)
    ensures v.Str? ==> r.Some? && |r.value| == |v.s|
                       && forall i :: 0 <= i < |v.s| ==> r.value[i] == Str([v.s[i]])
    ensures !v.Arr? && !v.Str? ==> r.None?
  {
    match v
    case Arr(a) => Some(a)
    case Str(s) => Some(seq(|s|, i requires 0 <= i < |s| => Str([s[i]])))
    case _ => None
  }
}
