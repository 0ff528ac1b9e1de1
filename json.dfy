/**
 * JSON values as the API server holds them after `json.load`, with the
 * handful of Python operations the request handlers apply to them:
 * truthiness (`not v`), membership (`key in v`) and use as a number.
 */
module Json {
  import opened Wrappers

  /** A JSON value. Numbers are integers only; floating point is not modelled. */
  datatype Value =
    | Null
    | Bool(b: bool)
    | Int(n: int)
    | Str(s: string)
    | Array(items: seq<Value>)
    | Object(fields: map<string, Value>)

  /** A JSON object, i.e. a Python dict with string keys. */
  type Dict = map<string, Value>

  /** Python truthiness: `None`, `False`, `0`, `""`, `[]` and `{}` are false. */
  predicate Truthy(v: Value) {
    match v
    case Null => false
    case Bool(b) => b
    case Int(n) => n != 0
    case Str(s) => s != ""
    case Array(items) => items != []
    case Object(fields) => fields != map[]
  }

  /** `key` occurs in `s` starting at position `i`. */
  predicate OccursAt(key: string, s: string, i: int) {
    0 <= i && i + |key| <= |s| && s[i..i + |key|] == key
  }

  /** `key` occurs in `s` as a contiguous substring (Python `key in s` on strings). */
  predicate IsSubstring(key: string, s: string) {
    exists i | 0 <= i <= |s| - |key| :: OccursAt(key, s, i)
  }

  /**
   * Python's `key in v` for a string `key`: a key test on a dict, an element
   * test on a list, a substring test on a string. `None` stands for the
   * TypeError Python raises on `None`, booleans and numbers.
   */
  function In(key: string, v: Value): (r: Option<bool>)
    ensures r.None? <==> v.Null? || v.Bool? || v.Int?
    ensures v.Object? ==> r == Some(key in v.fields)
    ensures v.Array? ==> r == Some(Str(key) in v.items)
    ensures v.Str? ==> r == Some(IsSubstring(key, v.s))
  {
    match v
    case Object(fields) => Some(key in fields)
    case Array(items) => Some(Str(key) in items)
    case Str(s) => Some(IsSubstring(key, s))
    case _ => None
  }

  /**
   * The value as a Python number: `bool` is a subclass of `int`, so `True`
   * compares and adds as 1. `None` when comparing it with a number or adding
   * 1 to it raises TypeError.
   */
  function AsNumber(v: Value): Option<int> {
    match v
    case Int(n) => Some(n)
    case Bool(b) => Some(if b then 1 else 0)
    case _ => None
  }
}
