/** Decoded JSON documents as the client's Python code sees them, and the few
    built-in Python operations the client applies to them. */
module PyJson {
  import opened Wrappers

  /** A decoded JSON value. JSON `null` decodes to Python's `None`, so `Null`
      stands both for a JSON null and for "no value". Numbers are integers. */
  datatype Json =
    | Null
    | Bool(b: bool)
    | Num(n: int)
    | Str(s: string)
    | Arr(items: seq<Json>)
    | Obj(fields: map<string, Json>)

  /** The built-in exceptions the client's lookups can raise. */
  datatype PyError = TypeError | KeyError | IndexError | ValueError

  /** Python truthiness: `None`, `False`, `0` and empty containers are false. */
  predicate Truthy(v: Json) {
    match v
    case Null => false
    case Bool(b) => b
    case Num(n) => n != 0
    case Str(s) => |s| > 0
    case Arr(items) => |items| > 0
    case Obj(fields) => |fields| > 0
  }

  /** Python's `v == False`, which also holds of the number zero. */
  predicate EqualsFalse(v: Json) {
    v == Bool(false) || v == Num(0)
  }

  /** Python's `k in s` on two strings: `k` occurs somewhere in `s`. */
  predicate IsSubstring(k: string, s: string) {
    k <= s || (|s| > 0 && IsSubstring(k, s[1..]))
  }

  /** Python's `key in v` for a string `key`. */
  function Contains(v: Json, key: string): Result<bool, PyError> {
    match v
    case Obj(fields) => Ok(key in fields)
    case Arr(items) => Ok(Str(key) in items)
    case Str(s) => Ok(IsSubstring(key, s))
    case _ => Err(TypeError)
  }

  /** Python's `v[key]` for a string `key`. */
  function Subscript(v: Json, key: string): Result<Json, PyError> {
    match v
    case Obj(fields) => if key in fields then Ok(fields[key]) else Err(KeyError)
    case _ => Err(TypeError)
  }

  /** Python's `v[0]`. Object keys are strings, so `0` is never one of them. */
  function First(v: Json): Result<Json, PyError> {
    match v
    case Arr(items) => if |items| == 0 then Err(IndexError) else Ok(items[0])
    case Str(s) => if |s| == 0 then Err(IndexError) else Ok(Str([s[0]]))
    case Obj(_) => Err(KeyError)
    case _ => Err(TypeError)
  }
}
