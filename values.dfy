/** Decoded JSON values as the Python code sees them after `json.loads`,
    with the few pieces of Python semantics the pipeline relies on:
    truthiness, `dict.get` with a default, and `str()` in an f-string. */
module Values {

  datatype Option<+T> = None | Some(value: T)

  /** The outcome of a Python computation: a value, or the name of the
      exception it raised. */
  datatype Result<+T> = Ok(value: T) | Err(error: string)

  datatype Json =
    | JNull
    | JBool(b: bool)
    | JNum(n: int)
    | JStr(s: string)
    | JArr(items: seq<Json>)
    | JObj(fields: map<string, Json>)

  /** A JSON object, i.e. a Python dict with string keys. */
  type Record = map<string, Json>

  /** Python truthiness of a decoded value: None, False, 0, "", [] and {} are falsy. */
  predicate Truthy(v: Json) {
    match v
    case JNull => false
    case JBool(b) => b
    case JNum(n) => n != 0
    case JStr(s) => s != ""
    case JArr(xs) => xs != []
    case JObj(m) => m != map[]
  }

  /** `d.get(key, default)` */
  function GetOr(d: Record, key: string, default: Json): Json {
    if key in d then d[key] else default
  }

  /** `d.get(key)`: a missing key reads as None. */
  function Get(d: Record, key: string): Json {
    GetOr(d, key, JNull)
  }

  /** Decimal digits of a natural number. */
  function NatToString(n: nat): (s: string)
    ensures |s| > 0
    decreases n
  {
    var digit := ['0' + (n % 10) as char];
    if n < 10 then digit else NatToString(n / 10) + digit
  }

  /** `str(v)` as an f-string renders a scalar; lists and dicts are not rendered
      (their Python repr depends on key order, which a map does not keep). */
  function PyStr(v: Json): string {
    match v
    case JNull => "None"
    case JBool(b) => if b then "True" else "False"
    case JNum(n) => if n < 0 then "-" + NatToString(-n) else NatToString(n)
    case JStr(s) => s
    case JArr(_) => ""
    case JObj(_) => ""
  }
}
