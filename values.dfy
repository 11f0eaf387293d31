/** Python values as the agent sees them: JSON-decoded data, `dict.get` and `str()`. */
module Values {

  datatype Option<+T> = None | Some(value: T)

  /** A decoded JSON value. Python's `None` and JSON `null` are both `JNull`;
      a number carries the text Python's `str()` prints for it. */
  datatype Json =
    | JNull
    | JBool(b: bool)
    | JNumber(text: string)
    | JString(s: string)
    | JArray(items: seq<Json>)
    | JObject(fields: map<string, Json>)

  /** A decoded JSON object, i.e. a Python `dict` with string keys. */
  type Object = map<string, Json>

  /** `o.get(key, default)` */
  function GetOr(o: Object, key: string, default: Json): Json {
    if key in o then o[key] else default
  }

  /** `o.get(key)`: an absent key reads as `None`. */
  function Get(o: Object, key: string): Json {
    GetOr(o, key, JNull)
  }

  /** `f"{v}"` for the scalar values a place name can take. */
  function Str(v: Json): string {
    match v
    case JNull => "None"
    case JBool(b) => if b then "True" else "False"
    case JNumber(t) => t
    case JString(s) => s
    case JArray(_) => ""
    case JObject(_) => ""
  }

  function Min(a: int, b: int): int {
    if a <= b then a else b
  }
}
