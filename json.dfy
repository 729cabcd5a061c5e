/** Decoded JSON values as the Python client sees them after `json.loads`. */
module JsonValues {

  /** A JSON value. `JNull` also stands for Python's `None`, which is what
      JSON `null` decodes to. Numbers are integers (see README). */
  datatype Json =
    | JNull
    | JBool(b: bool)
    | JNum(n: int)
    | JStr(s: string)
    | JArr(items: seq<Json>)
    | JObj(fields: map<string, Json>)

  /** A JSON object, i.e. a Python `dict` with string keys. */
  type Object = map<string, Json>

  /** Python's truth value of a decoded JSON value: `None`, `False`, `0`,
      the empty string, list and dict are false. */
  predicate Truthy(v: Json) {
    match v
    case JNull => false
    case JBool(b) => b
    case JNum(n) => n != 0
    case JStr(s) => s != ""
    case JArr(items) => items != []
    case JObj(fields) => fields != map[]
  }

  /** Python's `d.get(key, default)`. */
  function GetOr(d: Object, key: string, default: Json): (v: Json) {
    if key in d then d[key] else default
  }
}
