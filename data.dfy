/** JSON values as the hub's Python code sees them after `json.loads`, with
    Python's truthiness and `dict.get` lookup. */
module Data {

  datatype Option<+T> = None | Some(value: T)

  /** A JSON value. Integers and floats are kept apart as in Python; a float
      is an exact `real` (binary rounding is not modelled). */
  datatype Json =
    | JNull
    | JBool(b: bool)
    | JNum(n: int)
    | JReal(r: real)
    | JStr(s: string)
    | JList(items: seq<Json>)
    | JObj(fields: map<string, Json>)

  /** `{}` — the empty dict the services return for "no state". */
  const EmptyObject: Json := JObj(map[])

  /** Python's `bool(x)`. */
  predicate Truthy(j: Json)
  {
    match j
    case JNull => false
    case JBool(b) => b
    case JNum(n) => n != 0
    case JReal(r) => r != 0.0
    case JStr(s) => s != ""
    case JList(items) => items != []
    case JObj(fields) => fields != map[]
  }

  /** `key in j` for a dict. */
  predicate HasKey(j: Json, key: string)
  {
    j.JObj? && key in j.fields
  }

  /** `j.get(key)`: the value under `key`, `None` when the key is missing.
      A value that is not a dict reads as having no keys. */
  function Field(j: Json, key: string): Json
  {
    if HasKey(j, key) then j.fields[key] else JNull
  }

  /** Python's `j == 1`: true for `1`, `1.0` and `True`. */
  predicate EqualsOne(j: Json)
  {
    j == JNum(1) || j == JReal(1.0) || j == JBool(true)
  }

  /** A message handed to the MQTT broker: topic and JSON payload. */
  datatype Publication = Publication(topic: string, payload: Json)

  /** The topic RF remote codes travel on, from the receiver through the
      broker to the hub. */
  const RcTopic: string := "rc_code"
}
