/**
 * Parsed JSON values, as `JSON.parse` hands them to the front-end and as
 * request bodies are handed to `JSON.stringify`. Numbers are integers here:
 * every number the modelled code inspects is an id, a count or a status code.
 */
module Json {
  import opened Wrappers

  datatype Json =
    | JNull
    | JBool(b: bool)
    | JNum(n: int)
    | JStr(s: string)
    | JArr(items: seq<Json>)
    | JObj(fields: map<string, Json>)

  /** JavaScript truthiness of a parsed value. */
  predicate Truthy(j: Json)
  {
    match j
    case JNull => false
    case JBool(b) => b
    case JNum(n) => n != 0
    case JStr(s) => s != ""
    case _ => true
  }

  /** Python truthiness of the same value: empty lists and dictionaries are false too. */
  predicate PyTruthy(j: Json)
  {
    match j
    case JNull => false
    case JBool(b) => b
    case JNum(n) => n != 0
    case JStr(s) => s != ""
    case JArr(items) => |items| > 0
    case JObj(fields) => |fields| > 0
  }

  /** `j.key` when `typeof j.key === "string"`; `None` for every other value or shape. */
  function StringField(j: Json, key: string): Option<string>
  {
    if j.JObj? && key in j.fields && j.fields[key].JStr? then Some(j.fields[key].s) else None
  }

  /** A nullable number: `null` or a number. */
  function NullableNum(n: Option<int>): Json
  {
    if n.Some? then JNum(n.value) else JNull
  }

  /** A nullable string: `null` or a string. */
  function NullableStr(s: Option<string>): Json
  {
    if s.Some? then JStr(s.value) else JNull
  }
}
