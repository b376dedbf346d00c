/**
 * A decoded JSON document as `json.loads` hands it to the handlers, with the
 * three Python operations the handlers apply to it: truthiness (`not x`),
 * `dict.get` with and without a default, and indexing along a path of keys.
 */
module Json {
  import opened Wrappers

  /** One value of a decoded JSON document. A JSON object becomes a dict,
      modelled as a map (a repeated key keeps its last value, as in json.loads). */
  datatype JsonValue =
    | JNull
    | JBool(b: bool)
    | JInt(i: int)
    | JFloat(r: real)
    | JString(s: string)
    | JArray(items: seq<JsonValue>)
    | JObject(fields: map<string, JsonValue>)

  /** Python truthiness: None, False, 0, 0.0, "", [] and {} are falsy. */
  predicate Truthy(v: JsonValue)
  {
    match v
    case JNull => false
    case JBool(b) => b
    case JInt(i) => i != 0
    case JFloat(r) => r != 0.0
    case JString(s) => s != ""
    case JArray(items) => items != []
    case JObject(fields) => fields != map[]
  }

  /** `d.get(key, default)`: the default is used only when the key is absent. */
  function GetOr(d: map<string, JsonValue>, key: string, default: JsonValue): JsonValue
  {
    if key in d then d[key] else default
  }

  /** `d.get(key)`: None when the key is absent. */
  function Get(d: map<string, JsonValue>, key: string): JsonValue
  {
    GetOr(d, key, JNull)
  }

  /** `v[path[0]][path[1]]...` on nested dicts; None where a key is missing
      or a step does not land on an object. */
  function Lookup(v: JsonValue, path: seq<string>): Option<JsonValue>
    decreases path
  {
    if path == [] then Some(v)
    else match v
      case JObject(fields) =>
        if path[0] in fields then Lookup(fields[path[0]], path[1..]) else None
      case _ => None
  }
}
