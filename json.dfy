/**
 * The JSON documents the game's telemetry server returns, as Python's `json`
 * module decodes them: integers and floating-point numbers stay apart, and an
 * object is a dictionary from keys to values.
 */
module JsonValue {

  datatype Json =
    | JNull
    | JBool(b: bool)
    | JInt(i: int)
    | JReal(r: real)
    | JString(s: string)
    | JArray(items: seq<Json>)
    | JObject(fields: map<string, Json>)

  /** `d.get(key)`: the value stored under `key`, or None (JSON null) when the key is absent. */
  function Get(d: map<string, Json>, key: string): Json
  {
    if key in d then d[key] else JNull
  }

  /** `d.get(key, default)`: like Get, but an absent key gives `default`; a key holding null still gives null. */
  function GetOr(d: map<string, Json>, key: string, default: Json): Json
  {
    if key in d then d[key] else default
  }

  /** Python truthiness of a decoded JSON value: None, False, 0, 0.0, "", [] and {} are false. */
  predicate Truthy(j: Json)
  {
    match j
    case JNull => false
    case JBool(b) => b
    case JInt(i) => i != 0
    case JReal(r) => r != 0.0
    case JString(s) => s != ""
    case JArray(items) => items != []
    case JObject(fields) => fields != map[]
  }
}
