/**
 * The structured value a bridge message body becomes once Foundation has
 * parsed its JSON text: objects are dictionaries from keys to values.
 */
module Json {
  import opened Wrappers

  datatype Json =
    | JNull
    | JBool(b: bool)
    | JNumber(n: int)
    | JString(s: string)
    | JArray(items: seq<Json>)
    | JObject(fields: map<string, Json>)

  type JsonObject = map<string, Json>

  /** The string stored under `key`, if there is one (`obj[key] as? String`). */
  function StringMember(obj: JsonObject, key: string): Option<string>
  {
    if key in obj && obj[key].JString? then Some(obj[key].s) else None
  }

  /** The object stored under `key`, if there is one (`obj[key] as? [String: Any]`). */
  function ObjectMember(obj: JsonObject, key: string): Option<JsonObject>
  {
    if key in obj && obj[key].JObject? then Some(obj[key].fields) else None
  }
}
