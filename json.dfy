/** A parsed JSON value, as `JSON.parse` and `request.json()` hand it over. */
module JsonValues {
  import opened Wrappers

  /**
   * Objects are maps from key to value: after `JSON.parse` a repeated key keeps
   * its last value, so a key has one value. Numbers never matter to the core and
   * are kept as integers.
   */
  datatype Json =
    | JNull
    | JBool(b: bool)
    | JNumber(n: int)
    | JString(s: string)
    | JArray(items: seq<Json>)
    | JObject(fields: map<string, Json>)

  /** The member `key` of an object, or None (`undefined`) when absent or when `j` is no object. */
  function Member(j: Json, key: string): Option<Json> {
    if j.JObject? && key in j.fields then Some(j.fields[key]) else None
  }
}
