/** The JSON document that `json.load` hands to the render script. */
module JsonValue {

  /**
   * A decoded JSON value, as Python's `json` module produces it: `null` is
   * `None`, integer literals are unbounded `int`s, other number literals are
   * `float`s (kept here as their IEEE-754 bit pattern, never interpreted),
   * arrays are lists and objects are dicts. An object is a map because
   * `json.load` keeps only the last of repeated keys.
   */
  datatype Json =
    | JNull
    | JBool(b: bool)
    | JInt(i: int)
    | JFloat(bits: bv64)
    | JString(s: string)
    | JArray(items: seq<Json>)
    | JObject(members: map<string, Json>)
}
