/** The decoded JSON value the service answers with. The client never looks
    inside the values it returns, so they are kept opaque. */
module Json {

  datatype Json =
    | JNull
    | JBool(b: bool)
    | JNumber(literal: string)
    | JString(s: string)
    | JArray(items: seq<Json>)
    | JObject(fields: map<string, Json>)

  /** A decoded top-level JSON object, keyed by member name. */
  type JsonObject = map<string, Json>
}
