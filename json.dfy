/** Decoded JSON values, as Go's `interface{}` holds them after `encoding/json`. */
module Json {
  datatype JsonValue =
    | JString(str: string)
    | JNumber(num: real)
    | JBool(truth: bool)
    | JNull
    | JArray(items: seq<JsonValue>)
    | JObject(members: map<string, JsonValue>)

  /** A JSON object: a JWT header, a claim set, the raw fields of a token response. */
  type Object = map<string, JsonValue>
}
