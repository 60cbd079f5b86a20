/** JSON values, as the JSON-RPC envelopes carry them and as the open-data
    API delivers records. */
module JsonValues {
  /** A JSON value; numbers are integers only. */
  datatype Json =
    | JNull
    | JBool(b: bool)
    | JNumber(n: int)
    | JString(s: string)
    | JArray(items: seq<Json>)
    | JObject(members: map<string, Json>)
}
