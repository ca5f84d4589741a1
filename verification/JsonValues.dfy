/** JSON documents after parsing. */
module JsonValues {

  /** Numbers are exact, so only their equality and order are meaningful. */
  datatype Json =
    | JNull
    | JBool(b: bool)
    | JNumber(n: real)
    | JString(s: string)
    | JArray(elements: seq<Json>)
    | JObject(members: map<string, Json>)
}
