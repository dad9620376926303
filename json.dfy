/**
 * The values a JSON text denotes, as the source receives them from
 * `JSON.parse` or hands them to `JSON.stringify`. Numbers are reals: the
 * model never does arithmetic on them, it only asks whether a value is one.
 */
module Json {

  datatype Json =
    | JNull
    | JBool(b: bool)
    | JNumber(n: real)
    | JString(s: string)
    | JArray(elems: seq<Json>)
    | JObject(fields: map<string, Json>)
}
