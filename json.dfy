/** The values `JSON.parse` can produce. Numbers are JavaScript doubles; they are
    modelled as reals, since the schemas accept non-integers. */
module Json {

  datatype Json =
    | JNull
    | JBool(b: bool)
    | JNumber(n: real)
    | JString(s: string)
    | JArray(items: seq<Json>)
    | JObject(fields: map<string, Json>)
}
