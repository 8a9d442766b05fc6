/**
 * A JSON value (RFC 8259, section 3) as a parser hands it over, and the outcome of parsing a
 * response body. Numbers keep the distinction RFC 8259 section 6 makes in its grammar: a literal
 * with neither fraction nor exponent (`JInt`), and any other (`JDecimal`, by its exact value).
 */
module Json {

  datatype Json =
    | JNull
    | JBool(b: bool)
    | JInt(i: int)
    | JDecimal(r: real)
    | JString(s: string)
    | JArray(items: seq<Json>)
    | JObject(members: map<string, Json>)

  /** A response body: text that is not JSON at all, or the value it parses to. */
  datatype Body = NotJson | Parsed(value: Json)

  predicate IsObject(j: Json) {
    j.JObject?
  }

  /** Whether every element of an array is an object (Swift's `as? [[String: Any]]`). */
  predicate AllObjects(items: seq<Json>) {
    forall i :: 0 <= i < |items| ==> IsObject(items[i])
  }

  /** The directory's answer for a listed app: `{"results":[{"trackId":n}]}`. */
  function ListedAppBody(trackId: int): Json {
    JObject(map["results" := JArray([JObject(map["trackId" := JInt(trackId)])])])
  }
}
