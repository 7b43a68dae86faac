/**
 * The JSON values that travel through the server: request bodies, the session
 * blob written to and read from a session file, and notification payloads.
 * Numbers are modelled as integers.
 */
module Json {
  datatype Json =
    | JNull
    | JBool(b: bool)
    | JNumber(n: int)
    | JString(s: string)
    | JArray(items: seq<Json>)
    | JObject(fields: map<string, Json>)

  /** JavaScript truthiness of a parsed JSON value (`if (x)` / `if (!x)`). */
  predicate Truthy(j: Json) {
    match j
    case JNull => false
    case JBool(b) => b
    case JNumber(n) => n != 0
    case JString(s) => s != ""
    case JArray(_) => true
    case JObject(_) => true
  }

  /** A record in the sense of `z.record(...)`: a plain JSON object. */
  predicate IsRecord(j: Json) {
    j.JObject?
  }

  lemma RecordIsTruthy(j: Json)
    requires IsRecord(j)
    ensures Truthy(j)
  {
  }
}
