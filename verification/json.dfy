/** The value `JSON.parse` produces, kept abstract: the model never reads or
    writes JSON text, it only inspects parsed values the way the client's Ruby
    code does. */
module Json {

  /** A parsed JSON document. Numbers are kept as their source text: the client
      never does arithmetic on them. */
  datatype Json =
    | JNull
    | JBool(b: bool)
    | JNumber(text: string)
    | JString(s: string)
    | JArray(items: seq<Json>)
    | JObject(fields: map<string, Json>)

  /** What `JSON.parse(body)` made of a response body: a value, or a
      `JSON::ParserError`. Which texts parse (top-level scalars, for instance)
      is the parser's business, not the client's. */
  datatype Parsed = ParserError | Parsed(value: Json)

  /** Ruby's `hash[key]` on a parsed object: the stored value, or `nil` (which
      is also what a JSON `null` becomes) when the key is absent. */
  function Field(fields: map<string, Json>, key: string): Json {
    if key in fields then fields[key] else JNull
  }

  /** Ruby truthiness of a parsed value: only `nil` and `false` are falsy, so
      `""`, `0` and `[]` are all truthy. */
  predicate Truthy(v: Json) {
    !v.JNull? && v != JBool(false)
  }
}
