/** Responses as the handlers build them: status, headers and body. */
module Http {
  import opened Types
  import opened Cors

  datatype Body = Text(text: string) | JsonValue(value: Json)

  datatype Response = Response(status: int, headers: Headers, body: Body)

  /** `{ error: message }`. */
  function ErrorBody(message: string): Json
  {
    JObject([("error", JString(message))])
  }
}
