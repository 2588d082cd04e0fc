/** What a handler writes back: a status code, the two headers the handlers
    set, and a body. Payloads decoded from a provider are opaque values of a
    type parameter V. */
module Http {
  const StatusOK := 200
  const StatusBadRequest := 400
  const StatusMethodNotAllowed := 405
  const StatusInternalServerError := 500

  const JsonContentType := "application/json"
  /** The Content-Type that net/http's Error always writes. */
  const PlainTextContentType := "text/plain; charset=utf-8"

  const HealthyBody := "{\"status\": \"healthy\"}"
  const MethodNotAllowedBody := "{\"status\": \"method not allowed\"}"
  const NotSetMessage := "Lat and/or Long positions error - not set"

  /** The X-Cache-Status header: not written, "HIT" or "MISS". */
  datatype CacheStatus = Unset | Hit | Miss

  datatype Header = Header(contentType: string, cacheStatus: CacheStatus)

  datatype Body<V> =
    | Raw(text: string)            // written verbatim with Fprintf
    | Json(value: V)               // a payload written by the JSON encoder
    | ErrorText(message: string)   // a plain-text error line written by Error
    | ApiErrorText(detail: V)      // "External API error: " and the formatted payload, written by Error

  datatype Response<V> = Response(status: int, header: Header, body: Body<V>)

  /** The header set every handler starts from: Content-Type is set to JSON
      before the method is looked at. */
  const JsonHeader := Header(JsonContentType, Unset)

  /** A body written without an explicit status answers 200. */
  function Write<V>(h: Header, body: Body<V>): Response<V>
  {
    Response(StatusOK, h, body)
  }

  /** net/http's Error: the Content-Type becomes plain text, the other headers
      already set stay, and the status is the given code. */
  function HttpError<V>(h: Header, body: Body<V>, code: int): Response<V>
  {
    Response(code, h.(contentType := PlainTextContentType), body)
  }
}
