/** The upstream geocoding providers as both handlers see them: the list of
    endpoint templates, the random choice among them, the provider's reply,
    and how that reply is turned into an answer. */
module Upstream {
  import opened Wrappers
  import opened Http

  /** The endpoint templates; each takes the latitude and the longitude. */
  const Endpoints: seq<string> := [
    "https://nominatim.openstreetmap.org/reverse?format=json&zoom=18&addressdetails=1&lat=%s&lon=%s",
    "https://api.bigdatacloud.net/data/reverse-geocode-client?latitude=%s&longitude=%s&localityLanguage=en"
  ]

  /** randomInt: some index in [0, max). The cryptographic source is not
      modelled, only the range of what it returns; a non-positive bound makes
      the Go library panic, hence the precondition. */
  method RandomInt(max: int) returns (n: int)
    requires max > 0
    ensures 0 <= n < max
  {
    assert 0 <= 0 < max;
    n :| 0 <= n < max;
  }

  /** The outbound request: which endpoint, with which coordinates substituted. */
  datatype Fetch = Fetch(endpoint: nat, lat: string, long: string)

  /** What the provider call produced: no response at all (transport error),
      a body that is not JSON, or a decoded body with its status code. */
  datatype Outcome<V> =
    | TransportErr(err: string)
    | DecodeErr(err: string)
    | Status(code: int, payload: V)

  /** The answer of one request and the provider call it made, if any. */
  datatype Exchange<V> = Exchange(response: Response<V>, upstream: Option<Fetch>)

  /** What the handler does with the provider's reply: crash, answer with an
      error status, or accept the decoded payload. */
  datatype Reaction<V> = Panic | Reject(status: int, body: Body<V>) | Accept(payload: V)

  /** The reply handling as written. `defer resp.Body.Close()` comes before the
      error check and evaluates `resp.Body` on the nil response that a
      transport error leaves, so that path panics instead of answering. The
      body is decoded before the status is looked at. */
  function ReactAsWritten<V>(outcome: Outcome<V>): Reaction<V>
  {
    match outcome
    case TransportErr(_) => Panic
    case DecodeErr(e) => Reject(StatusInternalServerError, ErrorText("Error reading response body: " + e))
    case Status(code, payload) =>
      if code != StatusOK then Reject(code, ApiErrorText(payload)) else Accept(payload)
  }

  /** The reply handling as intended: a transport error answers 500 with the
      error text; everything else as written. */
  function React<V>(outcome: Outcome<V>): (r: Reaction<V>)
    ensures !r.Panic?
    ensures r.Accept? <==> outcome.Status? && outcome.code == StatusOK
    ensures r.Accept? ==> r.payload == outcome.payload
    ensures outcome.TransportErr? ==>
      r == Reject(StatusInternalServerError, ErrorText("HTTP request error: " + outcome.err))
    ensures outcome.DecodeErr? ==> r.Reject? && r.status == StatusInternalServerError
    ensures outcome.Status? && outcome.code != StatusOK ==>
      r == Reject(outcome.code, ApiErrorText(outcome.payload))
  {
    match outcome
    case TransportErr(e) => Reject(StatusInternalServerError, ErrorText("HTTP request error: " + e))
    case _ => ReactAsWritten(outcome)
  }

  /** The discrepancy: on a transport error the code as written panics where
      the intended answer is a 500. */
  lemma TransportErrorPanicsAsWritten<V>(e: string)
    ensures ReactAsWritten<V>(TransportErr(e)) == Panic
    ensures React<V>(TransportErr(e)) == Reject(StatusInternalServerError, ErrorText("HTTP request error: " + e))
  {
  }

  /** On every other reply the intended handling is the code's own. */
  lemma ReactMatchesAsWrittenOtherwise<V>(outcome: Outcome<V>)
    requires !outcome.TransportErr?
    ensures React(outcome) == ReactAsWritten(outcome)
  {
  }
}
