/** The earlier, cache-less handler: the same method switch, validation and
    reply translation, with no cache in front of the provider. */
module Geocode {
  import opened Wrappers
  import opened Geo
  import opened Http
  import opened Upstream
  import TtlCache
  import Handlers

  /** latitudeLongitude: JSON Content-Type first; GET is a health probe, POST
      decodes, checks for empty fields and asks endpoint `pick`, any other
      method is refused. */
  function LatitudeLongitude<V>(httpMethod: string, request: Result<Coordinates, string>, outcome: Outcome<V>, pick: nat): (ex: Exchange<V>)
    requires pick < |Endpoints|
    ensures ex.upstream.Some? <==>
      httpMethod == "POST" && request.Success? && request.value.lat != "" && request.value.long != ""
    ensures ex.upstream.Some? ==> ex.upstream.value == Fetch(pick, request.value.lat, request.value.long)
    ensures ex.response.header.cacheStatus == Unset
    ensures ex.response.status == StatusOK <==>
      httpMethod == "GET" || (ex.upstream.Some? && outcome.Status? && outcome.code == StatusOK)
    ensures ex.response.header.contentType == JsonContentType <==> ex.response.status == StatusOK
    ensures httpMethod == "POST" && (request.Failure? || request.value.lat == "" || request.value.long == "") ==>
      ex.response.status == StatusBadRequest &&
      ex.response.body == ErrorText(if request.Failure? then request.error else NotSetMessage)
  {
    var h := JsonHeader;
    if httpMethod == "GET" then
      Exchange(Write(h, Raw(HealthyBody)), None)
    else if httpMethod == "POST" then
      if request.Failure? then
        Exchange(HttpError(h, ErrorText(request.error), StatusBadRequest), None)
      else if request.value.lat == "" || request.value.long == "" then
        Exchange(HttpError(h, ErrorText(NotSetMessage), StatusBadRequest), None)
      else
        var c := request.value;
        var fetch := Some(Fetch(pick, c.lat, c.long));
        var reaction := React(outcome);
        if reaction.Accept? then Exchange(Write(h, Json(reaction.payload)), fetch)
        else Exchange(HttpError(h, reaction.body, reaction.status), fetch)
    else
      Exchange(HttpError(h, ErrorText(MethodNotAllowedBody), StatusMethodNotAllowed), None)
  }

  /** A GET answers the health body, whatever else the request holds, and
      calls no provider. */
  lemma HealthProbe<V>(request: Result<Coordinates, string>, outcome: Outcome<V>, pick: nat)
    requires pick < |Endpoints|
    ensures LatitudeLongitude("GET", request, outcome, pick)
      == Exchange(Response(StatusOK, Header(JsonContentType, Unset), Raw(HealthyBody)), None)
  {
  }

  /** A valid POST whose provider answers 200 with a decodable body answers
      200 with that payload. */
  lemma ValidPostSucceeds<V>(c: Coordinates, payload: V, pick: nat)
    requires pick < |Endpoints|
    requires c.lat != "" && c.long != ""
    ensures LatitudeLongitude("POST", Success(c), Status(StatusOK, payload), pick)
      == Exchange(Response(StatusOK, JsonHeader, Json(payload)), Some(Fetch(pick, c.lat, c.long)))
  {
  }

  /** A POST of the empty coordinates answers 400 with the not-set message
      and calls no provider. */
  lemma EmptyCoordinatesRejected<V>(outcome: Outcome<V>, pick: nat)
    requires pick < |Endpoints|
    ensures LatitudeLongitude("POST", Success(Coordinates("", "")), outcome, pick)
      == Exchange(Response(StatusBadRequest, Header(PlainTextContentType, Unset), ErrorText(NotSetMessage)), None)
  {
  }

  /** Any method other than GET and POST answers 405. */
  lemma OtherMethodsNotAllowed<V>(httpMethod: string, request: Result<Coordinates, string>, outcome: Outcome<V>, pick: nat)
    requires pick < |Endpoints|
    requires httpMethod != "GET" && httpMethod != "POST"
    ensures LatitudeLongitude(httpMethod, request, outcome, pick)
      == Exchange(Response(StatusMethodNotAllowed, Header(PlainTextContentType, Unset), ErrorText(MethodNotAllowedBody)), None)
  {
  }

  /** A provider reply that does not decode answers 500 even when its status
      is 200; one that decodes with any other status passes that status on. */
  lemma UpstreamFailuresTranslated<V>(c: Coordinates, outcome: Outcome<V>, pick: nat)
    requires pick < |Endpoints|
    requires c.lat != "" && c.long != ""
    requires !(outcome.Status? && outcome.code == StatusOK)
    ensures var r := LatitudeLongitude("POST", Success(c), outcome, pick).response;
      r.status == (if outcome.Status? then outcome.code else StatusInternalServerError)
  {
  }

  function WithoutCacheStatus<V>(ex: Exchange<V>): Exchange<V>
  {
    ex.(response := ex.response.(header := ex.response.header.(cacheStatus := Unset)))
  }

  /** When nothing live is cached, the cached handler answers every request
      as this one does, apart from the X-Cache-Status header, and calls the
      same endpoint. */
  lemma CachedHandlerAgreesWhenNothingLive<V>(data: TtlCache.Items<V>, httpMethod: string,
                                              request: Result<Coordinates, string>, env: Handlers.Env<V>, pick: nat)
    requires pick < |Endpoints|
    requires forall k :: k in data ==> TtlCache.Expired(data[k], env.getAt)
    ensures WithoutCacheStatus(Handlers.Serve(data, httpMethod, request, env, pick).exchange)
      == LatitudeLongitude(httpMethod, request, env.outcome, pick)
  {
  }
}
