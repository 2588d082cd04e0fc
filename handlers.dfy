/** The cached request handler: decode, validate, build the cache key, look it
    up, and on a miss ask one provider and cache a successful reply. */
module Handlers {
  import opened Wrappers
  import opened Geo
  import opened Http
  import opened Upstream
  import opened TtlCache

  /** time.Minute, in nanoseconds. */
  const Minute := 60 * 1_000_000_000
  const CacheDurationMinutes := 30
  const CacheTtl := CacheDurationMinutes * Minute

  /** Only emptiness is checked: no parsing, no range check. */
  function ValidateCoordinates(c: Coordinates): (err: Option<string>)
    ensures err.Some? <==> c.lat == "" || c.long == ""
    ensures err.Some? ==> err.value == NotSetMessage
  {
    if c.lat == "" || c.long == "" then Some(NotSetMessage) else None
  }

  /** The raw strings joined by a comma, with no normalisation. */
  function CacheKey(c: Coordinates): string
  {
    c.lat + "," + c.long
  }

  /** Two requests whose latitudes hold no comma share a key exactly when they
      carry the same strings. */
  lemma CacheKeyInjective(a: Coordinates, b: Coordinates)
    requires ',' !in a.lat && ',' !in b.lat
    ensures CacheKey(a) == CacheKey(b) <==> a == b
  {
    if CacheKey(a) == CacheKey(b) {
      var k := CacheKey(a);
      assert k[|a.lat|] == ',' && k[|b.lat|] == ',';
      assert a.lat == k[..|a.lat|] == b.lat;
      assert a.long == k[|a.lat| + 1..] == b.long;
    }
  }

  /** Without that restriction keys collide: these two requests share a key,
      so one is answered from the other's cached location. */
  lemma CacheKeyCollision()
    ensures Coordinates("1,2", "3") != Coordinates("1", "2,3")
    ensures CacheKey(Coordinates("1,2", "3")) == CacheKey(Coordinates("1", "2,3"))
  {
    assert CacheKey(Coordinates("1,2", "3")) == "1,2,3";
    assert CacheKey(Coordinates("1", "2,3")) == "1,2,3";
  }

  /** Keys are not normalised: the same latitude written two ways gives two
      keys. */
  lemma CacheKeyIsRaw()
    ensures CacheKey(Coordinates("51.5", "0.1")) != CacheKey(Coordinates("51.50", "0.1"))
  {
    assert |CacheKey(Coordinates("51.5", "0.1"))| == 8;
    assert |CacheKey(Coordinates("51.50", "0.1"))| == 9;
  }

  /** What the outside world supplies to one request: the clock reading taken
      by the Get, the one taken by the Set, and the provider's reply. */
  datatype Env<V> = Env(getAt: int, setAt: int, outcome: Outcome<V>)

  /** The answer of one request and the cache map it leaves. */
  datatype Served<V> = Served(exchange: Exchange<V>, data: Items<V>)

  function CacheHit<V>(h: Header, cached: V): Response<V>
  {
    Write(h.(cacheStatus := Hit), Json(cached))
  }

  /** handleCacheMiss: mark MISS, call endpoint `pick`, translate the reply,
      and store the payload for CacheTtl only when it is accepted. */
  function CacheMiss<V>(data: Items<V>, h: Header, c: Coordinates, key: string, env: Env<V>, pick: nat): Served<V>
    requires pick < |Endpoints|
  {
    var h := h.(cacheStatus := Miss);
    var fetch := Some(Fetch(pick, c.lat, c.long));
    var reaction := React(env.outcome);
    if reaction.Accept? then
      Served(Exchange(Write(h, Json(reaction.payload)), fetch), Put(data, key, reaction.payload, CacheTtl, env.setAt))
    else
      Served(Exchange(HttpError(h, reaction.body, reaction.status), fetch), data)
  }

  /** handlePostRequest on a cache map. */
  function Post<V>(data: Items<V>, h: Header, request: Result<Coordinates, string>, env: Env<V>, pick: nat): Served<V>
    requires pick < |Endpoints|
  {
    match request
    case Failure(e) => Served(Exchange(HttpError(h, ErrorText(e), StatusBadRequest), None), data)
    case Success(c) =>
      match ValidateCoordinates(c)
      case Some(e) => Served(Exchange(HttpError(h, ErrorText(e), StatusBadRequest), None), data)
      case None =>
        var key := CacheKey(c);
        var loaded := Lookup(data, key, env.getAt);
        if loaded.response.Some? then Served(Exchange(CacheHit(h, loaded.response.value), None), loaded.data)
        else CacheMiss(loaded.data, h, c, key, env, pick)
  }

  /** LatitudeLongitude on a cache map: JSON Content-Type first, then the
      switch on the method. */
  function Serve<V>(data: Items<V>, httpMethod: string, request: Result<Coordinates, string>, env: Env<V>, pick: nat): Served<V>
    requires pick < |Endpoints|
  {
    var h := JsonHeader;
    if httpMethod == "GET" then Served(Exchange(Write(h, Raw(HealthyBody)), None), data)
    else if httpMethod == "POST" then Post(data, h, request, env, pick)
    else Served(Exchange(HttpError(h, ErrorText(MethodNotAllowedBody), StatusMethodNotAllowed), None), data)
  }

  // ---------------------------------------------------------------------------
  // Properties of one request

  /** A body that does not decode, or coordinates with an empty field, answer
      400 with the error text and touch neither the cache nor a provider. */
  lemma RejectedRequestTouchesNothing<V>(data: Items<V>, h: Header, request: Result<Coordinates, string>, env: Env<V>, pick: nat)
    requires pick < |Endpoints|
    requires request.Failure? || request.value.lat == "" || request.value.long == ""
    ensures var s := Post(data, h, request, env, pick);
      && s.data == data
      && s.exchange.upstream == None
      && s.exchange.response.status == StatusBadRequest
      && s.exchange.response.header == h.(contentType := PlainTextContentType)
      && s.exchange.response.body == ErrorText(if request.Failure? then request.error else NotSetMessage)
  {
  }

  /** A live cached item answers 200, HIT, with the cached payload; no
      provider is called and the cache is unchanged. */
  lemma HitServesCachedPayload<V>(data: Items<V>, h: Header, c: Coordinates, env: Env<V>, pick: nat)
    requires pick < |Endpoints|
    requires c.lat != "" && c.long != ""
    requires CacheKey(c) in data && !Expired(data[CacheKey(c)], env.getAt)
    ensures Post(data, h, Success(c), env, pick)
      == Served(Exchange(Response(StatusOK, h.(cacheStatus := Hit), Json(data[CacheKey(c)].response)), None), data)
  {
  }

  /** On a miss the response is marked MISS whatever follows, the chosen
      endpoint is called with the raw coordinates, and the cache is written
      exactly when the provider answered 200 with a decodable body. */
  lemma MissCallsProvider<V>(data: Items<V>, h: Header, c: Coordinates, env: Env<V>, pick: nat)
    requires pick < |Endpoints|
    requires c.lat != "" && c.long != ""
    requires CacheKey(c) !in data || Expired(data[CacheKey(c)], env.getAt)
    ensures var s := Post(data, h, Success(c), env, pick);
      var evicted := data - {CacheKey(c)};
      && s.exchange.response.header.cacheStatus == Miss
      && s.exchange.upstream == Some(Fetch(pick, c.lat, c.long))
      && (if env.outcome.Status? && env.outcome.code == StatusOK then
            && s.data == Put(evicted, CacheKey(c), env.outcome.payload, CacheTtl, env.setAt)
            && s.exchange.response == Response(StatusOK, h.(cacheStatus := Miss), Json(env.outcome.payload))
          else
            && s.data == evicted
            && s.exchange.response.header.contentType == PlainTextContentType
            && s.exchange.response.status == (if env.outcome.Status? then env.outcome.code else StatusInternalServerError))
  {
  }

  /** A successful miss followed by the identical request no later than
      CacheTtl after the Set is a HIT on the same payload with no provider
      call, whatever the provider would have said the second time. */
  lemma SecondRequestWithinTtlHits<V>(data: Items<V>, c: Coordinates, env1: Env<V>, env2: Env<V>, pick1: nat, pick2: nat)
    requires pick1 < |Endpoints| && pick2 < |Endpoints|
    requires c.lat != "" && c.long != ""
    requires CacheKey(c) !in data || Expired(data[CacheKey(c)], env1.getAt)
    requires env1.outcome.Status? && env1.outcome.code == StatusOK
    requires env2.getAt <= env1.setAt + CacheTtl
    ensures var first := Serve(data, "POST", Success(c), env1, pick1);
      var second := Serve(first.data, "POST", Success(c), env2, pick2);
      && first.exchange.response == Response(StatusOK, Header(JsonContentType, Miss), Json(env1.outcome.payload))
      && second == Served(Exchange(Response(StatusOK, Header(JsonContentType, Hit), Json(env1.outcome.payload)), None), first.data)
  {
  }

  /** No negative caching: after a miss that did not get a 200 with a
      decodable body, the identical request misses again and calls a provider
      again. */
  lemma FailedLookupIsRetried<V>(data: Items<V>, c: Coordinates, env1: Env<V>, env2: Env<V>, pick1: nat, pick2: nat)
    requires pick1 < |Endpoints| && pick2 < |Endpoints|
    requires c.lat != "" && c.long != ""
    requires CacheKey(c) !in data || Expired(data[CacheKey(c)], env1.getAt)
    requires !(env1.outcome.Status? && env1.outcome.code == StatusOK)
    ensures var first := Serve(data, "POST", Success(c), env1, pick1);
      var second := Serve(first.data, "POST", Success(c), env2, pick2);
      && CacheKey(c) !in first.data
      && second.exchange.upstream == Some(Fetch(pick2, c.lat, c.long))
      && second.exchange.response.header.cacheStatus == Miss
  {
  }

  /** GET and every method other than POST answer without reading or writing
      the cache and without calling a provider: the health body with 200 for
      GET, 405 with the method-not-allowed body otherwise. */
  lemma NonPostLeavesCache<V>(data: Items<V>, httpMethod: string, request: Result<Coordinates, string>, env: Env<V>, pick: nat)
    requires pick < |Endpoints|
    requires httpMethod != "POST"
    ensures var s := Serve(data, httpMethod, request, env, pick);
      && s.data == data
      && s.exchange.upstream == None
      && s.exchange.response == (
           if httpMethod == "GET" then Response(StatusOK, JsonHeader, Raw(HealthyBody))
           else Response(StatusMethodNotAllowed, Header(PlainTextContentType, Unset), ErrorText(MethodNotAllowedBody)))
  {
  }

  // ---------------------------------------------------------------------------
  // Many requests in sequence

  datatype Request<V> = Request(httpMethod: string, body: Result<Coordinates, string>, env: Env<V>, pick: nat)

  ghost predicate Drawn<V>(reqs: seq<Request<V>>)
  {
    forall i :: 0 <= i < |reqs| ==> reqs[i].pick < |Endpoints|
  }

  /** The cache map after serving `reqs` in order, starting from NewCache. */
  function Replay<V>(reqs: seq<Request<V>>): Items<V>
    requires Drawn(reqs)
  {
    if reqs == [] then map[]
    else
      var last := reqs[|reqs| - 1];
      Serve(Replay(reqs[..|reqs| - 1]), last.httpMethod, last.body, last.env, last.pick).data
  }

  /** `item` under `key` is what request `r` would store: a valid POST whose
      key is `key`, whose provider answered 200 with exactly that payload,
      expiring CacheTtl after the Set's clock reading. */
  ghost predicate StoredBy<V>(r: Request<V>, key: string, item: CacheItem<V>)
  {
    && r.httpMethod == "POST"
    && r.body.Success?
    && ValidateCoordinates(r.body.value).None?
    && CacheKey(r.body.value) == key
    && r.env.outcome == Status(StatusOK, item.response)
    && item.expiration == r.env.setAt + CacheTtl
  }

  /** One request keeps or drops the items it finds and adds at most the one
      it stores itself. */
  lemma ServeOnlyStoresSuccess<V>(data: Items<V>, r: Request<V>)
    requires r.pick < |Endpoints|
    ensures var s := Serve(data, r.httpMethod, r.body, r.env, r.pick).data;
      forall key :: key in s ==> (key in data && s[key] == data[key]) || StoredBy(r, key, s[key])
  {
  }

  /** Every item in the cache, after any sequence of requests, was stored by
      one of them from a 200 reply with a decodable body: errors are never
      cached and nothing else writes the cache. */
  lemma {:induction false} OnlySuccessfulRepliesAreCached<V>(reqs: seq<Request<V>>)
    requires Drawn(reqs)
    ensures var data := Replay(reqs);
      forall key :: key in data ==> exists i :: 0 <= i < |reqs| && StoredBy(reqs[i], key, data[key])
  {
    if reqs != [] {
      var n := |reqs| - 1;
      var prefix := reqs[..n];
      OnlySuccessfulRepliesAreCached(prefix);
      var before := Replay(prefix);
      var after := Replay(reqs);
      ServeOnlyStoresSuccess(before, reqs[n]);
      forall key | key in after
        ensures exists i :: 0 <= i < |reqs| && StoredBy(reqs[i], key, after[key])
      {
        if key in before && after[key] == before[key] {
          assert key in Replay(prefix);
          var i :| 0 <= i < |prefix| && StoredBy(prefix[i], key, before[key]);
          assert prefix[i] == reqs[i];
        } else {
          assert StoredBy(reqs[n], key, after[key]);
        }
      }
    }
  }

  // ---------------------------------------------------------------------------
  // The handler over the shared cache object

  /** handleCacheMiss over the cache object; `pick` is the index drawn. */
  method HandleCacheMiss<V>(cache: Cache<V>, h: Header, c: Coordinates, key: string, env: Env<V>)
    returns (ex: Exchange<V>, ghost pick: nat)
    modifies cache
    ensures pick < |Endpoints|
    ensures Served(ex, cache.data) == CacheMiss(old(cache.data), h, c, key, env, pick)
  {
    var h := h.(cacheStatus := Miss);
    var i := RandomInt(|Endpoints|);
    var fetch := Fetch(i, c.lat, c.long);
    var reaction := React(env.outcome);
    if reaction.Accept? {
      cache.Set(key, reaction.payload, CacheTtl, env.setAt);
      ex := Exchange(Write(h, Json(reaction.payload)), Some(fetch));
    } else {
      ex := Exchange(HttpError(h, reaction.body, reaction.status), Some(fetch));
    }
    pick := i;
  }

  /** handlePostRequest over the cache object. */
  method HandlePostRequest<V>(cache: Cache<V>, h: Header, request: Result<Coordinates, string>, env: Env<V>)
    returns (ex: Exchange<V>, ghost pick: nat)
    modifies cache
    ensures pick < |Endpoints|
    ensures Served(ex, cache.data) == Post(old(cache.data), h, request, env, pick)
  {
    pick := 0;
    if request.Failure? {
      ex := Exchange(HttpError(h, ErrorText(request.error), StatusBadRequest), None);
    } else {
      var c := request.value;
      var err := ValidateCoordinates(c);
      if err.Some? {
        ex := Exchange(HttpError(h, ErrorText(err.value), StatusBadRequest), None);
      } else {
        var key := CacheKey(c);
        var cached := cache.Get(key, env.getAt);
        if cached.Some? {
          ex := Exchange(CacheHit(h, cached.value), None);
        } else {
          ex, pick := HandleCacheMiss(cache, h, c, key, env);
        }
      }
    }
  }

  /** LatitudeLongitude over the cache object. */
  method LatitudeLongitude<V>(cache: Cache<V>, httpMethod: string, request: Result<Coordinates, string>, env: Env<V>)
    returns (ex: Exchange<V>, ghost pick: nat)
    modifies cache
    ensures pick < |Endpoints|
    ensures Served(ex, cache.data) == Serve(old(cache.data), httpMethod, request, env, pick)
  {
    var h := JsonHeader;
    pick := 0;
    if httpMethod == "GET" {
      ex := Exchange(Write(h, Raw(HealthyBody)), None);
    } else if httpMethod == "POST" {
      ex, pick := HandlePostRequest(cache, h, request, env);
    } else {
      ex := Exchange(HttpError(h, ErrorText(MethodNotAllowedBody), StatusMethodNotAllowed), None);
    }
  }
}
