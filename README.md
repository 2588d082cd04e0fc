# Reverse-geocoding edge service: TTL cache and request dispatch

A Dafny model of the core of a small reverse-geocoding HTTP service. A client POSTs
`{"lat": "...", "lon": "..."}`; the handler checks that neither field is empty,
looks the raw pair up in an in-memory cache, and on a miss asks one of two
upstream providers (picked at random). It translates the reply into a status code,
and caches the decoded payload for 30 minutes only when the provider answered 200
with a decodable body. GET is a health probe. Any other method gets 405.

Modules, one per component:

- `Wrappers` (`wrappers.dfy`): `Option` and `Result`.
- `Geo` (`geo.dfy`): the `Coordinates` record, with both fields kept as raw strings.
- `Http` (`http.dfy`): the response record. It holds a status, the Content-Type and
  X-Cache-Status headers, and a body. It also holds net/http's two ways of answering:
  a plain write answers 200, and `Error` switches Content-Type to plain text.
- `Upstream` (`upstream.dfy`): the endpoint list, the bounded random index, and the
  provider's reply as an outcome value (`TransportErr | DecodeErr | Status(code, payload)`).
  It also holds `React`, the translation of a reply into an answer, which both handlers share.
- `TtlCache` (`cache.dfy`): the cache. `Put` and `Lookup` are the meaning of Set and Get
  on the map. The class `Cache` holds the map as a field and updates it in place, and each
  of its methods is proved equal to its specification function.
- `Handlers` (`handlers.dfy`): the cached handler. `Post` and `Serve` are functions of the
  cache map, the request and the outside world. That world is `Env`: the clock reading taken
  by Get, the one taken by Set, and the provider's reply. `HandleCacheMiss`,
  `HandlePostRequest` and `LatitudeLongitude` run the same steps over a `Cache` object, and
  each is proved equal to its function. `Replay` serves a whole sequence of requests
  from an empty cache.
- `Geocode` (`geocode.dfy`): the earlier handler with no cache, as one function. It is
  related to the cached handler by `CachedHandlerAgreesWhenNothingLive`.

Time is an integer count of nanoseconds, passed in where the code reads the clock.
The payload the provider returns is an opaque type parameter `V`. A provider call is
recorded as `Fetch(endpoint, lat, long)`, and `upstream == None` means no provider was called.

What the code does, and the model with it:

- Validation checks only that `lat` and `lon` are non-empty. There is no numeric parse and no range check.
- The cache key is the raw strings joined by a comma, with no fixed-precision normalisation.
- Any upstream status other than exactly 200 is passed on as an error, including other 2xx codes.
- The body is decoded before the status is looked at, so an undecodable reply answers 500 whatever its status.

The not-set message is the one the code writes, "Lat and/or Long positions error - not set".
Two tests disagree with the code:

- The test at `geocode_test.go:82` looks for "Lat and/or Lon positions error - not set", and the code never writes that string.
- The test at `geocode_test.go:103-104` compares the 405 body exactly with `{"status": "method not allowed"}`. net/http's `Error` writes the message followed by a line break, so the body is never exactly that string. `Geocode.OtherMethodsNotAllowed` states the message the code passes to `Error`.

## Model

| member | source | states |
|---|---|---|
| `TtlCache.Put` | internal/cache/cache.go:32-37 | Set replaces the key's item wholesale: new value, expiration `now + duration`. Every other key keeps its item, and the key set grows by at most that key. |
| `TtlCache.Lookup` | internal/cache/cache.go:42-66 | Get finds a value iff the key is present and `now <= expiration`; the bound is inclusive because `After` is strict. A hit returns that item's response and leaves the map unchanged. An absent key changes nothing. An expired key is deleted. Get never adds or alters any item. |
| `TtlCache.Expired` | internal/cache/cache.go:52-54 | Definition, no ensures: an item is expired only when the clock is strictly past its expiration, as `After` is strict. `Lookup` and its lemmas state the consequences. |
| `TtlCache.PutThenLookup` | internal/cache/cache.go:32-66 | After Set(k, v, d) at t, a Get at any t' <= t + d is a hit on v with the map unchanged. A Get at any later t' misses and leaves the map without k. |
| `TtlCache.LookupTwice` | internal/cache/cache.go:52-60 | Lazy eviction is idempotent. A second Get at the same instant answers the same and changes nothing more. |
| `TtlCache.OtherKeysUntouched` | internal/cache/cache.go:32-60 | Set(k, ...) and Get(k) never add, remove or change the item of another key. |
| `TtlCache.Cache.constructor` | internal/cache/cache.go:24-26 | NewCache starts with an empty map. |
| `TtlCache.Cache.Set` | internal/cache/cache.go:32-37 | The in-place store leaves the map equal to `Put` of the old map. |
| `TtlCache.Cache.Get` | internal/cache/cache.go:42-66 | The in-place lookup returns `Lookup`'s answer and leaves `Lookup`'s map. |
| `Upstream.RandomInt` | internal/handlers/latitude_longitude.go:39-45 | The drawn index lies in [0, max). A non-positive bound is excluded, because the library panics on it. |
| `Upstream.React` | internal/handlers/latitude_longitude.go:107-122 | A reply is accepted iff it decoded and its status is exactly 200, and then its payload is the accepted one. A transport error answers 500 "HTTP request error: ...". An undecodable body answers 500. A decodable non-200 reply passes its code on with the payload as detail. It never panics. |
| `Upstream.ReactAsWritten` | internal/handlers/latitude_longitude.go:107-122 | Definition, no ensures: the reply handling as written. A transport error panics, an undecodable body answers 500, a decodable non-200 reply passes its code on, and a decodable 200 is accepted. `TransportErrorPanicsAsWritten` and `ReactMatchesAsWrittenOtherwise` relate it to `React`. |
| `Upstream.TransportErrorPanicsAsWritten` | internal/handlers/latitude_longitude.go:107-112 | As written, a transport error panics because `resp.Body` is read on a nil response. The intended handling answers 500. |
| `Upstream.ReactMatchesAsWrittenOtherwise` | internal/handlers/latitude_longitude.go:114-122 | On every reply except a transport error, the intended handling and the code as written agree. |
| `Handlers.ValidateCoordinates` | internal/handlers/latitude_longitude.go:90-95 | Fails iff `Lat == ""` or `Long == ""`, always with the not-set message. There is no other check. |
| `Handlers.CacheKeyInjective` | internal/handlers/latitude_longitude.go:77 | For latitudes without a comma, two requests share the key `Lat + "," + Long` exactly when their raw strings are equal. |
| `Handlers.CacheKeyCollision` | internal/handlers/latitude_longitude.go:77 | Without that condition keys collide: ("1,2", "3") and ("1", "2,3") are different requests with one key. |
| `Handlers.CacheKeyIsRaw` | internal/handlers/latitude_longitude.go:77 | Keys are not normalised: "51.5" and "51.50" give different keys. |
| `Handlers.RejectedRequestTouchesNothing` | internal/handlers/latitude_longitude.go:67-75 | A decode failure or an empty field answers 400 with the decoder's error or the not-set message. The cache is unchanged and no provider is called. |
| `Handlers.HitServesCachedPayload` | internal/handlers/latitude_longitude.go:77-81 | A live item answers 200 with `X-Cache-Status: HIT` and the cached payload. No provider is called and the cache is unchanged. |
| `Handlers.MissCallsProvider` | internal/handlers/latitude_longitude.go:102-126 | A miss is marked MISS whatever follows, and calls the chosen endpoint with the raw coordinates. On 200 with a decodable body, it stores the payload for 30 minutes from the Set's clock reading and answers it. On any other reply it answers the translated error status and leaves the cache as the lookup left it. |
| `Handlers.SecondRequestWithinTtlHits` | internal/handlers/latitude_longitude.go:124-125 | After a successful miss, the identical request no later than 30 minutes after the Set is a HIT on the same payload. No provider is called, whatever the provider would now answer. |
| `Handlers.FailedLookupIsRetried` | internal/handlers/latitude_longitude.go:109-122 | Errors are not cached. After a miss that did not get a decodable 200, the key is absent, and the identical request calls a provider again. |
| `Handlers.CacheKey` | internal/handlers/latitude_longitude.go:77 | Definition, no ensures: the raw latitude, a comma and the raw longitude. `CacheKeyInjective`, `CacheKeyCollision` and `CacheKeyIsRaw` state what it distinguishes. |
| `Handlers.CacheHit` | internal/handlers/latitude_longitude.go:97-100 | Definition, no ensures: marks the response HIT and writes the cached payload as JSON with status 200. `HitServesCachedPayload` states it within a request. |
| `Handlers.CacheMiss` | internal/handlers/latitude_longitude.go:102-126 | Definition, no ensures: marks MISS, calls endpoint `pick` with the raw coordinates, translates the reply with `React`, and stores the payload for 30 minutes only when it is accepted. `MissCallsProvider` states it within a request. |
| `Handlers.Post` | internal/handlers/latitude_longitude.go:64-84 | Definition, no ensures: decode, validate, build the key, Get, then hit or miss, in the source's order. The request lemmas above state its outcomes. |
| `Handlers.Serve` | internal/handlers/latitude_longitude.go:47-58 | Definition, no ensures: JSON Content-Type, then GET, POST or 405. `NonPostLeavesCache`, `ServeOnlyStoresSuccess` and `CachedHandlerAgreesWhenNothingLive` state its outcomes. |
| `Handlers.NonPostLeavesCache` | internal/handlers/latitude_longitude.go:47-62 | A GET answers 200 with the healthy body and any method but GET or POST answers 405 with the method-not-allowed body. Neither calls a provider, and the cache is left exactly as it was, live items included. |
| `Handlers.ServeOnlyStoresSuccess` | internal/handlers/latitude_longitude.go:47-126 | One request keeps or drops the items it finds, and adds only an item built from its own 200 reply. |
| `Handlers.OnlySuccessfulRepliesAreCached` | internal/handlers/latitude_longitude.go:124 | After any sequence of requests from an empty cache, every cached item was stored by one of those requests. That request was a valid POST under that key, and its provider answered 200 with exactly that payload. |
| `Handlers.HandleCacheMiss` | internal/handlers/latitude_longitude.go:102-126 | The in-place miss path draws an endpoint in range, and leaves the response and the cache that `CacheMiss` describes for that draw. |
| `Handlers.HandlePostRequest` | internal/handlers/latitude_longitude.go:64-84 | The in-place POST path leaves the response and the cache that `Post` describes. |
| `Handlers.LatitudeLongitude` | internal/handlers/latitude_longitude.go:47-58 | The in-place handler sets JSON Content-Type and then switches on the method, leaving what `Serve` describes. |
| `Geocode.LatitudeLongitude` | geocode.go:89-137 | A provider is called iff the request is a POST that decoded with both fields non-empty, and then with endpoint `pick` and the raw strings. The answer is 200 iff the request is GET or the provider answered 200 with a decodable body. The Content-Type stays JSON iff the answer is 200. A POST that fails to decode or has an empty field answers 400 with the decoder's error or the not-set message. No X-Cache-Status is set. |
| `Geocode.HealthProbe` | geocode_test.go:14-30 | GET answers 200 with `{"status": "healthy"}` and calls no provider. |
| `Geocode.ValidPostSucceeds` | geocode_test.go:34-61 | A valid POST whose provider answers 200 answers 200 with the payload. |
| `Geocode.EmptyCoordinatesRejected` | geocode_test.go:65-88 | POSTing empty coordinates answers 400 with the not-set message and calls no provider. |
| `Geocode.OtherMethodsNotAllowed` | geocode_test.go:92-108 | Any method but GET and POST answers 405 with `{"status": "method not allowed"}`. |
| `Geocode.UpstreamFailuresTranslated` | geocode.go:112-125 | A failed call answers 500. So does an undecodable reply, even one with status 200. A decodable non-200 reply answers its own status. |
| `Geocode.CachedHandlerAgreesWhenNothingLive` | geocode.go:89-137 | When no cached item is live, the cached handler calls the same endpoint and gives the same answer as the legacy handler, apart from X-Cache-Status. |

## Left out

- Concurrency: the cache's `sync.Map` and the package-level `location` variable that every request reaching the reply decoding writes (`internal/handlers/latitude_longitude.go:114`, `geocode.go:117`). The model is sequential, and `location` is a value local to each request.
- The wall clock. Time is an integer, and `time.Time` overflow when adding a duration is not modelled.
- JSON decoding of the request body and of the provider's reply. Each is abstracted to its result: `Result<Coordinates, string>` and `Outcome`.
- The URL built with `Sprintf`, the `http.Client` with its 10-second timeout, and the logging round-tripper. A call is recorded as the endpoint index and the raw coordinates.
- renderTemplate (`internal/handlers/latitude_longitude.go:132-137`, `geocode.go:128-132`). A success answer is modelled as the JSON-encoded payload. The text the template appends after it is not modelled. Nor is its failure branch: the JSON encoder has already written the payload as `Execute`'s argument, which commits status 200, so the later `Error` call cannot change the status and only appends its text to the body.
- The exact bytes net/http's `Error` writes: its trailing line break and its `X-Content-Type-Options` header. Error bodies are kept as their message.
- Upstream.RandomInt: states only that the index is in range, not that it is uniform. The fatal exit when the entropy source fails is not modelled.
- Logging, verbosity and metrics, including the debug lines in `Get`. Also flag parsing and server start-up in `main`, and the stdin/stdout wrapper in `function.go`.

## Findings

| source | as written | input that shows it | evidently intended | confidence | as-written member | corrected member |
|---|---|---|---|---|---|---|
| internal/handlers/latitude_longitude.go:107 (the same at geocode.go:110) | `defer resp.Body.Close()` comes before the `err` check. It reads `resp.Body` on the nil response a failed call returns, so the handler panics and never answers. | A POST with valid coordinates while the chosen provider is unreachable (`client.Get` returns a nil response and an error). | Answer 500 "HTTP request error: ..." and leave the cache untouched. | high; not executed | `Upstream.TransportErrorPanicsAsWritten` | `Upstream.React` |
