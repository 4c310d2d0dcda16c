# Market-data proxy: cache decision model

This project models the serverless handler of a small cryptocurrency market-data proxy.
On each request the handler serves a payload cached less than 60 000 ms ago. Otherwise it
fetches three upstream documents (global market data, coin prices, a bitcoin chart) with a
fail-fast `Promise.all`. A successful fetch overwrites the module-level cache and is sent
with status 200. A failed fetch falls back to the cached data of any age (200, with an
`error` key), or to a 500 reply when the cache is empty.

Layout:

- `wrappers.dfy`: `Option`, standing for the `null`-or-object cache slot.
- `upstream.dfy` (module `Upstream`): the three upstream outcomes, with opaque JSON bodies, and `JoinAll`, the `Promise.all` join.
- `crypto_data.dfy` (module `CryptoData`): the cache record, payloads and replies as values.
  `Step` turns one request into the new cache and the reply, and carries the branch-by-branch contract.
  `Run` handles a sequence of requests one after another.
- `properties.dfy` (module `CacheProperties`): lemmas about one request and about sequences of requests.
- `handler.dfy`:
  - module `Handler`: the imperative form. `CacheStore` is the module-level `cache` record, whose fields the handler replaces. `Response` is the `res` object, mutated by `setHeader`, `status` and `json`. `CacheStore.Handle` is proved to do what `Step` says and to set the three headers on every path.
  - module `HandlerScenario`: a usage example, not part of the model. A client walks a cold start through the reply tiers using only the contracts of `Handler`.

The clock (`Date.now()`) is the parameter `now`. How the upstream requests settle is the parameter `upstream`.

The handler never reads `req`, so every method, `OPTIONS` included, takes the same path.
When the cache is empty and the fetch fails, the reply is the 500 `{error: 'Failed to fetch data', message}`.
Exactly three headers are set: `Access-Control-Allow-Origin: *`, `Access-Control-Allow-Methods: GET, OPTIONS` and `Content-Type: application/json`.

## Model

| member | source | states |
|---|---|---|
| Upstream.JoinAll | api/crypto-data.js:33-56 | the join fails exactly when at least one of the three requests rejects, and then carries the message of a rejected request; on success it holds the three bodies unchanged, so partial results are never merged |
| CryptoData.Step | api/crypto-data.js:19-93 | fresh hit (data present, age strictly below 60000): 200 with the cached data, `cached` true, `cacheAge` = age, cache untouched; fetch success: the cache becomes exactly the new payload stamped `now`, with `cached` false, and that payload is sent with 200; failure with data of any age: 200 with the cached data, `cached` true, the stale-cache error, cache untouched; failure with no data: 500 `{error: 'Failed to fetch data', message}`, cache still empty; only a successful fetch changes the cache |
| CryptoData.Run | api/crypto-data.js:12-94 | requests handled one after another: one reply per request, the first being that request's reply |
| CacheProperties.RunAppend | api/crypto-data.js:12-94 | handling one more request after a sequence is one more `Step` from the cache the sequence left: the final cache is that step's cache, and the replies are the sequence's replies followed by that step's reply |
| CacheProperties.InitialNeverHit | api/crypto-data.js:4-20 | the starting cache (no data, timestamp 0) is valid and never fresh, so the first request always fetches; it gets a 200 exactly when no upstream request rejects |
| CacheProperties.FreshnessBoundary | api/crypto-data.js:9-20 | with data present, fresh exactly when `now < timestamp + 60000`; an age of exactly 60000 ms is stale, 59999 ms is fresh |
| CacheProperties.HitIgnoresUpstream | api/crypto-data.js:19-27 | on a fresh hit the new cache and the reply do not depend on the upstream outcome, so no fetch happens |
| CacheProperties.StaleFallbackIgnoresAge | api/crypto-data.js:80-86 | on a failed fetch with data present, the outcome is the same at any stale age |
| CacheProperties.StepKeepsValid | api/crypto-data.js:59-71 | each request keeps the cache either empty or holding a payload assembled at the stored timestamp (`cached` false, no `cacheAge`, no `error`) |
| CacheProperties.FetchThenHit | api/crypto-data.js:20-74 | after a successful fetch at t1, a request at t2 with `t2 - t1 < 60000` gets the first reply's payload with `cached` true and `cacheAge = t2 - t1`, whatever upstream would do, and the cache is not changed |
| CacheProperties.RunKeepsValid | api/crypto-data.js:59-71 | the cache invariant holds after any sequence of requests |
| CacheProperties.RunEmptyIffNoFetchSucceeded | api/crypto-data.js:68-92 | after any sequence of requests the cache is empty if and only if it started empty and every request saw an upstream rejection: the cache is never cleared, and only a complete fetch fills it |
| CacheProperties.BurstWithinWindow | api/crypto-data.js:19-27 | requests that all fall inside the freshness window of a filled cache leave it unchanged, and each gets a 200 with the cached data, `cached` true and its own `cacheAge` |
| CacheProperties.FailuresKeepCache | api/crypto-data.js:76-92 | while every fetch fails, the cache never changes; with data every reply is a 200 carrying the cached data marked cached, without data every reply is the 500 failure with that request's message |
| Handler.Response.SetHeader | api/crypto-data.js:14-16 | sets one header and leaves the status and body alone |
| Handler.Response.Status | api/crypto-data.js:22 | sets the status code and leaves the headers and body alone |
| Handler.Response.Json | api/crypto-data.js:74 | records the body sent and leaves headers and status alone |
| Handler.CacheStore.constructor | api/crypto-data.js:4-7 | the cache starts with no data and timestamp 0 |
| Handler.CacheStore.Handle | api/crypto-data.js:12-94 | the new cache, the status code and the body sent are those of `Step`. The three CORS and content-type headers are added on every path. The cache changes only after a complete fetch on a non-fresh cache, and the cache invariant is preserved |

## Left out

- Real HTTP calls are not modelled: axios, the upstream base URL, the endpoint paths and their query parameters. Each request is an abstract outcome, resolved with an opaque body or rejected with a message.
- Upstream JSON structure is not modelled. The global body, the price map and the chart are opaque values passed through unchanged. The `global` key is the `data` member of the global body, taken as already selected. If the body were `null`, that member access would throw into the fallback path; this case is not modelled.
- Upstream.JoinAll: when several requests reject, `Promise.all` rejects with the one that rejects first in time. The model has no notion of timing. Its contract only says the message comes from some rejected request, and its body takes the first in argument order.
- Upstream requests that never settle are not modelled. The three `axios.get` calls set no timeout, so a hanging request leaves the `await Promise.all` pending unless another call rejects. The invocation then sends no reply and leaves the cache untouched until the platform ends it. Every `Call` is resolved or rejected here, so `Run` gives exactly one reply per request.
- Concurrency is not modelled. The three requests run in parallel, and concurrent invocations can race on the shared cache. Each invocation is one atomic step.
- Logging (`console.log`, `console.error`) is a side effect only and is not modelled.
- Wall-clock time is not modelled: `Date.now()` becomes the parameter `now`.
- Numbers are mathematical integers, not JavaScript doubles. Millisecond clock values are exact in both.
- JSON serialisation of the body is not modelled. The `Response` object records the body as a value. A key whose value is absent is `None`.
- The handler's return value is ignored by the platform and is not modelled. Exceptions that do not come from the upstream step are not modelled either; one thrown by `res.json` inside the `try` would also reach the fallback path.
- Header names are kept exactly as written. The platform treats them case-insensitively.
