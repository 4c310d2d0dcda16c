/**
 * The cache decision of the market-data handler, on values: the module-level cache
 * record, the payloads it holds, the replies the handler sends, and one request as one
 * step from the old cache to the new cache and a reply.
 */
module CryptoData {
  import opened Wrappers
  import opened Upstream

  /** How long, in milliseconds, a cached payload is served without contacting upstream. */
  const CacheDuration: int := 60000

  const StaleCacheError: string := "Using stale cache due to API error"
  const FetchFailedError: string := "Failed to fetch data"

  /**
   * The JSON object the handler sends on a 200 reply. `cacheAge` and `error` are the
   * optional keys that the spread-and-override replies add; `None` means the key is absent.
   */
  datatype Payload = Payload(
    global: Json,
    prices: Json,
    bitcoinChart: Json,
    timestamp: int,
    cached: bool,
    cacheAge: Option<int>,
    error: Option<string>)

  /** A reply body: a payload, or the `{error, message}` object of the 500 reply. */
  datatype Body = Data(payload: Payload) | Failure(error: string, message: string)

  datatype Reply = Reply(status: int, body: Body)

  /** The module-level `cache` record: the last payload fetched (or none) and when it was stored. */
  datatype Cache = Cache(data: Option<Payload>, timestamp: int)

  /** One request: the time the handler reads from the clock and how the upstream requests would settle. */
  datatype Request = Request(now: int, upstream: Calls)

  /** What one request leaves behind: the cache afterwards and the reply sent. */
  datatype Outcome = Outcome(cache: Cache, reply: Reply)

  /** The cache as the process starts: no data, timestamp 0. */
  const Initial: Cache := Cache(None, 0)

  /** The cache-hit test: data is present and strictly younger than the freshness window. */
  predicate IsFresh(c: Cache, now: int) {
    c.data.Some? && now - c.timestamp < CacheDuration
  }

  /** The two payloads carry the same market data and timestamp. */
  predicate SameData(p: Payload, q: Payload) {
    p.global == q.global && p.prices == q.prices && p.bitcoinChart == q.bitcoinChart
    && p.timestamp == q.timestamp
  }

  /**
   * `q` is `{...p, cached: true, <overrides>}`: the same data as `p`, marked cached, with
   * the given `cacheAge` and `error` keys.
   */
  predicate Annotates(q: Payload, p: Payload, cacheAge: Option<int>, error: Option<string>) {
    SameData(q, p) && q.cached && q.cacheAge == cacheAge && q.error == error
  }

  /** A payload the handler itself assembled from a successful fetch stored at `timestamp`. */
  predicate Assembled(p: Payload, timestamp: int) {
    p.timestamp == timestamp && !p.cached && p.cacheAge.None? && p.error.None?
  }

  /** What the cache can hold: nothing, or a payload assembled at the stored timestamp. */
  predicate Valid(c: Cache) {
    c.data.Some? ==> Assembled(c.data.value, c.timestamp)
  }

  /** `{...p, cached: true, cacheAge: age}` */
  function WithCacheAge(p: Payload, age: int): Payload {
    p.(cached := true, cacheAge := Some(age))
  }

  /** `{...p, cached: true, error: 'Using stale cache due to API error'}` */
  function WithStaleError(p: Payload): Payload {
    p.(cached := true, error := Some(StaleCacheError))
  }

  /** The `responseData` object built from the three upstream bodies. */
  function Assemble(global: Json, prices: Json, chart: Json, now: int): Payload {
    Payload(global, prices, chart, now, false, None, None)
  }

  /**
   * One request handled from cache `c`: a fresh hit is served from the cache; otherwise
   * the three requests are joined, and their success overwrites the cache while their
   * failure falls back to the cached data of any age or to a 500 reply.
   */
  function Step(c: Cache, req: Request): (r: Outcome)
    // fresh hit: 200 with the cached data marked cached and aged; the cache is untouched
    ensures IsFresh(c, req.now) ==>
      && r.cache == c
      && r.reply.status == 200 && r.reply.body.Data?
      && Annotates(r.reply.body.payload, c.data.value, Some(req.now - c.timestamp), c.data.value.error)
    // fetch success: the cache becomes exactly the new payload stored at `now`, which is also the reply
    ensures !IsFresh(c, req.now) && !AnyRejected(req.upstream) ==>
      var j := JoinAll(req.upstream);
      && r.reply.status == 200 && r.reply.body.Data?
      && r.cache == Cache(Some(r.reply.body.payload), req.now)
      && Assembled(r.reply.body.payload, req.now)
      && r.reply.body.payload.global == j.global
      && r.reply.body.payload.prices == j.prices
      && r.reply.body.payload.bitcoinChart == j.chart
    // stale fallback: 200 with the cached data of any age marked cached and carrying the error
    ensures !IsFresh(c, req.now) && AnyRejected(req.upstream) && c.data.Some? ==>
      && r.cache == c
      && r.reply.status == 200 && r.reply.body.Data?
      && Annotates(r.reply.body.payload, c.data.value, c.data.value.cacheAge, Some(StaleCacheError))
    // hard failure: 500 with the upstream error's message; the cache stays empty
    ensures !IsFresh(c, req.now) && AnyRejected(req.upstream) && c.data.None? ==>
      && r.cache == c
      && r.reply == Reply(500, Failure(FetchFailedError, JoinAll(req.upstream).message))
    // the cache is written only by a fetch whose three requests all resolved
    ensures r.cache != c ==> !IsFresh(c, req.now) && !AnyRejected(req.upstream)
  {
    if IsFresh(c, req.now) then
      Outcome(c, Reply(200, Data(WithCacheAge(c.data.value, req.now - c.timestamp))))
    else
      match JoinAll(req.upstream)
      case AllResolved(global, prices, chart) =>
        var responseData := Assemble(global, prices, chart, req.now);
        Outcome(Cache(Some(responseData), req.now), Reply(200, Data(responseData)))
      case JoinRejected(message) =>
        if c.data.Some? then
          Outcome(c, Reply(200, Data(WithStaleError(c.data.value))))
        else
          Outcome(c, Reply(500, Failure(FetchFailedError, message)))
  }

  /** The cache and the replies after a sequence of requests handled one after another. */
  datatype Trace = Trace(cache: Cache, replies: seq<Reply>)

  /** Requests handled in order from cache `c`, each one an atomic step. */
  function Run(c: Cache, reqs: seq<Request>): (r: Trace)
    ensures |r.replies| == |reqs|
    ensures reqs != [] ==> r.replies[0] == Step(c, reqs[0]).reply
    decreases |reqs|
  {
    if reqs == [] then Trace(c, [])
    else
      var first := Step(c, reqs[0]);
      var rest := Run(first.cache, reqs[1..]);
      Trace(rest.cache, [first.reply] + rest.replies)
  }
}
