/**
 * The exported handler as it runs: the module-level cache is an object whose two fields
 * a successful fetch replaces together, and the response object is mutated step by step
 * by `setHeader`, `status` and `json`.
 */
module Handler {
  import opened Wrappers
  import opened Upstream
  import opened CryptoData

  /** The three headers every reply carries. */
  const CorsHeaders: map<string, string> := map[
    "Access-Control-Allow-Origin" := "*",
    "Access-Control-Allow-Methods" := "GET, OPTIONS",
    "Content-Type" := "application/json"]

  /** The `res` object: its headers, its status code and the JSON body once one is sent. */
  class Response {
    var headers: map<string, string>
    var statusCode: int
    var sent: Option<Body>

    /** A response nothing has been done to yet; 200 is the platform's default status. */
    constructor ()
      ensures headers == map[] && statusCode == 200 && sent == None
    {
      headers, statusCode, sent := map[], 200, None;
    }

    /** `res.setHeader(name, value)` */
    method SetHeader(name: string, value: string)
      modifies this
      ensures headers == old(headers)[name := value]
      ensures statusCode == old(statusCode) && sent == old(sent)
    {
      headers := headers[name := value];
    }

    /** `res.status(code)` */
    method Status(code: int)
      modifies this
      ensures statusCode == code
      ensures headers == old(headers) && sent == old(sent)
    {
      statusCode := code;
    }

    /** `res.json(body)` */
    method Json(body: Body)
      modifies this
      ensures sent == Some(body)
      ensures headers == old(headers) && statusCode == old(statusCode)
    {
      sent := Some(body);
    }
  }

  /** The module-level `cache` record. */
  class CacheStore {
    var data: Option<Payload>
    var timestamp: int

    /** The value of the cache record. */
    function State(): Cache
      reads this
    {
      Cache(data, timestamp)
    }

    /** The cache as the module is loaded: no data, timestamp 0. */
    constructor ()
      ensures State() == Initial && Valid(State())
    {
      data, timestamp := None, 0;
    }

    /**
     * One invocation of the handler at clock value `now`, where `upstream` says how the
     * three upstream requests would settle. The new cache and the reply sent are those of
     * `Step`, and the three headers are set whichever path is taken.
     */
    method Handle(now: int, upstream: Calls, res: Response)
      modifies this, res
      ensures State() == Step(old(State()), Request(now, upstream)).cache
      ensures res.statusCode == Step(old(State()), Request(now, upstream)).reply.status
      ensures res.sent == Some(Step(old(State()), Request(now, upstream)).reply.body)
      ensures res.headers == old(res.headers) + CorsHeaders
      ensures State() != old(State()) ==> !IsFresh(old(State()), now) && !AnyRejected(upstream)
      ensures Valid(old(State())) ==> Valid(State())
    {
      res.SetHeader("Access-Control-Allow-Origin", "*");
      res.SetHeader("Access-Control-Allow-Methods", "GET, OPTIONS");
      res.SetHeader("Content-Type", "application/json");
      assert res.headers == old(res.headers) + CorsHeaders;

      if data.Some? && now - timestamp < CacheDuration {
        res.Status(200);
        res.Json(Data(WithCacheAge(data.value, now - timestamp)));
        return;
      }

      match JoinAll(upstream)
      case AllResolved(global, prices, chart) =>
        var responseData := Assemble(global, prices, chart, now);
        data, timestamp := Some(responseData), now;
        res.Status(200);
        res.Json(Data(responseData));
      case JoinRejected(message) =>
        if data.Some? {
          res.Status(200);
          res.Json(Data(WithStaleError(data.value)));
          return;
        }
        res.Status(500);
        res.Json(Failure(FetchFailedError, message));
    }
  }
}

/** A warm instance's life, as callers can reason about it from the contracts above. */
module HandlerScenario {
  import opened Wrappers
  import opened Upstream
  import opened CryptoData
  import opened Handler

  method ColdStartThenRecover(global: Json, prices: Json, chart: Json, message: string)
  {
    var cache := new CacheStore();
    var res := new Response();
    var failing := Calls(Resolved(global), Rejected(message), Resolved(chart));
    var healthy := Calls(Resolved(global), Resolved(prices), Resolved(chart));

    // empty cache and a failing upstream: the 500 reply, and the cache stays empty
    cache.Handle(1_000, failing, res);
    assert res.statusCode == 500 && res.sent == Some(Failure(FetchFailedError, message));
    assert cache.State() == Initial;
    assert res.headers == CorsHeaders;

    // a successful fetch fills the cache
    res := new Response();
    cache.Handle(2_000, healthy, res);
    var stored := Assemble(global, prices, chart, 2_000);
    assert res.sent == Some(Data(stored)) && cache.State() == Cache(Some(stored), 2_000);

    // inside the window the cache is served, whatever upstream would do
    res := new Response();
    cache.Handle(61_999, failing, res);
    assert res.statusCode == 200 && res.sent == Some(Data(WithCacheAge(stored, 59_999)));

    // at exactly 60000 ms the data is stale; the failing fetch falls back to it
    res := new Response();
    cache.Handle(62_000, failing, res);
    assert res.statusCode == 200 && res.sent == Some(Data(WithStaleError(stored)));
    assert cache.State() == Cache(Some(stored), 2_000);
  }
}
