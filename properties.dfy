/**
 * What the cache policy guarantees over one request and over a sequence of requests.
 */
module CacheProperties {
  import opened Wrappers
  import opened Upstream
  import opened CryptoData

  /** The process starts with an empty cache, so its first request never takes the cache-hit path. */
  lemma InitialNeverHit(req: Request)
    ensures Valid(Initial)
    ensures !IsFresh(Initial, req.now)
    ensures Step(Initial, req).reply.status == 200 <==> !AnyRejected(req.upstream)
  {
  }

  /** The freshness test is strict: an age of exactly 60000 ms is already stale. */
  lemma FreshnessBoundary(c: Cache, now: int)
    requires c.data.Some?
    ensures IsFresh(c, now) <==> now < c.timestamp + 60000
    ensures !IsFresh(c, c.timestamp + 60000) && IsFresh(c, c.timestamp + 59999)
  {
  }

  /** A fresh hit makes no upstream request: the outcome does not depend on how upstream would settle. */
  lemma HitIgnoresUpstream(c: Cache, now: int, u: Calls, u': Calls)
    requires IsFresh(c, now)
    ensures Step(c, Request(now, u)) == Step(c, Request(now, u'))
  {
  }

  /** The stale fallback serves cached data of any age: how late the request is makes no difference. */
  lemma StaleFallbackIgnoresAge(c: Cache, now: int, now': int, u: Calls)
    requires c.data.Some? && AnyRejected(u)
    requires !IsFresh(c, now) && !IsFresh(c, now')
    ensures Step(c, Request(now, u)) == Step(c, Request(now', u))
  {
  }

  /** Every request keeps the cache holding nothing or a payload assembled at the stored timestamp. */
  lemma StepKeepsValid(c: Cache, req: Request)
    requires Valid(c)
    ensures Valid(Step(c, req).cache)
  {
  }

  /**
   * Two requests, the first of which fetches successfully at `t1`: a second one at `t2`
   * inside the window gets the first reply's payload with `cached` true and
   * `cacheAge = t2 - t1`, and the cache stays as the first request left it.
   */
  lemma FetchThenHit(c: Cache, t1: int, u1: Calls, t2: int, u2: Calls)
    requires !IsFresh(c, t1) && !AnyRejected(u1)
    requires t2 - t1 < CacheDuration
    ensures var first := Step(c, Request(t1, u1));
            var second := Step(first.cache, Request(t2, u2));
            && second.cache == first.cache
            && second.reply.status == 200 && first.reply.body.Data?
            && second.reply.body
               == Data(first.reply.body.payload.(cached := true, cacheAge := Some(t2 - t1)))
  {
  }

  /**
   * Requests compose one after another: handling one more request after a sequence is
   * one more `Step` from the cache the sequence left.
   */
  lemma {:induction false} RunAppend(c: Cache, reqs: seq<Request>, q: Request)
    ensures Run(c, reqs + [q]).cache == Step(Run(c, reqs).cache, q).cache
    ensures Run(c, reqs + [q]).replies == Run(c, reqs).replies + [Step(Run(c, reqs).cache, q).reply]
    decreases |reqs|
  {
    if reqs == [] {
      assert reqs + [q] == [q];
    } else {
      assert (reqs + [q])[1..] == reqs[1..] + [q];
      RunAppend(Step(c, reqs[0]).cache, reqs[1..], q);
    }
  }

  /** The invariant `Valid` holds after any sequence of requests from a valid cache. */
  lemma {:induction false} RunKeepsValid(c: Cache, reqs: seq<Request>)
    requires Valid(c)
    ensures Valid(Run(c, reqs).cache)
    decreases |reqs|
  {
    if reqs != [] {
      StepKeepsValid(c, reqs[0]);
      RunKeepsValid(Step(c, reqs[0]).cache, reqs[1..]);
    }
  }

  /**
   * The cache is never cleared, and only a fetch whose three requests all resolve fills
   * it: after a sequence of requests it is empty exactly when it started empty and every
   * request saw some upstream request reject.
   */
  lemma {:induction false} RunEmptyIffNoFetchSucceeded(c: Cache, reqs: seq<Request>)
    ensures Run(c, reqs).cache.data.None?
        <==> c.data.None? && forall i :: 0 <= i < |reqs| ==> AnyRejected(reqs[i].upstream)
    decreases |reqs|
  {
    if reqs != [] {
      var next := Step(c, reqs[0]).cache;
      RunEmptyIffNoFetchSucceeded(next, reqs[1..]);
      assert forall i :: 1 <= i < |reqs| ==> reqs[i] == reqs[1..][i - 1];
      if next.data.None? && (forall i :: 0 <= i < |reqs| - 1 ==> AnyRejected(reqs[1..][i].upstream)) {
        forall i | 0 <= i < |reqs| ensures AnyRejected(reqs[i].upstream) {
          if i > 0 { assert AnyRejected(reqs[1..][i - 1].upstream); }
        }
      }
    }
  }

  /**
   * A burst of requests, all of them inside the freshness window of a filled cache,
   * never reaches the upstream: the cache is unchanged and every reply is the cached
   * data marked cached, with its own `cacheAge`.
   */
  lemma {:induction false} BurstWithinWindow(c: Cache, reqs: seq<Request>)
    requires c.data.Some?
    requires forall i :: 0 <= i < |reqs| ==> reqs[i].now - c.timestamp < CacheDuration
    ensures Run(c, reqs).cache == c
    ensures forall i :: 0 <= i < |reqs| ==>
      && Run(c, reqs).replies[i].status == 200
      && Run(c, reqs).replies[i].body.Data?
      && Annotates(Run(c, reqs).replies[i].body.payload, c.data.value,
                   Some(reqs[i].now - c.timestamp), c.data.value.error)
    decreases |reqs|
  {
    if reqs != [] {
      assert IsFresh(c, reqs[0].now);
      assert forall i :: 0 <= i < |reqs| - 1 ==> reqs[1..][i] == reqs[i + 1];
      BurstWithinWindow(c, reqs[1..]);
      var r := Run(c, reqs);
      assert r.replies == [Step(c, reqs[0]).reply] + Run(c, reqs[1..]).replies;
      forall i | 0 <= i < |reqs|
        ensures r.replies[i].status == 200 && r.replies[i].body.Data?
        ensures Annotates(r.replies[i].body.payload, c.data.value,
                          Some(reqs[i].now - c.timestamp), c.data.value.error)
      {
        if i > 0 { assert r.replies[i] == Run(c, reqs[1..]).replies[i - 1]; }
      }
    }
  }

  /**
   * While the upstream keeps failing the cache never changes: with data every reply is a
   * 200 carrying the cached data, and without data every reply is the 500 failure with
   * that request's error message.
   */
  lemma {:induction false} FailuresKeepCache(c: Cache, reqs: seq<Request>)
    requires forall i :: 0 <= i < |reqs| ==> AnyRejected(reqs[i].upstream)
    ensures Run(c, reqs).cache == c
    ensures forall i :: 0 <= i < |reqs| ==>
      if c.data.Some? then
        && Run(c, reqs).replies[i].status == 200
        && Run(c, reqs).replies[i].body.Data?
        && SameData(Run(c, reqs).replies[i].body.payload, c.data.value)
        && Run(c, reqs).replies[i].body.payload.cached
      else
        Run(c, reqs).replies[i]
          == Reply(500, Failure(FetchFailedError, JoinAll(reqs[i].upstream).message))
    decreases |reqs|
  {
    if reqs != [] {
      assert forall i :: 0 <= i < |reqs| - 1 ==> reqs[1..][i] == reqs[i + 1];
      FailuresKeepCache(c, reqs[1..]);
      var r := Run(c, reqs);
      assert r.replies == [Step(c, reqs[0]).reply] + Run(c, reqs[1..]).replies;
      forall i | 0 <= i < |reqs|
        ensures if c.data.Some? then
          && r.replies[i].status == 200 && r.replies[i].body.Data?
          && SameData(r.replies[i].body.payload, c.data.value)
          && r.replies[i].body.payload.cached
        else
          r.replies[i] == Reply(500, Failure(FetchFailedError, JoinAll(reqs[i].upstream).message))
      {
        if i > 0 { assert r.replies[i] == Run(c, reqs[1..]).replies[i - 1]; }
      }
    }
  }
}
