/**
 * The upstream step of the handler, kept abstract: the three market-data requests are
 * outcomes given to the model, and their JSON bodies are opaque values that the handler
 * passes through untouched.
 */
module Upstream {

  /** An upstream JSON body; the handler never looks inside one. */
  datatype Json = Opaque(raw: string)

  /** How one upstream request settled: with a body, or by throwing an error with a message. */
  datatype Call = Resolved(body: Json) | Rejected(message: string)

  /** The three requests the handler issues together: global market data, coin prices, bitcoin chart. */
  datatype Calls = Calls(global: Call, prices: Call, chart: Call)

  /** What awaiting `Promise.all` over the three requests yields. */
  datatype Joined =
    | AllResolved(global: Json, prices: Json, chart: Json)
    | JoinRejected(message: string)

  predicate AnyRejected(u: Calls) {
    u.global.Rejected? || u.prices.Rejected? || u.chart.Rejected?
  }

  /**
   * `Promise.all`: resolves with all three bodies when every request resolves, and
   * rejects with the error of a rejected request as soon as one rejects, so that no
   * partial result ever reaches the caller.
   */
  function JoinAll(u: Calls): (r: Joined)
    ensures r.JoinRejected? <==> AnyRejected(u)
    ensures r.AllResolved? ==>
      r.global == u.global.body && r.prices == u.prices.body && r.chart == u.chart.body
    ensures r.JoinRejected? ==>
      || (u.global.Rejected? && r.message == u.global.message)
      || (u.prices.Rejected? && r.message == u.prices.message)
      || (u.chart.Rejected? && r.message == u.chart.message)
  {
    if u.global.Rejected? then JoinRejected(u.global.message)
    else if u.prices.Rejected? then JoinRejected(u.prices.message)
    else if u.chart.Rejected? then JoinRejected(u.chart.message)
    else AllResolved(u.global.body, u.prices.body, u.chart.body)
  }
}
