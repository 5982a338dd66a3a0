/**
 * The scenarios of rhttp/transport_test.go, as callers of NewTransport and
 * NewClient that rely on nothing but those methods' contracts. The recording
 * base transport of the tests is any base transport here: its answers are the
 * function `send`, its calls the trace RoundTrip returns.
 */
module RhttpTransportTest {
  import opened Nullable
  import opened RhttpConfig
  import opened RhttpTransport

  /** With no options the chain is the base itself, and one round trip calls it once. */
  method DisabledCallsBase(base: BaseId, req: Request, send: (BaseId, Request) -> Reply) returns (tr: Transport, trip: Trip)
    ensures tr == Base(base)
    ensures trip.baseCalls == [BaseCall(base, req)] && trip.reply == send(base, req)
  {
    tr := NewTransport(Some(base), []);
    trip := RoundTrip(tr, req, send);
  }

  /** Enabling all three features, in any option order, gives OTel over Retry over Breaker over the base passed in. */
  method ChainOrderAllEnabled(base: BaseId) returns (tr: Transport)
    ensures tr.OTelT? && tr.next.RetryT? && tr.next.next.BreakerT?
    ensures tr.next.next.next == Base(base)
  {
    tr := NewTransport(Some(base), [
      Some(WithOTel(OTelConfig(true))),
      Some(WithRetry(RetryConfig(true))),
      Some(WithBreaker(BreakerConfig(true)))
    ]);
  }

  /** A client with only retry enabled sends through a retry wrapper directly over http.DefaultTransport. */
  method ClientUsesComposedTransport() returns (c: Client)
    ensures c.transport == RetryT(Base(DefaultTransport), RetryConfig(true))
  {
    c := NewClient([Some(WithRetry(RetryConfig(true)))]);
  }

  /** A base transport given as an option is the one the client's chain calls, exactly once. */
  method WithBaseTransportAppliesToClient(base: BaseId, req: Request, send: (BaseId, Request) -> Reply)
    returns (c: Client, trip: Trip)
    ensures trip.baseCalls == [BaseCall(base, req)] && trip.reply == send(base, req)
  {
    c := NewClient([Some(WithBaseTransport(Some(base))), Some(WithRetry(RetryConfig(true)))]);
    trip := RoundTrip(c.transport, req, send);
  }
}
