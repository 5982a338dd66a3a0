/**
 * The transport chain of rhttp/transport.go: the stub wrappers, how
 * buildTransport stacks them on a base, and the two constructors that fold
 * options into a configuration before building.
 */
module RhttpTransport {
  import opened Nullable
  import opened RhttpConfig

  /** An http.RoundTripper as the library builds it: a base, or a stub wrapper around the transport `next`. */
  datatype Transport =
    | Base(id: BaseId)
    | RetryT(next: Transport, retry: RetryConfig)
    | BreakerT(next: Transport, breaker: BreakerConfig)
    | OTelT(next: Transport, otel: OTelConfig)

  /** One wrapper of a chain, with the configuration section it carries. */
  datatype Layer = RetryLayer(retry: RetryConfig) | BreakerLayer(breaker: BreakerConfig) | OTelLayer(otel: OTelConfig)

  /** An http.Client, reduced to the transport it sends through. */
  datatype Client = Client(transport: Transport)

  /** Requests, responses and errors are seen only by identity. */
  datatype Request = Request(id: nat)

  datatype Response = Response(id: nat)

  datatype Error = Error(id: nat)

  /** The (*http.Response, error) pair a RoundTrip returns; either half may be nil. */
  datatype Reply = Reply(resp: Maybe<Response>, err: Maybe<Error>)

  /** One invocation of a base transport, with the request it received. */
  datatype BaseCall = BaseCall(base: BaseId, req: Request)

  /** What one RoundTrip on a chain yields: the reply and the calls it made to base transports, in order. */
  datatype Trip = Trip(reply: Reply, baseCalls: seq<BaseCall>)

  /** The wrappers of a chain, outermost first. */
  function Layers(t: Transport): seq<Layer>
  {
    match t
    case Base(_) => []
    case RetryT(next, retry) => [RetryLayer(retry)] + Layers(next)
    case BreakerT(next, breaker) => [BreakerLayer(breaker)] + Layers(next)
    case OTelT(next, otel) => [OTelLayer(otel)] + Layers(next)
  }

  /** The base transport at the bottom of a chain. */
  function Innermost(t: Transport): BaseId
  {
    match t
    case Base(id) => id
    case RetryT(next, _) => Innermost(next)
    case BreakerT(next, _) => Innermost(next)
    case OTelT(next, _) => Innermost(next)
  }

  /** The chain with the given wrappers, outermost first, over `base`. */
  function Wrap(layers: seq<Layer>, base: BaseId): Transport
    decreases |layers|
  {
    if |layers| == 0 then Base(base)
    else
      match layers[0]
      case RetryLayer(retry) => RetryT(Wrap(layers[1..], base), retry)
      case BreakerLayer(breaker) => BreakerT(Wrap(layers[1..], base), breaker)
      case OTelLayer(otel) => OTelT(Wrap(layers[1..], base), otel)
  }

  /** A chain is determined by its wrappers and its base. */
  lemma {:induction false} WrapLayers(t: Transport)
    ensures Wrap(Layers(t), Innermost(t)) == t
  {
    match t
    case Base(_) =>
    case RetryT(next, _) => WrapLayers(next); assert Layers(t)[1..] == Layers(next);
    case BreakerT(next, _) => WrapLayers(next); assert Layers(t)[1..] == Layers(next);
    case OTelT(next, _) => WrapLayers(next); assert Layers(t)[1..] == Layers(next);
  }

  /** Every list of wrappers over every base is the chain of exactly those wrappers and that base. */
  lemma {:induction false} LayersWrap(layers: seq<Layer>, base: BaseId)
    ensures Layers(Wrap(layers, base)) == layers && Innermost(Wrap(layers, base)) == base
    decreases |layers|
  {
    if |layers| != 0 {
      LayersWrap(layers[1..], base);
      assert layers == [layers[0]] + layers[1..];
    }
  }

  /** Position of a wrapper kind in the documented outer-to-inner order OTel, Retry, Breaker. */
  function Rank(l: Layer): nat
  {
    match l
    case OTelLayer(_) => 0
    case RetryLayer(_) => 1
    case BreakerLayer(_) => 2
  }

  /** How many of the three features a configuration enables. */
  function EnabledCount(cfg: Config): nat
  {
    (if cfg.otel.enabled then 1 else 0) + (if cfg.retry.enabled then 1 else 0) + (if cfg.breaker.enabled then 1 else 0)
  }

  /** The wrappers a configuration enables, in the documented outer-to-inner order OTel, Retry, Breaker. */
  function EnabledLayers(cfg: Config): seq<Layer>
  {
    (if cfg.otel.enabled then [OTelLayer(cfg.otel)] else [])
    + (if cfg.retry.enabled then [RetryLayer(cfg.retry)] else [])
    + (if cfg.breaker.enabled then [BreakerLayer(cfg.breaker)] else [])
  }

  /**
   * Any chain whose wrappers are the enabled ones has one wrapper per enabled feature,
   * each with its own config section, in strictly increasing rank; it is the bare base
   * exactly when nothing is enabled.
   */
  lemma EnabledChainFacts(t: Transport, cfg: Config)
    requires Layers(t) == EnabledLayers(cfg) && Innermost(t) == cfg.base
    ensures |Layers(t)| == EnabledCount(cfg)
    ensures t == Base(cfg.base) <==> EnabledCount(cfg) == 0
    ensures forall i, j :: 0 <= i < j < |Layers(t)| ==> Rank(Layers(t)[i]) < Rank(Layers(t)[j])
    ensures OTelLayer(cfg.otel) in Layers(t) <==> cfg.otel.enabled
    ensures RetryLayer(cfg.retry) in Layers(t) <==> cfg.retry.enabled
    ensures BreakerLayer(cfg.breaker) in Layers(t) <==> cfg.breaker.enabled
    ensures forall l :: l in Layers(t) ==>
              l == OTelLayer(cfg.otel) || l == RetryLayer(cfg.retry) || l == BreakerLayer(cfg.breaker)
  {
    if EnabledCount(cfg) == 0 {
      WrapLayers(t);
    }
  }

  /**
   * buildTransport: wraps the base innermost-first in a breaker, then a retry, then an
   * OTel wrapper, each only if enabled.
   */
  function BuildTransport(cfg: Config): (rt: Transport)
    ensures Innermost(rt) == cfg.base
    ensures Layers(rt) == EnabledLayers(cfg)
    ensures |Layers(rt)| == EnabledCount(cfg)
    ensures rt == Base(cfg.base) <==> EnabledCount(cfg) == 0
    ensures forall i, j :: 0 <= i < j < |Layers(rt)| ==> Rank(Layers(rt)[i]) < Rank(Layers(rt)[j])
    ensures OTelLayer(cfg.otel) in Layers(rt) <==> cfg.otel.enabled
    ensures RetryLayer(cfg.retry) in Layers(rt) <==> cfg.retry.enabled
    ensures BreakerLayer(cfg.breaker) in Layers(rt) <==> cfg.breaker.enabled
    ensures forall l :: l in Layers(rt) ==>
              l == OTelLayer(cfg.otel) || l == RetryLayer(cfg.retry) || l == BreakerLayer(cfg.breaker)
  {
    var rt0 := Base(cfg.base);
    var rt1 := if cfg.breaker.enabled then BreakerT(rt0, cfg.breaker) else rt0;
    var rt2 := if cfg.retry.enabled then RetryT(rt1, cfg.retry) else rt1;
    var rt3 := if cfg.otel.enabled then OTelT(rt2, cfg.otel) else rt2;
    assert Innermost(rt1) == cfg.base && Innermost(rt2) == cfg.base;
    assert Layers(rt1) == if cfg.breaker.enabled then [BreakerLayer(cfg.breaker)] else [];
    assert Layers(rt2) == (if cfg.retry.enabled then [RetryLayer(cfg.retry)] else []) + Layers(rt1);
    assert Layers(rt3) == (if cfg.otel.enabled then [OTelLayer(cfg.otel)] else []) + Layers(rt2);
    EnabledChainFacts(rt3, cfg);
    rt3
  }

  /**
   * RoundTrip on a chain, for a base that answers as `send` says: each stub wrapper
   * hands the same request to `next` and returns what `next` returns.
   */
  function RoundTrip(t: Transport, req: Request, send: (BaseId, Request) -> Reply): (r: Trip)
    ensures r.baseCalls == [BaseCall(Innermost(t), req)]
    ensures r.reply == send(Innermost(t), req)
  {
    match t
    case Base(id) => Trip(send(id, req), [BaseCall(id, req)])
    case RetryT(next, _) => RoundTrip(next, req, send)
    case BreakerT(next, _) => RoundTrip(next, req, send)
    case OTelT(next, _) => RoundTrip(next, req, send)
  }

  /** Whatever the toggles, a composed chain calls its base once, with the request given, and returns the base's reply. */
  lemma ComposedRoundTrip(cfg: Config, req: Request, send: (BaseId, Request) -> Reply)
    ensures RoundTrip(BuildTransport(cfg), req, send) == RoundTrip(Base(cfg.base), req, send)
    ensures RoundTrip(BuildTransport(cfg), req, send) == Trip(send(cfg.base, req), [BaseCall(cfg.base, req)])
  {
  }

  /** Option i sets the base transport and no later option does. */
  predicate LastBaseOption(opts: seq<Maybe<Option>>, i: int)
  {
    0 <= i < |opts| && Sets(opts[i], BaseSection) && forall j :: i < j < |opts| ==> !Sets(opts[j], BaseSection)
  }

  /** NewTransport: defaults from `base`, then every non-nil option in order, then buildTransport. */
  method NewTransport(base: Maybe<BaseId>, opts: seq<Maybe<Option>>) returns (tr: Transport)
    ensures tr == BuildTransport(Fold(DefaultConfig(base), opts))
    ensures (forall j :: 0 <= j < |opts| ==> !Sets(opts[j], BaseSection)) ==> Innermost(tr) == ResolveBase(base)
    ensures forall i :: LastBaseOption(opts, i) ==> Innermost(tr) == ResolveBase(opts[i].value.rt)
  {
    var cfg := DefaultConfig(base);
    for i := 0 to |opts|
      invariant cfg == Fold(DefaultConfig(base), opts[..i])
    {
      FoldSnoc(DefaultConfig(base), opts[..i], opts[i]);
      assert opts[..i + 1] == opts[..i] + [opts[i]];
      if opts[i].Some? {
        cfg := Apply(opts[i].value, cfg);
      }
    }
    assert opts[..|opts|] == opts;
    if forall j :: 0 <= j < |opts| ==> !Sets(opts[j], BaseSection) {
      FoldUntouched(DefaultConfig(base), opts, BaseSection);
    }
    forall i | LastBaseOption(opts, i)
      ensures Innermost(BuildTransport(cfg)) == ResolveBase(opts[i].value.rt)
    {
      FoldLastWriterWins(DefaultConfig(base), opts, i);
    }
    tr := BuildTransport(cfg);
  }

  /** NewClient: like NewTransport over http.DefaultTransport, the result placed in a client. */
  method NewClient(opts: seq<Maybe<Option>>) returns (client: Client)
    ensures client.transport == BuildTransport(Fold(DefaultConfig(Some(DefaultTransport)), opts))
    ensures (forall j :: 0 <= j < |opts| ==> !Sets(opts[j], BaseSection)) ==> Innermost(client.transport) == DefaultTransport
    ensures forall i :: LastBaseOption(opts, i) ==> Innermost(client.transport) == ResolveBase(opts[i].value.rt)
  {
    var cfg := DefaultConfig(Some(DefaultTransport));
    for i := 0 to |opts|
      invariant cfg == Fold(DefaultConfig(Some(DefaultTransport)), opts[..i])
    {
      FoldSnoc(DefaultConfig(Some(DefaultTransport)), opts[..i], opts[i]);
      assert opts[..i + 1] == opts[..i] + [opts[i]];
      if opts[i].Some? {
        cfg := Apply(opts[i].value, cfg);
      }
    }
    assert opts[..|opts|] == opts;
    if forall j :: 0 <= j < |opts| ==> !Sets(opts[j], BaseSection) {
      FoldUntouched(DefaultConfig(Some(DefaultTransport)), opts, BaseSection);
    }
    forall i | LastBaseOption(opts, i)
      ensures Innermost(BuildTransport(cfg)) == ResolveBase(opts[i].value.rt)
    {
      FoldLastWriterWins(DefaultConfig(Some(DefaultTransport)), opts, i);
    }
    client := Client(BuildTransport(cfg));
  }
}
