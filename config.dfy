/**
 * The configuration of an rhttp transport chain (rhttp/config.go) and the
 * left-to-right application of options that NewTransport and NewClient
 * perform on it (rhttp/transport.go).
 */
module RhttpConfig {
  import opened Nullable

  /** A base http.RoundTripper, seen only by identity: http.DefaultTransport or one a caller supplies. */
  datatype BaseId = DefaultTransport | UserTransport(id: nat)

  datatype RetryConfig = RetryConfig(enabled: bool)

  datatype BreakerConfig = BreakerConfig(enabled: bool)

  datatype OTelConfig = OTelConfig(enabled: bool)

  /** The four fields a chain is built from. */
  datatype Config = Config(base: BaseId, retry: RetryConfig, breaker: BreakerConfig, otel: OTelConfig)

  /** The options a caller passes; each one, applied, overwrites a single field of a Config. */
  datatype Option =
    | WithBaseTransport(rt: Maybe<BaseId>)
    | WithRetry(retry: RetryConfig)
    | WithBreaker(breaker: BreakerConfig)
    | WithOTel(otel: OTelConfig)

  /** The fields of a Config, one per option kind. */
  datatype Section = BaseSection | RetrySection | BreakerSection | OTelSection

  /** A nil base transport stands for http.DefaultTransport. */
  function ResolveBase(rt: Maybe<BaseId>): BaseId
  {
    if rt.Nil? then DefaultTransport else rt.value
  }

  /** The configuration before any option: every feature off, a nil base replaced by the default transport. */
  function DefaultConfig(base: Maybe<BaseId>): (c: Config)
    ensures !c.retry.enabled && !c.breaker.enabled && !c.otel.enabled
    ensures base.Nil? ==> c.base == DefaultTransport
    ensures base.Some? ==> c.base == base.value
  {
    Config(ResolveBase(base), RetryConfig(false), BreakerConfig(false), OTelConfig(false))
  }

  /** The field an option writes. */
  function SectionOf(o: Option): Section
  {
    match o
    case WithBaseTransport(_) => BaseSection
    case WithRetry(_) => RetrySection
    case WithBreaker(_) => BreakerSection
    case WithOTel(_) => OTelSection
  }

  /** Whether a possibly nil option writes field `s`; a nil option writes nothing. */
  predicate Sets(o: Maybe<Option>, s: Section)
  {
    o.Some? && SectionOf(o.value) == s
  }

  /** Whether two configurations hold the same value in field `s`. */
  predicate Agree(c: Config, d: Config, s: Section)
  {
    match s
    case BaseSection => c.base == d.base
    case RetrySection => c.retry == d.retry
    case BreakerSection => c.breaker == d.breaker
    case OTelSection => c.otel == d.otel
  }

  /** Running an option's closure on a Config: its own field gets the option's value, every other field is kept. */
  function Apply(o: Option, c: Config): (r: Config)
    ensures forall s :: s != SectionOf(o) ==> Agree(r, c, s)
    ensures o.WithBaseTransport? ==> r.base == ResolveBase(o.rt)
    ensures o.WithBaseTransport? && o.rt.Nil? ==> r.base == DefaultTransport
    ensures o.WithRetry? ==> r.retry == o.retry
    ensures o.WithBreaker? ==> r.breaker == o.breaker
    ensures o.WithOTel? ==> r.otel == o.otel
  {
    match o
    case WithBaseTransport(rt) => c.(base := ResolveBase(rt))
    case WithRetry(retry) => c.(retry := retry)
    case WithBreaker(breaker) => c.(breaker := breaker)
    case WithOTel(otel) => c.(otel := otel)
  }

  /** One turn of the option loop: a nil option is skipped, any other is applied. */
  function Step(c: Config, o: Maybe<Option>): (r: Config)
    ensures forall s :: !Sets(o, s) ==> Agree(r, c, s)
  {
    if o.Some? then Apply(o.value, c) else c
  }

  /** The option loop as a whole: options applied left to right, starting from `c`. */
  function Fold(c: Config, opts: seq<Maybe<Option>>): Config
    decreases |opts|
  {
    if |opts| == 0 then c else Fold(Step(c, opts[0]), opts[1..])
  }

  lemma AgreeTrans(c: Config, d: Config, e: Config, s: Section)
    requires Agree(c, d, s) && Agree(d, e, s)
    ensures Agree(c, e, s)
  {
  }

  /** Applying two option lists one after the other is applying their concatenation. */
  lemma {:induction false} FoldAppend(c: Config, a: seq<Maybe<Option>>, b: seq<Maybe<Option>>)
    ensures Fold(c, a + b) == Fold(Fold(c, a), b)
    decreases |a|
  {
    if |a| == 0 {
      assert a + b == b;
    } else {
      assert (a + b)[0] == a[0];
      assert (a + b)[1..] == a[1..] + b;
      FoldAppend(Step(c, a[0]), a[1..], b);
    }
  }

  /** The loop's step: extending the option list by one option is one more Step. */
  lemma FoldSnoc(c: Config, a: seq<Maybe<Option>>, o: Maybe<Option>)
    ensures Fold(c, a + [o]) == Step(Fold(c, a), o)
  {
    FoldAppend(c, a, [o]);
    assert [o][1..] == [];
  }

  /** A nil option anywhere in the list changes nothing. */
  lemma FoldSkipsNil(c: Config, a: seq<Maybe<Option>>, b: seq<Maybe<Option>>)
    ensures Fold(c, a + [Nil] + b) == Fold(c, a + b)
  {
    FoldAppend(c, a + [Nil], b);
    FoldSnoc(c, a, Nil);
    FoldAppend(c, a, b);
  }

  /** Of two options on the same field, the later one wins; in particular an option applied twice is applied once. */
  lemma StepOverwrite(c: Config, o1: Maybe<Option>, o2: Maybe<Option>)
    requires o1.Some? && Sets(o2, SectionOf(o1.value))
    ensures Step(Step(c, o1), o2) == Step(c, o2)
  {
  }

  /** Options on different fields can be applied in either order. */
  lemma StepsCommute(c: Config, o1: Maybe<Option>, o2: Maybe<Option>)
    requires o1.Some? ==> !Sets(o2, SectionOf(o1.value))
    ensures Step(Step(c, o1), o2) == Step(Step(c, o2), o1)
  {
  }

  /** A field that no option in the list writes keeps its starting value. */
  lemma {:induction false} FoldUntouched(c: Config, opts: seq<Maybe<Option>>, s: Section)
    requires forall j :: 0 <= j < |opts| ==> !Sets(opts[j], s)
    ensures Agree(Fold(c, opts), c, s)
    decreases |opts|
  {
    if |opts| != 0 {
      FoldUntouched(Step(c, opts[0]), opts[1..], s);
      AgreeTrans(Fold(c, opts), Step(c, opts[0]), c, s);
    }
  }

  /**
   * Last writer wins: if option i is the last one in the list that writes its field,
   * the folded field holds what option i writes.
   */
  lemma FoldLastWriterWins(c: Config, opts: seq<Maybe<Option>>, i: nat)
    requires i < |opts| && opts[i].Some?
    requires forall j :: i < j < |opts| ==> !Sets(opts[j], SectionOf(opts[i].value))
    ensures Agree(Fold(c, opts), Apply(opts[i].value, c), SectionOf(opts[i].value))
  {
    var s := SectionOf(opts[i].value);
    var pre, post := opts[..i], opts[i + 1..];
    assert opts == pre + [opts[i]] + post;
    FoldAppend(c, pre + [opts[i]], post);
    FoldSnoc(c, pre, opts[i]);
    var mid := Fold(c, pre + [opts[i]]);
    FoldUntouched(mid, post, s);
    AgreeTrans(Fold(c, opts), mid, Apply(opts[i].value, c), s);
  }

  /** An option followed, somewhere in `b`, by another on the same field has no effect. */
  lemma {:induction false} StepBeforeWriter(c: Config, o: Maybe<Option>, b: seq<Maybe<Option>>, j: nat)
    requires o.Some? && j < |b| && Sets(b[j], SectionOf(o.value))
    ensures Fold(Step(c, o), b) == Fold(c, b)
    decreases |b|
  {
    if Sets(b[0], SectionOf(o.value)) {
      StepOverwrite(c, o, b[0]);
    } else {
      StepsCommute(c, o, b[0]);
      StepBeforeWriter(Step(c, b[0]), o, b[1..], j - 1);
    }
  }

  /** Dropping an option that a later one on the same field overrides leaves the result unchanged. */
  lemma FoldDropsOverwritten(c: Config, a: seq<Maybe<Option>>, o: Maybe<Option>, b: seq<Maybe<Option>>, j: nat)
    requires o.Some? && j < |b| && Sets(b[j], SectionOf(o.value))
    ensures Fold(c, a + [o] + b) == Fold(c, a + b)
  {
    FoldAppend(c, a + [o], b);
    FoldSnoc(c, a, o);
    StepBeforeWriter(Fold(c, a), o, b, j);
    FoldAppend(c, a, b);
  }

  /** Repeating an option in place is the same as giving it once. */
  lemma FoldRepeatIdempotent(c: Config, a: seq<Maybe<Option>>, o: Maybe<Option>, b: seq<Maybe<Option>>)
    ensures Fold(c, a + [o, o] + b) == Fold(c, a + [o] + b)
  {
    assert a + [o, o] + b == a + [o] + ([o] + b);
    if o.Some? {
      FoldDropsOverwritten(c, a, o, [o] + b, 0);
    } else {
      FoldSkipsNil(c, a, [o] + b);
    }
    assert a + ([o] + b) == a + [o] + b;
  }
}
