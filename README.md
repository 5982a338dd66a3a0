# rhttp transport chain, modelled in Dafny

rhttp puts a resilience layer between an HTTP client and its network transport.
In this version of the library the only real logic is how the transport chain
is put together from options. The retry, circuit-breaker and OpenTelemetry
transports are still stubs that forward to the next transport.

The model covers:

- `RhttpConfig` (`config.dfy`): the `Config` with its four fields (Base, Retry,
  Breaker, OTel), `defaultConfig`, and the four options `WithBaseTransport`,
  `WithRetry`, `WithBreaker` and `WithOTel`. Options form a tagged datatype.
  Applying one (`Apply`) is a pure `Config -> Config` update. `Fold` applies a
  sequence of possibly nil options left to right, as the option loop does.
  Lemmas state the algebra of that loop: concatenation, nil skipping,
  last-writer-wins, and that repeating an option is idempotent.
- `RhttpTransport` (`transport.dfy`): the chain as an inductive `Transport`
  datatype. `BuildTransport` is `buildTransport`. `RoundTrip` is the stub
  `RoundTrip` of the three wrappers. It returns the reply together with the
  log of calls made to the base transport. `NewTransport` and `NewClient` are
  methods whose `for` loops run the options over a local configuration. Each
  is proved against `Fold` and `BuildTransport`.
- `RhttpTransportTest` (`transport_test.dfy`): the four scenarios of the test
  file. Each is written as a caller that relies only on the contracts of
  `NewTransport`, `NewClient` and `RoundTrip`.

A nil interface value is `Nil` of `Nullable.Maybe`. Base transports are opaque
identities (`BaseId`): `DefaultTransport` stands for `http.DefaultTransport`,
and `UserTransport(n)` for any transport a caller supplies. Go's pointer
identity (`bt.next != base` in the tests) becomes equality of these
identities. The base transport's behaviour is a function parameter `send`. It
plays the role of the recording transport of the tests. Go's dynamic type
assertions become constructor tests on `Transport`.

The design description of the library promises a retry engine, a breaker
state machine and telemetry. The code has none of these: the wrappers carry
only an `Enabled` flag and forward every call. The model follows the code.

## Model

| member | source | states |
|---|---|---|
| `RhttpConfig.DefaultConfig` | rhttp/config.go:28-44 | Retry, Breaker and OTel are all disabled; a nil base becomes the default transport, a non-nil base is kept as given |
| `RhttpConfig.Apply` | rhttp/config.go:46-67 | each option writes only its own field and keeps the other three; `WithBaseTransport(nil)` sets the default transport, a non-nil argument becomes the base; `WithRetry`, `WithBreaker` and `WithOTel` store their section as given |
| `RhttpConfig.Step` | rhttp/transport.go:12-14 | one turn of the option loop: a nil option writes no field |
| `RhttpConfig.FoldAppend` | rhttp/transport.go:11-15 | applying two option lists in turn equals applying their concatenation |
| `RhttpConfig.FoldSnoc` | rhttp/transport.go:11-15 | one more option in the list is one more loop step on the configuration reached so far |
| `RhttpConfig.FoldSkipsNil` | rhttp/transport.go:12-14 | a nil option anywhere in the list has no effect on the resulting configuration |
| `RhttpConfig.StepOverwrite` | rhttp/config.go:57-67 | of two options on the same field, the second one alone decides the result; an option applied twice is applied once |
| `RhttpConfig.StepsCommute` | rhttp/config.go:48-67 | options on different fields give the same configuration in either order |
| `RhttpConfig.FoldUntouched` | rhttp/transport.go:10-15 | a field that no option in the list writes keeps the value it started with |
| `RhttpConfig.FoldLastWriterWins` | rhttp/transport.go:10-15 | if option i is the last one writing its field, the folded configuration holds exactly what option i writes there |
| `RhttpConfig.StepBeforeWriter` | rhttp/transport.go:11-15 | an option that a later option on the same field overwrites has no effect on the end result |
| `RhttpConfig.FoldDropsOverwritten` | rhttp/transport.go:11-15 | removing an overridden option from anywhere in the list leaves the resulting configuration unchanged |
| `RhttpConfig.FoldRepeatIdempotent` | rhttp/transport.go:11-15 | giving the same option twice in a row equals giving it once, nil or not |
| `RhttpTransport.WrapLayers` | rhttp/transport.go:31-45 | a chain is determined by its list of wrappers (outer to inner, with their configs) and its base |
| `RhttpTransport.LayersWrap` | rhttp/transport.go:31-45 | any list of wrappers over any base is a chain with exactly those wrappers and that base (the inverse of `WrapLayers`) |
| `RhttpTransport.EnabledChainFacts` | rhttp/transport.go:6 | a chain whose wrappers are the enabled ones, listed outer to inner as OTel, Retry, Breaker, has one wrapper per enabled feature carrying that feature's section, is ordered by rank, and is the bare base exactly when nothing is enabled |
| `RhttpTransport.BuildTransport` | rhttp/transport.go:31-45 | the innermost transport is `cfg.Base`; the wrappers, outer to inner, are exactly the enabled ones in the documented order OTel, Retry, Breaker; depth equals the number of enabled features; the result is the bare base if and only if no feature is enabled; wrappers appear in the fixed order OTel, Retry, Breaker from outside in; each wrapper is present if and only if its feature is enabled; each carries its own config section and nothing else |
| `RhttpTransport.RoundTrip` | rhttp/transport.go:54-74 | a round trip on any chain makes exactly one base call, to the innermost base, with the very request given, and returns that base's response and error unchanged |
| `RhttpTransport.ComposedRoundTrip` | rhttp/transport.go:31-74 | for every combination of toggles, the composed chain answers exactly as its base called alone, with one base call |
| `RhttpTransport.NewTransport` | rhttp/transport.go:9-17 | returns the chain built from the default configuration of `base` with every non-nil option applied in order; with no base option the innermost transport is `base`, or the default transport if `base` is nil; otherwise the last base option decides it |
| `RhttpTransport.NewClient` | rhttp/transport.go:19-29 | the client's transport is the chain built from the default configuration over the default transport with every non-nil option applied in order; it ends at the default transport unless a base option is given, and then the last such option decides the base |
| `RhttpTransportTest.DisabledCallsBase` | rhttp/transport_test.go:31-46 | with no options the transport is the base itself and one round trip calls the base exactly once |
| `RhttpTransportTest.ChainOrderAllEnabled` | rhttp/transport_test.go:48-77 | with all three features on, the chain is OTel, then Retry, then Breaker, then the very base passed in |
| `RhttpTransportTest.ClientUsesComposedTransport` | rhttp/transport_test.go:79-90 | a client with only retry enabled has a retry wrapper directly over the default transport |
| `RhttpTransportTest.WithBaseTransportAppliesToClient` | rhttp/transport_test.go:92-108 | the base given by `WithBaseTransport` is what the client's chain calls, once, with the request given |

## Left out

- `net/http` types (`http.Request`, `http.Response`, `http.Client`, `http.DefaultTransport`) belong to Go's standard library. They are opaque identities here, and a client is only its transport.
- The network I/O of the base transport is not modelled. The base's answer is the parameter `send`, and its calls are the trace that `RoundTrip` returns.
- A base transport that is itself an rhttp chain is treated like any other base, as an opaque identity. The wrappers see their `next` only through `RoundTrip`.
- Retry eligibility, backoff, Retry-After parsing, reason codes, the circuit-breaker state machine, and OpenTelemetry spans and metrics do not exist in this version of the code. The wrappers are forwarding stubs, so none of this is modelled.
- Concurrency and locking: the code has none.
- Go closures: an `Option` is a function that mutates a `*Config`. Here it is a tagged datatype, and `Apply` gives the updated configuration as a new value. Mutation through the pointer is not modelled.
