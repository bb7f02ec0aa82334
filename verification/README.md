# krakend-ratelimit configuration parsers and juju proxy gate, in Dafny

This project models the configuration side of the KrakenD rate-limit
components. It covers the two total parsers that read a typed rate-limit
record out of a dynamically typed `extra_config` block, and the juju proxy
middleware's decision whether limiting is enabled at all. It then proves
properties of that model.

- `dynamic.dfy` (module `Dynamic`) holds the dynamic value a Go
  `map[string]interface{}` carries, with one constructor per Go type a type
  switch can tell apart. It also holds Go's float-to-integer conversion
  (truncation toward zero), the number a numeric value denotes, and `%v`
  formatting. That formatting is pinned for strings and left as a
  parameter for everything else.
- `juju_proxy.dfy` (module `JujuProxy`) models `Config`, `ZeroCfg`,
  `ErrNoExtraCfg`/`ErrWrongExtraCfg` and `ConfigGetter` of the juju proxy.
  The getter returns a tagged pair: "not configured", "malformed", or a
  config with no error.
- `juju_proxy_middleware.dfy` (module `JujuProxyMiddleware`) models
  `NewMiddleware`. That covers whether limiting is enabled, what gets
  logged, applying the middleware to its `next` proxies, and serving
  requests. The limiter's verdict for each request is an input.
- `rate_router.dfy` (module `RateRouter`) models `Config`, `ZeroCfg` and
  `ConfigGetter` of the rate router. It has no error channel: every problem
  yields a zero value.

Each parser has an encoder as its partner. The lemmas prove that
encode-then-parse is the identity, both with the Go types the record
declares and with JSON's all-float64 numbers. They also prove that a parse
is a normal form, that only the known keys matter, and that fields are
parsed independently of each other.

Behaviour of the code worth noting:
- A zero or missing `capacity` stays 0. It is not replaced by the rate.
- `strategy` is stored as the `%v` rendering of whatever the entry holds. Any string is accepted.
- Wrong-typed fields are not logged. Only a namespace value that is not an
  object is logged.
- The juju proxy reads `max_rate`/`capacity`. The router reads
  `maxRate`/`clientMaxRate` and ignores the snake-case spelling.
- The juju proxy's package documentation shows its sample block under the
  key ".../rate/proxy" (juju/proxy/proxy.go:9). The getter reads only
  `Namespace` (juju/proxy/proxy.go:50). A block configured as documented is
  therefore "not configured": nothing is logged and limiting is off.

## Model

| member | source | states |
|---|---|---|
| Dynamic.Trunc | juju/proxy/proxy.go:129-130 | float64-to-integer conversion discards the fraction: the result is the integer between zero and the value that lies less than 1 away from it |
| Dynamic.Format | rate/router/router.go:64-66 | `%v` renders a string value verbatim |
| JujuProxy.ConfigGetter | juju/proxy/proxy.go:103-134 | a missing namespace gives `(ZeroCfg, ErrNoExtraCfg)`; a non-object gives `(ZeroCfg, ErrWrongExtraCfg)`; the error is nil exactly when the namespace holds an object, whatever its fields hold; then the rate is the number `max_rate` denotes (float64, int or int64), and the capacity is the number `capacity` denotes (int64, int or float64), truncated toward zero; each is 0 when its entry is missing or non-numeric |
| JujuProxy.EncodeRoundTrip | juju/proxy/proxy.go:112-133 | parsing a block that holds a float64 rate and an int64 capacity returns exactly that config with a nil error |
| JujuProxy.EncodeJsonRoundTrip | juju/proxy/proxy.go:123-132 | with both numbers delivered as float64, as JSON decoding does, the integral capacity survives truncation and the config comes back unchanged |
| JujuProxy.ParseIsNormalForm | juju/proxy/proxy.go:112-133 | re-encoding a successfully parsed config and parsing it again yields the same result |
| JujuProxy.OnlyKnownKeysMatter | juju/proxy/proxy.go:112-133 | two namespace objects that agree on `max_rate` and `capacity` parse to the same result, whatever other keys they hold |
| JujuProxy.MaxRateDoesNotAffectCapacity | juju/proxy/proxy.go:113-132 | replacing `max_rate` by any value, malformed or not, leaves the parsed capacity unchanged |
| JujuProxy.CapacityDoesNotAffectMaxRate | juju/proxy/proxy.go:113-132 | replacing `capacity` by any convertible value leaves the parsed rate unchanged |
| JujuProxy.WrongFieldTypesDegrade | juju/proxy/proxy.go:112-133 | non-numeric entries for both fields give the zero config with no error, not a failure |
| JujuProxy.SampleConfig | juju/proxy/proxy.go:103-134 | the doc sample's field values `{"max_rate": 100, "capacity": 100}`, decoded from JSON and placed under `Namespace`, parse to rate 100 and capacity 100 with no error |
| JujuProxy.MixedKindsSample | juju/proxy/proxy.go:113-132 | an `int` rate converts exactly, a capacity of -2.75 truncates to -2, and an unknown key is ignored |
| JujuProxyMiddleware.NewMiddleware | juju/proxy/proxy.go:66-79 | limiting is enabled exactly when the namespace object holds a positive numeric `max_rate`, with the parsed rate and capacity; an error is logged only for a malformed namespace, never for a missing one; the enabling debug line only when enabled |
| JujuProxyMiddleware.Apply | juju/proxy/proxy.go:80-83 | more than one next proxy panics with `ErrTooManyProxies`; the enabled middleware otherwise wraps whatever it is given |
| JujuProxyMiddleware.Returned | juju/proxy/proxy.go:85-88 | a refused request returns `(nil, ErrLimited)`; a delegated one returns the next proxy's pair unchanged |
| JujuProxyMiddleware.Call | juju/proxy/proxy.go:84-89 | a request is refused with the limiter's error exactly when the proxy is the limiting one and the verdict denies; an allowed request gets the next proxy's reply unchanged, or an index panic when there is none |
| JujuProxyMiddleware.ServeAll | juju/proxy/proxy.go:84-89 | over a stream of requests through the limiting proxy, the next proxy answers exactly the admitted requests, in order, and the number refused equals the number of denying verdicts; the pass-through forwards every request and refuses none |
| JujuProxyMiddleware.GateBehaviour | juju/proxy/proxy.go:66-91 | for any config and single next proxy: when the parse fails or the rate is not positive, every request reaches the next proxy whatever the verdict; otherwise a denied request returns `(nil, ErrLimited)` without delegating, and an allowed one returns exactly the next proxy's reply |
| JujuProxyMiddleware.DocSampleKeySilentlyDisables | juju/proxy/proxy.go:9-11 | the documentation's sample block, under its key ".../rate/proxy" rather than `Namespace`, gives `(ZeroCfg, ErrNoExtraCfg)`: the middleware is the pass-through and nothing is logged |
| JujuProxyMiddleware.OnlyMalformedIsLogged | juju/proxy/proxy.go:68-74 | an error line is logged if and only if the getter's error is `ErrWrongExtraCfg` |
| RateRouter.ConfigGetter | rate/router/router.go:46-79 | a missing or non-object namespace gives `ZeroCfg`; otherwise each rate is its entry's number truncated toward zero when the entry is an `int` or `float64`, else 0, and `strategy`/`key` are the `%v` rendering of their entries, "" when missing |
| RateRouter.EncodeRoundTrip | rate/router/router.go:55-78 | parsing a block holding `int` rates and string fields returns exactly that config, whatever the formatter |
| RateRouter.EncodeJsonRoundTrip | rate/router/router.go:56-74 | with rates delivered as float64, the integral rates survive truncation and the config comes back unchanged |
| RateRouter.ParseIsNormalForm | rate/router/router.go:46-79 | re-encoding any parsed config and parsing it again yields the same config |
| RateRouter.OnlyKnownKeysMatter | rate/router/router.go:55-78 | two namespace objects that agree on `maxRate`, `strategy`, `clientMaxRate` and `key` parse alike, whatever other keys they hold |
| RateRouter.FieldsIndependent | rate/router/router.go:55-78 | setting any one entry to any value changes at most the field that entry names |
| RateRouter.Int64RateIgnored | rate/router/router.go:56-74 | `int64` rates are ignored: unlike the juju proxy parser, only `int` and `float64` are read |
| RateRouter.SampleConfig | rate/router/router.go:9-14 | the documented block's field values, as JSON decoding delivers them (numbers as float64) under `Namespace`, parse to rate 2000, strategy "header", client rate 100 and key "X-Private-Token" |
| RateRouter.SnakeCaseKeysIgnored | rate/router/router.go:56-74 | the juju spelling `max_rate`/`capacity` is not read by the router: the result is `ZeroCfg` |
| RateRouter.MalformedRateSample | rate/router/router.go:55-78 | a string `maxRate` reads as 0 while a float64 client rate of -7.9 truncates to -7 and the key is kept |

## Left out

- The token bucket (`juju.NewLimiter`, `tb.Allow()`) belongs to a library that is not part of this model. Each request's verdict is a boolean input. The limiter's construction appears only as the rate and capacity it receives. Its own failure modes are not modelled, such as a constructor that rejects a non-positive capacity. So the model enables limiting for `{"max_rate": 10}` with capacity 0.
- lura's `proxy.EmptyMiddleware` is not part of this model. The pass-through is modelled as taking its single next proxy unchanged, panicking with `ErrTooManyProxies` on more than one and with an index panic on none.
- The package documentation's sample key ".../rate/proxy" (juju/proxy/proxy.go:9) differs from `Namespace`. A block configured as documented silently disables limiting. The model reads `Namespace` as the code does, and `DocSampleKeySilentlyDisables` states the consequence.
- `BackendFactory` (juju/proxy/proxy.go:59-63) is left out. It only composes `NewMiddleware` with the host's backend factory.
- Logging is modelled as the list of lines `NewMiddleware` emits. How the logger renders or routes them is not modelled.
- `context.Context`, `proxy.Request` and `proxy.Response` are type parameters with no content. The next proxies are total functions of the request.
- Dynamic.Format: `fmt.Sprintf("%v", v)` of a non-string value is the uninterpreted parameter `show`. Only the string case is pinned.
- JujuProxy.ConfigGetter: requires a float64 `capacity` to truncate into the int64 range. Go leaves an out-of-range conversion implementation-dependent.
- RateRouter.ConfigGetter: requires float64 `maxRate` and `clientMaxRate` entries to truncate into the range of a 64-bit `int`, for the same reason.
- JujuProxyMiddleware.NewMiddleware: inherits the getter's capacity-range requirement.
- float64 values are finite reals. NaN and the infinities are not modelled, and neither is the rounding of `float64(int)` for magnitudes above 2^53.
- Go's `int` is modelled as 64 bits wide. A nested value of a named map type, such as `config.ExtraConfig` itself, fails the `map[string]interface{}` assertion and falls under `Other`.
- juju/router/router_test.go tests a juju router getter whose source is not part of this model. Its one use here is the fact that JSON numbers arrive as float64, which the JSON fixtures and round trips follow.
- The per-client bucket registry, eviction, client-key strategies and concurrency are not in the modelled code.
