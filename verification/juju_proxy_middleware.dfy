/**
 The juju proxy middleware: the decision, taken once from a backend's extra
 config, whether rate limiting is enabled at all, and the behaviour of the
 wrapped proxy when it is. The token bucket itself is not modelled: each
 request's verdict (`tb.Allow()`) is an input, `allowed`.
 */
module JujuProxyMiddleware {
  import opened Dynamic
  import opened JujuProxy

  /** What `NewMiddleware` returns: the pass-through, or a limiter built from
      the parsed rate and capacity. */
  datatype Middleware = EmptyMiddleware | RateLimiting(maxRate: real, capacity: int64)

  datatype LogLine = ErrorLine(prefix: string, err: ConfigError) | DebugLine(prefix: string, msg: string)

  /** The middleware together with what its construction logs. */
  datatype Setup = Setup(mw: Middleware, log: seq<LogLine>)

  function LogPrefix(urlPattern: string): string {
    "[BACKEND: " + urlPattern + "][Ratelimit]"
  }

  /**
   Rate limiting is enabled exactly when the backend's namespace block is an
   object whose `max_rate` entry is a positive number. A missing block is
   silent; a malformed one is logged as an error and disables limiting.
   */
  function NewMiddleware(urlPattern: string, extra: ExtraConfig): (s: Setup)
    requires Convertible(extra)
    ensures s.mw.RateLimiting? <==>
      && Namespace in extra && extra[Namespace].Obj?
      && "max_rate" in extra[Namespace].fields
      && Number(extra[Namespace].fields["max_rate"]).Some?
      && Number(extra[Namespace].fields["max_rate"]).value > 0.0
    ensures s.mw.RateLimiting? ==>
      ConfigGetter(extra) == Parsed(Config(s.mw.maxRate, s.mw.capacity), None)
    ensures Namespace !in extra ==> s.log == []
    ensures Namespace in extra && !extra[Namespace].Obj? ==>
      s.log == [ErrorLine(LogPrefix(urlPattern), ErrWrongExtraCfg)]
    ensures Namespace in extra && extra[Namespace].Obj? ==>
      s.log == if s.mw.RateLimiting? then [DebugLine(LogPrefix(urlPattern), "Enabling the rate limiter")] else []
  {
    var logPrefix := LogPrefix(urlPattern);
    var parsed := ConfigGetter(extra);
    if parsed.err.Some? then
      var log := if parsed.err.value != ErrNoExtraCfg then [ErrorLine(logPrefix, parsed.err.value)] else [];
      Setup(EmptyMiddleware, log)
    else if parsed.cfg.maxRate <= 0.0 then
      Setup(EmptyMiddleware, [])
    else
      Setup(RateLimiting(parsed.cfg.maxRate, parsed.cfg.capacity), [DebugLine(logPrefix, "Enabling the rate limiter")])
  }

  /** The errors a proxy call can return: the limiter's sentinel, or whatever
      the next proxy reported. */
  datatype Error = ErrLimited | Downstream(msg: string)

  /** The `(*Response, error)` pair a proxy returns; `None` is Go's nil. */
  datatype Reply<Resp> = Reply(response: Option<Resp>, err: Option<Error>)

  /** The proxy a middleware builds around its `next` proxies. */
  datatype Proxy<!Req, Resp> =
    | Limiting(next: seq<Req -> Reply<Resp>>)   // the closure of the enabled middleware
    | PassThrough(only: Req -> Reply<Resp>)     // the single next proxy, unwrapped

  datatype Panic = ErrTooManyProxies | IndexOutOfRange

  datatype Built<!Req, Resp> = Built(proxy: Proxy<Req, Resp>) | PanicOnBuild(reason: Panic)

  /** One request through a proxy: refused by the limiter, handed to the next
      proxy (whose reply is returned unchanged), or a run-time panic. */
  datatype Outcome<Resp> = Limited | Delegated(reply: Reply<Resp>) | Panicked(reason: Panic)

  /** The values the Go proxy returns for an outcome that did not panic. */
  function Returned<Resp>(o: Outcome<Resp>): (r: Reply<Resp>)
    requires !o.Panicked?
    ensures o.Limited? ==> r == Reply(None, Some(ErrLimited))
    ensures o.Delegated? ==> r == o.reply
  {
    if o.Limited? then Reply(None, Some(ErrLimited)) else o.reply
  }

  /**
   Applies a middleware to its `next` proxies. Both kinds refuse more than
   one. The enabled middleware accepts an empty list and only fails when a
   request reaches the missing `next[0]`; the pass-through takes `next[0]`
   at once.
   */
  function Apply<Req, Resp>(mw: Middleware, next: seq<Req -> Reply<Resp>>): (b: Built<Req, Resp>)
    ensures |next| > 1 ==> b == PanicOnBuild(ErrTooManyProxies)
    ensures mw.RateLimiting? && |next| <= 1 ==> b.Built? && b.proxy.Limiting? && b.proxy.next == next
    ensures mw.EmptyMiddleware? && |next| == 1 ==> b.Built? && b.proxy.PassThrough? && b.proxy.only == next[0]
    ensures mw.EmptyMiddleware? && |next| == 0 ==> b == PanicOnBuild(IndexOutOfRange)
  {
    if |next| > 1 then PanicOnBuild(ErrTooManyProxies)
    else if mw.RateLimiting? then Built(Limiting(next))
    else if |next| == 0 then PanicOnBuild(IndexOutOfRange)
    else Built(PassThrough(next[0]))
  }

  /** Serves one request; `allowed` is the limiter's verdict for it. */
  function Call<Req, Resp>(p: Proxy<Req, Resp>, allowed: bool, req: Req): (o: Outcome<Resp>)
    ensures o.Limited? <==> p.Limiting? && !allowed
    ensures p.Limiting? && allowed && |p.next| > 0 ==> o == Delegated(p.next[0](req))
    ensures p.Limiting? && allowed && |p.next| == 0 ==> o == Panicked(IndexOutOfRange)
    ensures p.PassThrough? ==> o == Delegated(p.only(req))
  {
    match p
    case PassThrough(only) => Delegated(only(req))
    case Limiting(next) =>
      if !allowed then Limited
      else if |next| == 0 then Panicked(IndexOutOfRange)
      else Delegated(next[0](req))
  }

  /** The number of verdicts that admit a request. */
  function AllowedCount(verdicts: seq<bool>): nat {
    if |verdicts| == 0 then 0
    else (if verdicts[0] then 1 else 0) + AllowedCount(verdicts[1..])
  }

  /** The number of verdicts that refuse a request. */
  function DeniedCount(verdicts: seq<bool>): nat {
    if |verdicts| == 0 then 0
    else (if verdicts[0] then 0 else 1) + DeniedCount(verdicts[1..])
  }

  /** The requests the limiter lets through, in arrival order: one per admitting verdict. */
  function Admitted<Req>(verdicts: seq<bool>, reqs: seq<Req>): (a: seq<Req>)
    requires |verdicts| == |reqs|
    ensures |a| == AllowedCount(verdicts)
    ensures |a| + DeniedCount(verdicts) == |reqs|
  {
    if |reqs| == 0 then []
    else (if verdicts[0] then [reqs[0]] else []) + Admitted(verdicts[1..], reqs[1..])
  }

  /** The replies of the delegated outcomes, in order. */
  function Replies<Resp>(os: seq<Outcome<Resp>>): seq<Reply<Resp>> {
    if |os| == 0 then []
    else (if os[0].Delegated? then [os[0].reply] else []) + Replies(os[1..])
  }

  /** The number of requests the limiter refused. */
  function LimitedCount<Resp>(os: seq<Outcome<Resp>>): nat {
    if |os| == 0 then 0
    else (if os[0].Limited? then 1 else 0) + LimitedCount(os[1..])
  }

  /** What a proxy answers to each of `reqs` in turn. */
  function Forwarded<Req, Resp>(f: Req -> Reply<Resp>, reqs: seq<Req>): (rs: seq<Reply<Resp>>)
    ensures |rs| == |reqs|
    ensures forall i :: 0 <= i < |rs| ==> rs[i] == f(reqs[i])
  {
    if |reqs| == 0 then [] else [f(reqs[0])] + Forwarded(f, reqs[1..])
  }

  /**
   A stream of requests through a proxy, the limiter giving one verdict per
   request. Through the enabled middleware with one next proxy, the next
   proxy sees exactly the admitted requests, in order, and as many requests
   are refused as verdicts deny; the pass-through forwards every request.
   */
  function ServeAll<Req, Resp>(p: Proxy<Req, Resp>, verdicts: seq<bool>, reqs: seq<Req>): (os: seq<Outcome<Resp>>)
    requires |verdicts| == |reqs|
    ensures |os| == |reqs|
    ensures forall i :: 0 <= i < |os| ==> os[i] == Call(p, verdicts[i], reqs[i])
    ensures p.Limiting? && |p.next| == 1 ==>
      && Replies(os) == Forwarded(p.next[0], Admitted(verdicts, reqs))
      && LimitedCount(os) == DeniedCount(verdicts)
    ensures p.PassThrough? ==> Replies(os) == Forwarded(p.only, reqs) && LimitedCount(os) == 0
  {
    if |reqs| == 0 then []
    else
      var rest := ServeAll(p, verdicts[1..], reqs[1..]);
      var os := [Call(p, verdicts[0], reqs[0])] + rest;
      assert os[1..] == rest;
      var admitted := Admitted(verdicts[1..], reqs[1..]);
      assert ([reqs[0]] + admitted)[1..] == admitted;
      assert verdicts[0] ==> Admitted(verdicts, reqs) == [reqs[0]] + admitted;
      assert !verdicts[0] ==> Admitted(verdicts, reqs) == admitted;
      assert Replies(os) == (if os[0].Delegated? then [os[0].reply] else []) + Replies(rest);
      os
  }

  /** End to end, for any extra config and any single next proxy: when limiting
      is off every request reaches the next proxy whatever the limiter would say;
      when it is on, a refused request returns `(nil, ErrLimited)` without the
      next proxy being called, and an admitted one returns exactly its reply. */
  lemma GateBehaviour<Req, Resp>(urlPattern: string, extra: ExtraConfig, next: Req -> Reply<Resp>, req: Req)
    requires Convertible(extra)
    ensures var b := Apply(NewMiddleware(urlPattern, extra).mw, [next]);
      && b.Built?
      && Call(b.proxy, true, req) == Delegated(next(req))
      && Returned(Call(b.proxy, true, req)) == next(req)
      && (ConfigGetter(extra).err.Some? || ConfigGetter(extra).cfg.maxRate <= 0.0 ==>
            Call(b.proxy, false, req) == Delegated(next(req)))
      && (ConfigGetter(extra).err.None? && ConfigGetter(extra).cfg.maxRate > 0.0 ==>
            Call(b.proxy, false, req) == Limited &&
            Returned(Call(b.proxy, false, req)) == Reply(None, Some(ErrLimited)))
  {
  }

  /** Only a malformed namespace block is ever logged as an error; a missing
      one, like any well-formed one, is not. */
  lemma OnlyMalformedIsLogged(urlPattern: string, extra: ExtraConfig)
    requires Convertible(extra)
    ensures (exists l :: l in NewMiddleware(urlPattern, extra).log && l.ErrorLine?) <==>
      ConfigGetter(extra).err == Some(ErrWrongExtraCfg)
  {
    var s := NewMiddleware(urlPattern, extra);
    if ConfigGetter(extra).err == Some(ErrWrongExtraCfg) {
      assert s.log[0] in s.log;
    }
  }

  /** The package documentation's sample places `{"max_rate": 100, "capacity": 100}`
      under ".../rate/proxy", not under `Namespace`. Configured that way, the
      getter reports "not configured", nothing is logged, and limiting stays off. */
  lemma DocSampleKeySilentlyDisables(urlPattern: string)
    ensures var e := map["github.com/devopsfaith/krakend-ratelimit/rate/proxy" :=
        Obj(map["max_rate" := F64(100.0), "capacity" := F64(100.0)])];
      && Convertible(e)
      && ConfigGetter(e) == Parsed(ZeroCfg, Some(ErrNoExtraCfg))
      && NewMiddleware(urlPattern, e) == Setup(EmptyMiddleware, [])
  {
  }
}
