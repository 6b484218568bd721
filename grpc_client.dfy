/** transport/grpc/client.go: the defaults `NewRPCClient` writes into the
    caller's `ClientConfig`, the circuit-breaker options built from it, and
    the unary client interceptor that routes calls through the breaker. The
    breaker itself (a third-party state machine) is an oracle, and so is
    the dial. */
module GrpcClient {
  import opened Common

  /** `fmt.Sprintf` of the service config with `roundrobin.Name`. */
  const RoundRobinServiceConfig: string := "{\"LoadBalancingPolicy\": \"round_robin\"}"

  const DefaultCounterResetInterval: int := Minute
  const DefaultThreshold: int := 3
  const DefaultOpenTimeout: int := 20 * Second
  const DefaultHalfOpenMaxSuccesses: int := 10

  /** The `Circuitbreaker` struct (durations in nanoseconds). */
  datatype Circuitbreaker = Circuitbreaker(
    counterResetInterval: int, threshold: int, openTimeout: int, halfOpenMaxSuccesses: int)

  /** A snapshot of a `ClientConfig`. */
  datatype ClientSettings = ClientSettings(
    addr: string, loadBalancing: string, timeout: int, requestTimeout: int,
    circuitbreaker: Circuitbreaker)

  /** The defaults of `NewRPCClient`: an empty load-balancing config becomes
      round robin; the two timeouts, when not positive, become one second;
      each breaker field becomes its default only when it is exactly 0. */
  function Normalize(s: ClientSettings): ClientSettings
  {
    var cb := s.circuitbreaker;
    ClientSettings(
      s.addr,
      OrIfEmpty(s.loadBalancing, RoundRobinServiceConfig),
      OrIfNotPositive(s.timeout, Second),
      OrIfNotPositive(s.requestTimeout, Second),
      Circuitbreaker(
        OrIfZero(cb.counterResetInterval, DefaultCounterResetInterval),
        OrIfZero(cb.threshold, DefaultThreshold),
        OrIfZero(cb.openTimeout, DefaultOpenTimeout),
        OrIfZero(cb.halfOpenMaxSuccesses, DefaultHalfOpenMaxSuccesses)))
  }

  /** What the defaults guarantee: a load-balancing config, positive
      timeouts and no breaker field left at 0. */
  ghost predicate Normalized(s: ClientSettings)
  {
    && s.loadBalancing != ""
    && s.timeout > 0 && s.requestTimeout > 0
    && s.circuitbreaker.counterResetInterval != 0
    && s.circuitbreaker.threshold != 0
    && s.circuitbreaker.openTimeout != 0
    && s.circuitbreaker.halfOpenMaxSuccesses != 0
  }

  /** The field-by-field rule: a value that is already usable is kept,
      anything else is replaced by its default. Breaker fields are compared
      with 0 only, so a negative breaker field survives. */
  lemma NormalizeRules(s: ClientSettings)
    ensures var n := Normalize(s);
      && n.addr == s.addr
      && (s.loadBalancing != "" <==> n.loadBalancing == s.loadBalancing)
      && (s.loadBalancing == "" ==> n.loadBalancing == RoundRobinServiceConfig)
      && (s.timeout > 0 <==> n.timeout == s.timeout)
      && (s.timeout <= 0 ==> n.timeout == Second)
      && (s.requestTimeout > 0 <==> n.requestTimeout == s.requestTimeout)
      && (s.requestTimeout <= 0 ==> n.requestTimeout == Second)
      && (s.circuitbreaker.counterResetInterval != 0 <==>
            n.circuitbreaker.counterResetInterval == s.circuitbreaker.counterResetInterval)
      && (s.circuitbreaker.counterResetInterval == 0 ==>
            n.circuitbreaker.counterResetInterval == Minute)
      && (s.circuitbreaker.threshold != 0 <==> n.circuitbreaker.threshold == s.circuitbreaker.threshold)
      && (s.circuitbreaker.threshold == 0 ==> n.circuitbreaker.threshold == 3)
      && (s.circuitbreaker.openTimeout != 0 <==> n.circuitbreaker.openTimeout == s.circuitbreaker.openTimeout)
      && (s.circuitbreaker.openTimeout == 0 ==> n.circuitbreaker.openTimeout == 20 * Second)
      && (s.circuitbreaker.halfOpenMaxSuccesses != 0 <==>
            n.circuitbreaker.halfOpenMaxSuccesses == s.circuitbreaker.halfOpenMaxSuccesses)
      && (s.circuitbreaker.halfOpenMaxSuccesses == 0 ==> n.circuitbreaker.halfOpenMaxSuccesses == 10)
  {
  }

  /** The defaults leave a normalised configuration, and a normalised
      configuration is a fixed point: applying the defaults twice is
      applying them once. */
  lemma NormalizeIdempotent(s: ClientSettings)
    ensures Normalized(Normalize(s))
    ensures Normalize(Normalize(s)) == Normalize(s)
  {
  }

  lemma NormalizedIsFixedPoint(s: ClientSettings)
    ensures Normalized(s) <==> Normalize(s) == s
  {
    if Normalize(s) == s {
      NormalizeIdempotent(s);
    }
  }

  /** The caller's `*ClientConfig`, which `NewRPCClient` updates in place. */
  class ClientConfig {
    var addr: string
    var loadBalancing: string
    var timeout: int
    var requestTimeout: int
    var circuitbreaker: Circuitbreaker

    constructor (s: ClientSettings)
      ensures Settings() == s
    {
      addr, loadBalancing, timeout, requestTimeout, circuitbreaker :=
        s.addr, s.loadBalancing, s.timeout, s.requestTimeout, s.circuitbreaker;
    }

    function Settings(): ClientSettings
      reads this
    {
      ClientSettings(addr, loadBalancing, timeout, requestTimeout, circuitbreaker)
    }
  }

  /** The options handed to `circuitbreaker.New`: context cancellation and
      deadline both count as failures, and the four numbers come from the
      (defaulted) configuration. */
  datatype BreakerOptions = BreakerOptions(
    failOnContextCancel: bool, failOnContextDeadline: bool,
    counterResetInterval: int, threshold: int, openTimeout: int, halfOpenMaxSuccesses: int)

  function BreakerOptionsOf(s: ClientSettings): (o: BreakerOptions)
    ensures o.failOnContextCancel && o.failOnContextDeadline
    ensures o.counterResetInterval == s.circuitbreaker.counterResetInterval
    ensures o.threshold == s.circuitbreaker.threshold
    ensures o.openTimeout == s.circuitbreaker.openTimeout
    ensures o.halfOpenMaxSuccesses == s.circuitbreaker.halfOpenMaxSuccesses
  {
    BreakerOptions(true, true, s.circuitbreaker.counterResetInterval, s.circuitbreaker.threshold,
                   s.circuitbreaker.openTimeout, s.circuitbreaker.halfOpenMaxSuccesses)
  }

  /** The breaker never receives a 0: each of its four numbers is the
      caller's value when that is not 0, and the default otherwise. */
  lemma BreakerFromDefaults(s: ClientSettings)
    ensures var o := BreakerOptionsOf(Normalize(s));
      && o.counterResetInterval != 0 && o.threshold != 0 && o.openTimeout != 0 && o.halfOpenMaxSuccesses != 0
      && o.counterResetInterval == OrIfZero(s.circuitbreaker.counterResetInterval, Minute)
      && o.threshold == OrIfZero(s.circuitbreaker.threshold, 3)
      && o.openTimeout == OrIfZero(s.circuitbreaker.openTimeout, 20 * Second)
      && o.halfOpenMaxSuccesses == OrIfZero(s.circuitbreaker.halfOpenMaxSuccesses, 10)
  {
  }

  /** The configuration part of `NewRPCClient`: one guarded assignment per
      field of `*cfg`, then the breaker options. */
  method NewRPCClient(cfg: ClientConfig) returns (opts: BreakerOptions)
    modifies cfg
    ensures cfg.Settings() == Normalize(old(cfg.Settings()))
    ensures opts == BreakerOptionsOf(cfg.Settings())
    ensures opts.failOnContextCancel && opts.failOnContextDeadline
    ensures opts.counterResetInterval != 0 && opts.threshold != 0
    ensures opts.openTimeout != 0 && opts.halfOpenMaxSuccesses != 0
  {
    cfg.loadBalancing := OrIfEmpty(cfg.loadBalancing, RoundRobinServiceConfig);
    cfg.timeout := OrIfNotPositive(cfg.timeout, Second);
    cfg.requestTimeout := OrIfNotPositive(cfg.requestTimeout, Second);
    var cb := cfg.circuitbreaker;
    cfg.circuitbreaker := cb.(counterResetInterval := OrIfZero(cb.counterResetInterval, DefaultCounterResetInterval));
    cb := cfg.circuitbreaker;
    cfg.circuitbreaker := cb.(threshold := OrIfZero(cb.threshold, DefaultThreshold));
    cb := cfg.circuitbreaker;
    cfg.circuitbreaker := cb.(openTimeout := OrIfZero(cb.openTimeout, DefaultOpenTimeout));
    cb := cfg.circuitbreaker;
    cfg.circuitbreaker := cb.(halfOpenMaxSuccesses := OrIfZero(cb.halfOpenMaxSuccesses, DefaultHalfOpenMaxSuccesses));
    opts := BreakerOptionsOf(cfg.Settings());
  }

  /** An error seen by the interceptor: the breaker's `ErrOpen`, or any
      other error. */
  datatype RpcError = ErrOpen | RpcFailure(e: Error)

  /** The breaker's decision for one call (the oracle): refuse it, or let
      it through to the invoker. */
  datatype Verdict = Refused | Admitted

  /** `cb.Do` around the interceptor's closure: a refused call returns
      `ErrOpen` without invoking; an admitted call returns the invoker's
      error. */
  function BreakerDo(verdict: Verdict, invokerErr: Option<Error>): (r: Option<RpcError>)
    ensures r == Some(ErrOpen) <==> verdict == Refused
    ensures r.None? <==> verdict == Admitted && invokerErr.None?
    ensures verdict == Admitted && invokerErr.Some? ==> r == Some(RpcFailure(invokerErr.value))
  {
    match verdict
    case Refused => Some(ErrOpen)
    case Admitted => if invokerErr.Some? then Some(RpcFailure(invokerErr.value)) else None
  }

  /** What the interceptor does for one call. */
  datatype Interception = Interception(err: Option<RpcError>, invoked: bool, openHandlerCalled: bool)

  /** The interceptor built by `UnaryClientInterceptor`: it returns the
      breaker's error unchanged and calls the open-state handler exactly
      when that error is `ErrOpen`. */
  function Intercept(verdict: Verdict, invokerErr: Option<Error>): (r: Interception)
    ensures r.err == BreakerDo(verdict, invokerErr)
    ensures r.openHandlerCalled <==> r.err == Some(ErrOpen)
    ensures r.openHandlerCalled <==> verdict == Refused
    ensures r.invoked <==> verdict == Admitted
    ensures verdict == Admitted && invokerErr.None? ==> r.err == None
  {
    var err := BreakerDo(verdict, invokerErr);
    Interception(err, verdict == Admitted, err == Some(ErrOpen))
  }
}
