/** transport/grpc/server.go: `NewServer`, the in-place defaults of
    `configuration` and the interceptor list of `Use`. Listening and
    serving are left to gRPC and are not modelled. */
module GrpcServer {
  import opened Common

  /** A snapshot of a `ServerConfig` (durations in nanoseconds). */
  datatype ServerSettings = ServerSettings(
    network: string, addr: string, timeout: int, idleTimeout: int, maxLifeTime: int,
    forceCloseWait: int, keepAliveInterval: int, keepAliveTimeout: int, logFlag: int)

  /** The defaults of `configuration`: empty strings and durations that are
      not positive are replaced, everything else is kept. */
  function Normalize(s: ServerSettings): ServerSettings
  {
    ServerSettings(
      OrIfEmpty(s.network, "tcp"),
      OrIfEmpty(s.addr, "0.0.0.0:9000"),
      OrIfNotPositive(s.timeout, Second),
      OrIfNotPositive(s.idleTimeout, 60 * Second),
      OrIfNotPositive(s.maxLifeTime, 2 * Hour),
      OrIfNotPositive(s.forceCloseWait, 20 * Second),
      OrIfNotPositive(s.keepAliveInterval, 60 * Second),
      OrIfNotPositive(s.keepAliveTimeout, 20 * Second),
      s.logFlag)
  }

  ghost predicate Normalized(s: ServerSettings)
  {
    && s.network != "" && s.addr != ""
    && s.timeout > 0 && s.idleTimeout > 0 && s.maxLifeTime > 0
    && s.forceCloseWait > 0 && s.keepAliveInterval > 0 && s.keepAliveTimeout > 0
  }

  /** Each field keeps a usable value and otherwise takes its default. */
  lemma NormalizeRules(s: ServerSettings)
    ensures var n := Normalize(s);
      && (s.addr != "" <==> n.addr == s.addr) && (s.addr == "" ==> n.addr == "0.0.0.0:9000")
      && (s.network != "" <==> n.network == s.network) && (s.network == "" ==> n.network == "tcp")
      && (s.timeout > 0 <==> n.timeout == s.timeout) && (s.timeout <= 0 ==> n.timeout == Second)
      && (s.idleTimeout > 0 <==> n.idleTimeout == s.idleTimeout)
      && (s.idleTimeout <= 0 ==> n.idleTimeout == 60 * Second)
      && (s.maxLifeTime > 0 <==> n.maxLifeTime == s.maxLifeTime)
      && (s.maxLifeTime <= 0 ==> n.maxLifeTime == 2 * Hour)
      && (s.forceCloseWait > 0 <==> n.forceCloseWait == s.forceCloseWait)
      && (s.forceCloseWait <= 0 ==> n.forceCloseWait == 20 * Second)
      && (s.keepAliveInterval > 0 <==> n.keepAliveInterval == s.keepAliveInterval)
      && (s.keepAliveInterval <= 0 ==> n.keepAliveInterval == 60 * Second)
      && (s.keepAliveTimeout > 0 <==> n.keepAliveTimeout == s.keepAliveTimeout)
      && (s.keepAliveTimeout <= 0 ==> n.keepAliveTimeout == 20 * Second)
      && n.logFlag == s.logFlag
  {
  }

  /** The defaults normalise, and normalising twice is normalising once. */
  lemma NormalizeIdempotent(s: ServerSettings)
    ensures Normalized(Normalize(s))
    ensures Normalize(Normalize(s)) == Normalize(s)
  {
  }

  /** The caller's `*ServerConfig`, updated in place and then shared with
      the server. */
  class ServerConfig {
    var network: string
    var addr: string
    var timeout: int
    var idleTimeout: int
    var maxLifeTime: int
    var forceCloseWait: int
    var keepAliveInterval: int
    var keepAliveTimeout: int
    var logFlag: int

    constructor (s: ServerSettings)
      ensures Settings() == s
    {
      network, addr, timeout, idleTimeout, maxLifeTime := s.network, s.addr, s.timeout, s.idleTimeout, s.maxLifeTime;
      forceCloseWait, keepAliveInterval, keepAliveTimeout, logFlag := s.forceCloseWait, s.keepAliveInterval, s.keepAliveTimeout, s.logFlag;
    }

    function Settings(): ServerSettings
      reads this
    {
      ServerSettings(network, addr, timeout, idleTimeout, maxLifeTime,
                     forceCloseWait, keepAliveInterval, keepAliveTimeout, logFlag)
    }
  }

  /** A `grpc.UnaryServerInterceptor`, known by name. */
  datatype Interceptor = Interceptor(name: string)

  /** `keepalive.ServerParameters` as `NewServer` fills them in. */
  datatype KeepaliveParams = KeepaliveParams(
    maxConnectionIdle: int, maxConnectionAge: int, maxConnectionAgeGrace: int, time: int, timeout: int)

  const ZeroKeepalive: KeepaliveParams := KeepaliveParams(0, 0, 0, 0, 0)

  class Server {
    var conf: ServerConfig?
    var interceptor: seq<Interceptor>
    var keepalive: KeepaliveParams

    /** `NewServer`: runs `configuration`, whose error is always nil, so
        the panic branch is never taken; the keepalive parameters handed to
        gRPC are all zero whatever the configuration says. */
    constructor (c: ServerConfig)
      modifies c
      ensures conf == c
      ensures c.Settings() == Normalize(old(c.Settings()))
      ensures interceptor == []
      ensures keepalive == ZeroKeepalive
    {
      conf := null;
      interceptor := [];
      keepalive := ZeroKeepalive;
      new;
      var err := Configuration(c);
      if err.Some? {
        assert false;
      }
    }

    /** `configuration`: writes the defaults into `*c`, stores `c` as the
        server's configuration and returns nil. */
    method Configuration(c: ServerConfig) returns (err: Option<Error>)
      modifies this`conf, c
      ensures err == None
      ensures conf == c
      ensures c.Settings() == Normalize(old(c.Settings()))
    {
      // One guarded assignment per field.
      c.addr := OrIfEmpty(c.addr, "0.0.0.0:9000");
      c.network := OrIfEmpty(c.network, "tcp");
      c.timeout := OrIfNotPositive(c.timeout, Second);
      c.idleTimeout := OrIfNotPositive(c.idleTimeout, 60 * Second);
      c.maxLifeTime := OrIfNotPositive(c.maxLifeTime, 2 * Hour);
      c.forceCloseWait := OrIfNotPositive(c.forceCloseWait, 20 * Second);
      c.keepAliveInterval := OrIfNotPositive(c.keepAliveInterval, 60 * Second);
      c.keepAliveTimeout := OrIfNotPositive(c.keepAliveTimeout, 20 * Second);
      conf := c;
      err := None;
    }

    /** `Use`: appends the interceptors in order after the existing ones
        and returns the same server. */
    method Use(interceptors: seq<Interceptor>) returns (s: Server)
      modifies this`interceptor
      ensures s == this
      ensures interceptor == old(interceptor) + interceptors
    {
      interceptor := interceptor + interceptors;
      s := this;
    }
  }
}
