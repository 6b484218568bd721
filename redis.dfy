/** cache/redis/redis_storage.go: `CreateRedisStorage` picks a cluster or a
    single-node go-redis client from the configuration, and every command
    is dispatched on `config.Cluster`. The clients themselves, the dialer
    and the commands' effects are go-redis's and are not modelled; `Ping`
    is an oracle passed in. */
module Redis {
  import opened Common

  /** The error for an empty address list. */
  const ErrNoAddrs: Error := Error("addrs cannot be empty")

  /** `*Config` (durations in nanoseconds). */
  datatype Config = Config(
    name: string, addrs: seq<string>, password: string, poolSize: int, db: int,
    minIdleConns: int, dial: int, keepAlive: int, cluster: bool)

  /** `PoolSize` as the options carry it: the configured size when
      positive, otherwise 0, which go-redis reads as its own default. */
  function PoolSize(c: Config): (p: int)
    ensures c.poolSize > 0 ==> p == c.poolSize
    ensures c.poolSize <= 0 ==> p == 0
  {
    if c.poolSize > 0 then c.poolSize else 0
  }

  /** `xredis.ClusterOptions` as built here. */
  datatype ClusterOptions = ClusterOptions(
    addrs: seq<string>, readOnly: bool, minIdleConns: int, poolSize: int, dialTimeout: int, dialKeepAlive: int)

  /** `xredis.Options` as built here. */
  datatype Options = Options(
    addr: string, password: string, db: int, minIdleConns: int, poolSize: int, dialTimeout: int, dialKeepAlive: int)

  /** A `*RedisStorage`: at most one client, by the options it was made
      with, and the configuration. */
  datatype Storage = Storage(client: Option<Options>, clusterClient: Option<ClusterOptions>, config: Config)

  /** Whether `CreateRedisStorage` takes the cluster path. */
  predicate ClusterMode(c: Config)
  {
    |c.addrs| > 1 || c.cluster
  }

  /** The storage built for a configuration with at least one address, when
      the single-node ping (if any) succeeds. */
  function Build(c: Config, ping: Option<Error>): (r: Result<Storage>)
    requires c.addrs != []
    ensures ClusterMode(c) ==> r == Ok(Storage(None,
      Some(ClusterOptions(c.addrs, true, c.minIdleConns, PoolSize(c), c.dial, c.keepAlive)), c))
    ensures !ClusterMode(c) && ping.Some? ==> r == Err(ping.value)
    ensures !ClusterMode(c) && ping.None? ==> r == Ok(Storage(
      Some(Options(c.addrs[0], c.password, c.db, c.minIdleConns, PoolSize(c), c.dial, c.keepAlive)), None, c))
    ensures r.Ok? ==> r.value.config == c && (r.value.client.Some? != r.value.clusterClient.Some?)
  {
    if ClusterMode(c) then
      Ok(Storage(None, Some(ClusterOptions(c.addrs, true, c.minIdleConns, PoolSize(c), c.dial, c.keepAlive)), c))
    else
      var o := Options(c.addrs[0], c.password, c.db, c.minIdleConns, PoolSize(c), c.dial, c.keepAlive);
      if ping.Some? then Err(ping.value) else Ok(Storage(Some(o), None, c))
  }

  /** `CreateRedisStorage` as written: the address list is read before the
      nil check, so a nil configuration panics; an empty list is refused. */
  function CreateRedisStorage(option: Option<Config>, ping: Option<Error>): (r: Outcome<Result<Storage>>)
    ensures option.None? ==> r == Panicked(NilDereference)
    ensures option.Some? && option.value.addrs == [] ==> r == Returned(Err(ErrNoAddrs))
    ensures option.Some? && option.value.addrs != [] ==> r == Returned(Build(option.value, ping))
  {
    match option
    case None => Panicked(NilDereference)
    case Some(c) => if c.addrs == [] then Returned(Err(ErrNoAddrs)) else Returned(Build(c, ping))
  }

  /** `CreateRedisStorage` with the nil check first: it never panics. */
  function CreateRedisStorageIntended(option: Option<Config>, ping: Option<Error>): (r: Result<Storage>)
    ensures option.None? || option.value.addrs == [] ==> r == Err(ErrNoAddrs)
    ensures option.Some? && option.value.addrs != [] ==> r == Build(option.value, ping)
  {
    if option.None? || option.value.addrs == [] then Err(ErrNoAddrs) else Build(option.value, ping)
  }

  /** The two agree on every non-nil configuration. */
  lemma CreateIntendedAgrees(c: Config, ping: Option<Error>)
    ensures CreateRedisStorage(Some(c), ping) == Returned(CreateRedisStorageIntended(Some(c), ping))
  {
  }

  /** The client a command reaches. */
  datatype Target = ClusterTarget(options: ClusterOptions) | SingleTarget(o: Options)

  /** The dispatch every command shares: the cluster client when
      `config.Cluster` is set, the single-node client otherwise; calling a
      command on the nil one panics. */
  function Dispatch(rs: Storage): (t: Outcome<Target>)
    ensures rs.config.cluster && rs.clusterClient.Some? ==> t == Returned(ClusterTarget(rs.clusterClient.value))
    ensures !rs.config.cluster && rs.client.Some? ==> t == Returned(SingleTarget(rs.client.value))
    ensures t.Panicked? <==> (if rs.config.cluster then rs.clusterClient.None? else rs.client.None?)
  {
    if rs.config.cluster then
      if rs.clusterClient.Some? then Returned(ClusterTarget(rs.clusterClient.value)) else Panicked(NilDereference)
    else
      if rs.client.Some? then Returned(SingleTarget(rs.client.value)) else Panicked(NilDereference)
  }

  /** A dispatch on the mode the storage was built in. */
  function DispatchIntended(rs: Storage): (t: Outcome<Target>)
    ensures rs.clusterClient.Some? ==> t == Returned(ClusterTarget(rs.clusterClient.value))
    ensures rs.clusterClient.None? && rs.client.Some? ==> t == Returned(SingleTarget(rs.client.value))
  {
    if rs.clusterClient.Some? then Returned(ClusterTarget(rs.clusterClient.value))
    else if rs.client.Some? then Returned(SingleTarget(rs.client.value))
    else Panicked(NilDereference)
  }

  /** Every storage `CreateRedisStorage` returns reaches the client it
      built through the intended dispatch, and through the written one
      exactly when the configuration's `Cluster` flag agrees with the mode. */
  lemma DispatchReachesBuiltClient(c: Config, ping: Option<Error>)
    requires c.addrs != [] && Build(c, ping).Ok?
    ensures DispatchIntended(Build(c, ping).value).Returned?
    ensures Dispatch(Build(c, ping).value).Returned? <==> c.cluster || |c.addrs| == 1
    ensures Dispatch(Build(c, ping).value).Returned? ==>
      Dispatch(Build(c, ping).value) == DispatchIntended(Build(c, ping).value)
  {
  }

  /** Two addresses without `Cluster`: the storage holds only a cluster
      client, yet every command goes to the nil single-node client. */
  lemma MultiAddressWithoutClusterFlag()
    ensures var c := Config("cache", ["10.0.0.1:6379", "10.0.0.2:6379"], "", 0, 0, 0, 0, 0, false);
      && CreateRedisStorage(Some(c), None).Returned?
      && CreateRedisStorage(Some(c), None).value.Ok?
      && CreateRedisStorage(Some(c), None).value.value.clusterClient.Some?
      && Dispatch(CreateRedisStorage(Some(c), None).value.value) == Panicked(NilDereference)
      && DispatchIntended(CreateRedisStorage(Some(c), None).value.value).Returned?
  {
  }

  /** `CreateRedisStorage(nil)` panics where the empty-address error was
      meant. */
  lemma NilConfigPanics(ping: Option<Error>)
    ensures CreateRedisStorage(None, ping) == Panicked(NilDereference)
    ensures CreateRedisStorageIntended(None, ping) == Err(ErrNoAddrs)
  {
  }
}
