/**
 * The client object (ProtobufRpcClient) and its builder: the logging-name check, one reference to
 * the client's shared event-loop group for the plain bootstrap and one more for the SSL bootstrap,
 * connection set-up and pool creation, and `close`, which hands back a single reference.
 *
 * Connecting is I/O: its outcome is a parameter of `GetClientChannel` (the connected channel, or
 * the cause that `syncUninterruptibly` rethrows when the connect fails).
 */
module Client {
  import opened Basics
  import opened Wire
  import opened Collector
  import opened Transport
  import opened EventLoop
  import opened ClientChannel
  import opened ChannelPool

  /** The builder's settings; all unset or off by default. */
  datatype ClientConfig = ClientConfig(
    maxReceivePacketLength: Option<int>,
    defaultReceiveTimeoutMillis: Option<int>,
    enableTrafficLogging: bool,
    loggingName: Option<string>,
    hasSslContext: bool)

  function DefaultClientConfig(): (cfg: ClientConfig)
    ensures cfg.maxReceivePacketLength.None? && cfg.defaultReceiveTimeoutMillis.None?
    ensures !cfg.enableTrafficLogging && cfg.loggingName.None? && !cfg.hasSslContext
  {
    ClientConfig(None, None, false, None, false)
  }

  /** The check of `build`: traffic logging needs a logging name. */
  function ClientBuildError(cfg: ClientConfig): (r: Option<Throwable>)
    ensures r.None? <==> (cfg.enableTrafficLogging ==> cfg.loggingName.Some?)
    ensures r.Some? ==> r == Some(IllegalArgumentException("Logging name must be provided if logging is enabled."))
  {
    if cfg.enableTrafficLogging && cfg.loggingName.None? then
      Some(IllegalArgumentException("Logging name must be provided if logging is enabled."))
    else
      None
  }

  /** How many group references `build` takes: one per bootstrap. */
  function ClientBootstrapCount(cfg: ClientConfig): (n: nat)
    ensures n == 1 || n == 2
    ensures n == 2 <==> cfg.hasSslContext
  {
    if cfg.hasSslContext then 2 else 1
  }

  /**
   * Build then close, when the client is the group's only user: without SSL the group is created
   * and shut down; with SSL one reference is never handed back, so the group stays up.
   */
  lemma {:induction false} BuildThenCloseBalance(g: GroupState, cfg: ClientConfig)
    requires GroupInv(g) && g.refCount == 0
    ensures GroupInv(AcquireN(g, ClientBootstrapCount(cfg)))
    ensures var r := Release(AcquireN(g, ClientBootstrapCount(cfg)));
      && r.refCount == ClientBootstrapCount(cfg) - 1
      && (r.group.None? <==> !cfg.hasSslContext)
      && (!cfg.hasSslContext ==> r.shutDown == g.shutDown + [g.created])
      && (cfg.hasSslContext ==> r.shutDown == g.shutDown && r.group == Some(g.created))
  {
    var n := ClientBootstrapCount(cfg);
    BalancedUseShutsDownOnce(g, n);
    AcquireNFromActive(Acquire(g), n - 1);
    assert AcquireN(g, n) == AcquireN(Acquire(g), n - 1);
    assert ReleaseN(AcquireN(g, n), 1) == Release(AcquireN(g, n));
  }

  /** A client: its registry, its protobuf functions, its settings, and the shared group holder. */
  class ProtobufRpcClient {
    const collector: RpcServiceCollector
    const proto: Protobuf
    const clientLoops: EventLoopGroupHolder
    const defaultReceiveTimeoutMillis: Option<int>
    const hasSslBootstrap: bool

    constructor (collector: RpcServiceCollector, proto: Protobuf, clientLoops: EventLoopGroupHolder,
                 defaultReceiveTimeoutMillis: Option<int>, hasSslBootstrap: bool)
      ensures this.collector == collector && this.proto == proto && this.clientLoops == clientLoops
      ensures this.defaultReceiveTimeoutMillis == defaultReceiveTimeoutMillis && this.hasSslBootstrap == hasSslBootstrap
    {
      this.collector := collector;
      this.proto := proto;
      this.clientLoops := clientLoops;
      this.defaultReceiveTimeoutMillis := defaultReceiveTimeoutMillis;
      this.hasSslBootstrap := hasSslBootstrap;
    }

    /**
     * `getClientChannel`: asking for SSL from a client built without an SSL context dereferences
     * the missing SSL bootstrap before any connect; otherwise a failed connect rethrows its cause
     * out of `syncUninterruptibly`, and a successful one gives a new RPC channel over the
     * connection. The null of the `isSuccess()` else-branch is never returned.
     */
    method GetClientChannel(ssl: bool, connected: Result<Channel, Throwable>) returns (r: Result<RpcClientChannelImpl, Throwable>)
      ensures ssl && !hasSslBootstrap ==> r == Failure(NullPointerException)
      ensures !(ssl && !hasSslBootstrap) ==> (r.Success? <==> connected.Success?)
      ensures !(ssl && !hasSslBootstrap) && connected.Failure? ==> r == Failure(connected.error)
      ensures r.Success? ==>
        var ch := r.value;
        && fresh(ch) && ch.Valid()
        && ch.channel == connected.value && ch.collector == collector && ch.proto == proto
        && ch.defaultReceiveTimeoutMillis == defaultReceiveTimeoutMillis.GetOr(DEFAULT_READ_TIMEOUT)
        && ch.messageIdentifierGenerator == 0 && ch.waitingRequests == {} && ch.requestResponseMap == map[]
    {
      if ssl && !hasSslBootstrap {
        return Failure(NullPointerException);
      }
      if connected.Failure? {
        return Failure(connected.error);
      }
      var ch := new RpcClientChannelImpl(connected.value, collector, proto, defaultReceiveTimeoutMillis);
      return Success(ch);
    }

    /**
     * `getClientChannelPool`: a pool whose borrows do what the script says (hand out the proxy over
     * a connection the pool's factory made through `getClientChannel`, or throw what it threw).
     */
    method GetClientChannelPool(supply: seq<Borrowed>, loggingEnabled: bool) returns (pool: ProtobufRpcClientChannelPool)
      ensures fresh(pool) && fresh(pool.pool)
      ensures pool.pool.Available() == supply && pool.pool.invalidated == [] && pool.pool.returned == []
      ensures pool.loggingEnabled == loggingEnabled && pool.borrowedObjectCount == 0
    {
      pool := new ProtobufRpcClientChannelPool(supply, loggingEnabled);
    }

    /** `close`: hands back one reference to the group, whatever `build` took. */
    method Close()
      requires clientLoops.Valid()
      modifies clientLoops
      ensures clientLoops.Valid() && clientLoops.View() == Release(old(clientLoops.View()))
    {
      clientLoops.ReturnGroup();
    }
  }

  /** `ProtobufRpcClient.Builder`: the settings and the client's shared group holder. */
  class Builder {
    var config: ClientConfig
    const clientLoops: EventLoopGroupHolder

    constructor (clientLoops: EventLoopGroupHolder)
      ensures config == DefaultClientConfig() && this.clientLoops == clientLoops
    {
      config := DefaultClientConfig();
      this.clientLoops := clientLoops;
    }

    method SetMaxReceivePacketLength(maxReceivePacketLength: int32)
      modifies this
      ensures config == old(config).(maxReceivePacketLength := Some(maxReceivePacketLength))
    {
      config := config.(maxReceivePacketLength := Some(maxReceivePacketLength));
    }

    method SetDefaultReceiveTimeoutMillis(defaultReceiveTimeoutMillis: int)
      modifies this
      ensures config == old(config).(defaultReceiveTimeoutMillis := Some(defaultReceiveTimeoutMillis))
    {
      config := config.(defaultReceiveTimeoutMillis := Some(defaultReceiveTimeoutMillis));
    }

    method SetEnableTrafficLogging(enable: bool)
      modifies this
      ensures config == old(config).(enableTrafficLogging := enable)
    {
      config := config.(enableTrafficLogging := enable);
    }

    method SetLoggingName(loggingName: Option<string>)
      modifies this
      ensures config == old(config).(loggingName := loggingName)
    {
      config := config.(loggingName := loggingName);
    }

    /** `setSslContext`: only whether a context is set is modelled. */
    method SetSslContext(present: bool)
      modifies this
      ensures config == old(config).(hasSslContext := present)
    {
      config := config.(hasSslContext := present);
    }

    /**
     * `build`: the logging check, then a client with a fresh registry holding one group reference
     * for its plain bootstrap and one more for an SSL bootstrap when an SSL context is set. A
     * holder whose count went negative hands out no group, and `group(null)` then throws with that
     * acquisition already counted.
     */
    method Build(proto: Protobuf) returns (r: Result<ProtobufRpcClient, Throwable>)
      requires clientLoops.Valid()
      modifies clientLoops
      ensures clientLoops.Valid()
      ensures var acquired := AcquireAll(old(clientLoops.View()), ClientBootstrapCount(config));
        && (r.Failure? <==> ClientBuildError(config).Some? || !acquired.1)
        && (ClientBuildError(config).Some? ==> r == Failure(ClientBuildError(config).value) && unchanged(clientLoops))
        && (ClientBuildError(config).None? ==> clientLoops.View() == acquired.0)
        && (ClientBuildError(config).None? && !acquired.1 ==> r == Failure(NullPointerException))
      ensures r.Success? ==>
        var client := r.value;
        && fresh(client) && fresh(client.collector) && client.collector.Valid() && client.collector.serviceInfoMap == map[]
        && client.proto == proto && client.clientLoops == clientLoops
        && client.defaultReceiveTimeoutMillis == config.defaultReceiveTimeoutMillis
        && client.hasSslBootstrap == config.hasSslContext
        && clientLoops.View() == AcquireN(old(clientLoops.View()), ClientBootstrapCount(config))
    {
      var check := ClientBuildError(config);
      if check.Some? {
        return Failure(check.value);
      }
      var collector := new RpcServiceCollector();
      var client := new ProtobufRpcClient(collector, proto, clientLoops, config.defaultReceiveTimeoutMillis, config.hasSslContext);
      AcquireAllOutcome(clientLoops.View(), ClientBootstrapCount(config));
      var group := clientLoops.AcquireGroup();
      if group.None? {
        return Failure(NullPointerException);
      }
      if config.hasSslContext {
        var sslGroup := clientLoops.AcquireGroup();
        if sslGroup.None? {
          return Failure(NullPointerException);
        }
      }
      return Success(client);
    }
  }
}
