/**
 * The server object (ProtobufRpcServer) and its builder: configuration checks at build time, the
 * registration of service implementations and OOB interfaces, the choice of an implementation
 * constructor, the start/stop life cycle of the plain and SSL listening channels, and the shared
 * boss and worker event-loop groups each listening channel holds a reference to.
 *
 * Binding a port is I/O: its outcome is a parameter of `StartServer` (Some(actual address) when
 * the bind succeeds, None when it fails).
 */
module Server {
  import opened Basics
  import opened Wire
  import opened Collector
  import opened EventLoop

  datatype InetSocketAddress = InetSocketAddress(host: string, port: int)

  /** The builder's settings, with the Java defaults as set by `DefaultServerConfig`. */
  datatype ServerConfig = ServerConfig(
    localAddress: Option<InetSocketAddress>,
    sslLocalAddress: Option<InetSocketAddress>,
    hasSslContext: bool,
    backlogCount: int,
    maxReceivePacketLength: Option<int>,
    enableRpcLogging: bool,
    enableTrafficLogging: bool,
    loggingName: Option<string>)

  const DEFAULT_BACKLOG_COUNT: int := 5

  function DefaultServerConfig(): (cfg: ServerConfig)
    ensures cfg.localAddress.None? && cfg.sslLocalAddress.None? && cfg.backlogCount == DEFAULT_BACKLOG_COUNT
    ensures !cfg.enableRpcLogging && !cfg.enableTrafficLogging && cfg.loggingName.None?
  {
    ServerConfig(None, None, false, DEFAULT_BACKLOG_COUNT, None, false, false, None)
  }

  /** Every enabled kind of logging has a name to log under. */
  predicate LoggingNamed(cfg: ServerConfig) {
    (cfg.enableRpcLogging || cfg.enableTrafficLogging) ==> cfg.loggingName.Some?
  }

  /**
   * The checks of `build`, in order: some address, a logging name for each enabled kind of
   * logging, then the comparison of the two addresses, which dereferences the plain address and so
   * throws a NullPointerException when only an SSL address is set.
   */
  function BuildError(cfg: ServerConfig): (r: Option<Throwable>)
    ensures r.None? <==> cfg.localAddress.Some? && LoggingNamed(cfg) && cfg.sslLocalAddress != cfg.localAddress
    ensures r == Some(NullPointerException) <==> cfg.localAddress.None? && cfg.sslLocalAddress.Some? && LoggingNamed(cfg)
    ensures r.Some? && r != Some(NullPointerException) ==> r.value.IllegalArgumentException?
  {
    if cfg.localAddress.None? && cfg.sslLocalAddress.None? then
      Some(IllegalArgumentException("LocalAddress must be provided."))
    else if cfg.enableRpcLogging && cfg.loggingName.None? then
      Some(IllegalArgumentException("Logging name must be provided if RPC logging is enabled."))
    else if cfg.enableTrafficLogging && cfg.loggingName.None? then
      Some(IllegalArgumentException("Logging name must be provided if traffic logging is enabled."))
    else if cfg.localAddress.None? then
      Some(NullPointerException)
    else if cfg.sslLocalAddress == cfg.localAddress then
      Some(IllegalArgumentException("SSL and non-SSL address cannot be same."))
    else
      None
  }

  /** One listening endpoint: the configured address and, while a channel is bound, its actual address. */
  datatype Endpoint = Endpoint(address: Option<InetSocketAddress>, bound: Option<InetSocketAddress>)

  /** The server's fields: the plain endpoint, the SSL endpoint and the started flag. */
  datatype ServerState = ServerState(local: Endpoint, ssl: Endpoint, started: bool)

  /**
   * A channel is bound only for a configured address, and a started server has a bound channel
   * for every configured address. A channel may stay bound while the server is not started: the
   * plain channel of a start whose SSL bind failed.
   */
  predicate ServerInv(s: ServerState) {
    && (s.local.bound.Some? ==> s.local.address.Some?)
    && (s.ssl.bound.Some? ==> s.ssl.address.Some?)
    && (s.started ==> (s.local.address.Some? ==> s.local.bound.Some?) && (s.ssl.address.Some? ==> s.ssl.bound.Some?))
  }

  /** The number of listening channels a configuration sets up, each holding one group reference. */
  function BootstrapCount(cfg: ServerConfig): (n: nat)
    ensures n <= 2
    ensures BuildError(cfg).None? ==> n >= 1
  {
    (if cfg.localAddress.Some? then 1 else 0) + (if cfg.sslLocalAddress.Some? then 1 else 0)
  }

  /** A freshly built server: both addresses recorded, nothing bound, not started. */
  function Built(cfg: ServerConfig): (s: ServerState)
    ensures ServerInv(s) && !s.started
    ensures s.local.address == cfg.localAddress && s.ssl.address == cfg.sslLocalAddress
  {
    ServerState(Endpoint(cfg.localAddress, None), Endpoint(cfg.sslLocalAddress, None), false)
  }

  /** The server's fields after `startServer`, and the exception it throws, if any. */
  datatype StartResult = StartResult(state: ServerState, thrown: Option<Throwable>)

  /**
   * Binding one endpoint: an unconfigured endpoint is left alone; a configured one gets the bound
   * channel's address, or the bind's failure is rethrown by `syncUninterruptibly`.
   */
  function BindEndpoint(e: Endpoint, bind: Result<InetSocketAddress, Throwable>): (r: Result<Endpoint, Throwable>)
    ensures e.address.None? ==> r == Success(e)
    ensures e.address.Some? ==> (r.Failure? <==> bind.Failure?)
    ensures e.address.Some? && bind.Failure? ==> r.error == bind.error
    ensures e.address.Some? && bind.Success? ==> r.value == e.(bound := Some(bind.value))
  {
    if e.address.None? then Success(e)
    else if bind.Failure? then Failure(bind.error)
    else Success(e.(bound := Some(bind.value)))
  }

  /**
   * `startServer`: nothing when already started; otherwise the plain endpoint is bound, then the
   * SSL endpoint, and the server is marked started. A failed bind throws out of the call: the
   * server stays not started, and a plain channel bound before a failed SSL bind stays bound.
   */
  function Start(s: ServerState, localBind: Result<InetSocketAddress, Throwable>, sslBind: Result<InetSocketAddress, Throwable>)
    : (r: StartResult)
    ensures r.state.local.address == s.local.address && r.state.ssl.address == s.ssl.address
    ensures r.state.started <==> s.started || r.thrown.None?
    ensures r.thrown.Some? ==> !s.started && (Failure(r.thrown.value) == localBind || Failure(r.thrown.value) == sslBind)
  {
    if s.started then StartResult(s, None)
    else
      match BindEndpoint(s.local, localBind)
      case Failure(e) => StartResult(s, Some(e))
      case Success(local) =>
        match BindEndpoint(s.ssl, sslBind)
        case Failure(e) => StartResult(s.(local := local), Some(e))
        case Success(ssl) => StartResult(ServerState(local, ssl, true), None)
  }

  /**
   * What one `startServer` call does: a started server is left alone; otherwise the call throws
   * exactly when a configured bind fails, the first failure in order being the one thrown, and
   * the server is started, with both configured endpoints bound, exactly when it does not throw.
   */
  lemma {:induction false} StartOutcome(s: ServerState, localBind: Result<InetSocketAddress, Throwable>,
                                        sslBind: Result<InetSocketAddress, Throwable>)
    requires ServerInv(s)
    ensures var r := Start(s, localBind, sslBind);
      && ServerInv(r.state)
      && r.state.local.address == s.local.address && r.state.ssl.address == s.ssl.address
      && (s.started ==> r == StartResult(s, None))
      && (!s.started ==>
            && (r.thrown.None? <==> (s.local.address.Some? ==> localBind.Success?) && (s.ssl.address.Some? ==> sslBind.Success?))
            && (r.state.started <==> r.thrown.None?)
            && (s.local.address.Some? && localBind.Failure? ==> r == StartResult(s, Some(localBind.error)))
            && (s.local.address.Some? && localBind.Success? ==> r.state.local.bound == Some(localBind.value))
            && (s.ssl.address.Some? && sslBind.Success? && r.thrown.None? ==> r.state.ssl.bound == Some(sslBind.value))
            && ((s.local.address.None? || localBind.Success?) && s.ssl.address.Some? && sslBind.Failure? ==>
                  r.thrown == Some(sslBind.error) && r.state.ssl == s.ssl))
  {
  }

  /** `stopServer`: nothing when not started; otherwise close every bound channel and mark the server stopped. */
  function Stop(s: ServerState): (r: ServerState)
    ensures ServerInv(s) ==> ServerInv(r)
    ensures !r.started
    ensures s.started ==> r.local.bound.None? && r.ssl.bound.None?
    ensures !s.started ==> r == s
    ensures r.local.address == s.local.address && r.ssl.address == s.ssl.address
  {
    if !s.started then s
    else ServerState(s.local.(bound := None), s.ssl.(bound := None), false)
  }

  /** How many references to each group `stopServer` hands back: one per channel it closes. */
  function StopReleases(s: ServerState): (n: nat)
    ensures n <= 2
    ensures !s.started ==> n == 0
  {
    if !s.started then 0
    else (if s.local.bound.Some? then 1 else 0) + (if s.ssl.bound.Some? then 1 else 0)
  }

  /** `getActualLocalAddress` / `getActualSslLocalAddress`: the bound address, or an error before the server is started. */
  function ActualAddress(s: ServerState, e: Endpoint): (r: Result<Option<InetSocketAddress>, Throwable>)
    ensures r.Failure? <==> !s.started
    ensures r.Failure? ==> r.error == IllegalArgumentException("Server not started.")
    ensures r.Success? ==> r.value == e.bound
  {
    if !s.started then Failure(IllegalArgumentException("Server not started.")) else Success(e.bound)
  }

  /** Starting a started server changes nothing: a call after one that did not throw is a no-op. */
  lemma StartIdempotent(s: ServerState, a: Result<InetSocketAddress, Throwable>, b: Result<InetSocketAddress, Throwable>,
                        c: Result<InetSocketAddress, Throwable>, d: Result<InetSocketAddress, Throwable>)
    requires ServerInv(s) && Start(s, a, b).thrown.None?
    ensures Start(Start(s, a, b).state, c, d) == StartResult(Start(s, a, b).state, None)
  {
  }

  /** Stopping twice is stopping once, and the second call hands back no reference. */
  lemma StopIdempotent(s: ServerState)
    requires ServerInv(s)
    ensures Stop(Stop(s)) == Stop(s) && StopReleases(Stop(s)) == 0
  {
  }

  /**
   * One start/stop run of a freshly built server: the start throws unless every configured bind
   * succeeds, and the stop returns the references `build` took exactly when the start did not
   * throw; after a throw it returns none, as the server was never marked started.
   */
  lemma {:induction false} SingleRunReturnsIffBound(cfg: ServerConfig, localBind: Result<InetSocketAddress, Throwable>,
                                                    sslBind: Result<InetSocketAddress, Throwable>)
    requires BuildError(cfg).None?
    ensures var r := Start(Built(cfg), localBind, sslBind);
      && (r.thrown.None? <==> (cfg.localAddress.Some? ==> localBind.Success?) && (cfg.sslLocalAddress.Some? ==> sslBind.Success?))
      && StopReleases(r.state) == if r.thrown.None? then BootstrapCount(cfg) else 0
  {
    StartOutcome(Built(cfg), localBind, sslBind);
  }

  /**
   * A failed SSL bind strands the plain channel: the start throws the bind's failure with the
   * plain channel bound and the server not started, so `stopServer` does nothing and returns no
   * reference; a later successful start binds a new plain channel over it.
   */
  lemma {:induction false} SslBindFailureStrandsPlainChannel(cfg: ServerConfig, a: InetSocketAddress, cause: Throwable,
                                                             a2: InetSocketAddress, b2: InetSocketAddress)
    requires BuildError(cfg).None? && cfg.sslLocalAddress.Some?
    ensures var r := Start(Built(cfg), Success(a), Failure(cause));
      && r.thrown == Some(cause) && !r.state.started && r.state.local.bound == Some(a)
      && Stop(r.state) == r.state && StopReleases(r.state) == 0
      && Start(r.state, Success(a2), Success(b2)) == StartResult(ServerState(Endpoint(cfg.localAddress, Some(a2)),
                                                                             Endpoint(cfg.sslLocalAddress, Some(b2)), true), None)
  {
    StartOutcome(Built(cfg), Success(a), Failure(cause));
  }

  /**
   * A restart hands the references back twice: `build` takes one per endpoint, but each
   * start/stop cycle whose binds succeed returns one per endpoint again.
   */
  lemma {:induction false} RestartReturnsTwice(cfg: ServerConfig, localBind: InetSocketAddress, sslBind: InetSocketAddress)
    requires BuildError(cfg).None?
    ensures var s1 := Stop(Start(Built(cfg), Success(localBind), Success(sslBind)).state);
      && StopReleases(Start(Built(cfg), Success(localBind), Success(sslBind)).state) == BootstrapCount(cfg)
      && StopReleases(Start(s1, Success(localBind), Success(sslBind)).state) == BootstrapCount(cfg)
  {
    SingleRunReturnsIffBound(cfg, Success(localBind), Success(sslBind));
    var s1 := Stop(Start(Built(cfg), Success(localBind), Success(sslBind)).state);
    assert s1 == Built(cfg);
  }

  /**
   * The acquisitions of `build`: for each endpoint the server group and then the client group,
   * both handed to `group(...)`, which throws when either is null; the flag says whether every
   * endpoint got both groups.
   */
  function AcquirePairs(s: GroupState, c: GroupState, n: nat): (r: (GroupState, GroupState, bool))
    ensures r.2 ==> r.0.refCount == s.refCount + n && r.1.refCount == c.refCount + n
    ensures !r.2 ==> n >= 1 && (r.0.group.None? || r.1.group.None?)
    ensures r.0.shutDown == s.shutDown && r.1.shutDown == c.shutDown
    decreases n
  {
    if n == 0 then (s, c, true)
    else
      var s1, c1 := Acquire(s), Acquire(c);
      if s1.group.None? || c1.group.None? then (s1, c1, false) else AcquirePairs(s1, c1, n - 1)
  }

  /**
   * When neither count is negative every endpoint gets both groups, and each holder is left as
   * after n plain acquisitions; when either is negative the first endpoint already fails.
   */
  lemma {:induction false} AcquirePairsOutcome(s: GroupState, c: GroupState, n: nat)
    requires GroupInv(s) && GroupInv(c)
    ensures s.refCount >= 0 && c.refCount >= 0 ==> AcquirePairs(s, c, n) == (AcquireN(s, n), AcquireN(c, n), true)
    ensures (s.refCount < 0 || c.refCount < 0) && n >= 1 ==> AcquirePairs(s, c, n) == (Acquire(s), Acquire(c), false)
    decreases n
  {
    if n > 0 && s.refCount >= 0 && c.refCount >= 0 {
      AcquirePairsOutcome(Acquire(s), Acquire(c), n - 1);
    }
  }

  /** The releases of `stopServer`, one for the plain channel and then one for the SSL channel. */
  lemma ReleaseInStopOrder(g: GroupState, s: ServerState)
    requires GroupInv(g) && s.started
    ensures var g1 := if s.local.bound.Some? then Release(g) else g;
      ReleaseN(g, StopReleases(s)) == if s.ssl.bound.Some? then Release(g1) else g1
  {
    if s.local.bound.Some? && s.ssl.bound.Some? {
      assert ReleaseN(g, 2) == Release(Release(g));
    }
  }

  /** Releases from a count that is already 0 or below only drive the count down; no group appears. */
  lemma {:induction false} ReleaseNFromIdle(g: GroupState, n: nat)
    requires GroupInv(g) && g.refCount <= 0
    ensures GroupInv(ReleaseN(g, n))
    ensures ReleaseN(g, n) == g.(refCount := g.refCount - n)
    decreases n
  {
    if n > 0 {
      ReleaseNFromIdle(Release(g), n - 1);
    }
  }

  /**
   * The restart leak in terms of the shared group: when one server is the only user of a group,
   * build / start / stop / start / stop leaves the count at minus the number of endpoints, and the
   * next server built acquires no group at all (a null group) instead of creating one.
   */
  lemma {:induction false} RestartLeavesNoGroup(g: GroupState, n: nat)
    requires GroupInv(g) && g.refCount == 0 && 1 <= n
    ensures GroupInv(AcquireN(g, n)) && GroupInv(ReleaseN(AcquireN(g, n), n))
    ensures var after := ReleaseN(ReleaseN(AcquireN(g, n), n), n);
      && after.refCount + n == 0
      && Acquire(after).group.None?
  {
    BalancedUseShutsDownOnce(g, n);
    var once := ReleaseN(AcquireN(g, n), n);
    ReleaseNFromIdle(once, n);
  }

  /** The first declared constructor of the given kind, if any (`getDeclaredConstructor`). */
  function FindConstructor(cs: seq<ConstructorDecl>, kind: ConstructorKind): (r: Option<ConstructorDecl>)
    ensures r.Some? <==> exists i | 0 <= i < |cs| :: cs[i].kind == kind
    ensures r.Some? ==> r.value.kind == kind && r.value in cs
    decreases |cs|
  {
    if |cs| == 0 then None
    else if cs[0].kind == kind then Some(cs[0])
    else
      var r := FindConstructor(cs[1..], kind);
      assert r.Some? ==> cs[1..][0] in cs;
      assert forall i | 1 <= i < |cs| :: cs[i] == cs[1..][i - 1];
      r
  }

  /** The implementation class declares a public constructor of the given kind (as the first of that kind). */
  predicate HasPublic(impl: ImplClassDecl, kind: ConstructorKind) {
    var c := FindConstructor(impl.constructors, kind);
    c.Some? && c.value.isPublic
  }

  /**
   * `getServiceImplementationConstructor`: the constructor taking a server channel when declared,
   * otherwise the no-argument one; it must exist and be public. A declared but non-public
   * parameterized constructor is rejected even when a public default one exists.
   */
  function GetServiceImplementationConstructor(impl: ImplClassDecl): (r: Result<ConstructorKind, RegistrationError>)
    ensures r == Success(Parameterized) <==> HasPublic(impl, Parameterized)
    ensures r == Success(Default) <==>
      (forall i | 0 <= i < |impl.constructors| :: impl.constructors[i].kind != Parameterized) && HasPublic(impl, Default)
    ensures r.Failure? ==> r.error == ServiceConstructorNotFound("Class<" + impl.name + "> does not have a valid constructor.")
  {
    var chosen :=
      match FindConstructor(impl.constructors, Parameterized)
      case Some(c) => Some(c)
      case None => FindConstructor(impl.constructors, Default);
    if chosen.None? || !chosen.value.isPublic then
      Failure(ServiceConstructorNotFound("Class<" + impl.name + "> does not have a valid constructor."))
    else
      Success(chosen.value.kind)
  }

  /** The quirk above, stated on its own: a hidden parameterized constructor shadows a public default one. */
  lemma HiddenParameterizedShadowsDefault(impl: ImplClassDecl, i: nat, j: nat)
    requires i < j < |impl.constructors|
    requires impl.constructors[i] == ConstructorDecl(Parameterized, false)
    requires impl.constructors[j] == ConstructorDecl(Default, true)
    requires forall k | 0 <= k < i :: impl.constructors[k].kind != Parameterized
    ensures GetServiceImplementationConstructor(impl).Failure?
  {
    FirstOfKind(impl.constructors, Parameterized, i);
  }

  /** FindConstructor returns the element at the first index of that kind. */
  lemma {:induction false} FirstOfKind(cs: seq<ConstructorDecl>, kind: ConstructorKind, i: nat)
    requires i < |cs| && cs[i].kind == kind
    requires forall k | 0 <= k < i :: cs[k].kind != kind
    ensures FindConstructor(cs, kind) == Some(cs[i])
    decreases i
  {
    if i > 0 {
      FirstOfKind(cs[1..], kind, i - 1);
    }
  }

  /** The entry a class has once `parseServiceInterface` is done with it, or the reason it was refused. */
  function EntryAfterRegistration(infoMap: map<ClassDecl, RpcServiceInfo>, classMap: map<int32, ClassDecl>, cls: ClassDecl)
    : (r: Result<RpcServiceInfo, RegistrationError>)
    ensures cls in infoMap ==> r == Success(infoMap[cls])
    ensures cls !in infoMap ==> r == ParseServiceClassSpec(cls, classMap)
  {
    if cls in infoMap then Success(infoMap[cls]) else ParseServiceClassSpec(cls, classMap)
  }

  /**
   * `registerOob` on values: the interfaces registered in turn, stopping at the first refusal,
   * whose error is the result.
   */
  function RegisterEach(reg: Registry, classes: seq<ClassDecl>): (r: (Registry, Option<RegistrationError>))
    ensures r.1.None? ==> reg.infoMap.Keys <= r.0.infoMap.Keys
    ensures r.1.Some? ==> |classes| > 0 && r.0.infoMap.Keys >= reg.infoMap.Keys
    decreases |classes|
  {
    if |classes| == 0 then (reg, None)
    else
      var before := RegisterEach(reg, classes[..|classes| - 1]);
      if before.1.Some? then before else RegisterStep(before.0, classes[|classes| - 1])
  }

  /** A refusal among the first i interfaces is the result for the whole list: later ones are not looked at. */
  lemma {:induction false} RegisterEachKeepsRefusal(reg: Registry, classes: seq<ClassDecl>, i: nat)
    requires i <= |classes| && RegisterEach(reg, classes[..i]).1.Some?
    ensures RegisterEach(reg, classes) == RegisterEach(reg, classes[..i])
    decreases |classes|
  {
    if i < |classes| {
      var init := classes[..|classes| - 1];
      assert init[..i] == classes[..i];
      RegisterEachKeepsRefusal(reg, init, i);
    } else {
      assert classes[..i] == classes;
    }
  }

  /** Without a refusal every interface is registered, and nothing registered before is lost. */
  lemma {:induction false} RegisterEachRegistersAll(reg: Registry, classes: seq<ClassDecl>)
    ensures var r := RegisterEach(reg, classes);
      r.1.None? ==> reg.infoMap.Keys <= r.0.infoMap.Keys && forall i | 0 <= i < |classes| :: classes[i] in r.0.infoMap
    decreases |classes|
  {
    var r := RegisterEach(reg, classes);
    if |classes| > 0 && r.1.None? {
      var init := classes[..|classes| - 1];
      RegisterEachRegistersAll(reg, init);
      var before := RegisterEach(reg, init);
      assert forall i | 0 <= i < |classes| - 1 :: classes[i] == init[i];
      assert before.0.infoMap.Keys <= r.0.infoMap.Keys;
    }
  }

  /**
   * A refusal comes from the first interface that does not validate: every interface before it
   * was registered without a refusal, and the result is exactly that interface's refusal, with
   * the registry as those before it left it.
   */
  lemma {:induction false} RegisterEachStopsAtFirstRefusal(reg: Registry, classes: seq<ClassDecl>)
    ensures var r := RegisterEach(reg, classes);
      r.1.Some? ==> exists i | 0 <= i < |classes| ::
        && RegisterEach(reg, classes[..i]).1.None?
        && RegisterStep(RegisterEach(reg, classes[..i]).0, classes[i]) == r
    decreases |classes|
  {
    var r := RegisterEach(reg, classes);
    if |classes| > 0 && r.1.Some? {
      var n := |classes|;
      var init := classes[..n - 1];
      if RegisterEach(reg, init).1.Some? {
        RegisterEachStopsAtFirstRefusal(reg, init);
        var i :| 0 <= i < |init| && RegisterEach(reg, init[..i]).1.None?
                 && RegisterStep(RegisterEach(reg, init[..i]).0, init[i]) == RegisterEach(reg, init);
        assert init[..i] == classes[..i] && init[i] == classes[i];
      } else {
        assert RegisterStep(RegisterEach(reg, classes[..n - 1]).0, classes[n - 1]) == r;
      }
    }
  }

  /** A started or stopped server, sharing the group holders with every other server of the process. */
  class ProtobufRpcServer {
    const collector: RpcServiceCollector
    const serverLoops: EventLoopGroupHolder
    const clientLoops: EventLoopGroupHolder

    var localAddress: Option<InetSocketAddress>
    var actualLocalAddress: Option<InetSocketAddress>
    var sslLocalAddress: Option<InetSocketAddress>
    var actualSslLocalAddress: Option<InetSocketAddress>
    var serverStarted: bool
    var hasDisconnectListener: bool

    function View(): ServerState
      reads this
    {
      ServerState(Endpoint(localAddress, actualLocalAddress), Endpoint(sslLocalAddress, actualSslLocalAddress), serverStarted)
    }

    ghost predicate Valid()
      reads this
    {
      ServerInv(View()) && serverLoops != clientLoops
    }

    constructor (collector: RpcServiceCollector, serverLoops: EventLoopGroupHolder, clientLoops: EventLoopGroupHolder,
                 cfg: ServerConfig)
      requires serverLoops != clientLoops
      ensures Valid() && View() == Built(cfg) && !hasDisconnectListener
      ensures this.collector == collector && this.serverLoops == serverLoops && this.clientLoops == clientLoops
    {
      this.collector := collector;
      this.serverLoops := serverLoops;
      this.clientLoops := clientLoops;
      localAddress := cfg.localAddress;
      actualLocalAddress := None;
      sslLocalAddress := cfg.sslLocalAddress;
      actualSslLocalAddress := None;
      serverStarted := false;
      hasDisconnectListener := false;
    }

    /** `startServer`, with the outcome of each bind supplied; a failed bind is thrown. */
    method StartServer(localBind: Result<InetSocketAddress, Throwable>, sslBind: Result<InetSocketAddress, Throwable>)
      returns (thrown: Option<Throwable>)
      modifies this
      ensures StartResult(View(), thrown) == Start(old(View()), localBind, sslBind)
      ensures old(Valid()) ==> Valid()
      ensures hasDisconnectListener == old(hasDisconnectListener)
    {
      if serverStarted {
        return None;
      }
      if localAddress.Some? {
        if localBind.Failure? {
          return Some(localBind.error);
        }
        actualLocalAddress := Some(localBind.value);
      }
      if sslLocalAddress.Some? {
        if sslBind.Failure? {
          return Some(sslBind.error);
        }
        actualSslLocalAddress := Some(sslBind.value);
      }
      serverStarted := true;
      return None;
    }

    /** `stopServer`: closes the bound channels, each handing back one reference to both groups. */
    method StopServer()
      requires Valid() && serverLoops.Valid() && clientLoops.Valid()
      modifies this, serverLoops, clientLoops
      ensures Valid() && serverLoops.Valid() && clientLoops.Valid()
      ensures View() == Stop(old(View())) && hasDisconnectListener == old(hasDisconnectListener)
      ensures serverLoops.View() == ReleaseN(old(serverLoops.View()), StopReleases(old(View())))
      ensures clientLoops.View() == ReleaseN(old(clientLoops.View()), StopReleases(old(View())))
    {
      if !serverStarted {
        return;
      }
      ReleaseInStopOrder(serverLoops.View(), View());
      ReleaseInStopOrder(clientLoops.View(), View());
      CloseLocalChannel();
      if actualSslLocalAddress.Some? {
        actualSslLocalAddress := None;
        ReturnBothGroups();
      }
      serverStarted := false;
    }

    /** The plain-channel block of `stopServer`: unbind it and hand back its references. */
    method CloseLocalChannel()
      requires serverLoops.Valid() && clientLoops.Valid() && serverLoops != clientLoops
      modifies this`actualLocalAddress, serverLoops, clientLoops
      ensures serverLoops.Valid() && clientLoops.Valid() && actualLocalAddress.None?
      ensures old(actualLocalAddress).Some? ==>
        serverLoops.View() == Release(old(serverLoops.View())) && clientLoops.View() == Release(old(clientLoops.View()))
      ensures old(actualLocalAddress).None? ==> unchanged(serverLoops, clientLoops)
    {
      if actualLocalAddress.Some? {
        actualLocalAddress := None;
        ReturnBothGroups();
      }
    }

    /** `returnServerEventLoopGroup` followed by `returnClientEventLoopGroup`. */
    method ReturnBothGroups()
      requires serverLoops.Valid() && clientLoops.Valid() && serverLoops != clientLoops
      modifies serverLoops, clientLoops
      ensures serverLoops.Valid() && clientLoops.Valid()
      ensures serverLoops.View() == Release(old(serverLoops.View())) && clientLoops.View() == Release(old(clientLoops.View()))
    {
      serverLoops.ReturnGroup();
      clientLoops.ReturnGroup();
    }

    /** `setChannelDisconnectListener`: only whether a listener is set is modelled. */
    method SetChannelDisconnectListener(present: bool)
      modifies this
      ensures hasDisconnectListener == present && View() == old(View())
    {
      hasDisconnectListener := present;
    }

    /** `getActualLocalAddress`. */
    function GetActualLocalAddress(): (r: Result<Option<InetSocketAddress>, Throwable>)
      reads this
      ensures r == ActualAddress(View(), View().local)
      ensures r.Success? && Valid() ==> (r.value.Some? ==> localAddress.Some?)
    {
      if !serverStarted then Failure(IllegalArgumentException("Server not started.")) else Success(actualLocalAddress)
    }

    /** `getActualSslLocalAddress`. */
    function GetActualSslLocalAddress(): (r: Result<Option<InetSocketAddress>, Throwable>)
      reads this
      ensures r == ActualAddress(View(), View().ssl)
      ensures r.Success? && Valid() ==> (r.value.Some? ==> sslLocalAddress.Some?)
    {
      if !serverStarted then Failure(IllegalArgumentException("Server not started.")) else Success(actualSslLocalAddress)
    }
  }

  /** `ProtobufRpcServer.Builder`: the settings, the registry it fills, and the shared group holders. */
  class Builder {
    var config: ServerConfig
    const collector: RpcServiceCollector
    const serverLoops: EventLoopGroupHolder
    const clientLoops: EventLoopGroupHolder

    constructor (serverLoops: EventLoopGroupHolder, clientLoops: EventLoopGroupHolder)
      ensures config == DefaultServerConfig() && fresh(collector) && collector.Valid()
      ensures collector.serviceInfoMap == map[]
      ensures this.serverLoops == serverLoops && this.clientLoops == clientLoops
    {
      config := DefaultServerConfig();
      collector := new RpcServiceCollector();
      this.serverLoops := serverLoops;
      this.clientLoops := clientLoops;
    }

    method SetLocalAddress(localAddress: InetSocketAddress)
      modifies this
      ensures config == old(config).(localAddress := Some(localAddress))
    {
      config := config.(localAddress := Some(localAddress));
    }

    /** `setSslLocalAddress`: the address and whether an SSL context came with it. */
    method SetSslLocalAddress(localAddress: InetSocketAddress, hasSslContext: bool)
      modifies this
      ensures config == old(config).(sslLocalAddress := Some(localAddress), hasSslContext := hasSslContext)
    {
      config := config.(sslLocalAddress := Some(localAddress), hasSslContext := hasSslContext);
    }

    method SetBacklogCount(backlogCount: int32)
      modifies this
      ensures config == old(config).(backlogCount := backlogCount)
    {
      config := config.(backlogCount := backlogCount);
    }

    method SetMaxReceivePacketLength(maxReceivePacketLength: int32)
      modifies this
      ensures config == old(config).(maxReceivePacketLength := Some(maxReceivePacketLength))
    {
      config := config.(maxReceivePacketLength := Some(maxReceivePacketLength));
    }

    method SetEnableRpcLogging(enable: bool)
      modifies this
      ensures config == old(config).(enableRpcLogging := enable)
    {
      config := config.(enableRpcLogging := enable);
    }

    method SetEnableTrafficLogging(enable: bool)
      modifies this
      ensures config == old(config).(enableTrafficLogging := enable)
    {
      config := config.(enableTrafficLogging := enable);
    }

    method SetLoggingName(loggingName: Option<string>)
      modifies this
      ensures config == old(config).(loggingName := loggingName)
    {
      config := config.(loggingName := loggingName);
    }

    /**
     * `addServiceImplementation`: registers the interface (a refusal stops here), records the
     * implementation class, then records the constructor kind. The implementation class stays
     * recorded even when no usable constructor is found.
     */
    method AddServiceImplementation(classOfService: ClassDecl, implOfService: ImplClassDecl)
      returns (error: Option<RegistrationError>)
      requires collector.Valid()
      modifies collector
      ensures collector.Valid()
      ensures var reg := EntryAfterRegistration(old(collector.serviceInfoMap), old(collector.serviceIdentifierClassMap), classOfService);
        reg.Failure? ==> error == Some(reg.error) && unchanged(collector)
      ensures var reg := EntryAfterRegistration(old(collector.serviceInfoMap), old(collector.serviceIdentifierClassMap), classOfService);
        var ctor := GetServiceImplementationConstructor(implOfService);
        reg.Success? ==>
          && (ctor.Success? ==> error.None?)
          && (ctor.Failure? ==> error == Some(ctor.error))
          && collector.serviceIdentifierClassMap == old(collector.serviceIdentifierClassMap)[reg.value.serviceIdentifier := classOfService]
          && collector.serviceInfoMap == old(collector.serviceInfoMap)[classOfService :=
               reg.value.(implClass := Some(implOfService),
                          implClassConstructor := if ctor.Success? then Some(ctor.value) else reg.value.implClassConstructor)]
    {
      error := RegisterService(classOfService);
      if error.Some? {
        return;
      }
      error := RecordImplementation(classOfService, implOfService);
    }

    /** The first step of `addServiceImplementation`: `parseServiceInterface`, seen through the entry it leaves. */
    method RegisterService(classOfService: ClassDecl) returns (error: Option<RegistrationError>)
      requires collector.Valid()
      modifies collector
      ensures collector.Valid()
      ensures var reg := EntryAfterRegistration(old(collector.serviceInfoMap), old(collector.serviceIdentifierClassMap), classOfService);
        && (reg.Failure? <==> error.Some?)
        && (reg.Failure? ==> error == Some(reg.error) && unchanged(collector))
        && (reg.Success? ==>
             && classOfService in collector.serviceInfoMap
             && collector.serviceInfoMap == old(collector.serviceInfoMap)[classOfService := reg.value]
             && collector.serviceIdentifierClassMap == old(collector.serviceIdentifierClassMap)[reg.value.serviceIdentifier := classOfService])
    {
      ghost var infoMap0, classMap0 := collector.serviceInfoMap, collector.serviceIdentifierClassMap;
      if classOfService in infoMap0 {
        ghost var entry := infoMap0[classOfService];
        assert classMap0[entry.serviceIdentifier] == classOfService;
        assert classMap0[entry.serviceIdentifier := classOfService] == classMap0;
        assert infoMap0[classOfService := entry] == infoMap0;
      }
      error := collector.ParseServiceInterface(classOfService);
    }

    /** The part of `addServiceImplementation` after registration: the implementation class, then its constructor. */
    method RecordImplementation(classOfService: ClassDecl, implOfService: ImplClassDecl) returns (error: Option<RegistrationError>)
      requires collector.Valid() && classOfService in collector.serviceInfoMap
      modifies collector
      ensures collector.Valid()
      ensures var ctor := GetServiceImplementationConstructor(implOfService);
        var entry := old(collector.serviceInfoMap[classOfService]);
        && (ctor.Success? ==> error.None?)
        && (ctor.Failure? ==> error == Some(ctor.error))
        && collector.serviceIdentifierClassMap == old(collector.serviceIdentifierClassMap)
        && collector.serviceInfoMap == old(collector.serviceInfoMap)[classOfService :=
             entry.(implClass := Some(implOfService),
                    implClassConstructor := if ctor.Success? then Some(ctor.value) else entry.implClassConstructor)]
    {
      collector.SetImplClass(classOfService, implOfService);
      var ctor := GetServiceImplementationConstructor(implOfService);
      if ctor.Failure? {
        return Some(ctor.error);
      }
      collector.SetImplClassConstructor(classOfService, ctor.value);
      return None;
    }

    /**
     * `registerOob`: registers each interface in turn and stops at the first refusal; on success
     * every interface is registered, and nothing registered before is lost either way.
     */
    method RegisterOob(oobClasses: seq<ClassDecl>) returns (error: Option<RegistrationError>)
      requires collector.Valid()
      modifies collector
      ensures collector.Valid()
      ensures (collector.View(), error) == RegisterEach(old(collector.View()), oobClasses)
      ensures old(collector.serviceInfoMap).Keys <= collector.serviceInfoMap.Keys
      ensures error.None? ==> forall i | 0 <= i < |oobClasses| :: oobClasses[i] in collector.serviceInfoMap
      ensures error.Some? ==> exists i | 0 <= i < |oobClasses| ::
        && (forall j | 0 <= j < i :: oobClasses[j] in collector.serviceInfoMap)
        && oobClasses[i] !in collector.serviceInfoMap
        && ParseServiceClassSpec(oobClasses[i], collector.serviceIdentifierClassMap) == Failure(error.value)
    {
      ghost var reg0 := collector.View();
      var i := 0;
      while i < |oobClasses|
        invariant 0 <= i <= |oobClasses|
        invariant collector.Valid()
        invariant (collector.View(), None) == RegisterEach(reg0, oobClasses[..i])
      {
        assert oobClasses[..i + 1][..i] == oobClasses[..i];
        error := collector.ParseServiceInterface(oobClasses[i]);
        if error.Some? {
          RegisterEachKeepsRefusal(reg0, oobClasses, i + 1);
          RegisterEachRegistersAll(reg0, oobClasses[..i]);
          assert forall j | 0 <= j < i :: oobClasses[..i][j] == oobClasses[j];
          return;
        }
        i := i + 1;
      }
      assert oobClasses[..i] == oobClasses;
      RegisterEachRegistersAll(reg0, oobClasses);
      return None;
    }

    /**
     * `build`: the configuration checks, then a server holding one reference to each shared group
     * per configured endpoint. A holder whose count went negative hands out no group, and
     * `group(null, ...)` then throws after both acquisitions of that endpoint were counted.
     */
    method Build() returns (r: Result<ProtobufRpcServer, Throwable>)
      requires serverLoops.Valid() && clientLoops.Valid() && serverLoops != clientLoops
      modifies serverLoops, clientLoops
      ensures serverLoops.Valid() && clientLoops.Valid()
      ensures var acquired := AcquirePairs(old(serverLoops.View()), old(clientLoops.View()), BootstrapCount(config));
        && (r.Failure? <==> BuildError(config).Some? || !acquired.2)
        && (BuildError(config).Some? ==> r == Failure(BuildError(config).value) && unchanged(serverLoops, clientLoops))
        && (BuildError(config).None? ==> serverLoops.View() == acquired.0 && clientLoops.View() == acquired.1)
        && (BuildError(config).None? && !acquired.2 ==> r == Failure(NullPointerException))
      ensures r.Success? ==>
        && fresh(r.value) && r.value.Valid() && r.value.View() == Built(config)
        && r.value.collector == collector && r.value.serverLoops == serverLoops && r.value.clientLoops == clientLoops
        && !r.value.hasDisconnectListener
      ensures r.Success? ==>
        && serverLoops.View() == AcquireN(old(serverLoops.View()), BootstrapCount(config))
        && clientLoops.View() == AcquireN(old(clientLoops.View()), BootstrapCount(config))
    {
      var check := BuildError(config);
      if check.Some? {
        return Failure(check.value);
      }
      AcquirePairsOutcome(serverLoops.View(), clientLoops.View(), BootstrapCount(config));
      var server := new ProtobufRpcServer(collector, serverLoops, clientLoops, config);
      if config.localAddress.Some? {
        var ok := AcquireForBootstrap();
        if !ok {
          return Failure(NullPointerException);
        }
      }
      if config.sslLocalAddress.Some? {
        var ok := AcquireForBootstrap();
        if !ok {
          return Failure(NullPointerException);
        }
      }
      return Success(server);
    }

    /** `group(acquireServerEventLoopGroup(), acquireClientEventLoopGroup())`: both acquired, then both must be present. */
    method AcquireForBootstrap() returns (ok: bool)
      requires serverLoops.Valid() && clientLoops.Valid() && serverLoops != clientLoops
      modifies serverLoops, clientLoops
      ensures serverLoops.Valid() && clientLoops.Valid()
      ensures serverLoops.View() == Acquire(old(serverLoops.View())) && clientLoops.View() == Acquire(old(clientLoops.View()))
      ensures ok <==> serverLoops.View().group.Some? && clientLoops.View().group.Some?
    {
      var serverGroup := serverLoops.AcquireGroup();
      var clientGroup := clientLoops.AcquireGroup();
      ok := serverGroup.Some? && clientGroup.Some?;
    }
  }
}
