/**
 * The client connection (RpcClientChannelImpl). A synchronous RPC call blocks its thread between
 * sending the request and the arrival of the response or a timeout; the model splits a call into
 * `BeginCall` (register the waiter, write the request) and `FinishCall` (stop waiting, take the
 * response if one was stored), with the event-loop thread's `ReceivedRpcPacket` free to run in
 * between. The outcome of a finished call is the pure function `CallOutcome`.
 */
module ClientChannel {
  import opened Basics
  import opened Wire
  import opened Collector
  import opened Transport

  /** The proxy `getService` hands out: it invokes through the service entry it was made for. */
  datatype Proxy = Proxy(serviceInfo: RpcServiceInfo)

  /** An object the application registered to receive OOB pushes; only its identity is modelled. */
  datatype OobHandler = OobHandler(id: nat)

  /** One invocation of an OOB handler method with the message parsed from a push. */
  datatype OobDelivery = OobDelivery(handler: OobHandler, rpcMethod: MethodDecl, message: Message)

  const DEFAULT_READ_TIMEOUT: int := 5 * 1000

  /** The request packet a call sends: REQUEST type, the service and method ids, the argument's bytes. */
  function RequestPacket(proto: Protobuf, info: RpcServiceInfo, methodInfo: RpcMethodInfo, messageIdentifier: int, arg: Message): (p: WirePacket)
    ensures p.messageIdentifier == messageIdentifier && p.messageType == Request
    ensures p.ServiceIdentifierOrDefault() == ServiceIdentifier(info.serviceIdentifier, methodInfo.methodIdentifier)
    ensures p.PayloadOrEmpty() == proto.serializeMessage(arg) && p.crc32.None?
  {
    WirePacket(messageIdentifier, Request, Some(ServiceIdentifier(info.serviceIdentifier, methodInfo.methodIdentifier)),
               Some(proto.serializeMessage(arg)), None)
  }

  /**
   * What a proxy call returns or throws once its wait ends with the stored response, or with none
   * (a timeout): a RESPONSE is parsed with the method's response class, an ERROR carries the
   * server's text, anything else is rejected.
   */
  function CallOutcome(proto: Protobuf, methodInfo: RpcMethodInfo, response: Option<WirePacket>): (r: Result<Message, Throwable>)
    ensures response.None? ==> r == Failure(RpcCallException("Response timeout."))
    ensures r.Success? <==>
              response.Some? && response.value.messageType == Response
              && proto.parseMessage(methodInfo.responseMessageType, response.value.PayloadOrEmpty()).Some?
    ensures r.Success? ==> Some(r.value) == proto.parseMessage(methodInfo.responseMessageType, response.value.PayloadOrEmpty())
    ensures (r.Failure? && r.error.RpcCallServerException?) <==>
              response.Some? && response.value.messageType == Error && proto.parseErrorMessage(response.value.PayloadOrEmpty()).Some?
  {
    match response
    case None => Failure(RpcCallException("Response timeout."))
    case Some(p) =>
      if p.messageType == Response then
        match proto.parseMessage(methodInfo.responseMessageType, p.PayloadOrEmpty())
        case Some(m) => Success(m)
        case None => Failure(RpcCallException("Unable to parse response message."))
      else if p.messageType == Error then
        match proto.parseErrorMessage(p.PayloadOrEmpty())
        case Some(text) => Failure(RpcCallServerException(text))
        case None => Failure(InvalidProtocolBufferException)
      else
        Failure(RpcCallException("Invalid response received: " + proto.packetText(p)))
  }

  /** A RESPONSE that carries a serialized message of the method's response class returns that message. */
  lemma ResponseReturnsMessage(proto: Protobuf, methodInfo: RpcMethodInfo, p: WirePacket, m: Message)
    requires proto.MessageRoundTrip()
    requires p.messageType == Response && p.payload == Some(proto.serializeMessage(m))
    requires m.typeName == methodInfo.responseMessageType
    ensures CallOutcome(proto, methodInfo, Some(p)) == Success(m)
  {
    assert proto.parseMessage(m.typeName, proto.serializeMessage(m)) == Some(m);
  }

  /** An ERROR that carries a serialized ErrorMessage makes the call throw RpcCallServerException with its text. */
  lemma ErrorThrowsServerException(proto: Protobuf, methodInfo: RpcMethodInfo, p: WirePacket, text: string)
    requires proto.ErrorMessageRoundTrip()
    requires p.messageType == Error && p.payload == Some(proto.serializeErrorMessage(text))
    ensures CallOutcome(proto, methodInfo, Some(p)) == Failure(RpcCallServerException(text))
  {
    assert proto.parseErrorMessage(proto.serializeErrorMessage(text)) == Some(text);
  }

  /**
   * Only RESPONSE and ERROR packets are ever stored for a waiting call, so the "Invalid response
   * received" branch cannot be reached from a stored response: the call returns the parsed
   * message, throws the server's error, or fails to parse one of the two.
   */
  lemma StoredResponseIsNeverInvalid(proto: Protobuf, methodInfo: RpcMethodInfo, p: WirePacket)
    requires p.messageType == Response || p.messageType == Error
    ensures CallOutcome(proto, methodInfo, Some(p)) != Failure(RpcCallException("Invalid response received: " + proto.packetText(p)))
    ensures var r := CallOutcome(proto, methodInfo, Some(p));
      || r.Success?
      || (r.Failure? && r.error.RpcCallServerException?)
      || r == Failure(InvalidProtocolBufferException)
      || r == Failure(RpcCallException("Unable to parse response message."))
  {
    var invalid := "Invalid response received: " + proto.packetText(p);
    assert invalid[0] == 'I';
    assert "Unable to parse response message."[0] == 'U';
  }

  /**
   * Where `handleOob` sends a push: the registered service with the packet's service id, its method
   * with the packet's method id, and the handler registered for that service, if all three exist.
   */
  function OobTarget(serviceInfo: Option<RpcServiceInfo>, oobHandlerMap: map<ClassDecl, OobHandler>, p: WirePacket)
    : (r: Option<(OobHandler, RpcMethodInfo)>)
    ensures r.Some? <==>
              serviceInfo.Some? && p.ServiceIdentifierOrDefault().methodIdentifier in serviceInfo.value.methodIdentifierMap
              && serviceInfo.value.service in oobHandlerMap
    ensures r.Some? ==> r.value.0 == oobHandlerMap[serviceInfo.value.service]
                        && r.value.1 == serviceInfo.value.methodIdentifierMap[p.ServiceIdentifierOrDefault().methodIdentifier]
  {
    var sid := p.ServiceIdentifierOrDefault();
    if serviceInfo.Some? && sid.methodIdentifier in serviceInfo.value.methodIdentifierMap && serviceInfo.value.service in oobHandlerMap then
      Some((oobHandlerMap[serviceInfo.value.service], serviceInfo.value.methodIdentifierMap[sid.methodIdentifier]))
    else
      None
  }

  /** The deliveries a push adds: one, when it has a target and its payload parses; none otherwise. */
  function OobDeliveries(proto: Protobuf, target: Option<(OobHandler, RpcMethodInfo)>, p: WirePacket): (d: seq<OobDelivery>)
    ensures |d| <= 1
    ensures |d| == 1 <==> target.Some? && proto.parseMessage(target.value.1.requestMessageType, p.PayloadOrEmpty()).Some?
  {
    match target
    case None => []
    case Some((handler, methodInfo)) =>
      match proto.parseMessage(methodInfo.requestMessageType, p.PayloadOrEmpty())
      case Some(message) => [OobDelivery(handler, methodInfo.rpcMethod, message)]
      case None => []
  }

  /** The exception `handleOob` throws for a push it cannot route: a client-side RpcCallException naming both identifiers. */
  function UnroutableOob(sid: ServiceIdentifier): (r: Throwable)
    ensures r.RpcCallException?
  {
    RpcCallException("Unable to find OOB handler for service identifier: ("
                     + IntToString(sid.serviceIdentifier) + ", " + IntToString(sid.methodIdentifier) + ")")
  }

  class RpcClientChannelImpl {
    const channel: Channel
    const collector: RpcServiceCollector
    const proto: Protobuf
    const defaultReceiveTimeoutMillis: int

    /** `mMessageIdentifierGenerator`: the last message identifier handed out. */
    var messageIdentifierGenerator: int
    var proxyMap: map<ClassDecl, Proxy>
    /** The message identifiers of the calls currently waiting (`mWaitingRequestThreads`' keys). */
    var waitingRequests: set<int>
    var requestResponseMap: map<int, WirePacket>
    var oobHandlerMap: map<ClassDecl, OobHandler>
    var hasDisconnectListener: bool
    var channelDisconnectReason: DisconnectReason
    /** The reasons reported to the disconnect listener, in order. */
    var disconnectEvents: seq<DisconnectReason>
    /** The OOB handler invocations made, in order. */
    var oobDeliveries: seq<OobDelivery>

    /**
     * Identifiers already handed out are positive and at most the generator's value; a response is
     * stored only for a waiting call, under that call's identifier, and only if it is a RESPONSE or
     * an ERROR.
     */
    ghost predicate Valid()
      reads this
    {
      && messageIdentifierGenerator >= 0
      && (forall id | id in waitingRequests :: 1 <= id <= messageIdentifierGenerator)
      && requestResponseMap.Keys <= waitingRequests
      && (forall id | id in requestResponseMap ::
            requestResponseMap[id].messageIdentifier == id
            && (requestResponseMap[id].messageType == Response || requestResponseMap[id].messageType == Error))
    }

    constructor (channel: Channel, collector: RpcServiceCollector, proto: Protobuf, defaultReceiveTimeoutMillis: Option<int>)
      ensures Valid()
      ensures this.channel == channel && this.collector == collector && this.proto == proto
      ensures this.defaultReceiveTimeoutMillis == defaultReceiveTimeoutMillis.GetOr(DEFAULT_READ_TIMEOUT)
      ensures messageIdentifierGenerator == 0 && proxyMap == map[] && waitingRequests == {} && requestResponseMap == map[]
      ensures oobHandlerMap == map[] && !hasDisconnectListener && channelDisconnectReason == ServerClose
      ensures disconnectEvents == [] && oobDeliveries == []
    {
      this.channel := channel;
      this.collector := collector;
      this.proto := proto;
      this.defaultReceiveTimeoutMillis := defaultReceiveTimeoutMillis.GetOr(DEFAULT_READ_TIMEOUT);
      messageIdentifierGenerator := 0;
      proxyMap := map[];
      waitingRequests := {};
      requestResponseMap := map[];
      oobHandlerMap := map[];
      hasDisconnectListener := false;
      channelDisconnectReason := ServerClose;
      disconnectEvents := [];
      oobDeliveries := [];
    }

    function IsActive(): bool
      reads channel
    {
      channel.active
    }

    /**
     * `getService`: the first request for a registered class creates its proxy; later requests
     * return the same proxy; an unregistered class gets none.
     */
    method GetService(classOfService: ClassDecl) returns (proxy: Option<Proxy>)
      modifies this
      ensures classOfService in old(proxyMap) ==> proxy == Some(old(proxyMap)[classOfService]) && proxyMap == old(proxyMap)
      ensures classOfService !in old(proxyMap) ==>
        match collector.GetServiceInfoByClass(classOfService)
        case None => proxy.None? && proxyMap == old(proxyMap)
        case Some(info) => proxy == Some(Proxy(info)) && proxyMap == old(proxyMap)[classOfService := Proxy(info)]
      ensures waitingRequests == old(waitingRequests) && requestResponseMap == old(requestResponseMap)
      ensures messageIdentifierGenerator == old(messageIdentifierGenerator) && oobHandlerMap == old(oobHandlerMap)
      ensures hasDisconnectListener == old(hasDisconnectListener) && channelDisconnectReason == old(channelDisconnectReason)
      ensures disconnectEvents == old(disconnectEvents) && oobDeliveries == old(oobDeliveries)
    {
      if classOfService !in proxyMap {
        var serviceInfo := collector.GetServiceInfoByClass(classOfService);
        if serviceInfo.Some? {
          proxyMap := proxyMap[classOfService := Proxy(serviceInfo.value)];
        }
      }
      proxy := if classOfService in proxyMap then Some(proxyMap[classOfService]) else None;
    }

    /**
     * `addOobHandler`: a class seen before is re-bound without checks; otherwise it must be registered
     * with the OOB flag, or IllegalArgumentException is thrown and nothing changes.
     */
    method AddOobHandler(classOfOob: ClassDecl, objectOfOob: OobHandler) returns (error: Option<Throwable>)
      modifies this
      ensures var registered := collector.GetServiceInfoByClass(classOfOob);
        var accepted := classOfOob in old(oobHandlerMap) || (registered.Some? && registered.value.IsOob());
        && (accepted ==> error.None? && oobHandlerMap == old(oobHandlerMap)[classOfOob := objectOfOob])
        && (!accepted ==> error == Some(IllegalArgumentException("Class<" + classOfOob.name + "> not registered for OOB handling."))
                          && oobHandlerMap == old(oobHandlerMap))
      ensures waitingRequests == old(waitingRequests) && requestResponseMap == old(requestResponseMap)
      ensures messageIdentifierGenerator == old(messageIdentifierGenerator) && proxyMap == old(proxyMap)
      ensures hasDisconnectListener == old(hasDisconnectListener) && channelDisconnectReason == old(channelDisconnectReason)
      ensures disconnectEvents == old(disconnectEvents) && oobDeliveries == old(oobDeliveries)
    {
      if classOfOob !in oobHandlerMap {
        var serviceInfo := collector.GetServiceInfoByClass(classOfOob);
        if serviceInfo.None? || !serviceInfo.value.IsOob() {
          return Some(IllegalArgumentException("Class<" + classOfOob.name + "> not registered for OOB handling."));
        }
      }
      oobHandlerMap := oobHandlerMap[classOfOob := objectOfOob];
      return None;
    }

    /** `setChannelDisconnectListener`: installs a listener, or removes it when given null. */
    method SetChannelDisconnectListener(present: bool)
      modifies this
      ensures hasDisconnectListener == present
      ensures messageIdentifierGenerator == old(messageIdentifierGenerator) && proxyMap == old(proxyMap)
      ensures waitingRequests == old(waitingRequests) && requestResponseMap == old(requestResponseMap)
      ensures oobHandlerMap == old(oobHandlerMap) && channelDisconnectReason == old(channelDisconnectReason)
      ensures disconnectEvents == old(disconnectEvents) && oobDeliveries == old(oobDeliveries)
    {
      hasDisconnectListener := present;
    }

    /**
     * The invocation handler up to the wait: an inactive channel refuses the call; otherwise the
     * next message identifier is taken, the call is registered as waiting and its request written.
     */
    method BeginCall(info: RpcServiceInfo, rpcMethod: MethodDecl, arg: Message) returns (r: Result<int, Throwable>)
      requires Valid()
      requires rpcMethod in info.methodMap
      modifies this, channel
      ensures Valid()
      ensures !old(channel.active) ==>
        && r == Failure(RpcCallException("Channel is not active."))
        && messageIdentifierGenerator == old(messageIdentifierGenerator) && waitingRequests == old(waitingRequests)
        && channel.written == old(channel.written)
      ensures old(channel.active) ==>
        && r == Success(old(messageIdentifierGenerator) + 1)
        && messageIdentifierGenerator == r.value
        && r.value !in old(waitingRequests)
        && waitingRequests == old(waitingRequests) + {r.value}
        && channel.written == old(channel.written) + [RequestPacket(proto, info, info.methodMap[rpcMethod], r.value, arg)]
      ensures channel.active == old(channel.active) && channel.keepAliveHandler == old(channel.keepAliveHandler)
      ensures requestResponseMap == old(requestResponseMap) && proxyMap == old(proxyMap) && oobHandlerMap == old(oobHandlerMap)
      ensures hasDisconnectListener == old(hasDisconnectListener) && channelDisconnectReason == old(channelDisconnectReason)
      ensures disconnectEvents == old(disconnectEvents) && oobDeliveries == old(oobDeliveries)
    {
      if !IsActive() {
        return Failure(RpcCallException("Channel is not active."));
      }
      var methodInfo := info.methodMap[rpcMethod];
      messageIdentifierGenerator := messageIdentifierGenerator + 1;
      var messageIdentifier := messageIdentifierGenerator;
      var request := RequestPacket(proto, info, methodInfo, messageIdentifier, arg);
      waitingRequests := waitingRequests + {messageIdentifier};
      channel.WriteAndFlush(request);
      return Success(messageIdentifier);
    }

    /**
     * The invocation handler after the wait (woken or timed out): the call stops waiting, its stored
     * response is taken out, and the proxy's result is `CallOutcome` of that response.
     */
    method FinishCall(messageIdentifier: int, methodInfo: RpcMethodInfo) returns (r: Result<Message, Throwable>)
      requires Valid()
      modifies this
      ensures Valid()
      ensures r == CallOutcome(proto, methodInfo,
                               if messageIdentifier in old(requestResponseMap) then Some(old(requestResponseMap)[messageIdentifier]) else None)
      ensures waitingRequests == old(waitingRequests) - {messageIdentifier}
      ensures requestResponseMap == old(requestResponseMap) - {messageIdentifier}
      ensures messageIdentifierGenerator == old(messageIdentifierGenerator) && proxyMap == old(proxyMap) && oobHandlerMap == old(oobHandlerMap)
      ensures hasDisconnectListener == old(hasDisconnectListener) && channelDisconnectReason == old(channelDisconnectReason)
      ensures disconnectEvents == old(disconnectEvents) && oobDeliveries == old(oobDeliveries)
    {
      waitingRequests := waitingRequests - {messageIdentifier};
      var response: Option<WirePacket> := None;
      if messageIdentifier in requestResponseMap {
        response := Some(requestResponseMap[messageIdentifier]);
        requestResponseMap := requestResponseMap - {messageIdentifier};
      }
      r := CallOutcome(proto, methodInfo, response);
    }

    /** `handleRpcResponse`: stored for the call waiting on that identifier, dropped if none is. */
    method HandleRpcResponse(wirePacket: WirePacket)
      requires Valid() && (wirePacket.messageType == Response || wirePacket.messageType == Error)
      modifies this
      ensures Valid()
      ensures requestResponseMap ==
                if wirePacket.messageIdentifier in waitingRequests
                then old(requestResponseMap)[wirePacket.messageIdentifier := wirePacket]
                else old(requestResponseMap)
      ensures waitingRequests == old(waitingRequests)
      ensures messageIdentifierGenerator == old(messageIdentifierGenerator) && proxyMap == old(proxyMap) && oobHandlerMap == old(oobHandlerMap)
      ensures hasDisconnectListener == old(hasDisconnectListener) && channelDisconnectReason == old(channelDisconnectReason)
      ensures disconnectEvents == old(disconnectEvents) && oobDeliveries == old(oobDeliveries)
    {
      if wirePacket.messageIdentifier in waitingRequests {
        requestResponseMap := requestResponseMap[wirePacket.messageIdentifier := wirePacket];
      }
    }

    /**
     * `handleOob`: a push reaches the registered handler's method when service, method and handler
     * are all found (a payload that does not parse, or a handler that throws, is ignored); otherwise
     * RpcCallException is thrown.
     */
    method HandleOob(wirePacket: WirePacket) returns (thrown: Option<Throwable>)
      requires Valid() && collector.Valid()
      modifies this
      ensures Valid()
      ensures var target := OobTarget(collector.GetServiceInfoById(wirePacket.ServiceIdentifierOrDefault().serviceIdentifier), oobHandlerMap, wirePacket);
        && (target.None? ==> thrown == Some(UnroutableOob(wirePacket.ServiceIdentifierOrDefault())))
        && (target.Some? ==> thrown.None?)
        && oobDeliveries == old(oobDeliveries) + OobDeliveries(proto, target, wirePacket)
      ensures waitingRequests == old(waitingRequests) && requestResponseMap == old(requestResponseMap)
      ensures messageIdentifierGenerator == old(messageIdentifierGenerator) && proxyMap == old(proxyMap) && oobHandlerMap == old(oobHandlerMap)
      ensures hasDisconnectListener == old(hasDisconnectListener) && channelDisconnectReason == old(channelDisconnectReason)
      ensures disconnectEvents == old(disconnectEvents)
    {
      var serviceIdentifier := wirePacket.ServiceIdentifierOrDefault();
      var serviceInfo := collector.GetServiceInfoById(serviceIdentifier.serviceIdentifier);
      var target := OobTarget(serviceInfo, oobHandlerMap, wirePacket);
      if target.None? {
        return Some(UnroutableOob(serviceIdentifier));
      }
      oobDeliveries := oobDeliveries + OobDeliveries(proto, target, wirePacket);
      return None;
    }

    /**
     * The effect of `receivedRpcPacket`: RESPONSE and ERROR go to the waiting call (and are dropped
     * when no call waits on their identifier), OOB to its handler, the rest is ignored.
     */
    twostate predicate ReceivedEffect(wirePacket: WirePacket, new thrown: Option<Throwable>)
      reads this, collector
    {
      && (wirePacket.messageType != Oob ==> thrown.None? && oobDeliveries == old(oobDeliveries))
      && (wirePacket.messageType == Response || wirePacket.messageType == Error ==>
            requestResponseMap ==
              if wirePacket.messageIdentifier in old(waitingRequests)
              then old(requestResponseMap)[wirePacket.messageIdentifier := wirePacket]
              else old(requestResponseMap))
      && (wirePacket.messageType != Response && wirePacket.messageType != Error ==> requestResponseMap == old(requestResponseMap))
      && (wirePacket.messageType == Oob ==>
            var target := OobTarget(old(collector.GetServiceInfoById(wirePacket.ServiceIdentifierOrDefault().serviceIdentifier)),
                                    old(oobHandlerMap), wirePacket);
            && (target.None? ==> thrown == Some(UnroutableOob(wirePacket.ServiceIdentifierOrDefault())))
            && (target.Some? ==> thrown.None?)
            && oobDeliveries == old(oobDeliveries) + OobDeliveries(proto, target, wirePacket))
      && waitingRequests == old(waitingRequests)
      && messageIdentifierGenerator == old(messageIdentifierGenerator) && proxyMap == old(proxyMap) && oobHandlerMap == old(oobHandlerMap)
      && hasDisconnectListener == old(hasDisconnectListener) && channelDisconnectReason == old(channelDisconnectReason)
      && disconnectEvents == old(disconnectEvents)
    }

    /** `receivedRpcPacket`. */
    method ReceivedRpcPacket(wirePacket: WirePacket) returns (thrown: Option<Throwable>)
      requires Valid() && collector.Valid()
      modifies this
      ensures Valid()
      ensures ReceivedEffect(wirePacket, thrown)
    {
      thrown := None;
      if wirePacket.messageType == Response || wirePacket.messageType == Error {
        HandleRpcResponse(wirePacket);
      } else if wirePacket.messageType == Oob {
        thrown := HandleOob(wirePacket);
      }
    }

    /** `realClose`: the channel is closed and the proxies and OOB handlers are forgotten. */
    method RealClose()
      requires Valid()
      modifies this, channel
      ensures Valid()
      ensures !channel.active && channel.written == old(channel.written) && channel.keepAliveHandler == old(channel.keepAliveHandler)
      ensures proxyMap == map[] && oobHandlerMap == map[]
      ensures waitingRequests == old(waitingRequests) && requestResponseMap == old(requestResponseMap)
      ensures messageIdentifierGenerator == old(messageIdentifierGenerator)
      ensures hasDisconnectListener == old(hasDisconnectListener) && channelDisconnectReason == old(channelDisconnectReason)
      ensures disconnectEvents == old(disconnectEvents) && oobDeliveries == old(oobDeliveries)
    {
      channel.Close();
      proxyMap := map[];
      oobHandlerMap := map[];
    }

    /** `close`: a close by the application, reported as CLIENT_CLOSE. */
    method Close()
      requires Valid()
      modifies this, channel
      ensures Valid()
      ensures !channel.active && channel.written == old(channel.written) && channel.keepAliveHandler == old(channel.keepAliveHandler)
      ensures channelDisconnectReason == ClientClose && proxyMap == map[] && oobHandlerMap == map[]
      ensures waitingRequests == old(waitingRequests) && requestResponseMap == old(requestResponseMap)
      ensures messageIdentifierGenerator == old(messageIdentifierGenerator) && hasDisconnectListener == old(hasDisconnectListener)
      ensures disconnectEvents == old(disconnectEvents) && oobDeliveries == old(oobDeliveries)
    {
      channelDisconnectReason := ClientClose;
      RealClose();
    }

    /**
     * The effect of `channelException`: an IOException, or an exception of a subclass of it, closes
     * the channel and is reported as NETWORK_ERROR; any other cause (or none) changes nothing.
     */
    twostate predicate ChannelExceptionEffect(cause: Option<Throwable>)
      reads this, channel
    {
      && (cause.Some? && IsIOException(cause.value) ==>
            !channel.active && channelDisconnectReason == NetworkError && proxyMap == map[] && oobHandlerMap == map[])
      && (!(cause.Some? && IsIOException(cause.value)) ==>
            && channel.active == old(channel.active) && channelDisconnectReason == old(channelDisconnectReason)
            && proxyMap == old(proxyMap) && oobHandlerMap == old(oobHandlerMap))
      && channel.written == old(channel.written) && channel.keepAliveHandler == old(channel.keepAliveHandler)
      && waitingRequests == old(waitingRequests) && requestResponseMap == old(requestResponseMap)
      && messageIdentifierGenerator == old(messageIdentifierGenerator) && hasDisconnectListener == old(hasDisconnectListener)
      && disconnectEvents == old(disconnectEvents) && oobDeliveries == old(oobDeliveries)
    }

    /** `channelException`. */
    method ChannelException(cause: Option<Throwable>)
      requires Valid()
      modifies this, channel
      ensures Valid()
      ensures ChannelExceptionEffect(cause)
    {
      if cause.Some? && IsIOException(cause.value) {
        channelDisconnectReason := NetworkError;
        RealClose();
      }
    }

    /**
     * `operationComplete` of the close future: the listener, if any, hears the recorded reason, and
     * the reason returns to SERVER_CLOSE.
     */
    method OperationComplete()
      requires Valid()
      modifies this
      ensures Valid()
      ensures disconnectEvents == old(disconnectEvents) + (if hasDisconnectListener then [old(channelDisconnectReason)] else [])
      ensures channelDisconnectReason == ServerClose
      ensures waitingRequests == old(waitingRequests) && requestResponseMap == old(requestResponseMap)
      ensures messageIdentifierGenerator == old(messageIdentifierGenerator) && proxyMap == old(proxyMap) && oobHandlerMap == old(oobHandlerMap)
      ensures hasDisconnectListener == old(hasDisconnectListener) && oobDeliveries == old(oobDeliveries)
    {
      if hasDisconnectListener {
        disconnectEvents := disconnectEvents + [channelDisconnectReason];
      }
      channelDisconnectReason := ServerClose;
    }
  }

  /**
   * A push is delivered exactly when its service id is registered, the service has a method with
   * its method id, a handler is bound to that service class and the payload parses as that method's
   * request class; it then goes to the bound handler's method with the parsed message.
   */
  lemma OobDeliveredIff(proto: Protobuf, serviceInfo: Option<RpcServiceInfo>, oobHandlerMap: map<ClassDecl, OobHandler>, p: WirePacket)
    ensures var sid := p.ServiceIdentifierOrDefault();
      var d := OobDeliveries(proto, OobTarget(serviceInfo, oobHandlerMap, p), p);
      && (|d| == 1 <==>
            && serviceInfo.Some? && sid.methodIdentifier in serviceInfo.value.methodIdentifierMap
            && serviceInfo.value.service in oobHandlerMap
            && proto.parseMessage(serviceInfo.value.methodIdentifierMap[sid.methodIdentifier].requestMessageType, p.PayloadOrEmpty()).Some?)
      && (|d| == 1 ==>
            var methodInfo := serviceInfo.value.methodIdentifierMap[sid.methodIdentifier];
            d[0] == OobDelivery(oobHandlerMap[serviceInfo.value.service], methodInfo.rpcMethod,
                                proto.parseMessage(methodInfo.requestMessageType, p.PayloadOrEmpty()).value))
  {
  }
}
