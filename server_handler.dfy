/**
 * The server pipeline's last inbound handler (RpcServerChannelHandler), one per connection. It
 * answers each REQUEST with exactly one RESPONSE or ERROR packet, echoes keep-alives (installing
 * the server's idle timer on the first one), creates each implementation object once per
 * connection, and reports the disconnect reason when the connection goes away.
 *
 * What the application code does is a parameter: `created` is what `createImplClassObject` gives
 * (None for null), and `invoke` what calling an implementation method with a request does.
 */
module ServerHandler {
  import opened Basics
  import opened Wire
  import opened Collector
  import opened Transport
  import opened OobChannel

  /** A service implementation object; only its identity is modelled. */
  datatype ImplObject = ImplObject(id: nat)

  /** What an implementation method call does: returns a message, returns null, or throws. */
  datatype InvokeResult = Returned(message: Message) | ReturnedNull | Threw

  /** The packet written for one request, and the exception the read then throws, if any. */
  datatype Reply = Reply(packet: WirePacket, thrown: Option<Throwable>)

  const INTERNAL_SERVER_ERROR: string := "Internal server error."
  const UNABLE_TO_PARSE: string := "Unable to parse call request parameter."
  const UNABLE_TO_PROCESS: string := "Unable to process call."

  /** `sendError`: an ERROR for the request's id and service identifier, carrying the text. */
  function ErrorPacket(proto: Protobuf, request: WirePacket, message: string): (p: WirePacket)
    ensures p.messageIdentifier == request.messageIdentifier && p.messageType == Error
    ensures p.serviceIdentifier == Some(request.ServiceIdentifierOrDefault())
    ensures p.payload == Some(proto.serializeErrorMessage(message)) && p.crc32.None?
  {
    WirePacket(request.messageIdentifier, Error, Some(request.ServiceIdentifierOrDefault()),
               Some(proto.serializeErrorMessage(message)), None)
  }

  /** The RESPONSE for the request's id and service identifier, carrying the returned message. */
  function ResponsePacket(proto: Protobuf, request: WirePacket, response: Message): (p: WirePacket)
    ensures p.messageIdentifier == request.messageIdentifier && p.messageType == Response
    ensures p.serviceIdentifier == Some(request.ServiceIdentifierOrDefault())
    ensures p.payload == Some(proto.serializeMessage(response)) && p.crc32.None?
  {
    WirePacket(request.messageIdentifier, Response, Some(request.ServiceIdentifierOrDefault()),
               Some(proto.serializeMessage(response)), None)
  }

  /** The entry `getServiceImplementationObject` goes on with: a registered service that has an implementation class. */
  function ImplementedService(serviceInfo: Option<RpcServiceInfo>): (r: Option<RpcServiceInfo>)
    ensures r.Some? <==> serviceInfo.Some? && serviceInfo.value.implClass.Some?
    ensures r.Some? ==> r == serviceInfo
  {
    if serviceInfo.Some? && serviceInfo.value.implClass.Some? then serviceInfo else None
  }

  /**
   * The implementation-object cache after a lookup: the object is created at the first request
   * for an implementation class, and whatever was created, null included, is kept.
   */
  function CacheAfter(cache: map<ImplClassDecl, Option<ImplObject>>, service: Option<RpcServiceInfo>, created: Option<ImplObject>)
    : (c: map<ImplClassDecl, Option<ImplObject>>)
    requires service.Some? ==> service.value.implClass.Some?
    ensures service.None? ==> c == cache
    ensures service.Some? ==>
      && service.value.implClass.value in c
      && (service.value.implClass.value in cache ==> c == cache)
      && (service.value.implClass.value !in cache ==> c == cache[service.value.implClass.value := created])
  {
    match service
    case None => cache
    case Some(info) =>
      if info.implClass.value in cache then cache else cache[info.implClass.value := created]
  }

  /**
   * `handleIncomingRequest` for a request whose service lookup gave `service` and whose cached
   * implementation object is `implObject`: exactly one packet back, an ERROR with the reason
   * whenever the call cannot be completed.
   */
  function Dispatch(proto: Protobuf, service: Option<RpcServiceInfo>, implObject: Option<ImplObject>, request: WirePacket,
                    invoke: (ImplObject, MethodDecl, Message) -> InvokeResult): (r: Reply)
    requires service.Some? ==> service.value.implClass.Some?
    ensures r.packet.messageIdentifier == request.messageIdentifier
    ensures r.packet.serviceIdentifier == Some(request.ServiceIdentifierOrDefault())
    ensures r.packet.messageType == Response || r.packet.messageType == Error
    ensures r.packet.messageType == Response <==> r.thrown.None?
  {
    var sid := request.ServiceIdentifierOrDefault();
    match service
    case None =>
      Reply(ErrorPacket(proto, request, INTERNAL_SERVER_ERROR),
            Some(RuntimeException("Service with identifier " + IntToString(sid.serviceIdentifier) + " is not registered")))
    case Some(info) =>
      if sid.methodIdentifier !in info.methodIdentifierMap then
        Reply(ErrorPacket(proto, request, INTERNAL_SERVER_ERROR),
              Some(RuntimeException("Service class " + info.service.name + " does not contain method with identifier "
                                    + IntToString(sid.methodIdentifier))))
      else if implObject.None? then
        Reply(ErrorPacket(proto, request, INTERNAL_SERVER_ERROR),
              Some(RuntimeException("Unable to create implementation object of " + info.service.name + " class")))
      else
        var methodInfo := info.methodIdentifierMap[sid.methodIdentifier];
        match proto.parseMessage(methodInfo.requestMessageType, request.PayloadOrEmpty())
        case None =>
          Reply(ErrorPacket(proto, request, UNABLE_TO_PARSE), Some(InvocationTargetException))
        case Some(requestMessage) =>
          match invoke(implObject.value, methodInfo.rpcMethod, requestMessage)
          case Threw =>
            Reply(ErrorPacket(proto, request, UNABLE_TO_PROCESS), Some(InvocationTargetException))
          case ReturnedNull =>
            Reply(ErrorPacket(proto, request, UNABLE_TO_PROCESS),
                  Some(RuntimeException("Response cannot be null from " + info.implClass.value.name + "." + methodInfo.rpcMethod.name)))
          case Returned(responseMessage) =>
            Reply(ResponsePacket(proto, request, responseMessage), None)
  }

  /**
   * A request is answered with a RESPONSE exactly when its service is registered with an
   * implementation, the method id is known, an implementation object exists, the payload parses
   * as the method's request class and the method returns a message; the RESPONSE then carries
   * what the method returned for the parsed request.
   */
  lemma DispatchSucceedsIff(proto: Protobuf, service: Option<RpcServiceInfo>, implObject: Option<ImplObject>, request: WirePacket,
                            invoke: (ImplObject, MethodDecl, Message) -> InvokeResult)
    requires service.Some? ==> service.value.implClass.Some?
    ensures var r := Dispatch(proto, service, implObject, request, invoke);
      var sid := request.ServiceIdentifierOrDefault();
      && (r.thrown.None? <==>
            && service.Some? && sid.methodIdentifier in service.value.methodIdentifierMap && implObject.Some?
            && var methodInfo := service.value.methodIdentifierMap[sid.methodIdentifier];
               var parsed := proto.parseMessage(methodInfo.requestMessageType, request.PayloadOrEmpty());
               parsed.Some? && invoke(implObject.value, methodInfo.rpcMethod, parsed.value).Returned?)
      && (r.thrown.None? ==>
            var methodInfo := service.value.methodIdentifierMap[sid.methodIdentifier];
            var parsed := proto.parseMessage(methodInfo.requestMessageType, request.PayloadOrEmpty());
            r.packet == ResponsePacket(proto, request, invoke(implObject.value, methodInfo.rpcMethod, parsed.value).message))
  {
  }

  /** The request names a registered method of an implemented service, and an implementation object exists. */
  predicate Routable(service: Option<RpcServiceInfo>, implObject: Option<ImplObject>, request: WirePacket) {
    && service.Some?
    && request.ServiceIdentifierOrDefault().methodIdentifier in service.value.methodIdentifierMap
    && implObject.Some?
  }

  /** The request payload parsed as the request class of the method it names. */
  function ParsedRequest(proto: Protobuf, service: Option<RpcServiceInfo>, request: WirePacket): Option<Message>
    requires service.Some? && request.ServiceIdentifierOrDefault().methodIdentifier in service.value.methodIdentifierMap
  {
    var methodInfo := service.value.methodIdentifierMap[request.ServiceIdentifierOrDefault().methodIdentifier];
    proto.parseMessage(methodInfo.requestMessageType, request.PayloadOrEmpty())
  }

  /**
   * Which failure gets which error text: an unknown service, an unknown method or a missing
   * implementation object gets the internal-server-error text; a payload that does not parse gets
   * the parse text; a method that throws or returns null gets the process text.
   */
  lemma DispatchErrorTexts(proto: Protobuf, service: Option<RpcServiceInfo>, implObject: Option<ImplObject>, request: WirePacket,
                           invoke: (ImplObject, MethodDecl, Message) -> InvokeResult)
    requires service.Some? ==> service.value.implClass.Some?
    ensures var r := Dispatch(proto, service, implObject, request, invoke);
      && (!Routable(service, implObject, request) ==>
            r.packet == ErrorPacket(proto, request, INTERNAL_SERVER_ERROR) && r.thrown.Some?)
      && (Routable(service, implObject, request) && ParsedRequest(proto, service, request).None? ==>
            r.packet == ErrorPacket(proto, request, UNABLE_TO_PARSE) && r.thrown == Some(InvocationTargetException))
      && (Routable(service, implObject, request) && ParsedRequest(proto, service, request).Some? ==>
            var methodInfo := service.value.methodIdentifierMap[request.ServiceIdentifierOrDefault().methodIdentifier];
            !invoke(implObject.value, methodInfo.rpcMethod, ParsedRequest(proto, service, request).value).Returned? ==>
              r.packet == ErrorPacket(proto, request, UNABLE_TO_PROCESS) && r.thrown.Some?)
  {
  }

  class RpcServerChannelHandler {
    const collector: RpcServiceCollector
    const channel: Channel
    const proto: Protobuf

    /** `mServiceImplementationObjectMap`: one object per implementation class, null kept. */
    var serviceImplementationObjectMap: map<ImplClassDecl, Option<ImplObject>>
    var rpcServerChannel: ProtobufRpcServerChannel?
    var channelDisconnectReason: DisconnectReason
    var keepAlive: bool
    /** The reasons handed to the server's `sendChannelDisconnectEvent`, in order. */
    var reportedDisconnects: seq<DisconnectReason>

    /** The flag is set only once the idle timer is in the pipeline. */
    ghost predicate Valid()
      reads this, channel
    {
      keepAlive ==> channel.keepAliveHandler
    }

    constructor (collector: RpcServiceCollector, channel: Channel, proto: Protobuf)
      ensures Valid()
      ensures this.collector == collector && this.channel == channel && this.proto == proto
      ensures serviceImplementationObjectMap == map[] && rpcServerChannel == null
      ensures channelDisconnectReason == ClientClose && !keepAlive && reportedDisconnects == []
    {
      this.collector := collector;
      this.channel := channel;
      this.proto := proto;
      serviceImplementationObjectMap := map[];
      rpcServerChannel := null;
      channelDisconnectReason := ClientClose;
      keepAlive := false;
      reportedDisconnects := [];
    }

    /** `channelActive`: the connection's handle for service implementations is created. */
    method ChannelActive()
      requires Valid()
      modifies this
      ensures Valid()
      ensures rpcServerChannel != null && fresh(rpcServerChannel)
      ensures rpcServerChannel.collector == collector && rpcServerChannel.channel == channel
      ensures serviceImplementationObjectMap == old(serviceImplementationObjectMap)
      ensures channelDisconnectReason == old(channelDisconnectReason) && keepAlive == old(keepAlive)
      ensures reportedDisconnects == old(reportedDisconnects)
    {
      rpcServerChannel := new ProtobufRpcServerChannel(collector, channel, proto);
    }

    /** `channelInactive`: the recorded reason is reported, and the reason returns to CLIENT_CLOSE. */
    method ChannelInactive()
      requires Valid()
      modifies this
      ensures Valid()
      ensures reportedDisconnects == old(reportedDisconnects) + [old(channelDisconnectReason)]
      ensures channelDisconnectReason == ClientClose
      ensures serviceImplementationObjectMap == old(serviceImplementationObjectMap)
      ensures rpcServerChannel == old(rpcServerChannel) && keepAlive == old(keepAlive)
    {
      reportedDisconnects := reportedDisconnects + [channelDisconnectReason];
      channelDisconnectReason := ClientClose;
    }

    /**
     * `exceptionCaught`: an IOException, or an exception of a subclass of it, marks the disconnect
     * as NETWORK_ERROR; nothing else changes.
     */
    method ExceptionCaught(cause: Option<Throwable>)
      requires Valid()
      modifies this
      ensures Valid()
      ensures channelDisconnectReason == if cause.Some? && IsIOException(cause.value) then NetworkError else old(channelDisconnectReason)
      ensures serviceImplementationObjectMap == old(serviceImplementationObjectMap)
      ensures rpcServerChannel == old(rpcServerChannel) && keepAlive == old(keepAlive)
      ensures reportedDisconnects == old(reportedDisconnects)
    {
      if cause.Some? && IsIOException(cause.value) {
        channelDisconnectReason := NetworkError;
      }
    }

    /** `userEventTriggered`: any idle event closes the connection as NETWORK_ERROR. */
    method UserEventTriggered(isIdleStateEvent: bool)
      requires Valid()
      modifies this, channel
      ensures Valid()
      ensures isIdleStateEvent ==> channelDisconnectReason == NetworkError && !channel.active
      ensures !isIdleStateEvent ==> channelDisconnectReason == old(channelDisconnectReason) && channel.active == old(channel.active)
      ensures channel.written == old(channel.written) && channel.keepAliveHandler == old(channel.keepAliveHandler)
      ensures serviceImplementationObjectMap == old(serviceImplementationObjectMap)
      ensures rpcServerChannel == old(rpcServerChannel) && keepAlive == old(keepAlive)
      ensures reportedDisconnects == old(reportedDisconnects)
    {
      if isIdleStateEvent {
        channelDisconnectReason := NetworkError;
        channel.Close();
      }
    }

    /**
     * `channelRead`: a REQUEST is dispatched, a KEEP_ALIVE is echoed, anything else is ignored.
     * For a request the cache is filled as `CacheAfter` says and the one reply `Dispatch` gives is
     * written.
     */
    method ChannelRead(msg: WirePacket, created: Option<ImplObject>, invoke: (ImplObject, MethodDecl, Message) -> InvokeResult)
      returns (thrown: Option<Throwable>)
      requires Valid()
      modifies this, channel
      ensures Valid()
      ensures msg.messageType == Request ==>
        var service := ImplementedService(collector.GetServiceInfoById(msg.ServiceIdentifierOrDefault().serviceIdentifier));
        var cache := CacheAfter(old(serviceImplementationObjectMap), service, created);
        var reply := Dispatch(proto, service, if service.Some? then cache[service.value.implClass.value] else None, msg, invoke);
        && serviceImplementationObjectMap == cache
        && channel.written == old(channel.written) + [reply.packet]
        && thrown == reply.thrown
        && keepAlive == old(keepAlive) && channel.keepAliveHandler == old(channel.keepAliveHandler)
      ensures msg.messageType == KeepAlive ==>
        && thrown.None? && serviceImplementationObjectMap == old(serviceImplementationObjectMap)
        && channel.written == old(channel.written) + [KeepAlivePacket()]
        && channel.keepAliveHandler
        && keepAlive == (old(keepAlive) || !old(channel.keepAliveHandler))
      ensures msg.messageType != Request && msg.messageType != KeepAlive ==>
        && thrown.None? && serviceImplementationObjectMap == old(serviceImplementationObjectMap)
        && channel.written == old(channel.written) && keepAlive == old(keepAlive)
        && channel.keepAliveHandler == old(channel.keepAliveHandler)
      ensures channel.active == old(channel.active)
      ensures rpcServerChannel == old(rpcServerChannel) && channelDisconnectReason == old(channelDisconnectReason)
      ensures reportedDisconnects == old(reportedDisconnects)
    {
      thrown := None;
      if msg.messageType == Request {
        thrown := HandleIncomingRequest(msg, created, invoke);
      } else if msg.messageType == KeepAlive {
        HandleIncomingKeepAlive();
      }
    }

    /** `getServiceImplementationObject`: the service entry and its cached object, if it has an implementation class. */
    method GetServiceImplementationObject(serviceIdentifier: int, created: Option<ImplObject>)
      returns (service: Option<RpcServiceInfo>, implObject: Option<ImplObject>)
      requires Valid()
      modifies this
      ensures Valid()
      ensures service == ImplementedService(collector.GetServiceInfoById(serviceIdentifier))
      ensures serviceImplementationObjectMap == CacheAfter(old(serviceImplementationObjectMap), service, created)
      ensures implObject == if service.Some? then serviceImplementationObjectMap[service.value.implClass.value] else None
      ensures rpcServerChannel == old(rpcServerChannel) && channelDisconnectReason == old(channelDisconnectReason)
      ensures keepAlive == old(keepAlive) && reportedDisconnects == old(reportedDisconnects)
    {
      service := ImplementedService(collector.GetServiceInfoById(serviceIdentifier));
      implObject := None;
      if service.Some? {
        var implClass := service.value.implClass.value;
        if implClass !in serviceImplementationObjectMap {
          serviceImplementationObjectMap := serviceImplementationObjectMap[implClass := created];
        }
        implObject := serviceImplementationObjectMap[implClass];
      }
    }

    /** `handleIncomingRequest`. */
    method HandleIncomingRequest(request: WirePacket, created: Option<ImplObject>, invoke: (ImplObject, MethodDecl, Message) -> InvokeResult)
      returns (thrown: Option<Throwable>)
      requires Valid()
      modifies this, channel
      ensures Valid()
      ensures var service := ImplementedService(collector.GetServiceInfoById(request.ServiceIdentifierOrDefault().serviceIdentifier));
        var cache := CacheAfter(old(serviceImplementationObjectMap), service, created);
        var reply := Dispatch(proto, service, if service.Some? then cache[service.value.implClass.value] else None, request, invoke);
        && serviceImplementationObjectMap == cache
        && channel.written == old(channel.written) + [reply.packet]
        && thrown == reply.thrown
      ensures channel.active == old(channel.active) && channel.keepAliveHandler == old(channel.keepAliveHandler)
      ensures rpcServerChannel == old(rpcServerChannel) && channelDisconnectReason == old(channelDisconnectReason)
      ensures keepAlive == old(keepAlive) && reportedDisconnects == old(reportedDisconnects)
    {
      var serviceIdentifier := request.ServiceIdentifierOrDefault();
      var service, implObject := GetServiceImplementationObject(serviceIdentifier.serviceIdentifier, created);
      var reply := Dispatch(proto, service, implObject, request, invoke);
      channel.WriteAndFlush(reply.packet);
      thrown := reply.thrown;
    }

    /** `handleIncomingKeepAlive`: the idle timer is installed once, and the keep-alive echoed. */
    method HandleIncomingKeepAlive()
      requires Valid()
      modifies this, channel
      ensures Valid()
      ensures channel.written == old(channel.written) + [KeepAlivePacket()]
      ensures channel.keepAliveHandler && channel.active == old(channel.active)
      ensures keepAlive == (old(keepAlive) || !old(channel.keepAliveHandler))
      ensures serviceImplementationObjectMap == old(serviceImplementationObjectMap)
      ensures rpcServerChannel == old(rpcServerChannel) && channelDisconnectReason == old(channelDisconnectReason)
      ensures reportedDisconnects == old(reportedDisconnects)
    {
      if !keepAlive {
        InitializeKeepAlive();
      }
      channel.WriteAndFlush(WirePacket(0, KeepAlive, None, None, None));
    }

    /** `initializeKeepAlive`: adds the idle timer unless the pipeline already has one. */
    method InitializeKeepAlive()
      requires Valid()
      modifies this, channel
      ensures Valid()
      ensures channel.keepAliveHandler && channel.active == old(channel.active) && channel.written == old(channel.written)
      ensures keepAlive == (old(keepAlive) || !old(channel.keepAliveHandler))
      ensures serviceImplementationObjectMap == old(serviceImplementationObjectMap)
      ensures rpcServerChannel == old(rpcServerChannel) && channelDisconnectReason == old(channelDisconnectReason)
      ensures reportedDisconnects == old(reportedDisconnects)
    {
      if !channel.keepAliveHandler {
        channel.AddKeepAliveHandler();
        keepAlive := true;
      }
    }
  }
}
