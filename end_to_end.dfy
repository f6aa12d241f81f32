/**
 * What the two ends promise each other. The client sends `RequestPacket`; the server answers with
 * `Dispatch`'s one reply; the client turns the reply into `CallOutcome`. A service's entry is the
 * one both sides derive from the same interface. These lemmas connect the steps: a completed call
 * returns what the implementation returned, a failed one surfaces the server's error text, both
 * survive the frame codec, and an OOB push reaches the bound handler.
 */
module EndToEnd {
  import opened Basics
  import opened Wire
  import opened Collector
  import opened Buffers
  import opened Codec
  import opened CodecProperties
  import opened ClientChannel
  import opened ServerHandler
  import opened OobChannel

  /**
   * In a well-formed entry, the method a proxy calls is also found under its identifier, with
   * the same method info: the id map the server dispatches on agrees with the method map the
   * client sends from.
   */
  lemma RegisteredMethodEntry(info: RpcServiceInfo, rpcMethod: MethodDecl)
    requires WellFormedInfo(info) && rpcMethod in info.methodMap
    ensures var methodInfo := info.methodMap[rpcMethod];
      && methodInfo.rpcMethod == rpcMethod
      && methodInfo.methodIdentifier in info.methodIdentifierMap
      && info.methodIdentifierMap[methodInfo.methodIdentifier] == methodInfo
      && methodInfo.requestMessageType == rpcMethod.parameterTypes[0].name
      && methodInfo.responseMessageType == rpcMethod.returnType.name
  {
    var ms := info.service.declaredMethods;
    assert rpcMethod in ms;
    var k :| 0 <= k < |ms| && ms[k] == rpcMethod;
    assert MethodWellFormed(ms[k]);
  }

  /**
   * A call of a registered method whose implementation returns a message of the method's
   * response class completes with exactly that message: the server parses the argument the
   * client serialized, passes it to the implementation, and the client parses the RESPONSE.
   */
  lemma CallReturnsImplementationResult(proto: Protobuf, info: RpcServiceInfo, rpcMethod: MethodDecl, messageIdentifier: int,
                                        arg: Message, implObject: ImplObject,
                                        invoke: (ImplObject, MethodDecl, Message) -> InvokeResult, result: Message)
    requires proto.MessageRoundTrip()
    requires WellFormedInfo(info) && info.implClass.Some? && rpcMethod in info.methodMap
    requires arg.typeName == info.methodMap[rpcMethod].requestMessageType
    requires invoke(implObject, rpcMethod, arg) == Returned(result)
    requires result.typeName == info.methodMap[rpcMethod].responseMessageType
    ensures var methodInfo := info.methodMap[rpcMethod];
      var request := RequestPacket(proto, info, methodInfo, messageIdentifier, arg);
      var reply := Dispatch(proto, Some(info), Some(implObject), request, invoke);
      && reply.thrown.None?
      && reply.packet.messageIdentifier == messageIdentifier
      && CallOutcome(proto, methodInfo, Some(reply.packet)) == Success(result)
  {
    var methodInfo := info.methodMap[rpcMethod];
    RegisteredMethodEntry(info, rpcMethod);
    var request := RequestPacket(proto, info, methodInfo, messageIdentifier, arg);
    assert proto.parseMessage(arg.typeName, proto.serializeMessage(arg)) == Some(arg);
    var reply := Dispatch(proto, Some(info), Some(implObject), request, invoke);
    assert reply.packet == ResponsePacket(proto, request, result);
    ResponseReturnsMessage(proto, methodInfo, reply.packet, result);
  }

  /**
   * Whenever the server cannot complete a request, the caller's proxy throws
   * RpcCallServerException carrying the server's error text, whichever method it called.
   */
  lemma FailedCallReportsServerError(proto: Protobuf, service: Option<RpcServiceInfo>, implObject: Option<ImplObject>,
                                     request: WirePacket, invoke: (ImplObject, MethodDecl, Message) -> InvokeResult,
                                     methodInfo: RpcMethodInfo)
    requires proto.ErrorMessageRoundTrip()
    requires service.Some? ==> service.value.implClass.Some?
    ensures var reply := Dispatch(proto, service, implObject, request, invoke);
      var outcome := CallOutcome(proto, methodInfo, Some(reply.packet));
      && (!Routable(service, implObject, request) ==>
            outcome == Failure(RpcCallServerException(INTERNAL_SERVER_ERROR)))
      && (Routable(service, implObject, request) && ParsedRequest(proto, service, request).None? ==>
            outcome == Failure(RpcCallServerException(UNABLE_TO_PARSE)))
      && (reply.thrown.Some? && Routable(service, implObject, request) && ParsedRequest(proto, service, request).Some? ==>
            outcome == Failure(RpcCallServerException(UNABLE_TO_PROCESS)))
  {
    var reply := Dispatch(proto, service, implObject, request, invoke);
    DispatchErrorTexts(proto, service, implObject, request, invoke);
    DispatchSucceedsIff(proto, service, implObject, request, invoke);
    if !Routable(service, implObject, request) {
      ErrorThrowsServerException(proto, methodInfo, reply.packet, INTERNAL_SERVER_ERROR);
    } else if ParsedRequest(proto, service, request).None? {
      ErrorThrowsServerException(proto, methodInfo, reply.packet, UNABLE_TO_PARSE);
    } else if reply.thrown.Some? {
      ErrorThrowsServerException(proto, methodInfo, reply.packet, UNABLE_TO_PROCESS);
    }
  }

  /**
   * A reply always carries the request's message identifier and is a RESPONSE or an ERROR, so the
   * client stores it for the waiting call and never rejects it as an invalid response.
   */
  lemma ReplyIsAnswerable(proto: Protobuf, service: Option<RpcServiceInfo>, implObject: Option<ImplObject>,
                          request: WirePacket, invoke: (ImplObject, MethodDecl, Message) -> InvokeResult,
                          methodInfo: RpcMethodInfo)
    requires service.Some? ==> service.value.implClass.Some?
    ensures var reply := Dispatch(proto, service, implObject, request, invoke);
      && reply.packet.messageIdentifier == request.messageIdentifier
      && CallOutcome(proto, methodInfo, Some(reply.packet))
         != Failure(RpcCallException("Invalid response received: " + proto.packetText(reply.packet)))
  {
    var reply := Dispatch(proto, service, implObject, request, invoke);
    StoredResponseIsNeverInvalid(proto, methodInfo, reply.packet);
  }

  /**
   * The completed call again, with both packets going through the frame codec: an idle server
   * decoder yields the request from the client's frame, and an idle client decoder yields the
   * reply from the server's frame, provided each serialized packet fits its receiver's limit.
   */
  lemma CallOverTheWire(serverCfg: CodecConfig, serverState: DecoderState, clientCfg: CodecConfig, clientState: DecoderState,
                        info: RpcServiceInfo, rpcMethod: MethodDecl, messageIdentifier: int, arg: Message,
                        implObject: ImplObject, invoke: (ImplObject, MethodDecl, Message) -> InvokeResult, result: Message)
    requires serverCfg.proto == clientCfg.proto
    requires Inv(serverCfg, serverState) && Idle(serverState) && Inv(clientCfg, clientState) && Idle(clientState)
    requires serverCfg.proto.PacketRoundTrip() && serverCfg.proto.MessageRoundTrip()
    requires WellFormedInfo(info) && info.implClass.Some? && rpcMethod in info.methodMap
    requires arg.typeName == info.methodMap[rpcMethod].requestMessageType
    requires invoke(implObject, rpcMethod, arg) == Returned(result)
    requires result.typeName == info.methodMap[rpcMethod].responseMessageType
    requires var proto := serverCfg.proto;
      var request := RequestPacket(proto, info, info.methodMap[rpcMethod], messageIdentifier, arg);
      var reply := Dispatch(proto, Some(info), Some(implObject), request, invoke);
      && 1 <= |proto.serializePacket(request)| <= serverCfg.maxReceivePacketLength
      && 1 <= |proto.serializePacket(reply.packet)| <= clientCfg.maxReceivePacketLength
    ensures var proto := serverCfg.proto;
      var methodInfo := info.methodMap[rpcMethod];
      var request := RequestPacket(proto, info, methodInfo, messageIdentifier, arg);
      var atServer := DecodeSpec(serverCfg, serverState, BufState(Frame(proto.serializePacket(request)), 0));
      && atServer.outcome.Decoded?
      && var reply := Dispatch(proto, Some(info), Some(implObject), atServer.outcome.packet, invoke);
         var atClient := DecodeSpec(clientCfg, clientState, BufState(Frame(proto.serializePacket(reply.packet)), 0));
         && atClient.outcome.Decoded?
         && CallOutcome(proto, methodInfo, Some(atClient.outcome.packet)) == Success(result)
  {
    var proto := serverCfg.proto;
    var methodInfo := info.methodMap[rpcMethod];
    var request := RequestPacket(proto, info, methodInfo, messageIdentifier, arg);
    EncodeDecodeRoundTrip(serverCfg, serverState, request);
    var reply := Dispatch(proto, Some(info), Some(implObject), request, invoke);
    CallReturnsImplementationResult(proto, info, rpcMethod, messageIdentifier, arg, implObject, invoke, result);
    EncodeDecodeRoundTrip(clientCfg, clientState, reply.packet);
  }

  /**
   * An OOB push of a registered method reaches the client as exactly one delivery: to the handler
   * bound to the service class, for the pushed method, with the pushed message.
   */
  lemma OobPushDelivered(proto: Protobuf, info: RpcServiceInfo, rpcMethod: MethodDecl, arg: Message,
                         oobHandlerMap: map<ClassDecl, OobHandler>)
    requires proto.MessageRoundTrip()
    requires WellFormedInfo(info) && rpcMethod in info.methodMap && info.service in oobHandlerMap
    requires arg.typeName == info.methodMap[rpcMethod].requestMessageType
    ensures var push := OobPacket(proto, info, info.methodMap[rpcMethod], arg);
      OobDeliveries(proto, OobTarget(Some(info), oobHandlerMap, push), push)
        == [OobDelivery(oobHandlerMap[info.service], rpcMethod, arg)]
  {
    RegisteredMethodEntry(info, rpcMethod);
    assert proto.parseMessage(arg.typeName, proto.serializeMessage(arg)) == Some(arg);
  }
}
