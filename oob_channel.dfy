/**
 * The server-side handle of one client connection (ProtobufRpcServerChannel), handed to service
 * implementations: `getOobService` gives a proxy for a registered interface, and each call on the
 * proxy pushes one OOB packet to the client and returns null.
 */
module OobChannel {
  import opened Basics
  import opened Wire
  import opened Collector
  import opened Transport

  /** An OOB proxy: it pushes through the service entry it was made for. */
  datatype OobProxy = OobProxy(serviceInfo: RpcServiceInfo)

  /** The packet a push sends: message id 0, type OOB, the service and method ids, the argument's bytes. */
  function OobPacket(proto: Protobuf, info: RpcServiceInfo, methodInfo: RpcMethodInfo, arg: Message): (p: WirePacket)
    ensures p.messageIdentifier == 0 && p.messageType == Oob
    ensures p.ServiceIdentifierOrDefault() == ServiceIdentifier(info.serviceIdentifier, methodInfo.methodIdentifier)
    ensures p.PayloadOrEmpty() == proto.serializeMessage(arg) && p.crc32.None?
  {
    WirePacket(0, Oob, Some(ServiceIdentifier(info.serviceIdentifier, methodInfo.methodIdentifier)),
               Some(proto.serializeMessage(arg)), None)
  }

  /** The exception `getOobService` throws for a class the registry does not know (ProtobufRpcServerChannel.java:59-61). */
  function NotRegisteredForOob(cls: ClassDecl): Throwable {
    IllegalArgumentException("Class<" + cls.name + "> not registered for OOB handling.")
  }

  class ProtobufRpcServerChannel {
    const collector: RpcServiceCollector
    const channel: Channel
    const proto: Protobuf

    constructor (collector: RpcServiceCollector, channel: Channel, proto: Protobuf)
      ensures this.collector == collector && this.channel == channel && this.proto == proto
    {
      this.collector := collector;
      this.channel := channel;
      this.proto := proto;
    }

    /**
     * `getOobService`: a proxy for any registered class (its OOB flag is not checked), an
     * IllegalArgumentException for an unregistered one.
     */
    function GetOobService(classOfService: ClassDecl): (r: Result<OobProxy, Throwable>)
      reads collector
      ensures r.Success? <==> classOfService in collector.serviceInfoMap
      ensures r.Success? ==> r.value.serviceInfo == collector.serviceInfoMap[classOfService]
      ensures r.Failure? ==> r.error == NotRegisteredForOob(classOfService)
    {
      match collector.GetServiceInfoByClass(classOfService)
      case Some(info) => Success(OobProxy(info))
      case None => Failure(NotRegisteredForOob(classOfService))
    }

    /** A call on an OOB proxy: one OOB packet written to the connection. */
    method Push(proxy: OobProxy, rpcMethod: MethodDecl, arg: Message)
      requires rpcMethod in proxy.serviceInfo.methodMap
      modifies channel
      ensures channel.written == old(channel.written) + [OobPacket(proto, proxy.serviceInfo, proxy.serviceInfo.methodMap[rpcMethod], arg)]
      ensures channel.active == old(channel.active) && channel.keepAliveHandler == old(channel.keepAliveHandler)
    {
      var methodInfo := proxy.serviceInfo.methodMap[rpcMethod];
      channel.WriteAndFlush(OobPacket(proto, proxy.serviceInfo, methodInfo, arg));
    }
  }
}
