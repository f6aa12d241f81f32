/**
 * RpcServerChannel: an older copy of the server-side connection handle with the same behaviour as
 * ProtobufRpcServerChannel (a proxy for any registered interface, one OOB packet per call).
 */
module LegacyServerChannel {
  import opened Basics
  import opened Wire
  import opened Collector
  import opened Transport
  import opened OobChannel

  class RpcServerChannel {
    const collector: RpcServiceCollector
    const channel: Channel
    const proto: Protobuf

    constructor (collector: RpcServiceCollector, channel: Channel, proto: Protobuf)
      ensures this.collector == collector && this.channel == channel && this.proto == proto
    {
      this.collector := collector;
      this.channel := channel;
      this.proto := proto;
    }

    /** `getOobService`: a proxy for any registered class, an IllegalArgumentException otherwise. */
    function GetOobService(classOfService: ClassDecl): (r: Result<OobProxy, Throwable>)
      reads collector
      ensures r.Success? <==> classOfService in collector.serviceInfoMap
      ensures r.Success? ==> r.value.serviceInfo == collector.serviceInfoMap[classOfService]
      ensures r.Failure? ==> r.error == NotRegisteredForOob(classOfService)
    {
      if classOfService in collector.serviceInfoMap then
        Success(OobProxy(collector.serviceInfoMap[classOfService]))
      else
        Failure(NotRegisteredForOob(classOfService))
    }

    /** A call on an OOB proxy: one OOB packet written to the connection. */
    method Push(proxy: OobProxy, rpcMethod: MethodDecl, arg: Message)
      requires rpcMethod in proxy.serviceInfo.methodMap
      modifies channel
      ensures channel.written == old(channel.written) + [OobPacket(proto, proxy.serviceInfo, proxy.serviceInfo.methodMap[rpcMethod], arg)]
      ensures channel.active == old(channel.active) && channel.keepAliveHandler == old(channel.keepAliveHandler)
    {
      channel.WriteAndFlush(OobPacket(proto, proxy.serviceInfo, proxy.serviceInfo.methodMap[rpcMethod], arg));
    }
  }
}
