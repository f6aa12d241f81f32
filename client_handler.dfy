/**
 * The client pipeline's last inbound handler (RpcClientChannelHandler): it forwards decoded packets
 * to the client connection, swallows keep-alives, passes exceptions on, and reacts to idle events
 * by sending a keep-alive (writer idle) or treating the link as dead (reader idle).
 */
module ClientHandler {
  import opened Basics
  import opened Wire
  import opened Transport
  import opened ClientChannel

  datatype IdleState = ReaderIdle | WriterIdle | AllIdle

  /** A user event reaching the handler: an idle-state event or anything else. */
  datatype UserEvent = IdleStateEvent(state: IdleState) | OtherEvent

  class RpcClientChannelHandler {
    /** The channel of the handler's context. */
    const channel: Channel
    const loggingName: string
    const enableRpcLogging: bool
    var rpcClientChannel: RpcClientChannelImpl?

    /** The connection the handler forwards to sits on the handler's own channel. */
    ghost predicate Valid()
      reads this, rpcClientChannel
    {
      rpcClientChannel != null ==> rpcClientChannel.channel == channel && rpcClientChannel.Valid()
    }

    constructor (channel: Channel, loggingName: string, enableRpcLogging: bool)
      ensures Valid()
      ensures this.channel == channel && this.loggingName == loggingName && this.enableRpcLogging == enableRpcLogging
      ensures rpcClientChannel == null
    {
      this.channel := channel;
      this.loggingName := loggingName;
      this.enableRpcLogging := enableRpcLogging;
      rpcClientChannel := null;
    }

    /** `setRpcClientChannel`. */
    method SetRpcClientChannel(client: RpcClientChannelImpl)
      requires client.channel == channel && client.Valid()
      modifies this
      ensures Valid() && rpcClientChannel == client
    {
      rpcClientChannel := client;
    }

    /**
     * `channelRead`: every packet but a keep-alive goes to `receivedRpcPacket`; what that throws
     * is what the read throws (Netty passes it to `exceptionCaught`).
     */
    method ChannelRead(msg: WirePacket) returns (thrown: Option<Throwable>)
      requires Valid() && rpcClientChannel != null && rpcClientChannel.collector.Valid()
      modifies rpcClientChannel
      ensures Valid()
      ensures msg.messageType == KeepAlive ==> thrown.None? && unchanged(rpcClientChannel)
      ensures msg.messageType != KeepAlive ==> rpcClientChannel.ReceivedEffect(msg, thrown)
    {
      thrown := None;
      if msg.messageType != KeepAlive {
        thrown := rpcClientChannel.ReceivedRpcPacket(msg);
      }
    }

    /** `exceptionCaught`: handed to the connection once one is set, ignored before. */
    method ExceptionCaught(cause: Throwable)
      requires Valid()
      modifies rpcClientChannel, channel
      ensures Valid()
      ensures rpcClientChannel == null ==> unchanged(channel)
      ensures rpcClientChannel != null ==> rpcClientChannel.ChannelExceptionEffect(Some(cause))
    {
      if rpcClientChannel != null {
        rpcClientChannel.ChannelException(Some(cause));
      }
    }

    /**
     * `userEventTriggered`: writer idle sends a keep-alive frame; reader idle fails the connection
     * with IOException("Reader idle") (a NullPointerException when no connection is set yet); other
     * events are ignored.
     */
    method UserEventTriggered(evt: UserEvent) returns (thrown: Option<Throwable>)
      requires Valid()
      modifies rpcClientChannel, channel
      ensures Valid()
      ensures evt == IdleStateEvent(WriterIdle) ==>
        && thrown.None? && (rpcClientChannel != null ==> unchanged(rpcClientChannel))
        && channel.written == old(channel.written) + [KeepAlivePacket()]
        && channel.active == old(channel.active) && channel.keepAliveHandler == old(channel.keepAliveHandler)
      ensures evt == IdleStateEvent(ReaderIdle) && rpcClientChannel == null ==>
        thrown == Some(NullPointerException) && unchanged(channel)
      ensures evt == IdleStateEvent(ReaderIdle) && rpcClientChannel != null ==>
        thrown.None? && rpcClientChannel.ChannelExceptionEffect(Some(IOException("Reader idle")))
      ensures evt != IdleStateEvent(WriterIdle) && evt != IdleStateEvent(ReaderIdle) ==>
        thrown.None? && unchanged(channel) && (rpcClientChannel != null ==> unchanged(rpcClientChannel))
    {
      thrown := None;
      if evt.IdleStateEvent? {
        if evt.state == WriterIdle {
          SendKeepAlivePacket();
        } else if evt.state == ReaderIdle {
          if rpcClientChannel == null {
            thrown := Some(NullPointerException);
          } else {
            rpcClientChannel.ChannelException(Some(IOException("Reader idle")));
          }
        }
      }
    }

    /** `sendKeepAlivePacket`: message id 0, type KEEP_ALIVE. */
    method SendKeepAlivePacket()
      modifies channel
      ensures channel.written == old(channel.written) + [KeepAlivePacket()]
      ensures channel.active == old(channel.active) && channel.keepAliveHandler == old(channel.keepAliveHandler)
    {
      channel.WriteAndFlush(WirePacket(0, KeepAlive, None, None, None));
    }
  }
}
