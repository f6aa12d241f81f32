/**
 * A Netty channel reduced to what the core observes: whether it is active, the frames written to
 * it in order, and whether its pipeline holds a "keep-alive" idle-state handler. Socket I/O,
 * flushing and event-loop scheduling are not modelled.
 */
module Transport {
  import opened Wire

  class Channel {
    var active: bool
    var written: seq<WirePacket>
    var keepAliveHandler: bool

    constructor (withKeepAlive: bool)
      ensures active && written == [] && keepAliveHandler == withKeepAlive
    {
      active := true;
      written := [];
      keepAliveHandler := withKeepAlive;
    }

    /**
     * `writeAndFlush`: the frame is appended to what the channel has written. The write is
     * recorded even on an inactive channel, where Netty fails it, so `written` is what was handed
     * to the channel, not what was delivered.
     */
    method WriteAndFlush(p: WirePacket)
      modifies this
      ensures written == old(written) + [p]
      ensures active == old(active) && keepAliveHandler == old(keepAliveHandler)
    {
      written := written + [p];
    }

    /** `close().syncUninterruptibly()`: the channel becomes inactive; closing twice is harmless. */
    method Close()
      modifies this
      ensures !active
      ensures written == old(written) && keepAliveHandler == old(keepAliveHandler)
    {
      active := false;
    }

    /** `pipeline().addBefore("handler", "keep-alive", new IdleStateHandler(...))`. */
    method AddKeepAliveHandler()
      modifies this
      ensures keepAliveHandler
      ensures active == old(active) && written == old(written)
    {
      keepAliveHandler := true;
    }
  }
}
