/**
 * What the frame decoder does with whole frames, short buffers, misaligned data, oversized frames
 * and payloads that arrive in pieces, stated on `DecodeSpec` (and so, through the `ensures` of
 * `RpcMessageCodec.Decode`, on the codec object).
 */
module CodecProperties {
  import opened Basics
  import opened Wire
  import opened Buffers
  import opened Codec

  /** The header fields of a frame at the start of a byte sequence. */
  lemma {:induction false} FrameHeader(bytes: seq<uint8>, m: ByteArray)
    requires Frame(m) <= bytes
    ensures |bytes| >= 8 + |m|
    ensures Int32At(bytes, 0) == PACKET_SIGNATURE && Int32At(bytes, 4) == |m|
    ensures bytes[8..8 + |m|] == m
  {
    var f := Frame(m);
    assert bytes[..|f|] == f;
    assert bytes[0..4] == f[..4];
    assert bytes[4..8] == f[4..8];
    Int32RoundTrip(PACKET_SIGNATURE, bytes, 0);
    Int32RoundTrip(|m|, bytes, 4);
    assert bytes[8..8 + |m|] == f[8..];
  }

  /** A frame at the reader index of an uncompacted-free buffer is seen by the signature search. */
  lemma {:induction false} FrameSignatureSeen(b: BufState, m: ByteArray)
    requires b.Valid() && b.readerIndex == 0 && Frame(m) <= b.bytes
    ensures SignaturePresent(b)
  {
    FrameHeader(b.bytes, m);
    assert SignatureAtOffset(b, 0);
  }

  /**
   * Encode/decode round trip: a fresh decoder given a buffer that starts with the frame of a
   * packet whose serialized size n satisfies 1 <= n <= max returns that packet, consumes exactly
   * the 8 + n bytes of the frame and is idle again.
   */
  lemma {:induction false} DecodeEncodedFrame(cfg: CodecConfig, st: DecoderState, b: BufState, p: WirePacket)
    requires Inv(cfg, st) && Idle(st) && b.Valid() && b.readerIndex == 0
    requires cfg.proto.PacketRoundTrip() && CrcConsistent(cfg.proto, p)
    requires var m := cfg.proto.serializePacket(p);
      1 <= |m| <= cfg.maxReceivePacketLength && Frame(m) <= b.bytes
    ensures var s := DecodeSpec(cfg, st, b);
      && s.outcome == Decoded(p)
      && Idle(s.state)
      && s.buf == BufState(b.bytes, 8 + |cfg.proto.serializePacket(p)|)
  {
    var m := cfg.proto.serializePacket(p);
    FrameHeader(b.bytes, m);
    FrameSignatureSeen(b, m);
    var b2 := b.DiscardRead();
    assert b2 == b by { assert b.bytes[0..] == b.bytes; }
    var buffer := b2.Skip(8).bytes[8..8 + |m|] + st.readBuffer[|m|..];
    assert buffer[..|m|] == m;
  }

  /** Through the codec object: what `Encode` writes into an empty buffer, `Decode` gives back. */
  lemma {:induction false} EncodeDecodeRoundTrip(cfg: CodecConfig, st: DecoderState, p: WirePacket)
    requires Inv(cfg, st) && Idle(st)
    requires cfg.proto.PacketRoundTrip() && CrcConsistent(cfg.proto, p)
    requires 1 <= |cfg.proto.serializePacket(p)| <= cfg.maxReceivePacketLength
    ensures var f := Frame(cfg.proto.serializePacket(p));
      var s := DecodeSpec(cfg, st, BufState(f, 0));
      s.outcome == Decoded(p) && Idle(s.state) && s.buf.Readable() == 0
  {
    var f := Frame(cfg.proto.serializePacket(p));
    DecodeEncodedFrame(cfg, st, BufState(f, 0), p);
  }

  /**
   * Fewer than nine bytes (a header not yet complete, or the whole frame of an empty packet)
   * produce nothing and leave the buffer exactly as it was: neither signature nor length is
   * consumed, and an empty packet waits for one more byte.
   */
  lemma {:induction false} ShortBufferWaits(cfg: CodecConfig, st: DecoderState, b: BufState)
    requires Inv(cfg, st) && Idle(st) && b.Valid() && b.readerIndex == 0 && |b.bytes| <= 8
    ensures DecodeSpec(cfg, st, b) == Step(NoPacket, st, b)
  {
    assert b.DiscardRead() == b by { assert b.bytes[0..] == b.bytes; }
  }

  lemma EmptyPacketWaits(cfg: CodecConfig, st: DecoderState, p: WirePacket)
    requires Inv(cfg, st) && Idle(st) && |cfg.proto.serializePacket(p)| == 0
    ensures var b := BufState(Frame(cfg.proto.serializePacket(p)), 0);
      DecodeSpec(cfg, st, b) == Step(NoPacket, st, b)
  {
    ShortBufferWaits(cfg, st, BufState(Frame(cfg.proto.serializePacket(p)), 0));
  }

  /**
   * No signature in the searched range: nothing is decoded and the state is unchanged. The reader
   * index saved before the search is restored into the compacted buffer, so at reader index 0 no
   * unread byte is consumed, while at reader index r > 0 the first r unread bytes are skipped, or
   * IndexOutOfBoundsException is thrown when fewer than r bytes are unread.
   */
  lemma {:induction false} MissingSignature(cfg: CodecConfig, st: DecoderState, b: BufState)
    requires Inv(cfg, st) && Idle(st) && b.Valid() && !SignaturePresent(b)
    ensures var s := DecodeSpec(cfg, st, b);
      && s.state == st
      && (b.readerIndex <= b.Readable() ==> s.outcome == NoPacket && s.buf.Unread() == b.Unread()[b.readerIndex..])
      && (b.readerIndex > b.Readable() ==> s.outcome == Failed(ReaderIndexOutOfBounds(b.readerIndex)) && s.buf.Unread() == b.Unread())
      && (b.readerIndex == 0 ==> s.buf == b)
  {
    if b.readerIndex == 0 {
      assert b.bytes[0..] == b.bytes;
    }
  }

  /**
   * The signature is only searched for, not aligned to: one stray byte in front of a frame makes
   * the decoder read the header one byte late, so the length is at least 0x6400_0000 and the frame
   * is either swallowed by the discard policy or rejected as too long.
   */
  lemma {:induction false} StrayByteLosesFrame(cfg: CodecConfig, st: DecoderState, stray: uint8, m: ByteArray)
    requires Inv(cfg, st) && Idle(st) && cfg.maxReceivePacketLength < 0x6400_0000
    requires |m| <= cfg.maxReceivePacketLength
    ensures var s := DecodeSpec(cfg, st, BufState([stray] + Frame(m), 0));
      && (cfg.discardLargerPacket ==> s.outcome == NoPacket && s.state.discardLength > 0 && s.buf.Readable() == 0)
      && (!cfg.discardLargerPacket ==> s.outcome.Failed? && s.outcome.error.TooLongFrame?)
  {
    var bytes := [stray] + Frame(m);
    var b := BufState(bytes, 0);
    StrayByteHeader(stray, m);
    assert b.DiscardRead() == b by { assert bytes[0..] == bytes; }
  }

  /**
   * After one stray byte the signature is found at offset 1, and the four bytes read as the
   * length start with the signature's last byte 0x64.
   */
  lemma {:induction false} StrayByteHeader(stray: uint8, m: ByteArray)
    ensures var bytes := [stray] + Frame(m);
      && SignatureAtOffset(BufState(bytes, 0), 1) && Int32At(bytes, 4) >= 0x6400_0000
  {
    var bytes := [stray] + Frame(m);
    assert Frame(m) <= bytes[1..];
    FrameHeader(bytes[1..], m);
    assert bytes[1..][0..4] == bytes[1..5];
    assert Int32At(bytes, 1) == Int32At(bytes[1..], 0);
    assert bytes[4] == Int32Bytes(PACKET_SIGNATURE)[3] == 0x64;
  }

  /**
   * The discard counter of an oversized frame: each call skips min(counter, readable) bytes and
   * returns nothing while the counter is positive; the header branch runs again only once the
   * counter reaches 0, on the bytes after the skipped ones.
   */
  lemma {:induction false} DiscardStep(cfg: CodecConfig, st: DecoderState, b: BufState)
    requires Inv(cfg, st) && b.Valid() && st.discardLength > 0
    ensures var s := DecodeSpec(cfg, st, b);
      && (st.discardLength > b.Readable() ==>
            s == Step(NoPacket, st.(discardLength := st.discardLength - b.Readable()), b.Skip(b.Readable())))
      && (st.discardLength <= b.Readable() ==>
            s == HeaderPhase(cfg, st.(discardLength := 0), b.Skip(st.discardLength)))
  {
  }

  /** The header of a frame with declared length `len`, followed by `rest`. */
  function Header(len: int32, rest: seq<uint8>): seq<uint8> {
    Int32Bytes(PACKET_SIGNATURE) + Int32Bytes(len) + rest
  }

  /**
   * A declared length above the maximum: with the discard policy, the counter plus the bytes
   * skipped now is exactly the declared length, and nothing is returned; otherwise the call fails
   * with TooLongFrameException, having consumed the 8 header bytes.
   */
  lemma {:induction false} OversizedFrame(cfg: CodecConfig, st: DecoderState, len: int32, rest: seq<uint8>)
    requires Inv(cfg, st) && Idle(st) && len > cfg.maxReceivePacketLength && |rest| >= 1
    ensures var b := BufState(Header(len, rest), 0);
      var s := DecodeSpec(cfg, st, b);
      && (cfg.discardLargerPacket ==>
            s.outcome == NoPacket && s.state.discardLength + (s.buf.readerIndex - 8) == len
            && s.buf.readerIndex - 8 == Min(len, |rest|))
      && (!cfg.discardLargerPacket ==> s == Step(Failed(TooLongFrame(len)), st, BufState(b.bytes, 8)))
  {
    var bytes := Header(len, rest);
    var b := BufState(bytes, 0);
    assert bytes[0..4] == Int32Bytes(PACKET_SIGNATURE);
    assert bytes[4..8] == Int32Bytes(len);
    Int32RoundTrip(PACKET_SIGNATURE, bytes, 0);
    Int32RoundTrip(len, bytes, 4);
    assert SignatureAtOffset(b, 0);
    assert b.DiscardRead() == b by { assert bytes[0..] == bytes; }
  }

  /**
   * A frame whose header is complete but whose payload is not: the header is consumed, nothing is
   * copied yet, and the decoder expects the whole declared length.
   */
  lemma {:induction false} PartialFrameStarts(cfg: CodecConfig, st: DecoderState, m: ByteArray, k: nat)
    requires Inv(cfg, st) && Idle(st) && |m| <= cfg.maxReceivePacketLength
    requires 8 < k < 8 + |m|
    ensures var s := DecodeSpec(cfg, st, BufState(Frame(m)[..k], 0));
      && s.outcome == NoPacket
      && s.state == st.(isReadingPacket := true, readBufferPosition := 0, readLengthRemaining := |m|)
      && s.buf == BufState(Frame(m)[..k], 8)
  {
    var bytes := Frame(m)[..k];
    var b := BufState(bytes, 0);
    assert bytes[0..4] == Int32Bytes(PACKET_SIGNATURE);
    assert bytes[4..8] == Int32Bytes(|m|);
    Int32RoundTrip(PACKET_SIGNATURE, bytes, 0);
    Int32RoundTrip(|m|, bytes, 4);
    assert SignatureAtOffset(b, 0);
    assert b.DiscardRead() == b by { assert bytes[0..] == bytes; }
  }

  /**
   * One call while a payload is incomplete: min(readable, remaining) bytes are appended at the
   * current position, position + remaining stays the declared length, and on completion the
   * accumulated payload is processed and the state is cleared whatever processing returns.
   */
  lemma {:induction false} PartialFrameStep(cfg: CodecConfig, st: DecoderState, b: BufState)
    requires Inv(cfg, st) && st.isReadingPacket && b.Valid()
    ensures var s := DecodeSpec(cfg, st, b);
      && (b.Readable() >= st.readLengthRemaining ==>
            && s.outcome == PacketOutcome(ProcessPacket(cfg.proto,
                 st.readBuffer[..st.readBufferPosition] + b.Unread()[..st.readLengthRemaining]))
            && Idle(s.state)
            && s.buf == b.Skip(st.readLengthRemaining))
      && (b.Readable() < st.readLengthRemaining ==>
            && s.outcome == NoPacket
            && s.state.isReadingPacket
            && s.state.readBufferPosition + s.state.readLengthRemaining == st.readBufferPosition + st.readLengthRemaining
            && s.state.readBuffer[..s.state.readBufferPosition] == st.readBuffer[..st.readBufferPosition] + b.Unread()
            && s.buf.Readable() == 0)
  {
    var n := Min(b.Readable(), st.readLengthRemaining);
    var pos := st.readBufferPosition;
    var chunk := b.bytes[b.readerIndex..b.readerIndex + n];
    var buffer := st.readBuffer[..pos] + chunk + st.readBuffer[pos + n..];
    assert buffer[..pos + n] == st.readBuffer[..pos] + chunk;
    assert chunk == b.Unread()[..n];
    if b.Readable() < st.readLengthRemaining {
      assert b.Unread()[..n] == b.Unread();
    }
  }

  /** Concatenation of the chunks that arrive from the network. */
  function Flatten(chunks: seq<seq<uint8>>): (f: seq<uint8>)
    ensures |chunks| > 0 ==> f == chunks[0] + Flatten(chunks[1..])
  {
    if |chunks| == 0 then [] else chunks[0] + Flatten(chunks[1..])
  }

  /**
   * Netty's cumulation buffer as the decoder sees it: each arriving chunk is appended to the bytes
   * still held and `decode` is called once. The result is the step of the last call.
   */
  function Arrivals(cfg: CodecConfig, st: DecoderState, b: BufState, chunks: seq<seq<uint8>>): (s: Step)
    requires Inv(cfg, st) && b.Valid() && |chunks| > 0
    ensures Inv(cfg, s.state) && s.buf.Valid()
    decreases |chunks|
  {
    var s := DecodeSpec(cfg, st, BufState(b.bytes + chunks[0], b.readerIndex));
    if |chunks| == 1 then s else Arrivals(cfg, s.state, s.buf, chunks[1..])
  }

  /**
   * A payload completed by any number of non-empty chunks: nothing is returned until the last
   * byte arrives; then the packet is processed from exactly the bytes accumulated so far, the
   * bytes already held and every chunk, in order.
   */
  lemma {:induction false} PartialFrameReassembles(cfg: CodecConfig, st: DecoderState, b: BufState, chunks: seq<seq<uint8>>)
    requires Inv(cfg, st) && st.isReadingPacket && b.Valid() && |chunks| > 0
    requires forall i | 0 <= i < |chunks| :: |chunks[i]| > 0
    requires b.Readable() + |Flatten(chunks)| == st.readLengthRemaining
    ensures var s := Arrivals(cfg, st, b, chunks);
      && s.outcome == PacketOutcome(ProcessPacket(cfg.proto,
           st.readBuffer[..st.readBufferPosition] + b.Unread() + Flatten(chunks)))
      && Idle(s.state)
      && s.buf.Readable() == 0
    decreases |chunks|
  {
    var b1 := BufState(b.bytes + chunks[0], b.readerIndex);
    assert b1.Unread() == b.Unread() + chunks[0];
    PartialFrameStep(cfg, st, b1);
    var s1 := DecodeSpec(cfg, st, b1);
    if |chunks| == 1 {
      assert Flatten(chunks) == chunks[0];
      assert b1.Unread()[..st.readLengthRemaining] == b1.Unread();
      assert st.readBuffer[..st.readBufferPosition] + b.Unread() + chunks[0]
          == st.readBuffer[..st.readBufferPosition] + b1.Unread();
    } else {
      assert |Flatten(chunks[1..])| >= |chunks[1]| > 0 by {
        assert Flatten(chunks[1..]) == chunks[1] + Flatten(chunks[2..]);
      }
      assert forall i | 0 <= i < |chunks[1..]| :: |chunks[1..][i]| > 0 by {
        forall i | 0 <= i < |chunks[1..]| ensures |chunks[1..][i]| > 0 {
          assert chunks[1..][i] == chunks[i + 1];
        }
      }
      var acc := st.readBuffer[..st.readBufferPosition];
      assert b1.Readable() < st.readLengthRemaining;
      assert s1.state.readBuffer[..s1.state.readBufferPosition] == acc + (b.Unread() + chunks[0]);
      assert s1.buf.Unread() == [];
      PartialFrameReassembles(cfg, s1.state, s1.buf, chunks[1..]);
      Regroup(acc, b.Unread(), chunks[0], Flatten(chunks[1..]),
              s1.state.readBuffer[..s1.state.readBufferPosition], s1.buf.Unread());
    }
  }

  lemma Regroup(acc: seq<uint8>, held: seq<uint8>, first: seq<uint8>, rest: seq<uint8>, x: seq<uint8>, y: seq<uint8>)
    requires x == acc + (held + first) && y == []
    ensures x + y + rest == acc + held + (first + rest)
  {
  }

  /**
   * A frame split anywhere after its header into a first part and further non-empty chunks is
   * decoded, when its last chunk arrives, into the packet that was encoded.
   */
  lemma {:induction false} SplitFrameDecodes(cfg: CodecConfig, st: DecoderState, p: WirePacket, k: nat, chunks: seq<seq<uint8>>)
    requires Inv(cfg, st) && Idle(st)
    requires cfg.proto.PacketRoundTrip() && CrcConsistent(cfg.proto, p)
    requires var m := cfg.proto.serializePacket(p);
      |m| <= cfg.maxReceivePacketLength && 8 < k < 8 + |m|
      && Frame(m)[..k] + Flatten(chunks) == Frame(m)
    requires |chunks| > 0 && forall i | 0 <= i < |chunks| :: |chunks[i]| > 0
    ensures var s1 := DecodeSpec(cfg, st, BufState(Frame(cfg.proto.serializePacket(p))[..k], 0));
      s1.outcome == NoPacket && Arrivals(cfg, s1.state, s1.buf, chunks).outcome == Decoded(p)
  {
    var m := cfg.proto.serializePacket(p);
    var f := Frame(m);
    PartialFrameStarts(cfg, st, m, k);
    var s1 := DecodeSpec(cfg, st, BufState(f[..k], 0));
    assert |f[..k]| + |Flatten(chunks)| == |f|;
    PartialFrameReassembles(cfg, s1.state, s1.buf, chunks);
    SplitTail(f, k, Flatten(chunks), s1.state.readBuffer[..s1.state.readBufferPosition], s1.buf.Unread());
    ProcessEncoded(cfg.proto, p);
  }

  lemma SplitTail(f: seq<uint8>, k: nat, rest: seq<uint8>, acc: seq<uint8>, held: seq<uint8>)
    requires 8 <= k <= |f| && f[..k] + rest == f && acc == [] && held == f[..k][8..]
    ensures acc + held + rest == f[8..]
  {
    assert held == f[8..k];
    assert f[8..] == (f[..k] + rest)[8..];
  }

  /** The packet processed from its own serialization is the packet, when its crc is consistent. */
  lemma ProcessEncoded(proto: Protobuf, p: WirePacket)
    requires proto.PacketRoundTrip() && CrcConsistent(proto, p)
    ensures PacketOutcome(ProcessPacket(proto, proto.serializePacket(p))) == Decoded(p)
  {
  }

  /**
   * Two frames in one buffer, as they arrive back to back: after the first is decoded the reader
   * index is 8 + |m1|, which the signature search subtracts twice. The second frame is then
   * decoded only when its packet is more than 4 bytes longer than the first; when the two have
   * equal length the second is skipped entirely, and when it is shorter the call throws.
   */
  lemma {:induction false} SecondFrame(cfg: CodecConfig, st: DecoderState, p1: WirePacket, p2: WirePacket)
    requires Inv(cfg, st) && Idle(st)
    requires cfg.proto.PacketRoundTrip() && CrcConsistent(cfg.proto, p1) && CrcConsistent(cfg.proto, p2)
    requires var m1 := cfg.proto.serializePacket(p1); var m2 := cfg.proto.serializePacket(p2);
      1 <= |m1| <= cfg.maxReceivePacketLength && 1 <= |m2| <= cfg.maxReceivePacketLength
    ensures var m1 := cfg.proto.serializePacket(p1); var m2 := cfg.proto.serializePacket(p2);
      var s1 := DecodeSpec(cfg, st, BufState(Frame(m1) + Frame(m2), 0));
      var s2 := DecodeSpec(cfg, s1.state, s1.buf);
      && s1.outcome == Decoded(p1)
      && (|m2| > |m1| + 4 ==> s2.outcome == Decoded(p2))
      && (|m1| <= |m2| <= |m1| + 4 ==> s2.outcome == NoPacket && s2.buf.Readable() == |m2| - |m1|)
      && (|m2| < |m1| ==> s2.outcome == Failed(ReaderIndexOutOfBounds(8 + |m1|)))
  {
    var m1 := cfg.proto.serializePacket(p1);
    var m2 := cfg.proto.serializePacket(p2);
    var b := BufState(Frame(m1) + Frame(m2), 0);
    assert Frame(m1) <= b.bytes by { assert b.bytes[..|Frame(m1)|] == Frame(m1); }
    DecodeEncodedFrame(cfg, st, b, p1);
    var s1 := DecodeSpec(cfg, st, b);
    assert s1 == Step(Decoded(p1), s1.state, BufState(Frame(m1) + Frame(m2), |Frame(m1)|));
    FrameAfterFrame(cfg, s1.state, m1, p2);
  }

  /** The call after the first of two back-to-back frames was decoded: the three cases of `SecondFrame`. */
  lemma {:induction false} FrameAfterFrame(cfg: CodecConfig, st: DecoderState, m1: ByteArray, p2: WirePacket)
    requires Inv(cfg, st) && Idle(st)
    requires cfg.proto.PacketRoundTrip() && CrcConsistent(cfg.proto, p2)
    requires var m2 := cfg.proto.serializePacket(p2);
      1 <= |m1| <= cfg.maxReceivePacketLength && 1 <= |m2| <= cfg.maxReceivePacketLength
    ensures var m2 := cfg.proto.serializePacket(p2);
      var s2 := DecodeSpec(cfg, st, BufState(Frame(m1) + Frame(m2), |Frame(m1)|));
      && (|m2| > |m1| + 4 ==> s2.outcome == Decoded(p2))
      && (|m1| <= |m2| <= |m1| + 4 ==> s2.outcome == NoPacket && s2.buf.Readable() == |m2| - |m1|)
      && (|m2| < |m1| ==> s2.outcome == Failed(ReaderIndexOutOfBounds(8 + |m1|)))
  {
    var m2 := cfg.proto.serializePacket(p2);
    var f1, f2 := Frame(m1), Frame(m2);
    var b1 := BufState(f1 + f2, |f1|);
    assert b1.DiscardRead() == BufState(f2, 0) by { assert (f1 + f2)[|f1|..] == f2; }
    assert SearchLimit(b1) == |m2| - |m1| - 4;
    if |m2| > |m1| + 4 {
      assert SignatureAtOffset(b1, 0) by {
        FrameHeader(f2, m2);
        assert (f1 + f2)[|f1|..|f1| + 4] == f2[0..4];
        assert Int32At(f1 + f2, |f1|) == Int32At(f2, 0);
      }
      DecodeEncodedFrame(cfg, st, BufState(f2, 0), p2);
    } else {
      assert !SignaturePresent(b1);
    }
  }
}
