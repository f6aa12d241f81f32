/**
 * The frame codec (RpcMessageCodec). A frame is a 4-byte signature, a 4-byte length n and the n
 * bytes of a serialized WirePacket. Decoding is a resumable state machine over the inbound buffer:
 * an oversized-frame discard counter, a partial-payload accumulator, and a signature search
 * followed by header parsing. `DecodeSpec` states one `decode` call on values; the class
 * `RpcMessageCodec` holds the decoder's fields and its `Decode` method is proved to do exactly
 * what `DecodeSpec` says.
 */
module Codec {
  import opened Basics
  import opened Wire
  import opened Buffers

  /** 0xad04ef64 as a Java int. */
  const PACKET_SIGNATURE: int32 := 0xad04ef64 - 0x1_0000_0000

  /** What `encode` writes for a packet serialized to `messageBytes`. */
  function Frame(messageBytes: ByteArray): (f: seq<uint8>)
    ensures |f| == 8 + |messageBytes|
    ensures f[..4] == Int32Bytes(PACKET_SIGNATURE) && f[4..8] == Int32Bytes(|messageBytes|)
    ensures f[8..] == messageBytes
  {
    Int32Bytes(PACKET_SIGNATURE) + Int32Bytes(|messageBytes|) + messageBytes
  }

  /**
   * What the codec's constructor throws: `new byte[n]` with a negative n throws
   * NegativeArraySizeException before anything else is checked; then enabling either kind of
   * logging without a logging name is refused.
   */
  function CodecConstructionError(maxLength: int32, loggingName: Option<string>, encodeLogging: bool, decodeLogging: bool)
    : (r: Option<Throwable>)
    ensures r.None? <==> maxLength >= 0 && (loggingName.Some? || !(encodeLogging || decodeLogging))
    ensures maxLength < 0 ==> r == Some(NegativeArraySizeException)
    ensures maxLength >= 0 && r.Some? ==> r == Some(IllegalArgumentException("Logging name not provided."))
  {
    if maxLength < 0 then Some(NegativeArraySizeException)
    else if loggingName.None? && (encodeLogging || decodeLogging) then Some(IllegalArgumentException("Logging name not provided."))
    else None
  }

  /** The codec's constructor arguments that decoding depends on. */
  datatype CodecConfig = CodecConfig(maxReceivePacketLength: int32, discardLargerPacket: bool, proto: Protobuf)

  /** The decoder fields that persist between `decode` calls; `readBuffer` is the array's contents. */
  datatype DecoderState = DecoderState(
    discardLength: int,
    isReadingPacket: bool,
    readBuffer: seq<uint8>,
    readBufferPosition: int,
    readLengthRemaining: int)

  /**
   * The decoder invariant: the discard counter is never negative; the read buffer has the maximum
   * packet length as its size; while a payload is being accumulated, position + remaining is the
   * declared length, at most that size, with something still to read, and nothing is being
   * discarded; otherwise position and remaining are both 0.
   */
  ghost predicate Inv(cfg: CodecConfig, st: DecoderState) {
    && cfg.maxReceivePacketLength >= 0
    && st.discardLength >= 0
    && |st.readBuffer| == cfg.maxReceivePacketLength
    && (st.isReadingPacket ==>
          0 <= st.readBufferPosition && 0 < st.readLengthRemaining
          && st.readBufferPosition + st.readLengthRemaining <= cfg.maxReceivePacketLength)
    && (!st.isReadingPacket ==> st.readBufferPosition == 0 && st.readLengthRemaining == 0)
    && (st.isReadingPacket ==> st.discardLength == 0)
  }

  /** Neither discarding nor accumulating: the state a fresh codec starts in. */
  predicate Idle(st: DecoderState) {
    st.discardLength == 0 && !st.isReadingPacket && st.readBufferPosition == 0 && st.readLengthRemaining == 0
  }

  datatype DecodeError =
    | TooLongFrame(frameLength: int)
    | IllegalLength(length: int)
    | ReaderIndexOutOfBounds(index: int)

  /** What one `decode` call does: nothing, one packet, or an exception. */
  datatype DecodeOutcome = NoPacket | Decoded(packet: WirePacket) | Failed(error: DecodeError)

  datatype Step = Step(outcome: DecodeOutcome, state: DecoderState, buf: BufState)

  /** `processPacket` returning null is no packet. */
  function PacketOutcome(r: Option<WirePacket>): (o: DecodeOutcome)
    ensures o.NoPacket? <==> r.None?
    ensures r.Some? ==> o == Decoded(r.value)
  {
    match r
    case None => NoPacket
    case Some(p) => Decoded(p)
  }

  /**
   * `processPacket`: parse the payload bytes; when the packet carries both a payload and a crc32,
   * reject it unless the provided crc, masked to an unsigned 32-bit value, equals the computed one.
   */
  function ProcessPacket(proto: Protobuf, bytes: seq<uint8>): (r: Option<WirePacket>)
    ensures r.Some? ==> proto.parsePacket(bytes) == r
    ensures r.None? <==>
      (|| proto.parsePacket(bytes).None?
       || (var p := proto.parsePacket(bytes).value;
           p.payload.Some? && p.crc32.Some? && UnsignedInt32(p.crc32.value) != proto.crc32(p.payload.value)))
  {
    match proto.parsePacket(bytes)
    case None => None
    case Some(p) =>
      if p.payload.Some? && p.crc32.Some? && UnsignedInt32(p.crc32.value) != proto.crc32(p.payload.value)
      then None
      else Some(p)
  }

  /** A packet whose crc32, when it has both a payload and a crc32, matches the payload. */
  predicate CrcConsistent(proto: Protobuf, p: WirePacket) {
    p.payload.Some? && p.crc32.Some? ==> UnsignedInt32(p.crc32.value) == proto.crc32(p.payload.value)
  }

  /**
   * The scan bound of `findPacketSignature`: (readableBytes - 4) - readerIndex. The reader index is
   * subtracted although readableBytes already excludes it.
   */
  function SearchLimit(b: BufState): (r: int)
    requires b.Valid()
    ensures r <= b.Readable() - 4
    ensures r == b.Readable() - 4 <==> b.readerIndex == 0
  {
    (b.Readable() - 4) - b.readerIndex
  }

  /** `getInt(readerIndex + i) == PACKET_SIGNATURE`. */
  predicate SignatureAtOffset(b: BufState, i: nat) {
    b.readerIndex + i + 4 <= |b.bytes| && Int32At(b.bytes, b.readerIndex + i) == PACKET_SIGNATURE
  }

  /** What `findPacketSignature` reports. */
  predicate SignaturePresent(b: BufState)
    requires b.Valid()
  {
    exists i: nat :: i < SearchLimit(b) && SignatureAtOffset(b, i)
  }

  /** Step 1 of `decode`: skip min(counter, readable) bytes of an oversized frame. */
  function DiscardPhase(st: DecoderState, b: BufState): (r: (DecoderState, BufState))
    requires b.Valid() && st.discardLength >= 0
    ensures r.1.Valid() && r.0.discardLength >= 0
  {
    if st.discardLength > 0 then
      var n := Min(st.discardLength, b.Readable());
      (st.(discardLength := st.discardLength - n), b.Skip(n))
    else
      (st, b)
  }

  /** The partial-payload branch: append min(readable, remaining) bytes at the current position. */
  function ReadingPhase(cfg: CodecConfig, st: DecoderState, b: BufState): (s: Step)
    requires Inv(cfg, st) && st.isReadingPacket && b.Valid()
    ensures Inv(cfg, s.state) && s.buf.Valid()
    ensures |s.buf.bytes| <= |b.bytes|
    ensures s.state.discardLength > 0 ==> s.outcome == NoPacket
  {
    var n := Min(b.Readable(), st.readLengthRemaining);
    var pos := st.readBufferPosition;
    var buffer := st.readBuffer[..pos] + b.bytes[b.readerIndex..b.readerIndex + n] + st.readBuffer[pos + n..];
    if st.readLengthRemaining - n == 0 then
      Step(PacketOutcome(ProcessPacket(cfg.proto, buffer[..pos + n])),
           st.(isReadingPacket := false, readBuffer := buffer, readBufferPosition := 0, readLengthRemaining := 0),
           b.Skip(n))
    else
      Step(NoPacket,
           st.(readBuffer := buffer, readBufferPosition := pos + n, readLengthRemaining := st.readLengthRemaining - n),
           b.Skip(n))
  }

  /** Signature search, then the header of the frame and its payload if all of it is there. */
  function HeaderPhase(cfg: CodecConfig, st: DecoderState, b: BufState): (s: Step)
    requires Inv(cfg, st) && !st.isReadingPacket && st.discardLength == 0 && b.Valid()
    ensures Inv(cfg, s.state) && s.buf.Valid()
    ensures |s.buf.bytes| <= |b.bytes|
    ensures s.state.discardLength > 0 ==> s.outcome == NoPacket
  {
    var found := SignaturePresent(b);
    var b2 := b.DiscardRead();
    if !found then
      // the reader index saved before the search is restored into the compacted buffer
      if b.readerIndex <= |b2.bytes| then Step(NoPacket, st, BufState(b2.bytes, b.readerIndex))
      else Step(Failed(ReaderIndexOutOfBounds(b.readerIndex)), st, b2)
    else if b2.Readable() <= 8 then
      Step(NoPacket, st, b2)
    else
      FramePhase(cfg, st, b2)
  }

  /**
   * A compacted buffer with more than 8 bytes: the first four are taken as the signature without
   * being compared, the next four are the payload length.
   */
  function FramePhase(cfg: CodecConfig, st: DecoderState, b: BufState): (s: Step)
    requires Inv(cfg, st) && !st.isReadingPacket && st.discardLength == 0
    requires b.Valid() && b.readerIndex == 0 && b.Readable() > 8
    ensures Inv(cfg, s.state) && s.buf.Valid()
    ensures |s.buf.bytes| <= |b.bytes|
    ensures s.state.discardLength > 0 ==> s.outcome == NoPacket
  {
    var payloadLength := Int32At(b.bytes, 4);
    var b3 := b.Skip(8);
    if payloadLength > cfg.maxReceivePacketLength then
      if cfg.discardLargerPacket then
        var counter := st.discardLength + payloadLength;
        var n := Min(counter, b3.Readable());
        Step(NoPacket, st.(discardLength := counter - n), b3.Skip(n))
      else
        Step(Failed(TooLongFrame(payloadLength)), st, b3)
    else if b3.Readable() >= payloadLength then
      if payloadLength < 0 then
        Step(Failed(IllegalLength(payloadLength)), st, b3)
      else
        var buffer := b3.bytes[8..8 + payloadLength] + st.readBuffer[payloadLength..];
        Step(PacketOutcome(ProcessPacket(cfg.proto, buffer[..payloadLength])),
             st.(readBuffer := buffer), b3.Skip(payloadLength))
    else
      Step(NoPacket,
           st.(readLengthRemaining := payloadLength, readBufferPosition := 0, isReadingPacket := true),
           b3)
  }

  /** One call of `decode(ByteBuf)`. */
  function DecodeSpec(cfg: CodecConfig, st: DecoderState, b: BufState): (s: Step)
    requires Inv(cfg, st) && b.Valid()
    ensures Inv(cfg, s.state) && s.buf.Valid()
    ensures |s.buf.bytes| <= |b.bytes|
    ensures s.state.discardLength > 0 ==> s.outcome == NoPacket
  {
    var (st1, b1) := DiscardPhase(st, b);
    if st1.discardLength > 0 then Step(NoPacket, st1, b1)
    else if st1.isReadingPacket then ReadingPhase(cfg, st1, b1)
    else HeaderPhase(cfg, st1, b1)
  }

  class RpcMessageCodec {
    const maxReceivePacketLength: int32
    const discardLargerPacket: bool
    const proto: Protobuf

    var discardLength: int
    var isReadingPacket: bool
    const readBuffer: array<uint8>
    var readBufferPosition: int
    var readLengthRemaining: int

    function Config(): CodecConfig
      reads this
    {
      CodecConfig(maxReceivePacketLength, discardLargerPacket, proto)
    }

    function State(): DecoderState
      reads this, readBuffer
    {
      DecoderState(discardLength, isReadingPacket, readBuffer[..], readBufferPosition, readLengthRemaining)
    }

    ghost predicate Valid()
      reads this, readBuffer
    {
      Inv(Config(), State())
    }

    /**
     * The allocation `Create` performs once the length is known not to be negative; the logging
     * arguments have no effect on decoding and are not kept.
     */
    constructor (maxLength: int32, discard: bool, protobuf: Protobuf)
      requires maxLength >= 0
      ensures Valid() && fresh(readBuffer) && Idle(State()) && readBuffer.Length == maxLength
      ensures Config() == CodecConfig(maxLength, discard, protobuf)
    {
      maxReceivePacketLength := maxLength;
      discardLargerPacket := discard;
      proto := protobuf;
      discardLength := 0;
      isReadingPacket := false;
      readBuffer := new uint8[maxLength];
      readBufferPosition := 0;
      readLengthRemaining := 0;
    }

    /**
     * `new RpcMessageCodec(...)` with the constructor's exceptions: a negative length fails in the
     * read-buffer allocation, and logging without a name is refused after it.
     */
    static method Create(maxLength: int32, discard: bool, loggingName: Option<string>,
                         encodeLogging: bool, decodeLogging: bool, protobuf: Protobuf)
      returns (r: Result<RpcMessageCodec, Throwable>)
      ensures r.Failure? <==> CodecConstructionError(maxLength, loggingName, encodeLogging, decodeLogging).Some?
      ensures r.Failure? ==> CodecConstructionError(maxLength, loggingName, encodeLogging, decodeLogging) == Some(r.error)
      ensures r.Success? ==> fresh(r.value) && fresh(r.value.readBuffer) && r.value.Valid() && Idle(r.value.State())
      ensures r.Success? ==> r.value.Config() == CodecConfig(maxLength, discard, protobuf) && r.value.readBuffer.Length == maxLength
    {
      var error := CodecConstructionError(maxLength, loggingName, encodeLogging, decodeLogging);
      if error.Some? {
        return Failure(error.value);
      }
      var codec := new RpcMessageCodec(maxLength, discard, protobuf);
      return Success(codec);
    }

    /** `encode`: signature, length, then the serialized packet. */
    method Encode(wirePacket: WirePacket, byteBuf: ByteBuf)
      requires byteBuf.Valid()
      modifies byteBuf
      ensures byteBuf.Valid()
      ensures byteBuf.View() == BufState(old(byteBuf.bytes) + Frame(proto.serializePacket(wirePacket)),
                                         old(byteBuf.readerIndex))
    {
      var messageBytes := proto.serializePacket(wirePacket);
      byteBuf.WriteInt(PACKET_SIGNATURE);
      byteBuf.WriteInt(|messageBytes|);
      byteBuf.WriteBytes(messageBytes);
    }

    /** `decode(ctx, byteBuf, list)`: a decoded packet, and only that, is added to the list. */
    method DecodeToList(byteBuf: ByteBuf, list: seq<WirePacket>) returns (out: seq<WirePacket>, error: Option<DecodeError>)
      requires Valid() && byteBuf.Valid()
      modifies this, readBuffer, byteBuf
      ensures Valid() && byteBuf.Valid()
      ensures var s := DecodeSpec(old(Config()), old(State()), old(byteBuf.View()));
        && s == Step(s.outcome, State(), byteBuf.View())
        && out == (if s.outcome.Decoded? then list + [s.outcome.packet] else list)
        && error == (if s.outcome.Failed? then Some(s.outcome.error) else None)
    {
      var outcome := Decode(byteBuf);
      out := list;
      error := None;
      match outcome
      case Decoded(p) => out := list + [p];
      case Failed(e) => error := Some(e);
      case NoPacket =>
    }

    /** `decode(ByteBuf)`: the discard step, then the partial-payload or the header branch. */
    method Decode(byteBuf: ByteBuf) returns (outcome: DecodeOutcome)
      requires Valid() && byteBuf.Valid()
      modifies this, readBuffer, byteBuf
      ensures Valid() && byteBuf.Valid()
      ensures Step(outcome, State(), byteBuf.View()) == DecodeSpec(old(Config()), old(State()), old(byteBuf.View()))
    {
      ghost var st0, b0 := State(), byteBuf.View();
      if discardLength > 0 {
        var n := DiscardBytes(byteBuf, discardLength);
        discardLength := discardLength - n;
      }
      assert (State(), byteBuf.View()) == DiscardPhase(st0, b0);
      if discardLength > 0 {
        return NoPacket;
      }
      if isReadingPacket {
        outcome := DecodePartial(byteBuf);
      } else {
        outcome := DecodeHeader(byteBuf);
      }
    }

    /** The `isReadingPacket` branch of `decode`: continue an incomplete payload. */
    method DecodePartial(byteBuf: ByteBuf) returns (outcome: DecodeOutcome)
      requires Valid() && isReadingPacket && byteBuf.Valid()
      modifies this, readBuffer, byteBuf
      ensures Valid() && byteBuf.Valid()
      ensures Step(outcome, State(), byteBuf.View()) == ReadingPhase(old(Config()), old(State()), old(byteBuf.View()))
    {
      ghost var st0, b0 := State(), byteBuf.View();
      ghost var spec := ReadingPhase(Config(), st0, b0);
      var bytesToRead := Min(byteBuf.ReadableBytes(), readLengthRemaining);
      byteBuf.ReadBytes(readBuffer, readBufferPosition, bytesToRead);
      assert readBuffer[..] == spec.state.readBuffer;
      assert byteBuf.View() == spec.buf;
      readLengthRemaining := readLengthRemaining - bytesToRead;
      readBufferPosition := readBufferPosition + bytesToRead;
      if readLengthRemaining == 0 {
        assert readBuffer[..readBufferPosition] == spec.state.readBuffer[..st0.readBufferPosition + bytesToRead];
        outcome := PacketOutcome(ProcessPacket(proto, readBuffer[..readBufferPosition]));
        isReadingPacket := false;
        readLengthRemaining := 0;
        readBufferPosition := 0;
      } else {
        // the reader index is set back to where the read left it: no change
        outcome := NoPacket;
      }
    }

    /** The header branch of `decode`: find a signature, parse the header, take the payload. */
    method DecodeHeader(byteBuf: ByteBuf) returns (outcome: DecodeOutcome)
      requires Valid() && !isReadingPacket && discardLength == 0 && byteBuf.Valid()
      modifies this, readBuffer, byteBuf
      ensures Valid() && byteBuf.Valid()
      ensures Step(outcome, State(), byteBuf.View()) == HeaderPhase(old(Config()), old(State()), old(byteBuf.View()))
    {
      var readerIdx := byteBuf.readerIndex;
      var signatureFound := FindPacketSignature(byteBuf);
      if signatureFound {
        byteBuf.DiscardReadBytes();
        if byteBuf.ReadableBytes() > 8 {
          outcome := DecodeFrame(byteBuf);
          return;
        }
        // too short for a header: the compacted buffer is left at reader index 0
        return NoPacket;
      }
      var ok := byteBuf.SetReaderIndex(readerIdx);
      outcome := if ok then NoPacket else Failed(ReaderIndexOutOfBounds(readerIdx));
    }

    /** The rest of the header branch once a signature was seen and more than 8 bytes remain. */
    method DecodeFrame(byteBuf: ByteBuf) returns (outcome: DecodeOutcome)
      requires Valid() && !isReadingPacket && discardLength == 0
      requires byteBuf.Valid() && byteBuf.readerIndex == 0 && byteBuf.ReadableBytes() > 8
      modifies this, readBuffer, byteBuf
      ensures Valid() && byteBuf.Valid()
      ensures Step(outcome, State(), byteBuf.View()) == FramePhase(old(Config()), old(State()), old(byteBuf.View()))
    {
      ghost var st0, b0 := State(), byteBuf.View();
      ghost var spec := FramePhase(Config(), st0, b0);
      var _ := byteBuf.ReadInt();
      var payloadLength := byteBuf.ReadInt();
      assert payloadLength == Int32At(b0.bytes, 4) && byteBuf.View() == b0.Skip(8);
      if payloadLength > maxReceivePacketLength {
        if discardLargerPacket {
          StartDiscard(byteBuf, payloadLength);
          outcome := NoPacket;
        } else {
          outcome := Failed(TooLongFrame(payloadLength));
        }
      } else if byteBuf.ReadableBytes() >= payloadLength {
        if payloadLength < 0 {
          outcome := Failed(IllegalLength(payloadLength));
        } else {
          outcome := TakePayload(byteBuf, payloadLength);
        }
      } else {
        // the reader index is set back to where the header read left it: no change
        readLengthRemaining := payloadLength;
        readBufferPosition := 0;
        isReadingPacket := true;
        outcome := NoPacket;
      }
    }

    /** An oversized frame to be dropped: count its payload and skip what of it is already here. */
    method StartDiscard(byteBuf: ByteBuf, payloadLength: int)
      requires Valid() && !isReadingPacket && discardLength == 0 && byteBuf.Valid() && payloadLength > maxReceivePacketLength
      modifies this, byteBuf
      ensures Valid() && byteBuf.Valid()
      ensures var n := Min(payloadLength, old(byteBuf.ReadableBytes()));
        && byteBuf.View() == old(byteBuf.View()).Skip(n)
        && State() == old(State()).(discardLength := payloadLength - n)
    {
      discardLength := discardLength + payloadLength;
      var n := DiscardBytes(byteBuf, discardLength);
      discardLength := discardLength - n;
    }

    /** The whole payload is in the buffer: read it into the start of the read buffer and process it. */
    method TakePayload(byteBuf: ByteBuf, payloadLength: nat) returns (outcome: DecodeOutcome)
      requires Valid() && !isReadingPacket && discardLength == 0
      requires byteBuf.Valid() && payloadLength <= byteBuf.ReadableBytes() && payloadLength <= maxReceivePacketLength
      modifies readBuffer, byteBuf
      ensures Valid() && byteBuf.Valid()
      ensures byteBuf.View() == old(byteBuf.View()).Skip(payloadLength)
      ensures State() == old(State()).(readBuffer := old(byteBuf.bytes[byteBuf.readerIndex..byteBuf.readerIndex + payloadLength])
                                                     + old(readBuffer[payloadLength..]))
      ensures outcome == PacketOutcome(ProcessPacket(proto, State().readBuffer[..payloadLength]))
    {
      ghost var before := readBuffer[..];
      byteBuf.ReadBytes(readBuffer, 0, payloadLength);
      assert before[..0] == [];
      outcome := PacketOutcome(ProcessPacket(proto, readBuffer[..payloadLength]));
    }

    /** `findPacketSignature`: scan for the signature, then compact the buffer. */
    static method FindPacketSignature(byteBuf: ByteBuf) returns (result: bool)
      requires byteBuf.Valid()
      modifies byteBuf
      ensures byteBuf.Valid()
      ensures result == SignaturePresent(old(byteBuf.View()))
      ensures byteBuf.View() == old(byteBuf.View()).DiscardRead()
    {
      var readIdx := byteBuf.readerIndex;
      var readLimit := (byteBuf.ReadableBytes() - 4) - readIdx;
      result := false;
      var i := 0;
      while i < readLimit
        invariant 0 <= i && (i <= readLimit || readLimit <= 0)
        invariant !result
        invariant forall j: nat :: j < i ==> !SignatureAtOffset(byteBuf.View(), j)
      {
        if byteBuf.GetInt(readIdx + i) == PACKET_SIGNATURE {
          assert SignatureAtOffset(byteBuf.View(), i);
          result := true;
          break;
        }
        i := i + 1;
      }
      var _ := byteBuf.SetReaderIndex(readIdx);
      byteBuf.DiscardReadBytes();
    }

    /** `discardBytes`: skip up to `discardLength` bytes and say how many. */
    static method DiscardBytes(byteBuf: ByteBuf, discardLength: int) returns (thisDiscardLength: int)
      requires byteBuf.Valid() && discardLength >= 0
      modifies byteBuf
      ensures byteBuf.Valid()
      ensures thisDiscardLength == Min(discardLength, old(byteBuf.ReadableBytes()))
      ensures byteBuf.View() == old(byteBuf.View()).Skip(thisDiscardLength)
    {
      thisDiscardLength := Min(discardLength, byteBuf.ReadableBytes());
      byteBuf.SkipBytes(thisDiscardLength);
    }
  }
}
