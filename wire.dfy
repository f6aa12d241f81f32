/**
 * The protocol's shared vocabulary: the WirePacket message exchanged on the wire, the application
 * messages it carries, disconnect reasons, and the serialization collaborators the core calls but
 * does not define (protobuf encoding and parsing, CRC32), which are passed in as function values.
 */
module Wire {
  import opened Basics

  datatype MessageType = Request | Response | Error | Oob | KeepAlive

  /** The `ServiceIdentifier` sub-message: which service and which of its methods. */
  datatype ServiceIdentifier = ServiceIdentifier(serviceIdentifier: int32, methodIdentifier: int32)

  /** The protobuf `WirePacket`; an absent optional field is `None`. */
  datatype WirePacket = WirePacket(
    messageIdentifier: int,
    messageType: MessageType,
    serviceIdentifier: Option<ServiceIdentifier>,
    payload: Option<seq<uint8>>,
    crc32: Option<int32>)
  {
    /** `getServiceIdentifier()`: the default instance (all zero) when the field is absent. */
    function ServiceIdentifierOrDefault(): ServiceIdentifier {
      serviceIdentifier.GetOr(ServiceIdentifier(0, 0))
    }

    /** `getPayload()`: the empty byte string when the field is absent. */
    function PayloadOrEmpty(): seq<uint8> {
      payload.GetOr([])
    }
  }

  /** An application protobuf message: the name of its message class and its field data. */
  datatype Message = Message(typeName: string, content: seq<uint8>)

  /**
   * The serialization collaborators: `WirePacket.toByteArray`/`parseFrom`, `CRC32.calculateCrc32`,
   * `AbstractMessage.toByteString` and the generated `parseFrom` of a message class, and the
   * `ErrorMessage` sub-message, and a packet's `toString()`. A parse that throws
   * InvalidProtocolBufferException gives `None`.
   */
  datatype Protobuf = Protobuf(
    serializePacket: WirePacket -> ByteArray,
    parsePacket: seq<uint8> -> Option<WirePacket>,
    crc32: seq<uint8> -> int,
    serializeMessage: Message -> seq<uint8>,
    parseMessage: (string, seq<uint8>) -> Option<Message>,
    serializeErrorMessage: string -> seq<uint8>,
    parseErrorMessage: seq<uint8> -> Option<string>,
    packetText: WirePacket -> string)
  {
    /** Parsing what was serialized gives the packet back. */
    ghost predicate PacketRoundTrip() {
      forall p: WirePacket :: parsePacket(serializePacket(p)) == Some(p)
    }

    /** Parsing a serialized message with its own class gives it back. */
    ghost predicate MessageRoundTrip() {
      forall m: Message :: parseMessage(m.typeName, serializeMessage(m)) == Some(m)
    }

    /** Parsing a serialized ErrorMessage gives its text back. */
    ghost predicate ErrorMessageRoundTrip() {
      forall text: string :: parseErrorMessage(serializeErrorMessage(text)) == Some(text)
    }
  }

  datatype DisconnectReason = ClientClose | ServerClose | NetworkError

  /** The exceptions the core raises or reacts to, by class. */
  datatype Throwable =
    | IOException(message: string)
    | RpcCallException(message: string)
    | RpcCallServerException(message: string)
    | IllegalArgumentException(message: string)
    | RuntimeException(message: string)
    | InvalidProtocolBufferException
    | NullPointerException
    | InvocationTargetException
    | NegativeArraySizeException

  /**
   * `t instanceof IOException`: the plain IOException, RpcCallServerException (which extends it)
   * and protobuf's InvalidProtocolBufferException (which extends it too). The class of
   * RpcCallException is not part of this model; it is taken not to be one.
   */
  predicate IsIOException(t: Throwable) {
    t.IOException? || t.RpcCallServerException? || t.InvalidProtocolBufferException?
  }

  /** The keep-alive frame both peers send: message id 0, type KEEP_ALIVE, nothing else set. */
  function KeepAlivePacket(): (p: WirePacket)
    ensures p.messageIdentifier == 0 && p.messageType == KeepAlive
    ensures p.serviceIdentifier.None? && p.payload.None? && p.crc32.None?
  {
    WirePacket(0, KeepAlive, None, None, None)
  }
}
