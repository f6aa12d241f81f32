# protobuf-rpc, modelled in Dafny

protobuf-rpc is a small RPC library on top of Netty. A service is a Java interface whose methods
carry an `@RpcIdentifier` and take and return protobuf messages. A server registers
implementations of such interfaces. A client obtains a dynamic proxy for an interface; each call
on the proxy sends a REQUEST packet and blocks until the RESPONSE or ERROR for its message
identifier arrives, or until a timeout. Over the same connection the server can push OOB
(out-of-band) packets. The client dispatches each push to a handler object registered for the
interface.

Every packet is a protobuf `WirePacket`. On the wire it travels as a frame: a 4-byte signature
`0xad04ef64`, a 4-byte length, then the serialized packet. Both sides send keep-alive packets
when a connection goes idle.

This project models the core of the library:

- the frame codec;
- the service registry;
- the client connection and its pipeline handler;
- the server pipeline handler and the server-side connection handle used for OOB pushes;
- the server and client objects with their builders;
- the reference-counted event-loop groups;
- the client channel pool.

Each Java class whose fields change becomes a Dafny `class`. Each method that changes those fields
is proved against a pure function or against a state it must reach. Lemmas then state what the
library promises:

- an encoded frame decodes back to its packet;
- a call answered by the server returns what the implementation returned;
- a failed call surfaces the server's error text;
- an OOB push reaches the handler bound to its interface;
- the registry's three lookup structures stay consistent;
- a channel borrowed from the pool is always a live one;
- the event-loop groups are created and shut down in step with their reference count.

The model follows the code as written. The places where the code does something its authors
evidently did not intend are proved as lemmas about that behaviour and listed at the end of this
file.

Modules, one per file:

| file | module | models |
|---|---|---|
| basics.dfy | Basics | Option/Result, bytes, Java `int`, big-endian `writeInt`/`getInt`, `%d` formatting |
| wire.dfy | Wire | `WirePacket`, messages, exceptions, and the protobuf/CRC32 functions as function values |
| bytebuf.dfy | Buffers | Netty's `ByteBuf` as the codec uses it |
| transport.dfy | Transport | a Netty `Channel`: active flag, frames written, keep-alive handler present |
| codec.dfy | Codec | `RpcMessageCodec` |
| codec_props.dfy | CodecProperties | round trip, partial frames, oversize and misalignment properties of the decoder |
| collector.dfy | Collector | `RpcServiceCollector` and its `RpcServiceInfo`/`RpcMethodInfo` entries |
| client_channel.dfy | ClientChannel | `RpcClientChannelImpl` |
| client_handler.dfy | ClientHandler | `RpcClientChannelHandler` |
| server_handler.dfy | ServerHandler | `RpcServerChannelHandler` |
| oob_channel.dfy | OobChannel | `ProtobufRpcServerChannel` |
| rpc_server_channel.dfy | LegacyServerChannel | `RpcServerChannel` |
| event_loop.dfy | EventLoop | the static acquire/return reference counts of the shared event-loop groups |
| server.dfy | Server | `ProtobufRpcServer` and its `Builder` |
| client.dfy | Client | `ProtobufRpcClient` and its `Builder` |
| pool.dfy | ChannelPool | `ProtobufRpcClientChannelPool` |
| end_to_end.dfy | EndToEnd | properties that join client, server and codec |

## Model

| member | source | states |
|---|---|---|
| Codec.Frame | src/main/java/me/trinopoty/protobufRpc/codec/RpcMessageCodec.java:58-68 | a frame is 8 + n bytes: the signature 0xad04ef64, the length n as a big-endian int, then the n serialized bytes |
| Codec.PacketOutcome | src/main/java/me/trinopoty/protobufRpc/codec/RpcMessageCodec.java:71-76 | a null from the decoder adds nothing to the output list; a packet adds exactly that packet |
| Codec.ProcessPacket | src/main/java/me/trinopoty/protobufRpc/codec/RpcMessageCodec.java:161-192 | a packet is returned only as parsed from the bytes; it is rejected exactly when parsing fails, or when it has both payload and crc32 and the crc32 masked to unsigned 32 bits differs from the computed one |
| Codec.DiscardPhase | src/main/java/me/trinopoty/protobufRpc/codec/RpcMessageCodec.java:84-92 | the discard step keeps the buffer valid and the discard counter non-negative |
| Codec.ReadingPhase | src/main/java/me/trinopoty/protobufRpc/codec/RpcMessageCodec.java:96-114 | continuing a partial payload keeps the decoder invariant, never grows the buffer, and returns nothing while discarding |
| Codec.HeaderPhase | src/main/java/me/trinopoty/protobufRpc/codec/RpcMessageCodec.java:117-157 | the signature search and header branch keep the decoder invariant, never grow the buffer, and return nothing while discarding |
| Codec.FramePhase | src/main/java/me/trinopoty/protobufRpc/codec/RpcMessageCodec.java:126-153 | reading the header and payload of a compacted buffer keeps the decoder invariant and returns nothing while discarding |
| Codec.DecodeSpec | src/main/java/me/trinopoty/protobufRpc/codec/RpcMessageCodec.java:78-159 | one `decode` call keeps the decoder invariant (counter non-negative, position + remaining equal to the declared length while accumulating), never grows the buffer, and returns nothing while bytes remain to be discarded |
| Codec.SearchLimit | src/main/java/me/trinopoty/protobufRpc/codec/RpcMessageCodec.java:233 | the scan bound of `findPacketSignature` is never above readable - 4, and equals it only at reader index 0 |
| Codec.CodecConstructionError | src/main/java/me/trinopoty/protobufRpc/codec/RpcMessageCodec.java:47-55 | the constructor succeeds iff the maximum length is not negative and logging is off or named; a negative length gives NegativeArraySizeException, checked first; otherwise the refusal is IllegalArgumentException("Logging name not provided.") |
| Codec.RpcMessageCodec.Create | src/main/java/me/trinopoty/protobufRpc/codec/RpcMessageCodec.java:34-55 | it throws exactly what CodecConstructionError says; otherwise the new codec has a fresh read buffer of the maximum packet length, is idle and holds the given settings |
| Codec.RpcMessageCodec.constructor | src/main/java/me/trinopoty/protobufRpc/codec/RpcMessageCodec.java:40-48 | the allocation behind Create, for a length that is not negative: a read buffer of the maximum packet length, and the codec idle |
| Codec.RpcMessageCodec.Encode | src/main/java/me/trinopoty/protobufRpc/codec/RpcMessageCodec.java:58-68 | the output buffer gains exactly the frame of the serialized packet; its reader index does not move |
| Codec.RpcMessageCodec.DecodeToList | src/main/java/me/trinopoty/protobufRpc/codec/RpcMessageCodec.java:71-76 | the list grows by the decoded packet and nothing else; the decoder and buffer change as `DecodeSpec` says, and a failure is reported as the exception |
| Codec.RpcMessageCodec.Decode | src/main/java/me/trinopoty/protobufRpc/codec/RpcMessageCodec.java:78-159 | the decoder's fields, the buffer and the result are exactly those of `DecodeSpec` on the old state |
| Codec.RpcMessageCodec.DecodePartial | src/main/java/me/trinopoty/protobufRpc/codec/RpcMessageCodec.java:96-114 | the partial-payload branch does exactly what `ReadingPhase` says, copying into the read buffer array |
| Codec.RpcMessageCodec.DecodeHeader | src/main/java/me/trinopoty/protobufRpc/codec/RpcMessageCodec.java:117-157 | the header branch does exactly what `HeaderPhase` says |
| Codec.RpcMessageCodec.DecodeFrame | src/main/java/me/trinopoty/protobufRpc/codec/RpcMessageCodec.java:126-153 | reading the header and payload does exactly what `FramePhase` says |
| Codec.RpcMessageCodec.StartDiscard | src/main/java/me/trinopoty/protobufRpc/codec/RpcMessageCodec.java:136-140 | an oversized frame is counted for discarding: min(declared length, readable) bytes are skipped and the counter holds the rest; nothing else changes |
| Codec.RpcMessageCodec.TakePayload | src/main/java/me/trinopoty/protobufRpc/codec/RpcMessageCodec.java:144-146 | a payload already complete is copied to the start of the read buffer, exactly its bytes are consumed, and the result is that of processing them |
| Codec.RpcMessageCodec.FindPacketSignature | src/main/java/me/trinopoty/protobufRpc/codec/RpcMessageCodec.java:231-246 | the scan reports whether the signature occurs in the (doubly reduced) search range, and the buffer is compacted with its unread bytes unchanged |
| Codec.RpcMessageCodec.DiscardBytes | src/main/java/me/trinopoty/protobufRpc/codec/RpcMessageCodec.java:248-252 | exactly min(counter, readable) bytes are skipped, and that number is returned |
| CodecProperties.DecodeEncodedFrame | src/main/java/me/trinopoty/protobufRpc/codec/RpcMessageCodec.java:58-68 | an idle decoder given a buffer that starts with the frame of a packet of size 1..max returns that packet, consumes exactly the frame, and is idle again |
| CodecProperties.EncodeDecodeRoundTrip | src/main/java/me/trinopoty/protobufRpc/codec/RpcMessageCodec.java:78-159 | what `encode` writes into an empty buffer, `decode` gives back as the same packet |
| CodecProperties.FrameSignatureSeen | src/main/java/me/trinopoty/protobufRpc/codec/RpcMessageCodec.java:231-246 | a frame at reader index 0 is seen by the signature search |
| CodecProperties.ShortBufferWaits | src/main/java/me/trinopoty/protobufRpc/codec/RpcMessageCodec.java:117-124 | fewer than nine bytes produce nothing and leave buffer and decoder exactly as they were |
| CodecProperties.EmptyPacketWaits | src/main/java/me/trinopoty/protobufRpc/codec/RpcMessageCodec.java:123 | the 8-byte frame of an empty packet is never decoded on its own; it waits for one more byte |
| CodecProperties.MissingSignature | src/main/java/me/trinopoty/protobufRpc/codec/RpcMessageCodec.java:231-246 | with no signature in range nothing is decoded; the saved reader index is restored into the compacted buffer, so at reader index r > 0 the first r unread bytes are skipped, or an IndexOutOfBoundsException is thrown when fewer remain |
| CodecProperties.StrayByteLosesFrame | src/main/java/me/trinopoty/protobufRpc/codec/RpcMessageCodec.java:126-143 | one stray byte before a frame makes the header read one byte late: the length read is at least 0x64000000, so the frame is discarded or rejected as too long |
| CodecProperties.DiscardStep | src/main/java/me/trinopoty/protobufRpc/codec/RpcMessageCodec.java:84-92 | while discarding, each call skips min(counter, readable) bytes and returns nothing; the header branch runs only once the counter is 0 |
| CodecProperties.OversizedFrame | src/main/java/me/trinopoty/protobufRpc/codec/RpcMessageCodec.java:135-143 | a declared length above the maximum: with the discard policy, the counter plus the bytes skipped now equals the declared length and nothing is returned; otherwise TooLongFrameException after consuming the header |
| CodecProperties.PartialFrameStarts | src/main/java/me/trinopoty/protobufRpc/codec/RpcMessageCodec.java:147-153 | a frame with complete header and incomplete payload: the header is consumed, nothing is copied, the whole declared length is expected |
| CodecProperties.PartialFrameStep | src/main/java/me/trinopoty/protobufRpc/codec/RpcMessageCodec.java:96-114 | while accumulating, min(readable, remaining) bytes are appended, position + remaining stays the declared length, and on completion the payload is processed and the state cleared whatever processing returns |
| CodecProperties.Arrivals | src/main/java/me/trinopoty/protobufRpc/codec/RpcMessageCodec.java:78-159 | a sequence of arrivals, each appended to what is still held and decoded once, keeps the decoder invariant |
| CodecProperties.PartialFrameReassembles | src/main/java/me/trinopoty/protobufRpc/codec/RpcMessageCodec.java:96-114 | a payload completed by any number of non-empty chunks yields nothing until the last byte, then the packet processed from the held bytes and every chunk in order |
| CodecProperties.SplitFrameDecodes | src/main/java/me/trinopoty/protobufRpc/codec/RpcMessageCodec.java:144-153 | a frame split anywhere after its header into non-empty chunks decodes, at its last chunk, into the packet that was encoded |
| CodecProperties.ProcessEncoded | src/main/java/me/trinopoty/protobufRpc/codec/RpcMessageCodec.java:161-192 | a packet with a consistent crc32 is processed from its own serialization into itself |
| CodecProperties.FrameAfterFrame | src/main/java/me/trinopoty/protobufRpc/codec/RpcMessageCodec.java:117-157 | the call after the first of two back-to-back frames was decoded returns the second packet when it is more than 4 bytes longer, skips it with the buffer left at the length difference when it is 0 to 4 bytes longer, and throws ReaderIndexOutOfBounds when it is shorter |
| CodecProperties.SecondFrame | src/main/java/me/trinopoty/protobufRpc/codec/RpcMessageCodec.java:231-246 | of two frames back to back, after the first is decoded the second is decoded only when its packet is more than 4 bytes longer; with equal lengths it is skipped entirely, and when shorter the call throws |
| Collector.ParseServiceClassSpec | src/main/java/me/trinopoty/protobufRpc/util/RpcServiceCollector.java:124-194 | registration validation against the identifiers already registered: an accepted class is an interface with an identifier not yet registered, and its entry holds the class and that identifier with no implementation yet |
| Collector.ParseMethods | src/main/java/me/trinopoty/protobufRpc/util/RpcServiceCollector.java:148-187 | the method loop refuses only with a missing identifier, a duplicate method identifier or an illegal signature, and on success keeps every entry the maps already had |
| Collector.SuffixValidStep | src/main/java/me/trinopoty/protobufRpc/util/RpcServiceCollector.java:148-187 | the methods from i on are valid iff method i is valid and the methods from i + 1 on are valid with its identifier seen |
| Collector.ParseMethodsSucceeds | src/main/java/me/trinopoty/protobufRpc/util/RpcServiceCollector.java:148-187 | the method loop succeeds iff every remaining method is annotated, returns a message, takes exactly one message, and has an identifier not seen before |
| Collector.ParseMethodsOnly | src/main/java/me/trinopoty/protobufRpc/util/RpcServiceCollector.java:148-187 | the loop records nothing but declared methods, each identifier keying an entry with that identifier |
| Collector.ParseMethodsSizes | src/main/java/me/trinopoty/protobufRpc/util/RpcServiceCollector.java:148-187 | on success each map grows by exactly one entry per remaining method |
| Collector.ParseMethodsValues | src/main/java/me/trinopoty/protobufRpc/util/RpcServiceCollector.java:148-187 | on success every remaining method is recorded, under itself and under its identifier |
| Collector.ParseMethodsKeeps | src/main/java/me/trinopoty/protobufRpc/util/RpcServiceCollector.java:148-187 | the loop never changes an entry already in the maps |
| Collector.ParsedMethodsWellFormed | src/main/java/me/trinopoty/protobufRpc/util/RpcServiceCollector.java:145-190 | for a class with valid methods both maps describe exactly the declared methods, one entry each |
| Collector.ParseServiceClassSucceeds | src/main/java/me/trinopoty/protobufRpc/util/RpcServiceCollector.java:127-187 | `parseServiceClass` succeeds iff the class is an interface, its identifier is present and not registered, and its methods are valid with distinct identifiers |
| Collector.ParseServiceClassEntry | src/main/java/me/trinopoty/protobufRpc/util/RpcServiceCollector.java:125-193 | the entry built holds the class under its own identifier, no implementation yet, and maps that describe every declared method once |
| Collector.EntryDescribesMethods | src/main/java/me/trinopoty/protobufRpc/util/RpcServiceCollector.java:185-190 | an entry built by the validation loop describes every declared method of its class once |
| Collector.RegisterKeepsConsistent | src/main/java/me/trinopoty/protobufRpc/util/RpcServiceCollector.java:103-111 | entering a newly validated class in all three structures keeps the registry consistent |
| Collector.ImplUpdateKeepsConsistent | src/main/java/me/trinopoty/protobufRpc/util/RpcServiceCollector.java:86-96 | recording an implementation class or constructor keeps the registry consistent |
| Collector.RpcServiceCollector.constructor | src/main/java/me/trinopoty/protobufRpc/util/RpcServiceCollector.java:99-101 | a new registry is empty and consistent |
| Collector.RegisterStep | src/main/java/me/trinopoty/protobufRpc/util/RpcServiceCollector.java:103-111 | a registered class changes nothing; otherwise the class is refused exactly when its validation fails, with that error and the registry unchanged, and is entered when it validates |
| Collector.RpcServiceCollector.ParseServiceInterface | src/main/java/me/trinopoty/protobufRpc/util/RpcServiceCollector.java:103-111 | an already registered class is left alone; otherwise the class is entered in all three structures exactly when validation succeeds, and nothing changes when it fails; the registry and result are those of `RegisterStep` |
| Collector.RpcServiceCollector.ParseServiceClass | src/main/java/me/trinopoty/protobufRpc/util/RpcServiceCollector.java:124-194 | the checks and the method loop give exactly `ParseServiceClassSpec` on the registered identifiers |
| Collector.RpcServiceCollector.GetServiceInfoByClass | src/main/java/me/trinopoty/protobufRpc/util/RpcServiceCollector.java:113-115 | an entry is found iff the class is registered, and it is that class's entry |
| Collector.RpcServiceCollector.GetServiceInfoById | src/main/java/me/trinopoty/protobufRpc/util/RpcServiceCollector.java:117-122 | on a consistent registry an entry is found iff the identifier is registered, and it carries that identifier and is the entry of its own class |
| Collector.RpcServiceCollector.SetImplClass | src/main/java/me/trinopoty/protobufRpc/util/RpcServiceCollector.java:86-88 | only the implementation class of that entry changes, and the registry stays consistent |
| Collector.RpcServiceCollector.SetImplClassConstructor | src/main/java/me/trinopoty/protobufRpc/util/RpcServiceCollector.java:94-96 | only the constructor kind of that entry changes, and the registry stays consistent |
| Collector.LookupsAgree | src/main/java/me/trinopoty/protobufRpc/util/RpcServiceCollector.java:113-122 | a registered class is found again through its own service identifier, with the same entry |
| ClientChannel.RequestPacket | src/main/java/me/trinopoty/protobufRpc/client/RpcClientChannelImpl.java:45-60 | a call's packet is a REQUEST with the call's message id, the service and method ids, and the argument's bytes |
| ClientChannel.CallOutcome | src/main/java/me/trinopoty/protobufRpc/client/RpcClientChannelImpl.java:71-101 | no response is "Response timeout."; a RESPONSE parsed with the method's response class returns that message; an ERROR throws RpcCallServerException with the server's text; anything else is rejected |
| ClientChannel.ResponseReturnsMessage | src/main/java/me/trinopoty/protobufRpc/client/RpcClientChannelImpl.java:73-92 | a RESPONSE carrying a serialized message of the response class returns that message |
| ClientChannel.ErrorThrowsServerException | src/main/java/me/trinopoty/protobufRpc/client/RpcClientChannelImpl.java:93-95 | an ERROR carrying a serialized ErrorMessage throws RpcCallServerException with its text |
| ClientChannel.StoredResponseIsNeverInvalid | src/main/java/me/trinopoty/protobufRpc/client/RpcClientChannelImpl.java:71-98 | a stored RESPONSE or ERROR never reaches the "Invalid response received" branch: the call returns the parsed message, throws RpcCallServerException, InvalidProtocolBufferException, or RpcCallException("Unable to parse response message.") |
| ClientChannel.OobTarget | src/main/java/me/trinopoty/protobufRpc/client/RpcClientChannelImpl.java:245-253 | a push has a target iff its service id is registered, the method id is known, and a handler is bound to the service class |
| ClientChannel.OobDeliveries | src/main/java/me/trinopoty/protobufRpc/client/RpcClientChannelImpl.java:254-259 | a push makes at most one delivery, exactly when it has a target and its payload parses as the method's request class |
| ClientChannel.OobDeliveredIff | src/main/java/me/trinopoty/protobufRpc/client/RpcClientChannelImpl.java:245-262 | a push is delivered iff service, method, handler and payload are all found; it then goes to the bound handler's method with the parsed message |
| ClientChannel.UnroutableOob | src/main/java/me/trinopoty/protobufRpc/client/RpcClientChannelImpl.java:260 | a push that cannot be routed is reported as a client-side RpcCallException, not as a server error |
| ClientChannel.RpcClientChannelImpl.constructor | src/main/java/me/trinopoty/protobufRpc/client/RpcClientChannelImpl.java:119-131 | a new connection has no calls, proxies or handlers, the default timeout of 5000 ms when none is given, and SERVER_CLOSE as its reason |
| ClientChannel.RpcClientChannelImpl.GetService | src/main/java/me/trinopoty/protobufRpc/client/RpcClientChannelImpl.java:136-145 | the first request for a registered class creates its proxy, later requests return the same proxy, an unregistered class gets none |
| ClientChannel.RpcClientChannelImpl.AddOobHandler | src/main/java/me/trinopoty/protobufRpc/client/RpcClientChannelImpl.java:148-157 | a class seen before is re-bound; otherwise it is bound iff registered with the OOB flag, and an IllegalArgumentException changes nothing |
| ClientChannel.RpcClientChannelImpl.SetChannelDisconnectListener | src/main/java/me/trinopoty/protobufRpc/client/RpcClientChannelImpl.java:165-167 | installs or removes the listener and changes nothing else |
| ClientChannel.RpcClientChannelImpl.BeginCall | src/main/java/me/trinopoty/protobufRpc/client/RpcClientChannelImpl.java:37-60 | an inactive channel throws "Channel is not active."; otherwise the next message id is taken, the call waits on it, and exactly its REQUEST is written |
| ClientChannel.RpcClientChannelImpl.FinishCall | src/main/java/me/trinopoty/protobufRpc/client/RpcClientChannelImpl.java:216-232 | the call stops waiting, its stored response is removed, and the result is `CallOutcome` of that response |
| ClientChannel.RpcClientChannelImpl.HandleRpcResponse | src/main/java/me/trinopoty/protobufRpc/client/RpcClientChannelImpl.java:235-243 | a response is stored under its id iff a call waits on that id, and dropped otherwise |
| ClientChannel.RpcClientChannelImpl.HandleOob | src/main/java/me/trinopoty/protobufRpc/client/RpcClientChannelImpl.java:245-262 | the deliveries grow by `OobDeliveries` of the target; an unroutable push throws RpcCallException naming its ids |
| ClientChannel.RpcClientChannelImpl.ReceivedRpcPacket | src/main/java/me/trinopoty/protobufRpc/client/RpcClientChannelImpl.java:186-192 | RESPONSE and ERROR go to the waiting call, OOB to its handler, the rest is ignored |
| ClientChannel.RpcClientChannelImpl.RealClose | src/main/java/me/trinopoty/protobufRpc/client/RpcClientChannelImpl.java:205-213 | the channel is closed and proxies and OOB handlers are forgotten; pending calls are untouched |
| ClientChannel.RpcClientChannelImpl.Close | src/main/java/me/trinopoty/protobufRpc/client/RpcClientChannelImpl.java:170-173 | an application close is recorded as CLIENT_CLOSE and then closes as `realClose` does |
| ClientChannel.RpcClientChannelImpl.ChannelException | src/main/java/me/trinopoty/protobufRpc/client/RpcClientChannelImpl.java:194-203 | an IOException, or an RpcCallServerException or InvalidProtocolBufferException (both subclasses of it), closes the channel with reason NETWORK_ERROR and clears both maps; any other cause changes nothing |
| ClientChannel.RpcClientChannelImpl.OperationComplete | src/main/java/me/trinopoty/protobufRpc/client/RpcClientChannelImpl.java:181-184 | the listener, if any, hears the recorded reason once, and the reason returns to SERVER_CLOSE |
| ClientHandler.RpcClientChannelHandler.constructor | src/main/java/me/trinopoty/protobufRpc/client/RpcClientChannelHandler.java:22-26 | a new handler has no connection yet |
| ClientHandler.RpcClientChannelHandler.SetRpcClientChannel | src/main/java/me/trinopoty/protobufRpc/client/RpcClientChannelHandler.java:57-59 | the handler forwards to the given connection from now on |
| ClientHandler.RpcClientChannelHandler.ChannelRead | src/main/java/me/trinopoty/protobufRpc/client/RpcClientChannelHandler.java:29-37 | a keep-alive changes nothing; every other packet has the effect of `receivedRpcPacket` |
| ClientHandler.RpcClientChannelHandler.ExceptionCaught | src/main/java/me/trinopoty/protobufRpc/client/RpcClientChannelHandler.java:40-44 | an exception goes to the connection once one is set and is ignored before |
| ClientHandler.RpcClientChannelHandler.UserEventTriggered | src/main/java/me/trinopoty/protobufRpc/client/RpcClientChannelHandler.java:47-55 | writer idle sends one keep-alive; reader idle fails the connection with IOException("Reader idle"), or throws NullPointerException before a connection is set; other events change nothing |
| ClientHandler.RpcClientChannelHandler.SendKeepAlivePacket | src/main/java/me/trinopoty/protobufRpc/client/RpcClientChannelHandler.java:62-67 | exactly one keep-alive frame is written |
| Wire.KeepAlivePacket | src/main/java/me/trinopoty/protobufRpc/server/RpcServerChannelHandler.java:185-190 | a keep-alive has message id 0, type KEEP_ALIVE, and no other field set |
| ServerHandler.ErrorPacket | src/main/java/me/trinopoty/protobufRpc/server/RpcServerChannelHandler.java:73-83 | an ERROR for the request's id and service identifier, carrying the serialized error text |
| ServerHandler.ResponsePacket | src/main/java/me/trinopoty/protobufRpc/server/RpcServerChannelHandler.java:133-139 | a RESPONSE for the request's id and service identifier, carrying the returned message's bytes |
| ServerHandler.ImplementedService | src/main/java/me/trinopoty/protobufRpc/server/RpcServerChannelHandler.java:86-93 | a lookup goes on iff the service is registered and has an implementation class |
| ServerHandler.CacheAfter | src/main/java/me/trinopoty/protobufRpc/server/RpcServerChannelHandler.java:95-100 | the object is created at the first request for its implementation class, and what was created (null included) is kept; nothing else changes |
| ServerHandler.Dispatch | src/main/java/me/trinopoty/protobufRpc/server/RpcServerChannelHandler.java:103-160 | each request gets exactly one reply with its id and service identifier, a RESPONSE or an ERROR; a RESPONSE iff nothing is thrown |
| ServerHandler.DispatchSucceedsIff | src/main/java/me/trinopoty/protobufRpc/server/RpcServerChannelHandler.java:103-160 | the reply is a RESPONSE iff the service has an implementation, the method id is known, an object exists, the payload parses, and the method returns a message; the RESPONSE carries that message |
| ServerHandler.DispatchErrorTexts | src/main/java/me/trinopoty/protobufRpc/server/RpcServerChannelHandler.java:103-160 | an unknown service, method or object is answered with INTERNAL_SERVER_ERROR; a payload that does not parse with UNABLE_TO_PARSE (an InvocationTargetException); an invocation that throws with UNABLE_TO_PROCESS |
| ServerHandler.RpcServerChannelHandler.constructor | src/main/java/me/trinopoty/protobufRpc/server/RpcServerChannelHandler.java:29-31 | a new handler has no objects, no connection handle, reason CLIENT_CLOSE, and no keep-alive |
| ServerHandler.RpcServerChannelHandler.ChannelActive | src/main/java/me/trinopoty/protobufRpc/server/RpcServerChannelHandler.java:34-36 | a fresh server-side connection handle over the handler's channel is created |
| ServerHandler.RpcServerChannelHandler.ChannelInactive | src/main/java/me/trinopoty/protobufRpc/server/RpcServerChannelHandler.java:39-42 | the recorded reason is reported once, and the reason returns to CLIENT_CLOSE |
| ServerHandler.RpcServerChannelHandler.ExceptionCaught | src/main/java/me/trinopoty/protobufRpc/server/RpcServerChannelHandler.java:55-63 | an IOException, or an RpcCallServerException or InvalidProtocolBufferException (both subclasses of it), marks the disconnect as NETWORK_ERROR; nothing else changes |
| ServerHandler.RpcServerChannelHandler.UserEventTriggered | src/main/java/me/trinopoty/protobufRpc/server/RpcServerChannelHandler.java:66-71 | an idle event closes the channel as NETWORK_ERROR; any other event changes nothing |
| ServerHandler.RpcServerChannelHandler.ChannelRead | src/main/java/me/trinopoty/protobufRpc/server/RpcServerChannelHandler.java:45-52 | a REQUEST is answered with `Dispatch`'s reply, a KEEP_ALIVE is echoed and starts the idle timer, anything else is ignored |
| ServerHandler.RpcServerChannelHandler.GetServiceImplementationObject | src/main/java/me/trinopoty/protobufRpc/server/RpcServerChannelHandler.java:85-101 | returns the implemented service and its cached object, updating the cache as `CacheAfter` says |
| ServerHandler.RpcServerChannelHandler.HandleIncomingRequest | src/main/java/me/trinopoty/protobufRpc/server/RpcServerChannelHandler.java:103-160 | exactly the one reply of `Dispatch` is written |
| ServerHandler.RpcServerChannelHandler.HandleIncomingKeepAlive | src/main/java/me/trinopoty/protobufRpc/server/RpcServerChannelHandler.java:162-167 | the idle timer is installed once and one keep-alive is echoed |
| ServerHandler.RpcServerChannelHandler.InitializeKeepAlive | src/main/java/me/trinopoty/protobufRpc/server/RpcServerChannelHandler.java:169-182 | the idle timer is added unless the pipeline already has one |
| OobChannel.OobPacket | src/main/java/me/trinopoty/protobufRpc/server/ProtobufRpcServerChannel.java:26-43 | a push is an OOB packet with message id 0, the service and method ids, and the argument's bytes |
| OobChannel.ProtobufRpcServerChannel.constructor | src/main/java/me/trinopoty/protobufRpc/server/ProtobufRpcServerChannel.java:50-53 | the handle keeps the server's registry and the connection |
| OobChannel.ProtobufRpcServerChannel.GetOobService | src/main/java/me/trinopoty/protobufRpc/server/ProtobufRpcServerChannel.java:56-63 | a proxy for the class's entry iff the class is registered (its OOB flag is not checked), otherwise an IllegalArgumentException |
| OobChannel.ProtobufRpcServerChannel.Push | src/main/java/me/trinopoty/protobufRpc/server/ProtobufRpcServerChannel.java:24-43 | a call on a proxy writes exactly one OOB packet |
| LegacyServerChannel.RpcServerChannel.constructor | src/main/java/me/trinopoty/protobufRpc/server/RpcServerChannel.java:54-57 | the handle keeps the server's registry and the connection |
| LegacyServerChannel.RpcServerChannel.GetOobService | src/main/java/me/trinopoty/protobufRpc/server/RpcServerChannel.java:60-67 | a proxy iff the class is registered, otherwise an IllegalArgumentException |
| LegacyServerChannel.RpcServerChannel.Push | src/main/java/me/trinopoty/protobufRpc/server/RpcServerChannel.java:28-47 | a call on a proxy writes exactly one OOB packet |
| EventLoop.InitialGroupState | src/main/java/me/trinopoty/protobufRpc/server/ProtobufRpcServer.java:285-305 | before any use the count is 0 and no group exists |
| EventLoop.Acquire | src/main/java/me/trinopoty/protobufRpc/server/ProtobufRpcServer.java:285-295 | the count goes up by one, and a new group is created exactly when it was 0; no group is handed out exactly when the count was negative; the invariant is kept |
| EventLoop.Release | src/main/java/me/trinopoty/protobufRpc/server/ProtobufRpcServer.java:298-305 | the count goes down by one, and the group is shut down and forgotten exactly when it reaches 0; the invariant is kept |
| EventLoop.AcquireNFromActive | src/main/java/me/trinopoty/protobufRpc/server/ProtobufRpcServer.java:285-295 | acquisitions from a positive count create and shut down nothing |
| EventLoop.ReleaseNKeepsActive | src/main/java/me/trinopoty/protobufRpc/server/ProtobufRpcServer.java:298-305 | releases that keep the count positive shut nothing down |
| EventLoop.BalancedUseShutsDownOnce | src/main/java/me/trinopoty/protobufRpc/server/ProtobufRpcServer.java:285-305 | from no users, n acquisitions then n releases create exactly one group and shut exactly it down |
| EventLoop.ReleaseNSplit | src/main/java/me/trinopoty/protobufRpc/server/ProtobufRpcServer.java:298-305 | n + 1 releases are n releases followed by one |
| EventLoop.AcquireAll | src/main/java/me/trinopoty/protobufRpc/client/ProtobufRpcClient.java:62-92 | the acquisitions of the client's build stop at the first null group; when all succeed the count went up by one per bootstrap; nothing is shut down |
| EventLoop.AcquireAllOutcome | src/main/java/me/trinopoty/protobufRpc/client/ProtobufRpcClient.java:62-92 | acquisitions for bootstraps from a count that is not negative all hand out a group and leave the state of plain acquisitions; from a negative count the first one hands out null |
| EventLoop.EventLoopGroupHolder.constructor | src/main/java/me/trinopoty/protobufRpc/server/ProtobufRpcServer.java:285-305 | the static fields start at the initial state |
| EventLoop.EventLoopGroupHolder.AcquireGroup | src/main/java/me/trinopoty/protobufRpc/client/ProtobufRpcClient.java:107-117 | the static fields change as `Acquire` says, and the group handed out is the group field afterwards |
| EventLoop.EventLoopGroupHolder.ReturnGroup | src/main/java/me/trinopoty/protobufRpc/client/ProtobufRpcClient.java:120-127 | the static fields change as `Release` says |
| Server.DefaultServerConfig | src/main/java/me/trinopoty/protobufRpc/server/ProtobufRpcServer.java:41-51 | no addresses, backlog 5, logging off, no logging name |
| Server.BuildError | src/main/java/me/trinopoty/protobufRpc/server/ProtobufRpcServer.java:180-194 | the build is accepted iff a plain address is set, every enabled logging kind has a name, and the SSL address differs; a lone SSL address gives NullPointerException; every other refusal is an IllegalArgumentException |
| Server.BootstrapCount | src/main/java/me/trinopoty/protobufRpc/server/ProtobufRpcServer.java:196-228 | at most two listening channels, and at least one for an accepted configuration |
| Server.Built | src/main/java/me/trinopoty/protobufRpc/server/ProtobufRpcServer.java:280-282 | a built server records both addresses, has nothing bound, and is not started |
| Server.BindEndpoint | src/main/java/me/trinopoty/protobufRpc/server/ProtobufRpcServer.java:340-353 | an unconfigured endpoint is left alone; a configured one fails iff its bind fails, with the bind's own exception, and otherwise records the bound address |
| Server.Start | src/main/java/me/trinopoty/protobufRpc/server/ProtobufRpcServer.java:335-356 | a started server is unchanged; a failed bind is rethrown with the server not started, keeping a plain channel bound before a failed SSL bind; otherwise every configured endpoint is bound and the server started |
| Server.StartOutcome | src/main/java/me/trinopoty/protobufRpc/server/ProtobufRpcServer.java:335-356 | the call throws iff a configured bind fails, the first failure being the one thrown; the server is started, with each configured endpoint bound, iff nothing is thrown; addresses never change |
| Server.Stop | src/main/java/me/trinopoty/protobufRpc/server/ProtobufRpcServer.java:362-385 | a stopped server is unchanged; otherwise every channel is closed and the server is stopped |
| Server.StopReleases | src/main/java/me/trinopoty/protobufRpc/server/ProtobufRpcServer.java:362-385 | stopping hands back at most two references, and none when not started |
| Server.ActualAddress | src/main/java/me/trinopoty/protobufRpc/server/ProtobufRpcServer.java:398-403 | IllegalArgumentException("Server not started.") iff not started, otherwise the bound address |
| Server.StartIdempotent | src/main/java/me/trinopoty/protobufRpc/server/ProtobufRpcServer.java:335-338 | after a start that did not throw, another start changes nothing and throws nothing |
| Server.StopIdempotent | src/main/java/me/trinopoty/protobufRpc/server/ProtobufRpcServer.java:362-385 | stopping twice is stopping once, and the second stop hands back nothing |
| Server.SingleRunReturnsIffBound | src/main/java/me/trinopoty/protobufRpc/server/ProtobufRpcServer.java:335-385 | a freshly built server's start throws unless every configured bind succeeds, and the stop gives back the references `build` took iff it did not throw, none otherwise |
| Server.SslBindFailureStrandsPlainChannel | src/main/java/me/trinopoty/protobufRpc/server/ProtobufRpcServer.java:340-364 | a failed SSL bind throws with the plain channel bound and the server not started, so stop does nothing and gives nothing back, and a later start binds over that channel |
| Server.RestartReturnsTwice | src/main/java/me/trinopoty/protobufRpc/server/ProtobufRpcServer.java:335-385 | a second start/stop cycle gives back one reference per endpoint again |
| Server.ReleaseNFromIdle | src/main/java/me/trinopoty/protobufRpc/server/ProtobufRpcServer.java:298-305 | releases from a count of 0 or below only lower the count; no group appears |
| Server.RestartLeavesNoGroup | src/main/java/me/trinopoty/protobufRpc/server/ProtobufRpcServer.java:285-305 | after build/start/stop/start/stop by a sole user the count is minus the endpoints, and the next acquisition yields a null group |
| Server.AcquirePairs | src/main/java/me/trinopoty/protobufRpc/server/ProtobufRpcServer.java:196-228 | the acquisitions of the server's build stop at the first listening channel with a null group; when all succeed both counts went up by one per channel; nothing is shut down |
| Server.AcquirePairsOutcome | src/main/java/me/trinopoty/protobufRpc/server/ProtobufRpcServer.java:196-228 | for each listening channel both groups are acquired; from counts that are not negative all succeed as plain acquisitions, and from a negative count the first channel gets a null group |
| Server.FindConstructor | src/main/java/me/trinopoty/protobufRpc/server/ProtobufRpcServer.java:237-251 | a constructor is found iff one of that kind is declared, and it is one of them |
| Server.FirstOfKind | src/main/java/me/trinopoty/protobufRpc/server/ProtobufRpcServer.java:237-251 | the constructor found is the first declared of that kind |
| Server.GetServiceImplementationConstructor | src/main/java/me/trinopoty/protobufRpc/server/ProtobufRpcServer.java:233-262 | the parameterized constructor iff it is public; the default one iff no parameterized one is declared and it is public; otherwise ServiceConstructorNotFoundException with the source's message |
| Server.HiddenParameterizedShadowsDefault | src/main/java/me/trinopoty/protobufRpc/server/ProtobufRpcServer.java:233-262 | a non-public parameterized constructor makes the lookup fail even when a public default one exists |
| Server.EntryAfterRegistration | src/main/java/me/trinopoty/protobufRpc/util/RpcServiceCollector.java:103-111 | a registered class keeps its entry; otherwise the entry or refusal is that of validation |
| Server.RegisterEach | src/main/java/me/trinopoty/protobufRpc/server/ProtobufRpcServer.java:166-171 | `registerOob` on values: without a refusal no registered interface is lost; a refusal needs at least one interface; see the three lemmas below for which interface refuses |
| Server.RegisterEachKeepsRefusal | src/main/java/me/trinopoty/protobufRpc/server/ProtobufRpcServer.java:167-169 | once an interface is refused, the later ones are not looked at |
| Server.RegisterEachRegistersAll | src/main/java/me/trinopoty/protobufRpc/server/ProtobufRpcServer.java:167-169 | without a refusal every interface ends registered and nothing registered before is lost |
| Server.RegisterEachStopsAtFirstRefusal | src/main/java/me/trinopoty/protobufRpc/server/ProtobufRpcServer.java:167-169 | a refusal is that of the first interface that does not validate, after all those before it were registered, with the registry as they left it |
| Server.ProtobufRpcServer.constructor | src/main/java/me/trinopoty/protobufRpc/server/ProtobufRpcServer.java:280-282 | a new server is in the `Built` state with no listener |
| Server.ProtobufRpcServer.StartServer | src/main/java/me/trinopoty/protobufRpc/server/ProtobufRpcServer.java:335-356 | the server's fields and the exception thrown are exactly `Start`'s |
| Server.ProtobufRpcServer.StopServer | src/main/java/me/trinopoty/protobufRpc/server/ProtobufRpcServer.java:362-385 | the fields change as `Stop` says, and each shared group is released once per channel closed |
| Server.ProtobufRpcServer.CloseLocalChannel | src/main/java/me/trinopoty/protobufRpc/server/ProtobufRpcServer.java:367-374 | a bound plain channel is unbound and both groups are released once; with none bound nothing changes |
| Server.ProtobufRpcServer.ReturnBothGroups | src/main/java/me/trinopoty/protobufRpc/server/ProtobufRpcServer.java:372-373 | both shared groups are released once |
| Server.ProtobufRpcServer.SetChannelDisconnectListener | src/main/java/me/trinopoty/protobufRpc/server/ProtobufRpcServer.java:387-389 | the listener is set or cleared and nothing else changes |
| Server.ProtobufRpcServer.GetActualLocalAddress | src/main/java/me/trinopoty/protobufRpc/server/ProtobufRpcServer.java:398-403 | `ActualAddress` of the plain endpoint; a bound address implies a configured one |
| Server.ProtobufRpcServer.GetActualSslLocalAddress | src/main/java/me/trinopoty/protobufRpc/server/ProtobufRpcServer.java:412-417 | `ActualAddress` of the SSL endpoint; a bound address implies a configured one |
| Server.Builder.constructor | src/main/java/me/trinopoty/protobufRpc/server/ProtobufRpcServer.java:41-54 | default settings and a fresh, empty registry |
| Server.Builder.SetLocalAddress | src/main/java/me/trinopoty/protobufRpc/server/ProtobufRpcServer.java:62-65 | only the plain address changes |
| Server.Builder.SetSslLocalAddress | src/main/java/me/trinopoty/protobufRpc/server/ProtobufRpcServer.java:74-78 | only the SSL address and the presence of an SSL context change |
| Server.Builder.SetBacklogCount | src/main/java/me/trinopoty/protobufRpc/server/ProtobufRpcServer.java:86-89 | only the backlog changes |
| Server.Builder.SetMaxReceivePacketLength | src/main/java/me/trinopoty/protobufRpc/server/ProtobufRpcServer.java:97-100 | only the maximum packet length changes |
| Server.Builder.SetEnableRpcLogging | src/main/java/me/trinopoty/protobufRpc/server/ProtobufRpcServer.java:108-111 | only the RPC-logging flag changes |
| Server.Builder.SetEnableTrafficLogging | src/main/java/me/trinopoty/protobufRpc/server/ProtobufRpcServer.java:119-122 | only the traffic-logging flag changes |
| Server.Builder.SetLoggingName | src/main/java/me/trinopoty/protobufRpc/server/ProtobufRpcServer.java:130-133 | only the logging name changes |
| Server.Builder.AddServiceImplementation | src/main/java/me/trinopoty/protobufRpc/server/ProtobufRpcServer.java:146-153 | a refused registration changes nothing; otherwise the implementation class is recorded, and the constructor kind too when the lookup succeeds; the registry stays consistent |
| Server.Builder.RegisterService | src/main/java/me/trinopoty/protobufRpc/server/ProtobufRpcServer.java:147 | the registry afterwards holds `EntryAfterRegistration` for the class, or is unchanged on refusal |
| Server.Builder.RecordImplementation | src/main/java/me/trinopoty/protobufRpc/server/ProtobufRpcServer.java:151-152 | the implementation class is recorded, then the constructor kind iff `GetServiceImplementationConstructor` succeeds |
| Server.Builder.RegisterOob | src/main/java/me/trinopoty/protobufRpc/server/ProtobufRpcServer.java:166-171 | the registry and the refusal are exactly those of `RegisterEach`: on success every interface is registered and nothing is lost; on failure the interfaces before the refused one are registered, the error is its validation error, and none after it is touched |
| Server.Builder.Build | src/main/java/me/trinopoty/protobufRpc/server/ProtobufRpcServer.java:179-231 | fails with `BuildError`, leaving the groups untouched; otherwise the groups change as `AcquirePairs` says, and the build throws NullPointerException iff a group handed out is null; on success a built server, each group acquired once per listening channel |
| Server.Builder.AcquireForBootstrap | src/main/java/me/trinopoty/protobufRpc/server/ProtobufRpcServer.java:198 | both groups are acquired once, and the bootstrap gets both iff neither is null |
| Client.DefaultClientConfig | src/main/java/me/trinopoty/protobufRpc/client/ProtobufRpcClient.java:28-32 | nothing set and logging off |
| Client.ClientBuildError | src/main/java/me/trinopoty/protobufRpc/client/ProtobufRpcClient.java:63-65 | the build is refused iff traffic logging is on without a name, with the source's IllegalArgumentException |
| Client.ClientBootstrapCount | src/main/java/me/trinopoty/protobufRpc/client/ProtobufRpcClient.java:62-92 | one group reference for the plain bootstrap, and a second iff an SSL context is set |
| Client.BuildThenCloseBalance | src/main/java/me/trinopoty/protobufRpc/client/ProtobufRpcClient.java:62-127 | for a sole user, build then close shuts the group down iff there is no SSL context; with SSL one reference stays held and the group stays up |
| Client.ProtobufRpcClient.constructor | src/main/java/me/trinopoty/protobufRpc/client/ProtobufRpcClient.java:102-104 | the client keeps its registry, settings and group holder |
| Client.ProtobufRpcClient.GetClientChannel | src/main/java/me/trinopoty/protobufRpc/client/ProtobufRpcClient.java:177-185 | SSL without an SSL bootstrap throws NullPointerException before connecting; otherwise a failed connect rethrows its cause, and a successful one gives a fresh connection over the channel |
| Client.ProtobufRpcClient.GetClientChannelPool | src/main/java/me/trinopoty/protobufRpc/client/ProtobufRpcClient.java:239-241 | a fresh pool whose borrows follow the given script, with no loans |
| Client.ProtobufRpcClient.Close | src/main/java/me/trinopoty/protobufRpc/client/ProtobufRpcClient.java:246-248 | releases the shared group exactly once |
| Client.Builder.constructor | src/main/java/me/trinopoty/protobufRpc/client/ProtobufRpcClient.java:34-35 | default settings |
| Client.Builder.SetMaxReceivePacketLength | src/main/java/me/trinopoty/protobufRpc/client/ProtobufRpcClient.java:37-40 | only the maximum packet length changes |
| Client.Builder.SetDefaultReceiveTimeoutMillis | src/main/java/me/trinopoty/protobufRpc/client/ProtobufRpcClient.java:42-45 | only the default receive timeout changes |
| Client.Builder.SetEnableTrafficLogging | src/main/java/me/trinopoty/protobufRpc/client/ProtobufRpcClient.java:47-50 | only the traffic-logging flag changes |
| Client.Builder.SetLoggingName | src/main/java/me/trinopoty/protobufRpc/client/ProtobufRpcClient.java:52-55 | only the logging name changes |
| Client.Builder.SetSslContext | src/main/java/me/trinopoty/protobufRpc/client/ProtobufRpcClient.java:57-60 | only the presence of an SSL context changes |
| Client.Builder.Build | src/main/java/me/trinopoty/protobufRpc/client/ProtobufRpcClient.java:62-92 | fails with `ClientBuildError`, leaving the group untouched; otherwise the group changes as `AcquireAll` says, and the build throws NullPointerException iff a group handed out is null; on success a client with a fresh registry, the group acquired once per bootstrap |
| ChannelPool.BorrowLoop | src/main/java/me/trinopoty/protobufRpc/client/ProtobufRpcClientChannelPool.java:141-152 | at most five borrows; what is invalidated is the dead proxies of the first borrows, in order; a proxy in hand is live and is the one of the next borrow |
| ChannelPool.BorrowLoopFailsIff | src/main/java/me/trinopoty/protobufRpc/client/ProtobufRpcClientChannelPool.java:141-156 | the loop ends with a proxy iff one of the borrows it may make hands out a live proxy after only dead ones |
| ChannelPool.LiveAfterDeadIsBorrowed | src/main/java/me/trinopoty/protobufRpc/client/ProtobufRpcClientChannelPool.java:141-150 | a live proxy after k < 5 dead ones is handed out, after exactly those k are invalidated |
| ChannelPool.AllDeadGivesNothing | src/main/java/me/trinopoty/protobufRpc/client/ProtobufRpcClientChannelPool.java:141-156 | five dead proxies in a row are all invalidated, and no proxy results |
| ChannelPool.FailedConnectEndsBorrow | src/main/java/me/trinopoty/protobufRpc/client/ProtobufRpcClientChannelPool.java:141-156 | a borrow that throws after k < 5 dead proxies ends the loop with none, after those k are invalidated |
| ChannelPool.SkipDeadPrefix | src/main/java/me/trinopoty/protobufRpc/client/ProtobufRpcClientChannelPool.java:143-150 | after k dead proxies the loop goes on exactly as if started at retry count k |
| ChannelPool.BorrowLoopExhausts | src/main/java/me/trinopoty/protobufRpc/client/ProtobufRpcClientChannelPool.java:141-150 | when every borrow it may make hands out a dead proxy, the loop makes them all and invalidates them all |
| ChannelPool.ProtobufRpcClientChannelPool.constructor | src/main/java/me/trinopoty/protobufRpc/client/ProtobufRpcClientChannelPool.java:108-126 | a fresh pool over the given script, with no loans |
| ChannelPool.ProtobufRpcClientChannelPool.GetResource | src/main/java/me/trinopoty/protobufRpc/client/ProtobufRpcClientChannelPool.java:138-173 | the proxy `BorrowLoop` ends with, or IOException("Unable to borrow channel resource.") when none; the pool is left as the loop leaves it, and a loan is counted when logging is on |
| ChannelPool.ProtobufRpcClientChannelPool.RunBorrowLoop | src/main/java/me/trinopoty/protobufRpc/client/ProtobufRpcClientChannelPool.java:141-152 | the retry loop ends with `BorrowLoop`'s proxy and leaves the pool as `BorrowLoop` says |
| ChannelPool.ProtobufRpcClientChannelPool.BorrowOnce | src/main/java/me/trinopoty/protobufRpc/client/ProtobufRpcClientChannelPool.java:144-150 | one turn of the loop: a live proxy or a throwing borrow ends it as `BorrowLoop` does, and a dead proxy is invalidated and the loop goes on unless that was the fifth |
| ChannelPool.ProtobufRpcClientChannelPool.ReturnResource | src/main/java/me/trinopoty/protobufRpc/client/ProtobufRpcClientChannelPool.java:180-193 | the loan count drops when logging is on; a live proxy is returned and a dead one invalidated, and the script is untouched |
| ChannelPool.ProtobufRpcClientChannelPool.Close | src/main/java/me/trinopoty/protobufRpc/client/ProtobufRpcClientChannelPool.java:129-131 | the pool is closed and nothing more can be borrowed |
| EndToEnd.RegisteredMethodEntry | src/main/java/me/trinopoty/protobufRpc/util/RpcServiceCollector.java:185-186 | the method a proxy calls is found under its identifier with the same method info |
| EndToEnd.CallReturnsImplementationResult | src/main/java/me/trinopoty/protobufRpc/server/RpcServerChannelHandler.java:103-160 | a registered call whose implementation returns a message of the response class completes on the client with exactly that message |
| EndToEnd.FailedCallReportsServerError | src/main/java/me/trinopoty/protobufRpc/client/RpcClientChannelImpl.java:93-95 | for each of the three failures of dispatch, the caller gets RpcCallServerException with exactly that failure's error text |
| EndToEnd.ReplyIsAnswerable | src/main/java/me/trinopoty/protobufRpc/client/RpcClientChannelImpl.java:235-243 | every reply carries the request's id and is a RESPONSE or ERROR, so it is stored for the waiting call |
| EndToEnd.CallOverTheWire | src/main/java/me/trinopoty/protobufRpc/codec/RpcMessageCodec.java:58-159 | the completed call again with both packets through the frame codec, when each fits its receiver's limit |
| EndToEnd.OobPushDelivered | src/main/java/me/trinopoty/protobufRpc/server/ProtobufRpcServerChannel.java:24-43 | a push of a registered method reaches the bound client handler exactly once, with the pushed message |

### Behaviour of the code as written

These are proved about the model, which follows the code.

- **Codec: the signature is found, not aligned to.** `findPacketSignature` looks for the
  signature anywhere in range, but `decode` then takes the first four unread bytes as the
  signature without comparing them (`StrayByteLosesFrame`).
- **Codec: the scan bound subtracts the reader index twice**
  (`RpcMessageCodec.java:233`).
  - When there is no signature, the saved reader index is restored after the buffer was compacted
    (`MissingSignature`).
  - With two frames back to back in one buffer, the second is lost when its packet is no more than
    4 bytes longer than the first, and the call throws when it is shorter (`SecondFrame`).
- **Codec: an empty packet is never decoded.** Its frame is exactly 8 bytes, and the header check
  needs more than 8 (`EmptyPacketWaits`).
- **Server build with only an SSL address throws NullPointerException**, not the intended
  IllegalArgumentException (`BuildError`).
- **Server start/stop is unbalanced.**
  - A failed bind is rethrown by `syncUninterruptibly`, so `startServer` throws before it marks
    the server started. The references `build` took are then never given back
    (`SingleRunReturnsIffBound`).
  - When the SSL bind fails after the plain bind succeeded, the plain channel stays bound. The
    following `stopServer` returns early and does not close it (`SslBindFailureStrandsPlainChannel`).
  - A restart returns the references twice and leaves the shared counts negative for the next
    server (`RestartReturnsTwice`, `RestartLeavesNoGroup`).
  - With a negative count, the next `build` acquires a null group. `group(null, ...)` then throws
    NullPointerException after both acquisitions were counted (`AcquirePairsOutcome`,
    `Server.Builder.Build`; the same holds for the client, `AcquireAllOutcome`).
- **`getActualLocalAddress` and `getActualSslLocalAddress` throw IllegalArgumentException.** Their
  Javadoc says IllegalStateException (`ActualAddress`).
- **A non-public parameterized constructor hides a public default one**
  (`HiddenParameterizedShadowsDefault`).
- **`addServiceImplementation` records the implementation class before the constructor lookup.**
  When the lookup throws, the class stays recorded without a constructor
  (`Server.Builder.RecordImplementation`).
- **The client leaks a group reference when built with an SSL context.** `build` takes two
  references and `close` returns one (`BuildThenCloseBalance`).
- **The null branches after `syncUninterruptibly` are dead code.** A failed connect throws out
  of `getClientChannel` instead of returning null (`GetClientChannel`). In the pool, such a throw
  comes out of `borrowObject` and is swallowed by the retry loop. The loop then fails with its
  IOException even when retries remain (`FailedConnectEndsBorrow`).

## Left out

- Socket I/O. The outcome of a bind or a connect is a parameter (`StartServer`, `GetClientChannel`).
  It is either the bound or connected channel, or the cause that `syncUninterruptibly` rethrows.
  Writes are appended to `Channel.written`. Flushing, event-loop scheduling and Netty's pipeline
  plumbing are not modelled.
- Threads and blocking. A synchronous call is split into `BeginCall` and `FinishCall`, and any
  packet handling may run in between. Timeouts are a missing response. Locks, `synchronized`,
  concurrent maps and thread interruption are left out.
- Protobuf serialization, generated `parseFrom` methods, CRC32 and `toString` are function values
  in `Wire.Protobuf`. Their round trips are assumed only where a lemma's `requires` names them.
- Reflection. Interfaces, methods and constructors are `ClassDecl`, `MethodDecl` and
  `ConstructorDecl` values. Creating an implementation object and invoking a method are
  parameters. Dynamic proxies are values naming the service entry they call through.
- The OOB flag. `RpcServiceCollector.java` in this revision takes no OOB argument, while
  `ProtobufRpcServer.java:147,168` passes one. The flag is modelled as part of the interface's
  `ClassDecl`.
- Logging: loggers and log text. Of the logging checks, the codec's "Logging name not provided."
  (`Codec.CodecConstructionError`) and the server's and client's checks in `build` are modelled.
- The channel initializers (`RpcServerChannelInitializer`, `RpcClientChannelInitializer`): their
  pipeline layout and idle-timer constants are not part of this model.
- SSL contexts, disconnect listeners and the `RpcClientChannelPoolConfig` settings are modelled
  only as present or absent.
- The generic object pool is a script of what its borrows do (`ObjectPool.supply`). A borrow
  either hands out a proxy or throws, because the factory's `getClientChannel` threw. The factory
  that would fill the script is left out: `ClientChannelFactory.create`, `wrap`, `destroyObject`
  (with the proxy's `realClose`, which only it calls) and `validateObject`. Returned channels are
  recorded but not borrowed again.
- Static fields. Three independent reference counts exist, each an `EventLoopGroupHolder` object:
  - the server's boss group (`ProtobufRpcServer.java:26-28`);
  - the server's client (worker) group (`ProtobufRpcServer.java:30-32`);
  - the client's group (`ProtobufRpcClient.java:22-24`).

  Every server object shares the first two, and every client object shares the third. The
  process-wide sharing of a static field is modelled by passing the same holder object to each
  builder.
- The forwarding methods of the pooled proxy (`getService`, `addOobHandler`,
  `setChannelDisconnectListener`) delegate to the connection and are not modelled separately.
  Neither are `getRemoteAddress` and the trivial getters.
- Codec.RpcMessageCodec.Decode: a negative declared length is reported as an illegal-length error.
  Java would instead fail inside the `readBytes` call that follows.
- Integer widths. Lengths and identifiers are Java `int` where the source compares or writes them.
  Message identifiers come from an `AtomicLong` and are modelled as unbounded.
