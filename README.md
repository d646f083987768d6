# EverlandJS mock game server, modelled in Dafny

EverlandJS is a mock server for a game client. It has two parts.

- **The game socket** is in websock.js. A framed message starts with an 8-byte header: a little-endian 32-bit opcode, then a little-endian 32-bit payload length. The `message` callback splits off this header only when the input is longer than 8 bytes; shorter input keeps opcode 0 and is left whole. It then switches on the opcode and answers two requests.
  - A `PingMessage` is answered with a framed `PongMessage`.
  - An `EstablishSessionRequest` is answered with a framed `EstablishSessionResponse`, followed by a hard-coded hex packet (`testPacket1`) sent raw.
  - Every reply the server frames itself is built by `createMessageWithHeader`. `testPacket1` is written as it stands, without a new header.
  - websock.js switches on a `MessageOpcode` table of its own (websock.js:7-17). It does not import opcodes.js, which holds the full table of the protocol; the model proves that every entry of the local table agrees with opcodes.js.
- **The mock HTTP API** is in server.js. `requestHandler` maps a method and a url to a fixed JSON response, or to a 404. The routes that take a request body collect it chunk by chunk before they answer.

The model has eight modules, one file each.

| file | module | what it holds |
|---|---|---|
| wrappers.dfy | `Wrappers` | `Option` |
| bytes.dfy | `Bytes` | bytes, `uint32`, `readUInt32LE`/`writeUInt32LE` |
| frame.dfy | `Frame` | `createMessageWithHeader` and the inbound header split |
| hex.dfy | `Hex` | `hexToBuffer`, and `toString('hex')` as its inverse |
| opcodes.dfy | `Opcodes` | the `MessageOpcode` table, its lookup and its inverse lookup |
| packets.dfy | `Packets` | `testPacket1` and the frames of the two fake clients, decoded |
| websock.dfy | `Websock` | the `message` callback and `sendMessage` |
| server.dfy | `Server` | `requestHandler` and the request-body accumulation |

Each side of the code is modelled in two ways.

- **The callbacks themselves** are methods: `OnMessage`, `OnPing`, `OnEstablish`, `SendMessage`, `CreateMessageWithHeader`, `WriteUInt32LE`, `ReceiveBody` and `RequestHandler`. Each reassigns its locals the way the source does, and each is proved equal to a function of its inputs.
- **Those functions** are `Handle`, `HandlePing`, `HandleEstablish`, `Framed`, `EncodeFrame`, `Concat` and `HandleRequest`. The lemmas state the properties of the callbacks in terms of them.

What lies outside the code is passed in as a parameter:

- **The protobuf classes** are a `Codec` of partial functions. `None` stands for a call that raises, which the handler's `catch` turns into "send nothing more".
- **`Date.now()`** is a clock `now`. Reading `i` of one callback is `now(i)`.
- **A `JSON.parse` that completes** is a predicate `destructures` on the body.

The result of a websocket callback is the list of the byte strings it hands to `ws.send`, in order.

## Model

| member | source | states |
|---|---|---|
| Bytes.ReadUInt32LE | websock.js:63 | The value of the four bytes at an offset, least significant first, always a 32-bit value. What it means is stated by `Bytes.UInt32ToLE` and `Bytes.LEOfRead`. |
| Bytes.UInt32ToLE | websock.js:29-30 | The four bytes written for a 32-bit value read back as that value. |
| Bytes.LEOfRead | websock.js:63 | Every four bytes are the encoding of the value `readUInt32LE` reads from them, so the little-endian layout is a bijection. |
| Bytes.ReadUInt32LEWindow | websock.js:63 | A 32-bit read depends only on the four bytes it covers. |
| Bytes.WriteUInt32LE | websock.js:29-30 | `writeUInt32LE` replaces exactly the four bytes at the offset with the value's little-endian encoding. Every other byte of the buffer is unchanged. |
| Frame.EncodeFrame | websock.js:27-32 | A frame is 8 bytes longer than its payload. Its first field is the opcode, its second the payload length, and the payload follows the header unchanged. |
| Frame.CreateMessageWithHeader | websock.js:27-32 | Allocating a zeroed header, writing the opcode at 0 and the length at 4, and appending the payload gives exactly that layout. |
| Frame.SplitInbound | websock.js:57-65 | The header split: only input longer than 8 bytes is split, by reading the opcode field alone. The round trips with `Frame.EncodeFrame` are `Frame.SplitEncodeRoundTrip` and `Frame.EncodeSplitRoundTrip`. |
| Frame.SplitEncodeRoundTrip | websock.js:57-65 | Splitting a built frame gives back its opcode and payload if and only if the payload is non-empty. |
| Frame.HeaderOnlyFrame | websock.js:57-65 | A header-only frame is not split. It is received as opcode 0, with the whole header as its data. |
| Frame.EncodeSplitRoundTrip | websock.js:57-65 | An input longer than 8 bytes whose length field is honest is exactly the frame rebuilt from its split. |
| Frame.DeclaredLengthIgnored | websock.js:60-65 | Two inputs longer than 8 bytes that differ only in the length field split identically. |
| Hex.StripWhitespace | websock.js:34-36 | The whitespace removal leaves no whitespace and never lengthens the text. |
| Hex.StripChar | websock.js:35 | A single character is removed if it is whitespace and kept otherwise. |
| Hex.StripAppend | websock.js:35 | Removing whitespace from a concatenation removes it from each part, so every other character survives, in order. |
| Hex.StripWithoutWhitespace | websock.js:35 | Text without whitespace passes through the removal unchanged. |
| Hex.HexToBytes | websock.js:35 | `Buffer.from(…, 'hex')` on whitespace-free text: each pair of hex digits becomes one byte, in order. `Hex.HexToBytesAppend` and `Hex.ToHexOfHexToBytes` state what it gives. |
| Hex.HexToBuffer | websock.js:34-36 | Whitespace is removed and the remaining hex digits decode in pairs. `Hex.HexToBufferOfPlainHex` and `Hex.HexToBytesOfToHex` state what it gives. |
| Hex.HexToBufferOfPlainHex | websock.js:34-36 | Hex text without whitespace decodes as it stands, to half as many bytes as it has digits. |
| Hex.HexToBytesAppend | websock.js:35 | Decoding two concatenated pieces of hex gives the two decodings concatenated. |
| Hex.HexToBytesOfToHex | websock.js:43 | Decoding `toString('hex')` of any bytes gives those bytes back. |
| Hex.ToHex | websock.js:43 | `toString('hex')`: each byte becomes two lower-case hex digits, in order. `Hex.HexToBytesOfToHex` and `Hex.ToHexOfHexToBytes` prove it inverse to `Hex.HexToBytes`. |
| Hex.ToHexOfHexToBytes | websock.js:50 | Rendering decoded lower-case hex gives the text back. |
| Opcodes.Value | opcodes.js:1-131 | The opcode of each of the 118 names of the table. `Opcodes.NameOfValue`, `Opcodes.ValueInjective`, `Opcodes.ValueFitsUInt32` and `Opcodes.MaxOpcodeAttained` state its properties. |
| Opcodes.NameOfValue | opcodes.js:1-131 | Looking up the opcode of any name finds that name. |
| Opcodes.ValueOfNameOf | opcodes.js:1-131 | The inverse lookup only finds a name whose opcode is the one looked up. |
| Opcodes.ValueInjective | opcodes.js:1-131 | No two names of the table share an opcode. |
| Opcodes.NoneIsZero | opcodes.js:2 | `None` is 0, and 0 names `None`. |
| Opcodes.ValueFitsUInt32 | opcodes.js:1-131 | Every opcode lies between 0 and 101023, so it fits the 32-bit header field. |
| Opcodes.MaxOpcodeAttained | opcodes.js:130 | 101023, PlayerDanceUpdatedEvent's opcode, is the table's maximum. |
| Packets.TestPacket1IsHex | websock.js:22 | `testPacket1` is well-formed hex without whitespace, so `hexToBuffer` decodes it as it stands. |
| Packets.TestPacket1Bytes | websock.js:149 | `hexToBuffer(testPacket1)`, the bytes the session case sends raw. `Packets.TestPacket1Layout` and `Packets.TestPacket1IsNoFrame` state what they are. |
| Packets.TestPacket1Layout | websock.js:22 | `hexToBuffer(testPacket1)` is 69 bytes. Its header says opcode 100000 (GameSessionOpenedEvent) and length 58, but 61 bytes follow the header. |
| Packets.TestPacket1IsNoFrame | websock.js:22 | No frame of any opcode and payload is equal to `testPacket1`. |
| Packets.FakeClientPingIsFrame | fakeclient.js:6 | The ping client sends 22 bytes. They are an honest frame of opcode 1101 with a 14-byte payload. |
| Packets.FakeClientEstablishIsFrame | fakeclient-js.js:6 | The session client sends 81 bytes. They are an honest frame of opcode 1100 with a 73-byte payload. |
| Websock.LocalTableAgrees | websock.js:7-17 | Every entry of websock.js's own opcode table agrees with opcodes.js. |
| Websock.HandlerOpcodesNamed | websock.js:7-17 | The handler's opcodes 1101, 1001, 1100, 1000 and 100000 are those of PingMessage, PongMessage, EstablishSessionRequest, EstablishSessionResponse and GameSessionOpenedEvent in opcodes.js. |
| Websock.Handle | websock.js:49-172 | The `message` callback as a function of the input, the protobuf calls and the clock. Its properties are the lemmas `Websock.SendsOnlyOnRequests` to `Websock.FakeClientEstablishIsAnswered`. |
| Websock.Framed | websock.js:38-41 | The frame `sendMessage` hands over: the `createMessageWithHeader` frame of the serialized message, or nothing. The method `Websock.SendMessage` is proved equal to it. |
| Websock.SendMessage | websock.js:38-44 | `sendMessage` hands over the frame of the serialized message, or nothing when serializing raises or the payload overflows the length field. |
| Websock.OnPing | websock.js:68-84 | The PingMessage case sends exactly what `HandlePing` describes. |
| Websock.HandlePing | websock.js:68-84 | The PingMessage case as a function of the payload, the protobuf calls and the clock. `Websock.PingReply` states what it sends. |
| Websock.OnEstablish | websock.js:85-166 | The EstablishSessionRequest case sends exactly what `HandleEstablish` describes. |
| Websock.HandleEstablish | websock.js:85-166 | The EstablishSessionRequest case as a function of the payload, the protobuf calls and the clock. `Websock.EstablishReply` and `Websock.GameSessionOpenedEventNeverSent` state what it sends. |
| Websock.OnMessage | websock.js:49-172 | The `message` callback sends exactly what `Handle` describes. |
| Websock.ShortInputIsOpcodeNone | websock.js:57-65 | Input of at most 8 bytes keeps opcode 0 (the table's `None`) and is not split. |
| Websock.SendsOnlyOnRequests | websock.js:52-170 | Nothing is sent unless the input is longer than 8 bytes and its opcode field is PingMessage or EstablishSessionRequest. Empty, short and unknown input sends nothing. |
| Websock.PingReply | websock.js:68-84 | A ping sends at most one frame. It sends one exactly when the ping decodes and the pong serializes. That frame is opcode PongMessage around the pong, which echoes the client timestamp, carries the clock reading and claims the master clock. |
| Websock.EstablishReply | websock.js:85-166 | A session request sends at most two messages, in this order: the EstablishSessionResponse frame, then `testPacket1`. Each message is present exactly when the calls before it succeed. The response succeeds, echoes the client timestamp and carries the mock account 123 "test@test" and character 1 "PogChamp69" with appearance (3, 682). |
| Websock.SentMessages | websock.js:67-171 | Everything the handler sends is a PongMessage frame, an EstablishSessionResponse frame or `testPacket1`. |
| Websock.GameSessionOpenedEventNeverSent | websock.js:135-149 | No frame built by `createMessageWithHeader` with opcode GameSessionOpenedEvent, whatever its payload, is sent. (`testPacket1` carries that opcode in its first field, but its length field is wrong.) |
| Websock.DeclaredLengthIgnoredByHandler | websock.js:60-67 | Two inputs of the same length that differ at most in the length field get the same sends, whatever their length. |
| Websock.FrameReachesCase | websock.js:57-67 | A frame built by `createMessageWithHeader` reaches the case of its opcode with its payload, unless the payload is empty. |
| Websock.FakeClientPingIsAnswered | fakeclient.js:6-7 | The ping client's frame reaches the PingMessage case with its payload. |
| Websock.FakeClientEstablishIsAnswered | fakeclient-js.js:6-7 | The session client's frame reaches the EstablishSessionRequest case with its payload. |
| Server.ReceiveBody | server.js:57-60 | The `data` callbacks build the body as the in-order concatenation of the chunks, as long as all of them together. |
| Server.RequestHandler | server.js:52-165 | `requestHandler` answers as `HandleRequest` describes. It reads the body only on the routes that wait for one. |
| Server.HandleRequest | server.js:52-165 | `requestHandler` as a function of the request and the JSON parser. Its properties are the lemmas `Server.RouteTable` to `Server.GatewayList`. |
| Server.MatchRoute | server.js:56-164 | The branch a method and url take. `Server.RouteTable` states each branch in both directions. |
| Server.Respond | server.js:62-164 | The answer of each branch to the body it was given. The lemmas `Server.UnmatchedIsNotFound` to `Server.GatewayList` state each branch's answer. |
| Server.CharacterLoginResponse | server.js:118-149 | The 200 response built from the first mock character, or the 400 response when the list is empty. `Server.CharacterLoginSucceeds` proves the list is never empty; `Server.CharacterLoginIdentity` and `Server.CharacterLoginPlacement` state its fields. |
| Server.Concat | server.js:57-60 | The body left by `body += chunk` over the chunks. `Server.ConcatAppend`, `Server.ChunkInBody` and `Server.ConcatLength` state its contents and length. |
| Server.ConcatAppend | server.js:58-60 | The body of chunks received in two runs is the first run's body followed by the second's. |
| Server.ChunkInBody | server.js:58-60 | Every chunk appears in the body at the offset given by the total length of the chunks before it. |
| Server.ConcatLength | server.js:58-60 | The body is as long as all the chunks together. |
| Server.RouteTable | server.js:56-164 | Each branch is taken if and only if the request has its method and one of its urls. |
| Server.UnmatchedIsNotFound | server.js:160-164 | Any request no branch matches gets 404, `text/plain` and the body "Not Found\n". |
| Server.MethodMatters | server.js:56-164 | Only GET and POST are routed. GET on either login url, and POST on `/account` or `/gateway/endpoint`, get 404. |
| Server.TrailingSlash | server.js:56-151 | A trailing slash is accepted on `/account` and `/character` only. The two login urls and `/gateway/endpoint` must match exactly. |
| Server.AccountLoginIgnoresCredentials | server.js:62-75 | Whatever body arrives, an account login whose body parses gets 200, JSON, error 0 and the two fixed tokens. |
| Server.UnparsableLoginBody | server.js:62-64 | A login whose body does not parse to a non-null JSON value gets no response. |
| Server.CharacterLoginSucceeds | server.js:114-149 | A character login whose body parses always gets the 200 response. The 400 branch cannot be taken, because the mock character list is never empty. |
| Server.CharacterLoginIdentity | server.js:118-132 | The character login response has error 0, CharacterId 1, DisplayName "Crop" and Name "test". |
| Server.CharacterLoginPlacement | server.js:121-132 | The character login response has AccountId 1, MapId 0 and ChannelId 0, and the mock character's six item ids. The mock character record itself says channel 1. |
| Server.CreateCharacterAlwaysAnswers | server.js:96-107 | Character creation always answers 200 with its fixed message, whatever its body. |
| Server.BodyIgnoredWithoutReading | server.js:77-95 | The routes that read no body always answer, and their answer does not depend on the chunks. |
| Server.MatchedRoutesAreJson | server.js:56-164 | A response is JSON if and only if its route matched. The only plain-text response is the fallback. |
| Server.GatewayList | server.js:151-159 | The gateway endpoint returns the one-element list `["ws://localhost:8080/"]`. |

## Left out

- websock.js keeps no session registry, broadcasts nothing and keeps no event log. Each connection has only its own `message` callback, so none of those is modelled.
- websock.js has no frame errors. It reads only the opcode field, never checks the declared length, and treats any input of 1 to 8 bytes as opcode 0. The model follows websock.js.
- The protobuf classes of `messages_pb` are not part of this model. Decoding and serializing are the partial functions of a `Codec`. The message datatypes hold only the fields the handler reads or sets.
- `Date.now()` readings are the parameter `now`. `Vector2` uses `real`, which is exact for the two coordinates 1.0 and 2.0. No floating-point behaviour is modelled.
- `console.log` and `console.error` are not modelled, and neither are the `toObject()` and reflection calls made only to log. These calls are assumed not to raise.
- `ws.send` is assumed not to raise. The socket writes are the callback's result, so delivery, back-pressure and the `close` event are not modelled.
- The WebSocket server, the four HTTP(S) servers, their ports and the TLS key files are not modelled.
- `Hex.HexToBuffer` decodes well-formed input only: an even number of hex digits once whitespace is removed. What Node does with odd lengths or non-hex characters is not modelled. testPacket1 and the frames of fakeclient.js and fakeclient-js.js, the only hex constants the code decodes, are proved well-formed.
- `testPacket0`, `testPacket2`, `testPacket3` and `testPacket4` are defined but only used in commented-out code, so they are not modelled.
- Only the frames of fakeclient.js and fakeclient-js.js are modelled, not their connections. fakeclient.js connects to port 81, where nothing in this repository listens.
- `JSON.stringify` is not modelled. A response body is the JSON value handed to it. `JSON.parse` is reduced to whether the destructuring after it completes.
- Server.UnparsableLoginBody: "no response" stands for the exception thrown from the `end` callback. As an uncaught exception in an event handler, it ends the Node process, which is not modelled.
- Each chunk is modelled as the text `chunk.toString()` gives. A multi-byte UTF-8 character split across two chunks is therefore not modelled.
- Request headers and their logging are not modelled.
