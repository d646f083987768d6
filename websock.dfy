/**
 * The game socket of the mock server: the `message` callback that splits the
 * header off each inbound frame, switches on the opcode and answers a ping or a
 * session-establishment request, and `sendMessage`, which frames a serialized
 * reply and writes it to the socket.
 *
 * The protobuf classes are foreign. Their messages are the datatypes below with
 * the fields the handler touches, and every `deserializeBinary` and
 * `serializeBinary` call is a partial function of a `Codec`: `None` stands for
 * the call raising, which the handler's `catch` turns into "send nothing more".
 * The successive `Date.now()` readings of one callback are `now(0)`, `now(1)`.
 * What a callback writes with `ws.send` is its result: the list of byte strings
 * in the order they are sent.
 */
module Websock {
  import opened Wrappers
  import opened Bytes
  import opened Frame
  import Hex
  import Opcodes
  import Packets

  /** The private copy of part of the opcode table that websock.js keeps. */
  const MessageOpcode: map<Opcodes.Name, uint32> := map[
    Opcodes.Session(Opcodes.EstablishSessionResponse) := 1000,
    Opcodes.Session(Opcodes.PongMessage) := 1001,
    Opcodes.Session(Opcodes.SessionClosedEvent) := 1002,
    Opcodes.Session(Opcodes.ReestablishSessionEvent) := 1003,
    Opcodes.Session(Opcodes.EstablishSessionRequest) := 1100,
    Opcodes.Session(Opcodes.PingMessage) := 1101,
    Opcodes.Game(Opcodes.GameSessionClosedEvent) := 100001,
    Opcodes.Game(Opcodes.GameSessionOpenedEvent) := 100000
  ]

  const PingMessageOpcode: uint32 := MessageOpcode[Opcodes.Session(Opcodes.PingMessage)]
  const PongMessageOpcode: uint32 := MessageOpcode[Opcodes.Session(Opcodes.PongMessage)]
  const EstablishSessionRequestOpcode: uint32 := MessageOpcode[Opcodes.Session(Opcodes.EstablishSessionRequest)]
  const EstablishSessionResponseOpcode: uint32 := MessageOpcode[Opcodes.Session(Opcodes.EstablishSessionResponse)]
  const GameSessionOpenedEventOpcode: uint32 := MessageOpcode[Opcodes.Game(Opcodes.GameSessionOpenedEvent)]

  // ---------------------------------------------------------------------------
  // Payload messages, with the fields the handler reads or sets

  datatype PingMessage = PingMessage(clientTimestamp: int)

  datatype PongMessage = PongMessage(clientTimestamp: int, serverTimestamp: int, isMasterClock: bool)

  datatype EstablishSessionRequest = EstablishSessionRequest(clientTimestamp: int)

  datatype AccountInfo = AccountInfo(accountId: int, email: string)

  datatype CharacterAppearance = CharacterAppearance(part: int, value: int)

  datatype CharacterInfo = CharacterInfo(
    characterId: int, name: string, createdTimestamp: int, appearance: seq<CharacterAppearance>)

  datatype EstablishSessionResponse = EstablishSessionResponse(
    success: bool, clientTimestamp: int, masterTimestamp: int,
    account: AccountInfo, character: CharacterInfo)

  /** The coordinates are the exact binary fractions 1.0 and 2.0, so `real` loses nothing. */
  datatype Vector2 = Vector2(x: real, y: real)

  /** Only the enum value the handler uses; the enum itself is foreign. */
  datatype FacingDirection = FacingDirectionEast

  datatype PlayerState = PlayerState(
    position: Vector2, facingDirection: FacingDirection, gameSessionId: int,
    accountId: int, characterId: int, displayName: string, appearance: seq<CharacterAppearance>)

  datatype WrappedEntityState = WrappedEntityState(entityType: int, data: seq<byte>)

  datatype GameSessionOpenedEvent = GameSessionOpenedEvent(
    accountId: int, characterId: int, entityId: int,
    wrappedEntityState: WrappedEntityState, channelId: int, mapId: int)

  /** The foreign protobuf calls the handler makes; `None` is a raised exception. */
  datatype Codec = Codec(
    decodePing: seq<byte> -> Option<PingMessage>,
    serializePong: PongMessage -> Option<seq<byte>>,
    decodeEstablishRequest: seq<byte> -> Option<EstablishSessionRequest>,
    serializeEstablishResponse: EstablishSessionResponse -> Option<seq<byte>>,
    serializePlayerState: PlayerState -> Option<seq<byte>>)

  // ---------------------------------------------------------------------------
  // The handler as a function of its input

  /**
   * `sendMessage(ws, opcode, message)`, up to the write: the frame handed to
   * `ws.send`, or `None` when serializing raised or the payload length does not
   * fit the length field (`writeUInt32LE` raises a RangeError).
   */
  function Framed(opcode: uint32, serialized: Option<seq<byte>>): (frame: Option<seq<byte>>)
  {
    match serialized
    case None => None
    case Some(buffer) =>
      if |buffer| < 0x1_0000_0000 then Some(EncodeFrame(opcode, buffer)) else None
  }

  /** The reply the PingMessage case builds. */
  function PongFor(ping: PingMessage, now: nat -> int): (pong: PongMessage)
  {
    PongMessage(ping.clientTimestamp, now(0), true)
  }

  /** The PingMessage case: reply with one framed PongMessage, or nothing when a call raises. */
  function HandlePing(payload: seq<byte>, codec: Codec, now: nat -> int): (sent: seq<seq<byte>>)
  {
    match codec.decodePing(payload)
    case None => []
    case Some(ping) =>
      match Framed(PongMessageOpcode, codec.serializePong(PongFor(ping, now)))
      case None => []
      case Some(frame) => [frame]
  }

  const MockAppearance := CharacterAppearance(3, 682)

  /** The canned session response of the EstablishSessionRequest case. */
  function EstablishResponseFor(request: EstablishSessionRequest, now: nat -> int): (response: EstablishSessionResponse)
  {
    var account := AccountInfo(123, "test@test");
    var character := CharacterInfo(1, "PogChamp69", now(0), [MockAppearance]);
    EstablishSessionResponse(true, request.clientTimestamp, now(1), account, character)
  }

  /** The player state the EstablishSessionRequest case serializes for its (unsent) event. */
  const MockPlayerState := PlayerState(
    Vector2(1.0, 2.0), FacingDirectionEast, 6969, 123, 1, "PogChamp69", [MockAppearance])

  /** The GameSessionOpenedEvent the case builds around the serialized player state. */
  function GameSessionOpenedEventFor(playerState: seq<byte>): (event: GameSessionOpenedEvent)
  {
    GameSessionOpenedEvent(123, 1, 1, WrappedEntityState(5, playerState), 1, 1)
  }

  /**
   * The EstablishSessionRequest case: send the framed session response, then
   * serialize the player state into a GameSessionOpenedEvent that is never
   * sent, then send testPacket1 raw. A raising call ends the case early.
   */
  function HandleEstablish(payload: seq<byte>, codec: Codec, now: nat -> int): (sent: seq<seq<byte>>)
  {
    match codec.decodeEstablishRequest(payload)
    case None => []
    case Some(request) =>
      var response := EstablishResponseFor(request, now);
      match Framed(EstablishSessionResponseOpcode, codec.serializeEstablishResponse(response))
      case None => []
      case Some(frame) =>
        match codec.serializePlayerState(MockPlayerState)
        case None => [frame]
        case Some(state) =>
          // The event is built around `state` and then dropped: its
          // `sendMessage` is commented out, so only testPacket1 follows.
          [frame, Packets.TestPacket1Bytes()]
  }

  /**
   * The `message` callback: what it sends for one inbound message. An empty
   * message is ignored; otherwise the header split decides the opcode and the
   * switch the reply; any other opcode reaches the default branch, which only logs.
   */
  function Handle(data: seq<byte>, codec: Codec, now: nat -> int): (sent: seq<seq<byte>>)
  {
    if |data| == 0 then []
    else
      var inbound := SplitInbound(data);
      if inbound.opcode == PingMessageOpcode then HandlePing(inbound.payload, codec, now)
      else if inbound.opcode == EstablishSessionRequestOpcode then HandleEstablish(inbound.payload, codec, now)
      else []
  }

  // ---------------------------------------------------------------------------
  // The handler as the source runs it

  /** `sendMessage`: serialize, frame with `createMessageWithHeader`, hand over to `ws.send`. */
  method SendMessage(opcode: uint32, serialized: Option<seq<byte>>) returns (frame: Option<seq<byte>>)
    ensures frame == Framed(opcode, serialized)
  {
    if serialized.None? || |serialized.value| >= 0x1_0000_0000 {
      return None;
    }
    var responseWithHeader := CreateMessageWithHeader(opcode, serialized.value);
    frame := Some(responseWithHeader);
  }

  /** The PingMessage case of the switch: decode, build the pong, send it. */
  method OnPing(data: seq<byte>, codec: Codec, now: nat -> int) returns (sent: seq<seq<byte>>)
    ensures sent == HandlePing(data, codec, now)
  {
    sent := [];
    var message := codec.decodePing(data);
    if message.None? {
      return;
    }
    var pongMessage := PongMessage(message.value.clientTimestamp, now(0), true);
    var frame := SendMessage(PongMessageOpcode, codec.serializePong(pongMessage));
    if frame.Some? {
      sent := sent + [frame.value];
    }
  }

  /**
   * The EstablishSessionRequest case of the switch: send the response, build
   * the player state and the event around it, send testPacket1.
   */
  method OnEstablish(data: seq<byte>, codec: Codec, now: nat -> int) returns (sent: seq<seq<byte>>)
    ensures sent == HandleEstablish(data, codec, now)
  {
    sent := [];
    var message := codec.decodeEstablishRequest(data);
    if message.None? {
      return;
    }
    var mockAccount := AccountInfo(123, "test@test");
    var mockCharacter := CharacterInfo(1, "PogChamp69", now(0), [MockAppearance]);
    var payload := EstablishSessionResponse(true, message.value.clientTimestamp, now(1), mockAccount, mockCharacter);
    var frame := SendMessage(EstablishSessionResponseOpcode, codec.serializeEstablishResponse(payload));
    if frame.None? {
      return;
    }
    sent := sent + [frame.value];
    var playerState := PlayerState(
      Vector2(1.0, 2.0), FacingDirectionEast, 6969, 123, 1, "PogChamp69", [MockAppearance]);
    var state := codec.serializePlayerState(playerState);
    if state.None? {
      return;
    }
    // Mirrors the event built at websock.js:135-141; its send at websock.js:143 is commented out.
    var gameSessionOpenedEvent := GameSessionOpenedEventFor(state.value);
    sent := sent + [Packets.TestPacket1Bytes()];
  }

  /**
   * The `message` callback step by step: it reassigns the header, the data and
   * the opcode, then runs the case of the switch the opcode selects, collecting
   * each `ws.send` in `sent` in the order it happens.
   */
  method OnMessage(data: seq<byte>, codec: Codec, now: nat -> int) returns (sent: seq<seq<byte>>)
    ensures sent == Handle(data, codec, now)
  {
    sent := [];
    if |data| == 0 {
      return;
    }
    var header: seq<byte> := [];
    var body := data;
    var opcode: uint32 := 0;
    if |data| > HeaderSize {
      header := data[..HeaderSize];
      body := data[HeaderSize..];
      opcode := ReadUInt32LE(header, 0);
      ReadUInt32LEWindow(header, data, 0, 0);
    }
    if opcode == PingMessageOpcode {
      sent := OnPing(body, codec, now);
    } else if opcode == EstablishSessionRequestOpcode {
      sent := OnEstablish(body, codec, now);
    }
  }

  // ---------------------------------------------------------------------------
  // Properties of the handler

  /** `frame` is a header-and-payload frame of `opcode` whose length field is honest. */
  predicate CarriesPayload(frame: seq<byte>, opcode: uint32, payload: seq<byte>)
  {
    |frame| == HeaderSize + |payload| &&
    ReadUInt32LE(frame, 0) == opcode && ReadUInt32LE(frame, 4) == |payload| &&
    frame[HeaderSize..] == payload
  }

  /** The local copy of the opcode table agrees with opcodes.js wherever it has an entry. */
  lemma LocalTableAgrees()
    ensures forall n :: n in MessageOpcode ==> MessageOpcode[n] == Opcodes.Value(n)
  {
  }

  /** The opcodes the handler switches on and replies with name the messages it decodes and builds. */
  lemma HandlerOpcodesNamed()
    ensures Opcodes.NameOf(PingMessageOpcode) == Some(Opcodes.Session(Opcodes.PingMessage))
    ensures Opcodes.NameOf(PongMessageOpcode) == Some(Opcodes.Session(Opcodes.PongMessage))
    ensures Opcodes.NameOf(EstablishSessionRequestOpcode) == Some(Opcodes.Session(Opcodes.EstablishSessionRequest))
    ensures Opcodes.NameOf(EstablishSessionResponseOpcode) == Some(Opcodes.Session(Opcodes.EstablishSessionResponse))
    ensures Opcodes.NameOf(GameSessionOpenedEventOpcode) == Some(Opcodes.Game(Opcodes.GameSessionOpenedEvent))
  {
    Opcodes.NameOfValue(Opcodes.Session(Opcodes.PingMessage));
    Opcodes.NameOfValue(Opcodes.Session(Opcodes.PongMessage));
    Opcodes.NameOfValue(Opcodes.Session(Opcodes.EstablishSessionRequest));
    Opcodes.NameOfValue(Opcodes.Session(Opcodes.EstablishSessionResponse));
    Opcodes.NameOfValue(Opcodes.Game(Opcodes.GameSessionOpenedEvent));
  }

  /** Input no longer than the header keeps the initial opcode, the table's `None`, and is not split. */
  lemma ShortInputIsOpcodeNone(data: seq<byte>)
    requires |data| <= HeaderSize
    ensures SplitInbound(data) == Inbound(Opcodes.Value(Opcodes.None), data)
  {
  }

  /**
   * The handler writes to the socket only for input longer than the header
   * whose opcode field is PingMessage or EstablishSessionRequest: empty input,
   * input of at most 8 bytes and unknown opcodes are answered with nothing.
   */
  lemma SendsOnlyOnRequests(data: seq<byte>, codec: Codec, now: nat -> int)
    ensures Handle(data, codec, now) != [] ==>
      |data| > HeaderSize &&
      (ReadUInt32LE(data, 0) == PingMessageOpcode || ReadUInt32LE(data, 0) == EstablishSessionRequestOpcode)
  {
    if |data| > 0 && |data| <= HeaderSize {
      ShortInputIsOpcodeNone(data);
      assert SplitInbound(data).opcode == 0;
    }
  }

  /**
   * The PingMessage case sends at most one frame, and one exactly when the ping
   * decodes and its PongMessage serializes; that frame is the PongMessage
   * opcode around the serialized pong, which echoes the client timestamp, takes
   * the server timestamp from the clock and claims the master clock.
   */
  lemma PingReply(data: seq<byte>, codec: Codec, now: nat -> int)
    requires |data| > HeaderSize && ReadUInt32LE(data, 0) == PingMessageOpcode
    ensures var sent := Handle(data, codec, now);
      var ping := codec.decodePing(data[HeaderSize..]);
      |sent| <= 1 &&
      (|sent| == 1 <==>
        ping.Some? && Framed(PongMessageOpcode, codec.serializePong(PongMessage(ping.value.clientTimestamp, now(0), true))).Some?) &&
      (|sent| == 1 ==>
        CarriesPayload(sent[0], PongMessageOpcode,
          codec.serializePong(PongMessage(ping.value.clientTimestamp, now(0), true)).value))
  {
  }

  /**
   * The EstablishSessionRequest case sends a prefix of two messages: the framed
   * EstablishSessionResponse, then testPacket1 raw. Nothing is sent when the
   * request does not decode or the response does not serialize; testPacket1
   * follows exactly when the player state also serializes. The response
   * succeeds, echoes the client timestamp, takes the master timestamp from the
   * second clock reading and carries the mock account and character.
   */
  lemma EstablishReply(data: seq<byte>, codec: Codec, now: nat -> int)
    requires |data| > HeaderSize && ReadUInt32LE(data, 0) == EstablishSessionRequestOpcode
    ensures var sent := Handle(data, codec, now);
      var request := codec.decodeEstablishRequest(data[HeaderSize..]);
      |sent| <= 2 &&
      (request.None? ==> sent == []) &&
      (request.Some? ==>
        var response := EstablishSessionResponse(
          true, request.value.clientTimestamp, now(1), AccountInfo(123, "test@test"),
          CharacterInfo(1, "PogChamp69", now(0), [CharacterAppearance(3, 682)]));
        var framed := Framed(EstablishSessionResponseOpcode, codec.serializeEstablishResponse(response));
        (|sent| > 0 <==> framed.Some?) &&
        (|sent| == 2 <==> framed.Some? && codec.serializePlayerState(MockPlayerState).Some?) &&
        (|sent| > 0 ==> CarriesPayload(sent[0], EstablishSessionResponseOpcode, codec.serializeEstablishResponse(response).value)) &&
        (|sent| == 2 ==> sent[1] == Packets.TestPacket1Bytes()))
  {
  }

  /**
   * Everything the handler writes is a PongMessage frame, an
   * EstablishSessionResponse frame or testPacket1.
   */
  lemma SentMessages(data: seq<byte>, codec: Codec, now: nat -> int)
    ensures forall f :: f in Handle(data, codec, now) ==>
      f == Packets.TestPacket1Bytes() ||
      (|f| >= HeaderSize && (ReadUInt32LE(f, 0) == PongMessageOpcode || ReadUInt32LE(f, 0) == EstablishSessionResponseOpcode))
  {
    if |data| > HeaderSize && ReadUInt32LE(data, 0) == PingMessageOpcode {
      PingReply(data, codec, now);
    } else if |data| > HeaderSize && ReadUInt32LE(data, 0) == EstablishSessionRequestOpcode {
      EstablishReply(data, codec, now);
    } else {
      SendsOnlyOnRequests(data, codec, now);
    }
  }

  /**
   * The GameSessionOpenedEvent the EstablishSessionRequest case builds is never
   * sent: no frame of that opcode, whatever its payload, is among what the
   * handler writes. (testPacket1 carries the opcode, but with a false length.)
   */
  lemma GameSessionOpenedEventNeverSent(data: seq<byte>, codec: Codec, now: nat -> int, payload: seq<byte>)
    requires |payload| < 0x1_0000_0000
    ensures EncodeFrame(GameSessionOpenedEventOpcode, payload) !in Handle(data, codec, now)
  {
    var event := EncodeFrame(GameSessionOpenedEventOpcode, payload);
    Packets.TestPacket1IsNoFrame(GameSessionOpenedEventOpcode, payload);
    SentMessages(data, codec, now);
    assert ReadUInt32LE(event, 0) == GameSessionOpenedEventOpcode;
  }

  /**
   * What the handler sends does not depend on the declared length in the
   * header: two inputs of any one length that differ at most in bytes 4 to 7
   * get the same sends.
   */
  lemma DeclaredLengthIgnoredByHandler(a: seq<byte>, b: seq<byte>, codec: Codec, now: nat -> int)
    requires |a| == |b|
    requires forall i :: 0 <= i < |a| && (i < 4 || HeaderSize <= i) ==> a[i] == b[i]
    ensures Handle(a, codec, now) == Handle(b, codec, now)
  {
    if |a| > HeaderSize {
      assert a[..4] == b[..4];
      assert a[HeaderSize..] == b[HeaderSize..];
      DeclaredLengthIgnored(a, b);
    }
  }

  /**
   * A frame built by `createMessageWithHeader` reaches the case of its opcode
   * with its payload, unless the payload is empty: a header-only frame is not
   * split and falls to the default case.
   */
  lemma FrameReachesCase(opcode: uint32, payload: seq<byte>, codec: Codec, now: nat -> int)
    requires |payload| < 0x1_0000_0000
    ensures Handle(EncodeFrame(opcode, payload), codec, now) ==
      if |payload| == 0 then []
      else if opcode == PingMessageOpcode then HandlePing(payload, codec, now)
      else if opcode == EstablishSessionRequestOpcode then HandleEstablish(payload, codec, now)
      else []
  {
    SplitEncodeRoundTrip(opcode, payload);
  }

  /** The fake client's ping reaches the PingMessage case with its 14-byte payload. */
  lemma FakeClientPingIsAnswered(codec: Codec, now: nat -> int)
    ensures Handle(Packets.FakeClientPingBytes(), codec, now) ==
      HandlePing(Packets.FakeClientPingBytes()[HeaderSize..], codec, now)
  {
    Packets.FakeClientPingIsFrame();
    var b := Packets.FakeClientPingBytes();
    FrameReachesCase(PingMessageOpcode, b[HeaderSize..], codec, now);
  }

  /** The fake client's session request reaches the EstablishSessionRequest case with its 73-byte payload. */
  lemma FakeClientEstablishIsAnswered(codec: Codec, now: nat -> int)
    ensures Handle(Packets.FakeClientEstablishBytes(), codec, now) ==
      HandleEstablish(Packets.FakeClientEstablishBytes()[HeaderSize..], codec, now)
  {
    Packets.FakeClientEstablishIsFrame();
    var b := Packets.FakeClientEstablishBytes();
    FrameReachesCase(EstablishSessionRequestOpcode, b[HeaderSize..], codec, now);
  }
}
