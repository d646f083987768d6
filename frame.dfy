/**
 * The binary frame of the game socket: an 8-byte header holding the opcode and
 * the payload length, both little-endian 32-bit, followed by the payload.
 * Building a frame is `createMessageWithHeader`; receiving one is the header split
 * at the top of the websocket `message` callback, which reads only the opcode.
 */
module Frame {
  import opened Bytes

  const HeaderSize := 8

  /** The bytes `createMessageWithHeader(opcode, payload)` returns, by their layout. */
  function EncodeFrame(opcode: uint32, payload: seq<byte>): (frame: seq<byte>)
    requires |payload| < 0x1_0000_0000
    ensures |frame| == HeaderSize + |payload|
    ensures ReadUInt32LE(frame, 0) == opcode
    ensures ReadUInt32LE(frame, 4) == |payload|
    ensures frame[HeaderSize..] == payload
  {
    var op, len := UInt32ToLE(opcode), UInt32ToLE(|payload|);
    var frame := op + len + payload;
    assert frame[0..4] == op[0..4];
    assert frame[4..8] == len[0..4];
    ReadUInt32LEWindow(frame, op, 0, 0);
    ReadUInt32LEWindow(frame, len, 4, 0);
    frame
  }

  /**
   * `createMessageWithHeader`: allocate a zeroed 8-byte header, write the opcode
   * at offset 0 and the payload length at offset 4, and append the payload.
   */
  method CreateMessageWithHeader(opcode: uint32, messageBuffer: seq<byte>) returns (frame: seq<byte>)
    requires |messageBuffer| < 0x1_0000_0000
    ensures frame == EncodeFrame(opcode, messageBuffer)
  {
    var header := new byte[HeaderSize](_ => 0);
    WriteUInt32LE(header, opcode, 0);
    WriteUInt32LE(header, |messageBuffer|, 4);
    frame := header[..] + messageBuffer;
  }

  /** What the `message` callback works with after its header split. */
  datatype Inbound = Inbound(opcode: uint32, payload: seq<byte>)

  /**
   * The header split of the `message` callback: only an input longer than the
   * header is split, and then only the opcode field is read; the declared
   * length is never consulted. Anything shorter keeps opcode 0 and is left whole.
   */
  function SplitInbound(data: seq<byte>): (inbound: Inbound)
  {
    if |data| > HeaderSize then Inbound(ReadUInt32LE(data, 0), data[HeaderSize..])
    else Inbound(0, data)
  }

  /** Splitting a built frame gives back what it was built from exactly when the payload is non-empty. */
  lemma SplitEncodeRoundTrip(opcode: uint32, payload: seq<byte>)
    requires |payload| < 0x1_0000_0000
    ensures SplitInbound(EncodeFrame(opcode, payload)) == Inbound(opcode, payload) <==> |payload| > 0
  {
    var frame := EncodeFrame(opcode, payload);
    if |payload| == 0 {
      assert SplitInbound(frame).payload == frame;
      assert |frame| != |payload|;
    }
  }

  /** A header-only frame loses its opcode: it is received as opcode 0 with the header kept as payload. */
  lemma HeaderOnlyFrame(opcode: uint32)
    ensures SplitInbound(EncodeFrame(opcode, [])) == Inbound(0, EncodeFrame(opcode, []))
  {
  }

  /**
   * Conversely, every input longer than the header whose declared length is
   * honest is the frame built from its split.
   */
  lemma EncodeSplitRoundTrip(data: seq<byte>)
    requires |data| > HeaderSize
    requires ReadUInt32LE(data, 4) == |data| - HeaderSize
    ensures EncodeFrame(SplitInbound(data).opcode, SplitInbound(data).payload) == data
  {
    var m := SplitInbound(data);
    var frame := EncodeFrame(m.opcode, m.payload);
    LEOfRead(data, 0);
    LEOfRead(data, 4);
    LEOfRead(frame, 0);
    LEOfRead(frame, 4);
    assert frame[..4] == data[..4];
    assert frame[4..8] == data[4..8];
    assert frame == frame[..4] + frame[4..8] + frame[8..];
    assert data == data[..4] + data[4..8] + data[8..];
  }

  /**
   * The declared length is ignored on receive: two inputs that agree everywhere
   * but in bytes 4 to 7 split identically once they are longer than the header.
   */
  lemma DeclaredLengthIgnored(a: seq<byte>, b: seq<byte>)
    requires |a| == |b| > HeaderSize
    requires a[..4] == b[..4] && a[HeaderSize..] == b[HeaderSize..]
    ensures SplitInbound(a) == SplitInbound(b)
  {
    ReadUInt32LEWindow(a, b, 0, 0);
  }
}
