/**
 * The hex packets of the repository: testPacket1, which the websocket handler
 * sends raw, and the frames the two fake clients send. Each hex constant is
 * written as its opcode field and its length field, 8 digits each, followed by
 * its body, 16 digits to a piece.
 */
module Packets {
  import opened Bytes
  import opened Frame
  import Hex

  /**
   * The header fields of hex text made of an opcode field, a length field and a
   * body are the values of those two fields, and the body decodes to the bytes
   * after the header.
   */
  lemma HexLayout(opcodeText: string, lengthText: string, body: string)
    requires |opcodeText| == 8 && |lengthText| == 8
    requires Hex.IsHexString(opcodeText) && Hex.IsHexString(lengthText) && Hex.IsHexString(body)
    ensures Hex.IsHexString(opcodeText + lengthText + body)
    ensures var b := Hex.HexToBytes(opcodeText + lengthText + body);
      && |b| == HeaderSize + |body| / 2
      && ReadUInt32LE(b, 0) == ReadUInt32LE(Hex.HexToBytes(opcodeText), 0)
      && ReadUInt32LE(b, 4) == ReadUInt32LE(Hex.HexToBytes(lengthText), 0)
      && b[HeaderSize..] == Hex.HexToBytes(body)
  {
    Hex.HexToBytesAppend(opcodeText, lengthText);
    Hex.HexToBytesAppend(opcodeText + lengthText, body);
    var b := Hex.HexToBytes(opcodeText + lengthText + body);
    var opcode, length := Hex.HexToBytes(opcodeText), Hex.HexToBytes(lengthText);
    assert b == opcode + length + Hex.HexToBytes(body);
    assert b[0..4] == opcode[0..4];
    assert b[4..8] == length[0..4];
    ReadUInt32LEWindow(b, opcode, 0, 0);
    ReadUInt32LEWindow(b, length, 4, 0);
  }

  /**
   * Hex text whose length field gives the true length of its non-empty body
   * decodes to the frame of its opcode field around the decoded body.
   */
  lemma HexFrame(opcodeText: string, lengthText: string, body: string)
    requires |opcodeText| == 8 && |lengthText| == 8 && |body| > 0
    requires Hex.IsHexString(opcodeText) && Hex.IsHexString(lengthText) && Hex.IsHexString(body)
    requires ReadUInt32LE(Hex.HexToBytes(lengthText), 0) == |body| / 2
    ensures Hex.IsHexString(opcodeText + lengthText + body)
    ensures Hex.HexToBytes(opcodeText + lengthText + body)
      == EncodeFrame(ReadUInt32LE(Hex.HexToBytes(opcodeText), 0), Hex.HexToBytes(body))
  {
    HexLayout(opcodeText, lengthText, body);
    EncodeSplitRoundTrip(Hex.HexToBytes(opcodeText + lengthText + body));
  }

  /** testPacket1 of websock.js, the raw bytes sent after the session response. */
  const TestPacket1: string := "A0860100" + "3A000000" + TestPacket1Body

  /** The body of TestPacket1, after its opcode and length fields. */
  const TestPacket1Body: string :=
    "087B10011801222E" + "0805122A0A0A0D00" + "00803F1500000040" +
    "1003200228B93630" + "7B3801420A506F67" + "4368616D7036394A" +
    "05080310AA052801" + "300110AA05"

  /** The header fields of TestPacket1 are hex and decode to 100000 and 58. */
  lemma TestPacket1Fields()
    ensures Hex.IsHexString("A0860100") && Hex.IsHexString("3A000000")
    ensures ReadUInt32LE(Hex.HexToBytes("A0860100"), 0) == 100000
    ensures ReadUInt32LE(Hex.HexToBytes("3A000000"), 0) == 58
  {
    assert Hex.HexToBytes("A0860100") == [0xA0, 0x86, 0x01, 0x00];
    assert Hex.HexToBytes("3A000000") == [0x3A, 0x00, 0x00, 0x00];
  }

  /** Pieces 0 to 2 of the body of TestPacket1 are hex. */
  lemma TestPacket1Digits0()
    ensures Hex.IsHexString("087B10011801222E")
    ensures Hex.IsHexString("0805122A0A0A0D00")
    ensures Hex.IsHexString("00803F1500000040")
  {
  }

  /** Pieces 3 to 5 of the body of TestPacket1 are hex. */
  lemma TestPacket1Digits1()
    ensures Hex.IsHexString("1003200228B93630")
    ensures Hex.IsHexString("7B3801420A506F67")
    ensures Hex.IsHexString("4368616D7036394A")
  {
  }

  /** Pieces 6 to 7 of the body of TestPacket1 are hex. */
  lemma TestPacket1Digits2()
    ensures Hex.IsHexString("05080310AA052801")
    ensures Hex.IsHexString("300110AA05")
  {
  }

  /** The body of TestPacket1 is hex, 122 digits long. */
  lemma TestPacket1BodyIsHex()
    ensures Hex.IsHexString(TestPacket1Body) && |TestPacket1Body| == 122
  {
    TestPacket1Digits0(); TestPacket1Digits1(); TestPacket1Digits2();
    var s := "087B10011801222E";
    Hex.HexToBytesAppend(s, "0805122A0A0A0D00"); s := s + "0805122A0A0A0D00";
    Hex.HexToBytesAppend(s, "00803F1500000040"); s := s + "00803F1500000040";
    Hex.HexToBytesAppend(s, "1003200228B93630"); s := s + "1003200228B93630";
    Hex.HexToBytesAppend(s, "7B3801420A506F67"); s := s + "7B3801420A506F67";
    Hex.HexToBytesAppend(s, "4368616D7036394A"); s := s + "4368616D7036394A";
    Hex.HexToBytesAppend(s, "05080310AA052801"); s := s + "05080310AA052801";
    Hex.HexToBytesAppend(s, "300110AA05"); s := s + "300110AA05";
    assert s == TestPacket1Body;
  }

  /** testPacket1 is whitespace-free hex. */
  lemma TestPacket1IsHex()
    ensures Hex.IsHexString(TestPacket1)
    ensures Hex.IsHexString(Hex.StripWhitespace(TestPacket1))
    ensures Hex.HexToBuffer(TestPacket1) == Hex.HexToBytes(TestPacket1)
  {
    TestPacket1Fields();
    TestPacket1BodyIsHex();
    HexLayout("A0860100", "3A000000", TestPacket1Body);
    Hex.HexToBufferOfPlainHex(TestPacket1);
  }

  /** `hexToBuffer(testPacket1)`. */
  function TestPacket1Bytes(): (b: seq<byte>)
  {
    TestPacket1IsHex();
    Hex.HexToBuffer(TestPacket1)
  }

  /**
   * testPacket1 is 69 bytes: its header declares opcode 100000
   * (GameSessionOpenedEvent) and a length of 58, but 61 bytes follow the header.
   */
  lemma TestPacket1Layout()
    ensures |TestPacket1Bytes()| == 69
    ensures ReadUInt32LE(TestPacket1Bytes(), 0) == 100000
    ensures ReadUInt32LE(TestPacket1Bytes(), 4) == 58
    ensures |TestPacket1Bytes()| - HeaderSize == 61
  {
    TestPacket1IsHex();
    TestPacket1Fields();
    TestPacket1BodyIsHex();
    HexLayout("A0860100", "3A000000", TestPacket1Body);
  }

  /** testPacket1 is not a well-formed frame of any opcode: its declared length is wrong. */
  lemma TestPacket1IsNoFrame(opcode: uint32, payload: seq<byte>)
    requires |payload| < 0x1_0000_0000
    ensures EncodeFrame(opcode, payload) != TestPacket1Bytes()
  {
    TestPacket1Layout();
  }

  /** The hex frame fakeclient.js sends: a PingMessage. */
  const FakeClientPing: string := "4d040000" + "0e000000" + FakeClientPingBody

  /** The body of FakeClientPing, after its opcode and length fields. */
  const FakeClientPingBody: string :=
    "08d196a5c18a3210" + "d196a5c18a32"

  /** The header fields of FakeClientPing are hex and decode to 1101 and 14. */
  lemma FakeClientPingFields()
    ensures Hex.IsHexString("4d040000") && Hex.IsHexString("0e000000")
    ensures ReadUInt32LE(Hex.HexToBytes("4d040000"), 0) == 1101
    ensures ReadUInt32LE(Hex.HexToBytes("0e000000"), 0) == 14
  {
    assert Hex.HexToBytes("4d040000") == [0x4D, 0x04, 0x00, 0x00];
    assert Hex.HexToBytes("0e000000") == [0x0E, 0x00, 0x00, 0x00];
  }

  /** Pieces 0 to 1 of the body of FakeClientPing are hex. */
  lemma FakeClientPingDigits0()
    ensures Hex.IsHexString("08d196a5c18a3210")
    ensures Hex.IsHexString("d196a5c18a32")
  {
  }

  /** The body of FakeClientPing is hex, 28 digits long. */
  lemma FakeClientPingBodyIsHex()
    ensures Hex.IsHexString(FakeClientPingBody) && |FakeClientPingBody| == 28
  {
    FakeClientPingDigits0();
    var s := "08d196a5c18a3210";
    Hex.HexToBytesAppend(s, "d196a5c18a32"); s := s + "d196a5c18a32";
    assert s == FakeClientPingBody;
  }

  /** `Buffer.from(hex, 'hex')` on the frame fakeclient.js sends. */
  function FakeClientPingBytes(): (b: seq<byte>)
  {
    FakeClientPingFields();
    FakeClientPingBodyIsHex();
    Hex.HexToBytesAppend("4d040000", "0e000000");
    Hex.HexToBytesAppend("4d040000" + "0e000000", FakeClientPingBody);
    Hex.HexToBytes(FakeClientPing)
  }

  /**
   * The fake client's bytes are an honest frame: opcode 1101, a declared length
   * of 14, and that many bytes of payload.
   */
  lemma FakeClientPingIsFrame()
    ensures |FakeClientPingBytes()| == 22
    ensures FakeClientPingBytes() == EncodeFrame(1101, FakeClientPingBytes()[HeaderSize..])
  {
    FakeClientPingFields();
    FakeClientPingBodyIsHex();
    HexFrame("4d040000", "0e000000", FakeClientPingBody);
  }

  /** The hex frame fakeclient-js.js sends: an EstablishSessionRequest. */
  const FakeClientEstablish: string := "4c040000" + "49000000" + FakeClientEstablishBody

  /** The body of FakeClientEstablish, after its opcode and length fields. */
  const FakeClientEstablishBody: string :=
    "0a08457665726c61" + "6e6412136c697665" + "2d7374726573732d" +
    "746573742d31621a" + "216d6f636b65645f" + "6163636573735f74" +
    "6f6b656e5f666f72" + "5f63686172616374" + "657220e487f39b8a" +
    "32"

  /** The header fields of FakeClientEstablish are hex and decode to 1100 and 73. */
  lemma FakeClientEstablishFields()
    ensures Hex.IsHexString("4c040000") && Hex.IsHexString("49000000")
    ensures ReadUInt32LE(Hex.HexToBytes("4c040000"), 0) == 1100
    ensures ReadUInt32LE(Hex.HexToBytes("49000000"), 0) == 73
  {
    assert Hex.HexToBytes("4c040000") == [0x4C, 0x04, 0x00, 0x00];
    assert Hex.HexToBytes("49000000") == [0x49, 0x00, 0x00, 0x00];
  }

  /** Pieces 0 to 2 of the body of FakeClientEstablish are hex. */
  lemma FakeClientEstablishDigits0()
    ensures Hex.IsHexString("0a08457665726c61")
    ensures Hex.IsHexString("6e6412136c697665")
    ensures Hex.IsHexString("2d7374726573732d")
  {
  }

  /** Pieces 3 to 5 of the body of FakeClientEstablish are hex. */
  lemma FakeClientEstablishDigits1()
    ensures Hex.IsHexString("746573742d31621a")
    ensures Hex.IsHexString("216d6f636b65645f")
    ensures Hex.IsHexString("6163636573735f74")
  {
  }

  /** Pieces 6 to 8 of the body of FakeClientEstablish are hex. */
  lemma FakeClientEstablishDigits2()
    ensures Hex.IsHexString("6f6b656e5f666f72")
    ensures Hex.IsHexString("5f63686172616374")
    ensures Hex.IsHexString("657220e487f39b8a")
  {
  }

  /** Piece 9 of the body of FakeClientEstablish is hex. */
  lemma FakeClientEstablishDigits3()
    ensures Hex.IsHexString("32")
  {
  }

  /** The body of FakeClientEstablish is hex, 146 digits long. */
  lemma FakeClientEstablishBodyIsHex()
    ensures Hex.IsHexString(FakeClientEstablishBody) && |FakeClientEstablishBody| == 146
  {
    FakeClientEstablishDigits0(); FakeClientEstablishDigits1(); FakeClientEstablishDigits2(); FakeClientEstablishDigits3();
    var s := "0a08457665726c61";
    Hex.HexToBytesAppend(s, "6e6412136c697665"); s := s + "6e6412136c697665";
    Hex.HexToBytesAppend(s, "2d7374726573732d"); s := s + "2d7374726573732d";
    Hex.HexToBytesAppend(s, "746573742d31621a"); s := s + "746573742d31621a";
    Hex.HexToBytesAppend(s, "216d6f636b65645f"); s := s + "216d6f636b65645f";
    Hex.HexToBytesAppend(s, "6163636573735f74"); s := s + "6163636573735f74";
    Hex.HexToBytesAppend(s, "6f6b656e5f666f72"); s := s + "6f6b656e5f666f72";
    Hex.HexToBytesAppend(s, "5f63686172616374"); s := s + "5f63686172616374";
    Hex.HexToBytesAppend(s, "657220e487f39b8a"); s := s + "657220e487f39b8a";
    Hex.HexToBytesAppend(s, "32"); s := s + "32";
    assert s == FakeClientEstablishBody;
  }

  /** `Buffer.from(hex, 'hex')` on the frame fakeclient-js.js sends. */
  function FakeClientEstablishBytes(): (b: seq<byte>)
  {
    FakeClientEstablishFields();
    FakeClientEstablishBodyIsHex();
    Hex.HexToBytesAppend("4c040000", "49000000");
    Hex.HexToBytesAppend("4c040000" + "49000000", FakeClientEstablishBody);
    Hex.HexToBytes(FakeClientEstablish)
  }

  /**
   * The fake client's bytes are an honest frame: opcode 1100, a declared length
   * of 73, and that many bytes of payload.
   */
  lemma FakeClientEstablishIsFrame()
    ensures |FakeClientEstablishBytes()| == 81
    ensures FakeClientEstablishBytes() == EncodeFrame(1100, FakeClientEstablishBytes()[HeaderSize..])
  {
    FakeClientEstablishFields();
    FakeClientEstablishBodyIsHex();
    HexFrame("4c040000", "49000000", FakeClientEstablishBody);
  }

}
