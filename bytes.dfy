/**
 * Bytes and the two fixed-width accessors of Node's `Buffer` that the frame
 * codec uses: `writeUInt32LE` and `readUInt32LE`.
 */
module Bytes {

  type byte = x: int | 0 <= x < 0x100

  /** The range `writeUInt32LE` accepts; it raises a RangeError outside it. */
  type uint32 = x: int | 0 <= x < 0x1_0000_0000

  /** The value of the four bytes at `offset`, least significant first. */
  function ReadUInt32LE(s: seq<byte>, offset: nat): (v: uint32)
    requires offset + 4 <= |s|
  {
    s[offset] as int + 0x100 * s[offset + 1] as int + 0x1_0000 * s[offset + 2] as int + 0x100_0000 * s[offset + 3] as int
  }

  /** The four bytes `writeUInt32LE` stores for `v`; reading them back gives `v`. */
  function UInt32ToLE(v: uint32): (r: seq<byte>)
    ensures |r| == 4
    ensures ReadUInt32LE(r, 0) == v
  {
    [v % 0x100, (v / 0x100) % 0x100, (v / 0x1_0000) % 0x100, v / 0x100_0000]
  }

  /** Every four bytes are the encoding of exactly one value: the layout is a bijection. */
  lemma LEOfRead(s: seq<byte>, offset: nat)
    requires offset + 4 <= |s|
    ensures UInt32ToLE(ReadUInt32LE(s, offset)) == s[offset..offset + 4]
  {
    var b1, b2, b3: int := s[offset + 1], s[offset + 2], s[offset + 3];
    var v := ReadUInt32LE(s, offset);
    assert v / 0x100 == b1 + 0x100 * b2 + 0x1_0000 * b3;
    assert v / 0x1_0000 == b2 + 0x100 * b3;
    assert v / 0x100_0000 == b3;
  }

  /** A read sees only the four bytes it covers. */
  lemma ReadUInt32LEWindow(s: seq<byte>, t: seq<byte>, i: nat, j: nat)
    requires i + 4 <= |s| && j + 4 <= |t|
    requires s[i..i + 4] == t[j..j + 4]
    ensures ReadUInt32LE(s, i) == ReadUInt32LE(t, j)
  {
    assert s[i] == s[i..i + 4][0] == t[j];
    assert s[i + 1] == s[i..i + 4][1] == t[j + 1];
    assert s[i + 2] == s[i..i + 4][2] == t[j + 2];
    assert s[i + 3] == s[i..i + 4][3] == t[j + 3];
  }

  /** `buf.writeUInt32LE(value, offset)`: overwrite four bytes in place, nothing else. */
  method WriteUInt32LE(buf: array<byte>, value: uint32, offset: nat)
    requires offset + 4 <= buf.Length
    modifies buf
    ensures buf[..] == old(buf[..offset]) + UInt32ToLE(value) + old(buf[offset + 4..])
  {
    var le := UInt32ToLE(value);
    buf[offset] := le[0];
    buf[offset + 1] := le[1];
    buf[offset + 2] := le[2];
    buf[offset + 3] := le[3];
    assert buf[..] == old(buf[..offset]) + le + old(buf[offset + 4..]);
  }
}
