/**
 * `hexToBuffer`: drop every whitespace character, then read the rest as
 * hexadecimal, two digits per byte (Node's `Buffer.from(text, 'hex')`).
 * Only well-formed input is modelled: an even number of hex digits once the
 * whitespace is gone. `ToHex`, the lower-case rendering of `toString('hex')`,
 * is its inverse.
 */
module Hex {
  import opened Bytes

  /** The characters the JavaScript class `\s` matches. */
  predicate IsWhitespace(c: char)
  {
    var n := c as int;
    9 <= n <= 13 || n == 0x20 || n == 0xA0 || n == 0x1680 || 0x2000 <= n <= 0x200A
    || n == 0x2028 || n == 0x2029 || n == 0x202F || n == 0x205F || n == 0x3000 || n == 0xFEFF
  }

  /** `hex.replace(/\s/g, '')`. */
  function StripWhitespace(s: string): (r: string)
    ensures |r| <= |s|
    ensures forall i :: 0 <= i < |r| ==> !IsWhitespace(r[i])
  {
    if |s| == 0 then ""
    else if IsWhitespace(s[0]) then StripWhitespace(s[1..])
    else [s[0]] + StripWhitespace(s[1..])
  }

  /** Text without whitespace passes through the strip unchanged. */
  lemma {:induction false} StripWithoutWhitespace(s: string)
    requires forall i :: 0 <= i < |s| ==> !IsWhitespace(s[i])
    ensures StripWhitespace(s) == s
  {
    if |s| > 0 {
      assert forall i :: 0 <= i < |s[1..]| ==> s[1..][i] == s[i + 1];
      StripWithoutWhitespace(s[1..]);
      assert s == [s[0]] + s[1..];
    }
  }

  /** A single character is dropped if it is whitespace and kept otherwise. */
  lemma StripChar(c: char)
    ensures StripWhitespace([c]) == if IsWhitespace(c) then [] else [c]
  {
  }

  /**
   * The removal works character by character: stripping a concatenation is
   * stripping each part, so every other character is kept, in order.
   */
  lemma {:induction false} StripAppend(a: string, b: string)
    ensures StripWhitespace(a + b) == StripWhitespace(a) + StripWhitespace(b)
  {
    if |a| == 0 {
      assert a + b == b;
    } else {
      assert (a + b)[0] == a[0];
      assert (a + b)[1..] == a[1..] + b;
      StripAppend(a[1..], b);
    }
  }

  predicate IsHexDigit(c: char)
  {
    '0' <= c <= '9' || 'a' <= c <= 'f' || 'A' <= c <= 'F'
  }

  function HexValue(c: char): (v: int)
    requires IsHexDigit(c)
    ensures 0 <= v < 16
  {
    if '0' <= c <= '9' then c as int - '0' as int
    else if 'a' <= c <= 'f' then c as int - 'a' as int + 10
    else c as int - 'A' as int + 10
  }

  /** The input `Buffer.from(s, 'hex')` reads in full: an even number of hex digits. */
  predicate IsHexString(s: string)
  {
    |s| % 2 == 0 && forall i :: 0 <= i < |s| ==> IsHexDigit(s[i])
  }

  /** `Buffer.from(s, 'hex')` on well-formed input: byte i is the digit pair at 2i, 2i+1. */
  function HexToBytes(s: string): (b: seq<byte>)
    requires IsHexString(s)
  {
    seq(|s| / 2, i requires 0 <= i < |s| / 2 => 16 * HexValue(s[2 * i]) + HexValue(s[2 * i + 1]))
  }

  /** `hexToBuffer(hex)` (websock.js defines it twice, identically). */
  function HexToBuffer(hex: string): (b: seq<byte>)
    requires IsHexString(StripWhitespace(hex))
  {
    HexToBytes(StripWhitespace(hex))
  }

  /** Whitespace-free hex text is decoded as it stands, `len / 2` bytes long. */
  lemma HexToBufferOfPlainHex(hex: string)
    requires IsHexString(hex)
    ensures IsHexString(StripWhitespace(hex))
    ensures HexToBuffer(hex) == HexToBytes(hex)
    ensures |HexToBuffer(hex)| == |hex| / 2
  {
    StripWithoutWhitespace(hex);
  }

  /** Decoding distributes over concatenation of well-formed pieces. */
  lemma HexToBytesAppend(a: string, b: string)
    requires IsHexString(a) && IsHexString(b)
    ensures IsHexString(a + b)
    ensures HexToBytes(a + b) == HexToBytes(a) + HexToBytes(b)
  {
    var ab := a + b;
    forall i | 0 <= i < |ab| ensures IsHexDigit(ab[i]) {
      if i < |a| { assert ab[i] == a[i]; } else { assert ab[i] == b[i - |a|]; }
    }
    var r, ra, rb := HexToBytes(ab), HexToBytes(a), HexToBytes(b);
    forall i | 0 <= i < |r| ensures r[i] == (ra + rb)[i] {
      if i < |ra| {
        assert ab[2 * i] == a[2 * i] && ab[2 * i + 1] == a[2 * i + 1];
      } else {
        var j := i - |ra|;
        assert ab[2 * i] == b[2 * j] && ab[2 * i + 1] == b[2 * j + 1];
      }
    }
  }

  /** The lower-case digit of a nibble. */
  function HexDigit(n: int): (c: char)
    requires 0 <= n < 16
    ensures IsHexDigit(c) && HexValue(c) == n
    ensures !('A' <= c <= 'F')
  {
    "0123456789abcdef"[n]
  }

  /** `buf.toString('hex')`: two lower-case digits per byte, high nibble first. */
  function ToHex(b: seq<byte>): (s: string)
  {
    seq(2 * |b|, i requires 0 <= i < 2 * |b| => HexDigit(if i % 2 == 0 then b[i / 2] / 16 else b[i / 2] % 16))
  }

  /** Decoding the hex rendering of any bytes gives those bytes back. */
  lemma HexToBytesOfToHex(b: seq<byte>)
    ensures IsHexString(ToHex(b))
    ensures HexToBytes(ToHex(b)) == b
  {
    var s := ToHex(b);
    forall i | 0 <= i < |s| ensures IsHexDigit(s[i]) {
      var n := if i % 2 == 0 then b[i / 2] / 16 else b[i / 2] % 16;
      assert s[i] == HexDigit(n);
    }
    var r := HexToBytes(s);
    forall i | 0 <= i < |b| ensures r[i] == b[i] {
      var hi, lo := b[i] / 16, b[i] % 16;
      assert (2 * i) % 2 == 0 && (2 * i) / 2 == i;
      assert (2 * i + 1) % 2 == 1 && (2 * i + 1) / 2 == i;
      assert s[2 * i] == HexDigit(hi);
      assert s[2 * i + 1] == HexDigit(lo);
      assert r[i] == 16 * HexValue(s[2 * i]) + HexValue(s[2 * i + 1]) == 16 * hi + lo;
    }
  }

  /** Rendering decoded lower-case hex text gives that text back. */
  lemma ToHexOfHexToBytes(s: string)
    requires IsHexString(s)
    requires forall i :: 0 <= i < |s| ==> !('A' <= s[i] <= 'F')
    ensures ToHex(HexToBytes(s)) == s
  {
    var b := HexToBytes(s);
    var t := ToHex(b);
    forall i | 0 <= i < |s| ensures t[i] == s[i] {
      var k := i / 2;
      var hi, lo := HexValue(s[2 * k]), HexValue(s[2 * k + 1]);
      assert b[k] == 16 * hi + lo;
      assert b[k] / 16 == hi && b[k] % 16 == lo;
      if i % 2 == 0 {
        assert i == 2 * k;
        DigitOfValue(s[i]);
      } else {
        assert i == 2 * k + 1;
        DigitOfValue(s[i]);
      }
    }
  }

  /** A lower-case digit is the digit of its own value. */
  lemma DigitOfValue(c: char)
    requires IsHexDigit(c) && !('A' <= c <= 'F')
    ensures HexDigit(HexValue(c)) == c
  {
  }
}
