/**
 * UTF-8 as Python's `str.encode()` and strict `bytes.decode('utf-8')` use it:
 * a Dafny `char` is a Unicode scalar value, encoded in one to four bytes; the
 * decoder refuses overlong forms, surrogates, values above U+10FFFF and
 * truncated sequences.
 */
module Utf8 {
  import opened Wrappers

  /** An octet on the serial line. */
  type byte = x: int | 0 <= x < 0x100

  predicate IsContinuation(b: byte) {
    0x80 <= b < 0xC0
  }

  lemma DivMod64(a: nat)
    ensures a == a / 64 * 64 + a % 64 && 0 <= a % 64 < 64
  {
  }

  lemma Compose64(q: nat, r: nat)
    requires r < 64
    ensures (q * 64 + r) / 64 == q && (q * 64 + r) % 64 == r
  {
  }

  /** The encoding of one character. */
  function EncodeChar(c: char): (r: seq<byte>)
    ensures 1 <= |r| <= 4
    ensures r[0] < 0x80 <==> |r| == 1
    ensures forall i :: 1 <= i < |r| ==> IsContinuation(r[i])
  {
    var cp := c as int;
    if cp < 0x80 then [cp]
    else if cp < 0x800 then [0xC0 + cp / 64, 0x80 + cp % 64]
    else if cp < 0x1_0000 then [0xE0 + cp / 64 / 64, 0x80 + cp / 64 % 64, 0x80 + cp % 64]
    else [0xF0 + cp / 64 / 64 / 64, 0x80 + cp / 64 / 64 % 64, 0x80 + cp / 64 % 64, 0x80 + cp % 64]
  }

  /** `s.encode()`: the characters' encodings, in order. */
  function Encode(s: string): seq<byte>
  {
    if s == [] then [] else EncodeChar(s[0]) + Encode(s[1..])
  }

  /**
   * The first character of a non-empty byte string and the number of bytes
   * it takes, or None when the bytes there are not well-formed UTF-8.
   */
  function DecodeFirst(b: seq<byte>): Option<(char, nat)>
    requires b != []
  {
    var b0 := b[0] as int;
    if b0 < 0x80 then Some((b0 as char, 1))
    else if 0xC2 <= b0 < 0xE0 then
      if |b| < 2 || !IsContinuation(b[1]) then None
      else Some((((b0 - 0xC0) * 64 + (b[1] as int - 0x80)) as char, 2))
    else if 0xE0 <= b0 < 0xF0 then
      var lo := if b0 == 0xE0 then 0xA0 else 0x80;
      var hi := if b0 == 0xED then 0xA0 else 0xC0;
      if |b| < 3 || !(lo <= b[1] < hi) || !IsContinuation(b[2]) then None
      else Some(((((b0 - 0xE0) * 64 + (b[1] as int - 0x80)) * 64 + (b[2] as int - 0x80)) as char, 3))
    else if 0xF0 <= b0 < 0xF5 then
      var lo := if b0 == 0xF0 then 0x90 else 0x80;
      var hi := if b0 == 0xF4 then 0x90 else 0xC0;
      if |b| < 4 || !(lo <= b[1] < hi) || !IsContinuation(b[2]) || !IsContinuation(b[3]) then None
      else Some((((((b0 - 0xF0) * 64 + (b[1] as int - 0x80)) * 64 + (b[2] as int - 0x80)) * 64 + (b[3] as int - 0x80)) as char, 4))
    else None
  }

  /** Whatever DecodeFirst accepts re-encodes to exactly the bytes it consumed. */
  lemma DecodeFirstSound(b: seq<byte>)
    requires b != [] && DecodeFirst(b).Some?
    ensures var (c, n) := DecodeFirst(b).value; 0 < n <= |b| && EncodeChar(c) == b[..n]
  {
    var b0 := b[0] as int;
    if 0xC2 <= b0 < 0xE0 {
      TwoByteSound(b);
    } else if 0xE0 <= b0 < 0xF0 {
      ThreeByteSound(b);
    } else if 0xF0 <= b0 < 0xF5 {
      FourByteSound(b);
    }
  }

  lemma TwoByteSound(b: seq<byte>)
    requires |b| >= 2 && 0xC2 <= b[0] < 0xE0 && IsContinuation(b[1])
    ensures DecodeFirst(b).Some? && EncodeChar(DecodeFirst(b).value.0) == b[..2]
  {
    var x, y := b[0] as int - 0xC0, b[1] as int - 0x80;
    var cp := x * 64 + y;
    Compose64(x, y);
    assert DecodeFirst(b) == Some((cp as char, 2));
    assert EncodeChar(cp as char) == [0xC0 + x, 0x80 + y];
  }

  lemma ThreeByteSound(b: seq<byte>)
    requires |b| >= 3 && 0xE0 <= b[0] < 0xF0 && DecodeFirst(b).Some?
    ensures EncodeChar(DecodeFirst(b).value.0) == b[..3]
  {
    var x, y, z := b[0] as int - 0xE0, b[1] as int - 0x80, b[2] as int - 0x80;
    var cp := (x * 64 + y) * 64 + z;
    Compose64(x * 64 + y, z);
    Compose64(x, y);
    assert DecodeFirst(b) == Some((cp as char, 3));
    assert EncodeChar(cp as char) == [0xE0 + x, 0x80 + y, 0x80 + z];
  }

  lemma FourByteSound(b: seq<byte>)
    requires |b| >= 4 && 0xF0 <= b[0] < 0xF5 && DecodeFirst(b).Some?
    ensures EncodeChar(DecodeFirst(b).value.0) == b[..4]
  {
    var x, y, z, w := b[0] as int - 0xF0, b[1] as int - 0x80, b[2] as int - 0x80, b[3] as int - 0x80;
    var cp := ((x * 64 + y) * 64 + z) * 64 + w;
    Compose64((x * 64 + y) * 64 + z, w);
    Compose64(x * 64 + y, z);
    Compose64(x, y);
    assert DecodeFirst(b) == Some((cp as char, 4));
    assert EncodeChar(cp as char) == [0xF0 + x, 0x80 + y, 0x80 + z, 0x80 + w];
  }

  /** Decoding the encoding of a character gives that character back, whatever follows it. */
  lemma DecodeFirstEncodeChar(c: char, rest: seq<byte>)
    ensures DecodeFirst(EncodeChar(c) + rest) == Some((c, |EncodeChar(c)|))
  {
    var cp := c as int;
    DivMod64(cp);
    DivMod64(cp / 64);
    DivMod64(cp / 64 / 64);
  }

  /** `b.decode('utf-8')`: the text, or None when the bytes are not well-formed UTF-8. */
  function Decode(b: seq<byte>): (r: Option<string>)
    ensures r.Some? ==> Encode(r.value) == b
    decreases |b|
  {
    if b == [] then Some("")
    else
      match DecodeFirst(b)
      case None => None
      case Some((c, n)) =>
        DecodeFirstSound(b);
        match Decode(b[n..])
        case None => None
        case Some(rest) =>
          assert b == b[..n] + b[n..];
          assert ([c] + rest)[1..] == rest;
          Some([c] + rest)
  }

  lemma {:induction false} DecodeEncode(s: string)
    ensures Decode(Encode(s)) == Some(s)
  {
    if s != [] {
      var e := EncodeChar(s[0]);
      DecodeFirstEncodeChar(s[0], Encode(s[1..]));
      assert (e + Encode(s[1..]))[|e|..] == Encode(s[1..]);
      DecodeEncode(s[1..]);
      assert [s[0]] + s[1..] == s;
    }
  }

  /** Decode and Encode are inverse: bytes decode to a text exactly when that text encodes to them. */
  lemma DecodeIsInverse(b: seq<byte>, s: string)
    ensures Decode(b) == Some(s) <==> Encode(s) == b
  {
    if Encode(s) == b {
      DecodeEncode(s);
    }
  }

  lemma {:induction false} EncodeAppend(a: string, b: string)
    ensures Encode(a + b) == Encode(a) + Encode(b)
  {
    if a == [] {
      assert a + b == b;
    } else {
      assert (a + b)[0] == a[0] && (a + b)[1..] == a[1..] + b;
      EncodeAppend(a[1..], b);
    }
  }

  /** ASCII characters travel as one byte each, unchanged: a carriage return is the single byte 13. */
  lemma EncodeAscii(c: char)
    requires c as int < 0x80
    ensures Encode([c]) == [c as int]
  {
  }
}
