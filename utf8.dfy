/** UTF-8, as Python 2's `unicode.encode('utf-8')` and `str.decode('utf-8')` apply it.
    A Python 2 byte string is modelled as a string whose characters are all below 256,
    one character per byte. */
module Utf8 {
  import opened Wrappers

  predicate IsBytes(s: string) {
    forall i :: 0 <= i < |s| ==> s[i] as int < 256
  }

  predicate IsAscii(s: string) {
    forall i :: 0 <= i < |s| ==> s[i] as int < 128
  }

  function Byte(b: int): char
    requires 0 <= b < 256
  {
    b as char
  }

  /** The one to four bytes that encode one code point. */
  function EncodeChar(c: char): (r: string)
    ensures 1 <= |r| <= 4 && IsBytes(r)
  {
    var cp := c as int;
    if cp < 0x80 then [c]
    else if cp < 0x800 then [Byte(0xC0 + cp / 64), Byte(0x80 + cp % 64)]
    else if cp < 0x1_0000 then
      [Byte(0xE0 + cp / 4096), Byte(0x80 + (cp / 64) % 64), Byte(0x80 + cp % 64)]
    else
      [Byte(0xF0 + cp / 262144), Byte(0x80 + (cp / 4096) % 64),
       Byte(0x80 + (cp / 64) % 64), Byte(0x80 + cp % 64)]
  }

  function Encode(u: string): (r: string)
    ensures IsBytes(r)
  {
    if u == [] then "" else EncodeChar(u[0]) + Encode(u[1..])
  }

  predicate IsContinuation(b: char) {
    0x80 <= b as int < 0xC0
  }

  function Payload(b: char): int {
    b as int - 0x80
  }

  /** The code point at the start of `b` and the number of bytes it takes; None for a
      malformed, truncated or overlong sequence, a surrogate or a value past U+10FFFF. */
  function DecodeChar(b: string): (r: Option<(char, nat)>)
    requires |b| > 0
    ensures r.Some? ==> 1 <= r.value.1 <= |b|
  {
    var b0 := b[0] as int;
    if b0 < 0x80 then Some((b[0], 1))
    else if 0xC2 <= b0 < 0xE0 && |b| >= 2 && IsContinuation(b[1]) then
      Some((((b0 - 0xC0) * 64 + Payload(b[1])) as char, 2))
    else if 0xE0 <= b0 < 0xF0 && |b| >= 3 && IsContinuation(b[1]) && IsContinuation(b[2]) then
      var cp := (b0 - 0xE0) * 4096 + Payload(b[1]) * 64 + Payload(b[2]);
      if cp < 0x800 || 0xD800 <= cp < 0xE000 then None else Some((cp as char, 3))
    else if 0xF0 <= b0 < 0xF5 && |b| >= 4 && IsContinuation(b[1]) && IsContinuation(b[2])
      && IsContinuation(b[3]) then
      var cp := (b0 - 0xF0) * 262144 + Payload(b[1]) * 4096 + Payload(b[2]) * 64 + Payload(b[3]);
      if cp < 0x1_0000 || cp >= 0x11_0000 then None else Some((cp as char, 4))
    else None
  }

  /** Strict decoding of a whole byte string; None is Python's UnicodeDecodeError. */
  function Decode(b: string): Option<string>
    decreases |b|
  {
    if b == [] then Some("")
    else
      match DecodeChar(b)
      case None => None
      case Some((c, n)) =>
        match Decode(b[n..])
        case None => None
        case Some(u) => Some([c] + u)
  }

  /** Decoding the bytes of one code point, whatever follows them, gives that code point back. */
  lemma DecodeEncodedChar(c: char, rest: string)
    ensures DecodeChar(EncodeChar(c) + rest) == Some((c, |EncodeChar(c)|))
  {
    var cp := c as int;
    if cp < 0x80 {
    } else if cp < 0x800 {
      DecodeTwo(c, rest);
    } else if cp < 0x1_0000 {
      DecodeThree(c, rest);
    } else {
      DecodeFour(c, rest);
    }
  }

  lemma DecodeTwo(c: char, rest: string)
    requires 0x80 <= c as int < 0x800
    ensures DecodeChar(EncodeChar(c) + rest) == Some((c, 2))
  {
    var cp := c as int;
    var hi, lo := cp / 64, cp % 64;
    assert hi * 64 + lo == cp;
    var b := EncodeChar(c) + rest;
    assert b[0] as int == 0xC0 + hi && b[1] as int == 0x80 + lo;
    assert (b[0] as int - 0xC0) * 64 + Payload(b[1]) == cp;
  }

  lemma DecodeThree(c: char, rest: string)
    requires 0x800 <= c as int < 0x1_0000
    ensures DecodeChar(EncodeChar(c) + rest) == Some((c, 3))
  {
    var cp := c as int;
    var q := cp / 64;
    var b2 := cp % 64;
    var b0, b1 := q / 64, q % 64;
    assert q * 64 + b2 == cp && b0 * 64 + b1 == q;
    assert b0 == cp / 4096;
    var b := EncodeChar(c) + rest;
    assert b[0] as int == 0xE0 + b0 && b[1] as int == 0x80 + b1 && b[2] as int == 0x80 + b2;
    assert (b[0] as int - 0xE0) * 4096 + Payload(b[1]) * 64 + Payload(b[2]) == cp;
  }

  lemma DecodeFour(c: char, rest: string)
    requires 0x1_0000 <= c as int
    ensures DecodeChar(EncodeChar(c) + rest) == Some((c, 4))
  {
    var cp := c as int;
    var q := cp / 64;
    var b3 := cp % 64;
    var q2 := q / 64;
    var b2 := q % 64;
    var b0, b1 := q2 / 64, q2 % 64;
    assert q * 64 + b3 == cp && q2 * 64 + b2 == q && b0 * 64 + b1 == q2;
    assert q2 == cp / 4096 && b0 == cp / 262144;
    var b := EncodeChar(c) + rest;
    assert b[0] as int == 0xF0 + b0 && b[1] as int == 0x80 + b1;
    assert b[2] as int == 0x80 + b2 && b[3] as int == 0x80 + b3;
    assert (b[0] as int - 0xF0) * 262144 + Payload(b[1]) * 4096 + Payload(b[2]) * 64
      + Payload(b[3]) == cp;
  }

  /** `u.encode('utf-8').decode('utf-8') == u`. */
  lemma {:induction false} RoundTrip(u: string)
    ensures Decode(Encode(u)) == Some(u)
  {
    if u != [] {
      var e := EncodeChar(u[0]);
      DecodeEncodedChar(u[0], Encode(u[1..]));
      RoundTrip(u[1..]);
      assert (e + Encode(u[1..]))[|e|..] == Encode(u[1..]);
      assert [u[0]] + u[1..] == u;
    }
  }

  /** ASCII text is its own UTF-8 encoding. */
  lemma {:induction false} AsciiUnchanged(u: string)
    requires IsAscii(u)
    ensures Encode(u) == u
  {
    if u != [] {
      AsciiUnchanged(u[1..]);
      assert [u[0]] + u[1..] == u;
    }
  }
}
