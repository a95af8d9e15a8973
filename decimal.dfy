/** Base-10 text for integers: what Python 2's `int(text)` accepts, and what `str(n)`,
    `'%d' % n` and the zero-padded `'%02d'`-style formats produce. */
module Decimal {
  import opened Wrappers

  predicate IsDigit(c: char) {
    '0' <= c <= '9'
  }

  predicate AllDigits(s: string) {
    forall i :: 0 <= i < |s| ==> IsDigit(s[i])
  }

  function DigitChar(d: nat): char
    requires d < 10
  {
    ('0' as int + d) as char
  }

  /** The C library's `isspace` in the "C" locale: space, tab, newline, vertical tab,
      form feed, carriage return. */
  predicate IsSpace(c: char) {
    c == ' ' || '\t' <= c <= '\r'
  }

  function Pow10(k: nat): (r: nat)
    ensures r >= 1
  {
    if k == 0 then 1 else 10 * Pow10(k - 1)
  }

  /** The number written by a string of decimal digits, most significant first. */
  function DigitsValue(s: string): nat
    requires AllDigits(s)
  {
    if |s| == 0 then 0
    else DigitsValue(s[..|s| - 1]) * 10 + (s[|s| - 1] as int - '0' as int)
  }

  /** `str(n)` for a natural number: the shortest decimal digits. */
  function NatToDecimal(n: nat): (r: string)
    ensures |r| > 0 && AllDigits(r)
  {
    if n < 10 then [DigitChar(n)] else NatToDecimal(n / 10) + [DigitChar(n % 10)]
  }

  /** `str(n)` and `'%d' % n` for an integer: a minus sign for negatives. */
  function IntToDecimal(n: int): string
  {
    if n < 0 then "-" + NatToDecimal(-n) else NatToDecimal(n)
  }

  /** `'%0<w>d' % n` for `0 <= n < 10^w`: exactly `w` digits, zero-padded on the left. */
  function Padded(n: nat, w: nat): (r: string)
    ensures |r| == w && AllDigits(r)
  {
    if w == 0 then "" else Padded(n / 10, w - 1) + [DigitChar(n % 10)]
  }

  /** `'0' * n` */
  function Zeros(n: nat): (r: string)
    ensures |r| == n && AllDigits(r)
  {
    seq(n, i => '0')
  }

  function TrimLeft(s: string): (r: string)
    ensures |r| <= |s|
  {
    if |s| > 0 && IsSpace(s[0]) then TrimLeft(s[1..]) else s
  }

  function TrimRight(s: string): (r: string)
    ensures |r| <= |s|
  {
    if |s| > 0 && IsSpace(s[|s| - 1]) then TrimRight(s[..|s| - 1]) else s
  }

  /** Python 2's `int(text)` (base 10): optional white space, an optional sign, optional
      white space again (the C `strtol` behind `int()` skips it after the sign as well),
      one or more decimal digits, then optional white space; anything else is a
      ValueError (None). */
  function ParseInt(s: string): Option<int>
  {
    ParseSigned(TrimRight(TrimLeft(s)))
  }

  /** `int()` once the outer white space is gone: an optional sign, white space, digits. */
  function ParseSigned(t: string): Option<int>
  {
    if |t| > 0 && (t[0] == '-' || t[0] == '+') then
      match ParseUnsigned(TrimLeft(t[1..]))
      case None => None
      case Some(v) => Some(if t[0] == '-' then -(v as int) else v)
    else ParseUnsigned(t)
  }

  /** One or more decimal digits and nothing else. */
  function ParseUnsigned(t: string): Option<nat>
  {
    if |t| > 0 && AllDigits(t) then Some(DigitsValue(t)) else None
  }

  /** The decimal text of a natural number is a non-empty run of digits with that value. */
  lemma {:induction false} NatToDecimalValue(n: nat)
    ensures |NatToDecimal(n)| > 0 && AllDigits(NatToDecimal(n))
    ensures DigitsValue(NatToDecimal(n)) == n
  {
    var s := NatToDecimal(n);
    if n >= 10 {
      NatToDecimalValue(n / 10);
      assert s[..|s| - 1] == NatToDecimal(n / 10);
    }
  }

  /** `'%0<w>d' % n` is `w` digits with value `n`, whenever `n` fits in `w` digits. */
  lemma {:induction false} PaddedValue(n: nat, w: nat)
    requires n < Pow10(w)
    ensures |Padded(n, w)| == w && AllDigits(Padded(n, w))
    ensures DigitsValue(Padded(n, w)) == n
  {
    var s := Padded(n, w);
    if w > 0 {
      PaddedValue(n / 10, w - 1);
      assert s[..|s| - 1] == Padded(n / 10, w - 1);
    }
  }

  /** The characters of `str(n)` are digits, with at most a leading minus sign. */
  lemma IntToDecimalChars(n: int)
    ensures forall c :: c in IntToDecimal(n) ==> IsDigit(c) || c == '-'
    ensures ' ' !in IntToDecimal(n)
  {
    NatToDecimalValue(if n < 0 then -n else n);
  }

  /** A run of digits is left alone by the white space trimming of `int()`. */
  lemma TrimDigits(s: string)
    requires |s| > 0 && AllDigits(s)
    ensures TrimRight(TrimLeft(s)) == s
  {
    assert !IsSpace(s[0]);
    assert !IsSpace(s[|s| - 1]);
  }

  /** `int(str(n)) == n` for every integer. */
  lemma IntRoundTrip(n: int)
    ensures ParseInt(IntToDecimal(n)) == Some(n)
  {
    if n < 0 {
      NegativeRoundTrip(-n);
    } else {
      NatToDecimalValue(n);
      TrimDigits(NatToDecimal(n));
    }
  }

  /** `int()` reads a minus sign and the digits of `n` as `-n`. */
  lemma NegativeRoundTrip(n: nat)
    ensures ParseInt("-" + NatToDecimal(n)) == Some(-(n as int))
  {
    var digits := NatToDecimal(n);
    assert "-" + digits == ['-'] + "" + digits;
    SpaceAfterSign('-', "", n);
  }

  /** `int('%0<w>d' % n) == n`: leading zeros do not change what `int()` reads. */
  lemma PaddedRoundTrip(n: nat, w: nat)
    requires 0 < w && n < Pow10(w)
    ensures ParseInt(Padded(n, w)) == Some(n)
  {
    PaddedValue(n, w);
    TrimDigits(Padded(n, w));
  }

  /** `k` digits write a number below `10^k`. */
  lemma {:induction false} DigitsBound(s: string)
    requires AllDigits(s)
    ensures DigitsValue(s) < Pow10(|s|)
  {
    if |s| > 0 {
      DigitsBound(s[..|s| - 1]);
    }
  }

  /** `int()` of a non-empty run of digits is the number they write. */
  lemma ParseDigits(s: string)
    requires |s| > 0 && AllDigits(s)
    ensures ParseInt(s) == Some(DigitsValue(s))
  {
    TrimDigits(s);
  }

  /** White space in front of text that does not start with white space is dropped. */
  lemma {:induction false} TrimLeftSpaces(w: string, s: string)
    requires forall i :: 0 <= i < |w| ==> IsSpace(w[i])
    requires |s| > 0 && !IsSpace(s[0])
    ensures TrimLeft(w + s) == s
  {
    if |w| > 0 {
      assert (w + s)[1..] == w[1..] + s;
      TrimLeftSpaces(w[1..], s);
    }
  }

  /** `int()` skips white space between the sign and the digits: `int("- 5") == -5`. */
  lemma SpaceAfterSign(sign: char, w: string, n: nat)
    requires sign == '-' || sign == '+'
    requires forall i :: 0 <= i < |w| ==> IsSpace(w[i])
    ensures ParseInt([sign] + w + NatToDecimal(n)) == Some(if sign == '-' then -(n as int) else n)
  {
    NatToDecimalValue(n);
    SignedDigits(sign, w, NatToDecimal(n));
  }

  /** A sign, white space and a run of digits is read as the signed value of the digits. */
  lemma SignedDigits(sign: char, w: string, d: string)
    requires sign == '-' || sign == '+'
    requires forall i :: 0 <= i < |w| ==> IsSpace(w[i])
    requires |d| > 0 && AllDigits(d)
    ensures ParseInt([sign] + w + d)
      == Some(if sign == '-' then -(DigitsValue(d) as int) else DigitsValue(d))
  {
    var rest := w + d;
    var s := [sign] + rest;
    assert [sign] + w + d == s;
    assert TrimRight(TrimLeft(s)) == s by {
      assert rest[|rest| - 1] == d[|d| - 1];
      SignedUntrimmed(sign, rest);
    }
    assert TrimLeft(s[1..]) == d by {
      assert s[1..] == rest;
      assert !IsSpace(d[0]);
      TrimLeftSpaces(w, d);
    }
    SignedText(sign, s, d);
  }

  /** A sign whose remainder trims on the left to a run of digits. */
  lemma SignedText(sign: char, s: string, d: string)
    requires sign == '-' || sign == '+'
    requires |s| > 0 && s[0] == sign && TrimLeft(s[1..]) == d && |d| > 0 && AllDigits(d)
    ensures ParseSigned(s) == Some(if sign == '-' then -(DigitsValue(d) as int) else DigitsValue(d))
  {
  }

  /** A sign followed by text ending in a digit is left alone by the outer trimming. */
  lemma SignedUntrimmed(sign: char, rest: string)
    requires sign == '-' || sign == '+'
    requires |rest| > 0 && IsDigit(rest[|rest| - 1])
    ensures TrimRight(TrimLeft([sign] + rest)) == [sign] + rest
  {
    var s := [sign] + rest;
    assert TrimLeft(s) == s;
    assert s[|s| - 1] == rest[|rest| - 1];
  }
}
