/** `btoa`: the base 64 encoding of section 4 of RFC 4648 (alphabet
    `A-Z a-z 0-9 + /`, `=` padding) applied to a string whose characters are
    all at most U+00FF, each taken as one byte; any other character makes
    `btoa` throw. The account store uses it as its password "hash", so what
    matters here is that it is injective: it has a decoder that undoes it. */
module Base64 {
  import opened Wrappers

  type Byte = x: int | 0 <= x < 256
  type Sextet = x: int | 0 <= x < 64

  /** The character for a 6-bit value. */
  function Digit(v: Sextet): (c: char)
    ensures c != '='
  {
    if v < 26 then (65 + v) as char        // 'A'..'Z'
    else if v < 52 then (97 + v - 26) as char   // 'a'..'z'
    else if v < 62 then (48 + v - 52) as char   // '0'..'9'
    else if v == 62 then '+'
    else '/'
  }

  /** The 6-bit value of an alphabet character, None for any other. */
  function Value(c: char): (r: Option<Sextet>)
    ensures r.Some? ==> Digit(r.value) == c
  {
    if 'A' <= c <= 'Z' then Some(c as int - 65)
    else if 'a' <= c <= 'z' then Some(c as int - 97 + 26)
    else if '0' <= c <= '9' then Some(c as int - 48 + 52)
    else if c == '+' then Some(62)
    else if c == '/' then Some(63)
    else None
  }

  lemma ValueOfDigit(v: Sextet)
    ensures Value(Digit(v)) == Some(v)
  {
  }

  /** Three bytes, or the one or two left at the end, as four characters. */
  function EncodeGroup(b: seq<Byte>): (r: string)
    requires 1 <= |b| <= 3
    ensures |r| == 4
  {
    var b0 := b[0];
    if |b| == 1 then [Digit(b0 / 4), Digit(b0 % 4 * 16), '=', '=']
    else
      var b1 := b[1];
      if |b| == 2 then [Digit(b0 / 4), Digit(b0 % 4 * 16 + b1 / 16), Digit(b1 % 16 * 4), '=']
      else
        var b2 := b[2];
        [Digit(b0 / 4), Digit(b0 % 4 * 16 + b1 / 16), Digit(b1 % 16 * 4 + b2 / 64), Digit(b2 % 64)]
  }

  function Encode(b: seq<Byte>): (r: string)
    ensures |r| == (|b| + 2) / 3 * 4
  {
    if b == [] then []
    else if |b| <= 3 then EncodeGroup(b)
    else EncodeGroup(b[..3]) + Encode(b[3..])
  }

  /** Four characters back to the bytes they stand for. */
  function DecodeGroup(s: string): (r: Option<seq<Byte>>)
    requires |s| == 4
  {
    var v0, v1, v2, v3 := Value(s[0]), Value(s[1]), Value(s[2]), Value(s[3]);
    if v0.None? || v1.None? then None
    else if s[2] == '=' && s[3] == '=' then
      if v1.value % 16 == 0 then Some([v0.value * 4 + v1.value / 16]) else None
    else if v2.None? then None
    else if s[3] == '=' then
      if v2.value % 4 == 0 then Some([v0.value * 4 + v1.value / 16, v1.value % 16 * 16 + v2.value / 4]) else None
    else if v3.None? then None
    else Some([v0.value * 4 + v1.value / 16, v1.value % 16 * 16 + v2.value / 4, v2.value % 4 * 64 + v3.value])
  }

  /** `atob`; padding is accepted only in the last group. */
  function Decode(s: string): (r: Option<seq<Byte>>)
    decreases |s|
  {
    if s == [] then Some([])
    else if |s| < 4 then None
    else
      match DecodeGroup(s[..4])
      case None => None
      case Some(g) =>
        if |g| < 3 then (if |s| == 4 then Some(g) else None)
        else match Decode(s[4..])
          case None => None
          case Some(rest) => Some(g + rest)
  }

  /** The 6-bit digits of a group split and rejoin its bytes. */
  lemma DigitArithmetic(b0: Byte, b1: Byte, b2: Byte)
    ensures (b0 % 4 * 16 + b1 / 16) / 16 == b0 % 4 && (b0 % 4 * 16 + b1 / 16) % 16 == b1 / 16
    ensures (b1 % 16 * 4 + b2 / 64) / 4 == b1 % 16 && (b1 % 16 * 4 + b2 / 64) % 4 == b2 / 64
    ensures b0 / 4 * 4 + b0 % 4 == b0 && b1 / 16 * 16 + b1 % 16 == b1 && b2 / 64 * 64 + b2 % 64 == b2
  {
  }

  lemma DecodeEncodeGroup(b: seq<Byte>)
    requires 1 <= |b| <= 3
    ensures DecodeGroup(EncodeGroup(b)) == Some(b)
  {
    if |b| == 1 {
      assert b == [b[0]];
      DecodeEncodeOne(b[0]);
    } else if |b| == 2 {
      assert b == [b[0], b[1]];
      DecodeEncodeTwo(b[0], b[1]);
    } else {
      assert b == [b[0], b[1], b[2]];
      DecodeEncodeThree(b[0], b[1], b[2]);
    }
  }

  /** A last group of one byte: two digits and two `=`. */
  lemma DecodeEncodeOne(b0: Byte)
    ensures DecodeGroup(EncodeGroup([b0])) == Some([b0])
  {
    var d0: Sextet, d1: Sextet := b0 / 4, b0 % 4 * 16;
    var s := EncodeGroup([b0]);
    assert s == [Digit(d0), Digit(d1), '=', '='];
    ValueOfDigit(d0);
    ValueOfDigit(d1);
    assert d1 % 16 == 0 && d1 / 16 == b0 % 4;
    assert d0 * 4 + d1 / 16 == b0;
  }

  /** A last group of two bytes: three digits and one `=`. */
  lemma DecodeEncodeTwo(b0: Byte, b1: Byte)
    ensures DecodeGroup(EncodeGroup([b0, b1])) == Some([b0, b1])
  {
    var d0: Sextet, d1: Sextet, d2: Sextet := b0 / 4, b0 % 4 * 16 + b1 / 16, b1 % 16 * 4;
    var s := EncodeGroup([b0, b1]);
    assert s == [Digit(d0), Digit(d1), Digit(d2), '='];
    ValueOfDigit(d0);
    ValueOfDigit(d1);
    ValueOfDigit(d2);
    DigitArithmetic(b0, b1, 0);
    assert d2 % 4 == 0 && d2 / 4 == b1 % 16;
    assert d0 * 4 + d1 / 16 == b0;
    assert d1 % 16 * 16 + d2 / 4 == b1;
  }

  /** A full group of three bytes: four digits. */
  lemma DecodeEncodeThree(b0: Byte, b1: Byte, b2: Byte)
    ensures DecodeGroup(EncodeGroup([b0, b1, b2])) == Some([b0, b1, b2])
  {
    var d0: Sextet, d1: Sextet, d2: Sextet, d3: Sextet := b0 / 4, b0 % 4 * 16 + b1 / 16, b1 % 16 * 4 + b2 / 64, b2 % 64;
    var s := EncodeGroup([b0, b1, b2]);
    assert s == [Digit(d0), Digit(d1), Digit(d2), Digit(d3)];
    ValueOfDigit(d0);
    ValueOfDigit(d1);
    ValueOfDigit(d2);
    ValueOfDigit(d3);
    DigitArithmetic(b0, b1, b2);
    assert d0 * 4 + d1 / 16 == b0;
    assert d1 % 16 * 16 + d2 / 4 == b1;
    assert d2 % 4 * 64 + d3 == b2;
  }

  /** Decoding undoes encoding. */
  lemma {:induction false} DecodeEncode(b: seq<Byte>)
    ensures Decode(Encode(b)) == Some(b)
    decreases |b|
  {
    if b != [] {
      if |b| <= 3 {
        DecodeEncodeGroup(b);
        var s := Encode(b);
        assert s[..4] == s;
        assert s[4..] == [];
        assert b + [] == b;
      } else {
        var s := Encode(b);
        DecodeEncodeGroup(b[..3]);
        DecodeEncode(b[3..]);
        assert s[..4] == EncodeGroup(b[..3]);
        assert s[4..] == Encode(b[3..]);
        assert b[..3] + b[3..] == b;
      }
    }
  }

  lemma EncodeInjective(a: seq<Byte>, b: seq<Byte>)
    requires Encode(a) == Encode(b)
    ensures a == b
  {
    DecodeEncode(a);
    DecodeEncode(b);
  }

  predicate IsLatin1(s: string) {
    forall i :: 0 <= i < |s| ==> s[i] as int < 256
  }

  function Bytes(s: string): (r: seq<Byte>)
    requires IsLatin1(s)
    ensures |r| == |s| && forall i :: 0 <= i < |s| ==> r[i] == s[i] as int
  {
    if s == [] then [] else [s[0] as int] + Bytes(s[1..])
  }

  /** `btoa(s)`, or None where it throws. */
  function Btoa(s: string): (r: Option<string>)
    ensures r.Some? <==> IsLatin1(s)
  {
    if IsLatin1(s) then Some(Encode(Bytes(s))) else None
  }

  /** Two strings with the same encoding are equal. */
  lemma BtoaInjective(s: string, t: string)
    requires Btoa(s).Some? && Btoa(s) == Btoa(t)
    ensures s == t
  {
    EncodeInjective(Bytes(s), Bytes(t));
    assert forall i :: 0 <= i < |s| ==> s[i] as int == t[i] as int;
  }
}
