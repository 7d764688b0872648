/**
 * UTF-8 as defined by section 3 of RFC 3629: the validity check performed by
 * `CStr::to_str` and the encoding behind `str::as_bytes`.  Text in the model is
 * a Dafny `string`, a sequence of Unicode scalar values, exactly like a Rust `str`.
 */
module Utf8 {
  import opened Wrappers

  newtype byte = x: int | 0 <= x < 256

  /** A continuation byte, `10xxxxxx`. */
  predicate IsContinuation(b: byte) {
    0x80 <= b < 0xC0
  }

  /** The one to four bytes that encode one scalar value. */
  function EncodeChar(c: char): (r: seq<byte>)
    ensures 1 <= |r| <= 4
    ensures r[0] == 0 <==> c == '\0'
    ensures forall i :: 1 <= i < |r| ==> IsContinuation(r[i])
  {
    var n := c as int;
    if n < 0x80 then
      [n as byte]
    else if n < 0x800 then
      [(0xC0 + n / 64) as byte, (0x80 + n % 64) as byte]
    else if n < 0x1_0000 then
      [(0xE0 + n / 4096) as byte, (0x80 + (n / 64) % 64) as byte, (0x80 + n % 64) as byte]
    else
      [(0xF0 + n / 262144) as byte, (0x80 + (n / 4096) % 64) as byte,
       (0x80 + (n / 64) % 64) as byte, (0x80 + n % 64) as byte]
  }

  /** The bytes of a string. */
  function Encode(s: string): (r: seq<byte>)
    ensures s == [] <==> r == []
  {
    if s == [] then [] else EncodeChar(s[0]) + Encode(s[1..])
  }

  /**
   * Decodes the scalar value at the start of `b` and says how many bytes it
   * takes; `None` when `b` does not start with a well-formed sequence
   * (a stray continuation byte, a truncated sequence, an overlong form,
   * a surrogate or a value above U+10FFFF).
   */
  function DecodeFirst(b: seq<byte>): (r: Option<(char, nat)>)
    ensures r.Some? ==> 1 <= r.value.1 <= |b| && r.value.1 <= 4
  {
    if |b| == 0 then None
    else if b[0] < 0x80 then
      Some((b[0] as int as char, 1))
    else if 0xC2 <= b[0] < 0xE0 && |b| >= 2 && IsContinuation(b[1]) then
      var n := (b[0] as int - 0xC0) * 64 + (b[1] as int - 0x80);
      Some((n as char, 2))
    else if 0xE0 <= b[0] < 0xF0 && |b| >= 3 && IsContinuation(b[1]) && IsContinuation(b[2]) then
      var n := (b[0] as int - 0xE0) * 4096 + (b[1] as int - 0x80) * 64 + (b[2] as int - 0x80);
      if 0x800 <= n && !(0xD800 <= n < 0xE000) then Some((n as char, 3)) else None
    else if 0xF0 <= b[0] < 0xF5 && |b| >= 4
            && IsContinuation(b[1]) && IsContinuation(b[2]) && IsContinuation(b[3]) then
      var n := (b[0] as int - 0xF0) * 262144 + (b[1] as int - 0x80) * 4096
               + (b[2] as int - 0x80) * 64 + (b[3] as int - 0x80);
      if 0x1_0000 <= n < 0x11_0000 then Some((n as char, 4)) else None
    else
      None
  }

  /** Decodes a whole byte sequence; `None` unless every byte belongs to a well-formed sequence. */
  function Decode(b: seq<byte>): (r: Option<string>)
    ensures b == [] ==> r == Some([])
    ensures r.Some? ==> |r.value| <= |b|
    ensures r.Some? && b != [] ==> DecodeFirst(b).Some? && r.value != [] && r.value[0] == DecodeFirst(b).value.0
    decreases |b|
  {
    if b == [] then Some([])
    else match DecodeFirst(b)
      case None => None
      case Some((c, k)) =>
        match Decode(b[k..])
        case None => None
        case Some(s) => Some([c] + s)
  }

  /** The abstract validity predicate: the bytes are well-formed UTF-8. */
  predicate Valid(b: seq<byte>) {
    Decode(b).Some?
  }

  lemma {:induction false} EncodeAppend(s: string, t: string)
    ensures Encode(s + t) == Encode(s) + Encode(t)
  {
    if s != [] {
      assert (s + t)[0] == s[0];
      assert (s + t)[1..] == s[1..] + t;
      EncodeAppend(s[1..], t);
      calc {
        Encode(s + t);
        EncodeChar(s[0]) + Encode(s[1..] + t);
        EncodeChar(s[0]) + (Encode(s[1..]) + Encode(t));
        (EncodeChar(s[0]) + Encode(s[1..])) + Encode(t);
      }
    } else {
      assert s + t == t;
    }
  }

  /** The digits of `n` in base 64, written as the bit fields of a two-, three- or four-byte form. */
  lemma Base64Digits(n: int)
    requires 0 <= n
    ensures n == (n / 64) * 64 + n % 64 && 0 <= n % 64 < 64
    ensures n / 64 == (n / 4096) * 64 + (n / 64) % 64 && 0 <= (n / 64) % 64 < 64
    ensures n / 4096 == (n / 262144) * 64 + (n / 4096) % 64 && 0 <= (n / 4096) % 64 < 64
  {
  }

  /** Reading the bit fields back gives the digits they were made from. */
  lemma FieldsDetermineDigits(h: int, l: int)
    requires 0 <= l < 64
    ensures (h * 64 + l) / 64 == h && (h * 64 + l) % 64 == l
  {
  }

  lemma DecodeFirstEncodeChar(c: char, rest: seq<byte>)
    ensures DecodeFirst(EncodeChar(c) + rest) == Some((c, |EncodeChar(c)|))
  {
    var n := c as int;
    if n < 0x80 {
      assert (EncodeChar(c) + rest)[0] == n as byte;
    } else if n < 0x800 {
      DecodeTwoBytes(c, rest);
    } else if n < 0x1_0000 {
      DecodeThreeBytes(c, rest);
    } else {
      DecodeFourBytes(c, rest);
    }
  }

  lemma DecodeTwoBytes(c: char, rest: seq<byte>)
    requires 0x80 <= c as int < 0x800
    ensures DecodeFirst(EncodeChar(c) + rest) == Some((c, 2))
  {
    var n := c as int;
    var b := EncodeChar(c) + rest;
    Base64Digits(n);
    assert b[0] == (0xC0 + n / 64) as byte && b[1] == (0x80 + n % 64) as byte;
    assert (b[0] as int - 0xC0) * 64 + (b[1] as int - 0x80) == n;
  }

  lemma DecodeThreeBytes(c: char, rest: seq<byte>)
    requires 0x800 <= c as int < 0x1_0000
    ensures DecodeFirst(EncodeChar(c) + rest) == Some((c, 3))
  {
    var n := c as int;
    var b := EncodeChar(c) + rest;
    Base64Digits(n);
    assert b[0] == (0xE0 + n / 4096) as byte;
    assert b[1] == (0x80 + (n / 64) % 64) as byte && b[2] == (0x80 + n % 64) as byte;
    assert (b[0] as int - 0xE0) * 4096 + (b[1] as int - 0x80) * 64 + (b[2] as int - 0x80) == n;
  }

  lemma DecodeFourBytes(c: char, rest: seq<byte>)
    requires 0x1_0000 <= c as int
    ensures DecodeFirst(EncodeChar(c) + rest) == Some((c, 4))
  {
    var n := c as int;
    var b := EncodeChar(c) + rest;
    Base64Digits(n);
    assert b[0] == (0xF0 + n / 262144) as byte;
    assert b[1] == (0x80 + (n / 4096) % 64) as byte;
    assert b[2] == (0x80 + (n / 64) % 64) as byte && b[3] == (0x80 + n % 64) as byte;
    assert (b[0] as int - 0xF0) * 262144 + (b[1] as int - 0x80) * 4096
           + (b[2] as int - 0x80) * 64 + (b[3] as int - 0x80) == n;
  }

  /** Decoding undoes encoding, for every string. */
  lemma {:induction false} DecodeEncode(s: string)
    ensures Decode(Encode(s)) == Some(s)
  {
    if s != [] {
      var e, rest := EncodeChar(s[0]), Encode(s[1..]);
      DecodeFirstEncodeChar(s[0], rest);
      assert (e + rest)[|e|..] == rest;
      DecodeEncode(s[1..]);
      assert [s[0]] + s[1..] == s;
    }
  }

  lemma EncodeTwo(h: int, l: int)
    requires 2 <= h < 32 && 0 <= l < 64
    ensures var n := h * 64 + l; 0x80 <= n < 0x800 && EncodeChar(n as char) == [(0xC0 + h) as byte, (0x80 + l) as byte]
  {
    FieldsDetermineDigits(h, l);
  }

  lemma EncodeThree(h: int, m: int, l: int)
    requires 0 <= h < 16 && 0 <= m < 64 && 0 <= l < 64
    requires var n := (h * 64 + m) * 64 + l; 0x800 <= n && !(0xD800 <= n < 0xE000)
    ensures var n := (h * 64 + m) * 64 + l;
      EncodeChar(n as char) == [(0xE0 + h) as byte, (0x80 + m) as byte, (0x80 + l) as byte]
  {
    var n := (h * 64 + m) * 64 + l;
    FieldsDetermineDigits(h * 64 + m, l);
    FieldsDetermineDigits(h, m);
    assert n / 4096 == h by { Base64Digits(n); }
  }

  lemma EncodeFour(h: int, m1: int, m2: int, l: int)
    requires 0 <= h < 5 && 0 <= m1 < 64 && 0 <= m2 < 64 && 0 <= l < 64
    requires 0x1_0000 <= ((h * 64 + m1) * 64 + m2) * 64 + l < 0x11_0000
    ensures var n := ((h * 64 + m1) * 64 + m2) * 64 + l;
      EncodeChar(n as char) == [(0xF0 + h) as byte, (0x80 + m1) as byte, (0x80 + m2) as byte, (0x80 + l) as byte]
  {
    var n := ((h * 64 + m1) * 64 + m2) * 64 + l;
    FieldsDetermineDigits((h * 64 + m1) * 64 + m2, l);
    FieldsDetermineDigits(h * 64 + m1, m2);
    FieldsDetermineDigits(h, m1);
    assert n / 262144 == h by { Base64Digits(n); }
  }

  lemma EncodeCharDecodeFirst(b: seq<byte>)
    requires DecodeFirst(b).Some?
    ensures EncodeChar(DecodeFirst(b).value.0) == b[..DecodeFirst(b).value.1]
  {
    var k := DecodeFirst(b).value.1;
    if b[0] < 0x80 {
    } else if k == 2 {
      EncodeTwo(b[0] as int - 0xC0, b[1] as int - 0x80);
    } else if k == 3 {
      EncodeThree(b[0] as int - 0xE0, b[1] as int - 0x80, b[2] as int - 0x80);
    } else {
      EncodeFour(b[0] as int - 0xF0, b[1] as int - 0x80, b[2] as int - 0x80, b[3] as int - 0x80);
    }
  }

  /** Well-formed bytes are one encoded character followed by well-formed bytes. */
  lemma DecodeStep(b: seq<byte>) returns (c: char, k: nat)
    requires Valid(b) && b != []
    ensures 1 <= k <= |b| && EncodeChar(c) == b[..k] && Valid(b[k..])
    ensures Decode(b).value == [c] + Decode(b[k..]).value
  {
    c, k := DecodeFirst(b).value.0, DecodeFirst(b).value.1;
    EncodeCharDecodeFirst(b);
  }

  /** Encoding undoes decoding: well-formed bytes are determined by the text they decode to. */
  lemma {:induction false} EncodeDecode(b: seq<byte>)
    requires Valid(b)
    ensures Encode(Decode(b).value) == b
    decreases |b|
  {
    if b != [] {
      var c, k := DecodeStep(b);
      var s := Decode(b[k..]).value;
      EncodeDecode(b[k..]);
      assert ([c] + s)[0] == c && ([c] + s)[1..] == s;
      assert Encode([c] + s) == EncodeChar(c) + Encode(s);
      assert b == b[..k] + b[k..];
    }
  }

  /** A string's bytes contain a zero byte exactly when the string contains U+0000. */
  lemma {:induction false} EncodeHasNul(s: string)
    ensures 0 in Encode(s) <==> '\0' in s
  {
    if s != [] {
      EncodeHasNul(s[1..]);
      var e := EncodeChar(s[0]);
      assert 0 in e <==> s[0] == '\0' by {
        if 0 in e {
          var i :| 0 <= i < |e| && e[i] == 0;
          assert i == 0 || IsContinuation(e[i]);
        }
      }
      assert s == [s[0]] + s[1..];
    }
  }
}
