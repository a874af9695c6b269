/**
 * UTF-8 as `Buffer.from(string)` writes it and `buffer.toString("utf8")`
 * reads it back: the WHATWG decoder, which replaces every maximal ill-formed
 * subpart with U+FFFD instead of failing.
 */
module Utf8 {

  /** An octet. */
  type Byte = b: int | 0 <= b < 256

  const Replacement: char := '\U{FFFD}'

  /** A continuation byte `10xxxxxx`. */
  predicate IsCont(b: Byte) {
    0x80 <= b <= 0xBF
  }

  // ----- encoding -----

  /** The one to four bytes that encode a scalar value. */
  function EncodeChar(c: char): (r: seq<Byte>)
    ensures 1 <= |r| <= 4
    ensures |r| == 1 <==> (c as int) < 0x80
  {
    var x := c as int;
    if x < 0x80 then [x]
    else if x < 0x800 then [0xC0 + x / 64, 0x80 + x % 64]
    else if x < 0x10000 then [0xE0 + x / 4096, 0x80 + (x / 64) % 64, 0x80 + x % 64]
    else [0xF0 + x / 0x40000, 0x80 + (x / 4096) % 64, 0x80 + (x / 64) % 64, 0x80 + x % 64]
  }

  /** `Buffer.from(s)`. */
  function Encode(s: string): (r: seq<Byte>)
    ensures |s| <= |r| <= 4 * |s|
  {
    if s == [] then [] else EncodeChar(s[0]) + Encode(s[1..])
  }

  // ----- decoding -----

  /** The bytes a lead byte admits in second position (narrower than 80..BF after E0, ED, F0, F4). */
  function SecondRange(lead: Byte): (Byte, Byte) {
    if lead == 0xE0 then (0xA0, 0xBF)
    else if lead == 0xED then (0x80, 0x9F)
    else if lead == 0xF0 then (0x90, 0xBF)
    else if lead == 0xF4 then (0x80, 0x8F)
    else (0x80, 0xBF)
  }

  /** Is `b` admissible in second position after `lead`? */
  predicate SecondOk(lead: Byte, b: Byte) {
    SecondRange(lead).0 <= b <= SecondRange(lead).1
  }

  /** Number of bytes of the sequence a lead byte announces; 0 for a byte that cannot lead. */
  function Needed(lead: Byte): nat {
    if lead < 0x80 then 1
    else if 0xC2 <= lead <= 0xDF then 2
    else if 0xE0 <= lead <= 0xEF then 3
    else if 0xF0 <= lead <= 0xF4 then 4
    else 0
  }

  /** How many bytes at the front of `b` belong to the sequence `b[0]` starts (at least one). */
  function ValidPrefix(b: seq<Byte>): (k: nat)
    requires b != []
    ensures 1 <= k <= |b|
    ensures Needed(b[0]) == 0 ==> k == 1
    ensures k <= Needed(b[0]) || k == 1
  {
    var n := Needed(b[0]);
    if n <= 1 then 1
    else if |b| < 2 || !SecondOk(b[0], b[1]) then 1
    else if n == 2 then 2
    else if |b| < 3 || !IsCont(b[2]) then 2
    else if n == 3 then 3
    else if |b| < 4 || !IsCont(b[3]) then 3
    else 4
  }

  /** The scalar value of a complete, well-formed sequence. */
  function SequenceValue(b: seq<Byte>): (c: char)
    requires b != [] && Needed(b[0]) >= 1 && ValidPrefix(b) == Needed(b[0])
  {
    var n := Needed(b[0]);
    if n == 1 then b[0] as char
    else if n == 2 then
      var v := (b[0] as int - 0xC0) * 64 + (b[1] as int - 0x80);
      assert 0x80 <= v < 0x800;
      v as char
    else if n == 3 then
      ThreeByteRange(b[0], b[1], b[2]);
      ((b[0] as int - 0xE0) * 4096 + (b[1] as int - 0x80) * 64 + (b[2] as int - 0x80)) as char
    else
      FourByteRange(b[0], b[1], b[2], b[3]);
      ((b[0] as int - 0xF0) * 0x40000 + (b[1] as int - 0x80) * 4096 + (b[2] as int - 0x80) * 64 + (b[3] as int - 0x80)) as char
  }

  lemma ThreeByteRange(b0: int, b1: int, b2: int)
    requires 0 <= b1 < 256 && 0 <= b2 < 256
    requires 0xE0 <= b0 <= 0xEF && SecondOk(b0, b1) && IsCont(b2)
    ensures var v := (b0 - 0xE0) * 4096 + (b1 - 0x80) * 64 + (b2 - 0x80);
      0x800 <= v < 0xD800 || 0xE000 <= v < 0x10000
  {
    var q := b0 - 0xE0;
    assert 0 <= q <= 15;
    var v := q * 4096 + (b1 - 0x80) * 64 + (b2 - 0x80);
    assert q * 4096 <= v < q * 4096 + 4096;
    if q == 0 {
      assert v >= (0xA0 - 0x80) * 64;
    } else if q == 13 {
      assert v < q * 4096 + (0xA0 - 0x80) * 64;
    }
  }

  lemma FourByteRange(b0: int, b1: int, b2: int, b3: int)
    requires 0 <= b1 < 256 && 0 <= b2 < 256 && 0 <= b3 < 256
    requires 0xF0 <= b0 <= 0xF4 && SecondOk(b0, b1) && IsCont(b2) && IsCont(b3)
    ensures var v := (b0 - 0xF0) * 0x40000 + (b1 - 0x80) * 4096 + (b2 - 0x80) * 64 + (b3 - 0x80);
      0x10000 <= v < 0x110000
  {
    var q := b0 - 0xF0;
    var v := q * 0x40000 + (b1 - 0x80) * 4096 + (b2 - 0x80) * 64 + (b3 - 0x80);
    assert q * 0x40000 + (b1 - 0x80) * 4096 <= v < q * 0x40000 + (b1 - 0x80) * 4096 + 4096;
    if q == 0 {
      assert (b1 - 0x80) * 4096 >= (0x90 - 0x80) * 4096;
    } else if q == 4 {
      assert (b1 - 0x80) * 4096 < (0x90 - 0x80) * 4096;
    }
  }

  /**
   * One decoding step: a well-formed sequence gives its character, anything
   * else gives U+FFFD for its maximal ill-formed subpart, and the byte that
   * broke the sequence is read again by the next step.
   */
  function DecodeStep(b: seq<Byte>): (r: (char, nat))
    requires b != []
    ensures 1 <= r.1 <= |b|
  {
    var k := ValidPrefix(b);
    if Needed(b[0]) >= 1 && k == Needed(b[0]) then (SequenceValue(b), k) else (Replacement, k)
  }

  /** `buffer.toString("utf8")`: never fails. */
  function Decode(b: seq<Byte>): (s: string)
    ensures |s| <= |b|
    decreases |b|
  {
    if b == [] then []
    else
      var (c, k) := DecodeStep(b);
      [c] + Decode(b[k..])
  }

  // ----- round trip -----

  lemma TwoByteDigits(x: int)
    requires 0x80 <= x < 0x800
    ensures 2 <= x / 64 < 32 && x == (x / 64) * 64 + x % 64
  {
  }

  lemma ThreeByteDigits(x: int)
    requires 0x800 <= x < 0x10000
    ensures x / 4096 < 16 && x == (x / 4096) * 4096 + ((x / 64) % 64) * 64 + x % 64
    ensures x / 4096 == 0 ==> (x / 64) % 64 >= 0x20
    ensures x / 4096 == 13 && x < 0xD800 ==> (x / 64) % 64 < 0x20
  {
    var a := x / 64;
    assert x == a * 64 + x % 64;
    assert a == (a / 64) * 64 + a % 64;
    assert a / 64 == x / 4096;
  }

  lemma FourByteDigits(x: int)
    requires 0x10000 <= x < 0x110000
    ensures x / 0x40000 <= 4
    ensures x == (x / 0x40000) * 0x40000 + ((x / 4096) % 64) * 4096 + ((x / 64) % 64) * 64 + x % 64
    ensures x / 0x40000 == 0 ==> (x / 4096) % 64 >= 0x10
    ensures x / 0x40000 == 4 ==> (x / 4096) % 64 < 0x10
  {
    var a := x / 64;
    var c := a / 64;
    assert x == a * 64 + x % 64;
    assert a == c * 64 + a % 64;
    assert c == x / 4096;
    assert c == (c / 64) * 64 + c % 64;
    assert c / 64 == x / 0x40000;
  }

  /** The bytes of one character, whatever follows them, decode to that character. */
  lemma DecodeStepEncodeChar(c: char, rest: seq<Byte>)
    ensures DecodeStep(EncodeChar(c) + rest) == (c, |EncodeChar(c)|)
  {
    var x := c as int;
    if x < 0x80 {
    } else if x < 0x800 {
      DecodeTwo(c, rest);
    } else if x < 0x10000 {
      DecodeThree(c, rest);
    } else {
      DecodeFour(c, rest);
    }
  }

  lemma DecodeTwo(c: char, rest: seq<Byte>)
    requires 0x80 <= c as int < 0x800
    ensures DecodeStep(EncodeChar(c) + rest) == (c, 2)
  {
    var x := c as int;
    var b := EncodeChar(c) + rest;
    TwoByteDigits(x);
    assert b[0] == 0xC0 + x / 64 && b[1] == 0x80 + x % 64;
  }

  lemma DecodeThree(c: char, rest: seq<Byte>)
    requires 0x800 <= c as int < 0x10000
    ensures DecodeStep(EncodeChar(c) + rest) == (c, 3)
  {
    var x := c as int;
    var b := EncodeChar(c) + rest;
    ThreeByteDigits(x);
    assert b[0] == 0xE0 + x / 4096 && b[1] == 0x80 + (x / 64) % 64 && b[2] == 0x80 + x % 64;
  }

  lemma DecodeFour(c: char, rest: seq<Byte>)
    requires 0x10000 <= c as int
    ensures DecodeStep(EncodeChar(c) + rest) == (c, 4)
  {
    var x := c as int;
    var b := EncodeChar(c) + rest;
    FourByteDigits(x);
    assert b[0] == 0xF0 + x / 0x40000 && b[1] == 0x80 + (x / 4096) % 64;
    assert b[2] == 0x80 + (x / 64) % 64 && b[3] == 0x80 + x % 64;
  }

  /** `Buffer.from(s).toString("utf8") === s` for every string without lone surrogates. */
  lemma {:induction false} DecodeEncode(s: string)
    ensures Decode(Encode(s)) == s
  {
    if s != [] {
      var e := EncodeChar(s[0]);
      var b := Encode(s);
      assert b == e + Encode(s[1..]);
      DecodeStepEncodeChar(s[0], Encode(s[1..]));
      assert b[|e|..] == Encode(s[1..]);
      DecodeEncode(s[1..]);
      assert [s[0]] + s[1..] == s;
    }
  }
}
