/**
 * The "base64url" encoding of Node's Buffer: the URL- and filename-safe
 * alphabet of section 5 of RFC 4648, written without `=` padding. Decoding
 * is Node's lenient decoder: it reads both the URL-safe and the standard
 * alphabet, skips characters of neither, stops at the first `=`, and drops a
 * trailing group too short to hold a byte.
 */
module Base64Url {
  import opened Wrappers
  import opened Utf8

  /** A six-bit digit. */
  type Sextet = x: int | 0 <= x < 64

  /** The character for a digit (section 5 of RFC 4648). */
  function DigitChar(d: Sextet): (c: char)
    ensures IsUrlChar(c)
  {
    if d < 26 then ('A' as int + d) as char
    else if d < 52 then ('a' as int + d - 26) as char
    else if d < 62 then ('0' as int + d - 52) as char
    else if d == 62 then '-'
    else '_'
  }

  /** Characters of the URL-safe alphabet. */
  predicate IsUrlChar(c: char) {
    'A' <= c <= 'Z' || 'a' <= c <= 'z' || '0' <= c <= '9' || c == '-' || c == '_'
  }

  /** The digit a character stands for in either alphabet; `None` for any other character. */
  function CharDigit(c: char): (r: Option<Sextet>)
    ensures IsUrlChar(c) ==> r.Some? && DigitChar(r.value) == c
  {
    if 'A' <= c <= 'Z' then Some(c as int - 'A' as int)
    else if 'a' <= c <= 'z' then Some(c as int - 'a' as int + 26)
    else if '0' <= c <= '9' then Some(c as int - '0' as int + 52)
    else if c == '-' || c == '+' then Some(62)
    else if c == '_' || c == '/' then Some(63)
    else None
  }

  lemma CharDigitOfDigitChar(d: Sextet)
    ensures CharDigit(DigitChar(d)) == Some(d)
  {
  }

  // ----- encoding -----

  /** Three bytes as four digits. */
  function Quad(x: Byte, y: Byte, z: Byte): (v: seq<Sextet>)
    ensures |v| == 4
  {
    [x / 4, (x % 4) * 16 + y / 16, (y % 16) * 4 + z / 64, z % 64]
  }

  /** A last two bytes as three digits. */
  function TwoDigitsOf(x: Byte, y: Byte): (v: seq<Sextet>)
    ensures |v| == 3
  {
    [x / 4, (x % 4) * 16 + y / 16, (y % 16) * 4]
  }

  /** A last byte as two digits. */
  function OneDigitsOf(x: Byte): (v: seq<Sextet>)
    ensures |v| == 2
  {
    [x / 4, (x % 4) * 16]
  }

  /** Bytes as digits: each three bytes give four digits, a last one or two bytes give two or three. */
  function ToSextets(b: seq<Byte>): (v: seq<Sextet>)
    ensures |v| == (4 * |b| + 2) / 3
  {
    if |b| >= 3 then Quad(b[0], b[1], b[2]) + ToSextets(b[3..])
    else if |b| == 2 then TwoDigitsOf(b[0], b[1])
    else if |b| == 1 then OneDigitsOf(b[0])
    else []
  }

  /** `buffer.toString("base64url")`. */
  function Encode(b: seq<Byte>): (s: string)
    ensures |s| == (4 * |b| + 2) / 3
    ensures forall i :: 0 <= i < |s| ==> IsUrlChar(s[i])
  {
    var v := ToSextets(b);
    seq(|v|, i requires 0 <= i < |v| => DigitChar(v[i]))
  }

  // ----- decoding -----

  /** The digits of `s` before its first `=`, other characters skipped. */
  function Digits(s: string): (v: seq<Sextet>)
    ensures |v| <= |s|
  {
    if s == [] || s[0] == '=' then []
    else
      match CharDigit(s[0])
      case None => Digits(s[1..])
      case Some(d) => [d] + Digits(s[1..])
  }

  /** Four digits as three bytes. */
  function Triple(a: Sextet, b: Sextet, c: Sextet, d: Sextet): (r: seq<Byte>)
    ensures |r| == 3
  {
    [a as int * 4 + b / 16, (b % 16) as int * 16 + c / 4, (c % 4) as int * 64 + d]
  }

  /** A last three digits as two bytes. */
  function TwoBytesOf(a: Sextet, b: Sextet, c: Sextet): (r: seq<Byte>)
    ensures |r| == 2
  {
    [a as int * 4 + b / 16, (b % 16) as int * 16 + c / 4]
  }

  /** A last two digits as one byte. */
  function OneByteOf(a: Sextet, b: Sextet): (r: seq<Byte>)
    ensures |r| == 1
  {
    [a as int * 4 + b / 16]
  }

  /** Digits back to bytes: four give three, a last three give two, a last two give one, a last one nothing. */
  function FromSextets(v: seq<Sextet>): (b: seq<Byte>)
    ensures |b| == 3 * |v| / 4
  {
    if |v| >= 4 then Triple(v[0], v[1], v[2], v[3]) + FromSextets(v[4..])
    else if |v| == 3 then TwoBytesOf(v[0], v[1], v[2])
    else if |v| == 2 then OneByteOf(v[0], v[1])
    else []
  }

  /** `Buffer.from(s, "base64url")`: never fails. */
  function Decode(s: string): (b: seq<Byte>)
    ensures |b| <= |s|
  {
    FromSextets(Digits(s))
  }

  // ----- round trip -----

  lemma {:induction false} DigitsOfEncoding(v: seq<Sextet>)
    ensures Digits(seq(|v|, i requires 0 <= i < |v| => DigitChar(v[i]))) == v
  {
    var s := seq(|v|, i requires 0 <= i < |v| => DigitChar(v[i]));
    if v != [] {
      CharDigitOfDigitChar(v[0]);
      assert s[1..] == seq(|v[1..]|, i requires 0 <= i < |v[1..]| => DigitChar(v[1..][i]));
      DigitsOfEncoding(v[1..]);
      assert [v[0]] + v[1..] == v;
    }
  }

  lemma ByteSplit(x: Byte)
    ensures x == (x / 4) * 4 + x % 4 && x == (x / 16) * 16 + x % 16 && x == (x / 64) * 64 + x % 64
  {
  }

  /** A digit packed above a smaller one unpacks again. */
  lemma Unpack(h: int, l: int, k: int)
    requires k == 4 || k == 16 || k == 64
    requires 0 <= l < k
    ensures (h * k + l) / k == h && (h * k + l) % k == l
  {
  }

  /** Three bytes through four digits and back. */
  lemma ThreeRoundTrip(x: Byte, y: Byte, z: Byte)
    ensures var v := Quad(x, y, z); Triple(v[0], v[1], v[2], v[3]) == [x, y, z]
  {
    ByteSplit(x);
    ByteSplit(y);
    ByteSplit(z);
    Unpack(x % 4, y / 16, 16);
    Unpack(y % 16, z / 64, 4);
  }

  /** Two bytes through three digits and back. */
  lemma TwoRoundTrip(x: Byte, y: Byte)
    ensures var v := TwoDigitsOf(x, y); TwoBytesOf(v[0], v[1], v[2]) == [x, y]
  {
    FirstByte(x, y);
    SecondByte(x, y);
  }

  lemma FirstByte(x: Byte, y: Byte)
    ensures (x / 4) * 4 + ((x % 4) * 16 + y / 16) / 16 == x
  {
    Unpack(x % 4, y / 16, 16);
  }

  lemma SecondByte(x: Byte, y: Byte)
    ensures (((x % 4) * 16 + y / 16) % 16) * 16 + ((y % 16) * 4) / 4 == y
  {
    Unpack(x % 4, y / 16, 16);
    Unpack(y % 16, 0, 4);
  }

  /** One byte through two digits and back. */
  lemma OneRoundTrip(x: Byte)
    ensures var v := OneDigitsOf(x); OneByteOf(v[0], v[1]) == [x]
  {
    ByteSplit(x);
    Unpack(x % 4, 0, 16);
  }

  /** A group of four digits decodes on its own. */
  lemma FromSextetsGroup(g: seq<Sextet>, w: seq<Sextet>)
    requires |g| == 4
    ensures FromSextets(g + w) == Triple(g[0], g[1], g[2], g[3]) + FromSextets(w)
  {
    assert (g + w)[4..] == w;
  }

  lemma {:induction false} FromToSextets(b: seq<Byte>)
    ensures FromSextets(ToSextets(b)) == b
  {
    if |b| >= 3 {
      var g := Quad(b[0], b[1], b[2]);
      FromSextetsGroup(g, ToSextets(b[3..]));
      ThreeRoundTrip(b[0], b[1], b[2]);
      FromToSextets(b[3..]);
      assert b == [b[0], b[1], b[2]] + b[3..];
    } else if |b| == 2 {
      TwoRoundTrip(b[0], b[1]);
      assert b == [b[0], b[1]];
    } else if |b| == 1 {
      OneRoundTrip(b[0]);
      assert b == [b[0]];
    }
  }

  /** `Buffer.from(buf.toString("base64url"), "base64url")` equals `buf`. */
  lemma DecodeEncode(b: seq<Byte>)
    ensures Decode(Encode(b)) == b
  {
    DigitsOfEncoding(ToSextets(b));
    FromToSextets(b);
  }
}
