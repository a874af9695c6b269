/**
 * JSON text as `JSON.stringify` writes it and `JSON.parse` reads it (ECMA-404).
 * Strings are sequences of Unicode scalar values; a number is kept as the
 * lexeme that denotes it.
 */
module Json {
  import opened Wrappers
  import JsText
  import opened JsNumber

  datatype Json =
    | JNull
    | JBool(b: bool)
    | JNumber(lexeme: string)
    | JString(s: string)
    | JArray(items: seq<Json>)
    | JObject(members: seq<Member>)

  datatype Member = Member(name: string, value: Json)

  // ----- numbers -----

  /** Characters that can occur in a number lexeme. */
  predicate IsNumberChar(c: char) {
    IsDigit(c) || c == '-' || c == '+' || c == '.' || c == 'e' || c == 'E'
  }

  /** Length of the integer part at the start of `s`: `0`, or a non-zero digit and more digits. */
  function IntPartLength(s: string): nat {
    if s == [] || !IsDigit(s[0]) then 0
    else if s[0] == '0' then 1
    else 1 + DigitRun(s[1..])
  }

  /** `e`/`E`, an optional sign and at least one digit, or nothing at all. */
  predicate ValidExponent(s: string) {
    s == [] ||
    ((s[0] == 'e' || s[0] == 'E') &&
     var k := if |s| > 1 && (s[1] == '+' || s[1] == '-') then 2 else 1;
     k < |s| && AllDigits(s[k..]))
  }

  /** An optional fraction (a dot and at least one digit) followed by a valid exponent. */
  predicate ValidFraction(s: string) {
    if s != [] && s[0] == '.' then
      var d := DigitRun(s[1..]);
      d > 0 && ValidExponent(s[1 + d..])
    else ValidExponent(s)
  }

  /** The number grammar of JSON: `-`? int frac? exp?. */
  predicate ValidNumber(l: string) {
    var a := if l != [] && l[0] == '-' then 1 else 0;
    var i := IntPartLength(l[a..]);
    i > 0 && ValidFraction(l[a + i..])
  }

  predicate AllNumberChars(s: string) {
    forall i :: 0 <= i < |s| ==> IsNumberChar(s[i])
  }

  lemma ConcatNumberChars(a: string, b: string)
    requires AllNumberChars(a) && AllNumberChars(b)
    ensures AllNumberChars(a + b)
  {
  }

  lemma ExponentChars(s: string)
    requires ValidExponent(s)
    ensures AllNumberChars(s)
  {
    if s != [] {
      var k := if |s| > 1 && (s[1] == '+' || s[1] == '-') then 2 else 1;
      assert AllNumberChars(s[..k]);
      assert s == s[..k] + s[k..];
    }
  }

  lemma FractionChars(s: string)
    requires ValidFraction(s)
    ensures AllNumberChars(s)
  {
    if s != [] && s[0] == '.' {
      var d := DigitRun(s[1..]);
      ExponentChars(s[1 + d..]);
      assert AllNumberChars(s[..1 + d]) by {
        assert forall j :: 1 <= j < 1 + d ==> s[j] == s[1..][..d][j - 1];
      }
      assert s == s[..1 + d] + s[1 + d..];
      ConcatNumberChars(s[..1 + d], s[1 + d..]);
    } else {
      ExponentChars(s);
    }
  }

  lemma IntPartDigits(b: string)
    ensures IntPartLength(b) <= |b|
    ensures AllDigits(b[..IntPartLength(b)])
    ensures IntPartLength(b) > 0 ==> IsDigit(b[0])
  {
    var i := IntPartLength(b);
    if i > 1 {
      assert b[..i] == [b[0]] + b[1..][..i - 1];
    }
  }

  lemma DigitsAreNumberChars(s: string)
    requires AllDigits(s)
    ensures AllNumberChars(s)
  {
  }

  /** A string whose two parts hold number characters only does too. */
  lemma SplitChars(s: string, k: nat)
    requires k <= |s| && AllNumberChars(s[..k]) && AllNumberChars(s[k..])
    ensures AllNumberChars(s)
  {
    assert s == s[..k] + s[k..];
    ConcatNumberChars(s[..k], s[k..]);
  }

  /** A valid number lexeme starts with `-` or a digit and holds number characters only. */
  lemma ValidNumberChars(l: string)
    requires ValidNumber(l)
    ensures l != [] && (l[0] == '-' || IsDigit(l[0]))
    ensures AllNumberChars(l)
  {
    var a := if l != [] && l[0] == '-' then 1 else 0;
    var b := l[a..];
    var i := IntPartLength(b);
    IntPartDigits(b);
    DigitsAreNumberChars(b[..i]);
    FractionChars(b[i..]);
    SplitChars(b, i);
    assert AllNumberChars(l[..a]);
    SplitChars(l, a);
  }

  /** Is the lexeme a JavaScript zero (every digit of its significand is `0`)? */
  predicate IsZeroLexeme(l: string) {
    forall i :: 0 <= i < |l| && IsDigit(l[i]) && (forall j :: 0 <= j < i ==> l[j] != 'e' && l[j] != 'E') ==> l[i] == '0'
  }

  /** JavaScript truthiness of a value (`!!v`). */
  predicate Truthy(v: Json) {
    match v
    case JNull => false
    case JBool(b) => b
    case JNumber(l) => !IsZeroLexeme(l)
    case JString(s) => s != []
    case _ => true
  }

  /** Values `JSON.parse` can produce: every number lexeme follows the grammar. */
  predicate WellFormed(v: Json) {
    match v
    case JNumber(l) => ValidNumber(l)
    case JArray(items) => forall i :: 0 <= i < |items| ==> WellFormed(items[i])
    case JObject(ms) => forall i :: 0 <= i < |ms| ==> WellFormed(ms[i].value)
    case _ => true
  }

  // ----- JSON.stringify -----

  function HexDigit(d: nat): char
    requires d < 16
  {
    if d < 10 then ('0' as int + d) as char else ('a' as int + d - 10) as char
  }

  function HexValue(c: char): Option<nat> {
    if '0' <= c <= '9' then Some(c as int - '0' as int)
    else if 'a' <= c <= 'f' then Some(c as int - 'a' as int + 10)
    else if 'A' <= c <= 'F' then Some(c as int - 'A' as int + 10)
    else None
  }

  /** How QuoteJSONString writes one character. */
  function EscapeChar(c: char): (r: string)
    ensures r != []
  {
    if c == '"' then "\\\""
    else if c == '\\' then "\\\\"
    else if c == '\U{0008}' then "\\b"
    else if c == '\U{000C}' then "\\f"
    else if c == '\n' then "\\n"
    else if c == '\r' then "\\r"
    else if c == '\t' then "\\t"
    else if c < ' ' then "\\u00" + [HexDigit(c as int / 16), HexDigit(c as int % 16)]
    else [c]
  }

  function EscapeAll(s: string): string {
    if s == [] then [] else EscapeChar(s[0]) + EscapeAll(s[1..])
  }

  function Quote(s: string): string {
    "\"" + EscapeAll(s) + "\""
  }

  function Stringify(v: Json): string {
    match v
    case JNull => "null"
    case JBool(b) => if b then "true" else "false"
    case JNumber(l) => l
    case JString(s) => Quote(s)
    case JArray(items) => "[" + StringifyItems(items) + "]"
    case JObject(ms) => "{" + StringifyMembers(ms) + "}"
  }

  function StringifyItems(items: seq<Json>): string {
    if items == [] then ""
    else if |items| == 1 then Stringify(items[0])
    else Stringify(items[0]) + "," + StringifyItems(items[1..])
  }

  function StringifyMembers(ms: seq<Member>): string {
    if ms == [] then ""
    else
      var head := Quote(ms[0].name) + ":" + Stringify(ms[0].value);
      if |ms| == 1 then head else head + "," + StringifyMembers(ms[1..])
  }

  // ----- JSON.parse -----

  /** The white space JSON allows between tokens. */
  predicate IsWs(c: char) {
    c == ' ' || c == '\t' || c == '\n' || c == '\r'
  }

  /** What is left of `s` after its leading white space. */
  function SkipWs(s: string): (r: string)
    ensures |r| <= |s| && r == s[|s| - |r|..]
    ensures r != [] ==> !IsWs(r[0])
  {
    if s != [] && IsWs(s[0]) then SkipWs(s[1..]) else s
  }

  /** Value of four hexadecimal digits at the start of `s`. */
  function Hex4(s: string): Option<nat>
    requires |s| >= 4
  {
    match (HexValue(s[0]), HexValue(s[1]), HexValue(s[2]), HexValue(s[3]))
    case (Some(a), Some(b), Some(c), Some(d)) => Some(4096 * a + 256 * b + 16 * c + d)
    case _ => None
  }

  /** The character a surrogate pair `\uD8xx\uDCxx` stands for. */
  function Pair(hi: int, lo: int): char
    requires 0xD800 <= hi < 0xDC00 && 0xDC00 <= lo < 0xE000
  {
    (0x10000 + (hi - 0xD800) * 0x400 + (lo - 0xDC00)) as char
  }

  /**
   * The escape after a backslash: the character it stands for and how many
   * characters it takes. A `\u` escape of an unpaired surrogate is refused.
   */
  function ParseEscape(e: string): (r: Option<(char, nat)>)
    ensures r.Some? ==> 1 <= r.value.1 <= |e|
  {
    if e == [] then None
    else if e[0] == '"' then Some(('"', 1))
    else if e[0] == '\\' then Some(('\\', 1))
    else if e[0] == '/' then Some(('/', 1))
    else if e[0] == 'b' then Some(('\U{0008}', 1))
    else if e[0] == 'f' then Some(('\U{000C}', 1))
    else if e[0] == 'n' then Some(('\n', 1))
    else if e[0] == 'r' then Some(('\r', 1))
    else if e[0] == 't' then Some(('\t', 1))
    else if e[0] == 'u' && |e| >= 5 then
      match Hex4(e[1..5])
      case None => None
      case Some(u) =>
        if u < 0xD800 || 0xE000 <= u then Some((u as char, 5))
        else if u < 0xDC00 && |e| >= 11 && e[5] == '\\' && e[6] == 'u' then
          match Hex4(e[7..11])
          case Some(lo) =>
            if 0xDC00 <= lo < 0xE000 then Some((Pair(u, lo), 11))
            else None
          case None => None
        else None
    else None
  }

  /** The rest of a string literal after its opening quote; `acc` holds what was read so far. */
  function ParseString(s: string, acc: string): (r: Option<(string, string)>)
    ensures r.Some? ==> |r.value.1| < |s|
    decreases |s|
  {
    if s == [] then None
    else if s[0] == '"' then Some((acc, s[1..]))
    else if s[0] == '\\' then
      match ParseEscape(s[1..])
      case None => None
      case Some((c, n)) => ParseString(s[1 + n..], acc + [c])
    else if s[0] < ' ' then None
    else ParseString(s[1..], acc + [s[0]])
  }

  /** Length of the run of number characters `s` starts with. */
  function NumberRun(s: string): (n: nat)
    ensures n <= |s| && AllNumberChars(s[..n])
    ensures n < |s| ==> !IsNumberChar(s[n])
  {
    if s == [] || !IsNumberChar(s[0]) then 0 else 1 + NumberRun(s[1..])
  }

  /**
   * A number: the longest run of number characters, which must follow the
   * grammar. In valid JSON a number is never followed by a number character,
   * so this accepts exactly what `JSON.parse` accepts.
   */
  function ParseNumber(s: string): (r: Option<(Json, string)>)
    requires s != [] && IsNumberChar(s[0])
    ensures r.Some? ==> |r.value.1| < |s|
  {
    var n := NumberRun(s);
    if ValidNumber(s[..n]) then Some((JNumber(s[..n]), s[n..])) else None
  }

  /** One value after optional white space, and what follows it. */
  function ParseValue(s: string): (r: Option<(Json, string)>)
    ensures r.Some? ==> |r.value.1| < |s|
    decreases |s|, 0
  {
    var t := SkipWs(s);
    if t == [] then None
    else if t[0] == '{' then ParseObject(t[1..])
    else if t[0] == '[' then ParseArray(t[1..])
    else if t[0] == '"' then
      match ParseString(t[1..], [])
      case None => None
      case Some((str, rest)) => Some((JString(str), rest))
    else if t[0] == '-' || IsDigit(t[0]) then ParseNumber(t)
    else Literal(t)
  }

  /** `null`, `true` or `false` at the start of `t`, and what follows it. */
  function Literal(t: string): (r: Option<(Json, string)>)
    ensures r.Some? ==> |r.value.1| < |t|
  {
    if JsText.StartsWith(t, "null") then Some((JNull, t[4..]))
    else if JsText.StartsWith(t, "true") then Some((JBool(true), t[4..]))
    else if JsText.StartsWith(t, "false") then Some((JBool(false), t[5..]))
    else None
  }

  /** The rest of an array after `[`. */
  function ParseArray(s: string): (r: Option<(Json, string)>)
    ensures r.Some? ==> |r.value.1| < |s|
    decreases |s|, 2
  {
    var t := SkipWs(s);
    if t != [] && t[0] == ']' then Some((JArray([]), t[1..])) else ParseElements(t, [])
  }

  /** Elements of an array, each followed by `,` or the closing `]`; `acc` holds those read so far. */
  function ParseElements(s: string, acc: seq<Json>): (r: Option<(Json, string)>)
    ensures r.Some? ==> |r.value.1| < |s|
    decreases |s|, 1
  {
    match ParseValue(s)
    case None => None
    case Some((v, rest)) =>
      var t := SkipWs(rest);
      if t != [] && t[0] == ',' then ParseElements(t[1..], acc + [v])
      else if t != [] && t[0] == ']' then Some((JArray(acc + [v]), t[1..]))
      else None
  }

  /** The rest of an object after `{`. */
  function ParseObject(s: string): (r: Option<(Json, string)>)
    ensures r.Some? ==> |r.value.1| < |s|
    decreases |s|, 2
  {
    var t := SkipWs(s);
    if t != [] && t[0] == '}' then Some((JObject([]), t[1..])) else ParseMembers(t, [])
  }

  /** One member `"name": value`, after the opening quote of its name, and what follows it. */
  function ParseMember(s: string): (r: Option<(Member, string)>)
    ensures r.Some? ==> |r.value.1| < |s|
    decreases |s|, 0
  {
    match ParseString(s, [])
    case None => None
    case Some((name, r1)) =>
      var t1 := SkipWs(r1);
      if t1 == [] || t1[0] != ':' then None
      else
        match ParseValue(t1[1..])
        case None => None
        case Some((v, r2)) => Some((Member(name, v), r2))
  }

  /** Members of an object, each followed by `,` or the closing `}`; `acc` holds those read so far. */
  function ParseMembers(s: string, acc: seq<Member>): (r: Option<(Json, string)>)
    ensures r.Some? ==> |r.value.1| < |s|
    decreases |s|, 1
  {
    var t := SkipWs(s);
    if t == [] || t[0] != '"' then None
    else
      var p := ParseMember(t[1..]);
      if p.None? then None
      else
        var t2 := SkipWs(p.value.1);
        if t2 != [] && t2[0] == ',' then ParseMembers(t2[1..], acc + [p.value.0])
        else if t2 != [] && t2[0] == '}' then Some((JObject(acc + [p.value.0]), t2[1..]))
        else None
  }

  /** `JSON.parse(text)`: one value, surrounded by optional white space; `None` where it throws. */
  function Parse(text: string): Option<Json> {
    match ParseValue(text)
    case None => None
    case Some((v, rest)) => if SkipWs(rest) == [] then Some(v) else None
  }

  // ----- JSON.parse(JSON.stringify(v)) == v -----

  lemma HexRoundTrip(d: nat)
    requires d < 16
    ensures HexValue(HexDigit(d)) == Some(d)
  {
  }

  /** A character is written either as itself or as an escape that reads back as it. */
  lemma {:induction false} EscapeCharRoundTrip(c: char, tail: string)
    ensures EscapeChar(c) == [c] ==> c != '"' && c != '\\' && c >= ' '
    ensures EscapeChar(c) != [c] ==>
      EscapeChar(c)[0] == '\\' && ParseEscape(EscapeChar(c)[1..] + tail) == Some((c, |EscapeChar(c)| - 1))
  {
    var e := EscapeChar(c);
    if e != [c] && c < ' ' && c != '\U{0008}' && c != '\U{000C}' && c != '\n' && c != '\r' && c != '\t' {
      var hi, lo := c as int / 16, c as int % 16;
      HexRoundTrip(hi);
      HexRoundTrip(lo);
      var u := e[1..] + tail;
      assert u[0] == 'u' && u[1..5] == ['0', '0', HexDigit(hi), HexDigit(lo)];
      assert Hex4(u[1..5]) == Some(c as int);
    }
  }

  /** One written character reads back as itself, whatever follows it. */
  lemma StringStep(c: char, tail: string, acc: string)
    ensures ParseString(EscapeChar(c) + tail, acc) == ParseString(tail, acc + [c])
  {
    EscapeCharRoundTrip(c, tail);
    if EscapeChar(c) == [c] {
      PlainStep(c, tail, acc);
    } else {
      EscapedStep(c, tail, acc);
    }
  }

  lemma PlainStep(c: char, tail: string, acc: string)
    requires c != '"' && c != '\\' && c >= ' '
    ensures ParseString([c] + tail, acc) == ParseString(tail, acc + [c])
  {
    assert ([c] + tail)[0] == c && ([c] + tail)[1..] == tail;
  }

  lemma EscapedStep(c: char, tail: string, acc: string)
    requires EscapeChar(c)[0] == '\\' && ParseEscape(EscapeChar(c)[1..] + tail) == Some((c, |EscapeChar(c)| - 1))
    ensures ParseString(EscapeChar(c) + tail, acc) == ParseString(tail, acc + [c])
  {
    var e := EscapeChar(c);
    var text := e + tail;
    assert text[0] == '\\' && text[1..] == e[1..] + tail;
    assert text[1 + (|e| - 1)..] == tail;
  }

  /** The closing quote ends the string. */
  lemma StringEnd(rest: string, acc: string)
    ensures ParseString("\"" + rest, acc) == Some((acc, rest))
  {
    assert ("\"" + rest)[0] == '"' && ("\"" + rest)[1..] == rest;
  }

  lemma EscapeAllCons(s: string, rest: string)
    requires s != []
    ensures EscapeAll(s) + "\"" + rest == EscapeChar(s[0]) + (EscapeAll(s[1..]) + "\"" + rest)
  {
  }

  lemma {:induction false} ParseStringRoundTrip(s: string, acc: string, rest: string)
    ensures ParseString(EscapeAll(s) + "\"" + rest, acc) == Some((acc + s, rest))
  {
    if s == [] {
      assert EscapeAll(s) + "\"" + rest == "\"" + rest;
      StringEnd(rest, acc);
      assert acc + s == acc;
    } else {
      EscapeAllCons(s, rest);
      StringStep(s[0], EscapeAll(s[1..]) + "\"" + rest, acc);
      ParseStringRoundTrip(s[1..], acc + [s[0]], rest);
      ConsSplit(acc, s);
    }
  }

  /** Serialised text is never empty and never starts with white space. */
  lemma StringifyStart(v: Json)
    requires WellFormed(v)
    ensures Stringify(v) != [] && !IsWs(Stringify(v)[0]) && Stringify(v)[0] != ']'
  {
    if v.JNumber? {
      ValidNumberChars(v.lexeme);
    }
  }

  lemma {:induction false} NumberRunOf(l: string, rest: string)
    requires AllNumberChars(l)
    requires rest == [] || !IsNumberChar(rest[0])
    ensures NumberRun(l + rest) == |l|
  {
    if l != [] {
      assert (l + rest)[1..] == l[1..] + rest;
      NumberRunOf(l[1..], rest);
    } else {
      assert l + rest == rest;
    }
  }

  /** How `ParseValue` reads text that starts with `-` or a digit. */
  lemma NumberDispatch(t: string)
    requires t != [] && (t[0] == '-' || IsDigit(t[0]))
    ensures ParseValue(t) == ParseNumber(t)
  {
    NoLeadingWs(t);
    assert t[0] != '{' && t[0] != '[' && t[0] != '"';
  }

  lemma LiteralRoundTrip(v: Json, rest: string)
    requires v.JNull? || v.JBool?
    ensures ParseValue(Stringify(v) + rest) == Some((v, rest))
  {
    var text := Stringify(v) + rest;
    LiteralDispatch(text);
    if v.JNull? {
      NullLiteral(rest);
    } else if v.b {
      TrueLiteral(rest);
    } else {
      FalseLiteral(rest);
    }
  }

  /** How `ParseValue` reads text that starts with the letter of a literal. */
  lemma LiteralDispatch(t: string)
    requires t != [] && (t[0] == 'n' || t[0] == 't' || t[0] == 'f')
    ensures ParseValue(t) == Literal(t)
  {
    NoLeadingWs(t);
  }

  lemma NullLiteral(rest: string)
    ensures Literal("null" + rest) == Some((JNull, rest))
  {
    var text := "null" + rest;
    assert text[..4] == "null" && text[4..] == rest;
  }

  lemma TrueLiteral(rest: string)
    ensures Literal("true" + rest) == Some((JBool(true), rest))
  {
    var text := "true" + rest;
    assert text[..4] == "true" && text[4..] == rest;
    assert text[..4][0] == 't';
  }

  lemma FalseLiteral(rest: string)
    ensures Literal("false" + rest) == Some((JBool(false), rest))
  {
    var text := "false" + rest;
    assert text[..5] == "false" && text[5..] == rest;
    assert text[..4][0] == 'f';
    assert text[..4] != "null" && text[..4] != "true";
  }

  lemma NumberRoundTrip(l: string, rest: string)
    requires ValidNumber(l)
    requires rest == [] || !IsNumberChar(rest[0])
    ensures ParseValue(l + rest) == Some((JNumber(l), rest))
  {
    var text := l + rest;
    ValidNumberChars(l);
    assert text[0] == l[0];
    NumberDispatch(text);
    NumberRunOf(l, rest);
    assert text[..|l|] == l && text[|l|..] == rest;
  }

  lemma StringRoundTrip(str: string, rest: string)
    ensures ParseValue(Quote(str) + rest) == Some((JString(str), rest))
  {
    var text := Quote(str) + rest;
    NoLeadingWs(text);
    assert text[1..] == EscapeAll(str) + "\"" + rest;
    ParseStringRoundTrip(str, [], rest);
    assert [] + str == str;
  }

  lemma {:induction false} ParseValueRoundTrip(v: Json, rest: string)
    requires WellFormed(v)
    requires rest == [] || !IsNumberChar(rest[0])
    ensures ParseValue(Stringify(v) + rest) == Some((v, rest))
    decreases v, 3
  {
    match v
    case JNull => LiteralRoundTrip(v, rest);
    case JBool(_) => LiteralRoundTrip(v, rest);
    case JNumber(l) => NumberRoundTrip(l, rest);
    case JString(str) => StringRoundTrip(str, rest);
    case JArray(items) => ArrayRoundTrip(items, rest);
    case JObject(ms) => ObjectRoundTrip(ms, rest);
  }

  lemma ArrayDispatch(t: string)
    requires t != [] && t[0] == '['
    ensures ParseValue(t) == ParseArray(t[1..])
  {
    NoLeadingWs(t);
    assert t[0] != '{';
  }

  lemma ObjectDispatch(t: string)
    requires t != [] && t[0] == '{'
    ensures ParseValue(t) == ParseObject(t[1..])
  {
    NoLeadingWs(t);
  }

  // Shapes of serialised text, proved on arbitrary strings so that the
  // round-trip lemmas below never unfold `Stringify` inside a sequence equality.

  lemma EnclosedShape(o: char, s: string, c: char, rest: string)
    ensures [o] + s + [c] + rest != [] && ([o] + s + [c] + rest)[0] == o
    ensures ([o] + s + [c] + rest)[1..] == s + [c] + rest
  {
  }

  lemma JoinShape(a: string, b: string, close: char, rest: string)
    ensures a + "," + b + [close] + rest == a + [','] + (b + [close] + rest)
  {
  }

  lemma AppendShape(a: string, sep: char, tail: string)
    ensures a + [sep] + tail == a + ([sep] + tail) && ([sep] + tail)[1..] == tail
  {
  }

  lemma MemberShape(e: string, v: string, sep: char, tail: string)
    ensures var t := "\"" + e + "\"" + ":" + v + [sep] + tail;
      t != [] && t[0] == '"' && t[1..] == e + "\"" + (":" + (v + ([sep] + tail)))
    ensures (":" + (v + ([sep] + tail)))[1..] == v + ([sep] + tail)
  {
  }

  /** `[` and `]` around nothing. */
  lemma EmptyArray(rest: string)
    ensures ParseValue(Stringify(JArray([])) + rest) == Some((JArray([]), rest))
  {
    var r := [']'] + rest;
    var text := ['['] + r;
    assert Stringify(JArray([])) + rest == text;
    assert text[0] == '[' && text[1..] == r;
    ArrayDispatch(text);
    CloseArray(r);
    assert r[1..] == rest;
  }

  /** `]` right after `[`. */
  lemma CloseArray(r: string)
    requires r != [] && r[0] == ']'
    ensures ParseArray(r) == Some((JArray([]), r[1..]))
  {
    NoLeadingWs(r);
  }

  /** A non-empty array is read by the element loop. */
  lemma OpenArray(items: seq<Json>, rest: string)
    requires items != [] && WellFormed(items[0])
    ensures ParseValue(Stringify(JArray(items)) + rest) == ParseElements(StringifyItems(items) + "]" + rest, [])
  {
    var body := StringifyItems(items);
    EnclosedShape('[', body, ']', rest);
    ArrayDispatch("[" + body + "]" + rest);
    ItemsStart(items);
    StartOf(body, "]" + rest);
    OpenElements(body + "]" + rest);
  }

  /** The first character of `a + b` is that of a non-empty `a`. */
  lemma StartOf(a: string, b: string)
    requires a != []
    ensures (a + b)[0] == a[0] && a + b != []
  {
  }

  /** After `[`, anything but white space and `]` starts the element loop. */
  lemma OpenElements(r: string)
    requires r != [] && !IsWs(r[0]) && r[0] != ']'
    ensures ParseArray(r) == ParseElements(r, [])
  {
    NoLeadingWs(r);
  }

  lemma {:induction false} ArrayRoundTrip(items: seq<Json>, rest: string)
    requires forall i :: 0 <= i < |items| ==> WellFormed(items[i])
    ensures ParseValue(Stringify(JArray(items)) + rest) == Some((JArray(items), rest))
    decreases items, 7
  {
    if items == [] {
      EmptyArray(rest);
    } else {
      OpenArray(items, rest);
      ParseItemsRoundTrip(items, [], rest);
      EmptyPrefix(items);
    }
  }

  /** `{` and `}` around nothing. */
  lemma EmptyObject(rest: string)
    ensures ParseValue(Stringify(JObject([])) + rest) == Some((JObject([]), rest))
  {
    var r := ['}'] + rest;
    var text := ['{'] + r;
    assert Stringify(JObject([])) + rest == text;
    assert text[0] == '{' && text[1..] == r;
    ObjectDispatch(text);
    CloseObject(r);
    assert r[1..] == rest;
  }

  /** `}` right after `{`. */
  lemma CloseObject(r: string)
    requires r != [] && r[0] == '}'
    ensures ParseObject(r) == Some((JObject([]), r[1..]))
  {
    NoLeadingWs(r);
  }

  /** A non-empty object is read by the member loop. */
  lemma OpenObject(ms: seq<Member>, rest: string)
    requires ms != []
    ensures ParseValue(Stringify(JObject(ms)) + rest) == ParseMembers(StringifyMembers(ms) + "}" + rest, [])
  {
    var body := StringifyMembers(ms);
    EnclosedShape('{', body, '}', rest);
    ObjectDispatch("{" + body + "}" + rest);
    var inner := body + "}" + rest;
    MembersStart(ms);
    assert inner[0] == '"';
    NoLeadingWs(inner);
  }

  lemma {:induction false} ObjectRoundTrip(ms: seq<Member>, rest: string)
    requires forall i :: 0 <= i < |ms| ==> WellFormed(ms[i].value)
    ensures ParseValue(Stringify(JObject(ms)) + rest) == Some((JObject(ms), rest))
    decreases ms, 7
  {
    if ms == [] {
      EmptyObject(rest);
    } else {
      OpenObject(ms, rest);
      ParseMembersRoundTrip(ms, [], rest);
      EmptyPrefix(ms);
    }
  }

  lemma ItemsStart(items: seq<Json>)
    requires items != [] && WellFormed(items[0])
    ensures StringifyItems(items) != [] && !IsWs(StringifyItems(items)[0]) && StringifyItems(items)[0] != ']'
  {
    StringifyStart(items[0]);
  }

  lemma MembersStart(ms: seq<Member>)
    requires ms != []
    ensures StringifyMembers(ms) != [] && StringifyMembers(ms)[0] == '"'
  {
  }

  /** `ParseElements` after a value that is followed by `,` or `]`. */
  lemma ElementsUnfold(s: string, acc: seq<Json>, v: Json, r: string)
    requires ParseValue(s) == Some((v, r))
    requires r != [] && (r[0] == ',' || r[0] == ']')
    ensures ParseElements(s, acc) ==
      if r[0] == ',' then ParseElements(r[1..], acc + [v]) else Some((JArray(acc + [v]), r[1..]))
  {
    NoLeadingWs(r);
  }

  /** One step of the element loop: a value followed by `sep`. */
  lemma ElementStep(x: Json, sep: char, tail: string, acc: seq<Json>)
    requires WellFormed(x)
    requires sep == ',' || sep == ']'
    ensures ParseElements(Stringify(x) + [sep] + tail, acc) ==
      if sep == ',' then ParseElements(tail, acc + [x]) else Some((JArray(acc + [x]), tail))
    decreases x, 4
  {
    var r := [sep] + tail;
    AppendShape(Stringify(x), sep, tail);
    ParseValueRoundTrip(x, r);
    ElementsUnfold(Stringify(x) + r, acc, x, r);
  }

  lemma LastItem(items: seq<Json>, acc: seq<Json>, rest: string)
    requires |items| == 1 && WellFormed(items[0])
    ensures ParseElements(StringifyItems(items) + "]" + rest, acc) == Some((JArray(acc + items), rest))
    decreases items, 5
  {
    var x := items[0];
    assert StringifyItems(items) == Stringify(x);
    ElementStep(x, ']', rest, acc);
    assert acc + [x] == acc + items;
  }

  lemma NextItem(items: seq<Json>, acc: seq<Json>, rest: string)
    requires |items| > 1 && WellFormed(items[0])
    ensures ParseElements(StringifyItems(items) + "]" + rest, acc) ==
      ParseElements(StringifyItems(items[1..]) + "]" + rest, acc + [items[0]])
    decreases items, 5
  {
    var x := items[0];
    var b := StringifyItems(items[1..]);
    assert StringifyItems(items) == Stringify(x) + "," + b;
    JoinShape(Stringify(x), b, ']', rest);
    ElementStep(x, ',', b + "]" + rest, acc);
  }

  lemma {:induction false} ParseItemsRoundTrip(items: seq<Json>, acc: seq<Json>, rest: string)
    requires items != []
    requires forall i :: 0 <= i < |items| ==> WellFormed(items[i])
    ensures ParseElements(StringifyItems(items) + "]" + rest, acc) == Some((JArray(acc + items), rest))
    decreases items, 6
  {
    if |items| == 1 {
      LastItem(items, acc, rest);
    } else {
      NextItem(items, acc, rest);
      ParseItemsRoundTrip(items[1..], acc + [items[0]], rest);
      assert acc + [items[0]] + items[1..] == acc + items;
    }
  }

  /** Text that does not start with white space is not skipped. */
  lemma NoLeadingWs(s: string)
    requires s != [] && !IsWs(s[0])
    ensures SkipWs(s) == s
  {
  }

  /** `ParseMember` over `name":value` with no white space around the colon. */
  lemma MemberUnfold(s: string, name: string, r1: string, v: Json, r2: string)
    requires ParseString(s, []) == Some((name, r1))
    requires r1 != [] && r1[0] == ':' && ParseValue(r1[1..]) == Some((v, r2))
    ensures ParseMember(s) == Some((Member(name, v), r2))
  {
    NoLeadingWs(r1);
  }

  /** `ParseMembers` over a member followed by `,` or `}`. */
  lemma MembersUnfold(t: string, acc: seq<Member>, m: Member, r2: string)
    requires t != [] && t[0] == '"' && ParseMember(t[1..]) == Some((m, r2))
    requires r2 != [] && (r2[0] == ',' || r2[0] == '}')
    ensures ParseMembers(t, acc) ==
      if r2[0] == ',' then ParseMembers(r2[1..], acc + [m])
      else Some((JObject(acc + [m]), r2[1..]))
  {
    NoLeadingWs(t);
    NoLeadingWs(r2);
  }

  /** One step of the member loop: `"name":value` followed by `sep`. */
  lemma MemberStep(m: Member, sep: char, tail: string, acc: seq<Member>)
    requires WellFormed(m.value)
    requires sep == ',' || sep == '}'
    ensures ParseMembers(Quote(m.name) + ":" + Stringify(m.value) + [sep] + tail, acc) ==
      if sep == ',' then ParseMembers(tail, acc + [m]) else Some((JObject(acc + [m]), tail))
    decreases m, 4
  {
    var e, v := EscapeAll(m.name), Stringify(m.value);
    var r2 := [sep] + tail;
    var r1 := ":" + (v + r2);
    var t := Quote(m.name) + ":" + v + [sep] + tail;
    MemberShape(e, v, sep, tail);
    ParseStringRoundTrip(m.name, [], r1);
    assert [] + m.name == m.name;
    ParseValueRoundTrip(m.value, r2);
    assert r2[1..] == tail;
    MemberUnfold(t[1..], m.name, r1, m.value, r2);
    MembersUnfold(t, acc, m, r2);
  }

  lemma EmptyPrefix<T>(xs: seq<T>)
    ensures [] + xs == xs
  {
  }

  lemma ConsSplit<T>(acc: seq<T>, xs: seq<T>)
    requires xs != []
    ensures acc + [xs[0]] + xs[1..] == acc + xs
  {
  }

  lemma SingleMember(ms: seq<Member>)
    requires |ms| == 1
    ensures StringifyMembers(ms) == Quote(ms[0].name) + ":" + Stringify(ms[0].value)
  {
  }

  lemma LastMember(ms: seq<Member>, acc: seq<Member>, rest: string)
    requires |ms| == 1 && WellFormed(ms[0].value)
    ensures ParseMembers(StringifyMembers(ms) + "}" + rest, acc) == Some((JObject(acc + ms), rest))
    decreases ms, 5
  {
    var m := ms[0];
    SingleMember(ms);
    MemberStep(m, '}', rest, acc);
    assert ms == [m];
  }

  lemma NextMember(ms: seq<Member>, acc: seq<Member>, rest: string)
    requires |ms| > 1 && WellFormed(ms[0].value)
    ensures ParseMembers(StringifyMembers(ms) + "}" + rest, acc) ==
      ParseMembers(StringifyMembers(ms[1..]) + "}" + rest, acc + [ms[0]])
    decreases ms, 5
  {
    var m := ms[0];
    var head := Quote(m.name) + ":" + Stringify(m.value);
    var b := StringifyMembers(ms[1..]);
    assert StringifyMembers(ms) == head + "," + b;
    JoinShape(head, b, '}', rest);
    MemberStep(m, ',', b + "}" + rest, acc);
  }

  lemma {:induction false} ParseMembersRoundTrip(ms: seq<Member>, acc: seq<Member>, rest: string)
    requires ms != []
    requires forall i :: 0 <= i < |ms| ==> WellFormed(ms[i].value)
    ensures ParseMembers(StringifyMembers(ms) + "}" + rest, acc) == Some((JObject(acc + ms), rest))
    decreases ms, 6
  {
    if |ms| == 1 {
      LastMember(ms, acc, rest);
    } else {
      NextMember(ms, acc, rest);
      ParseMembersRoundTrip(ms[1..], acc + [ms[0]], rest);
      ConsSplit(acc, ms);
    }
  }

  /** `JSON.parse(JSON.stringify(v))` gives back `v`. */
  lemma ParseStringify(v: Json)
    requires WellFormed(v)
    ensures Parse(Stringify(v)) == Some(v)
  {
    ParseValueRoundTrip(v, []);
    assert Stringify(v) + [] == Stringify(v);
  }
}
