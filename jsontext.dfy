/**
 * The text json.dumps produces for the POST handler's default body `{"id": id}`
 * with the encoder's defaults (ensure_ascii, ", " and ": " separators), and a
 * JSON string decoder against which the encoding is proved lossless.
 */
module JsonText {
  import opened PyValues

  /** A lower-case hexadecimal digit. */
  function HexDigit(d: nat): (c: char)
    requires d < 16
    ensures ('0' <= c <= '9') || ('a' <= c <= 'f')
  {
    if d < 10 then ('0' as int + d) as char else ('a' as int + d - 10) as char
  }

  /** Four hexadecimal digits, most significant first, as in `'{0:04x}'.format(n)`. */
  function Hex4(n: nat): (s: string)
    requires n < 0x10000
    ensures |s| == 4
    ensures forall i :: 0 <= i < 4 ==> ('0' <= s[i] <= '9') || ('a' <= s[i] <= 'f')
  {
    var n1 := n / 16;
    var n2 := n1 / 16;
    [HexDigit(n2 / 16), HexDigit(n2 % 16), HexDigit(n1 % 16), HexDigit(n % 16)]
  }

  /** How one character of a string is written: printable ASCII as itself, the rest escaped. */
  function EscapeChar(c: char): string {
    if c == '"' then "\\\""
    else if c == '\\' then "\\\\"
    else if c == '\n' then "\\n"
    else if c == '\r' then "\\r"
    else if c == '\t' then "\\t"
    else if c == '\U{0008}' then "\\b"
    else if c == '\U{000C}' then "\\f"
    else if ' ' <= c <= '~' then [c]
    else if c as int < 0x10000 then "\\u" + Hex4(c as int)
    else SurrogateEscape(c as int - 0x10000)
  }

  /** A character outside the Basic Multilingual Plane, offset by 0x10000, as a UTF-16 surrogate pair. */
  function SurrogateEscape(n: nat): string
    requires n < 0x100000
  {
    "\\u" + Hex4(0xD800 + n / 0x400) + "\\u" + Hex4(0xDC00 + n % 0x400)
  }

  function Escaped(s: string): (r: string) {
    if s == [] then [] else EscapeChar(s[0]) + Escaped(s[1..])
  }

  /** A JSON string literal. */
  function Quote(s: string): (r: string) {
    "\"" + Escaped(s) + "\""
  }

  /** json.dumps({"id": id}) */
  function DefaultBody(id: string): (r: string) {
    "{\"id\": " + Quote(id) + "}"
  }

  // ---- decoding -------------------------------------------------------------

  function HexValue(c: char): Option<nat> {
    if '0' <= c <= '9' then Some(c as int - '0' as int)
    else if 'a' <= c <= 'f' then Some(c as int - 'a' as int + 10)
    else if 'A' <= c <= 'F' then Some(c as int - 'A' as int + 10)
    else None
  }

  function ParseHex4(s: string): (r: Option<nat>)
    requires |s| == 4
    ensures r.Some? ==> r.value < 0x10000
  {
    match (HexValue(s[0]), HexValue(s[1]), HexValue(s[2]), HexValue(s[3]))
    case (Some(a), Some(b), Some(c), Some(d)) =>
      if a < 16 && b < 16 && c < 16 && d < 16 then Some(a * 0x1000 + b * 0x100 + c * 16 + d) else None
    case _ => None
  }

  function Prepend(c: char, r: Option<string>): Option<string> {
    match r
    case Some(s) => Some([c] + s)
    case None => None
  }

  /**
   * The characters a JSON string literal's body denotes, or None when the body
   * is malformed (a bare quote or control character, an unknown escape, or a
   * surrogate that is not part of a pair).
   */
  function Unescape(s: string): Option<string>
    decreases |s|
  {
    if s == [] then Some([])
    else if s[0] == '"' || s[0] < ' ' then None
    else if s[0] != '\\' then Prepend(s[0], Unescape(s[1..]))
    else if |s| < 2 then None
    else if s[1] == '"' then Prepend('"', Unescape(s[2..]))
    else if s[1] == '\\' then Prepend('\\', Unescape(s[2..]))
    else if s[1] == '/' then Prepend('/', Unescape(s[2..]))
    else if s[1] == 'b' then Prepend('\U{0008}', Unescape(s[2..]))
    else if s[1] == 'f' then Prepend('\U{000C}', Unescape(s[2..]))
    else if s[1] == 'n' then Prepend('\n', Unescape(s[2..]))
    else if s[1] == 'r' then Prepend('\r', Unescape(s[2..]))
    else if s[1] == 't' then Prepend('\t', Unescape(s[2..]))
    else if s[1] != 'u' || |s| < 6 then None
    else
      match ParseHex4(s[2..6])
      case None => None
      case Some(v) =>
        if 0xDC00 <= v < 0xE000 then None
        else if v < 0xD800 || 0xE000 <= v then Prepend(v as char, Unescape(s[6..]))
        else if |s| < 12 || s[6] != '\\' || s[7] != 'u' then None
        else
          match ParseHex4(s[8..12])
          case None => None
          case Some(w) =>
            if 0xDC00 <= w < 0xE000 then Prepend((0x10000 + (v - 0xD800) * 0x400 + (w - 0xDC00)) as char, Unescape(s[12..]))
            else None
  }

  /** The id in a body of the form `{"id": "<string literal body>"}`. */
  function ParseIdBody(body: string): Option<string> {
    var prefix, suffix := "{\"id\": \"", "\"}";
    if |body| < |prefix| + |suffix| || body[..|prefix|] != prefix || body[|body| - |suffix|..] != suffix then None
    else Unescape(body[|prefix|..|body| - |suffix|])
  }

  // ---- proofs ---------------------------------------------------------------

  lemma HexDigitValue(d: nat)
    requires d < 16
    ensures HexValue(HexDigit(d)) == Some(d)
  {
  }

  lemma Hex4RoundTrip(n: nat)
    requires n < 0x10000
    ensures ParseHex4(Hex4(n)) == Some(n)
  {
    var n1 := n / 16;
    var n2 := n1 / 16;
    var a, b, c, d := n2 / 16, n2 % 16, n1 % 16, n % 16;
    assert n == n1 * 16 + d && n1 == n2 * 16 + c && n2 == a * 16 + b;
    HexDigitValue(a);
    HexDigitValue(b);
    HexDigitValue(c);
    HexDigitValue(d);
    assert Hex4(n) == [HexDigit(a), HexDigit(b), HexDigit(c), HexDigit(d)];
    assert n == a * 0x1000 + b * 0x100 + c * 16 + d;
  }

  /** Every escape consists of printable ASCII characters only. */
  lemma {:induction false} EscapedIsPrintableAscii(s: string)
    ensures forall c :: c in Escaped(s) ==> ' ' <= c <= '~'
  {
    if s != [] {
      EscapedIsPrintableAscii(s[1..]);
      EscapeCharIsPrintableAscii(s[0]);
    }
  }

  lemma EscapeCharIsPrintableAscii(c: char)
    ensures forall x :: x in EscapeChar(c) ==> ' ' <= x <= '~'
  {
    if c as int >= 0x10000 && !(' ' <= c <= '~') {
      SurrogateEscapeIsPrintableAscii(c as int - 0x10000);
    }
  }

  lemma SurrogateEscapeIsPrintableAscii(n: nat)
    requires n < 0x100000
    ensures forall x :: x in SurrogateEscape(n) ==> ' ' <= x <= '~'
  {
    var h1, h2 := Hex4(0xD800 + n / 0x400), Hex4(0xDC00 + n % 0x400);
    assert SurrogateEscape(n) == "\\u" + h1 + "\\u" + h2;
    assert forall x :: x in h1 ==> ' ' <= x <= '~';
    assert forall x :: x in h2 ==> ' ' <= x <= '~';
  }

  /** Decoding undoes the escape of one character, whatever follows it. */
  lemma UnescapeChar(c: char, rest: string)
    ensures Unescape(EscapeChar(c) + rest) == Prepend(c, Unescape(rest))
  {
    if c == '"' || c == '\\' || c == '\n' || c == '\r' || c == '\t' || c == '\U{0008}' || c == '\U{000C}' {
      UnescapeNamed(c, rest);
    } else if ' ' <= c <= '~' {
      var e := EscapeChar(c) + rest;
      assert e[1..] == rest;
    } else if c as int < 0x10000 {
      UnescapeBmp(c, rest);
    } else {
      UnescapeAstral(c, rest);
    }
  }

  lemma UnescapeNamed(c: char, rest: string)
    requires c == '"' || c == '\\' || c == '\n' || c == '\r' || c == '\t' || c == '\U{0008}' || c == '\U{000C}'
    ensures Unescape(EscapeChar(c) + rest) == Prepend(c, Unescape(rest))
  {
    var e := EscapeChar(c) + rest;
    assert |EscapeChar(c)| == 2 && e[0] == '\\';
    assert e[2..] == rest;
  }

  lemma UnescapeBmp(c: char, rest: string)
    requires !(' ' <= c <= '~') && c != '\n' && c != '\r' && c != '\t' && c != '\U{0008}' && c != '\U{000C}'
    requires c as int < 0x10000
    ensures Unescape(EscapeChar(c) + rest) == Prepend(c, Unescape(rest))
  {
    var e := EscapeChar(c) + rest;
    assert EscapeChar(c) == "\\u" + Hex4(c as int);
    Hex4RoundTrip(c as int);
    assert e[0] == '\\' && e[1] == 'u';
    assert e[2..6] == Hex4(c as int);
    assert e[6..] == rest;
  }

  lemma UnescapeAstral(c: char, rest: string)
    requires c as int >= 0x10000
    ensures Unescape(EscapeChar(c) + rest) == Prepend(c, Unescape(rest))
  {
    assert EscapeChar(c) == SurrogateEscape(c as int - 0x10000);
    UnescapeSurrogate(c as int - 0x10000, rest);
  }

  lemma UnescapeSurrogate(n: nat, rest: string)
    requires n < 0x100000
    ensures Unescape(SurrogateEscape(n) + rest) == Prepend((0x10000 + n) as char, Unescape(rest))
  {
    var hi, lo := 0xD800 + n / 0x400, 0xDC00 + n % 0x400;
    SurrogateSplit(n);
    Hex4RoundTrip(hi);
    Hex4RoundTrip(lo);
    assert SurrogateEscape(n) + rest == "\\u" + Hex4(hi) + "\\u" + Hex4(lo) + rest;
    UnescapePair(Hex4(hi), Hex4(lo), rest, hi, lo);
  }

  lemma SurrogateSplit(n: int)
    requires 0 <= n < 0x100000
    ensures 0xD800 <= 0xD800 + n / 0x400 < 0xDC00
    ensures 0xDC00 <= 0xDC00 + n % 0x400 < 0xE000
    ensures 0x10000 + ((0xD800 + n / 0x400) - 0xD800) * 0x400 + ((0xDC00 + n % 0x400) - 0xDC00) == 0x10000 + n
  {
  }

  lemma UnescapePair(h1: string, h2: string, rest: string, v: nat, w: nat)
    requires |h1| == 4 && |h2| == 4
    requires ParseHex4(h1) == Some(v) && ParseHex4(h2) == Some(w)
    requires 0xD800 <= v < 0xDC00 && 0xDC00 <= w < 0xE000
    ensures Unescape("\\u" + h1 + "\\u" + h2 + rest) ==
      Prepend((0x10000 + (v - 0xD800) * 0x400 + (w - 0xDC00)) as char, Unescape(rest))
  {
    var e := "\\u" + h1 + "\\u" + h2 + rest;
    assert e[0] == '\\' && e[1] == 'u';
    assert e[2..6] == h1;
    assert e[6] == '\\' && e[7] == 'u';
    assert e[8..12] == h2;
    assert e[12..] == rest;
  }

  lemma {:induction false} UnescapeEscaped(s: string)
    ensures Unescape(Escaped(s)) == Some(s)
  {
    if s != [] {
      UnescapeEscaped(s[1..]);
      UnescapeChar(s[0], Escaped(s[1..]));
      assert [s[0]] + s[1..] == s;
    }
  }

  /** The default POST body carries the id losslessly: it decodes back to the id. */
  lemma DefaultBodyRoundTrip(id: string)
    ensures ParseIdBody(DefaultBody(id)) == Some(id)
  {
    var body := DefaultBody(id);
    assert body == "{\"id\": \"" + Escaped(id) + "\"}";
    assert body[8..|body| - 2] == Escaped(id);
    UnescapeEscaped(id);
  }

  /** Different ids give different default bodies. */
  lemma DefaultBodyInjective(a: string, b: string)
    requires a != b
    ensures DefaultBody(a) != DefaultBody(b)
  {
    DefaultBodyRoundTrip(a);
    DefaultBodyRoundTrip(b);
  }
}
