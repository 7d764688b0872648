/**
 * The JSON text `serde_json` writes in its compact form for the values the
 * wrapper builds itself: strings and arrays of strings, with the escapes of
 * section 7 of RFC 8259 as `serde_json` chooses them (two-character escapes
 * where they exist, `\u00xx` in lower-case hexadecimal for the remaining
 * control characters, everything else written as it is).  A reader for the
 * same text is the independent definition the rendering is checked against.
 */
module JsonText {
  import opened Wrappers

  const HexDigits: string := "0123456789abcdef"

  /** How one character is written inside a string literal. */
  function EscapeChar(c: char): (r: string)
    ensures 1 <= |r| <= 6
    ensures r[0] != '"'
    ensures |r| == 1 <==> r == [c]
  {
    var n := c as int;
    if c == '"' then "\\\""
    else if c == '\\' then "\\\\"
    else if n == 8 then "\\b"
    else if n == 12 then "\\f"
    else if c == '\n' then "\\n"
    else if c == '\r' then "\\r"
    else if c == '\t' then "\\t"
    else if n < 0x20 then "\\u00" + [HexDigits[n / 16], HexDigits[n % 16]]
    else [c]
  }

  function Escape(s: string): (r: string)
    ensures |r| >= |s|
    ensures s == [] <==> r == []
  {
    if s == [] then "" else EscapeChar(s[0]) + Escape(s[1..])
  }

  /** A string literal. */
  function RenderString(s: string): (r: string)
    ensures |r| >= 2 && r[0] == '"' && r[|r| - 1] == '"'
  {
    "\"" + Escape(s) + "\""
  }

  /** The elements after the first one, each preceded by a comma. */
  function RenderTail(xs: seq<string>): string {
    if xs == [] then "" else "," + RenderString(xs[0]) + RenderTail(xs[1..])
  }

  /** An array of string literals. */
  function RenderArray(xs: seq<string>): (r: string)
    ensures |r| >= 2 && r[0] == '[' && r[|r| - 1] == ']'
  {
    if xs == [] then "[]" else "[" + RenderString(xs[0]) + RenderTail(xs[1..]) + "]"
  }

  /** The value of a hexadecimal digit, either case. */
  function HexValue(ch: char): Option<nat> {
    if '0' <= ch <= '9' then Some(ch as int - '0' as int)
    else if 'a' <= ch <= 'f' then Some(ch as int - 'a' as int + 10)
    else if 'A' <= ch <= 'F' then Some(ch as int - 'A' as int + 10)
    else None
  }

  /** The character written by the escape at the start of `t`, with the escape's length. */
  function ReadEscape(t: string): (r: Option<(char, nat)>)
    requires |t| >= 1 && t[0] == '\\'
    ensures r.Some? ==> 2 <= r.value.1 <= |t|
  {
    if |t| < 2 then None
    else if t[1] == '"' then Some(('"', 2))
    else if t[1] == '\\' then Some(('\\', 2))
    else if t[1] == '/' then Some(('/', 2))
    else if t[1] == 'b' then Some((8 as char, 2))
    else if t[1] == 'f' then Some((12 as char, 2))
    else if t[1] == 'n' then Some(('\n', 2))
    else if t[1] == 'r' then Some(('\r', 2))
    else if t[1] == 't' then Some(('\t', 2))
    else if t[1] == 'u' && |t| >= 6
            && HexValue(t[2]).Some? && HexValue(t[3]).Some? && HexValue(t[4]).Some? && HexValue(t[5]).Some? then
      var v := ((HexValue(t[2]).value * 16 + HexValue(t[3]).value) * 16 + HexValue(t[4]).value) * 16
               + HexValue(t[5]).value;
      if v < 0xD800 || 0xE000 <= v < 0x1_0000 then Some((v as char, 6)) else None
    else None
  }

  /** The character at the start of the inside of a string literal, with the text it takes. */
  function ReadChar(t: string): (r: Option<(char, nat)>)
    requires |t| >= 1
    ensures r.Some? ==> 1 <= r.value.1 <= |t|
  {
    if t[0] == '\\' then ReadEscape(t)
    else if (t[0] as int) < 0x20 then None
    else Some((t[0], 1))
  }

  /** Reads the inside of a string literal up to its closing quote; gives the text and what follows. */
  function ReadStringBody(t: string): (r: Option<(string, string)>)
    ensures r.Some? ==> |r.value.1| < |t|
    decreases |t|
  {
    if t == [] then None
    else if t[0] == '"' then Some(([], t[1..]))
    else match ReadChar(t)
      case None => None
      case Some((c, k)) =>
        match ReadStringBody(t[k..])
        case None => None
        case Some((s, rest)) => Some(([c] + s, rest))
  }

  /** Reads a string literal. */
  function ReadString(t: string): (r: Option<(string, string)>)
    ensures r.Some? ==> |r.value.1| < |t|
  {
    if t != [] && t[0] == '"' then ReadStringBody(t[1..]) else None
  }

  /** Reads the rest of an array after its first element: `,"x"` repeated, then `]`. */
  function ReadTail(t: string): (r: Option<(seq<string>, string)>)
    ensures r.Some? ==> |r.value.1| < |t|
    decreases |t|
  {
    if t == [] then None
    else if t[0] == ']' then Some(([], t[1..]))
    else if t[0] == ',' then
      match ReadString(t[1..])
      case None => None
      case Some((x, rest)) =>
        match ReadTail(rest)
        case None => None
        case Some((xs, rest')) => Some(([x] + xs, rest'))
    else None
  }

  /** Reads an array of string literals. */
  function ReadArray(t: string): (r: Option<(seq<string>, string)>)
    ensures r.Some? ==> |r.value.1| < |t|
  {
    if |t| >= 2 && t[0] == '[' && t[1] == ']' then Some(([], t[2..]))
    else if t != [] && t[0] == '[' then
      match ReadString(t[1..])
      case None => None
      case Some((x, rest)) =>
        match ReadTail(rest)
        case None => None
        case Some((xs, rest')) => Some(([x] + xs, rest'))
    else None
  }

  lemma HexDigitValues(i: int)
    requires 0 <= i < 16
    ensures HexValue(HexDigits[i]) == Some(i)
  {
  }

  /** Every character's escape reads back as that character. */
  lemma ReadEscapeChar(c: char, t: string)
    ensures |EscapeChar(c) + t| >= 1
    ensures ReadChar(EscapeChar(c) + t) == Some((c, |EscapeChar(c)|))
  {
    var n := c as int;
    var e := EscapeChar(c);
    if c != '"' && c != '\\' && n != 8 && n != 12 && c != '\n' && c != '\r' && c != '\t' && n < 0x20 {
      HexDigitValues(n / 16);
      HexDigitValues(n % 16);
      var u := e + t;
      assert u[..6] == e;
      assert HexValue(u[2]) == Some(0) && HexValue(u[3]) == Some(0);
      assert HexValue(u[4]) == Some(n / 16) && HexValue(u[5]) == Some(n % 16);
    }
  }

  lemma {:induction false} ReadEscaped(s: string, rest: string)
    ensures ReadStringBody(Escape(s) + "\"" + rest) == Some((s, rest))
  {
    var t := Escape(s) + "\"" + rest;
    if s == [] {
      assert t == "\"" + rest;
    } else {
      var e := EscapeChar(s[0]);
      var t' := Escape(s[1..]) + "\"" + rest;
      assert t == e + t';
      ReadEscapeChar(s[0], t');
      assert t[|e|..] == t';
      ReadEscaped(s[1..], rest);
      assert [s[0]] + s[1..] == s;
    }
  }

  /** A string literal reads back as its text, leaving what follows it. */
  lemma ReadRenderedString(s: string, rest: string)
    ensures ReadString(RenderString(s) + rest) == Some((s, rest))
  {
    var t := RenderString(s) + rest;
    assert t[1..] == Escape(s) + "\"" + rest;
    ReadEscaped(s, rest);
  }

  /** A tail that continues with a string literal is that literal followed by the rest of the tail. */
  lemma ReadTailStep(u: string, x: string, u': string, xs: seq<string>, rest: string)
    requires ReadString(u) == Some((x, u')) && ReadTail(u') == Some((xs, rest))
    ensures ReadTail("," + u) == Some(([x] + xs, rest))
  {
    assert ("," + u)[1..] == u;
  }

  /** Regrouping a concatenation of five texts to the right. */
  lemma Regroup(a: string, b: string, c: string, d: string, e: string)
    ensures a + b + c + d + e == a + (b + (c + d + e))
  {
  }

  /** A non-empty tail is a comma, its first literal and the rest of the tail. */
  lemma RenderTailParts(xs: seq<string>, rest: string)
    requires xs != []
    ensures RenderTail(xs) + "]" + rest == "," + (RenderString(xs[0]) + (RenderTail(xs[1..]) + "]" + rest))
  {
    Regroup(",", RenderString(xs[0]), RenderTail(xs[1..]), "]", rest);
  }

  lemma {:induction false} ReadRenderedTail(xs: seq<string>, rest: string)
    ensures ReadTail(RenderTail(xs) + "]" + rest) == Some((xs, rest))
  {
    if xs == [] {
      assert RenderTail(xs) + "]" + rest == "]" + rest;
      assert ("]" + rest)[1..] == rest;
    } else {
      var t' := RenderTail(xs[1..]) + "]" + rest;
      var u := RenderString(xs[0]) + t';
      RenderTailParts(xs, rest);
      ReadRenderedString(xs[0], t');
      ReadRenderedTail(xs[1..], rest);
      ReadTailStep(u, xs[0], t', xs[1..], rest);
      assert [xs[0]] + xs[1..] == xs;
    }
  }

  /** An array whose first element is a string literal is that element followed by the tail. */
  lemma ReadNonEmptyArray(u: string, x: string, u': string, xs: seq<string>, rest: string)
    requires u != [] && u[0] == '"'
    requires ReadString(u) == Some((x, u')) && ReadTail(u') == Some((xs, rest))
    ensures ReadArray("[" + u) == Some(([x] + xs, rest))
  {
    var t := "[" + u;
    assert t[1..] == u;
  }

  /** An array of string literals reads back as its elements, in order. */
  lemma ReadRenderedArray(xs: seq<string>, rest: string)
    ensures ReadArray(RenderArray(xs) + rest) == Some((xs, rest))
  {
    if xs == [] {
      assert (RenderArray(xs) + rest)[2..] == rest;
    } else {
      var r := RenderString(xs[0]);
      var t' := RenderTail(xs[1..]) + "]" + rest;
      var u := r + t';
      Regroup("[", r, RenderTail(xs[1..]), "]", rest);
      assert u[0] == '"';
      ReadRenderedString(xs[0], t');
      ReadRenderedTail(xs[1..], rest);
      ReadNonEmptyArray(u, xs[0], t', xs[1..], rest);
      assert [xs[0]] + xs[1..] == xs;
    }
  }
}
