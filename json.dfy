/**
 * The part of `JSON.stringify` the generated package.json needs: quoting a
 * string value. Quotation marks and backslashes get a backslash, the five
 * control characters with a short escape use it, every other control
 * character becomes `\u00` and two lower-case hex digits, and all other
 * characters stay as they are. `Unquote` reads such a literal back.
 */
module Json {
  import opened Optional

  function HexDigit(d: nat): (c: char)
    requires d < 16
  {
    if d < 10 then ('0' as int + d) as char else ('a' as int + d - 10) as char
  }

  function HexValue(c: char): Option<nat> {
    if '0' <= c <= '9' then Some(c as int - '0' as int)
    else if 'a' <= c <= 'f' then Some(c as int - 'a' as int + 10)
    else None
  }

  /** The escape sequence of one character, or the character itself. */
  function EscapeChar(c: char): (r: string)
    ensures |r| >= 1
    ensures |r| == 1 <==> (c as int >= 0x20 && c != '"' && c != '\\')
  {
    if c == '"' then "\\\""
    else if c == '\\' then "\\\\"
    else if c == '\U{8}' then "\\b"
    else if c == '\t' then "\\t"
    else if c == '\n' then "\\n"
    else if c == '\U{C}' then "\\f"
    else if c == '\r' then "\\r"
    else if c as int < 0x20 then "\\u00" + [HexDigit(c as int / 16), HexDigit(c as int % 16)]
    else [c]
  }

  /** The body of a JSON string literal for `s`. */
  function Escape(s: string): (r: string)
    ensures |r| >= |s|
    ensures forall i :: 0 <= i < |r| ==> r[i] != '"' || (i > 0 && r[i - 1] == '\\')
  {
    if s == [] then [] else
      var head := EscapeChar(s[0]);
      var r := head + Escape(s[1..]);
      assert forall i :: 0 <= i < |head| ==> head[i] != '"' || (i > 0 && head[i - 1] == '\\');
      r
  }

  /** `JSON.stringify(s)` for a string: the escaped text between quotation marks. */
  function Quote(s: string): string {
    "\"" + Escape(s) + "\""
  }

  /** The character a short escape letter stands for. */
  function ShortEscape(c: char): Option<char> {
    match c
    case '"' => Some('"')
    case '\\' => Some('\\')
    case 'b' => Some('\U{8}')
    case 't' => Some('\t')
    case 'n' => Some('\n')
    case 'f' => Some('\U{C}')
    case 'r' => Some('\r')
    case _ => None
  }

  /** Reads the body of a string literal back; `None` when it is not well formed. */
  function Unescape(t: string): Option<string>
    decreases |t|
  {
    if t == [] then Some([])
    else if t[0] == '"' then None
    else if t[0] != '\\' then
      match Unescape(t[1..])
      case Some(rest) => Some([t[0]] + rest)
      case None => None
    else if |t| >= 2 && ShortEscape(t[1]).Some? then
      match Unescape(t[2..])
      case Some(rest) => Some([ShortEscape(t[1]).value] + rest)
      case None => None
    else if |t| >= 6 && t[1] == 'u' && t[2] == '0' && t[3] == '0'
            && HexValue(t[4]).Some? && HexValue(t[5]).Some? then
      match Unescape(t[6..])
      case Some(rest) => Some([(16 * HexValue(t[4]).value + HexValue(t[5]).value) as char] + rest)
      case None => None
    else None
  }

  function Unquote(t: string): Option<string> {
    if |t| >= 2 && t[0] == '"' && t[|t| - 1] == '"' then Unescape(t[1..|t| - 1]) else None
  }

  /** Reading one escaped character back gives the character, whatever follows it. */
  lemma {:induction false} UnescapeChar(c: char, rest: string)
    ensures Unescape(EscapeChar(c) + rest) ==
      match Unescape(rest)
      case Some(r) => Some([c] + r)
      case None => None
  {
    var t := EscapeChar(c) + rest;
    if c as int < 0x20 && c != '\U{8}' && c != '\t' && c != '\n' && c != '\U{C}' && c != '\r' {
      var hi, lo := c as int / 16, c as int % 16;
      assert t[4] == HexDigit(hi) && t[5] == HexDigit(lo);
      assert HexValue(HexDigit(hi)) == Some(hi) && HexValue(HexDigit(lo)) == Some(lo);
      assert t[6..] == rest;
    } else if |EscapeChar(c)| == 2 {
      assert t[2..] == rest;
    } else {
      assert t[1..] == rest;
    }
  }

  /** Unescaping undoes escaping. */
  lemma {:induction false} EscapeRoundTrip(s: string)
    ensures Unescape(Escape(s)) == Some(s)
  {
    if s != [] {
      EscapeRoundTrip(s[1..]);
      UnescapeChar(s[0], Escape(s[1..]));
      assert [s[0]] + s[1..] == s;
    }
  }

  /** `JSON.parse` of the quoted string gives the string back. */
  lemma {:induction false} QuoteRoundTrip(s: string)
    ensures Unquote(Quote(s)) == Some(s)
  {
    var q := Quote(s);
    assert q[1..|q| - 1] == Escape(s);
    EscapeRoundTrip(s);
  }
}
