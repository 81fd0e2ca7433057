/** How `JSON.stringify` writes a string: in double quotes, with `"` and `\`
    escaped, the control characters U+0008, U+0009, U+000A, U+000C and U+000D
    written as `\b \t \n \f \r`, every other code point below U+0020 as
    `\u00xx` in lower-case hexadecimal, and everything else as it is. Dafny's
    `char` is a Unicode scalar value, so lone surrogates cannot occur. */
module Json {
  import opened Wrappers

  function HexDigit(d: nat): char
    requires d < 16
  {
    "0123456789abcdef"[d]
  }

  function HexValue(c: char): Option<nat>
  {
    if '0' <= c <= '9' then Some(c as int - '0' as int)
    else if 'a' <= c <= 'f' then Some(c as int - 'a' as int + 10)
    else None
  }

  function EscapeChar(c: char): string
  {
    if c == '"' then "\\\""
    else if c == '\\' then "\\\\"
    else if c == '\U{8}' then "\\b"
    else if c == '\t' then "\\t"
    else if c == '\n' then "\\n"
    else if c == '\U{C}' then "\\f"
    else if c == '\r' then "\\r"
    else if c < ' ' then "\\u00" + [HexDigit(c as int / 16), HexDigit(c as int % 16)]
    else [c]
  }

  function EscapeAll(s: string): string
  {
    if s == [] then [] else EscapeChar(s[0]) + EscapeAll(s[1..])
  }

  /** `JSON.stringify(s)` for a string `s`. */
  function Quote(s: string): string
  {
    "\"" + EscapeAll(s) + "\""
  }

  /** The character a two-character escape `\x` stands for. */
  function ShortEscape(x: char): Option<char>
  {
    if x == '"' then Some('"')
    else if x == '\\' then Some('\\')
    else if x == 'b' then Some('\U{8}')
    else if x == 't' then Some('\t')
    else if x == 'n' then Some('\n')
    else if x == 'f' then Some('\U{C}')
    else if x == 'r' then Some('\r')
    else None
  }

  function Prepend(c: char, o: Option<(string, string)>): Option<(string, string)>
  {
    if o.Some? then Some(([c] + o.value.0, o.value.1)) else None
  }

  /** Reads the inside of a JSON string up to its closing quote: the decoded
      text and what follows the quote, or `None` if `t` is not of that form. */
  function Unescape(t: string): Option<(string, string)>
    decreases |t|
  {
    if |t| == 0 then None
    else if t[0] == '"' then Some(([], t[1..]))
    else if t[0] != '\\' then Prepend(t[0], Unescape(t[1..]))
    else if |t| >= 2 && ShortEscape(t[1]).Some? then Prepend(ShortEscape(t[1]).value, Unescape(t[2..]))
    else if |t| >= 6 && t[1] == 'u' && t[2] == '0' && t[3] == '0'
            && HexValue(t[4]).Some? && HexValue(t[5]).Some? then
      Prepend((16 * HexValue(t[4]).value + HexValue(t[5]).value) as char, Unescape(t[6..]))
    else None
  }

  lemma HexRoundTrip(d: nat)
    requires d < 16
    ensures HexValue(HexDigit(d)) == Some(d)
  {
  }

  lemma UnescapeEscapeChar(c: char, tail: string)
    ensures Unescape(EscapeChar(c) + tail) == Prepend(c, Unescape(tail))
  {
    var e := EscapeChar(c);
    var t := e + tail;
    if c == '"' || c == '\\' || c == '\U{8}' || c == '\t' || c == '\n' || c == '\U{C}' || c == '\r' {
      assert |e| == 2 && t[0] == '\\' && ShortEscape(t[1]) == Some(c);
      assert t[2..] == tail;
    } else if c < ' ' {
      var v := c as int;
      HexRoundTrip(v / 16);
      HexRoundTrip(v % 16);
      assert |e| == 6 && t[0] == '\\' && t[1] == 'u' && t[2] == '0' && t[3] == '0';
      assert ShortEscape(t[1]).None?;
      assert HexValue(t[4]) == Some(v / 16) && HexValue(t[5]) == Some(v % 16);
      assert (16 * (v / 16) + v % 16) as char == c;
      assert t[6..] == tail;
    } else {
      assert e == [c] && t[0] == c && t[1..] == tail;
    }
  }

  /** Decoding undoes escaping: the text of a quoted string and whatever
      follows its closing quote are recovered exactly. */
  lemma {:induction false} UnescapeEscapeAll(s: string, rest: string)
    ensures Unescape(EscapeAll(s) + "\"" + rest) == Some((s, rest))
  {
    if s == [] {
      assert EscapeAll(s) + "\"" + rest == "\"" + rest;
    } else {
      var tail := EscapeAll(s[1..]) + "\"" + rest;
      assert EscapeAll(s) + "\"" + rest == EscapeChar(s[0]) + tail;
      UnescapeEscapeChar(s[0], tail);
      UnescapeEscapeAll(s[1..], rest);
      assert [s[0]] + s[1..] == s;
    }
  }

  /** No escaped text contains a bare double quote, so the closing quote of
      `Quote(s)` is the first unescaped one. */
  lemma QuoteUnescapes(s: string, rest: string)
    ensures Unescape((Quote(s) + rest)[1..]) == Some((s, rest))
  {
    assert (Quote(s) + rest)[1..] == EscapeAll(s) + "\"" + rest;
    UnescapeEscapeAll(s, rest);
  }
}
