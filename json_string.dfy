/** The body of a JSON string literal: the escaping `JSON.stringify` applies
    to a string value (QuoteJSONString, section 25.5.2.3 of ECMA-262), and a
    reader of the body of a JSON string literal as `JSON.parse` accepts it
    (section 7 of RFC 8259). Characters are Unicode scalar values, so lone
    surrogates never occur. */
module JsonString {

  import opened Wrappers

  /** The lower-case hexadecimal digit `JSON.stringify` writes for `d`. */
  function HexDigit(d: int): (c: char)
    requires 0 <= d < 16
    ensures HexValue(c) == Some(d)
  {
    if d < 10 then ('0' as int + d) as char else ('a' as int + d - 10) as char
  }

  /** The value of a hexadecimal digit of either case. */
  function HexValue(c: char): (r: Option<int>)
    ensures r.Some? ==> 0 <= r.value < 16
  {
    if '0' <= c <= '9' then Some(c as int - '0' as int)
    else if 'a' <= c <= 'f' then Some(c as int - 'a' as int + 10)
    else if 'A' <= c <= 'F' then Some(c as int - 'A' as int + 10)
    else None
  }

  /** The value of four hexadecimal digits, as in a `\uXXXX` escape. */
  function Hex4Value(s: string): (r: Option<int>)
    requires |s| == 4
    ensures r.Some? ==> 0 <= r.value < 0x10000
  {
    match (HexValue(s[0]), HexValue(s[1]), HexValue(s[2]), HexValue(s[3]))
    case (Some(a), Some(b), Some(c), Some(d)) => Some(((a * 16 + b) * 16 + c) * 16 + d)
    case _ => None
  }

  /** How `JSON.stringify` writes one character inside a string literal. */
  function EscapeChar(c: char): string
  {
    var n := c as int;
    if n == 0x08 then "\\b"
    else if n == 0x09 then "\\t"
    else if n == 0x0A then "\\n"
    else if n == 0x0C then "\\f"
    else if n == 0x0D then "\\r"
    else if c == '"' then "\\\""
    else if c == '\\' then "\\\\"
    else if n < 0x20 then "\\u00" + [HexDigit(n / 16), HexDigit(n % 16)]
    else [c]
  }

  /** The body of the string literal `JSON.stringify(s)` writes, without the
      enclosing quotes. It never contains a line feed, nor any other control
      character, nor an unescaped quote. */
  function Escape(s: string): (r: string)
    ensures forall i :: 0 <= i < |r| ==> r[i] as int >= 0x20
    ensures '\n' !in r
  {
    if |s| == 0 then "" else EscapeChar(s[0]) + Escape(s[1..])
  }

  /** A string of printable characters other than the quote and the
      backslash is written as it is. */
  lemma {:induction false} EscapePlain(s: string)
    requires forall i :: 0 <= i < |s| ==> s[i] as int >= 0x20 && s[i] != '"' && s[i] != '\\'
    ensures Escape(s) == s
  {
    if |s| > 0 {
      EscapePlain(s[1..]);
      assert EscapeChar(s[0]) == [s[0]];
      assert [s[0]] + s[1..] == s;
    }
  }

  /** The string a JSON string-literal body denotes, or None when the body is
      not valid JSON (a raw quote or control character, a dangling or unknown
      escape, a malformed `\u` escape). A `\u` escape naming a surrogate code
      unit is refused, since it does not denote a scalar value on its own. */
  function Unescape(s: string): Option<string>
    decreases |s|
  {
    if |s| == 0 then Some("")
    else if s[0] == '"' || (s[0] as int) < 0x20 then None
    else if s[0] != '\\' then Prepend(s[0], Unescape(s[1..]))
    else if |s| < 2 then None
    else if s[1] == '"' then Prepend('"', Unescape(s[2..]))
    else if s[1] == '\\' then Prepend('\\', Unescape(s[2..]))
    else if s[1] == '/' then Prepend('/', Unescape(s[2..]))
    else if s[1] == 'b' then Prepend(0x08 as char, Unescape(s[2..]))
    else if s[1] == 'f' then Prepend(0x0C as char, Unescape(s[2..]))
    else if s[1] == 'n' then Prepend('\n', Unescape(s[2..]))
    else if s[1] == 'r' then Prepend(0x0D as char, Unescape(s[2..]))
    else if s[1] == 't' then Prepend(0x09 as char, Unescape(s[2..]))
    else if s[1] == 'u' && |s| >= 6 then
      match Hex4Value(s[2..6])
      case Some(v) =>
        if 0xD800 <= v < 0xE000 then None else Prepend(v as char, Unescape(s[6..]))
      case None => None
    else None
  }

  function Prepend(c: char, rest: Option<string>): Option<string>
  {
    match rest
    case Some(t) => Some([c] + t)
    case None => None
  }

  /** Reading back one escaped character. */
  lemma UnescapeEscapeChar(c: char, rest: string)
    ensures Unescape(EscapeChar(c) + rest) == Prepend(c, Unescape(rest))
  {
    var e := EscapeChar(c);
    var s := e + rest;
    var n := c as int;
    if n == 0x08 || n == 0x09 || n == 0x0A || n == 0x0C || n == 0x0D || c == '"' || c == '\\' {
      assert s[0] == '\\' && s[1] == e[1];
      assert s[2..] == rest;
    } else if n < 0x20 {
      assert |e| == 6;
      assert s[0] == '\\' && s[1] == 'u';
      assert s[2..6] == e[2..6];
      assert s[6..] == rest;
      assert HexValue(s[2]) == Some(0) && HexValue(s[3]) == Some(0);
      assert HexValue(s[4]) == Some(n / 16) && HexValue(s[5]) == Some(n % 16);
      assert Hex4Value(s[2..6]) == Some(n);
      assert (n as char) == c;
    } else {
      assert s[0] == c && s[1..] == rest;
    }
  }

  /** Round trip: reading the body `JSON.stringify` writes gives back the
      original string. */
  lemma {:induction false} UnescapeEscape(s: string)
    ensures Unescape(Escape(s)) == Some(s)
  {
    if |s| > 0 {
      UnescapeEscape(s[1..]);
      UnescapeEscapeChar(s[0], Escape(s[1..]));
      assert [s[0]] + s[1..] == s;
    }
  }
}
