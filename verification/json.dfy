/**
 * The part of `JSON.stringify` that the token metadata needs: quoting a string
 * (section 25.5.2.3 of ECMA-262, QuoteJSONString), and the inverse reading of a
 * JSON string body as section 7 of RFC 8259 defines it.
 */
module Json {

  import opened Optional

  const HexDigits := "0123456789abcdef"

  predicate IsHex(c: char)
  {
    ('0' <= c <= '9') || ('a' <= c <= 'f') || ('A' <= c <= 'F')
  }

  function HexValue(c: char): (v: nat)
    requires IsHex(c)
    ensures v < 16
  {
    if '0' <= c <= '9' then c as int - '0' as int
    else if 'a' <= c <= 'f' then c as int - 'a' as int + 10
    else c as int - 'A' as int + 10
  }

  /** The escape letter QuoteJSONString uses for a short-form control character, if it has one. */
  function ShortEscape(c: char): Option<char>
  {
    if c as int == 0x08 then Some('b')
    else if c as int == 0x09 then Some('t')
    else if c as int == 0x0A then Some('n')
    else if c as int == 0x0C then Some('f')
    else if c as int == 0x0D then Some('r')
    else if c == '"' then Some('"')
    else if c == '\\' then Some('\\')
    else None
  }

  /** The character a two-character escape `\x` stands for. */
  function ShortUnescape(x: char): Option<char>
  {
    match x
    case 'b' => Some(8 as char)
    case 't' => Some(9 as char)
    case 'n' => Some(10 as char)
    case 'f' => Some(12 as char)
    case 'r' => Some(13 as char)
    case '"' => Some('"')
    case '\\' => Some('\\')
    case '/' => Some('/')
    case _ => None
  }

  /** How QuoteJSONString writes one character. */
  function EscapeChar(c: char): (r: string)
    ensures 1 <= |r| <= 6
    ensures r[0] == c || r[0] == '\\'
  {
    match ShortEscape(c)
    case Some(x) => ['\\', x]
    case None =>
      if c as int < 0x20 then
        ['\\', 'u', '0', '0', HexDigits[c as int / 16], HexDigits[c as int % 16]]
      else [c]
  }

  /** The body of a JSON string literal for `s` (without the surrounding quotes). */
  function Escape(s: string): (r: string)
    ensures |r| >= |s|
    ensures forall i :: 0 <= i < |r| ==> r[i] != '"' || (i > 0 && r[i - 1] == '\\')
  {
    if s == [] then [] else EscapeChar(s[0]) + Escape(s[1..])
  }

  /** `JSON.stringify(s)` for a string `s`. */
  function Quote(s: string): (r: string)
    ensures |r| >= |s| + 2 && r[0] == '"' && r[|r| - 1] == '"'
  {
    "\"" + Escape(s) + "\""
  }

  function Prepend(c: char, rest: Option<string>): Option<string>
  {
    match rest
    case Some(t) => Some([c] + t)
    case None => None
  }

  /** Reads the body of a JSON string literal back into the string it denotes; `None` if malformed. */
  function Unescape(s: string): Option<string>
    decreases |s|
  {
    if s == [] then Some([])
    else if s[0] == '\\' then
      if |s| < 2 then None
      else if s[1] == 'u' then
        if |s| < 6 || !(IsHex(s[2]) && IsHex(s[3]) && IsHex(s[4]) && IsHex(s[5])) then None
        else
          var code := HexValue(s[2]) * 4096 + HexValue(s[3]) * 256 + HexValue(s[4]) * 16 + HexValue(s[5]);
          if 0xD800 <= code < 0xE000 then None
          else Prepend(code as char, Unescape(s[6..]))
      else
        match ShortUnescape(s[1])
        case Some(c) => Prepend(c, Unescape(s[2..]))
        case None => None
    else if s[0] == '"' || s[0] as int < 0x20 then None
    else Prepend(s[0], Unescape(s[1..]))
  }

  lemma UnescapeShort(c: char, x: char, rest: string)
    requires ShortEscape(c) == Some(x)
    ensures Unescape(['\\', x] + rest) == Prepend(c, Unescape(rest))
  {
    var e := ['\\', x] + rest;
    assert e[0] == '\\' && e[1] == x && e[2..] == rest;
    assert ShortUnescape(x) == Some(c);
  }

  lemma UnescapeControl(c: char, rest: string)
    requires c as int < 0x20
    ensures var e := ['\\', 'u', '0', '0', HexDigits[c as int / 16], HexDigits[c as int % 16]];
      Unescape(e + rest) == Prepend(c, Unescape(rest))
  {
    var hi, lo := c as int / 16, c as int % 16;
    var e := ['\\', 'u', '0', '0', HexDigits[hi], HexDigits[lo]] + rest;
    assert e[0] == '\\' && e[1] == 'u' && e[2] == '0' && e[3] == '0';
    assert e[4] == HexDigits[hi] && e[5] == HexDigits[lo] && e[6..] == rest;
    assert HexValue(HexDigits[hi]) == hi;
    assert HexValue(HexDigits[lo]) == lo;
  }

  lemma UnescapeChar(c: char, rest: string)
    ensures Unescape(EscapeChar(c) + rest) == Prepend(c, Unescape(rest))
  {
    match ShortEscape(c)
    case Some(x) =>
      UnescapeShort(c, x, rest);
    case None =>
      if c as int < 0x20 {
        UnescapeControl(c, rest);
      } else {
        var e := [c] + rest;
        assert e[0] == c && e[1..] == rest;
      }
  }

  /** Reading back what QuoteJSONString wrote gives the original string. */
  lemma {:induction false} UnescapeEscape(s: string)
    ensures Unescape(Escape(s)) == Some(s)
    decreases |s|
  {
    if s != [] {
      UnescapeChar(s[0], Escape(s[1..]));
      UnescapeEscape(s[1..]);
      assert [s[0]] + s[1..] == s;
    }
  }

  lemma EscapeInjective(a: string, b: string)
    ensures Escape(a) == Escape(b) ==> a == b
  {
    UnescapeEscape(a);
    UnescapeEscape(b);
  }
}
