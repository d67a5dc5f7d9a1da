/** `JSON.stringify` applied to a string: the QuoteJSONString operation of
    ECMA-262, whose output is a string literal as section 7 of RFC 8259
    defines it. `Unescape` and `Unquote` read such a literal back, which
    shows that the quoting loses nothing. */
module JsonString {
  import opened Auction

  const Backspace: char := 8 as char
  const FormFeed: char := 12 as char

  /** A character QuoteJSONString does not copy as it is. */
  predicate NeedsEscape(c: char)
  {
    c == '"' || c == '\\' || (c as int) < 0x20
  }

  /** The lower-case hexadecimal digit for `d`. */
  function HexDigit(d: nat): (c: char)
    requires d < 16
    ensures ('0' <= c <= '9') || ('a' <= c <= 'f')
  {
    if d < 10 then ('0' as int + d) as char else ('a' as int + d - 10) as char
  }

  /** The value of a hexadecimal digit of either case. */
  function HexValue(c: char): Option<nat>
  {
    if '0' <= c <= '9' then Some(c as int - '0' as int)
    else if 'a' <= c <= 'f' then Some(c as int - 'a' as int + 10)
    else if 'A' <= c <= 'F' then Some(c as int - 'A' as int + 10)
    else None
  }

  /** `\u` followed by the code unit in four lower-case hexadecimal digits. */
  function UnicodeEscape(c: char): (r: string)
    requires (c as int) < 0x1_0000
    ensures |r| == 6 && r[0] == '\\' && r[1] == 'u'
  {
    var n := c as int;
    "\\u" + [HexDigit(n / 0x1000), HexDigit(n / 0x100 % 16), HexDigit(n / 0x10 % 16), HexDigit(n % 16)]
  }

  /** What QuoteJSONString emits for one character. */
  function EscapeChar(c: char): (r: string)
    ensures NeedsEscape(c) ==> 2 <= |r| && r[0] == '\\'
    ensures !NeedsEscape(c) ==> r == [c]
    ensures forall i :: 0 <= i < |r| ==> (r[i] as int) >= 0x20
  {
    if c == Backspace then "\\b"
    else if c == '\t' then "\\t"
    else if c == '\n' then "\\n"
    else if c == FormFeed then "\\f"
    else if c == '\r' then "\\r"
    else if c == '"' then "\\\""
    else if c == '\\' then "\\\\"
    else if (c as int) < 0x20 then UnicodeEscape(c)
    else [c]
  }

  /** The characters between the quotes: each character escaped in turn. */
  function EscapeAll(s: string): (r: string)
    ensures |s| <= |r|
    ensures forall i :: 0 <= i < |r| ==> (r[i] as int) >= 0x20
    decreases |s|
  {
    if s == [] then [] else EscapeChar(s[0]) + EscapeAll(s[1..])
  }

  /** `JSON.stringify` on a string. */
  function Quote(s: string): (r: string)
    ensures 2 <= |r| && r[0] == '"' && r[|r| - 1] == '"'
  {
    "\"" + EscapeAll(s) + "\""
  }

  /** The character a two-character escape `\x` stands for (RFC 8259, section 7). */
  function ShortEscape(x: char): Option<char>
  {
    if x == '"' then Some('"')
    else if x == '\\' then Some('\\')
    else if x == '/' then Some('/')
    else if x == 'b' then Some(Backspace)
    else if x == 'f' then Some(FormFeed)
    else if x == 'n' then Some('\n')
    else if x == 'r' then Some('\r')
    else if x == 't' then Some('\t')
    else None
  }

  /** The value of four hexadecimal digits. */
  function Hex4(h: string): Option<nat>
    requires |h| == 4
  {
    match (HexValue(h[0]), HexValue(h[1]), HexValue(h[2]), HexValue(h[3]))
    case (Some(a), Some(b), Some(c), Some(d)) => Some(a * 0x1000 + b * 0x100 + c * 0x10 + d)
    case _ => None
  }

  /** `c` in front of a decoded remainder; failure stays failure. */
  function Prepend(c: char, rest: Option<string>): Option<string>
  {
    match rest
    case None => None
    case Some(t) => Some([c] + t)
  }

  /** Decodes the characters between the quotes of an RFC 8259 string:
      unescaped characters other than `"`, `\` and controls, two-character
      escapes and `\u` escapes. A `\u` escape of a surrogate has no single
      character to stand for and is refused. */
  function Unescape(t: string): Option<string>
    decreases |t|
  {
    if t == [] then Some([])
    else if t[0] == '\\' then
      if 2 <= |t| && ShortEscape(t[1]).Some? then Prepend(ShortEscape(t[1]).value, Unescape(t[2..]))
      else if 6 <= |t| && t[1] == 'u' then
        match Hex4(t[2..6])
        case None => None
        case Some(n) =>
          if n < 0xD800 || 0xE000 <= n then Prepend(n as char, Unescape(t[6..])) else None
      else None
    else if NeedsEscape(t[0]) then None
    else Prepend(t[0], Unescape(t[1..]))
  }

  /** Reads a whole RFC 8259 string literal, quotes included. */
  function Unquote(q: string): Option<string>
  {
    if 2 <= |q| && q[0] == '"' && q[|q| - 1] == '"' then Unescape(q[1..|q| - 1]) else None
  }

  /** A two-character escape in front of anything decodes to its character. */
  lemma UnescapeShortEscape(c: char, x: char, rest: string)
    requires ShortEscape(x) == Some(c)
    ensures Unescape(['\\', x] + rest) == Prepend(c, Unescape(rest))
  {
    assert (['\\', x] + rest)[2..] == rest;
  }

  /** A `\u` escape of a control character decodes to that character. */
  lemma UnescapeUnicodeEscape(c: char, rest: string)
    requires (c as int) < 0x20
    ensures Unescape(UnicodeEscape(c) + rest) == Prepend(c, Unescape(rest))
  {
    var t := UnicodeEscape(c) + rest;
    var n := c as int;
    assert t[1] == 'u';
    assert ShortEscape(t[1]) == None;
    assert t[2..6] == [HexDigit(0), HexDigit(0), HexDigit(n / 0x10), HexDigit(n % 16)];
    assert Hex4(t[2..6]) == Some(n);
    assert t[6..] == rest;
  }

  /** Decoding one escaped character in front of anything decodes to that
      character in front of the decoded rest. */
  lemma UnescapeEscapeChar(c: char, rest: string)
    ensures Unescape(EscapeChar(c) + rest) == Prepend(c, Unescape(rest))
  {
    if c == Backspace {
      UnescapeShortEscape(c, 'b', rest);
    } else if c == '\t' {
      UnescapeShortEscape(c, 't', rest);
    } else if c == '\n' {
      UnescapeShortEscape(c, 'n', rest);
    } else if c == FormFeed {
      UnescapeShortEscape(c, 'f', rest);
    } else if c == '\r' {
      UnescapeShortEscape(c, 'r', rest);
    } else if c == '"' {
      UnescapeShortEscape(c, '"', rest);
    } else if c == '\\' {
      UnescapeShortEscape(c, '\\', rest);
    } else if (c as int) < 0x20 {
      UnescapeUnicodeEscape(c, rest);
    } else {
      assert ([c] + rest)[1..] == rest;
    }
  }

  /** Decoding the escaped characters gives back the original string. */
  lemma {:induction false} UnescapeEscapeAll(s: string)
    ensures Unescape(EscapeAll(s)) == Some(s)
    decreases |s|
  {
    if s != [] {
      UnescapeEscapeAll(s[1..]);
      UnescapeEscapeChar(s[0], EscapeAll(s[1..]));
      assert [s[0]] + s[1..] == s;
    }
  }

  /** Every quoted string is a well-formed RFC 8259 string literal that
      reads back as the original. */
  lemma UnquoteQuote(s: string)
    ensures Unquote(Quote(s)) == Some(s)
  {
    var q := Quote(s);
    assert q[1..|q| - 1] == EscapeAll(s);
    UnescapeEscapeAll(s);
  }

  /** Different strings quote differently. */
  lemma QuoteIsInjective(s1: string, s2: string)
    requires Quote(s1) == Quote(s2)
    ensures s1 == s2
  {
    UnquoteQuote(s1);
    UnquoteQuote(s2);
  }
}
