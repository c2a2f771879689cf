/** Python's `repr()` of a string, as used by `{value!r}` in f-strings: the
    text in single quotes, or in double quotes when it holds a single quote
    and no double quote; backslashes and the chosen quote are escaped, tab,
    newline and carriage return get their short escapes, and the other
    characters below U+0100 that Python does not print (the C0 and C1
    controls, DEL, the no-break space and the soft hyphen) become `\xhh`.
    Characters from U+0100 up are kept as they are. */
module PyRepr {
  import opened Common

  const Hex := "0123456789abcdef"

  function HexDigit(n: nat): char
    requires n < 16
  {
    Hex[n]
  }

  /** The value of a lower-case hexadecimal digit. */
  function HexValue(c: char): (r: Option<nat>)
    ensures r.Some? ==> r.value < 16 && HexDigit(r.value) == c
    ensures c in Hex ==> r.Some?
  {
    if '0' <= c <= '9' then Some(c as int - '0' as int)
    else if 'a' <= c <= 'f' then Some(c as int - 'a' as int + 10)
    else None
  }

  /** The characters below U+0100 that `str.isprintable` rejects: C0
      controls, DEL and C1 controls, U+00A0 (a space other than ' ') and
      U+00AD (a format character). `repr` writes them as `\xhh`. */
  predicate HexEscaped(c: char) {
    c < ' ' || (0x7f <= c as int <= 0xa0) || c as int == 0xad
  }

  /** How one character of the string appears between the quotes. */
  function EscapeChar(c: char, quote: char): string
  {
    if c == '\\' || c == quote then ['\\', c]
    else if c == '\t' then "\\t"
    else if c == '\n' then "\\n"
    else if c == '\r' then "\\r"
    else if HexEscaped(c) then ['\\', 'x', HexDigit(c as int / 16), HexDigit(c as int % 16)]
    else [c]
  }

  function EscapeAll(s: string, quote: char): string
  {
    if |s| == 0 then "" else EscapeChar(s[0], quote) + EscapeAll(s[1..], quote)
  }

  /** The quote `repr` chooses for `s`. */
  function QuoteFor(s: string): (q: char)
    ensures q == '"' <==> '\'' in s && '"' !in s
    ensures q == '\'' || q == '"'
  {
    if '\'' in s && '"' !in s then '"' else '\''
  }

  /** `repr(s)` */
  function Repr(s: string): (r: string)
    ensures |r| >= 2 && r[0] == r[|r| - 1] == QuoteFor(s)
  {
    var q := QuoteFor(s);
    [q] + EscapeAll(s, q) + [q]
  }

  /** Read a quoted text back: decode escapes up to the first unescaped
      `quote`, giving the decoded text and what follows the closing quote;
      `None` if the quote never closes or an escape is not one `repr` writes. */
  function ReadQuoted(t: string, quote: char): Option<(string, string)>
  {
    if |t| == 0 then None
    else if t[0] == quote then Some(("", t[1..]))
    else if t[0] != '\\' then
      match ReadQuoted(t[1..], quote)
      case None => None
      case Some(r) => Some(([t[0]] + r.0, r.1))
    else if |t| < 2 then None
    else
      var e := t[1];
      if e == '\\' || e == quote || e == 't' || e == 'n' || e == 'r' then
        var c := if e == 't' then '\t' else if e == 'n' then '\n' else if e == 'r' then '\r' else e;
        match ReadQuoted(t[2..], quote)
        case None => None
        case Some(r) => Some(([c] + r.0, r.1))
      else if e == 'x' && |t| >= 4 && HexValue(t[2]).Some? && HexValue(t[3]).Some? then
        var c := (HexValue(t[2]).value * 16 + HexValue(t[3]).value) as char;
        match ReadQuoted(t[4..], quote)
        case None => None
        case Some(r) => Some(([c] + r.0, r.1))
      else None
  }

  /** Read a `repr`-quoted string from the front of `t`. */
  function ReadRepr(t: string): Option<(string, string)>
  {
    if |t| > 0 && (t[0] == '\'' || t[0] == '"') then ReadQuoted(t[1..], t[0]) else None
  }

  /** The inverse of `repr` on strings. */
  function Unrepr(t: string): Option<string>
  {
    match ReadRepr(t)
    case Some((s, rest)) => if rest == "" then Some(s) else None
    case None => None
  }

  lemma ReadOneHex(c: char, quote: char, more: string, s: string, rest: string)
    requires quote == '\'' || quote == '"'
    requires HexEscaped(c) && c != '\t' && c != '\n' && c != '\r'
    requires ReadQuoted(more, quote) == Some((s, rest))
    ensures ReadQuoted(EscapeChar(c, quote) + more, quote) == Some(([c] + s, rest))
  {
    var t := EscapeChar(c, quote) + more;
    var n := c as int;
    assert t[0] == '\\' && t[1] == 'x';
    assert t[2] == HexDigit(n / 16) && t[3] == HexDigit(n % 16);
    HexDigitValue(n / 16);
    HexDigitValue(n % 16);
    assert t[4..] == more;
  }

  /** Each hexadecimal digit reads back as its value. */
  lemma HexDigitValue(n: nat)
    requires n < 16
    ensures HexValue(HexDigit(n)) == Some(n)
  {
    assert Hex[n] in Hex;
  }

  lemma ReadOneShort(c: char, quote: char, more: string, s: string, rest: string)
    requires quote == '\'' || quote == '"'
    requires c == '\\' || c == quote || c == '\t' || c == '\n' || c == '\r'
    requires ReadQuoted(more, quote) == Some((s, rest))
    ensures ReadQuoted(EscapeChar(c, quote) + more, quote) == Some(([c] + s, rest))
  {
    var t := EscapeChar(c, quote) + more;
    assert t[0] == '\\';
    assert t[2..] == more;
  }

  lemma ReadOne(c: char, quote: char, more: string, s: string, rest: string)
    requires quote == '\'' || quote == '"'
    requires ReadQuoted(more, quote) == Some((s, rest))
    ensures ReadQuoted(EscapeChar(c, quote) + more, quote) == Some(([c] + s, rest))
  {
    if c == '\\' || c == quote || c == '\t' || c == '\n' || c == '\r' {
      ReadOneShort(c, quote, more, s, rest);
    } else if HexEscaped(c) {
      ReadOneHex(c, quote, more, s, rest);
    } else {
      var t := EscapeChar(c, quote) + more;
      assert t[0] == c;
      assert t[1..] == more;
    }
  }

  lemma {:induction false} ReadEscaped(s: string, quote: char, rest: string)
    requires quote == '\'' || quote == '"'
    ensures ReadQuoted(EscapeAll(s, quote) + [quote] + rest, quote) == Some((s, rest))
  {
    if |s| == 0 {
      assert EscapeAll(s, quote) + [quote] + rest == [quote] + rest;
    } else {
      var head := EscapeChar(s[0], quote);
      var tail := EscapeAll(s[1..], quote) + [quote] + rest;
      ReadEscaped(s[1..], quote, rest);
      ReadOne(s[0], quote, tail, s[1..], rest);
      assert EscapeAll(s, quote) == head + EscapeAll(s[1..], quote);
      assert EscapeAll(s, quote) + [quote] + rest == head + tail;
      assert [s[0]] + s[1..] == s;
    }
  }

  /** A `repr`-quoted string followed by anything is read back exactly, with
      the rest left over: the quoting is self-delimiting. */
  lemma ReadReprOf(s: string, rest: string)
    ensures ReadRepr(Repr(s) + rest) == Some((s, rest))
  {
    var q := QuoteFor(s);
    assert (Repr(s) + rest)[1..] == EscapeAll(s, q) + [q] + rest;
    ReadEscaped(s, q, rest);
  }

  /** The first C1 control and the no-break space print as hexadecimal
      escapes, as they do in CPython. */
  lemma Latin1Escapes()
    ensures Repr("\U{80}") == "'\\x80'"
    ensures Repr("\U{a0}") == "'\\xa0'"
  {
  }

  /** The soft hyphen is escaped too, while a printable Latin-1 letter is
      kept as it is. */
  lemma SoftHyphenEscaped()
    ensures Repr("\U{ad}") == "'\\xad'"
    ensures Repr("\U{e9}") == "'\U{e9}'"
  {
  }

  /** `repr` loses nothing: the original string can be read back. */
  lemma ReprRoundTrip(s: string)
    ensures Unrepr(Repr(s)) == Some(s)
  {
    ReadReprOf(s, "");
    assert Repr(s) + "" == Repr(s);
  }

  /** Hence `repr` is injective: different strings never print alike. */
  lemma ReprInjective(a: string, b: string)
    requires Repr(a) == Repr(b)
    ensures a == b
  {
    ReprRoundTrip(a);
    ReprRoundTrip(b);
  }
}
