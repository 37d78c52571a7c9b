// Python's `repr` of a string, as the import scripts use it (`{x!r}`) to
// quote the type, name and id of each `pulumi import` command.
module PyRepr {
  import opened Wrappers

  const HexDigits: string := "0123456789abcdef"

  /** Latin-1 characters Python does not print as they are. */
  predicate NonPrintable(c: char)
  {
    c < ' ' || c == '\U{007F}' || ('\U{0080}' <= c <= '\U{00A0}') || c == '\U{00AD}'
  }

  /** The quote `repr` chooses: '"' when the text holds "'" and no '"', else "'". */
  function QuoteFor(s: string): (q: char)
    ensures q == '\'' || q == '"'
    ensures q == '"' <==> ('\'' in s && '"' !in s)
  {
    if '\'' in s && '"' !in s then '"' else '\''
  }

  /** One character inside the quotes `q`. */
  function EscapeChar(c: char, q: char): (r: string)
    requires q == '\'' || q == '"'
    ensures |r| >= 1
    ensures '\n' !in r
    ensures c != '\\' && c != q && !NonPrintable(c) ==> r == [c]
  {
    if c == q || c == '\\' then ['\\', c]
    else if c == '\t' then "\\t"
    else if c == '\n' then "\\n"
    else if c == '\r' then "\\r"
    else if NonPrintable(c) then ['\\', 'x', HexDigits[c as int / 16], HexDigits[c as int % 16]]
    else [c]
  }

  function Escape(s: string, q: char): (r: string)
    requires q == '\'' || q == '"'
    ensures '\n' !in r
  {
    if |s| == 0 then "" else EscapeChar(s[0], q) + Escape(s[1..], q)
  }

  /** `repr(s)` for a `str`. */
  function Repr(s: string): (r: string)
    ensures |r| >= 2 && r[0] == r[|r| - 1] == QuoteFor(s)
    ensures '\n' !in r
  {
    var q := QuoteFor(s);
    [q] + Escape(s, q) + [q]
  }

  function HexValue(c: char): Option<nat>
  {
    if '0' <= c <= '9' then Some(c as int - '0' as int)
    else if 'a' <= c <= 'f' then Some(c as int - 'a' as int + 10)
    else None
  }

  /** Reading escaped text back: the inverse of `Escape`. */
  function Unescape(s: string, q: char): Option<string>
    decreases |s|
  {
    if |s| == 0 then Some("")
    else if s[0] != '\\' then
      match Unescape(s[1..], q)
      case None => None
      case Some(t) => Some([s[0]] + t)
    else if |s| < 2 then None
    else
      var e := s[1];
      var c: Option<char> :=
        if e == '\\' || e == q then Some(e)
        else if e == 't' then Some('\t')
        else if e == 'n' then Some('\n')
        else if e == 'r' then Some('\r')
        else None;
      if c.Some? then
        match Unescape(s[2..], q)
        case None => None
        case Some(t) => Some([c.value] + t)
      else if e == 'x' && |s| >= 4 && HexValue(s[2]).Some? && HexValue(s[3]).Some? then
        match Unescape(s[4..], q)
        case None => None
        case Some(t) => Some([(HexValue(s[2]).value * 16 + HexValue(s[3]).value) as char] + t)
      else None
  }

  /** Reading a quoted literal back. */
  function Unrepr(r: string): Option<string>
  {
    if |r| >= 2 && (r[0] == '\'' || r[0] == '"') && r[|r| - 1] == r[0] then Unescape(r[1..|r| - 1], r[0])
    else None
  }

  lemma HexDigitsValue(n: nat)
    requires n < 16
    ensures HexValue(HexDigits[n]) == Some(n)
  {
  }

  /** Reading one escaped character back leaves the rest to read. */
  lemma UnescapeChar(c: char, rest: string, q: char)
    requires q == '\'' || q == '"'
    ensures Unescape(EscapeChar(c, q) + rest, q) ==
            match Unescape(rest, q) case None => None case Some(t) => Some([c] + t)
  {
    var e := EscapeChar(c, q);
    var s := e + rest;
    if c == q || c == '\\' || c == '\t' || c == '\n' || c == '\r' {
      assert s[2..] == rest;
    } else if NonPrintable(c) {
      HexDigitsValue(c as int / 16);
      HexDigitsValue(c as int % 16);
      assert s[4..] == rest;
    } else {
      assert s[1..] == rest;
    }
  }

  /** Escaping then reading back gives the original text. */
  lemma {:induction false} UnescapeEscape(s: string, q: char)
    requires q == '\'' || q == '"'
    ensures Unescape(Escape(s, q), q) == Some(s)
    decreases |s|
  {
    if |s| > 0 {
      UnescapeEscape(s[1..], q);
      UnescapeChar(s[0], Escape(s[1..], q), q);
      assert [s[0]] + s[1..] == s;
    }
  }

  /** `repr` loses nothing: its literal reads back as the original text. */
  lemma UnreprRepr(s: string)
    ensures Unrepr(Repr(s)) == Some(s)
  {
    var r := Repr(s);
    assert r[1..|r| - 1] == Escape(s, QuoteFor(s));
    UnescapeEscape(s, QuoteFor(s));
  }

  /** So distinct texts have distinct literals. */
  lemma ReprInjective(s: string, t: string)
    requires Repr(s) == Repr(t)
    ensures s == t
  {
    UnreprRepr(s);
    UnreprRepr(t);
  }

  /** Text without quotes, backslashes or unprintable characters is quoted as it is. */
  lemma ReprPlain(s: string)
    requires forall i :: 0 <= i < |s| ==> s[i] != '\'' && s[i] != '\\' && !NonPrintable(s[i])
    ensures Repr(s) == "'" + s + "'"
  {
    EscapePlain(s);
  }

  lemma {:induction false} EscapePlain(s: string)
    requires forall i :: 0 <= i < |s| ==> s[i] != '\'' && s[i] != '\\' && !NonPrintable(s[i])
    ensures Escape(s, '\'') == s
    decreases |s|
  {
    if |s| > 0 {
      EscapePlain(s[1..]);
      assert [s[0]] + s[1..] == s;
    }
  }
}
