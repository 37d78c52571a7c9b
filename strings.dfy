// Python string operations the deployment code relies on, with the exact
// semantics of CPython's `str` methods restricted to ASCII text.
module Strings {
  import opened Wrappers

  predicate StartsWith(s: string, p: string)
  {
    |p| <= |s| && s[..|p|] == p
  }

  predicate EndsWith(s: string, p: string)
  {
    |p| <= |s| && s[|s| - |p|..] == p
  }

  /** `sub` occurs in `s` starting at index `j`. */
  predicate OccursAt(s: string, sub: string, j: int)
  {
    0 <= j && j + |sub| <= |s| && s[j..j + |sub|] == sub
  }

  /** First index at or after `from` where `sub` occurs (Python `s.find(sub, from)`). */
  function FindFrom(s: string, sub: string, from: nat): (r: Option<nat>)
    ensures r.Some? ==> from <= r.value && OccursAt(s, sub, r.value)
    ensures r.Some? ==> forall j :: from <= j < r.value ==> !OccursAt(s, sub, j)
    ensures r.None? ==> forall j :: from <= j ==> !OccursAt(s, sub, j)
    decreases |s| - from
  {
    if from + |sub| > |s| then None
    else if s[from..from + |sub|] == sub then Some(from)
    else FindFrom(s, sub, from + 1)
  }

  /** Python `s.find(sub)`, with `None` for -1. */
  function Find(s: string, sub: string): (r: Option<nat>)
    ensures r.Some? ==> OccursAt(s, sub, r.value)
    ensures r.Some? ==> forall j :: 0 <= j < r.value ==> !OccursAt(s, sub, j)
    ensures r.None? ==> forall j :: !OccursAt(s, sub, j)
  {
    FindFrom(s, sub, 0)
  }

  /** Python `sub in s`. */
  predicate Contains(s: string, sub: string)
  {
    Find(s, sub).Some?
  }

  /** Python `c in s` for a single character. */
  predicate HasChar(s: string, c: char)
  {
    c in s
  }

  /** Python `sep.join(parts)`. */
  function Join(parts: seq<string>, sep: string): string
  {
    if |parts| == 0 then ""
    else if |parts| == 1 then parts[0]
    else parts[0] + sep + Join(parts[1..], sep)
  }

  /** Python `s.split(sep)` for a non-empty separator. */
  function Split(s: string, sep: string): (r: seq<string>)
    requires |sep| > 0
    ensures |r| >= 1
    decreases |s|
  {
    match Find(s, sep)
    case None => [s]
    case Some(i) => [s[..i]] + Split(s[i + |sep|..], sep)
  }

  /** Python `s.split(c, 1)` when `c` occurs: the text before and after its first occurrence. */
  function Partition(s: string, c: char): (r: Option<(string, string)>)
    ensures r.Some? <==> c in s
    ensures r.Some? ==> s == r.value.0 + [c] + r.value.1 && c !in r.value.0
  {
    match Find(s, [c])
    case None =>
      assert forall j :: 0 <= j < |s| ==> s[j..j + 1] == [s[j]] && !OccursAt(s, [c], j);
      None
    case Some(i) =>
      assert s == s[..i] + [c] + s[i + 1..];
      assert forall j :: 0 <= j < i ==> s[j..j + 1] == [s[..i][j]] && !OccursAt(s, [c], j);
      Some((s[..i], s[i + 1..]))
  }

  /** Python `s[:n]`: a negative `n` counts from the end. */
  function SlicePrefix(s: string, n: int): (r: string)
    ensures |r| <= |s| && r == s[..|r|]
    ensures n >= 0 ==> |r| == if n <= |s| then n else |s|
    ensures n < 0 ==> |r| == if |s| + n >= 0 then |s| + n else 0
  {
    if n >= 0 then s[..if n <= |s| then n else |s|] else s[..if |s| + n >= 0 then |s| + n else 0]
  }

  /** Python `s.removeprefix(p)`. */
  function RemovePrefix(s: string, p: string): (r: string)
    ensures StartsWith(s, p) ==> p + r == s
    ensures !StartsWith(s, p) ==> r == s
  {
    if StartsWith(s, p) then s[|p|..] else s
  }

  /** Python `s.replace(old, new)`: non-overlapping occurrences, left to right. */
  function Replace(s: string, pat: string, rep: string): string
    requires |pat| > 0
    decreases |s|
  {
    match Find(s, pat)
    case None => s
    case Some(i) => s[..i] + rep + Replace(s[i + |pat|..], pat, rep)
  }

  /** Python `s.count(c)` for a single character. */
  function CountChar(s: string, c: char): nat
  {
    if |s| == 0 then 0 else (if s[0] == c then 1 else 0) + CountChar(s[1..], c)
  }

  function LowerChar(c: char): char
  {
    if 'A' <= c <= 'Z' then (c as int + 32) as char else c
  }

  function UpperChar(c: char): char
  {
    if 'a' <= c <= 'z' then (c as int - 32) as char else c
  }

  /** Python `s.lower()` on ASCII letters. */
  function Lower(s: string): (r: string)
    ensures |r| == |s|
    ensures forall i :: 0 <= i < |s| ==> r[i] == LowerChar(s[i])
  {
    if |s| == 0 then "" else [LowerChar(s[0])] + Lower(s[1..])
  }

  /** Python `s.upper()` on ASCII letters. */
  function Upper(s: string): (r: string)
    ensures |r| == |s|
    ensures forall i :: 0 <= i < |s| ==> r[i] == UpperChar(s[i])
  {
    if |s| == 0 then "" else [UpperChar(s[0])] + Upper(s[1..])
  }

  /** The white space `int()` skips around a number: the six ASCII spaces of C's `isspace`. */
  predicate IsIntSpace(c: char)
  {
    c == ' ' || c == '\t' || c == '\n' || c == '\r' || c == '\U{000B}' || c == '\U{000C}'
  }

  /** Python `c.isspace()` on ASCII: C's six spaces and the four separators '\x1c' to '\x1f'. */
  predicate IsSpace(c: char)
  {
    IsIntSpace(c) || '\U{001C}' <= c <= '\U{001F}'
  }

  /** `s` without the leading characters for which `space` holds. */
  function LStripBy(s: string, space: char -> bool): (r: string)
    ensures |r| == 0 || !space(r[0])
    decreases |s|
  {
    if |s| > 0 && space(s[0]) then LStripBy(s[1..], space) else s
  }

  /** `s` without the trailing characters for which `space` holds. */
  function RStripBy(s: string, space: char -> bool): (r: string)
    ensures |r| == 0 || !space(r[|r| - 1])
    decreases |s|
  {
    if |s| > 0 && space(s[|s| - 1]) then RStripBy(s[..|s| - 1], space) else s
  }

  /** Python `s.lstrip()` on ASCII text. */
  function LStrip(s: string): string
  {
    LStripBy(s, IsSpace)
  }

  /** Python `s.rstrip()` on ASCII text. */
  function RStrip(s: string): string
  {
    RStripBy(s, IsSpace)
  }

  /** Python `s.strip()` on ASCII text. */
  function Strip(s: string): string
  {
    RStrip(LStrip(s))
  }

  /** The text `int()` reads a number from: `s` without C's white space at either end. */
  function IntStrip(s: string): string
  {
    RStripBy(LStripBy(s, IsIntSpace), IsIntSpace)
  }

  predicate IsDigit(c: char)
  {
    '0' <= c <= '9'
  }

  predicate IsLowerAlpha(c: char)
  {
    'a' <= c <= 'z'
  }

  predicate IsAlpha(c: char)
  {
    'a' <= c <= 'z' || 'A' <= c <= 'Z'
  }

  function DigitValue(c: char): nat
    requires IsDigit(c)
  {
    c as int - '0' as int
  }

  function DigitChar(d: nat): (c: char)
    requires d < 10
    ensures IsDigit(c) && DigitValue(c) == d
  {
    ('0' as int + d) as char
  }

  /** Python `str(n)` for a natural number. */
  function NatToString(n: nat): (r: string)
    ensures |r| >= 1
    ensures forall i :: 0 <= i < |r| ==> IsDigit(r[i])
    decreases n
  {
    if n < 10 then [DigitChar(n)] else NatToString(n / 10) + [DigitChar(n % 10)]
  }

  function Repeat(c: char, n: nat): (r: string)
    ensures |r| == n && forall i :: 0 <= i < n ==> r[i] == c
  {
    if n == 0 then "" else [c] + Repeat(c, n - 1)
  }

  /** `str(n).zfill(width)` (and `f'{n:0>width}'`) for a natural number. */
  function ZeroPad(n: nat, width: nat): (r: string)
    ensures |r| == if |NatToString(n)| >= width then |NatToString(n)| else width
    ensures forall i :: 0 <= i < |r| ==> IsDigit(r[i])
  {
    var s := NatToString(n);
    if |s| >= width then s else Repeat('0', width - |s|) + s
  }

  /** Python `str(n)` for any integer. */
  function IntToString(n: int): string
  {
    if n < 0 then "-" + NatToString(-n) else NatToString(n)
  }

  /** The value of a non-empty string of digits. */
  function DigitsValue(s: string): nat
    requires forall i :: 0 <= i < |s| ==> IsDigit(s[i])
    decreases |s|
  {
    if |s| == 0 then 0 else DigitsValue(s[..|s| - 1]) * 10 + DigitValue(s[|s| - 1])
  }

  /**
   * A Python integer literal body: digits, where single underscores may sit
   * between two digits (`1_000`).
   */
  predicate WellFormedDigits(s: string)
  {
    |s| > 0 && IsDigit(s[0]) && IsDigit(s[|s| - 1]) &&
    (forall i :: 0 <= i < |s| ==> IsDigit(s[i]) || s[i] == '_') &&
    (forall i :: 0 <= i < |s| - 1 && s[i] == '_' ==> s[i + 1] != '_')
  }

  function RemoveUnderscores(s: string): (r: string)
    ensures forall i :: 0 <= i < |r| ==> r[i] != '_'
    ensures (forall i :: 0 <= i < |s| ==> IsDigit(s[i]) || s[i] == '_') ==>
              forall i :: 0 <= i < |r| ==> IsDigit(r[i])
  {
    if |s| == 0 then "" else (if s[0] == '_' then "" else [s[0]]) + RemoveUnderscores(s[1..])
  }

  /** Python `int(s)` for a string: `None` where CPython raises ValueError. */
  function ParseInt(s: string): (r: Option<int>)
  {
    var t := IntStrip(s);
    var neg := |t| > 0 && t[0] == '-';
    var body := if |t| > 0 && (t[0] == '-' || t[0] == '+') then t[1..] else t;
    if WellFormedDigits(body) then
      var v: int := DigitsValue(RemoveUnderscores(body));
      Some(if neg then -v else v)
    else None
  }

  // ---------------------------------------------------------------------
  // Properties

  lemma DigitsValueAppend(s: string, c: char)
    requires forall i :: 0 <= i < |s| ==> IsDigit(s[i])
    requires IsDigit(c)
    ensures DigitsValue(s + [c]) == DigitsValue(s) * 10 + DigitValue(c)
  {
    assert (s + [c])[..|s + [c]| - 1] == s;
  }

  lemma {:induction false} NatToStringValue(n: nat)
    ensures DigitsValue(NatToString(n)) == n
    decreases n
  {
    if n >= 10 {
      NatToStringValue(n / 10);
      DigitsValueAppend(NatToString(n / 10), DigitChar(n % 10));
    }
  }

  lemma {:induction false} RemoveUnderscoresNone(s: string)
    requires forall i :: 0 <= i < |s| ==> s[i] != '_'
    ensures RemoveUnderscores(s) == s
  {
    if |s| > 0 {
      RemoveUnderscoresNone(s[1..]);
    }
  }

  /** `int(str(n)) == n`: printing a number and parsing it back is the identity. */
  lemma ParseIntOfIntToString(n: int)
    ensures ParseInt(IntToString(n)) == Some(n)
  {
    var digits := NatToString(if n < 0 then -n else n);
    IntToStringStripped(n);
    RemoveUnderscoresNone(digits);
    assert WellFormedDigits(digits);
    NatToStringValue(if n < 0 then -n else n);
  }

  /** A printed number has no surrounding white space: a sign only when negative, then the digits. */
  lemma IntToStringStripped(n: int)
    ensures Strip(IntToString(n)) == IntToString(n)
    ensures IntStrip(IntToString(n)) == IntToString(n)
    ensures IntToString(n)[0] == '-' <==> n < 0
    ensures IntToString(n)[0] != '+'
    ensures (if n < 0 then IntToString(n)[1..] else IntToString(n)) == NatToString(if n < 0 then -n else n)
  {
    var s := IntToString(n);
    assert !IsSpace(s[0]) && !IsSpace(s[|s| - 1]);
    assert LStrip(s) == s && LStripBy(s, IsIntSpace) == s;
    assert RStrip(s) == s && RStripBy(s, IsIntSpace) == s;
  }

  /** The first occurrence of `sep` in `p + sep` is the appended one. */
  predicate SepSafe(p: string, sep: string)
  {
    Find(p + sep, sep) == Some(|p|)
  }

  lemma FindIsFirst(s: string, sub: string, i: nat)
    requires OccursAt(s, sub, i)
    requires forall j :: 0 <= j < i ==> !OccursAt(s, sub, j)
    ensures Find(s, sub) == Some(i)
  {
  }

  lemma FindAfterSafe(p: string, sep: string, rest: string)
    requires SepSafe(p, sep)
    ensures Find(p + sep + rest, sep) == Some(|p|)
  {
    var s := p + sep + rest;
    var t := p + sep;
    assert s[|p|..|p| + |sep|] == sep;
    forall j | 0 <= j < |p|
      ensures !OccursAt(s, sep, j)
    {
      assert !OccursAt(t, sep, j);
      assert s[j..j + |sep|] == t[j..j + |sep|];
    }
    FindIsFirst(s, sep, |p|);
  }

  /**
   * Splitting a joined list gives the list back, provided no separator
   * occurrence starts inside a part.
   */
  lemma {:induction false} SplitJoin(parts: seq<string>, sep: string)
    requires |sep| > 0 && |parts| >= 1
    requires forall i :: 0 <= i < |parts| - 1 ==> SepSafe(parts[i], sep)
    requires !Contains(parts[|parts| - 1], sep)
    ensures Split(Join(parts, sep), sep) == parts
    decreases |parts|
  {
    if |parts| == 1 {
    } else {
      var rest := Join(parts[1..], sep);
      assert Join(parts, sep) == parts[0] + sep + rest;
      SplitAfterSafe(parts[0], sep, rest);
      SplitJoin(parts[1..], sep);
      assert [parts[0]] + parts[1..] == parts;
    }
  }

  /** Splitting `p + sep + rest` for a safe part `p`: `p`, then the pieces of `rest`. */
  lemma SplitAfterSafe(p: string, sep: string, rest: string)
    requires |sep| > 0 && SepSafe(p, sep)
    ensures Split(p + sep + rest, sep) == [p] + Split(rest, sep)
  {
    var s := p + sep + rest;
    FindAfterSafe(p, sep, rest);
    assert s[..|p|] == p;
    assert s[|p| + |sep|..] == rest;
  }

  /** For a one-character separator, a part is safe iff it lacks that character. */
  lemma SepSafeChar(p: string, c: char)
    requires c !in p
    ensures SepSafe(p, [c]) && !Contains(p, [c])
  {
    var t := p + [c];
    forall j | 0 <= j < |p|
      ensures !OccursAt(t, [c], j)
    {
      assert t[j..j + 1] == [p[j]];
    }
    FindIsFirst(t, [c], |p|);
    forall j | 0 <= j < |p|
      ensures !OccursAt(p, [c], j)
    {
      assert p[j..j + 1] == [p[j]];
    }
  }

  /** For the `::` separator, a part is safe when it has no `::` and does not end in `:`. */
  lemma SepSafeDoubleColon(p: string)
    requires !Contains(p, "::")
    requires |p| == 0 || p[|p| - 1] != ':'
    ensures SepSafe(p, "::")
  {
    var t := p + "::";
    forall j | 0 <= j < |p|
      ensures !OccursAt(t, "::", j)
    {
      if j + 2 <= |p| {
        assert t[j..j + 2] == p[j..j + 2];
        assert !OccursAt(p, "::", j);
      } else {
        assert j == |p| - 1;
        assert t[j] == p[|p| - 1];
      }
    }
    assert t[|p|..|p| + 2] == "::";
    FindIsFirst(t, "::", |p|);
  }

  /** Replacing a separator that does not occur is the identity. */
  lemma ReplaceAbsent(s: string, pat: string, rep: string)
    requires |pat| > 0 && !Contains(s, pat)
    ensures Replace(s, pat, rep) == s
  {
  }

  /** Replacing introduces no character that neither the input nor the replacement has. */
  lemma {:induction false} ReplaceChars(s: string, pat: string, rep: string, P: char -> bool)
    requires |pat| > 0
    requires forall i :: 0 <= i < |s| ==> P(s[i])
    requires forall i :: 0 <= i < |rep| ==> P(rep[i])
    ensures forall i :: 0 <= i < |Replace(s, pat, rep)| ==> P(Replace(s, pat, rep)[i])
    decreases |s|
  {
    match Find(s, pat)
    case None =>
    case Some(k) =>
      var rest := s[k + |pat|..];
      ReplaceChars(rest, pat, rep, P);
      var r := Replace(s, pat, rep);
      assert r == s[..k] + rep + Replace(rest, pat, rep);
      forall i | 0 <= i < |r|
        ensures P(r[i])
      {
        if i < k {
          assert r[i] == s[i];
        } else if i < k + |rep| {
          assert r[i] == rep[i - k];
        } else {
          assert r[i] == Replace(rest, pat, rep)[i - k - |rep|];
        }
      }
  }

  /** Replacing every occurrence of a character removes it, unless the replacement brings it back. */
  lemma {:induction false} ReplaceRemovesChar(s: string, c: char, rep: string)
    requires c !in rep
    ensures c !in Replace(s, [c], rep)
    decreases |s|
  {
    match Find(s, [c])
    case None =>
      forall i | 0 <= i < |s|
        ensures s[i] != c
      {
        assert s[i..i + 1] == [s[i]];
        assert !OccursAt(s, [c], i);
      }
    case Some(k) =>
      var rest := s[k + 1..];
      ReplaceRemovesChar(rest, c, rep);
      forall i | 0 <= i < k
        ensures s[i] != c
      {
        assert s[i..i + 1] == [s[i]];
        assert !OccursAt(s, [c], i);
      }
      assert Replace(s, [c], rep) == s[..k] + rep + Replace(rest, [c], rep);
  }

  /** Lower-casing is idempotent. */
  lemma LowerIdempotent(s: string)
    ensures Lower(Lower(s)) == Lower(s)
  {
  }

  /** `(a + b).count(c) == a.count(c) + b.count(c)`. */
  lemma {:induction false} CountCharAppend(a: string, b: string, c: char)
    ensures CountChar(a + b, c) == CountChar(a, c) + CountChar(b, c)
    decreases |a|
  {
    if |a| > 0 {
      assert (a + b)[1..] == a[1..] + b;
      CountCharAppend(a[1..], b, c);
    } else {
      assert a + b == b;
    }
  }

  lemma JoinCons(a: string, rest: seq<string>, sep: string)
    requires |rest| >= 1
    ensures Join([a] + rest, sep) == a + sep + Join(rest, sep)
  {
    assert ([a] + rest)[1..] == rest;
  }

  /** Joining two non-empty lists is joining each and putting one separator between. */
  lemma {:induction false} JoinAppend(a: seq<string>, b: seq<string>, sep: string)
    requires |a| >= 1 && |b| >= 1
    ensures Join(a + b, sep) == Join(a, sep) + sep + Join(b, sep)
    decreases |a|
  {
    if |a| == 1 {
      JoinCons(a[0], b, sep);
      assert a + b == [a[0]] + b;
    } else {
      JoinAppend(a[1..], b, sep);
      assert a + b == [a[0]] + (a[1..] + b);
      JoinCons(a[0], a[1..] + b, sep);
      JoinCons(a[0], a[1..], sep);
      assert a == [a[0]] + a[1..];
    }
  }

  /** Joining the pieces of a split with the separator gives back the text. */
  lemma {:induction false} SplitJoinInverse(s: string, sep: string)
    requires |sep| > 0
    ensures Join(Split(s, sep), sep) == s
    decreases |s|
  {
    var f := Find(s, sep);
    if f.Some? {
      var i := f.value;
      var rest := s[i + |sep|..];
      assert Split(s, sep) == [s[..i]] + Split(rest, sep);
      SplitJoinInverse(rest, sep);
      JoinCons(s[..i], Split(rest, sep), sep);
      assert s[i..i + |sep|] == sep;
      assert s == s[..i] + s[i..i + |sep|] + rest;
    } else {
      assert Split(s, sep) == [s];
    }
  }

  /** No piece of a split on a single character contains that character. */
  lemma {:induction false} SplitCharPieces(s: string, c: char)
    ensures forall p :: p in Split(s, [c]) ==> c !in p
    decreases |s|
  {
    match Find(s, [c])
    case None =>
      forall j | 0 <= j < |s| ensures s[j] != c {
        assert s[j..j + 1] == [s[j]];
        assert !OccursAt(s, [c], j);
      }
    case Some(i) =>
      SplitCharPieces(s[i + 1..], c);
      forall j | 0 <= j < i ensures s[..i][j] != c {
        assert s[j..j + 1] == [s[j]];
        assert !OccursAt(s, [c], j);
      }
  }
  lemma EndsWithAppend(a: string, b: string)
    ensures EndsWith(a + b, b)
  {
    assert (a + b)[|a + b| - |b|..] == b;
  }

  /** A text lacking one of the characters of `sub` does not contain `sub`. */
  lemma NotContainsChar(s: string, sub: string, k: nat)
    requires k < |sub| && sub[k] !in s
    ensures !Contains(s, sub)
  {
    forall j | 0 <= j
      ensures !OccursAt(s, sub, j)
    {
      if j + |sub| <= |s| {
        assert s[j..j + |sub|][k] == s[j + k];
      }
    }
  }

  /** A text in which two adjacent characters of `sub` never occur side by side does not contain `sub`. */
  lemma NotContainsPair(s: string, sub: string, k: nat)
    requires k + 1 < |sub|
    requires forall j :: 0 <= j < |s| - 1 ==> !(s[j] == sub[k] && s[j + 1] == sub[k + 1])
    ensures !Contains(s, sub)
  {
    forall j | 0 <= j
      ensures !OccursAt(s, sub, j)
    {
      if j + |sub| <= |s| {
        assert s[j..j + |sub|][k] == s[j + k];
        assert s[j..j + |sub|][k + 1] == s[j + k + 1];
      }
    }
  }

  /** For `::`, a text with no two adjacent colons does not contain it. */
  lemma NoDoubleColon(p: string)
    requires forall j :: 0 <= j < |p| - 1 ==> !(p[j] == ':' && p[j + 1] == ':')
    requires |p| == 0 || p[|p| - 1] != ':'
    ensures !Contains(p, "::") && SepSafe(p, "::")
  {
    NotContainsPair(p, "::", 0);
    SepSafeDoubleColon(p);
  }

  /** Splitting at a character that the first piece lacks takes that piece off. */
  lemma SplitAtChar(line: string, c: char, rest: string)
    requires c !in line
    ensures Split(line + [c] + rest, [c]) == [line] + Split(rest, [c])
  {
    SepSafeChar(line, c);
    FindAfterSafe(line, [c], rest);
    var s := line + [c] + rest;
    assert s[..|line|] == line;
    assert s[|line| + 1..] == rest;
  }

  /** `s.rfind(c)`: the last index of `c`. */
  function RFindChar(s: string, c: char): (r: Option<nat>)
    ensures r.None? <==> c !in s
    ensures r.Some? ==> r.value < |s| && s[r.value] == c && c !in s[r.value + 1..]
    decreases |s|
  {
    if |s| == 0 then None
    else if s[|s| - 1] == c then Some(|s| - 1)
    else
      var r := RFindChar(s[..|s| - 1], c);
      assert r.Some? ==> s[..|s| - 1][r.value + 1..] + [s[|s| - 1]] == s[r.value + 1..];
      r
  }

  /** The last occurrence of a character is the one no later text holds. */
  lemma {:induction false} RFindLast(s: string, c: char, rest: string)
    requires c !in rest
    ensures RFindChar(s + [c] + rest, c) == Some(|s|)
    decreases |rest|
  {
    if |rest| > 0 {
      var t := s + [c] + rest;
      assert t[..|t| - 1] == s + [c] + rest[..|rest| - 1];
      RFindLast(s, c, rest[..|rest| - 1]);
    }
  }

  /** Python `<=` on strings: lexicographic by code point. */
  predicate StrLessEq(a: string, b: string)
    decreases |a|
  {
    |a| == 0 || (|b| > 0 && (a[0] < b[0] || (a[0] == b[0] && StrLessEq(a[1..], b[1..]))))
  }

  lemma StrLessEqTotal(a: string, b: string)
    ensures StrLessEq(a, b) || StrLessEq(b, a)
    decreases |a|
  {
    if |a| > 0 && |b| > 0 && a[0] == b[0] {
      StrLessEqTotal(a[1..], b[1..]);
    }
  }

  lemma {:induction false} StrLessEqAntisymmetric(a: string, b: string)
    requires StrLessEq(a, b) && StrLessEq(b, a)
    ensures a == b
    decreases |a|
  {
    if |a| > 0 {
      StrLessEqAntisymmetric(a[1..], b[1..]);
      assert a == [a[0]] + a[1..] && b == [b[0]] + b[1..];
    }
  }

  lemma {:induction false} StrLessEqTransitive(a: string, b: string, c: string)
    requires StrLessEq(a, b) && StrLessEq(b, c)
    ensures StrLessEq(a, c)
    decreases |a|
  {
    if |a| > 0 && a[0] == b[0] && b[0] == c[0] {
      StrLessEqTransitive(a[1..], b[1..], c[1..]);
    }
  }
}
