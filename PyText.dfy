/** The few Python string operations the health checks rely on:
    `str.strip()`, the substring test `pat in text`, `str(bool)` and
    `repr(str)`, stated on `seq<char>`. */
module PyText {

  /** `c.isspace()` in Python: the Unicode whitespace characters
      (bidirectional class WS, B or S, or category Zs). */
  const Whitespace: set<char> := {
    '\t', '\n', '\U{0B}', '\U{0C}', '\r', '\U{1C}', '\U{1D}', '\U{1E}', '\U{1F}', ' ',
    '\U{85}', '\U{A0}', '\U{1680}',
    '\U{2000}', '\U{2001}', '\U{2002}', '\U{2003}', '\U{2004}', '\U{2005}',
    '\U{2006}', '\U{2007}', '\U{2008}', '\U{2009}', '\U{200A}',
    '\U{2028}', '\U{2029}', '\U{202F}', '\U{205F}', '\U{3000}'}

  predicate IsSpace(c: char) {
    c in Whitespace
  }

  ghost predicate AllSpace(s: string) {
    forall i :: 0 <= i < |s| ==> IsSpace(s[i])
  }

  /** Every character of `s` from index `lo` up to `hi` is whitespace. */
  ghost predicate SpaceBetween(s: string, lo: int, hi: int) {
    forall i :: lo <= i < hi && 0 <= i < |s| ==> IsSpace(s[i])
  }

  /** Number of whitespace characters at the start of `s`. */
  function LeadingSpaces(s: string): (n: nat)
    ensures n <= |s|
    ensures SpaceBetween(s, 0, n)
    ensures n < |s| ==> !IsSpace(s[n])
  {
    if s != [] && IsSpace(s[0]) then
      var n := 1 + LeadingSpaces(s[1..]);
      assert forall i :: 1 <= i < |s| ==> s[i] == s[1..][i - 1];
      n
    else 0
  }

  /** Number of whitespace characters at the end of `s`. */
  function TrailingSpaces(s: string): (n: nat)
    ensures n <= |s|
    ensures SpaceBetween(s, |s| - n, |s|)
    ensures n < |s| ==> !IsSpace(s[|s| - 1 - n])
  {
    if s != [] && IsSpace(s[|s| - 1]) then
      var init := s[..|s| - 1];
      var n := 1 + TrailingSpaces(init);
      assert forall i :: 0 <= i < |init| ==> s[i] == init[i];
      n
    else 0
  }

  /** `s.strip()`: `s` without its leading and trailing whitespace. */
  function Strip(s: string): (r: string)
    ensures r == [] <==> AllSpace(s)
    ensures r != [] ==> !IsSpace(r[0]) && !IsSpace(r[|r| - 1])
    ensures exists i :: 0 <= i <= |s| - |r| && s[i..i + |r|] == r && AllSpace(s[..i]) && AllSpace(s[i + |r|..])
  {
    var start := LeadingSpaces(s);
    var end := |s| - TrailingSpaces(s[start..]);
    TrailingBound(s, start);
    StripWindow(s, start, end, s[start..end]);
    s[start..end]
  }

  /** The trailing whitespace of `s[start..]` ends `s` and stops at a
      non-space character. */
  lemma TrailingBound(s: string, start: nat)
    requires start <= |s|
    ensures var end := |s| - TrailingSpaces(s[start..]);
      && start <= end
      && SpaceBetween(s, end, |s|)
      && (start < end ==> !IsSpace(s[end - 1]))
  {
    var t := s[start..];
    assert forall i :: start <= i < |s| ==> s[i] == t[i - start];
  }

  /** The window `r == s[start..end]` between an all-space prefix and an
      all-space suffix, bounded by non-space characters, is `s.strip()`. */
  lemma StripWindow(s: string, start: nat, end: nat, r: string)
    requires start <= end <= |s| && r == s[start..end]
    requires SpaceBetween(s, 0, start) && SpaceBetween(s, end, |s|)
    requires start < |s| ==> !IsSpace(s[start])
    requires start < end ==> !IsSpace(s[end - 1])
    ensures r == [] <==> AllSpace(s)
    ensures r != [] ==> !IsSpace(r[0]) && !IsSpace(r[|r| - 1])
    ensures exists i :: 0 <= i <= |s| - |r| && s[i..i + |r|] == r && AllSpace(s[..i]) && AllSpace(s[i + |r|..])
  {
    assert AllSpace(s[..start]);
    assert AllSpace(s[end..]) by {
      forall i | 0 <= i < |s| - end ensures IsSpace(s[end..][i]) {
        assert s[end..][i] == s[end + i];
      }
    }
    assert s[start + |r|..] == s[end..];
  }

  /** Python's `pat in text` on strings. */
  function Contains(text: string, pat: string): bool
    decreases |text|
  {
    if |pat| > |text| then false
    else if text[..|pat|] == pat then true
    else Contains(text[1..], pat)
  }

  /** Reference definition of a substring: `pat` occurs at some position of `text`. */
  ghost predicate Occurs(text: string, pat: string) {
    exists i :: OccursAt(text, pat, i)
  }

  ghost predicate OccursAt(text: string, pat: string, i: int) {
    0 <= i <= |text| - |pat| && text[i..i + |pat|] == pat
  }

  lemma {:induction false} ContainsIffOccurs(text: string, pat: string)
    ensures Contains(text, pat) <==> Occurs(text, pat)
    decreases |text|
  {
    if |pat| > |text| {
    } else if text[..|pat|] == pat {
      assert OccursAt(text, pat, 0);
    } else {
      ContainsIffOccurs(text[1..], pat);
      if Occurs(text, pat) {
        var i :| OccursAt(text, pat, i);
        assert i != 0;
        assert OccursAt(text[1..], pat, i - 1);
      }
      if Occurs(text[1..], pat) {
        var j :| OccursAt(text[1..], pat, j);
        assert OccursAt(text, pat, j + 1);
      }
    }
  }

  /** `s.startswith(prefix)`. */
  predicate StartsWith(s: string, prefix: string) {
    |prefix| <= |s| && s[..|prefix|] == prefix
  }

  /** `str(b)` for a Python bool. */
  function PyBool(b: bool): (r: string)
    ensures r == "True" || r == "False"
  {
    if b then "True" else "False"
  }

  /** `repr(s)` for a Python str: single quotes unless `s` holds a single
      quote and no double quote; backslash, the chosen quote and the ASCII
      control characters are escaped. */
  function Repr(s: string): (r: string)
    ensures |r| >= |s| + 2
    ensures r[0] == r[|r| - 1] && (r[0] == '\'' || r[0] == '"')
    ensures r[0] == '"' <==> '\'' in s && '"' !in s
    ensures Unescape(r[1..|r| - 1]) == s
  {
    var q := if '\'' in s && '"' !in s then '"' else '\'';
    UnescapeEscape(s, q);
    [q] + Escape(s, q) + [q]
  }

  function Escape(s: string, q: char): (t: string)
    ensures |t| >= |s|
    decreases |s|
  {
    if s == [] then [] else EscapeChar(s[0], q) + Escape(s[1..], q)
  }

  function EscapeChar(c: char, q: char): string {
    if c == '\\' then "\\\\"
    else if c == q then ['\\', q]
    else if c == '\t' then "\\t"
    else if c == '\n' then "\\n"
    else if c == '\r' then "\\r"
    else if c < ' ' || c == '\U{7F}' then "\\x" + Hex2(c as int)
    else [c]
  }

  /** Two lower-case hex digits, as `\xNN` prints them. */
  function Hex2(n: int): string
    requires 0 <= n < 256
  {
    [HexDigit(n / 16), HexDigit(n % 16)]
  }

  function HexDigit(k: int): (d: char)
    requires 0 <= k < 16
    ensures HexValue(d) == k
  {
    if k < 10 then ('0' as int + k) as char else ('a' as int + k - 10) as char
  }

  function HexValue(d: char): (v: int)
    ensures 0 <= v < 16
  {
    if '0' <= d <= '9' then d as int - '0' as int
    else if 'a' <= d <= 'f' then d as int - 'a' as int + 10
    else 0
  }

  /** Reads the escapes `Escape` writes back into characters, as Python
      reads the body of a string literal. */
  function Unescape(t: string): string
    decreases |t|
  {
    if t == [] then []
    else if t[0] == '\\' && |t| >= 4 && t[1] == 'x' then
      [(16 * HexValue(t[2]) + HexValue(t[3])) as char] + Unescape(t[4..])
    else if t[0] == '\\' && |t| >= 2 then
      [Unescaped(t[1])] + Unescape(t[2..])
    else [t[0]] + Unescape(t[1..])
  }

  function Unescaped(e: char): char {
    if e == 't' then '\t' else if e == 'n' then '\n' else if e == 'r' then '\r' else e
  }

  /** Reading back one escaped character. */
  lemma UnescapeChar(c: char, q: char, rest: string)
    requires q == '\'' || q == '"'
    ensures Unescape(EscapeChar(c, q) + rest) == [c] + Unescape(rest)
  {
    var t := EscapeChar(c, q) + rest;
    if c != '\\' && c != q && c != '\t' && c != '\n' && c != '\r' && (c < ' ' || c == '\U{7F}') {
      var n := c as int;
      assert t[4..] == rest;
      assert 16 * HexValue(t[2]) + HexValue(t[3]) == 16 * (n / 16) + n % 16 == n;
    } else if c == '\\' || c == q || c == '\t' || c == '\n' || c == '\r' {
      assert t[2..] == rest;
    } else {
      assert t[1..] == rest;
    }
  }

  /** Escaping loses nothing: reading the escapes back gives the text. */
  lemma {:induction false} UnescapeEscape(s: string, q: char)
    requires q == '\'' || q == '"'
    ensures Unescape(Escape(s, q)) == s
    decreases |s|
  {
    if s != [] {
      UnescapeEscape(s[1..], q);
      UnescapeChar(s[0], q, Escape(s[1..], q));
    }
  }

  /** Printable ASCII other than quotes and backslash: repr leaves it as it is. */
  predicate Plain(c: char) {
    ' ' <= c <= '~' && c != '\'' && c != '"' && c != '\\'
  }

  lemma {:induction false} EscapePlain(s: string, q: char)
    requires q == '\''
    requires forall i :: 0 <= i < |s| ==> Plain(s[i])
    ensures Escape(s, q) == s
    decreases |s|
  {
    if s != [] {
      EscapePlain(s[1..], q);
    }
  }

  lemma ReprPlain(s: string)
    requires forall i :: 0 <= i < |s| ==> Plain(s[i])
    ensures Repr(s) == "'" + s + "'"
  {
    assert '\'' !in s;
    EscapePlain(s, '\'');
  }
}
