/** Connection names: sanitizing and the pattern ^[a-z0-9][a-z0-9_-]*$. */
module Names {

  predicate IsAlnum(c: char) {
    'a' <= c <= 'z' || '0' <= c <= '9'
  }

  predicate IsNameChar(c: char) {
    IsAlnum(c) || c == '-' || c == '_'
  }

  predicate MatchesPattern(s: string) {
    s != [] && IsAlnum(s[0]) && forall c :: c in s ==> IsNameChar(c)
  }

  /** unicode.ToLower, as far as sanitizing can see it: the two non-ASCII capitals whose lower case is
      an ASCII letter are the Kelvin sign and the dotted capital I. Any other non-ASCII letter stays
      non-ASCII and ends up as a dash. */
  function Lower(c: char): char {
    if 'A' <= c <= 'Z' then (c as int + 32) as char
    else if c == '\U{212A}' then 'k'
    else if c == '\U{0130}' then 'i'
    else c
  }

  /** unicode.IsSpace */
  predicate IsSpace(c: char) {
    '\t' <= c <= '\r' || c == ' ' || c == '\U{0085}' || c == '\U{00A0}' || c == '\U{1680}'
    || '\U{2000}' <= c <= '\U{200A}' || c == '\U{2028}' || c == '\U{2029}' || c == '\U{202F}'
    || c == '\U{205F}' || c == '\U{3000}'
  }

  predicate IsEdge(c: char) {
    c == '-' || c == '_'
  }

  function Clean(c: char): char {
    if IsNameChar(Lower(c)) then Lower(c) else '-'
  }

  function TrimLeft(s: string, cut: char -> bool): string {
    if s != [] && cut(s[0]) then TrimLeft(s[1..], cut) else s
  }

  function TrimRight(s: string, cut: char -> bool): string {
    if s != [] && cut(s[|s|-1]) then TrimRight(s[..|s|-1], cut) else s
  }

  function Trim(s: string, cut: char -> bool): string {
    TrimRight(TrimLeft(s, cut), cut)
  }

  function CleanAll(s: string): (r: string)
    ensures |r| == |s| && forall i :: 0 <= i < |s| ==> r[i] == Clean(s[i])
  {
    seq(|s|, i requires 0 <= i < |s| => Clean(s[i]))
  }

  function Sanitize(name: string): string {
    Trim(CleanAll(Trim(name, IsSpace)), IsEdge)
  }

  /** sanitizeConnectionName: one rune at a time into a buffer, then trimmed. */
  method SanitizeConnectionName(name: string) returns (r: string)
    ensures r == Sanitize(name)
    ensures r == "" || MatchesPattern(r)
  {
    var trimmed := Trim(name, IsSpace);
    var b := "";
    for i := 0 to |trimmed|
      invariant b == CleanAll(trimmed[..i])
    {
      var c := Lower(trimmed[i]);
      b := b + [if IsNameChar(c) then c else '-'];
    }
    assert trimmed[..|trimmed|] == trimmed;
    r := Trim(b, IsEdge);
    SanitizedMatches(name);
  }

  // ----- Laws -----

  lemma {:induction false} TrimLeftIs(s: string, cut: char -> bool)
    ensures exists k :: 0 <= k <= |s| && TrimLeft(s, cut) == s[k..] && (forall i :: 0 <= i < k ==> cut(s[i]))
    ensures var r := TrimLeft(s, cut); r == [] || !cut(r[0])
  {
    if s != [] && cut(s[0]) {
      TrimLeftIs(s[1..], cut);
      var k :| 0 <= k <= |s| - 1 && TrimLeft(s[1..], cut) == s[1..][k..] && forall i :: 0 <= i < k ==> cut(s[1..][i]);
      assert s[1..][k..] == s[k+1..];
      assert forall i :: 0 <= i < k + 1 ==> cut(s[i]) by {
        assert forall i :: 1 <= i < k + 1 ==> s[i] == s[1..][i-1];
      }
    } else {
      assert s[0..] == s;
    }
  }

  lemma {:induction false} TrimRightIs(s: string, cut: char -> bool)
    ensures TrimRight(s, cut) <= s
    ensures var r := TrimRight(s, cut); r == [] || !cut(r[|r|-1])
  {
    if s != [] && cut(s[|s|-1]) {
      TrimRightIs(s[..|s|-1], cut);
    }
  }

  /** Every sanitized name is empty or matches the connection-name pattern, and neither end is a dash or underscore. */
  lemma SanitizedMatches(name: string)
    ensures var r := Sanitize(name);
            r == "" || (MatchesPattern(r) && !IsEdge(r[|r|-1]))
  {
    var c := CleanAll(Trim(name, IsSpace));
    var l := TrimLeft(c, IsEdge);
    TrimLeftIs(c, IsEdge);
    TrimRightIs(l, IsEdge);
  }

  predicate IsClean(s: string) {
    s == "" || (MatchesPattern(s) && !IsEdge(s[|s|-1]))
  }

  /** The fixed points of sanitizing are exactly the clean names; in particular sanitizing is idempotent. */
  lemma SanitizeFixedPoints(s: string)
    ensures Sanitize(s) == s <==> IsClean(s)
    ensures Sanitize(Sanitize(s)) == Sanitize(s)
  {
    SanitizedMatches(s);
    if IsClean(s) {
      CleanIsFixed(s);
    }
    CleanIsFixed(Sanitize(s));
  }

  lemma NameCharIsClean(c: char)
    requires IsNameChar(c)
    ensures Clean(c) == c
  {}

  lemma CleanIsFixed(s: string)
    requires IsClean(s)
    ensures Sanitize(s) == s
  {
    if s != "" {
      assert s[0] in s && s[|s|-1] in s;
      assert Trim(s, IsSpace) == s;
      forall i | 0 <= i < |s| ensures Clean(s[i]) == s[i] {
        assert s[i] in s;
        NameCharIsClean(s[i]);
      }
      assert CleanAll(s) == s;
    }
  }

  // ----- What becomes of other characters -----

  /** t is s with some ASCII capitals replaced by their small letters. */
  predicate Folded(s: string, t: string) {
    |s| == |t| && forall i :: 0 <= i < |s| ==> s[i] == t[i] || ('A' <= s[i] <= 'Z' && t[i] as int == s[i] as int + 32)
  }

  lemma {:induction false} TrimLeftFolded(s: string, t: string)
    requires Folded(s, t)
    ensures Folded(TrimLeft(s, IsSpace), TrimLeft(t, IsSpace))
  {
    if s != [] && IsSpace(s[0]) {
      TrimLeftFolded(s[1..], t[1..]);
    }
  }

  lemma {:induction false} TrimRightFolded(s: string, t: string)
    requires Folded(s, t)
    ensures Folded(TrimRight(s, IsSpace), TrimRight(t, IsSpace))
  {
    if s != [] && IsSpace(s[|s|-1]) {
      TrimRightFolded(s[..|s|-1], t[..|t|-1]);
    }
  }

  lemma FoldedClean(s: string, t: string)
    requires Folded(s, t)
    ensures CleanAll(s) == CleanAll(t)
  {
    forall i | 0 <= i < |s| ensures Clean(s[i]) == Clean(t[i]) {
      assert s[i] == t[i] || ('A' <= s[i] <= 'Z' && t[i] as int == s[i] as int + 32);
    }
  }

  /** Spellings that differ only in the case of letters are the same name; a clean name in capitals is that name. */
  lemma SanitizeFoldsCase(s: string, t: string)
    requires Folded(s, t)
    ensures Sanitize(s) == Sanitize(t) && (IsClean(t) ==> Sanitize(s) == t)
  {
    TrimLeftFolded(s, t);
    TrimRightFolded(TrimLeft(s, IsSpace), TrimLeft(t, IsSpace));
    FoldedClean(Trim(s, IsSpace), Trim(t, IsSpace));
    SanitizeFixedPoints(t);
  }

  /** Not a letter, a digit, a dash or an underscore, nor one of the two other characters that fold to a letter. */
  predicate IsSeparator(c: char) {
    && !('a' <= c <= 'z') && !('A' <= c <= 'Z') && !('0' <= c <= '9')
    && c != '-' && c != '_' && c != '\U{212A}' && c != '\U{0130}'
  }

  /** Any other character inside a name becomes a dash. */
  lemma SeparatorBecomesDash(x: string, c: char, y: string)
    requires IsClean(x) && IsClean(y) && x != "" && y != "" && IsSeparator(c)
    ensures Sanitize(x + [c] + y) == x + ['-'] + y
  {
    var s, d := x + [c] + y, x + ['-'] + y;
    assert x[0] in x && y[|y|-1] in y;
    assert s[0] == x[0] && s[|s|-1] == y[|y|-1] && d[0] == x[0] && d[|d|-1] == y[|y|-1];
    assert Trim(s, IsSpace) == s;
    forall i | 0 <= i < |s| ensures Clean(s[i]) == d[i] {
      if i < |x| {
        assert x[i] in x;
        NameCharIsClean(x[i]);
      } else if i > |x| {
        assert s[i] == y[i-|x|-1] && y[i-|x|-1] in y;
        NameCharIsClean(s[i]);
      }
    }
    assert CleanAll(s) == d;
  }
}
