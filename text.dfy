/** String primitives of JavaScript that the application relies on:
    the whitespace class, `String.prototype.trim` and `indexOf`. */
module Text {
  import opened Wrappers

  /** The ECMAScript WhiteSpace and LineTerminator code points: exactly what
      the regular-expression class `\s` matches and what `trim` removes. */
  predicate IsJsSpace(c: char) {
    if c <= ' ' then ('\t' <= c <= '\r') || c == ' '
    else if c < '\U{00A0}' then false
    else
      || c == '\U{00A0}' || c == '\U{1680}' || ('\U{2000}' <= c <= '\U{200A}')
      || c == '\U{2028}' || c == '\U{2029}' || c == '\U{202F}' || c == '\U{205F}'
      || c == '\U{3000}' || c == '\U{FEFF}'
  }

  /** Every character of `s` is whitespace (the empty string included). */
  predicate IsBlank(s: string) {
    forall i :: 0 <= i < |s| ==> IsJsSpace(s[i])
  }

  /** The index of the first non-whitespace character at or after `i`, or
      `|s|`. */
  function SkipSpaces(s: string, i: nat): (k: nat)
    requires i <= |s|
    ensures i <= k <= |s|
    ensures k < |s| ==> !IsJsSpace(s[k])
    ensures forall j :: i <= j < k ==> IsJsSpace(s[j])
    decreases |s| - i
  {
    if i < |s| && IsJsSpace(s[i]) then SkipSpaces(s, i + 1) else i
  }

  /** The index just after the last non-whitespace character before `k`,
      or 0. */
  function SkipSpacesBack(s: string, k: nat): (n: nat)
    requires k <= |s|
    ensures n <= k
    ensures n > 0 ==> !IsJsSpace(s[n - 1])
    ensures forall j :: n <= j < k ==> IsJsSpace(s[j])
  {
    if k > 0 && IsJsSpace(s[k - 1]) then SkipSpacesBack(s, k - 1) else k
  }

  /** `s` without its leading whitespace. */
  function TrimStart(s: string): string {
    s[SkipSpaces(s, 0)..]
  }

  /** `s` without its trailing whitespace. */
  function TrimEnd(s: string): string {
    s[..SkipSpacesBack(s, |s|)]
  }

  /** `s.trim()`. */
  function Trim(s: string): string {
    TrimEnd(TrimStart(s))
  }

  /** The guard `if (!s.trim())` of the chat box and the image editor holds
      exactly for the strings made only of whitespace. */
  lemma TrimEmptyIffBlank(s: string)
    ensures Trim(s) == "" <==> IsBlank(s)
  {
    var k := SkipSpaces(s, 0);
    var t := s[k..];
    var n := SkipSpacesBack(t, |t|);
    if k < |s| {
      assert t[0] == s[k];
      assert n > 0;
      assert !IsBlank(s);
    }
  }

  /** `p` occurs in `s` starting at index `j`. */
  predicate OccursAt(s: string, p: string, j: nat) {
    j + |p| <= |s| && s[j..j + |p|] == p
  }

  predicate StartsWith(s: string, p: string) {
    OccursAt(s, p, 0)
  }

  /** One mismatching character rules out an occurrence. */
  lemma NotOccursAtByChar(s: string, p: string, j: nat, k: nat)
    requires k < |p| && j + k < |s| && s[j + k] != p[k]
    ensures !OccursAt(s, p, j)
  {
    if j + |p| <= |s| {
      assert s[j..j + |p|][k] == s[j + k];
    }
  }

  /** `p[k..]` occurs in `s` at `i + k`, compared one character at a
      time. */
  predicate MatchesFrom(s: string, i: nat, p: string, k: nat)
    decreases |p| - k
  {
    k >= |p| || (i + k < |s| && s[i + k] == p[k] && MatchesFrom(s, i, p, k + 1))
  }

  lemma {:induction false} MatchesFromChars(s: string, i: nat, p: string, k: nat)
    requires k < |p|
    ensures MatchesFrom(s, i, p, k) <==> i + |p| <= |s| && forall m :: k <= m < |p| ==> s[i + m] == p[m]
    decreases |p| - k
  {
    if k + 1 < |p| {
      MatchesFromChars(s, i, p, k + 1);
    }
  }

  /** The character-wise comparison decides whether `p` occurs at `i`. */
  lemma MatchesFromIsOccurs(s: string, i: nat, p: string)
    requires p != [] || i <= |s|
    ensures MatchesFrom(s, i, p, 0) <==> OccursAt(s, p, i)
  {
    if p != [] {
      MatchesFromChars(s, i, p, 0);
      if i + |p| <= |s| {
        var t := s[i..i + |p|];
        assert forall m :: 0 <= m < |p| ==> t[m] == s[i + m];
      }
    }
  }

  /** `s.indexOf(p, i)`: the leftmost occurrence of `p` at or after `i`. */
  function IndexOf(s: string, p: string, i: nat): (r: Option<nat>)
    requires i <= |s|
    ensures r.Some? ==> i <= r.value && OccursAt(s, p, r.value)
    ensures r.Some? ==> forall j :: i <= j < r.value ==> !OccursAt(s, p, j)
    ensures r.None? ==> forall j :: i <= j <= |s| ==> !OccursAt(s, p, j)
    decreases |s| - i
  {
    MatchesFromIsOccurs(s, i, p);
    if MatchesFrom(s, i, p, 0) then Some(i)
    else if i == |s| then None
    else IndexOf(s, p, i + 1)
  }

  /** `s.replace(p, rep)` with a string pattern: only the first occurrence
      of `p` is replaced. */
  function ReplaceFirst(s: string, p: string, rep: string): string {
    match IndexOf(s, p, 0)
    case None => s
    case Some(i) => s[..i] + rep + s[i + |p|..]
  }

  /** The index of the first `c` at or after `i`, or `|s|`. */
  function FindChar(s: string, c: char, i: nat): (k: nat)
    requires i <= |s|
    ensures i <= k <= |s|
    ensures k < |s| ==> s[k] == c
    ensures forall j :: i <= j < k ==> s[j] != c
    decreases |s| - i
  {
    if i == |s| || s[i] == c then i else FindChar(s, c, i + 1)
  }

  /** `s.split(sep)[0]`: the text before the first occurrence of `sep`,
      or the whole string. */
  function BeforeFirst(s: string, sep: char): (r: string)
    ensures StartsWith(s, r)
    ensures sep !in r
    ensures |r| < |s| ==> s[|r|] == sep
  {
    s[..FindChar(s, sep, 0)]
  }

  /** The three properties of `BeforeFirst` determine it. */
  lemma BeforeFirstUnique(s: string, sep: char, r: string)
    requires StartsWith(s, r) && sep !in r && (|r| < |s| ==> s[|r|] == sep)
    ensures BeforeFirst(s, sep) == r
  {
    var q := BeforeFirst(s, sep);
    assert |q| == |r|;
    assert q == s[..|q|];
  }

  /** The text before the first separator is the part in front of it. */
  lemma BeforeFirstOfLabel(first: string, sep: char, rest: string)
    requires sep !in first
    ensures BeforeFirst(first + [sep] + rest, sep) == first
  {
    var s := first + [sep] + rest;
    assert s[..|first|] == first;
    BeforeFirstUnique(s, sep, first);
  }

  /** `c.toUpperCase()` on one character, for the ASCII letters. */
  function UpperAscii(c: char): (u: char)
    ensures 'a' <= c <= 'z' ==> u as int == c as int - 32
    ensures !('a' <= c <= 'z') ==> u == c
  {
    if 'a' <= c <= 'z' then (c as int - 32) as char else c
  }

  /** `s.charAt(0).toUpperCase() + s.slice(1)`. */
  function Capitalize(s: string): (r: string)
    ensures |r| == |s|
    ensures s != [] ==> r[0] == UpperAscii(s[0]) && r[1..] == s[1..]
  {
    if s == [] then [] else [UpperAscii(s[0])] + s[1..]
  }
}
