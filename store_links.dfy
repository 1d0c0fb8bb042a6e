/** `findStoresForItem` after its remote call: the candidate URLs are the
    matches of `/https?:\/\/[^\s)]+/g` in the answer text followed by the
    grounding-citation URIs; they are deduplicated in discovery order, cut to
    the first three and turned into stores named after their host. */
module StoreLinks {
  import opened Wrappers
  import opened Text
  import opened Types

  const HttpPrefix: string := "http://"
  const HttpsPrefix: string := "https://"

  /** `uniqueUrls.slice(0, 3)`. */
  const MaxStores: nat := 3

  // ---------------------------------------------------------------------
  // The regular expression /https?:\/\/[^\s)]+/g

  /** A character of the class `[^\s)]`. */
  predicate IsUrlChar(c: char) {
    !IsJsSpace(c) && c != ')'
  }

  /** A string the regular expression matches as a whole: a scheme prefix,
      then at least one character, and no whitespace or `)` anywhere. */
  predicate IsUrlToken(t: string) {
    && ((StartsWith(t, HttpsPrefix) && |t| > |HttpsPrefix|) || (StartsWith(t, HttpPrefix) && |t| > |HttpPrefix|))
    && forall k :: 0 <= k < |t| ==> IsUrlChar(t[k])
  }

  lemma PrefixCharsAreUrlChars()
    ensures forall k :: 0 <= k < |HttpsPrefix| ==> IsUrlChar(HttpsPrefix[k])
    ensures forall k :: 0 <= k < |HttpPrefix| ==> IsUrlChar(HttpPrefix[k])
  {
  }

  /** The end of the longest run of URL characters starting at `j`: the
      greedy `[^\s)]*`. */
  function RunEnd(s: string, j: nat): (k: nat)
    requires j <= |s|
    ensures j <= k <= |s|
    ensures forall m :: j <= m < k ==> IsUrlChar(s[m])
    ensures k < |s| ==> !IsUrlChar(s[k])
    decreases |s| - j
  {
    if j < |s| && IsUrlChar(s[j]) then RunEnd(s, j + 1) else j
  }

  /** The length of the match of `https?:\/\/` at `i`, or 0. The greedy
      `s?` is tried first; without it the character after `http` would have
      to be `:`. */
  function SchemeLength(s: string, i: nat): nat {
    if MatchesFrom(s, i, HttpsPrefix, 0) then |HttpsPrefix| else if MatchesFrom(s, i, HttpPrefix, 0) then |HttpPrefix| else 0
  }

  /** The scheme matched is `https://` (length 8) or `http://` (length 7). */
  lemma SchemeLengthIsPrefix(s: string, i: nat)
    ensures SchemeLength(s, i) == 0 || SchemeLength(s, i) == |HttpsPrefix| || SchemeLength(s, i) == |HttpPrefix|
    ensures SchemeLength(s, i) == |HttpsPrefix| <==> OccursAt(s, HttpsPrefix, i)
    ensures SchemeLength(s, i) == |HttpPrefix| <==> OccursAt(s, HttpPrefix, i)
  {
    MatchesFromIsOccurs(s, i, HttpsPrefix);
    MatchesFromIsOccurs(s, i, HttpPrefix);
    if OccursAt(s, HttpsPrefix, i) {
      assert s[i + 4] == 's' by {
        assert s[i..i + |HttpsPrefix|][4] == s[i + 4];
      }
      NotOccursAtByChar(s, HttpPrefix, i, 4);
    }
  }

  /** The length of the match anchored at `i` (greedy `s?`, greedy `+`),
      or 0 when the expression does not match there. */
  function MatchLength(s: string, i: nat): (n: nat)
    requires i <= |s|
    ensures i + n <= |s|
  {
    SchemeLengthIsPrefix(s, i);
    var k := SchemeLength(s, i);
    if k > 0 && RunEnd(s, i + k) > i + k then RunEnd(s, i + k) - i else 0
  }

  /** A scheme prefix followed by a non-empty run of URL characters is a
      token. */
  lemma MatchIsToken(s: string, i: nat, pre: string, e: nat)
    requires pre == HttpsPrefix || pre == HttpPrefix
    requires OccursAt(s, pre, i) && i + |pre| < e <= |s|
    requires forall k :: i + |pre| <= k < e ==> IsUrlChar(s[k])
    ensures IsUrlToken(s[i..e])
  {
    var t := s[i..e];
    assert t[..|pre|] == pre;
    PrefixCharsAreUrlChars();
    forall k | 0 <= k < |t| ensures IsUrlChar(t[k]) {
      if k < |pre| {
        assert t[k] == pre[k];
      } else {
        assert t[k] == s[i + k];
      }
    }
  }

  /** A match is a URL token and is maximal: it ends before a character
      outside the class, or at the end of the text. */
  lemma MatchLengthIsToken(s: string, i: nat)
    requires i <= |s|
    ensures MatchLength(s, i) > 0 ==> IsUrlToken(s[i..i + MatchLength(s, i)])
    ensures MatchLength(s, i) > 0 && i + MatchLength(s, i) < |s| ==> !IsUrlChar(s[i + MatchLength(s, i)])
  {
    var k := SchemeLength(s, i);
    SchemeLengthIsPrefix(s, i);
    var e := i + MatchLength(s, i);
    if e > i {
      assert e == RunEnd(s, i + k);
      if k == |HttpsPrefix| {
        MatchIsToken(s, i, HttpsPrefix, e);
      } else {
        MatchIsToken(s, i, HttpPrefix, e);
      }
    }
  }

  /** A run of URL characters from `j` to `e` lies within the greedy run
      that starts at `j`. */
  lemma {:induction false} RunEndReaches(s: string, j: nat, e: nat)
    requires j <= e <= |s|
    requires forall m :: j <= m < e ==> IsUrlChar(s[m])
    ensures RunEnd(s, j) >= e
    decreases e - j
  {
    if j < e {
      RunEndReaches(s, j + 1, e);
    }
  }

  /** Conversely to `MatchLengthIsToken`: where a URL token starts, the
      anchored match is non-empty and reaches at least the token's end. */
  lemma TokenMatchLength(s: string, i: nat, e: nat)
    requires i < e <= |s| && IsUrlToken(s[i..e])
    ensures MatchLength(s, i) >= e - i
  {
    var t := s[i..e];
    SchemeLengthIsPrefix(s, i);
    forall m | i <= m < e ensures IsUrlChar(s[m]) {
      assert t[m - i] == s[m];
    }
    if StartsWith(t, HttpsPrefix) && |t| > |HttpsPrefix| {
      assert s[i..i + |HttpsPrefix|] == t[..|HttpsPrefix|];
      RunEndReaches(s, i + |HttpsPrefix|, e);
    } else {
      assert s[i..i + |HttpPrefix|] == t[..|HttpPrefix|];
      assert s[i + 4] == t[4] == ':';
      NotOccursAtByChar(s, HttpsPrefix, i, 4);
      RunEndReaches(s, i + |HttpPrefix|, e);
    }
  }

  /** The length of the match anchored at each position of `s` from `i`
      on. */
  function MatchLengthsFrom(s: string, i: nat): (l: seq<nat>)
    requires i <= |s|
    ensures |l| == |s| - i
    decreases |s| - i
  {
    if i == |s| then [] else [MatchLength(s, i)] + MatchLengthsFrom(s, i + 1)
  }

  lemma {:induction false} MatchLengthsFromAt(s: string, i: nat, k: nat)
    requires i <= k < |s|
    ensures MatchLengthsFrom(s, i)[k - i] == MatchLength(s, k)
    decreases k - i
  {
    if i < k {
      MatchLengthsFromAt(s, i + 1, k);
    }
  }

  /** The length of the match anchored at each position of `s`. */
  function MatchLengths(s: string): (l: seq<nat>)
    ensures |l| == |s|
  {
    MatchLengthsFrom(s, 0)
  }

  /** A table entry the scan can take: a non-empty match that fits in the
      text. */
  predicate IsHit(lens: seq<nat>, i: nat)
    requires i < |lens|
  {
    0 < lens[i] && i + lens[i] <= |lens|
  }

  /** The positions of the matches the global scan finds from `i` on, given
      the match length at every position: after a match the scan resumes
      at the end of the match (`lastIndex`), otherwise one character
      further. */
  function Starts(lens: seq<nat>, i: nat): (ps: seq<nat>)
    requires i <= |lens|
    ensures forall k :: 0 <= k < |ps| ==> i <= ps[k] < |lens| && IsHit(lens, ps[k])
    decreases |lens| - i
  {
    if i == |lens| then []
    else if IsHit(lens, i) then [i] + Starts(lens, i + lens[i])
    else Starts(lens, i + 1)
  }

  /** Each match ends at or before the start of the next one. */
  lemma {:induction false} StartsOrdered(lens: seq<nat>, i: nat)
    requires i <= |lens|
    ensures forall k :: 0 <= k < |Starts(lens, i)| - 1 ==>
      Starts(lens, i)[k] + lens[Starts(lens, i)[k]] <= Starts(lens, i)[k + 1]
    decreases |lens| - i
  {
    if i < |lens| {
      if IsHit(lens, i) {
        StartsOrdered(lens, i + lens[i]);
      } else {
        StartsOrdered(lens, i + 1);
      }
    }
  }

  /** `q` lies within the match beginning at one of `ps`. */
  predicate Covered(lens: seq<nat>, ps: seq<nat>, q: nat) {
    exists k :: 0 <= k < |ps| && ps[k] < |lens| && ps[k] <= q < ps[k] + lens[ps[k]]
  }

  /** No match is missed: every hit at or after `i` lies within a match
      the scan finds. */
  lemma {:induction false} StartsCover(lens: seq<nat>, i: nat, q: nat)
    requires i <= q < |lens| && IsHit(lens, q)
    ensures Covered(lens, Starts(lens, i), q)
    decreases |lens| - i
  {
    if IsHit(lens, i) {
      var rest := Starts(lens, i + lens[i]);
      var ps := [i] + rest;
      assert Starts(lens, i) == ps;
      if q < i + lens[i] {
        assert ps[0] == i;
      } else {
        StartsCover(lens, i + lens[i], q);
        var k :| 0 <= k < |rest| && rest[k] < |lens| && rest[k] <= q < rest[k] + lens[rest[k]];
        assert ps[k + 1] == rest[k];
      }
    } else {
      StartsCover(lens, i + 1, q);
    }
  }

  /** The positions in `text` of the matches of the URL expression. */
  function UrlMatchStarts(text: string): seq<nat> {
    Starts(MatchLengths(text), 0)
  }

  /** `text.match(urlRegex) || []`: the matches, in the order the scan
      finds them. */
  function UrlMatches(text: string): (ms: seq<string>)
    ensures |ms| == |UrlMatchStarts(text)|
  {
    var l := MatchLengths(text);
    var ps := Starts(l, 0);
    seq(|ps|, k requires 0 <= k < |ps| => text[ps[k]..ps[k] + l[ps[k]]])
  }

  /** The match number `k` is a URL token found in the text at its start,
      and it runs up to whitespace, `)` or the end of the text. */
  lemma UrlMatchAt(text: string, k: nat)
    requires k < |UrlMatches(text)|
    ensures IsUrlToken(UrlMatches(text)[k])
    ensures OccursAt(text, UrlMatches(text)[k], UrlMatchStarts(text)[k])
    ensures UrlMatchStarts(text)[k] + |UrlMatches(text)[k]| < |text| ==>
      !IsUrlChar(text[UrlMatchStarts(text)[k] + |UrlMatches(text)[k]|])
  {
    var p := UrlMatchStarts(text)[k];
    MatchLengthsFromAt(text, 0, p);
    assert UrlMatches(text)[k] == text[p..p + MatchLength(text, p)];
    MatchLengthIsToken(text, p);
  }

  /** Every match is a maximal URL token of the text. */
  lemma UrlMatchesAreTokens(text: string)
    ensures forall k :: 0 <= k < |UrlMatches(text)| ==>
      && IsUrlToken(UrlMatches(text)[k])
      && OccursAt(text, UrlMatches(text)[k], UrlMatchStarts(text)[k])
      && (UrlMatchStarts(text)[k] + |UrlMatches(text)[k]| < |text| ==>
          !IsUrlChar(text[UrlMatchStarts(text)[k] + |UrlMatches(text)[k]|]))
  {
    forall k | 0 <= k < |UrlMatches(text)|
      ensures && IsUrlToken(UrlMatches(text)[k])
              && OccursAt(text, UrlMatches(text)[k], UrlMatchStarts(text)[k])
              && (UrlMatchStarts(text)[k] + |UrlMatches(text)[k]| < |text| ==>
                  !IsUrlChar(text[UrlMatchStarts(text)[k] + |UrlMatches(text)[k]|]))
    {
      UrlMatchAt(text, k);
    }
  }

  /** The matches come in text order and do not overlap. */
  lemma UrlMatchesInTextOrder(text: string)
    ensures forall k :: 0 <= k < |UrlMatches(text)| - 1 ==>
      UrlMatchStarts(text)[k] + |UrlMatches(text)[k]| <= UrlMatchStarts(text)[k + 1]
  {
    StartsOrdered(MatchLengths(text), 0);
  }

  /** The match number `k` spans the table entry at its start. */
  lemma UrlMatchSpan(text: string, k: nat)
    requires k < |UrlMatches(text)|
    ensures UrlMatchStarts(text)[k] < |text|
    ensures |UrlMatches(text)[k]| == MatchLengths(text)[UrlMatchStarts(text)[k]]
  {
  }

  /** A hit of the table lies within one of the matches found. */
  lemma HitIsCovered(text: string, q: nat)
    requires q < |text| && IsHit(MatchLengths(text), q)
    ensures exists k ::
      0 <= k < |UrlMatches(text)| && UrlMatchStarts(text)[k] <= q < UrlMatchStarts(text)[k] + |UrlMatches(text)[k]|
  {
    var l := MatchLengths(text);
    StartsCover(l, 0, q);
    var ps := UrlMatchStarts(text);
    var k :| 0 <= k < |ps| && ps[k] < |l| && ps[k] <= q < ps[k] + l[ps[k]];
    UrlMatchSpan(text, k);
  }

  /** A match that begins at or before a URL token and reaches into it
      runs to the token's end: it stops only at whitespace, `)` or the end
      of the text. */
  lemma MatchSpansToken(text: string, k: nat, q: nat, e: nat)
    requires k < |UrlMatches(text)| && q < e <= |text| && IsUrlToken(text[q..e])
    requires UrlMatchStarts(text)[k] <= q < UrlMatchStarts(text)[k] + |UrlMatches(text)[k]|
    ensures e <= UrlMatchStarts(text)[k] + |UrlMatches(text)[k]|
  {
    UrlMatchAt(text, k);
  }

  /** No URL is missed: every URL token of the text lies within one of
      the matches found, from its start to its end. */
  lemma UrlMatchesComplete(text: string, q: nat, e: nat)
    requires q < e <= |text| && IsUrlToken(text[q..e])
    ensures exists k ::
      && 0 <= k < |UrlMatches(text)|
      && UrlMatchStarts(text)[k] <= q
      && e <= UrlMatchStarts(text)[k] + |UrlMatches(text)[k]|
  {
    TokenMatchLength(text, q, e);
    MatchLengthsFromAt(text, 0, q);
    HitIsCovered(text, q);
    var k :| 0 <= k < |UrlMatches(text)| && UrlMatchStarts(text)[k] <= q < UrlMatchStarts(text)[k] + |UrlMatches(text)[k]|;
    MatchSpansToken(text, k, q, e);
  }

  /** A URL token is matched whole, as the one match. */
  lemma UrlMatchesOfToken(t: string)
    requires IsUrlToken(t)
    ensures UrlMatches(t) == [t]
  {
    SchemeLengthIsPrefix(t, 0);
    var l := MatchLengths(t);
    MatchLengthsFromAt(t, 0, 0);
    assert l[0] == |t|;
    assert Starts(l, 0) == [0] + Starts(l, |t|);
    assert t[0..|t|] == t;
  }

  // ---------------------------------------------------------------------
  // Grounding citations

  /** The value found at `chunk.web?.uri` or `chunk.maps?.uri`. */
  datatype UriField = Missing | StringUri(uri: string) | NonStringUri

  datatype GroundingChunk = GroundingChunk(web: UriField, maps: UriField)

  datatype SearchCandidate = SearchCandidate(groundingChunks: Option<seq<GroundingChunk>>)

  /** The answer of the grounded search call: its `text` and its
      `candidates`. */
  datatype SearchResponse = SearchResponse(text: string, candidates: seq<SearchCandidate>)

  /** `uri && typeof uri === 'string'`: a string, and not the empty one. */
  predicate IsPushed(f: UriField) {
    f.StringUri? && f.uri != ""
  }

  /** What one chunk contributes: its web URI, then its maps URI. */
  function ChunkUris(c: GroundingChunk): seq<string> {
    (if IsPushed(c.web) then [c.web.uri] else []) + (if IsPushed(c.maps) then [c.maps.uri] else [])
  }

  /** The URIs pushed by the `groundingChunks.forEach` loop, in chunk order. */
  function GroundingUris(cs: seq<GroundingChunk>): seq<string> {
    if cs == [] then [] else GroundingUris(cs[..|cs| - 1]) + ChunkUris(cs[|cs| - 1])
  }

  /** The contribution of a list of chunks is the contributions of its parts
      in order. */
  lemma {:induction false} GroundingUrisAppend(a: seq<GroundingChunk>, b: seq<GroundingChunk>)
    ensures GroundingUris(a + b) == GroundingUris(a) + GroundingUris(b)
    decreases |b|
  {
    if b != [] {
      assert (a + b)[..|a + b| - 1] == a + b[..|b| - 1];
      GroundingUrisAppend(a, b[..|b| - 1]);
    } else {
      assert a + b == a;
    }
  }

  /** `c` carries `u` as a pushed `web` or `maps` URI. */
  predicate Carries(c: GroundingChunk, u: string) {
    (IsPushed(c.web) && c.web.uri == u) || (IsPushed(c.maps) && c.maps.uri == u)
  }

  /** A URI is contributed exactly when some chunk carries it as a non-empty
      string in its `web` or its `maps` entry. */
  lemma {:induction false} GroundingUrisMembers(cs: seq<GroundingChunk>, u: string)
    ensures u in GroundingUris(cs) <==> exists k :: 0 <= k < |cs| && Carries(cs[k], u)
    decreases |cs|
  {
    if cs != [] {
      var init := cs[..|cs| - 1];
      var last := cs[|cs| - 1];
      GroundingUrisMembers(init, u);
      assert u in ChunkUris(last) <==> Carries(last, u);
      if u in GroundingUris(init) {
        var k :| 0 <= k < |init| && Carries(init[k], u);
        assert cs[k] == init[k];
      } else if Carries(last, u) {
        assert Carries(cs[|cs| - 1], u);
      } else {
        forall k | 0 <= k < |cs| ensures !Carries(cs[k], u) {
          if k < |init| {
            assert cs[k] == init[k];
          }
        }
      }
    }
  }

  /** `response.candidates?.[0]?.groundingMetadata?.groundingChunks || []`. */
  function ChunksOf(r: SearchResponse): seq<GroundingChunk> {
    if |r.candidates| > 0 && r.candidates[0].groundingChunks.Some? then r.candidates[0].groundingChunks.value else []
  }

  /** The `urls` array once both sources have been pushed. */
  function Candidates(r: SearchResponse): seq<string> {
    UrlMatches(r.text) + GroundingUris(ChunksOf(r))
  }

  /** A string is a candidate exactly when it is a match of the URL
      expression in the answer text or a URI that a grounding chunk of the
      first candidate carries. */
  lemma CandidatesMembers(r: SearchResponse, u: string)
    ensures u in Candidates(r) <==>
      u in UrlMatches(r.text) || exists k :: 0 <= k < |ChunksOf(r)| && Carries(ChunksOf(r)[k], u)
  {
    GroundingUrisMembers(ChunksOf(r), u);
  }

  // ---------------------------------------------------------------------
  // `[...new Set(urls)]`

  predicate Distinct<T(==)>(xs: seq<T>) {
    forall i, j :: 0 <= i < j < |xs| ==> xs[i] != xs[j]
  }

  /** The elements of `xs` in insertion order of a `Set`: each element at the
      position of its first occurrence. */
  function Dedup<T(==)>(xs: seq<T>): seq<T> {
    if xs == [] then []
    else
      var init := xs[..|xs| - 1];
      if xs[|xs| - 1] in init then Dedup(init) else Dedup(init) + [xs[|xs| - 1]]
  }

  /** The index of the first occurrence of `x` in `xs`. */
  function FirstIndex<T(==)>(xs: seq<T>, x: T): (i: nat)
    requires x in xs
    ensures i < |xs| && xs[i] == x && x !in xs[..i]
  {
    if xs[0] == x then 0 else
      assert xs == [xs[0]] + xs[1..];
      1 + FirstIndex(xs[1..], x)
  }

  lemma FirstIndexInPrefix<T>(xs: seq<T>, n: nat, x: T)
    requires n <= |xs| && x in xs[..n]
    ensures x in xs && FirstIndex(xs, x) == FirstIndex(xs[..n], x)
  {
    var i := FirstIndex(xs[..n], x);
    assert xs[..n][..i] == xs[..i];
  }

  /** Deduplication neither loses nor invents elements. */
  lemma {:induction false} DedupElements<T>(xs: seq<T>, x: T)
    ensures x in Dedup(xs) <==> x in xs
  {
    if xs != [] {
      var init := xs[..|xs| - 1];
      DedupElements(init, x);
      assert xs == init + [xs[|xs| - 1]];
    }
  }

  /** No element survives twice. */
  lemma {:induction false} DedupDistinct<T>(xs: seq<T>)
    ensures Distinct(Dedup(xs))
  {
    if xs != [] {
      var init := xs[..|xs| - 1];
      DedupDistinct(init);
      DedupElements(init, xs[|xs| - 1]);
    }
  }

  /** The survivors are ordered by their first occurrence in the input. */
  lemma {:induction false} DedupFirstOccurrenceOrder<T>(xs: seq<T>)
    ensures forall i, j :: 0 <= i < j < |Dedup(xs)| ==>
      Dedup(xs)[i] in xs && Dedup(xs)[j] in xs && FirstIndex(xs, Dedup(xs)[i]) < FirstIndex(xs, Dedup(xs)[j])
  {
    if xs != [] {
      var init := xs[..|xs| - 1];
      var x := xs[|xs| - 1];
      var r := Dedup(init);
      var d := Dedup(xs);
      DedupFirstOccurrenceOrder(init);
      forall y | y in r ensures y in init && y in xs && FirstIndex(xs, y) == FirstIndex(init, y) < |init| {
        DedupElements(init, y);
        FirstIndexInPrefix(xs, |xs| - 1, y);
      }
      assert x in xs by { assert xs[|xs| - 1] == x; }
      if x !in init {
        assert d == r + [x];
        assert FirstIndex(xs, x) == |xs| - 1;
      } else {
        assert d == r;
      }
      forall i, j | 0 <= i < j < |d|
        ensures d[i] in xs && d[j] in xs && FirstIndex(xs, d[i]) < FirstIndex(xs, d[j])
      {
        assert d[i] == r[i] && r[i] in r;
        if j < |r| {
          assert d[j] == r[j] && r[j] in r;
        }
      }
    } else {
      assert Dedup(xs) == [];
    }
  }

  /** A list without duplicates is its own deduplication, so deduplicating
      twice changes nothing. */
  lemma {:induction false} DedupOfDistinct<T>(xs: seq<T>)
    requires Distinct(xs)
    ensures Dedup(xs) == xs
  {
    if xs != [] {
      var init := xs[..|xs| - 1];
      assert Distinct(init);
      DedupOfDistinct(init);
      assert xs == init + [xs[|xs| - 1]];
    }
  }

  lemma DedupIdempotent<T>(xs: seq<T>)
    ensures Dedup(Dedup(xs)) == Dedup(xs)
  {
    DedupDistinct(xs);
    DedupOfDistinct(Dedup(xs));
  }


  /** `xs.slice(0, n)`. */
  function Take<T>(xs: seq<T>, n: nat): (r: seq<T>)
    ensures |r| == if |xs| < n then |xs| else n
    ensures r == xs[..|r|]
  {
    if |xs| < n then xs else xs[..n]
  }

  // ---------------------------------------------------------------------
  // Stores

  /** The display name derived from a hostname: the first `"www."` removed,
      the text before the first `.`, its first character upper-cased. */
  function StoreName(host: string): string {
    Capitalize(BeforeFirst(ReplaceFirst(host, "www.", ""), '.'))
  }

  /** A store name is one dot-free label no longer than the host. */
  lemma StoreNameIsLabel(host: string)
    ensures '.' !in StoreName(host)
    ensures |StoreName(host)| <= |host|
  {
  }

  /** A host without `"www."` is named after its first label. */
  lemma StoreNameWithoutWww(host: string)
    requires forall j :: 0 <= j <= |host| ==> !OccursAt(host, "www.", j)
    ensures StoreName(host) == Capitalize(BeforeFirst(host, '.'))
  {
  }

  /** A host beginning with `"www."` is named after the label that follows. */
  lemma StoreNameLeadingWww(host: string)
    requires StartsWith(host, "www.")
    ensures StoreName(host) == Capitalize(BeforeFirst(host[4..], '.'))
  {
    assert IndexOf(host, "www.", 0) == Some(0);
    assert host[..0] + "" + host[4..] == host[4..];
  }

  /** `www.<first>.<rest>` is named after `first`, as `www.ikea.com` is
      named `Ikea`. */
  lemma StoreNameOfWwwHost(first: string, rest: string)
    requires '.' !in first
    ensures StoreName("www." + first + "." + rest) == Capitalize(first)
  {
    var host := "www." + first + "." + rest;
    assert host[..4] == "www.";
    StoreNameLeadingWww(host);
    assert host[4..] == first + "." + rest;
    BeforeFirstOfLabel(first, '.', rest);
  }

  /** A host without `"www."` is named after its first label, as
      `shop.wayfair.com` is named `Shop`. */
  lemma StoreNameOfPlainHost(first: string, rest: string)
    requires '.' !in first
    requires forall j :: 0 <= j <= |first + "." + rest| ==> !OccursAt(first + "." + rest, "www.", j)
    ensures StoreName(first + "." + rest) == Capitalize(first)
  {
    StoreNameWithoutWww(first + "." + rest);
    BeforeFirstOfLabel(first, '.', rest);
  }

  /** What one candidate contributes: a store when the URL parses, nothing
      (a logged warning) when it does not. */
  function StoreFor(url: string, hostname: string -> Option<string>): seq<Store> {
    match hostname(url)
    case None => []
    case Some(host) => [Store(StoreName(host), url, None)]
  }

  /** The `forEach` over the kept URLs. */
  function StoresFrom(urls: seq<string>, hostname: string -> Option<string>): seq<Store> {
    if urls == [] then []
    else StoresFrom(urls[..|urls| - 1], hostname) + StoreFor(urls[|urls| - 1], hostname)
  }

  /** The URLs of `urls` that parse, in order. */
  function ParsedUrls(urls: seq<string>, hostname: string -> Option<string>): seq<string> {
    if urls == [] then []
    else ParsedUrls(urls[..|urls| - 1], hostname) + (if hostname(urls[|urls| - 1]).Some? then [urls[|urls| - 1]] else [])
  }

  function StoreUrls(stores: seq<Store>): (us: seq<string>)
    ensures |us| == |stores| && forall k :: 0 <= k < |stores| ==> us[k] == stores[k].url
  {
    if stores == [] then [] else StoreUrls(stores[..|stores| - 1]) + [stores[|stores| - 1].url]
  }

  /** The result of `findStoresForItem` for a search answer. */
  function StoresFor(r: SearchResponse, hostname: string -> Option<string>): seq<Store> {
    StoresFrom(Take(Dedup(Candidates(r)), MaxStores), hostname)
  }

  /** The store URLs are the parsable URLs, in their original order. */
  lemma {:induction false} StoresFromUrls(urls: seq<string>, hostname: string -> Option<string>)
    ensures StoreUrls(StoresFrom(urls, hostname)) == ParsedUrls(urls, hostname)
  {
    if urls != [] {
      var init := urls[..|urls| - 1];
      StoresFromUrls(init, hostname);
      var a := StoresFrom(init, hostname);
      var b := StoreFor(urls[|urls| - 1], hostname);
      assert StoreUrls(a + b) == StoreUrls(a) + StoreUrls(b);
    }
  }

  /** A store named after the host of its URL, without a location. */
  predicate NamedAfterHost(st: Store, hostname: string -> Option<string>) {
    st.location.None? && hostname(st.url).Some? && st.name == StoreName(hostname(st.url).value)
  }

  lemma {:induction false} StoresFromNamed(urls: seq<string>, hostname: string -> Option<string>)
    ensures forall st :: st in StoresFrom(urls, hostname) ==> NamedAfterHost(st, hostname)
  {
    if urls != [] {
      StoresFromNamed(urls[..|urls| - 1], hostname);
    }
  }

  /** Each store carries a parsable URL of the input, the name derived from
      that URL's host and no location; the store URLs are the parsable URLs
      in their original order. */
  lemma StoresFromShape(urls: seq<string>, hostname: string -> Option<string>)
    ensures StoreUrls(StoresFrom(urls, hostname)) == ParsedUrls(urls, hostname)
    ensures forall k :: 0 <= k < |StoresFrom(urls, hostname)| ==>
      StoresFrom(urls, hostname)[k].url in urls && NamedAfterHost(StoresFrom(urls, hostname)[k], hostname)
  {
    var stores := StoresFrom(urls, hostname);
    StoresFromUrls(urls, hostname);
    StoresFromNamed(urls, hostname);
    ParsedUrlsSubset(urls, hostname);
    forall k | 0 <= k < |stores| ensures stores[k].url in urls {
      assert StoreUrls(stores)[k] == stores[k].url;
    }
  }

  /** Filtering keeps exactly the parsable URLs: no more elements than the
      input, each from the input and parsable, every parsable one kept, and
      no duplicates when the input had none. */
  lemma {:induction false} ParsedUrlsSubset(urls: seq<string>, hostname: string -> Option<string>)
    ensures |ParsedUrls(urls, hostname)| <= |urls|
    ensures forall u :: u in ParsedUrls(urls, hostname) <==> u in urls && hostname(u).Some?
    ensures Distinct(urls) ==> Distinct(ParsedUrls(urls, hostname))
  {
    if urls != [] {
      var init := urls[..|urls| - 1];
      ParsedUrlsSubset(init, hostname);
      assert urls == init + [urls[|urls| - 1]];
      if Distinct(urls) {
        assert Distinct(init);
        assert urls[|urls| - 1] !in init;
      }
    }
  }

  /** The filter keeps the order: filtering a concatenation concatenates
      the filtered parts. */
  lemma {:induction false} ParsedUrlsAppend(a: seq<string>, b: seq<string>, hostname: string -> Option<string>)
    ensures ParsedUrls(a + b, hostname) == ParsedUrls(a, hostname) + ParsedUrls(b, hostname)
    decreases |b|
  {
    if b != [] {
      var init := b[..|b| - 1];
      assert (a + b)[..|a + b| - 1] == a + init;
      ParsedUrlsAppend(a, init, hostname);
    } else {
      assert a + b == a;
    }
  }

  /** A list whose every URL parses is kept whole. */
  lemma {:induction false} ParsedUrlsAllParse(urls: seq<string>, hostname: string -> Option<string>)
    requires forall k :: 0 <= k < |urls| ==> hostname(urls[k]).Some?
    ensures ParsedUrls(urls, hostname) == urls
  {
    if urls != [] {
      var init := urls[..|urls| - 1];
      ParsedUrlsAllParse(init, hostname);
      assert urls == init + [urls[|urls| - 1]];
    }
  }

  /** One unparsable URL among the kept ones lowers the count. */
  lemma {:induction false} ParsedUrlsDropInvalid(urls: seq<string>, hostname: string -> Option<string>, k: nat)
    requires k < |urls| && hostname(urls[k]).None?
    ensures |ParsedUrls(urls, hostname)| < |urls|
  {
    var init := urls[..|urls| - 1];
    ParsedUrlsSubset(init, hostname);
    if k < |urls| - 1 {
      assert init[k] == urls[k];
      ParsedUrlsDropInvalid(init, hostname, k);
    }
  }

  /** At most three stores come back. */
  lemma StoresAtMostThree(r: SearchResponse, hostname: string -> Option<string>)
    ensures |StoresFor(r, hostname)| <= MaxStores
  {
    var kept := Take(Dedup(Candidates(r)), MaxStores);
    StoresFromShape(kept, hostname);
    ParsedUrlsSubset(kept, hostname);
  }

  /** No two stores share a URL. */
  lemma StoresHaveDistinctUrls(r: SearchResponse, hostname: string -> Option<string>)
    ensures forall i, j :: 0 <= i < j < |StoresFor(r, hostname)| ==> StoresFor(r, hostname)[i].url != StoresFor(r, hostname)[j].url
  {
    var d := Dedup(Candidates(r));
    var kept := Take(d, MaxStores);
    DedupDistinct(Candidates(r));
    assert Distinct(kept) by {
      forall i, j | 0 <= i < j < |kept| ensures kept[i] != kept[j] {
        assert kept[i] == d[i] && kept[j] == d[j];
      }
    }
    StoresFromShape(kept, hostname);
    ParsedUrlsSubset(kept, hostname);
    var s := StoresFor(r, hostname);
    forall i, j | 0 <= i < j < |s| ensures s[i].url != s[j].url {
      assert StoreUrls(s)[i] == s[i].url && StoreUrls(s)[j] == s[j].url;
    }
  }

  /** Every store URL is one of the candidate strings, found in the text or
      in a citation, and each store is named after its own host. */
  lemma StoresComeFromCandidates(r: SearchResponse, hostname: string -> Option<string>)
    ensures forall k :: 0 <= k < |StoresFor(r, hostname)| ==>
      var s := StoresFor(r, hostname)[k];
      && s.url in Candidates(r)
      && (s.url in UrlMatches(r.text) || s.url in GroundingUris(ChunksOf(r)))
      && s.location.None?
      && hostname(s.url).Some? && s.name == StoreName(hostname(s.url).value)
  {
    var d := Dedup(Candidates(r));
    var kept := Take(d, MaxStores);
    StoresFromShape(kept, hostname);
    forall u | u in kept ensures u in Candidates(r) {
      assert u in d;
      DedupElements(Candidates(r), u);
    }
  }

  /** The cut to three happens before validation: the store URLs are exactly
      the parsable ones among the first three distinct candidates, so a later
      candidate never replaces one that failed to parse. */
  lemma StoresCutBeforeValidation(r: SearchResponse, hostname: string -> Option<string>)
    ensures StoreUrls(StoresFor(r, hostname)) == ParsedUrls(Take(Dedup(Candidates(r)), MaxStores), hostname)
    ensures forall k :: 0 <= k < |Take(Dedup(Candidates(r)), MaxStores)| && hostname(Dedup(Candidates(r))[k]).None? ==>
      |StoresFor(r, hostname)| < |Take(Dedup(Candidates(r)), MaxStores)|
  {
    var d := Dedup(Candidates(r));
    var kept := Take(d, MaxStores);
    StoresFromShape(kept, hostname);
    forall k | 0 <= k < |kept| && hostname(d[k]).None? ensures |StoresFor(r, hostname)| < |kept| {
      assert kept[k] == d[k];
      ParsedUrlsDropInvalid(kept, hostname, k);
    }
  }

  /** The `groundingChunks.forEach` loop: pushes each chunk's URIs onto
      `urls`. */
  method PushGroundingUris(urls0: seq<string>, chunks: seq<GroundingChunk>) returns (urls: seq<string>)
    ensures urls == urls0 + GroundingUris(chunks)
  {
    urls := urls0;
    for i := 0 to |chunks|
      invariant urls == urls0 + GroundingUris(chunks[..i])
    {
      var chunk := chunks[i];
      assert chunks[..i + 1][..i] == chunks[..i];
      if chunk.web.StringUri? && chunk.web.uri != "" {
        urls := urls + [chunk.web.uri];
      }
      if chunk.maps.StringUri? && chunk.maps.uri != "" {
        urls := urls + [chunk.maps.uri];
      }
    }
    assert chunks[..|chunks|] == chunks;
  }

  /** The `stores` array after the loop over the kept URLs. */
  method BuildStores(kept: seq<string>, hostname: string -> Option<string>) returns (stores: seq<Store>)
    ensures stores == StoresFrom(kept, hostname)
  {
    stores := [];
    for i := 0 to |kept|
      invariant stores == StoresFrom(kept[..i], hostname)
    {
      assert kept[..i + 1][..i] == kept[..i];
      var url := kept[i];
      match hostname(url) {
        case Some(host) =>
          stores := stores + [Store(StoreName(host), url, None)];
        case None =>
      }
    }
    assert kept[..|kept|] == kept;
  }

  method FindStoresForItem(response: SearchResponse, hostname: string -> Option<string>) returns (stores: seq<Store>)
    ensures stores == StoresFor(response, hostname)
  {
    var urls := UrlMatches(response.text);
    urls := PushGroundingUris(urls, ChunksOf(response));
    stores := BuildStores(Take(Dedup(urls), MaxStores), hostname);
  }
}
