/**
 * The request-path matcher of CustomWrapHandler (swagger.go:176, 183-189).
 *
 * The pattern is `(.*)(a0|a1|...|a12)[?|.]*`, searched unanchored with Go's
 * leftmost-first semantics: the match that starts earliest wins, and among
 * matches with that start the one a backtracking engine finds first. The
 * greedy `(.*)` (whose `.` does not cross a newline) therefore ends as late
 * as possible, and at that point the first alternative in listed order is
 * taken. The trailing `[?|.]*` can always match the empty string, so it
 * never decides whether, or how, the two groups match.
 */
module Matching {
  import opened Wrappers

  /** The alternatives of the second group, in the order the pattern lists them. */
  const Assets: seq<string> := [
    "index.html",
    "doc.json",
    "favicon-16x16.png",
    "favicon-32x32.png",
    "/oauth2-redirect.html",
    "swagger-ui.css",
    "swagger-ui.css.map",
    "swagger-ui.js",
    "swagger-ui.js.map",
    "swagger-ui-bundle.js",
    "swagger-ui-bundle.js.map",
    "swagger-ui-standalone-preset.js",
    "swagger-ui-standalone-preset.js.map"
  ]

  /** Alternative k matches the input s at position i. */
  ghost predicate AssetAt(s: string, i: int, k: int) {
    0 <= i <= |s| && 0 <= k < |Assets| && Assets[k] <= s[i..]
  }

  /** Some asset name occurs somewhere in s. */
  ghost predicate ContainsAsset(s: string) {
    exists i, k :: AssetAt(s, i, k)
  }

  /**
   * The pattern matches s with the first group spanning s[p..i] and the
   * second group being alternative k: `.` may not match a newline.
   */
  ghost predicate Candidate(s: string, p: int, i: int, k: int) {
    0 <= p <= i && AssetAt(s, i, k) && forall j :: p <= j < i ==> s[j] != '\n'
  }

  /** Positions of a match: group 1 is s[start..split], group 2 is Assets[alt]. */
  datatype Span = Span(start: nat, split: nat, alt: nat)

  /** m is the match Go's leftmost-first search reports for s. */
  ghost predicate LeftmostFirst(s: string, m: Span) {
    && Candidate(s, m.start, m.split, m.alt)
    // no match starts earlier
    && (forall p, i, k :: Candidate(s, p, i, k) ==> m.start <= p)
    // the greedy first group is as long as it can be
    && (forall i, k :: Candidate(s, m.start, i, k) ==> i <= m.split)
    // the alternation takes the first alternative that matches there
    && (forall k :: Candidate(s, m.start, m.split, k) ==> m.alt <= k)
  }

  /** Index of the first alternative, from k on, that is a prefix of t. */
  function FirstFrom(t: string, k: nat): (r: Option<nat>)
    requires k <= |Assets|
    decreases |Assets| - k
    ensures r.Some? ==> k <= r.value < |Assets| && Assets[r.value] <= t
    ensures forall j :: k <= j < |Assets| && Assets[j] <= t ==> r.Some? && r.value <= j
  {
    if k == |Assets| then None
    else if Assets[k] <= t then Some(k)
    else FirstFrom(t, k + 1)
  }

  /** The alternation tried at position i: the first alternative that matches there. */
  function AltAt(s: string, i: nat): (r: Option<nat>)
    requires i <= |s|
    ensures r.Some? ==> AssetAt(s, i, r.value) && forall k :: AssetAt(s, i, k) ==> r.value <= k
    ensures r.None? ==> forall k :: !AssetAt(s, i, k)
  {
    FirstFrom(s[i..], 0)
  }

  /** Where a greedy `.*` started at p stops: the first newline at or after p, or the end. */
  function LineEnd(s: string, p: nat): (e: nat)
    requires p <= |s|
    decreases |s| - p
    ensures p <= e <= |s|
    ensures forall j :: p <= j < e ==> s[j] != '\n'
    ensures e < |s| ==> s[e] == '\n'
  {
    if p == |s| || s[p] == '\n' then p else LineEnd(s, p + 1)
  }

  /** No alternative matches at any position in [lo, hi]. */
  ghost predicate NoAssetBetween(s: string, lo: int, hi: int) {
    forall j, k :: lo <= j <= hi ==> !AssetAt(s, j, k)
  }

  /** Backtracking of the greedy group: the last position in [p, i] where an alternative matches. */
  function LastFrom(s: string, p: nat, i: nat): (r: Option<nat>)
    requires p <= i <= |s|
    decreases i
    ensures r.Some? ==> p <= r.value <= i && AltAt(s, r.value).Some?
    ensures r.Some? ==> NoAssetBetween(s, r.value + 1, i)
    ensures r.None? ==> NoAssetBetween(s, p, i)
  {
    if AltAt(s, i).Some? then Some(i)
    else
      assert forall k :: !AssetAt(s, i, k);
      if i == p then None
      else LastFrom(s, p, i - 1)
  }

  /** The unanchored search: try each start position from p on, as a backtracking engine does. */
  function ScanFrom(s: string, p: nat): (r: Option<Span>)
    requires p <= |s|
    decreases |s| - p
    ensures r.Some? ==> p <= r.value.start && Candidate(s, r.value.start, r.value.split, r.value.alt)
    ensures r.Some? ==> forall q, i, k :: p <= q && Candidate(s, q, i, k) ==> r.value.start <= q
    ensures r.Some? ==> forall i, k :: Candidate(s, r.value.start, i, k) ==> i <= r.value.split
    ensures r.Some? ==> forall k :: Candidate(s, r.value.start, r.value.split, k) ==> r.value.alt <= k
    ensures r.None? ==> forall q, i, k :: p <= q ==> !Candidate(s, q, i, k)
  {
    var e := LineEnd(s, p);
    match LastFrom(s, p, e)
    case Some(i) =>
      NoCandidateBeyondLine(s, p);
      Some(Span(p, i, AltAt(s, i).value))
    case None =>
      NoCandidateBeyondLine(s, p);
      if p == |s| then None else ScanFrom(s, p + 1)
  }

  /** A match starting at p cannot reach past the end of p's line. */
  lemma NoCandidateBeyondLine(s: string, p: nat)
    requires p <= |s|
    ensures forall i, k :: Candidate(s, p, i, k) ==> i <= LineEnd(s, p)
  {
  }

  /** regexp.FindStringSubmatch, reduced to the positions of the match. */
  function Find(s: string): (r: Option<Span>)
    ensures r.Some? ==> LeftmostFirst(s, r.value)
    ensures r.None? <==> !ContainsAsset(s)
  {
    var r := ScanFrom(s, 0);
    assert forall i, k :: AssetAt(s, i, k) ==> Candidate(s, i, i, k);
    r
  }

  /** The two submatches the handler reads: matches[1] and matches[2]. */
  datatype Submatch = Submatch(prefix: string, asset: string)

  /** FindStringSubmatch as the handler uses it: None stands for Go's nil result. */
  function FindStringSubmatch(url: string): (r: Option<Submatch>)
    ensures r.None? <==> !ContainsAsset(url)
    ensures r.Some? ==> r.value.asset in Assets
    ensures r.Some? ==> r.value.prefix + r.value.asset <= url[Find(url).value.start..]
    ensures r.Some? ==> var m := Find(url).value;
      r.value.prefix == url[m.start..m.split] && r.value.asset == Assets[m.alt]
  {
    match Find(url)
    case None => None
    case Some(m) =>
      SpanSplits(url, m);
      Some(Submatch(url[m.start..m.split], Assets[m.alt]))
  }

  /** A match cuts s into what precedes it, group 1, group 2 and the rest. */
  lemma SpanSplits(s: string, m: Span)
    requires Candidate(s, m.start, m.split, m.alt)
    ensures m.split + |Assets[m.alt]| <= |s|
    ensures s[m.start..m.split] + Assets[m.alt] <= s[m.start..]
    ensures s == s[..m.start] + s[m.start..m.split] + Assets[m.alt] + s[m.split + |Assets[m.alt]|..]
  {
    Split(s, m.start, m.split, Assets[m.alt]);
  }

  lemma Split(s: string, p: nat, i: nat, a: string)
    requires p <= i <= |s| && a <= s[i..]
    ensures i + |a| <= |s|
    ensures s[p..i] + a <= s[p..]
    ensures s == s[..p] + s[p..i] + a + s[i + |a|..]
  {
    var t := i + |a|;
    assert s[i..t] == a;
    assert s[p..t] == s[p..i] + s[i..t];
    assert s == s[..p] + s[p..i] + s[i..t] + s[t..];
  }

  /**
   * For a URL without newlines the match starts at the beginning: the URL is
   * prefix ++ asset ++ rest, the prefix is the longest one after which some
   * asset name occurs, and the asset is the first listed name found there.
   */
  lemma {:induction false} NewlineFreeUrl(url: string)
    requires forall j :: 0 <= j < |url| ==> url[j] != '\n'
    requires ContainsAsset(url)
    ensures FindStringSubmatch(url).Some?
    ensures var m := FindStringSubmatch(url).value;
      && m.prefix + m.asset <= url
      && (forall i, k :: AssetAt(url, i, k) ==> i <= |m.prefix|)
      && (exists a :: AssetAt(url, |m.prefix|, a) && m.asset == Assets[a]
                      && forall k :: AssetAt(url, |m.prefix|, k) ==> a <= k)
  {
    var m := Find(url).value;
    forall i, k | AssetAt(url, i, k) ensures Candidate(url, 0, i, k) { }
    assert m.start == 0;
    assert url[m.start..] == url;
    forall k | AssetAt(url, m.split, k) ensures m.alt <= k {
      assert Candidate(url, 0, m.split, k);
    }
    assert AssetAt(url, m.split, m.alt);
  }

  /** The name ends in the source-map extension. */
  predicate IsSourceMap(name: string) {
    |name| >= 4 && name[|name| - 4..] == ".map"
  }

  lemma PrefixTransitive(a: string, b: string, c: string)
    requires a <= b && b <= c
    ensures a <= c
  {
    assert c[..|a|] == b[..|a|];
  }

  /** Each `.map` alternative comes right after the name it extends. */
  lemma SourceMapsFollowTheirFile(k: nat)
    requires k < |Assets| && IsSourceMap(Assets[k])
    ensures 1 <= k && Assets[k - 1] <= Assets[k]
  {
  }

  /**
   * The four `.map` alternatives can never be reported: each is listed after
   * its own prefix (`swagger-ui.css` before `swagger-ui.css.map`, and so on),
   * which matches at the same position and wins the alternation.
   */
  lemma MapAlternativesNeverChosen(url: string)
    requires ContainsAsset(url)
    ensures !IsSourceMap(FindStringSubmatch(url).value.asset)
  {
    var m := Find(url).value;
    if IsSourceMap(Assets[m.alt]) {
      SourceMapsFollowTheirFile(m.alt);
      PrefixTransitive(Assets[m.alt - 1], Assets[m.alt], url[m.split..]);
      assert Candidate(url, m.start, m.split, m.alt - 1);
      assert false;
    }
  }

  /** Every asset name has a dot somewhere. */
  lemma AssetsHaveDots(k: nat)
    requires k < |Assets|
    ensures '.' in Assets[k]
  {
  }

  /** A URL in which an alternative occurs has a dot. */
  lemma DotOfAsset(url: string, i: int, k: int)
    requires AssetAt(url, i, k)
    ensures '.' in url
  {
    AssetsHaveDots(k);
    var d :| 0 <= d < |Assets[k]| && Assets[k][d] == '.';
    assert url[i..][d] == '.';
    assert url[i + d] == '.';
  }

  /** A URL without a dot names no asset, so it is not matched. */
  lemma DotlessUrlNotMatched(url: string)
    requires '.' !in url
    ensures FindStringSubmatch(url) == None
  {
    forall i, k | AssetAt(url, i, k) ensures false {
      DotOfAsset(url, i, k);
    }
  }

  /** The not-found request of swagger_test.go:58 is not matched. */
  lemma UnknownPathNotMatched()
    ensures FindStringSubmatch("/swagger/notfound") == None
  {
    DotlessUrlNotMatched("/swagger/notfound");
  }

  /** The first two characters of some alternative: "in", "do", "fa", "/o" or "sw". */
  predicate Head(c: char, d: char) {
    || (c == 'i' && d == 'n') || (c == 'd' && d == 'o') || (c == 'f' && d == 'a')
    || (c == '/' && d == 'o') || (c == 's' && d == 'w')
  }

  /** Every alternative starts with one of the five heads. */
  lemma Heads(k: nat)
    requires k < |Assets|
    ensures |Assets[k]| >= 2 && Head(Assets[k][0], Assets[k][1])
  {
    match k
    case 0 => case 1 => case 2 => case 3 => case 4 => case 5 => case 6 =>
    case 7 => case 8 => case 9 => case 10 => case 11 => case _ =>
  }

  /** No two adjacent characters of s from position i on form a head. */
  predicate NoHeadFrom(s: string, i: nat)
    decreases |s| - i
  {
    i + 1 >= |s| || (!Head(s[i], s[i + 1]) && NoHeadFrom(s, i + 1))
  }

  /** An alternative found at i begins with the character there. */
  lemma FirstChar(s: string, i: int, k: int)
    requires AssetAt(s, i, k)
    ensures i < |s| && |Assets[k]| > 0 && s[i] == Assets[k][0]
  {
    Heads(k);
    assert s[i..][..|Assets[k]|] == Assets[k];
  }

  /** Where no head occurs from i on, no alternative occurs from i on. */
  lemma {:induction false} NoAssetFrom(s: string, i: nat, j: int, k: int)
    requires NoHeadFrom(s, i) && i <= j && AssetAt(s, j, k)
    ensures false
    decreases j - i
  {
    Heads(k);
    assert s[j..][..|Assets[k]|] == Assets[k];
    assert s[j] == Assets[k][0] && s[j + 1] == Assets[k][1];
    if i < j {
      NoAssetFrom(s, i + 1, j, k);
    }
  }

  /**
   * A URL mounted at p with name k: no newline, name k at p, no
   * earlier-listed name at p, and no name anywhere after p.
   */
  ghost predicate MountedAt(url: string, p: nat, k: nat) {
    && (forall j :: 0 <= j < |url| ==> url[j] != '\n')
    && AssetAt(url, p, k)
    && (forall j :: 0 <= j < k ==> !AssetAt(url, p, j))
    && NoHeadFrom(url, p + 1)
  }

  /** A URL mounted at p is split into group 1 = url[..p] and group 2 = name k. */
  lemma MatchAt(url: string, p: nat, k: nat)
    requires MountedAt(url, p, k)
    ensures FindStringSubmatch(url) == Some(Submatch(url[..p], Assets[k]))
  {
    forall i, j | p < i && AssetAt(url, i, j) ensures false {
      NoAssetFrom(url, p + 1, i, j);
    }
    NewlineFreeUrl(url);
    var m := FindStringSubmatch(url).value;
    assert |m.prefix| == p;
    assert m.prefix == url[..p];
  }
}
