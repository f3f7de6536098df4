/**
 * The Naver article identity parser and URL normaliser
 * (`parse_naver_ids_and_normalize_url`).
 *
 * A URL reaches the parser already split into its generic components
 * (section 3 of RFC 3986) the way Python's `urlparse` and `parse_qs` split
 * it: the host, the path, the decoded query as a map from key to the list
 * of its values, and the raw query string. `Malformed` stands for a URL
 * on which `urlparse` raises; the parser's `except` turns that into None.
 */
module NaverUrl {
  import opened Strings

  datatype UrlParts =
    | Malformed
    | Split(host: string, path: string, query: map<string, seq<string>>, rawQuery: string)

  /** A URL as a caller holds it: its text and the components `urlparse` yields for it. */
  datatype RawUrl = RawUrl(text: string, parts: UrlParts)

  datatype Identity = Identity(oid: string, aid: string, normalizedUrl: string)

  const CanonicalHost := "n.news.naver.com"
  const MnewsPrefix := "/mnews/article/"
  /** `https://n.news.naver.com/mnews/article/`. */
  const CanonicalPrefix := "https://" + CanonicalHost + MnewsPrefix
  const ArticlePrefix := "/article/"

  /** The one canonical form every recognised URL is rewritten to. */
  function NormalizedUrl(oid: string, aid: string): string
  {
    CanonicalPrefix + oid + "/" + aid
  }

  function MakeIdentity(oid: string, aid: string): Identity
  {
    Identity(oid, aid, NormalizedUrl(oid, aid))
  }

  /** The components `urlparse` gives for the canonical URL of `(oid, aid)`. */
  function CanonicalParts(oid: string, aid: string): UrlParts
  {
    Split(CanonicalHost, MnewsPrefix + oid + "/" + aid, map[], "")
  }

  // ---------------------------------------------------------------
  // Route 2: re.search(r"/(?:mnews/)?article/(?P<oid>\d{3,})/(?P<aid>\d{5,})", path)
  // ---------------------------------------------------------------

  /**
   * The match of the path pattern anchored at index `i`, if any. The two
   * prefixes cannot both match at one index (the second character is `m`
   * in one and `a` in the other), so the greedy `(?:mnews/)?` never needs
   * to backtrack into the other alternative.
   */
  function PathMatchAt(path: string, i: nat): (r: Option<(string, string)>)
    ensures r.Some? ==> PathShape(path, i, r.value.0, r.value.1)
    ensures r.Some? ==> IsDigitString(r.value.0) && |r.value.0| >= 3 && IsDigitString(r.value.1) && |r.value.1| >= 5
  {
    if OccursAt(path, MnewsPrefix, i) then GroupsAt(path, i + |MnewsPrefix|)
    else if OccursAt(path, ArticlePrefix, i) then GroupsAt(path, i + |ArticlePrefix|)
    else None
  }

  /**
   * The two digit groups `(\d{3,})/(\d{5,})` anchored at index `k`. A greedy
   * digit run followed by anything but `/` cannot be saved by backtracking
   * (a shorter run is followed by a digit), so the groups are the maximal
   * runs.
   */
  function GroupsAt(path: string, k: nat): (r: Option<(string, string)>)
    ensures r.Some? ==> GroupsShape(path, k, r.value.0, r.value.1)
  {
    if k > |path| then None
    else
      var n1 := DigitRun(path, k);
      var m := k + n1;
      if n1 >= 3 && m < |path| && path[m] == '/' then
        var n2 := DigitRun(path, m + 1);
        if n2 >= 5 then Some((path[k..m], path[m + 1..m + 1 + n2])) else None
      else None
  }

  /**
   * The shape the digit groups describe, stated without reference to the
   * matcher: at index `k` stand at least 3 digits, a slash and at least 5
   * digits that are not followed by another digit.
   */
  predicate GroupsShape(path: string, k: nat, oid: string, aid: string)
  {
    && AllDigits(oid) && |oid| >= 3
    && AllDigits(aid) && |aid| >= 5
    && OccursAt(path, oid, k)
    && k + |oid| < |path| && path[k + |oid|] == '/'
    && OccursAt(path, aid, k + |oid| + 1)
    && var e := k + |oid| + 1 + |aid|; (e == |path| || !IsDigit(path[e]))
  }

  /** The shape of a match of the whole path pattern at index `i`. */
  predicate PathShape(path: string, i: nat, oid: string, aid: string)
  {
    || (OccursAt(path, MnewsPrefix, i) && GroupsShape(path, i + |MnewsPrefix|, oid, aid))
    || (OccursAt(path, ArticlePrefix, i) && GroupsShape(path, i + |ArticlePrefix|, oid, aid))
  }

  /** Leftmost match of the path pattern at or after index `i` (`re.search`). */
  function PathSearch(path: string, i: nat): (r: Option<(string, string)>)
    requires i <= |path|
    ensures r.Some? ==> IsDigitString(r.value.0) && |r.value.0| >= 3
    ensures r.Some? ==> IsDigitString(r.value.1) && |r.value.1| >= 5
    ensures r.Some? ==> exists k | i <= k <= |path| :: PathMatchAt(path, k) == r
    ensures r.None? ==> forall k | i <= k <= |path| :: PathMatchAt(path, k).None?
    decreases |path| - i
  {
    var m := PathMatchAt(path, i);
    if m.Some? then m
    else if i >= |path| then None
    else PathSearch(path, i + 1)
  }

  /** The search returns the first match: when `k` matches and no index from `i` up to `k` does, the result is the match at `k`. */
  lemma {:induction false} PathSearchLeftmost(path: string, i: nat, k: nat)
    requires i <= k <= |path|
    requires PathMatchAt(path, k).Some?
    requires forall j | i <= j < k :: PathMatchAt(path, j).None?
    ensures PathSearch(path, i) == PathMatchAt(path, k)
    decreases k - i
  {
    if i < k {
      PathSearchSkip(path, i);
      PathSearchLeftmost(path, i + 1, k);
    }
  }

  lemma PathSearchSkip(path: string, i: nat)
    requires i < |path| && PathMatchAt(path, i).None?
    ensures PathSearch(path, i) == PathSearch(path, i + 1)
  {
  }

  // ---------------------------------------------------------------
  // Route 3: re.search(r"oid=(\d+).*aid=(\d+)", raw_query)
  // ---------------------------------------------------------------

  /** Length of the run of characters other than newline starting at `i` (what `.*` may consume). */
  function LineRun(s: string, i: nat): (n: nat)
    requires i <= |s|
    ensures i + n <= |s|
    ensures forall k :: i <= k < i + n ==> s[k] != '\n'
    ensures i + n == |s| || s[i + n] == '\n'
    decreases |s| - i
  {
    if i < |s| && s[i] != '\n' then 1 + LineRun(s, i + 1) else 0
  }

  /** `aid=` followed by at least one digit occurs at index `j`. */
  predicate AidAt(q: string, j: nat)
  {
    j + 5 <= |q| && q[j] == 'a' && q[j + 1] == 'i' && q[j + 2] == 'd' && q[j + 3] == '=' && IsDigit(q[j + 4])
  }

  /** The rightmost index in `[e, j]` where `aid=<digit>` occurs: where a greedy `.*` stops. */
  function LastAidAt(q: string, e: nat, j: nat): (r: Option<nat>)
    requires e <= j
    ensures r.Some? ==> e <= r.value <= j && AidAt(q, r.value)
    ensures r.Some? ==> forall k | r.value < k <= j :: !AidAt(q, k)
    ensures r.None? ==> forall k | e <= k <= j :: !AidAt(q, k)
    decreases j - e
  {
    if AidAt(q, j) then Some(j)
    else if j == e then None
    else LastAidAt(q, e, j - 1)
  }

  /** The non-empty digit string `d` stands at `k` and is not followed by another digit. */
  predicate WholeRunAt(q: string, k: nat, d: string)
  {
    |d| > 0 && AllDigits(d) && OccursAt(q, d, k) && (k + |d| == |q| || !IsDigit(q[k + |d|]))
  }

  /** `oid=` occurs at index `i`. */
  predicate OidAt(q: string, i: nat)
  {
    i + 4 <= |q| && q[i] == 'o' && q[i + 1] == 'i' && q[i + 2] == 'd' && q[i + 3] == '='
  }

  /** The first group stated without reference to the matcher: `oid=` at `i`, then the whole digit run `oid`. */
  predicate OidShape(q: string, i: nat, oid: string)
  {
    OidAt(q, i) && WholeRunAt(q, i + 4, oid)
  }

  /**
   * The second group stated without reference to the matcher, after the
   * first one ends at `e`: `aid=<digit>` at `j`, the rightmost such place
   * on the rest of that line, then the whole digit run `aid`.
   */
  predicate AidShape(q: string, e: nat, j: nat, aid: string)
  {
    && e <= |q| && e <= j <= e + LineRun(q, e) && AidAt(q, j)
    && (forall k | j < k <= e + LineRun(q, e) :: !AidAt(q, k))
    && WholeRunAt(q, j + 4, aid)
  }

  /** The shape of a match of the loose pattern at `i`, with groups `oid` and `aid` and the second `aid=` at `j`. */
  predicate LooseShapeAt(q: string, i: nat, j: nat, oid: string, aid: string)
  {
    OidShape(q, i, oid) && AidShape(q, i + 4 + |oid|, j, aid)
  }

  /** The shape of a match of the loose pattern at `i`, with groups `oid` and `aid`. */
  predicate LooseShape(q: string, i: nat, oid: string, aid: string)
  {
    exists j | i <= j <= |q| :: LooseShapeAt(q, i, j, oid, aid)
  }

  /** `oid=(\d+)` anchored at index `i`: the greedy digit run after `oid=`, if non-empty. */
  function OidGroup(q: string, i: nat): (r: Option<string>)
    requires i <= |q|
    ensures r.Some? ==> IsDigitString(r.value) && i + 4 + |r.value| <= |q|
  {
    if !StartsWith(q[i..], "oid=") then None
    else
      var n := DigitRun(q, i + 4);
      if n == 0 then None else Some(q[i + 4..i + 4 + n])
  }

  /** `.*aid=(\d+)` after the first group ends at `e`: the greedy `.*` stops at the last `aid=<digit>` of the line. */
  function AidGroup(q: string, e: nat): (r: Option<string>)
    requires e <= |q|
    ensures r.Some? ==> IsDigitString(r.value)
  {
    match LastAidAt(q, e, e + LineRun(q, e))
    case None => None
    case Some(j) => Some(q[j + 4..j + 4 + DigitRun(q, j + 4)])
  }

  /** The match of the loose query pattern anchored at index `i`, if any. */
  function LooseMatchAt(q: string, i: nat): (r: Option<(string, string)>)
    requires i <= |q|
    ensures r.Some? ==> IsDigitString(r.value.0) && IsDigitString(r.value.1)
  {
    if !StartsWith(q[i..], "oid=") then None
    else
      var n1 := DigitRun(q, i + 4);
      if n1 == 0 then None
      else
        var e := i + 4 + n1;
        match LastAidAt(q, e, e + LineRun(q, e))
        case None => None
        case Some(j) => Some((q[i + 4..e], q[j + 4..j + 4 + DigitRun(q, j + 4)]))
  }

  /** Leftmost match of the loose query pattern at or after index `i`. */
  function LooseSearch(q: string, i: nat): (r: Option<(string, string)>)
    requires i <= |q|
    ensures r.Some? ==> IsDigitString(r.value.0) && IsDigitString(r.value.1)
    ensures r.Some? ==> exists k | i <= k <= |q| :: LooseMatchAt(q, k) == r
    ensures r.None? ==> forall k | i <= k <= |q| :: LooseMatchAt(q, k).None?
    decreases |q| - i
  {
    var m := LooseMatchAt(q, i);
    if m.Some? then m
    else if i == |q| then None
    else LooseSearch(q, i + 1)
  }

  /** The search returns the first match: when `k` matches and no index from `i` up to `k` does, the result is the match at `k`. */
  lemma {:induction false} LooseSearchLeftmost(q: string, i: nat, k: nat)
    requires i <= k <= |q|
    requires LooseMatchAt(q, k).Some?
    requires forall j | i <= j < k :: LooseMatchAt(q, j).None?
    ensures LooseSearch(q, i) == LooseMatchAt(q, k)
    decreases k - i
  {
    if i < k {
      LooseSearchSkip(q, i);
      LooseSearchLeftmost(q, i + 1, k);
    }
  }

  /** What the matcher finds at `i` has the loose shape at `i`. */
  lemma LooseMatchAtSound(q: string, i: nat)
    requires i <= |q| && LooseMatchAt(q, i).Some?
    ensures LooseShape(q, i, LooseMatchAt(q, i).value.0, LooseMatchAt(q, i).value.1)
  {
    LooseMatchAtSteps(q, i);
    var j := LooseStepsSound(q, i);
    assert LooseShapeAt(q, i, j, LooseMatchAt(q, i).value.0, LooseMatchAt(q, i).value.1);
  }

  /** Every occurrence of the loose shape at `i` is found by the matcher at `i`, with the same groups. */
  lemma LooseMatchAtComplete(q: string, i: nat, oid: string, aid: string)
    requires i <= |q| && LooseShape(q, i, oid, aid)
    ensures LooseMatchAt(q, i) == Some((oid, aid))
  {
    var j :| i <= j <= |q| && LooseShapeAt(q, i, j, oid, aid);
    LooseStepsComplete(q, i, j, oid, aid);
    LooseMatchAtSteps(q, i);
  }

  /**
   * The loose match assembled from its two groups: the first group, then
   * the second after it. `LooseMatchAtSteps` proves that the matcher
   * computes this; the shape lemmas go through it one group at a time.
   */
  function LooseSteps(q: string, i: nat): Option<(string, string)>
    requires i <= |q|
  {
    var oid := OidGroup(q, i);
    if oid.None? then None
    else
      var aid := AidGroup(q, i + 4 + |oid.value|);
      if aid.None? then None else Some((oid.value, aid.value))
  }

  /** The matcher performs the two steps. */
  lemma LooseMatchAtSteps(q: string, i: nat)
    requires i <= |q|
    ensures LooseMatchAt(q, i) == LooseSteps(q, i)
  {
  }

  /** The two groups, when both are found, have their shapes; `j` is where the second `aid=` stands. */
  lemma LooseStepsSound(q: string, i: nat) returns (j: nat)
    requires i <= |q| && LooseSteps(q, i).Some?
    ensures LooseShapeAt(q, i, j, LooseSteps(q, i).value.0, LooseSteps(q, i).value.1)
  {
    LooseStepsBoth(q, i);
    OidGroupSound(q, i);
    j := AidGroupSound(q, i + 4 + |OidGroup(q, i).value|);
  }

  /** A two-step match found both groups. */
  lemma LooseStepsBoth(q: string, i: nat)
    requires i <= |q| && LooseSteps(q, i).Some?
    ensures OidGroup(q, i).Some? && AidGroup(q, i + 4 + |OidGroup(q, i).value|).Some?
    ensures LooseSteps(q, i) == Some((OidGroup(q, i).value, AidGroup(q, i + 4 + |OidGroup(q, i).value|).value))
  {
  }

  /** The shape with its `aid=` position given is found group by group. */
  lemma LooseStepsComplete(q: string, i: nat, j: nat, oid: string, aid: string)
    requires i <= |q| && LooseShapeAt(q, i, j, oid, aid)
    ensures LooseSteps(q, i) == Some((oid, aid))
  {
    OidGroupComplete(q, i, oid);
    AidGroupComplete(q, i + 4 + |oid|, j, aid);
  }

  /** What the first step finds has the shape of the first group. */
  lemma OidGroupSound(q: string, i: nat)
    requires i <= |q| && OidGroup(q, i).Some?
    ensures OidShape(q, i, OidGroup(q, i).value)
  {
    OidAtPrefix(q, i);
  }

  /** The shape of the first group is what the first step finds. */
  lemma OidGroupComplete(q: string, i: nat, oid: string)
    requires i <= |q| && OidShape(q, i, oid)
    ensures OidGroup(q, i) == Some(oid)
  {
    OidAtPrefix(q, i);
    WholeRunLength(q, i + 4, oid);
  }

  /** `OidAt` is the prefix test the matcher performs. */
  lemma OidAtPrefix(q: string, i: nat)
    requires i <= |q|
    ensures OidAt(q, i) <==> StartsWith(q[i..], "oid=")
  {
    if i + 4 <= |q| {
      assert q[i..][..4] == [q[i], q[i + 1], q[i + 2], q[i + 3]];
    }
  }

  /** What the second step finds has the shape of the second group, with its `aid=` at `j`. */
  lemma AidGroupSound(q: string, e: nat) returns (j: nat)
    requires e <= |q| && AidGroup(q, e).Some?
    ensures AidShape(q, e, j, AidGroup(q, e).value)
  {
    j := LastAidAt(q, e, e + LineRun(q, e)).value;
  }

  /** The shape of the second group is what the second step finds. */
  lemma AidGroupComplete(q: string, e: nat, j: nat, aid: string)
    requires AidShape(q, e, j, aid)
    ensures AidGroup(q, e) == Some(aid)
  {
    LastAidAtIs(q, e, e + LineRun(q, e), j);
    WholeRunLength(q, j + 4, aid);
  }

  /** A whole digit run is what `DigitRun` measures. */
  lemma WholeRunLength(q: string, k: nat, d: string)
    requires WholeRunAt(q, k, d)
    ensures DigitRun(q, k) == |d| && q[k..k + |d|] == d
  {
    DigitRunOf(q, k, d);
  }

  /** The rightmost `aid=<digit>` of the range is what `LastAidAt` finds. */
  lemma {:induction false} LastAidAtIs(q: string, e: nat, hi: nat, j: nat)
    requires e <= j <= hi && AidAt(q, j)
    requires forall k | j < k <= hi :: !AidAt(q, k)
    ensures LastAidAt(q, e, hi) == Some(j)
    decreases hi - j
  {
    if j < hi {
      assert !AidAt(q, hi);
      LastAidAtIs(q, e, hi - 1, j);
    }
  }

  lemma LooseSearchSkip(q: string, i: nat)
    requires i < |q| && LooseMatchAt(q, i).None?
    ensures LooseSearch(q, i) == LooseSearch(q, i + 1)
  {
  }

  // ---------------------------------------------------------------
  // The parser
  // ---------------------------------------------------------------

  /** Route 1 applies: both keys are present and their first values are digit strings. */
  predicate QueryRouteApplies(query: map<string, seq<string>>)
  {
    "oid" in query && "aid" in query && |query["oid"]| > 0 && |query["aid"]| > 0
    && IsDigitString(query["oid"][0]) && IsDigitString(query["aid"][0])
  }

  /**
   * What `parse_qs` with its default `keep_blank_values=False` yields: a
   * pair with an empty value is dropped, so every key present has at least
   * one value and no value is empty.
   */
  predicate ParsedQuery(query: map<string, seq<string>>)
  {
    forall k | k in query :: |query[k]| > 0 && forall j | 0 <= j < |query[k]| :: query[k][j] != ""
  }

  /**
   * Both keys are present but one maps to an empty list of values, where
   * `query[...][0]` would raise and the `except` would turn that into None.
   * No output of `parse_qs` has this shape (a key with a blank value is
   * dropped altogether, see `ParsedQuery`); the case is kept so that the
   * parser is defined on every map.
   */
  predicate QueryIndexError(query: map<string, seq<string>>)
  {
    "oid" in query && "aid" in query && (|query["oid"]| == 0 || |query["aid"]| == 0)
  }

  /** `parse_naver_ids_and_normalize_url`: the three routes in their fixed order. */
  function ParseIdentity(u: UrlParts): (r: Option<Identity>)
    ensures r.Some? ==> r.value.normalizedUrl == NormalizedUrl(r.value.oid, r.value.aid)
    ensures r.Some? ==> IsDigitString(r.value.oid) && IsDigitString(r.value.aid)
    ensures r.Some? ==> u.Split?
  {
    match u
    case Malformed => None
    case Split(_, path, query, rawQuery) =>
      // the lower-cased host is computed by the source but never consulted
      if QueryIndexError(query) then None
      else if QueryRouteApplies(query) then Some(MakeIdentity(query["oid"][0], query["aid"][0]))
      else
        match PathSearch(path, 0)
        case Some((oid, aid)) => Some(MakeIdentity(oid, aid))
        case None =>
          match LooseSearch(rawQuery, 0)
          case Some((oid, aid)) =>
            if IsDigitString(oid) && IsDigitString(aid) then Some(MakeIdentity(oid, aid)) else None
          case None => None
  }
}

module NaverUrlFacts {
  import opened Strings
  import opened NaverUrl

  /** Every occurrence of the group shape at `k` is found by the matcher at `k`, with the same groups. */
  lemma GroupsAtComplete(path: string, k: nat, oid: string, aid: string)
    requires GroupsShape(path, k, oid, aid)
    ensures GroupsAt(path, k) == Some((oid, aid))
  {
    DigitRunOf(path, k, oid);
    DigitRunOf(path, k + |oid| + 1, aid);
  }

  /** At one index at most one of the two prefixes occurs. */
  lemma PrefixesExclusive(path: string, i: nat)
    ensures !(OccursAt(path, MnewsPrefix, i) && OccursAt(path, ArticlePrefix, i))
  {
    if OccursAt(path, MnewsPrefix, i) {
      assert path[i + 1] == path[i..i + |MnewsPrefix|][1] == 'm';
      assert i + |ArticlePrefix| <= |path| ==> path[i..i + |ArticlePrefix|][1] == 'm';
    }
  }

  /** Every occurrence of the shape at index `i` is found by the matcher at `i`, with the same groups. */
  lemma PathMatchAtComplete(path: string, i: nat, oid: string, aid: string)
    requires PathShape(path, i, oid, aid)
    ensures PathMatchAt(path, i) == Some((oid, aid))
  {
    PrefixesExclusive(path, i);
    if OccursAt(path, MnewsPrefix, i) {
      GroupsAtComplete(path, i + |MnewsPrefix|, oid, aid);
    } else {
      GroupsAtComplete(path, i + |ArticlePrefix|, oid, aid);
    }
  }

  /** An identity taken from the path has an oid of at least 3 digits and an aid of at least 5. */
  lemma PathRouteBounds(u: UrlParts)
    requires u.Split? && !QueryIndexError(u.query) && !QueryRouteApplies(u.query)
    requires PathSearch(u.path, 0).Some?
    ensures ParseIdentity(u).Some?
    ensures |ParseIdentity(u).value.oid| >= 3 && |ParseIdentity(u).value.aid| >= 5
  {
  }

  /**
   * The routes are consulted in a fixed order: the query keys first, the
   * path only when the query keys do not give an identity, the raw query
   * only when neither does; an identity exists exactly when one route
   * matches. This only unfolds the parser's definition into its cases;
   * what the routes find is stated by `PathMatchAtComplete`, the leftmost
   * lemmas and `CanonicalRoundTrip`.
   */
  lemma RoutesInOrder(u: UrlParts)
    ensures u.Split? && QueryRouteApplies(u.query) ==>
      ParseIdentity(u) == Some(MakeIdentity(u.query["oid"][0], u.query["aid"][0]))
    ensures u.Split? && !QueryIndexError(u.query) && !QueryRouteApplies(u.query) && PathSearch(u.path, 0).Some? ==>
      ParseIdentity(u) == Some(MakeIdentity(PathSearch(u.path, 0).value.0, PathSearch(u.path, 0).value.1))
    ensures u.Split? && !QueryIndexError(u.query) && !QueryRouteApplies(u.query) && PathSearch(u.path, 0).None?
            && LooseSearch(u.rawQuery, 0).Some? ==>
      ParseIdentity(u) == Some(MakeIdentity(LooseSearch(u.rawQuery, 0).value.0, LooseSearch(u.rawQuery, 0).value.1))
    ensures ParseIdentity(u).None? <==>
      u.Malformed? || QueryIndexError(u.query)
      || (!QueryRouteApplies(u.query) && PathSearch(u.path, 0).None? && LooseSearch(u.rawQuery, 0).None?)
    ensures u.Split? && ParsedQuery(u.query) ==>
      (ParseIdentity(u).None? <==>
        !QueryRouteApplies(u.query) && PathSearch(u.path, 0).None? && LooseSearch(u.rawQuery, 0).None?)
  {
    if u.Split? && ParsedQuery(u.query) {
      QueryIndexErrorUnreachable(u.query);
    }
  }

  /** On the output of `parse_qs` the key lookup never finds an empty list of values. */
  lemma QueryIndexErrorUnreachable(query: map<string, seq<string>>)
    requires ParsedQuery(query)
    ensures !QueryIndexError(query)
  {
  }

  /**
   * A blank `oid=` is dropped by `parse_qs`, so the query-key route does not
   * apply and the identity comes from the path.
   */
  lemma BlankOidFallsToPath()
    ensures ParsedQuery(map["aid" := ["1"]])
    ensures ParseIdentity(Split("n.news.naver.com", "/article/001/00001", map["aid" := ["1"]], "oid=&aid=1"))
      == Some(MakeIdentity("001", "00001"))
  {
    var path := "/article/001/00001";
    var k := |ArticlePrefix|;
    assert path[..k] == ArticlePrefix;
    assert path[k..k + 3] == "001";
    assert path[k + 4..] == "00001";
    assert GroupsShape(path, k, "001", "00001");
    PathMatchAtComplete(path, 0, "001", "00001");
  }

  /**
   * Round trip: an oid of at least 3 digits and an aid of at least 5 digits
   * survive normalisation, so parsing the canonical URL gives back the same
   * oid, aid and canonical URL.
   */
  lemma CanonicalRoundTrip(oid: string, aid: string)
    requires AllDigits(oid) && |oid| >= 3 && AllDigits(aid) && |aid| >= 5
    ensures ParseIdentity(CanonicalParts(oid, aid)) == Some(MakeIdentity(oid, aid))
  {
    var path := MnewsPrefix + oid + "/" + aid;
    var k := |MnewsPrefix|;
    assert path[..k] == MnewsPrefix;
    assert path[k..k + |oid|] == oid;
    assert path[k + |oid| + 1..] == aid;
    assert GroupsShape(path, k, oid, aid);
    PathMatchAtComplete(path, 0, oid, aid);
  }

  /** The canonical URL names the Naver domain. */
  lemma NormalizedUrlIsNaver(oid: string, aid: string)
    ensures Contains(NormalizedUrl(oid, aid), "naver.com")
    ensures StartsWith(NormalizedUrl(oid, aid), CanonicalPrefix)
  {
    assert OccursAt(CanonicalHost, "naver.com", 7);
    OccursExtend(CanonicalHost, "https://", "naver.com", 7);
    OccursExtend("https://" + CanonicalHost, MnewsPrefix, "naver.com", 15);
    OccursExtend(CanonicalPrefix, oid, "naver.com", 15);
    OccursExtend(CanonicalPrefix + oid, "/", "naver.com", 15);
    OccursExtend(CanonicalPrefix + oid + "/", aid, "naver.com", 15);
    OccursAtContains(NormalizedUrl(oid, aid), "naver.com", 15);
    assert (CanonicalPrefix + oid)[..|CanonicalPrefix|] == CanonicalPrefix;
    StartsExtend(CanonicalPrefix + oid, "/", CanonicalPrefix);
    StartsExtend(CanonicalPrefix + oid + "/", aid, CanonicalPrefix);
  }
}
