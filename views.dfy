/**
 * `links/views.py`: the request handlers that create, retry and list links,
 * the context shared by the HTML views, and the tag chart of `index`.
 *
 * A request is reduced to what the handler reads from it (the user and the
 * posted or query parameters); a response is reduced to its status code and
 * the fields of its body. Query ordering, done by the database, is an input:
 * `sorted` lists the ids in the order the database returns them.
 */
module Views {
  import opened Strings
  import opened Models
  import Ranking
  import Seqs

  /** `(value or "").strip()` for a parameter that may be absent. */
  function CleanParam(posted: Option<string>): (r: string)
    ensures posted.None? ==> r == ""
    ensures posted.Some? ==> r == Strip(posted.value)
  {
    Strip(if posted.Some? then posted.value else "")
  }

  /** The two checks on the cleaned `url` before anything is written. */
  function UrlRejection(url: string): (r: Option<string>)
    ensures r.None? <==> url != "" && Contains(url, NaverDomain)
    ensures url == "" ==> r == Some("url is required")
    ensures url != "" && !Contains(url, NaverDomain) ==> r == Some("Only Naver URLs are allowed")
  {
    if url == "" then Some("url is required")
    else if !Contains(url, NaverDomain) then Some("Only Naver URLs are allowed")
    else None
  }

  predicate InFlight(s: Status)
  {
    s == Pending || s == Processing
  }

  /** The rows matched by `filter(user=…, url=…, status__in=["PENDING", "PROCESSING"])`. */
  function QueuedIds(links: map<nat, Link>, user: nat, url: string): set<nat>
  {
    set i | i in links && links[i].user == user && links[i].url == url && InFlight(links[i].status)
  }

  /** `i` is a row `.order_by("-created_at").first()` may return: a match created last. */
  predicate IsLatestQueued(links: map<nat, Link>, user: nat, url: string, i: nat)
  {
    i in QueuedIds(links, user, url)
    && forall j | j in QueuedIds(links, user, url) :: links[j].createdAt <= links[i].createdAt
  }

  /** A non-empty set of rows has a latest one. */
  lemma {:induction false} LatestExists(links: map<nat, Link>, ids: set<nat>)
    requires ids != {} && ids <= links.Keys
    ensures exists i | i in ids :: forall j | j in ids :: links[j].createdAt <= links[i].createdAt
    decreases |ids|
  {
    var x :| x in ids;
    if ids != {x} {
      var rest := ids - {x};
      LatestExists(links, rest);
      var m :| m in rest && forall j | j in rest :: links[j].createdAt <= links[m].createdAt;
      if links[x].createdAt <= links[m].createdAt {
        assert forall j | j in ids :: links[j].createdAt <= links[m].createdAt;
      } else {
        assert forall j | j in ids :: links[j].createdAt <= links[x].createdAt;
      }
    } else {
      assert forall j | j in ids :: links[j].createdAt <= links[x].createdAt;
    }
  }

  /** The `existing` query of both create views. When several rows tie, the database picks one of them. */
  method FindQueued(db: LinkStore, user: nat, url: string) returns (existing: Option<nat>)
    ensures existing.None? <==> QueuedIds(db.links, user, url) == {}
    ensures existing.Some? ==> IsLatestQueued(db.links, user, url, existing.value)
  {
    var ids := QueuedIds(db.links, user, url);
    if ids == {} {
      return None;
    }
    LatestExists(db.links, ids);
    var i :| i in ids && forall j | j in ids :: db.links[j].createdAt <= db.links[i].createdAt;
    return Some(i);
  }

  /** A fresh `Link(user=…, url=…, status="PENDING", failed_reason="", retry_count=0)` always saves. */
  lemma NewLinkAccepted(links: map<nat, Link>, id: nat, user: nat, url: string, now: nat)
    ensures SaveCheck(links, id, NewLink(user, url, now)) == Saved
  {
  }

  /** `Link.objects.create(...)` followed by `crawl_and_save_link.delay(link.id)`. */
  method CreateQueued(db: LinkStore, user: nat, url: string, now: nat) returns (id: nat)
    requires db.Valid()
    modifies db`links, db`nextId, db`queue
    ensures db.Valid()
    ensures id == old(db.nextId) && id !in old(db.links)
    ensures db.links == old(db.links)[id := NewLink(user, url, now)]
    ensures db.queue == old(db.queue) + [id]
    ensures db.nextId == old(db.nextId) + 1
  {
    var res;
    NewLinkAccepted(db.links, db.nextId, user, url, now);
    res, id := db.Create(NewLink(user, url, now));
    db.Enqueue(id);
  }

  datatype CreateResponse =
    | BadRequest(detail: string)
    | AlreadyQueued(id: nat, status: Status)
    | Queued(id: nat, status: Status)

  function CreateCode(r: CreateResponse): nat
  {
    match r
    case BadRequest(_) => 400
    case AlreadyQueued(_, _) => 200
    case Queued(_, _) => 201
  }

  /** `LinkCreateView.post`: validate, reuse an in-flight row for the same url, or create and queue one. */
  method LinkCreate(db: LinkStore, user: nat, posted: Option<string>, now: nat) returns (resp: CreateResponse)
    requires db.Valid()
    modifies db`links, db`nextId, db`queue
    ensures db.Valid()
    ensures var url := CleanParam(posted);
      UrlRejection(url).Some? ==>
        && resp == BadRequest(UrlRejection(url).value)
        && db.links == old(db.links) && db.queue == old(db.queue) && db.nextId == old(db.nextId)
    ensures var url := CleanParam(posted);
      UrlRejection(url).None? && QueuedIds(old(db.links), user, url) != {} ==>
        && resp.AlreadyQueued?
        && IsLatestQueued(old(db.links), user, url, resp.id)
        && resp.status == old(db.links)[resp.id].status
        && db.links == old(db.links) && db.queue == old(db.queue) && db.nextId == old(db.nextId)
    ensures var url := CleanParam(posted);
      UrlRejection(url).None? && QueuedIds(old(db.links), user, url) == {} ==>
        && resp == Queued(old(db.nextId), Pending)
        && old(db.nextId) !in old(db.links)
        && db.links == old(db.links)[old(db.nextId) := NewLink(user, url, now)]
        && db.queue == old(db.queue) + [old(db.nextId)]
        && db.nextId == old(db.nextId) + 1
  {
    var url := CleanParam(posted);
    var rejection := UrlRejection(url);
    if rejection.Some? {
      return BadRequest(rejection.value);
    }
    var existing := FindQueued(db, user, url);
    if existing.Some? {
      return AlreadyQueued(existing.value, db.links[existing.value].status);
    }
    var id := CreateQueued(db, user, url, now);
    resp := Queued(id, db.links[id].status);
  }

  datatype RetryResponse =
    | NotFound
    | Conflict(detail: string)
    | NotAllowed(detail: string)
    | Requeued(id: nat, status: Status)

  function RetryCode(r: RetryResponse): nat
  {
    match r
    case NotFound => 404
    case Conflict(_) => 409
    case NotAllowed(_) => 400
    case Requeued(_, _) => 200
  }

  predicate Retryable(s: Status)
  {
    s == Failed || s == Partial || s == Pending
  }

  /** `link.status = "PENDING"; link.failed_reason = ""` and nothing else. */
  function Requeue(l: Link): (r: Link)
    ensures r.status == Pending && r.failedReason == ""
    ensures r.retryCount == l.retryCount && r.user == l.user && r.url == l.url
    ensures r.naverOid == l.naverOid && r.naverAid == l.naverAid && r.createdAt == l.createdAt
    ensures r.title == l.title && r.content == l.content && r.summary == l.summary && r.tags == l.tags
    ensures r.embedding == l.embedding && r.publisher == l.publisher && r.publishedAt == l.publishedAt
    ensures r.section == l.section && r.imageUrl == l.imageUrl && r.recommendationType == l.recommendationType
  {
    l.(status := Pending, failedReason := "")
  }

  /** `LinkRetryView.post`: only the owner's FAILED, PARTIAL or PENDING rows are reset and queued again. */
  method LinkRetry(db: LinkStore, user: nat, id: nat) returns (resp: RetryResponse)
    requires db.Valid()
    modifies db`links, db`nextId, db`queue
    ensures db.Valid()
    ensures db.nextId == old(db.nextId)
    ensures (id !in old(db.links) || old(db.links)[id].user != user) ==>
      resp == NotFound && db.links == old(db.links) && db.queue == old(db.queue)
    ensures id in old(db.links) && old(db.links)[id].user == user && old(db.links)[id].status == Processing ==>
      resp == Conflict("Already processing") && db.links == old(db.links) && db.queue == old(db.queue)
    ensures id in old(db.links) && old(db.links)[id].user == user && !InFlight(old(db.links)[id].status)
            && !Retryable(old(db.links)[id].status) ==>
      resp == NotAllowed("Retry not allowed for status=" + StatusName(old(db.links)[id].status))
      && db.links == old(db.links) && db.queue == old(db.queue)
    ensures id in old(db.links) && old(db.links)[id].user == user && Retryable(old(db.links)[id].status) ==>
      && resp == Requeued(id, Pending)
      && db.links == old(db.links)[id := Requeue(old(db.links)[id])]
      && db.queue == old(db.queue) + [id]
  {
    if id !in db.links || db.links[id].user != user {
      return NotFound;
    }
    var link := db.links[id];
    if link.status == Processing {
      return Conflict("Already processing");
    }
    if !Retryable(link.status) {
      return NotAllowed("Retry not allowed for status=" + StatusName(link.status));
    }
    link := Requeue(link);
    RewriteAccepted(db.links, id, link);
    var res := db.Save(id, link);
    db.Enqueue(id);
    resp := Requeued(id, link.status);
  }

  // ---------------------------------------------------------------
  // LinkListView
  // ---------------------------------------------------------------

  const DefaultOrdering := "-created_at"
  const AllowedOrderings: set<string> :=
    {"created_at", "-created_at", "published_at", "-published_at", "updated_at", "-updated_at"}
  const ListLimit := 200

  /** `(ordering or "-created_at").strip()`, replaced by the default when it is not allowed. */
  function ResolveOrdering(param: Option<string>): (o: string)
    ensures o in AllowedOrderings
    ensures param.Some? && param.value != "" && Strip(param.value) in AllowedOrderings ==> o == Strip(param.value)
    ensures param.Some? && param.value != "" && Strip(param.value) !in AllowedOrderings ==> o == DefaultOrdering
    ensures param.None? || param.value == "" ==> o == DefaultOrdering
  {
    assert DefaultOrdering[0] == '-' && DefaultOrdering[|DefaultOrdering| - 1] == 't';
    var requested := Strip(if param.Some? && param.value != "" then param.value else DefaultOrdering);
    if requested in AllowedOrderings then requested else DefaultOrdering
  }

  /** The `status` query parameter, stripped and upper-cased; "" means no filter. */
  function StatusFilter(param: Option<string>): string
  {
    Upper(CleanParam(param))
  }

  /** `field__icontains=q`, which PostgreSQL evaluates as `UPPER(field) LIKE UPPER('%q%')`. */
  predicate IContains(field: string, q: string)
  {
    Contains(Upper(field), Upper(q))
  }

  /** The filters of `LinkListView.get` on one row: the user, then the status, then the search term. */
  predicate Listed(l: Link, user: nat, st: string, q: string)
  {
    && l.user == user
    && (st == "" || StatusName(l.status) == st)
    && (q == "" || IContains(l.title, q) || IContains(l.publisher, q) || (l.summary.Some? && IContains(l.summary.value, q)) || IContains(l.content, q))
  }

  /** The rows of `sorted` that pass the filters, in that order. */
  function FilterListed(links: map<nat, Link>, sorted: seq<nat>, user: nat, st: string, q: string): (r: seq<nat>)
    ensures |r| <= |sorted|
    ensures forall i | i in r :: i in sorted && i in links && Listed(links[i], user, st, q)
    ensures forall i | i in sorted && i in links && Listed(links[i], user, st, q) :: i in r
    ensures Seqs.Subsequence(r, sorted)
  {
    if sorted == [] then []
    else
      var init := FilterListed(links, sorted[..|sorted| - 1], user, st, q);
      var last := sorted[|sorted| - 1];
      assert sorted == sorted[..|sorted| - 1] + [last];
      assert forall i | i in sorted :: i in sorted[..|sorted| - 1] || i == last;
      Seqs.SubsequenceSnoc(init, sorted[..|sorted| - 1], last);
      if last in links && Listed(links[last], user, st, q) then init + [last] else init
  }

  /**
   * `LinkListView.get`: the ids of the rows serialised, at most 200, in the
   * database's order. `sorted` stands for the table's ids as the database
   * orders them by `ResolveOrdering(ordering)`; that order is an input.
   */
  function ListLinks(links: map<nat, Link>, sorted: seq<nat>, user: nat,
                     statusParam: Option<string>, qParam: Option<string>): (r: seq<nat>)
    ensures var all := FilterListed(links, sorted, user, StatusFilter(statusParam), CleanParam(qParam));
      && |r| <= ListLimit && |r| <= |all| && r == all[..|r|]
      && (|r| == |all| || |r| == ListLimit)
  {
    Cap(FilterListed(links, sorted, user, StatusFilter(statusParam), CleanParam(qParam)), ListLimit)
  }

  /** The first `n` elements of `xs`, or all of them when there are fewer. */
  function Cap<T>(xs: seq<T>, n: nat): (r: seq<T>)
    ensures |r| <= n && |r| <= |xs| && r == xs[..|r|]
    ensures |r| == |xs| || |r| == n
  {
    if |xs| <= n then xs else xs[..n]
  }

  // ---------------------------------------------------------------
  // get_link_context and htmx_link_create
  // ---------------------------------------------------------------

  /** The template context: the set of the user's rows and whether any is in flight. */
  datatype Context = Context(links: set<nat>, hasPending: bool)

  function LinkContext(links: map<nat, Link>, user: nat): (c: Context)
    ensures forall i :: i in c.links <==> i in links && links[i].user == user
    ensures c.hasPending <==> exists i | i in c.links :: InFlight(links[i].status)
  {
    var mine := set i | i in links && links[i].user == user;
    Context(mine, exists i | i in mine :: InFlight(links[i].status))
  }

  /** `htmx_link_create`: the same guard and reuse as `LinkCreateView.post`, then the refreshed context. */
  method HtmxLinkCreate(db: LinkStore, user: nat, posted: Option<string>, now: nat) returns (ctx: Context)
    requires db.Valid()
    modifies db`links, db`nextId, db`queue
    ensures db.Valid()
    ensures ctx == LinkContext(db.links, user)
    ensures var url := CleanParam(posted);
      UrlRejection(url).Some? || QueuedIds(old(db.links), user, url) != {} ==>
        db.links == old(db.links) && db.queue == old(db.queue) && db.nextId == old(db.nextId)
    ensures var url := CleanParam(posted);
      UrlRejection(url).None? && QueuedIds(old(db.links), user, url) == {} ==>
        && old(db.nextId) !in old(db.links)
        && db.links == old(db.links)[old(db.nextId) := NewLink(user, url, now)]
        && db.queue == old(db.queue) + [old(db.nextId)]
        && db.nextId == old(db.nextId) + 1
    ensures UrlRejection(CleanParam(posted)).None? ==> ctx.hasPending
  {
    var url := CleanParam(posted);
    if UrlRejection(url).None? {
      var existing := FindQueued(db, user, url);
      if existing.None? {
        var id := CreateQueued(db, user, url, now);
        assert id in LinkContext(db.links, user).links;
      } else {
        assert existing.value in LinkContext(db.links, user).links;
      }
    }
    ctx := LinkContext(db.links, user);
  }

  // ---------------------------------------------------------------
  // index: the tag chart
  // ---------------------------------------------------------------

  /** How often `t` occurs in `tags`: a `Counter` entry. */
  function Count(tags: seq<string>, t: string): nat
  {
    multiset(tags)[t]
  }

  /** `Counter(tags)` as a table. */
  function Counts(tags: seq<string>): (c: map<string, nat>)
    ensures forall t | t in tags :: t in c && c[t] == Count(tags, t) && c[t] > 0
  {
    map t | t in tags :: Count(tags, t)
  }

  /** The keys of `Counter(tags)` in insertion order: each tag at its first occurrence. */
  function Distinct(tags: seq<string>): (r: seq<string>)
    ensures forall t :: t in r <==> t in tags
    ensures Ranking.NoRepeats(r)
  {
    if tags == [] then []
    else
      var init := tags[..|tags| - 1];
      var d := Distinct(init);
      var last := tags[|tags| - 1];
      assert tags == init + [last];
      assert forall t :: t in tags <==> t in init || t == last;
      if last in d then d else d + [last]
  }

  /** `Counter(tags).most_common(n)`: the `n` most frequent tags with their counts, ties in first-seen order. */
  function MostCommon(tags: seq<string>, n: nat): (r: seq<(string, nat)>)
    ensures |r| == if n < |Distinct(tags)| then n else |Distinct(tags)|
    ensures forall i | 0 <= i < |r| :: r[i].0 in tags && r[i].1 == Count(tags, r[i].0) && r[i].1 > 0
  {
    var keys := Distinct(tags);
    var c := Counts(tags);
    var top := Ranking.SelectTop(keys, c, n);
    assert forall x | x in top :: x in tags;
    WithCounts(top, c)
  }

  /** Each label paired with its entry in `c`. */
  function WithCounts(top: seq<string>, c: map<string, nat>): (r: seq<(string, nat)>)
    requires forall x | x in top :: x in c
    ensures |r| == |top| && forall i | 0 <= i < |r| :: r[i] == (top[i], c[top[i]])
  {
    seq(|top|, i requires 0 <= i < |top| => (top[i], c[top[i]]))
  }

  /** `index`: gather the tags of the user's rows in query order and chart the five most common. */
  method TagChart(rows: seq<Link>) returns (labels: seq<string>, data: seq<nat>)
    ensures |labels| == |data| == |MostCommon(AllTags(rows), 5)|
    ensures forall i | 0 <= i < |labels| :: (labels[i], data[i]) == MostCommon(AllTags(rows), 5)[i]
  {
    var allTags := CollectTags(rows);
    var tagCounts := MostCommon(allTags, 5);
    var cols := Unzip(tagCounts);
    labels, data := cols.0, cols.1;
  }

  /** `[label for label, _ in pairs]` and `[count for _, count in pairs]`. */
  function Unzip<A, B>(pairs: seq<(A, B)>): (r: (seq<A>, seq<B>))
    ensures |r.0| == |r.1| == |pairs|
    ensures forall i | 0 <= i < |pairs| :: (r.0[i], r.1[i]) == pairs[i]
  {
    (seq(|pairs|, i requires 0 <= i < |pairs| => pairs[i].0), seq(|pairs|, i requires 0 <= i < |pairs| => pairs[i].1))
  }
}

module ViewsFacts {
  import opened Strings
  import opened Models
  import opened Views
  import Ranking
  import Seqs

  /** A status filter that names no status lists nothing. */
  lemma UnknownStatusListsNothing(links: map<nat, Link>, sorted: seq<nat>, user: nat,
                                  statusParam: Option<string>, qParam: Option<string>)
    requires StatusFilter(statusParam) != ""
    requires forall s: Status :: StatusName(s) != StatusFilter(statusParam)
    ensures ListLinks(links, sorted, user, statusParam, qParam) == []
  {
    NothingListed(links, sorted, user, StatusFilter(statusParam), CleanParam(qParam));
  }

  /** Every row the list view serialises belongs to the user and passes both filters. */
  lemma OnlyListedRows(links: map<nat, Link>, sorted: seq<nat>, user: nat,
                       statusParam: Option<string>, qParam: Option<string>)
    ensures forall i | i in ListLinks(links, sorted, user, statusParam, qParam) ::
      i in links && Listed(links[i], user, StatusFilter(statusParam), CleanParam(qParam))
  {
    var all := FilterListed(links, sorted, user, StatusFilter(statusParam), CleanParam(qParam));
    var r := ListLinks(links, sorted, user, statusParam, qParam);
    forall i | i in r ensures i in all {
      var k :| 0 <= k < |r| && r[k] == i;
      assert all[k] == i;
    }
  }

  lemma {:induction false} NothingListed(links: map<nat, Link>, sorted: seq<nat>, user: nat, st: string, q: string)
    requires forall i | i in links :: !Listed(links[i], user, st, q)
    ensures FilterListed(links, sorted, user, st, q) == []
  {
    if sorted != [] {
      NothingListed(links, sorted[..|sorted| - 1], user, st, q);
    }
  }

  /** A row made by the create views is listed under PENDING and under no other status filter. */
  lemma CreatedRowListedAsPending(links: map<nat, Link>, sorted: seq<nat>, user: nat, url: string, now: nat, id: nat)
    requires id in sorted
    ensures var l := links[id := NewLink(user, url, now)];
      && id in FilterListed(l, sorted, user, "PENDING", "")
      && id !in FilterListed(l, sorted, user, "COMPLETED", "")
  {
  }

  /** `most_common` lists distinct tags by non-increasing count. */
  lemma {:induction false} MostCommonOrdered(tags: seq<string>, n: nat)
    ensures var r := MostCommon(tags, n);
      forall i, j | 0 <= i < j < |r| :: r[i].1 >= r[j].1 && r[i].0 != r[j].0
  {
    var keys := Distinct(tags);
    var c := Counts(tags);
    assert forall x | x in keys :: x in c;
    var top := Ranking.SelectTop(keys, c, n);
    Ranking.SelectTopSorted(keys, c, n);
    Ranking.SelectTopDistinct(keys, c, n);
    var r := MostCommon(tags, n);
    forall i, j | 0 <= i < j < |r|
      ensures r[i].1 >= r[j].1 && r[i].0 != r[j].0
    {
      assert r[i].0 == top[i] && r[j].0 == top[j];
    }
  }

  /** No tag left out of `most_common(n)` occurs more often than a tag in it. */
  lemma {:induction false} MostCommonIsTop(tags: seq<string>, n: nat, t: string, i: nat)
    requires t in tags && i < |MostCommon(tags, n)|
    requires forall k | 0 <= k < |MostCommon(tags, n)| :: MostCommon(tags, n)[k].0 != t
    ensures Count(tags, t) <= MostCommon(tags, n)[i].1
  {
    var keys := Distinct(tags);
    var c := Counts(tags);
    var top := Ranking.SelectTop(keys, c, n);
    MostCommonKeys(tags, n);
    assert top[i] in top;
    assert t !in top by {
      LabelsAbsent(top, MostCommon(tags, n), t);
    }
    Ranking.SelectTopIsTop(keys, c, n, t, top[i]);
  }

  /** A label on no pair is not in the sequence of labels. */
  lemma LabelsAbsent(top: seq<string>, r: seq<(string, nat)>, t: string)
    requires |r| == |top| && forall i | 0 <= i < |r| :: r[i].0 == top[i]
    requires forall k | 0 <= k < |r| :: r[k].0 != t
    ensures t !in top
  {
  }

  /**
   * Ties in `most_common` keep first-seen order: when `t` and `u` occur
   * equally often and `t` was seen first, wherever `u` is listed `t` is
   * listed before it.
   */
  lemma MostCommonTies(tags: seq<string>, n: nat, t: string, u: string, q: nat)
    requires t in tags && u in tags && Count(tags, t) == Count(tags, u)
    requires Seqs.IndexOf(tags, t) < Seqs.IndexOf(tags, u)
    requires q < |MostCommon(tags, n)| && MostCommon(tags, n)[q].0 == u
    ensures exists p | 0 <= p < q :: MostCommon(tags, n)[p].0 == t
  {
    var keys := Distinct(tags);
    var c := Counts(tags);
    var top := Ranking.SelectTop(keys, c, n);
    MostCommonKeys(tags, n);
    DistinctFirstSeen(tags, t, u);
    Ranking.SelectTopStable(keys, c, n, t, u, Seqs.IndexOf(keys, t));
    LabelsFollow(top, MostCommon(tags, n), t, u, q);
  }

  /** Pairs labelled by `top` inherit its ties-first order. */
  lemma LabelsFollow(top: seq<string>, r: seq<(string, nat)>, t: string, u: string, q: nat)
    requires |r| == |top| && forall i | 0 <= i < |r| :: r[i].0 == top[i]
    requires forall k | 0 <= k < |top| && top[k] == u :: t in top[..k]
    requires q < |r| && r[q].0 == u
    ensures exists p | 0 <= p < q :: r[p].0 == t
  {
    assert top[q] == u;
    var p :| 0 <= p < q && top[..q][p] == t;
    assert r[p].0 == t;
  }

  /** The tags of `most_common(n)` are the ranking's selection from the distinct tags. */
  lemma MostCommonKeys(tags: seq<string>, n: nat)
    ensures forall x | x in Distinct(tags) :: x in Counts(tags)
    ensures var top := Ranking.SelectTop(Distinct(tags), Counts(tags), n);
      && |MostCommon(tags, n)| == |top|
      && forall i | 0 <= i < |top| :: MostCommon(tags, n)[i].0 == top[i]
  {
  }

  /** The keys of `Counter(tags)` come in the order of their first occurrence in `tags`. */
  lemma {:induction false} DistinctFirstSeenOrder(tags: seq<string>, i: nat, j: nat)
    requires i < j < |Distinct(tags)|
    ensures Seqs.IndexOf(tags, Distinct(tags)[i]) < Seqs.IndexOf(tags, Distinct(tags)[j])
    decreases |tags|
  {
    var init := tags[..|tags| - 1];
    var last := tags[|tags| - 1];
    var d := Distinct(init);
    assert tags == init + [last];
    assert d[i] in d && d[i] in init;
    Seqs.IndexOfAppend(init, last);
    if j < |d| {
      assert d[j] in d && d[j] in init;
      DistinctFirstSeenOrder(init, i, j);
    } else {
      assert last !in d && Distinct(tags)[j] == last;
    }
  }

  /** A tag seen before another also comes before it, and before any place of it, among the distinct tags. */
  lemma DistinctFirstSeen(tags: seq<string>, t: string, u: string)
    requires t in tags && u in tags && Seqs.IndexOf(tags, t) < Seqs.IndexOf(tags, u)
    ensures var keys := Distinct(tags);
      t in keys && forall k | 0 <= k <= Seqs.IndexOf(keys, t) :: keys[k] != u
  {
    var keys := Distinct(tags);
    var i := Seqs.IndexOf(keys, t);
    forall k | 0 <= k <= i
      ensures keys[k] != u
    {
      if k < i {
        DistinctFirstSeenOrder(tags, k, i);
      }
    }
  }
}
