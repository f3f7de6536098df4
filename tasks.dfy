/**
 * `links/tasks.py`: the `crawl_and_save_link` task (claim, retry decision,
 * finalize mapping, field merge, duplicate merge) and the periodic
 * `retry_failed_links` sweep, on a `Models.LinkStore`.
 *
 * The task's three transactions run one after another on one store. The
 * crawler's result, the AI summary and tags, and the embedding are inputs;
 * `attempt` is Celery's count of retries already made for this delivery.
 */
module Tasks {
  import opened Strings
  import opened Models
  import opened Crawler

  const RetryableReasonPrefixes: seq<string> := ["FETCH_TIMEOUT", "FETCH_REQUEST_EXCEPTION", "CONNECTION_FAILED", "NETWORK_ERROR"]
  const RetryableHttpStatus: set<nat> := {429, 500, 502, 503, 504}
  /** `@shared_task(bind=True, max_retries=3)`. */
  const MaxRetries: nat := 3

  /** `any(reason.startswith(pfx) for pfx in prefixes)`. */
  function AnyPrefix(s: string, prefixes: seq<string>): (b: bool)
    ensures b <==> exists k | 0 <= k < |prefixes| :: StartsWith(s, prefixes[k])
  {
    if prefixes == [] then false
    else StartsWith(s, prefixes[0]) || AnyPrefix(s, prefixes[1..])
  }

  /** The `is_retryable` test of lines 71-74. */
  function IsRetryable(httpStatus: Option<nat>, reason: string): (b: bool)
    ensures b <==> (httpStatus.Some? && httpStatus.value in RetryableHttpStatus)
                   || exists k | 0 <= k < |RetryableReasonPrefixes| :: StartsWith(reason, RetryableReasonPrefixes[k])
  {
    (httpStatus.Some? && httpStatus.value in RetryableHttpStatus) || AnyPrefix(reason, RetryableReasonPrefixes)
  }

  /**
   * A truthy result of `generate_summary_and_tags`: `data.get("summary", "")`
   * and `data.get("tags", [])` of the model's JSON. A key the JSON gives as
   * `null` reads as None; a missing key reads as `""` or `[]`.
   */
  datatype Enrichment = Enrichment(summary: Option<string>, tags: Option<seq<string>>)

  /** How one run of `crawl_and_save_link` ends. */
  datatype TaskOutcome =
    | LinkNotFound
    | AlreadyFinalized(status: Status)
    | AlreadyProcessing
    | RetryScheduled
    | MaxRetriesExceeded
    | ProcessedFailed
    | ProcessedSaved(saved: Status, refreshUser: nat)   // the profile of `refreshUser` is then refreshed
    | IntegrityWithoutIdentity
    | DuplicateNotFound
    | MarkedDuplicate(original: nat)
    | Crashed                                           // `ValueError` or `IntegrityError` escaped; the transaction rolled back

  // ---------------------------------------------------------------
  // Step 1: claim (lines 37-61)
  // ---------------------------------------------------------------

  predicate IsFinal(s: Status)
  {
    s == Completed || s == Partial || s == Failed
  }

  /** The early return of the claim step, or None when the row is claimed. */
  function ClaimOutcome(links: map<nat, Link>, id: nat): (r: Option<TaskOutcome>)
    ensures r.None? <==> id in links && (links[id].status == Pending || links[id].status == Recommended)
  {
    if id !in links then Some(LinkNotFound)
    else if IsFinal(links[id].status) then Some(AlreadyFinalized(links[id].status))
    else if links[id].status == Processing then Some(AlreadyProcessing)
    else None
  }

  function Claimed(links: map<nat, Link>, id: nat): map<nat, Link>
    requires id in links
  {
    links[id := links[id].(status := Processing)]
  }

  // ---------------------------------------------------------------
  // Step 2: retry decision (lines 66-98)
  // ---------------------------------------------------------------

  function RetryingReason(reason: string): string
  {
    "RETRYING: " + (if reason == "" then "RETRYABLE_FAILURE" else reason)
  }

  /** The retry bookkeeping, committed before `self.retry` raises. */
  function AfterRetry(l: Link, reason: string): Link
  {
    l.(retryCount := l.retryCount + 1, failedReason := RetryingReason(reason))
  }

  /** The `MaxRetriesExceededError` handler; it uses the crawler's reason as it came. */
  function AfterGiveUp(l: Link, rawReason: string): Link
  {
    l.(status := Failed, failedReason := "MAX_RETRIES_EXCEEDED: " + rawReason)
  }

  predicate TakesRetryPath(data: CrawlResult)
  {
    data.status == CrawlFailed && IsRetryable(data.httpStatus, Strip(data.failedReason))
  }

  /** The retry step on a claimed row: None when the task goes on to finalize. */
  function RetrySpec(links: map<nat, Link>, id: nat, data: CrawlResult, attempt: nat): (Option<TaskOutcome>, map<nat, Link>)
    requires id in links
  {
    if !TakesRetryPath(data) then (None, links)
    else
      var retried: map<nat, Link> := links[id := AfterRetry(links[id], Strip(data.failedReason))];
      var givenUp: map<nat, Link> := retried[id := AfterGiveUp(retried[id], data.failedReason)];
      if attempt < MaxRetries then (Some(RetryScheduled), retried) else (Some(MaxRetriesExceeded), givenUp)
  }

  // ---------------------------------------------------------------
  // Step 3: finalize (lines 101-164)
  // ---------------------------------------------------------------

  /** A truthy embedding (`if vector:`). */
  predicate HasVector(v: Option<seq<real>>)
  {
    v.Some? && |v.value| > 0
  }

  /** The crawler's status mapped to the row's (lines 108-122). */
  function FinalStatus(s: CrawlStatus): Status
  {
    match s
    case Success => Completed
    case SoftSuccess => Partial
    case CrawlFailed => Failed
  }

  /** The row's reason after a SUCCESS or SOFT_SUCCESS crawl. */
  function FinalReason(data: CrawlResult): string
  {
    if data.status == Success then "" else "SOFT_SUCCESS: " + Strip(data.failedReason)
  }

  /** The row after a FAILED crawl that is not retried. */
  function FailedRow(l: Link, data: CrawlResult): Link
  {
    var reason := Strip(data.failedReason);
    l.(status := Failed, failedReason := if reason == "" then "CRAWLER_FAILED" else reason)
  }

  /**
   * The in-memory row after a SUCCESS or SOFT_SUCCESS crawl (lines 117-164):
   * status and reason mapped, title, content and publisher taken only when
   * non-empty, summary, tags and embedding taken only when the AI calls
   * returned something for a row with content, image, publication time and
   * identity overwritten, url replaced by a non-empty normalised URL.
   */
  function MergeFetched(l: Link, data: CrawlResult, enrich: Option<Enrichment>, vector: Option<seq<real>>): Link
  {
    var title := if data.title != "" then data.title else l.title;
    var content := if data.content != "" then data.content else l.content;
    var enriched := content != "";
    l.(status := FinalStatus(data.status),
       failedReason := FinalReason(data),
       title := title,
       content := content,
       summary := if enriched && enrich.Some? then enrich.value.summary else l.summary,
       tags := if enriched && enrich.Some? then enrich.value.tags else l.tags,
       embedding := if enriched && HasVector(vector) then vector else l.embedding,
       publisher := if data.publisher != "" then data.publisher else l.publisher,
       imageUrl := data.imageUrl,
       publishedAt := data.publishedAt,
       naverOid := data.naverOid,
       naverAid := data.naverAid,
       url := if Truthy(data.normalizedUrl) then data.normalizedUrl.value else l.url)
  }

  // ---------------------------------------------------------------
  // Step 4: duplicate merge (lines 177-232)
  // ---------------------------------------------------------------

  datatype Field = TitleField | ContentField | PublisherField | ImageUrlField | PublishedAtField

  const FieldsToFill: seq<Field> := [TitleField, ContentField, PublisherField, ImageUrlField, PublishedAtField]

  /** `getattr(l, f)` is truthy. */
  predicate HasValue(l: Link, f: Field)
  {
    match f
    case TitleField => l.title != ""
    case ContentField => l.content != ""
    case PublisherField => l.publisher != ""
    case ImageUrlField => Truthy(l.imageUrl)
    case PublishedAtField => l.publishedAt.Some?
  }

  /** `setattr(dst, f, getattr(src, f))`. */
  function CopyField(dst: Link, src: Link, f: Field): Link
  {
    match f
    case TitleField => dst.(title := src.title)
    case ContentField => dst.(content := src.content)
    case PublisherField => dst.(publisher := src.publisher)
    case ImageUrlField => dst.(imageUrl := src.imageUrl)
    case PublishedAtField => dst.(publishedAt := src.publishedAt)
  }

  predicate NeedsFill(dst: Link, src: Link, f: Field)
  {
    !HasValue(dst, f) && HasValue(src, f)
  }

  /** One turn of the `fields_to_fill` loop. */
  function FillStep(dst: Link, src: Link, f: Field): Link
  {
    if NeedsFill(dst, src, f) then CopyField(dst, src, f) else dst
  }

  /** The existing row after the first `n` turns of the loop. */
  function FilledUpTo(ex: Link, src: Link, n: nat): Link
    requires n <= |FieldsToFill|
  {
    if n == 0 then ex else FillStep(FilledUpTo(ex, src, n - 1), src, FieldsToFill[n - 1])
  }

  /** The `updated` flag after the first `n` turns of the loop. */
  predicate UpdatedUpTo(ex: Link, src: Link, n: nat)
    requires n <= |FieldsToFill|
  {
    n > 0 && (UpdatedUpTo(ex, src, n - 1) || NeedsFill(FilledUpTo(ex, src, n - 1), src, FieldsToFill[n - 1]))
  }

  /** The existing row after the merge and whether `existing.save()` runs. */
  function MergeExisting(ex: Link, cur: Link): (Link, bool)
  {
    var filled := FilledUpTo(ex, cur, |FieldsToFill|);
    (if ex.status != Completed then filled.(status := cur.status) else filled,
     UpdatedUpTo(ex, cur, |FieldsToFill|) || ex.status != Completed)
  }

  function DuplicateReason(original: nat): string
  {
    "DUPLICATE_OF:" + NatToString(original)
  }

  /** The finalize transaction on the claimed table. */
  ghost function FinalizeSpec(links: map<nat, Link>, id: nat, data: CrawlResult,
                              enrich: Option<Enrichment>, vector: Option<seq<real>>): (TaskOutcome, map<nat, Link>)
    requires id in links
  {
    var row := links[id];
    var failed: map<nat, Link> := links[id := FailedRow(row, data)];
    if data.status == CrawlFailed then (ProcessedFailed, failed)
    else SaveFetched(links, id, MergeFetched(row, data, enrich, vector))
  }

  /** `link.save()` of the merged row inside the savepoint, and what follows from its result. */
  ghost function SaveFetched(links: map<nat, Link>, id: nat, cur: Link): (TaskOutcome, map<nat, Link>)
    requires id in links
  {
    var stored: map<nat, Link> := links[id := cur];
    match SaveCheck(links, id, cur)
    case Saved => (ProcessedSaved(cur.status, cur.user), stored)
    case GuardError => (Crashed, links)
    case IntegrityError => IntegritySpec(links, id, cur)
  }

  /** The row marked FAILED with `reason` through `save(update_fields=...)`: the stored row, not `cur`. */
  function MarkFailed(links: map<nat, Link>, id: nat, reason: string): map<nat, Link>
    requires id in links
  {
    links[id := links[id].(status := Failed, failedReason := reason)]
  }

  /**
   * The `except IntegrityError` handler, on the table the failed savepoint
   * left. The `existing` query (user, oid and aid equal, another id) finds
   * a row exactly when the constraint conflicts; an error raised by a NULL
   * column alone finds none.
   */
  ghost function IntegritySpec(links: map<nat, Link>, id: nat, cur: Link): (TaskOutcome, map<nat, Link>)
    requires id in links
  {
    if !Truthy(cur.naverOid) || !Truthy(cur.naverAid) then
      (IntegrityWithoutIdentity, MarkFailed(links, id, "INTEGRITY_ERROR_WITHOUT_OID_AID"))
    else if !Conflicts(links, id, cur) then
      (DuplicateNotFound, MarkFailed(links, id, "INTEGRITY_ERROR_DUPLICATE_NOT_FOUND"))
    else
      var e :| e in links && e != id && SameIdentity(cur, links[e]);
      DuplicateSpec(links, id, cur, e)
  }

  /** Merging into the row `e` that already holds the identity, then marking the current row. */
  function DuplicateSpec(links: map<nat, Link>, id: nat, cur: Link, e: nat): (TaskOutcome, map<nat, Link>)
    requires id in links && e in links
  {
    var (ex, updated) := MergeExisting(links[e], cur);
    if updated && SaveCheck(links, e, ex) != Saved then (Crashed, links)
    else
      var merged: map<nat, Link> := if updated then links[e := ex] else links;
      var marked: map<nat, Link> := merged[id := links[id].(status := Failed, failedReason := DuplicateReason(e))];
      (MarkedDuplicate(e), marked)
  }

  /** One run of `crawl_and_save_link(id)`: its outcome and the table it leaves. */
  ghost function CrawlSpec(links: map<nat, Link>, id: nat, data: CrawlResult, attempt: nat,
                           enrich: Option<Enrichment>, vector: Option<seq<real>>): (TaskOutcome, map<nat, Link>)
  {
    var early := ClaimOutcome(links, id);
    if early.Some? then (early.value, links)
    else
      var claimed := Claimed(links, id);
      var retry := RetrySpec(claimed, id, data, attempt);
      if retry.0.Some? then (retry.0.value, retry.1)
      else FinalizeSpec(claimed, id, data, enrich, vector)
  }

  // ---------------------------------------------------------------
  // The task on the store
  // ---------------------------------------------------------------

  method Claim(db: LinkStore, id: nat) returns (early: Option<TaskOutcome>)
    requires db.Valid()
    modifies db`links, db`nextId
    ensures db.Valid() && db.nextId == old(db.nextId)
    ensures early == ClaimOutcome(old(db.links), id)
    ensures db.links == if early.None? then Claimed(old(db.links), id) else old(db.links)
  {
    early := ClaimOutcome(db.links, id);
    if early.None? {
      var row := db.links[id].(status := Processing);
      RewriteAccepted(db.links, id, row);
      var res := db.Save(id, row);
    }
  }

  method RetryStep(db: LinkStore, id: nat, data: CrawlResult, attempt: nat) returns (early: Option<TaskOutcome>)
    requires db.Valid() && id in db.links && db.links[id].status == Processing
    modifies db`links, db`nextId
    ensures db.Valid() && db.nextId == old(db.nextId)
    ensures (early, db.links) == RetrySpec(old(db.links), id, data, attempt)
  {
    var reason := Strip(data.failedReason);
    if data.status == CrawlFailed && IsRetryable(data.httpStatus, reason) {
      var row := AfterRetry(db.links[id], reason);
      RewriteAccepted(db.links, id, row);
      var res := db.Save(id, row);
      if attempt < MaxRetries {
        early := Some(RetryScheduled);
      } else {
        var failed := AfterGiveUp(db.links[id], data.failedReason);
        RewriteAccepted(db.links, id, failed);
        res := db.Save(id, failed);
        early := Some(MaxRetriesExceeded);
      }
    } else {
      early := None;
    }
  }

  /** The `fields_to_fill` loop: fill the existing row's empty fields from `cur`. */
  method FillExisting(ex: Link, cur: Link) returns (r: Link, updated: bool)
    ensures r == FilledUpTo(ex, cur, |FieldsToFill|) && updated == UpdatedUpTo(ex, cur, |FieldsToFill|)
  {
    r, updated := ex, false;
    for i := 0 to |FieldsToFill|
      invariant r == FilledUpTo(ex, cur, i) && updated == UpdatedUpTo(ex, cur, i)
    {
      var f := FieldsToFill[i];
      if !HasValue(r, f) && HasValue(cur, f) {
        r := CopyField(r, cur, f);
        updated := true;
      }
    }
  }

  method Finalize(db: LinkStore, id: nat, data: CrawlResult, enrich: Option<Enrichment>, vector: Option<seq<real>>)
    returns (out: TaskOutcome)
    requires db.Valid() && id in db.links && db.links[id].status == Processing
    modifies db`links, db`nextId
    ensures db.Valid() && db.nextId == old(db.nextId)
    ensures (out, db.links) == FinalizeSpec(old(db.links), id, data, enrich, vector)
  {
    var row := db.links[id];
    if data.status == CrawlFailed {
      RewriteAccepted(db.links, id, FailedRow(row, data));
      var res := db.Save(id, FailedRow(row, data));
      return ProcessedFailed;
    }
    var cur := MergeFetched(row, data, enrich, vector);
    var res := db.Save(id, cur);
    if res == Saved {
      return ProcessedSaved(cur.status, cur.user);
    }
    if res == GuardError {
      return Crashed;
    }
    out := HandleIntegrityError(db, id, cur);
  }

  method HandleIntegrityError(db: LinkStore, id: nat, cur: Link) returns (out: TaskOutcome)
    requires db.Valid() && id in db.links && db.links[id].status == Processing
    modifies db`links, db`nextId
    ensures db.Valid() && db.nextId == old(db.nextId)
    ensures (out, db.links) == IntegritySpec(old(db.links), id, cur)
  {
    var row := db.links[id];
    if !Truthy(cur.naverOid) || !Truthy(cur.naverAid) {
      var failed := row.(status := Failed, failedReason := "INTEGRITY_ERROR_WITHOUT_OID_AID");
      RewriteAccepted(db.links, id, failed);
      var res := db.Save(id, failed);
      return IntegrityWithoutIdentity;
    }
    // The `existing` query: another row of this user with the same oid and aid.
    if !Conflicts(db.links, id, cur) {
      var failed := row.(status := Failed, failedReason := "INTEGRITY_ERROR_DUPLICATE_NOT_FOUND");
      RewriteAccepted(db.links, id, failed);
      var res := db.Save(id, failed);
      return DuplicateNotFound;
    }
    var e :| e in db.links && e != id && SameIdentity(cur, db.links[e]);
    ghost var chosen :| chosen in db.links && chosen != id && SameIdentity(cur, db.links[chosen]);
    OnlyDuplicate(db.links, id, cur, e, chosen);
    out := MergeDuplicate(db, id, cur, e);
  }

  method MergeDuplicate(db: LinkStore, id: nat, cur: Link, e: nat) returns (out: TaskOutcome)
    requires db.Valid() && id in db.links && e in db.links && e != id && db.links[id].status == Processing
    modifies db`links, db`nextId
    ensures db.Valid() && db.nextId == old(db.nextId)
    ensures (out, db.links) == DuplicateSpec(old(db.links), id, cur, e)
  {
    var row := db.links[id];
    var ex, updated := FillExisting(db.links[e], cur);
    if db.links[e].status != Completed {
      ex := ex.(status := cur.status);
      updated := true;
    }
    if updated {
      var res := db.Save(e, ex);
      if res != Saved {
        return Crashed;
      }
    }
    var marked := row.(status := Failed, failedReason := DuplicateReason(e));
    assert db.links[id] == row;
    RewriteAccepted(db.links, id, marked);
    var res := db.Save(id, marked);
    out := MarkedDuplicate(e);
  }

  /** Under the constraint at most one other row carries a given identity. */
  lemma OnlyDuplicate(links: map<nat, Link>, id: nat, cur: Link, e: nat, e': nat)
    requires Unique(links)
    requires e in links && e != id && SameIdentity(cur, links[e])
    requires e' in links && e' != id && SameIdentity(cur, links[e'])
    ensures e == e'
  {
    if e != e' {
      assert SameIdentity(links[e], links[e']);
    }
  }

  /** The run splits into the claim, the retry decision and the finalize transaction. */
  lemma CrawlPhases(links: map<nat, Link>, id: nat, data: CrawlResult, attempt: nat,
                    enrich: Option<Enrichment>, vector: Option<seq<real>>)
    ensures ClaimOutcome(links, id).None? && !TakesRetryPath(data) ==>
      CrawlSpec(links, id, data, attempt, enrich, vector) == FinalizeSpec(Claimed(links, id), id, data, enrich, vector)
  {
  }

  lemma FinalizeNeverRetries(links: map<nat, Link>, id: nat, data: CrawlResult,
                             enrich: Option<Enrichment>, vector: Option<seq<real>>)
    requires id in links
    ensures FinalizeSpec(links, id, data, enrich, vector).0 != RetryScheduled
    ensures FinalizeSpec(links, id, data, enrich, vector).0 != MaxRetriesExceeded
  {
    var row := links[id];
    if data.status != CrawlFailed {
      var cur := MergeFetched(row, data, enrich, vector);
      if SaveCheck(links, id, cur) == IntegrityError {
        IntegrityOutcomes(links, id, cur);
      }
    }
  }

  lemma IntegrityOutcomes(links: map<nat, Link>, id: nat, cur: Link)
    requires id in links
    ensures var out := IntegritySpec(links, id, cur).0;
      out.IntegrityWithoutIdentity? || out.DuplicateNotFound? || out.MarkedDuplicate? || out.Crashed?
  {
  }

  /**
   * `crawl_and_save_link(id)`: claim, retry decision, finalize. A scheduled
   * retry puts the id back on the broker's queue.
   */
  method CrawlAndSaveLink(db: LinkStore, id: nat, data: CrawlResult, attempt: nat,
                          enrich: Option<Enrichment>, vector: Option<seq<real>>) returns (out: TaskOutcome)
    requires db.Valid()
    modifies db`links, db`nextId, db`queue
    ensures db.Valid() && db.nextId == old(db.nextId)
    ensures (out, db.links) == CrawlSpec(old(db.links), id, data, attempt, enrich, vector)
    ensures out == RetryScheduled ==> db.queue == old(db.queue) + [id]
    ensures out != RetryScheduled ==> db.queue == old(db.queue)
  {
    var early := Claim(db, id);
    if early.Some? {
      return early.value;
    }
    early := RetryStep(db, id, data, attempt);
    if early.Some? {
      out := early.value;
      if out == RetryScheduled {
        db.Enqueue(id);
      }
      return;
    }
    FinalizeNeverRetries(db.links, id, data, enrich, vector);
    out := Finalize(db, id, data, enrich, vector);
  }

  // ---------------------------------------------------------------
  // retry_failed_links (lines 235-255)
  // ---------------------------------------------------------------

  predicate RetryEligible(l: Link)
  {
    l.status == Failed && l.retryCount < 3
  }

  function EligibleIds(links: map<nat, Link>): set<nat>
  {
    set k | k in links && RetryEligible(links[k])
  }

  /** Every eligible row back to PENDING, everything else as it was. */
  function ResetFailed(links: map<nat, Link>): map<nat, Link>
  {
    map k | k in links :: if RetryEligible(links[k]) then links[k].(status := Pending) else links[k]
  }

  method RetryFailedLinks(db: LinkStore) returns (count: nat)
    requires db.Valid()
    modifies db
    ensures db.Valid() && db.nextId == old(db.nextId)
    ensures db.links == ResetFailed(old(db.links))
    ensures count == |EligibleIds(old(db.links))|
    ensures |db.queue| == |old(db.queue)| + count && db.queue[..|old(db.queue)|] == old(db.queue)
    ensures forall x :: x in db.queue[|old(db.queue)|..] <==> x in EligibleIds(old(db.links))
  {
    ghost var start := db.links;
    ghost var q0 := db.queue;
    var todo := EligibleIds(db.links);
    ghost var done: set<nat> := {};
    ghost var added: seq<nat> := [];
    count := 0;
    while todo != {}
      invariant db.Valid() && db.nextId == old(db.nextId)
      invariant LoopState(start, todo, done, added, count)
      invariant db.links == PartlyReset(start, done)
      invariant db.queue == q0 + added
      decreases |todo|
    {
      var k :| k in todo;
      PendingRow(start, todo, done, added, count, k);
      ResetOne(db, k);
      PartlyResetStep(start, done, k);
      LoopStateStep(start, todo, done, added, count, k);
      AppendOne(q0, added, k);
      todo := todo - {k};
      done := done + {k};
      added := added + [k];
      count := count + 1;
    }
    SplitQueue(q0, added);
    LoopStateDone(start, done, added, count);
    PartlyResetAll(start);
  }

  /** The loop body: one row back to PENDING with a full `save()`, then queued. */
  method ResetOne(db: LinkStore, k: nat)
    requires db.Valid() && k in db.links && db.links[k].status == Failed
    modifies db
    ensures db.Valid() && db.nextId == old(db.nextId)
    ensures db.links == old(db.links)[k := old(db.links)[k].(status := Pending)]
    ensures db.queue == old(db.queue) + [k]
  {
    var row := db.links[k].(status := Pending);
    RewriteAccepted(db.links, k, row);
    var res := db.Save(k, row);
    db.Enqueue(k);
  }

  lemma AppendOne(q0: seq<nat>, added: seq<nat>, k: nat)
    ensures (q0 + added) + [k] == q0 + (added + [k])
  {
  }

  lemma SplitQueue(q0: seq<nat>, added: seq<nat>)
    ensures (q0 + added)[..|q0|] == q0 && (q0 + added)[|q0|..] == added && |q0 + added| == |q0| + |added|
  {
  }

  /** The table once the rows in `done` have been reset. */
  ghost function PartlyReset(links: map<nat, Link>, done: set<nat>): map<nat, Link>
  {
    map k | k in links :: if k in done then links[k].(status := Pending) else links[k]
  }

  /** The bookkeeping of the sweep: `done` reset so far, `todo` still to go, `added` queued. */
  ghost predicate LoopState(links: map<nat, Link>, todo: set<nat>, done: set<nat>, added: seq<nat>, count: nat)
  {
    && todo + done == EligibleIds(links) && todo * done == {}
    && count == |done| == |added|
    && forall x :: x in added <==> x in done
  }

  lemma LoopStateStep(links: map<nat, Link>, todo: set<nat>, done: set<nat>, added: seq<nat>, count: nat, k: nat)
    requires LoopState(links, todo, done, added, count) && k in todo
    ensures LoopState(links, todo - {k}, done + {k}, added + [k], count + 1)
  {
  }

  lemma LoopStateDone(links: map<nat, Link>, done: set<nat>, added: seq<nat>, count: nat)
    requires LoopState(links, {}, done, added, count)
    ensures done == EligibleIds(links) && count == |EligibleIds(links)| == |added|
    ensures forall x :: x in added <==> x in EligibleIds(links)
  {
  }

  lemma PendingRow(links: map<nat, Link>, todo: set<nat>, done: set<nat>, added: seq<nat>, count: nat, k: nat)
    requires LoopState(links, todo, done, added, count) && k in todo
    ensures k in links && k !in done && PartlyReset(links, done)[k] == links[k] && links[k].status == Failed
  {
    assert k in EligibleIds(links);
    assert todo * done == {};
    assert k !in done by {
      assert k in todo;
      assert k !in todo * done;
    }
  }

  lemma PartlyResetStep(links: map<nat, Link>, done: set<nat>, k: nat)
    requires k in links && k !in done
    ensures PartlyReset(links, done)[k := links[k].(status := Pending)] == PartlyReset(links, done + {k})
  {
  }

  lemma PartlyResetAll(links: map<nat, Link>)
    ensures PartlyReset(links, EligibleIds(links)) == ResetFailed(links)
  {
  }
}

module TasksFacts {
  import opened Strings
  import opened Models
  import opened Crawler
  import opened Tasks

  /**
   * The claim guard: a missing row, a finalised row and a row being
   * processed are all left alone; PENDING and RECOMMENDED rows are claimed.
   */
  lemma ClaimGuard(links: map<nat, Link>, id: nat, data: CrawlResult, attempt: nat,
                   enrich: Option<Enrichment>, vector: Option<seq<real>>)
    ensures id !in links ==> CrawlSpec(links, id, data, attempt, enrich, vector) == (LinkNotFound, links)
    ensures id in links && IsFinal(links[id].status) ==>
      CrawlSpec(links, id, data, attempt, enrich, vector) == (AlreadyFinalized(links[id].status), links)
    ensures id in links && links[id].status == Processing ==>
      CrawlSpec(links, id, data, attempt, enrich, vector) == (AlreadyProcessing, links)
    ensures id in links && (links[id].status == Pending || links[id].status == Recommended) ==>
      Claimed(links, id)[id] == links[id].(status := Processing)
      && forall k | k in links && k != id :: Claimed(links, id)[k] == links[k]
  {
  }

  /** The retry path is taken exactly for a claimed row with a retryable FAILED crawl. */
  lemma RetryPathExactly(links: map<nat, Link>, id: nat, data: CrawlResult, attempt: nat,
                         enrich: Option<Enrichment>, vector: Option<seq<real>>)
    ensures var out := CrawlSpec(links, id, data, attempt, enrich, vector).0;
      && (out == RetryScheduled <==> ClaimOutcome(links, id).None? && TakesRetryPath(data) && attempt < MaxRetries)
      && (out == MaxRetriesExceeded <==> ClaimOutcome(links, id).None? && TakesRetryPath(data) && attempt >= MaxRetries)
  {
    if ClaimOutcome(links, id).None? && !TakesRetryPath(data) {
      FinalizeNeverRetries(Claimed(links, id), id, data, enrich, vector);
    }
  }

  /**
   * A retry step adds exactly one to retry_count, records the reason with
   * the `RETRYING: ` prefix and leaves the row PROCESSING; once the budget
   * is spent the row is FAILED with the crawler's reason after
   * `MAX_RETRIES_EXCEEDED: `.
   */
  lemma RetryBookkeeping(links: map<nat, Link>, id: nat, data: CrawlResult, attempt: nat,
                         enrich: Option<Enrichment>, vector: Option<seq<real>>)
    ensures var (out, after) := CrawlSpec(links, id, data, attempt, enrich, vector);
      && (out == RetryScheduled ==>
            after == links[id := links[id].(status := Processing, retryCount := links[id].retryCount + 1,
                                            failedReason := RetryingReason(Strip(data.failedReason)))])
      && (out == MaxRetriesExceeded ==>
            after == links[id := links[id].(status := Failed, retryCount := links[id].retryCount + 1,
                                            failedReason := "MAX_RETRIES_EXCEEDED: " + data.failedReason)])
  {
    RetryPathExactly(links, id, data, attempt, enrich, vector);
  }

  /**
   * The finalize mapping on a claimed row that is not retried: FAILED keeps
   * retry_count and records the reason or `CRAWLER_FAILED`; an accepted
   * save stores the merged row, COMPLETED with an empty reason or PARTIAL
   * with the `SOFT_SUCCESS: ` prefix, and refreshes the owner's profile.
   */
  lemma FinalizeMapping(links: map<nat, Link>, id: nat, data: CrawlResult,
                        enrich: Option<Enrichment>, vector: Option<seq<real>>)
    requires id in links
    ensures var (out, after) := FinalizeSpec(links, id, data, enrich, vector);
      && (data.status == CrawlFailed ==>
            out == ProcessedFailed
            && after == links[id := links[id].(status := Failed,
                 failedReason := if Strip(data.failedReason) == "" then "CRAWLER_FAILED" else Strip(data.failedReason))])
      && (out.ProcessedSaved? ==>
            && after == links[id := MergeFetched(links[id], data, enrich, vector)]
            && out.saved == FinalStatus(data.status) && out.refreshUser == links[id].user
            && (data.status == Success ==> out.saved == Completed && after[id].failedReason == "")
            && (data.status == SoftSuccess ==>
                  out.saved == Partial && after[id].failedReason == "SOFT_SUCCESS: " + Strip(data.failedReason)))
  {
    if data.status != CrawlFailed {
      SavedRow(links, id, MergeFetched(links[id], data, enrich, vector));
    }
  }

  /** An accepted save stores the merged row and reports its status and owner. */
  lemma SavedRow(links: map<nat, Link>, id: nat, cur: Link)
    requires id in links
    ensures var (out, after) := SaveFetched(links, id, cur);
      out.ProcessedSaved? ==> out == ProcessedSaved(cur.status, cur.user) && after == links[id := cur]
  {
    if SaveCheck(links, id, cur) == IntegrityError {
      IntegrityOutcomes(links, id, cur);
    }
  }

  /**
   * The table `r.1` keeps every row of `links`, changes no row other than
   * `id` and the original named by a `MarkedDuplicate` outcome, and is
   * `links` itself after a crash.
   */
  ghost predicate Confined(links: map<nat, Link>, id: nat, r: (TaskOutcome, map<nat, Link>))
  {
    && r.1.Keys == links.Keys
    && (forall k | k in links && k != id && r.0 != MarkedDuplicate(k) :: r.1[k] == links[k])
    && (r.0 == Crashed ==> r.1 == links)
  }

  /** The integrity handler and the duplicate merge leave their own row FAILED unless they crash. */
  ghost predicate ConflictHandled(links: map<nat, Link>, id: nat, r: (TaskOutcome, map<nat, Link>))
  {
    && Confined(links, id, r)
    && (r.0 != Crashed ==> id in r.1 && r.1[id].status == Failed)
    && (r.0.IntegrityWithoutIdentity? || r.0.DuplicateNotFound? || r.0.MarkedDuplicate? || r.0.Crashed?)
  }

  /**
   * What finalize leaves: no row deleted, only its own row and the
   * original of a duplicate touched, a crash leaving the table as it was,
   * and its own row in a final status unless it crashed.
   */
  lemma FinalizeShape(links: map<nat, Link>, id: nat, data: CrawlResult,
                      enrich: Option<Enrichment>, vector: Option<seq<real>>)
    requires id in links
    ensures Confined(links, id, FinalizeSpec(links, id, data, enrich, vector))
    ensures var (out, after) := FinalizeSpec(links, id, data, enrich, vector);
      && (out != Crashed ==> id in after && IsFinal(after[id].status))
      && (out.ProcessedFailed? || out.ProcessedSaved? || out.IntegrityWithoutIdentity? || out.DuplicateNotFound?
          || out.MarkedDuplicate? || out.Crashed?)
  {
    if data.status != CrawlFailed {
      SaveFetchedShape(links, id, MergeFetched(links[id], data, enrich, vector));
    }
  }

  lemma SaveFetchedShape(links: map<nat, Link>, id: nat, cur: Link)
    requires id in links && IsFinal(cur.status)
    ensures Confined(links, id, SaveFetched(links, id, cur))
    ensures var (out, after) := SaveFetched(links, id, cur);
      && (out != Crashed ==> id in after && IsFinal(after[id].status))
      && (out.ProcessedSaved? || out.IntegrityWithoutIdentity? || out.DuplicateNotFound? || out.MarkedDuplicate? || out.Crashed?)
  {
    if SaveCheck(links, id, cur) == IntegrityError {
      IntegrityShape(links, id, cur);
    }
  }

  lemma IntegrityShape(links: map<nat, Link>, id: nat, cur: Link)
    requires id in links
    ensures ConflictHandled(links, id, IntegritySpec(links, id, cur))
  {
    if Truthy(cur.naverOid) && Truthy(cur.naverAid) {
      forall e | e in links && e != id
        ensures ConflictHandled(links, id, DuplicateSpec(links, id, cur, e))
      {
        DuplicateShape(links, id, cur, e);
      }
    }
  }

  lemma DuplicateShape(links: map<nat, Link>, id: nat, cur: Link, e: nat)
    requires id in links && e in links && e != id
    ensures ConflictHandled(links, id, DuplicateSpec(links, id, cur, e))
    ensures DuplicateSpec(links, id, cur, e).0 != IntegrityWithoutIdentity
  {
  }

  /**
   * The field merge: title, content and publisher are never replaced by an
   * empty fetched value; url changes only to a non-empty normalised URL;
   * summary, tags and embedding change only when enrichment returned a
   * value for a row with content; image, time and identity are overwritten.
   */
  lemma MergeFetchedFields(l: Link, data: CrawlResult, enrich: Option<Enrichment>, vector: Option<seq<real>>)
    ensures var r := MergeFetched(l, data, enrich, vector);
      && r.title == (if data.title == "" then l.title else data.title)
      && r.content == (if data.content == "" then l.content else data.content)
      && r.publisher == (if data.publisher == "" then l.publisher else data.publisher)
      && (r.title == "" ==> l.title == "" && data.title == "")
      && (r.url != l.url ==> Truthy(data.normalizedUrl) && r.url == data.normalizedUrl.value)
      && (r.summary != l.summary || r.tags != l.tags ==> enrich.Some? && r.content != "")
      && (r.embedding != l.embedding ==> HasVector(vector) && r.content != "" && r.embedding == vector)
      && (r.content != "" && enrich.Some? ==> r.summary == enrich.value.summary && r.tags == enrich.value.tags)
      && r.imageUrl == data.imageUrl && r.publishedAt == data.publishedAt
      && r.naverOid == data.naverOid && r.naverAid == data.naverAid
      && r.user == l.user && r.retryCount == l.retryCount && r.createdAt == l.createdAt
  {
  }

  /** A crawl result the crawler can produce for a page never trips the save guard. */
  lemma CrawledRowPassesGuard(l: Link, data: CrawlResult, enrich: Option<Enrichment>, vector: Option<seq<real>>)
    requires data.normalizedUrl.Some? && Contains(data.normalizedUrl.value, NaverDomain)
    ensures !SaveRejected(MergeFetched(l, data, enrich, vector))
  {
  }

  /**
   * The existing row's merge: each of the five fields is taken from the
   * current row exactly when the existing one is empty there and the
   * current one is not; every other field is kept; a COMPLETED row stays
   * COMPLETED, any other takes the current status.
   */
  lemma {:induction false} MergeExistingFields(ex: Link, cur: Link)
    ensures var (r, updated) := MergeExisting(ex, cur);
      && r.title == (if NeedsFill(ex, cur, TitleField) then cur.title else ex.title)
      && r.content == (if NeedsFill(ex, cur, ContentField) then cur.content else ex.content)
      && r.publisher == (if NeedsFill(ex, cur, PublisherField) then cur.publisher else ex.publisher)
      && r.imageUrl == (if NeedsFill(ex, cur, ImageUrlField) then cur.imageUrl else ex.imageUrl)
      && r.publishedAt == (if NeedsFill(ex, cur, PublishedAtField) then cur.publishedAt else ex.publishedAt)
      && r.status == (if ex.status == Completed then Completed else cur.status)
      && r.(title := ex.title, content := ex.content, publisher := ex.publisher, imageUrl := ex.imageUrl,
            publishedAt := ex.publishedAt, status := ex.status) == ex
      && (updated <==> ex.status != Completed || NeedsFill(ex, cur, TitleField) || NeedsFill(ex, cur, ContentField)
                       || NeedsFill(ex, cur, PublisherField) || NeedsFill(ex, cur, ImageUrlField)
                       || NeedsFill(ex, cur, PublishedAtField))
  {
    var s1 := FillStep(ex, cur, TitleField);
    var s2 := FillStep(s1, cur, ContentField);
    var s3 := FillStep(s2, cur, PublisherField);
    var s4 := FillStep(s3, cur, ImageUrlField);
    var s5 := FillStep(s4, cur, PublishedAtField);
    assert FilledUpTo(ex, cur, 1) == s1;
    assert FilledUpTo(ex, cur, 2) == s2;
    assert FilledUpTo(ex, cur, 3) == s3;
    assert FilledUpTo(ex, cur, 4) == s4;
    assert FilledUpTo(ex, cur, 5) == s5;
    assert NeedsFill(s1, cur, ContentField) == NeedsFill(ex, cur, ContentField);
    assert NeedsFill(s2, cur, PublisherField) == NeedsFill(ex, cur, PublisherField);
    assert NeedsFill(s3, cur, ImageUrlField) == NeedsFill(ex, cur, ImageUrlField);
    assert NeedsFill(s4, cur, PublishedAtField) == NeedsFill(ex, cur, PublishedAtField);
    assert UpdatedUpTo(ex, cur, 1) == NeedsFill(ex, cur, TitleField);
    assert UpdatedUpTo(ex, cur, 2) == (UpdatedUpTo(ex, cur, 1) || NeedsFill(ex, cur, ContentField));
    assert UpdatedUpTo(ex, cur, 3) == (UpdatedUpTo(ex, cur, 2) || NeedsFill(ex, cur, PublisherField));
    assert UpdatedUpTo(ex, cur, 4) == (UpdatedUpTo(ex, cur, 3) || NeedsFill(ex, cur, ImageUrlField));
    assert UpdatedUpTo(ex, cur, 5) == (UpdatedUpTo(ex, cur, 4) || NeedsFill(ex, cur, PublishedAtField));
  }

  /** An outcome that only the finalize transaction produces. */
  predicate FinalizeOutcome(out: TaskOutcome)
  {
    || out.ProcessedFailed? || out.ProcessedSaved? || out.IntegrityWithoutIdentity? || out.DuplicateNotFound?
    || out.MarkedDuplicate? || out.Crashed?
  }

  /** A run that ends with a finalize outcome claimed its row, did not retry, and finalized the claimed table. */
  lemma FinalizePhase(links: map<nat, Link>, id: nat, data: CrawlResult, attempt: nat,
                      enrich: Option<Enrichment>, vector: Option<seq<real>>)
    requires FinalizeOutcome(CrawlSpec(links, id, data, attempt, enrich, vector).0)
    ensures ClaimOutcome(links, id).None? && !TakesRetryPath(data)
    ensures CrawlSpec(links, id, data, attempt, enrich, vector) == FinalizeSpec(Claimed(links, id), id, data, enrich, vector)
  {
    CrawlPhases(links, id, data, attempt, enrich, vector);
  }

  /**
   * The duplicate merge: the current row becomes FAILED `DUPLICATE_OF:<id>`
   * and stays in the table; the original row keeps COMPLETED or takes
   * the current status; no row is deleted.
   */
  lemma DuplicateMerge(links: map<nat, Link>, id: nat, data: CrawlResult, attempt: nat,
                       enrich: Option<Enrichment>, vector: Option<seq<real>>)
    ensures var (out, after) := CrawlSpec(links, id, data, attempt, enrich, vector);
      out.MarkedDuplicate? ==>
        var e := out.original;
        && id in links && e in links && e != id && after.Keys == links.Keys
        && SameIdentity(MergeFetched(links[id].(status := Processing), data, enrich, vector), links[e])
        && after[id] == links[id].(status := Failed, failedReason := DuplicateReason(e))
        && after[e].status == (if links[e].status == Completed then Completed else FinalStatus(data.status))
  {
    var out := CrawlSpec(links, id, data, attempt, enrich, vector).0;
    if out.MarkedDuplicate? {
      FinalizePhase(links, id, data, attempt, enrich, vector);
      var claimed := Claimed(links, id);
      assert data.status != CrawlFailed;
      var cur := MergeFetched(claimed[id], data, enrich, vector);
      IntegrityDuplicate(claimed, id, cur);
    }
  }

  /** What the integrity handler leaves when it marks the row a duplicate of `r.0.original`. */
  ghost predicate DuplicateMarked(links: map<nat, Link>, id: nat, cur: Link, r: (TaskOutcome, map<nat, Link>))
    requires id in links
  {
    r.0.MarkedDuplicate? ==>
      var e := r.0.original;
      && e in links && e != id && r.1.Keys == links.Keys && SameIdentity(cur, links[e])
      && r.1[id] == links[id].(status := Failed, failedReason := DuplicateReason(e))
      && r.1[e].status == (if links[e].status == Completed then Completed else cur.status)
  }

  lemma IntegrityDuplicate(links: map<nat, Link>, id: nat, cur: Link)
    requires id in links
    ensures SaveCheck(links, id, cur) == IntegrityError ==> DuplicateMarked(links, id, cur, SaveFetched(links, id, cur))
  {
    forall e | e in links && e != id && SameIdentity(cur, links[e])
      ensures DuplicateMarked(links, id, cur, DuplicateSpec(links, id, cur, e))
    {
      MergeExistingFields(links[e], cur);
    }
  }

  /** The integrity error without a usable identity marks the row FAILED. */
  lemma IntegrityWithoutIdentityRow(links: map<nat, Link>, id: nat, data: CrawlResult, attempt: nat,
                                    enrich: Option<Enrichment>, vector: Option<seq<real>>)
    ensures var (out, after) := CrawlSpec(links, id, data, attempt, enrich, vector);
      out == IntegrityWithoutIdentity ==>
        id in links && after == links[id := links[id].(status := Failed, failedReason := "INTEGRITY_ERROR_WITHOUT_OID_AID")]
        && (!Truthy(data.naverOid) || !Truthy(data.naverAid))
  {
    var out := CrawlSpec(links, id, data, attempt, enrich, vector).0;
    if out == IntegrityWithoutIdentity {
      FinalizePhase(links, id, data, attempt, enrich, vector);
      var claimed := Claimed(links, id);
      assert data.status != CrawlFailed;
      IdentitylessRow(claimed, id, MergeFetched(claimed[id], data, enrich, vector));
      FailClaimed(links, id, "INTEGRITY_ERROR_WITHOUT_OID_AID");
    }
  }

  lemma IdentitylessRow(links: map<nat, Link>, id: nat, cur: Link)
    requires id in links
    ensures var (out, after) := SaveFetched(links, id, cur);
      out == IntegrityWithoutIdentity ==>
        after == links[id := links[id].(status := Failed, failedReason := "INTEGRITY_ERROR_WITHOUT_OID_AID")]
        && (!Truthy(cur.naverOid) || !Truthy(cur.naverAid))
  {
    if SaveCheck(links, id, cur) == IntegrityError {
      IntegrityShape(links, id, cur);
    }
  }

  /**
   * The handler's `if not existing` branch: the save failed, the row has an
   * identity and no other row holds it, so the error came from a NULL
   * column; the row is marked FAILED `INTEGRITY_ERROR_DUPLICATE_NOT_FOUND`
   * and nothing else changes.
   */
  lemma DuplicateNotFoundRow(links: map<nat, Link>, id: nat, data: CrawlResult, attempt: nat,
                             enrich: Option<Enrichment>, vector: Option<seq<real>>)
    ensures var (out, after) := CrawlSpec(links, id, data, attempt, enrich, vector);
      out == DuplicateNotFound ==>
        var cur := MergeFetched(links[id].(status := Processing), data, enrich, vector);
        && id in links && after == MarkFailed(links, id, "INTEGRITY_ERROR_DUPLICATE_NOT_FOUND")
        && Truthy(data.naverOid) && Truthy(data.naverAid)
        && NullColumn(cur) && !Conflicts(links, id, cur)
  {
    var out := CrawlSpec(links, id, data, attempt, enrich, vector).0;
    if out == DuplicateNotFound {
      FinalizePhase(links, id, data, attempt, enrich, vector);
      var claimed := Claimed(links, id);
      assert data.status != CrawlFailed;
      var cur := MergeFetched(claimed[id], data, enrich, vector);
      NotFoundRow(claimed, id, cur);
      FailClaimed(links, id, "INTEGRITY_ERROR_DUPLICATE_NOT_FOUND");
      ClaimedConflicts(links, id, cur);
    }
  }

  lemma NotFoundRow(links: map<nat, Link>, id: nat, cur: Link)
    requires id in links
    ensures var (out, after) := SaveFetched(links, id, cur);
      out == DuplicateNotFound ==>
        && after == MarkFailed(links, id, "INTEGRITY_ERROR_DUPLICATE_NOT_FOUND")
        && Truthy(cur.naverOid) && Truthy(cur.naverAid) && NullColumn(cur) && !Conflicts(links, id, cur)
  {
    if SaveCheck(links, id, cur) == IntegrityError {
      IntegrityShape(links, id, cur);
    }
  }

  /** The claim changes only the row the conflict test leaves out. */
  lemma ClaimedConflicts(links: map<nat, Link>, id: nat, cur: Link)
    requires id in links
    ensures Conflicts(Claimed(links, id), id, cur) == Conflicts(links, id, cur)
  {
    if Conflicts(links, id, cur) {
      var j :| j in links && j != id && SameIdentity(cur, links[j]);
      assert Claimed(links, id)[j] == links[j];
    }
  }

  /**
   * A null `summary` or `tags` from the AI reaches that branch with no
   * other row involved: a SUCCESS or SOFT_SUCCESS crawl of a new article,
   * with content and an identity no other row holds, ends FAILED
   * `INTEGRITY_ERROR_DUPLICATE_NOT_FOUND` because the merged row writes
   * NULL into a NOT NULL column.
   */
  lemma NullEnrichmentEndsNotFound(links: map<nat, Link>, id: nat, data: CrawlResult, attempt: nat,
                                   enrich: Option<Enrichment>, vector: Option<seq<real>>)
    requires id in links && (links[id].status == Pending || links[id].status == Recommended)
    requires data.status != CrawlFailed && data.content != ""
    requires data.normalizedUrl.Some? && Contains(data.normalizedUrl.value, NaverDomain)
    requires Truthy(data.naverOid) && Truthy(data.naverAid)
    requires enrich.Some? && (enrich.value.summary.None? || enrich.value.tags.None?)
    requires forall k | k in links && k != id ::
               !(links[k].user == links[id].user && links[k].naverOid == data.naverOid && links[k].naverAid == data.naverAid)
    ensures CrawlSpec(links, id, data, attempt, enrich, vector)
            == (DuplicateNotFound, MarkFailed(links, id, "INTEGRITY_ERROR_DUPLICATE_NOT_FOUND"))
  {
    var claimed := Claimed(links, id);
    var cur := MergeFetched(claimed[id], data, enrich, vector);
    CrawledRowPassesGuard(claimed[id], data, enrich, vector);
    assert NullColumn(cur);
    assert !Conflicts(claimed, id, cur) by {
      ClaimedConflicts(links, id, cur);
    }
    CrawlPhases(links, id, data, attempt, enrich, vector);
    FailClaimed(links, id, "INTEGRITY_ERROR_DUPLICATE_NOT_FOUND");
  }

  /** Failing the claimed row is failing the row as it was before the claim. */
  lemma FailClaimed(links: map<nat, Link>, id: nat, reason: string)
    requires id in links
    ensures var claimed := Claimed(links, id);
      claimed[id := claimed[id].(status := Failed, failedReason := reason)]
      == links[id := links[id].(status := Failed, failedReason := reason)]
  {
  }

  /** A crash rolls the finalize transaction back: only the claim remains. */
  lemma CrashRollsBack(links: map<nat, Link>, id: nat, data: CrawlResult, attempt: nat,
                       enrich: Option<Enrichment>, vector: Option<seq<real>>)
    ensures var (out, after) := CrawlSpec(links, id, data, attempt, enrich, vector);
      out == Crashed ==> id in links && after == Claimed(links, id)
  {
    var out := CrawlSpec(links, id, data, attempt, enrich, vector).0;
    if out == Crashed {
      FinalizePhase(links, id, data, attempt, enrich, vector);
      FinalizeShape(Claimed(links, id), id, data, enrich, vector);
    }
  }

  /** The task never deletes a row and only touches its own row and the original of a duplicate. */
  lemma TouchesOnlyItsRows(links: map<nat, Link>, id: nat, data: CrawlResult, attempt: nat,
                           enrich: Option<Enrichment>, vector: Option<seq<real>>)
    ensures var (out, after) := CrawlSpec(links, id, data, attempt, enrich, vector);
      && after.Keys == links.Keys
      && forall k | k in links && k != id && out != MarkedDuplicate(k) :: after[k] == links[k]
  {
    if ClaimOutcome(links, id).None? {
      if TakesRetryPath(data) {
        RetryBookkeeping(links, id, data, attempt, enrich, vector);
        RetryPathExactly(links, id, data, attempt, enrich, vector);
      } else {
        CrawlPhases(links, id, data, attempt, enrich, vector);
        FinalizeShape(Claimed(links, id), id, data, enrich, vector);
        ConfinedAfterClaim(links, id, FinalizeSpec(Claimed(links, id), id, data, enrich, vector));
      }
    }
  }

  lemma ConfinedAfterClaim(links: map<nat, Link>, id: nat, r: (TaskOutcome, map<nat, Link>))
    requires id in links && Confined(Claimed(links, id), id, r)
    ensures r.1.Keys == links.Keys
    ensures forall k | k in links && k != id && r.0 != MarkedDuplicate(k) :: r.1[k] == links[k]
  {
  }

  /** Every run leaves the table valid: the guard and the constraint still hold. */
  lemma CrawlKeepsTableValid(links: map<nat, Link>, id: nat, data: CrawlResult, attempt: nat,
                             enrich: Option<Enrichment>, vector: Option<seq<real>>)
    requires ValidTable(links)
    ensures ValidTable(CrawlSpec(links, id, data, attempt, enrich, vector).1)
  {
    if ClaimOutcome(links, id).None? {
      var row := links[id];
      RewriteAccepted(links, id, row.(status := Processing));
      ValidStored(links, id, row.(status := Processing));
      if TakesRetryPath(data) {
        RetryPhase(links, id, data, attempt, enrich, vector);
        RetryKeepsTableValid(Claimed(links, id), id, data, attempt);
      } else {
        CrawlPhases(links, id, data, attempt, enrich, vector);
        FinalizeKeepsTableValid(Claimed(links, id), id, data, enrich, vector);
      }
    }
  }

  /** On the retry path the run leaves what the retry step leaves on the claimed table. */
  lemma RetryPhase(links: map<nat, Link>, id: nat, data: CrawlResult, attempt: nat,
                   enrich: Option<Enrichment>, vector: Option<seq<real>>)
    requires ClaimOutcome(links, id).None? && TakesRetryPath(data)
    ensures CrawlSpec(links, id, data, attempt, enrich, vector).1 == RetrySpec(Claimed(links, id), id, data, attempt).1
  {
  }

  lemma RetryKeepsTableValid(links: map<nat, Link>, id: nat, data: CrawlResult, attempt: nat)
    requires ValidTable(links) && id in links && links[id].status == Processing
    ensures ValidTable(RetrySpec(links, id, data, attempt).1)
  {
    if TakesRetryPath(data) {
      var retried := AfterRetry(links[id], Strip(data.failedReason));
      RewriteAccepted(links, id, retried);
      ValidStored(links, id, retried);
      var l2 := links[id := retried];
      RewriteAccepted(l2, id, AfterGiveUp(retried, data.failedReason));
      ValidStored(l2, id, AfterGiveUp(retried, data.failedReason));
    }
  }

  lemma FinalizeKeepsTableValid(links: map<nat, Link>, id: nat, data: CrawlResult,
                                enrich: Option<Enrichment>, vector: Option<seq<real>>)
    requires ValidTable(links) && id in links && links[id].status == Processing
    ensures ValidTable(FinalizeSpec(links, id, data, enrich, vector).1)
  {
    var row := links[id];
    if data.status == CrawlFailed {
      RewriteAccepted(links, id, FailedRow(row, data));
      ValidStored(links, id, FailedRow(row, data));
    } else {
      var cur := MergeFetched(row, data, enrich, vector);
      ValidStored(links, id, cur);
      if SaveCheck(links, id, cur) == IntegrityError {
        IntegrityKeepsTableValid(links, id, cur);
      }
    }
  }

  lemma IntegrityKeepsTableValid(links: map<nat, Link>, id: nat, cur: Link)
    requires ValidTable(links) && id in links && links[id].status == Processing
    ensures ValidTable(IntegritySpec(links, id, cur).1)
  {
    var failed := links[id].(status := Failed, failedReason := "INTEGRITY_ERROR_WITHOUT_OID_AID");
    RewriteAccepted(links, id, failed);
    ValidStored(links, id, failed);
    var notFound := links[id].(status := Failed, failedReason := "INTEGRITY_ERROR_DUPLICATE_NOT_FOUND");
    RewriteAccepted(links, id, notFound);
    ValidStored(links, id, notFound);
    forall e | e in links && e != id
      ensures ValidTable(DuplicateSpec(links, id, cur, e).1)
    {
      DuplicateKeepsTableValid(links, id, cur, e);
    }
  }

  lemma DuplicateKeepsTableValid(links: map<nat, Link>, id: nat, cur: Link, e: nat)
    requires ValidTable(links) && id in links && e in links && e != id && links[id].status == Processing
    ensures ValidTable(DuplicateSpec(links, id, cur, e).1)
  {
    var (ex, updated) := MergeExisting(links[e], cur);
    if !updated || SaveCheck(links, e, ex) == Saved {
      var merged := if updated then links[e := ex] else links;
      ValidStored(links, e, ex);
      assert ValidTable(merged);
      var marked := links[id].(status := Failed, failedReason := DuplicateReason(e));
      assert merged[id] == links[id];
      RewriteAccepted(merged, id, marked);
      ValidStored(merged, id, marked);
    }
  }

  /**
   * A redelivered task after a scheduled retry finds its row still
   * PROCESSING and does nothing: the retry never crawls again.
   */
  lemma RedeliveryIsNoOp(links: map<nat, Link>, id: nat, data: CrawlResult, attempt: nat,
                         enrich: Option<Enrichment>, vector: Option<seq<real>>,
                         data': CrawlResult, attempt': nat, enrich': Option<Enrichment>, vector': Option<seq<real>>)
    requires CrawlSpec(links, id, data, attempt, enrich, vector).0 == RetryScheduled
    ensures var after := CrawlSpec(links, id, data, attempt, enrich, vector).1;
      CrawlSpec(after, id, data', attempt', enrich', vector') == (AlreadyProcessing, after)
  {
    var after := CrawlSpec(links, id, data, attempt, enrich, vector).1;
    RetryPathExactly(links, id, data, attempt, enrich, vector);
    RetryBookkeeping(links, id, data, attempt, enrich, vector);
    assert id in after && after[id].status == Processing;
    ClaimGuard(after, id, data', attempt', enrich', vector');
  }

  /** Running the task a second time for the same id never changes the table, whatever the crawl returns. */
  lemma SecondRunIsNoOp(links: map<nat, Link>, id: nat, data: CrawlResult, attempt: nat,
                        enrich: Option<Enrichment>, vector: Option<seq<real>>,
                        data': CrawlResult, attempt': nat, enrich': Option<Enrichment>, vector': Option<seq<real>>)
    ensures var after := CrawlSpec(links, id, data, attempt, enrich, vector).1;
      CrawlSpec(after, id, data', attempt', enrich', vector').1 == after
      && ClaimOutcome(after, id).Some?
  {
    if ClaimOutcome(links, id).None? {
      var after := CrawlSpec(links, id, data, attempt, enrich, vector).1;
      ClaimedRowStaysTaken(links, id, data, attempt, enrich, vector);
      ClaimGuard(after, id, data', attempt', enrich', vector');
    }
  }

  /** After a run that claimed its row, the row is PROCESSING or final, so it cannot be claimed again. */
  lemma ClaimedRowStaysTaken(links: map<nat, Link>, id: nat, data: CrawlResult, attempt: nat,
                             enrich: Option<Enrichment>, vector: Option<seq<real>>)
    requires ClaimOutcome(links, id).None?
    ensures var after := CrawlSpec(links, id, data, attempt, enrich, vector).1;
      id in after && (after[id].status == Processing || IsFinal(after[id].status))
  {
    if TakesRetryPath(data) {
      RetryPathExactly(links, id, data, attempt, enrich, vector);
      RetryBookkeeping(links, id, data, attempt, enrich, vector);
    } else {
      CrawlPhases(links, id, data, attempt, enrich, vector);
      FinalizeShape(Claimed(links, id), id, data, enrich, vector);
    }
  }

  // ---------------------------------------------------------------
  // retry_failed_links
  // ---------------------------------------------------------------

  /**
   * The sweep resets exactly the FAILED rows with retry_count below 3 to
   * PENDING, keeping their retry_count and every other field, and leaves
   * every other row alone; afterwards no row is eligible any more.
   */
  lemma ResetFailedExactly(links: map<nat, Link>)
    ensures var r := ResetFailed(links);
      && r.Keys == links.Keys
      && (forall k | k in links && RetryEligible(links[k]) :: r[k] == links[k].(status := Pending))
      && (forall k | k in links && !RetryEligible(links[k]) :: r[k] == links[k])
      && EligibleIds(r) == {}
  {
  }

  lemma ResetFailedKeepsTableValid(links: map<nat, Link>)
    requires ValidTable(links)
    ensures ValidTable(ResetFailed(links))
  {
    var r := ResetFailed(links);
    forall i, j | i in r && j in r && i != j
      ensures !SameIdentity(r[i], r[j])
    {
      assert !SameIdentity(links[i], links[j]);
    }
  }

  /**
   * A FAILED crawl that is not retryable (a 404, say) leaves the row FAILED
   * with its retry_count unchanged. A row with a count under 3 is therefore
   * picked up by the next sweep, reset to PENDING with the same count, and
   * meets this lemma's own premises again: the sweep re-queues it every
   * time and its bound of 3 never applies to it.
   */
  lemma NonRetryableFailureRecurs(links: map<nat, Link>, id: nat, data: CrawlResult, attempt: nat,
                                  enrich: Option<Enrichment>, vector: Option<seq<real>>)
    requires id in links && (links[id].status == Pending || links[id].status == Recommended)
    requires data.status == CrawlFailed && !IsRetryable(data.httpStatus, Strip(data.failedReason))
    requires links[id].retryCount < 3
    ensures var after := CrawlSpec(links, id, data, attempt, enrich, vector).1;
      && id in after && after[id].status == Failed && after[id].retryCount == links[id].retryCount
      && id in EligibleIds(after)
      && ResetFailed(after)[id].status == Pending
      && ResetFailed(after)[id].retryCount == links[id].retryCount
  {
    NonRetryableRun(links, id, data, attempt, enrich, vector);
    FailedRowRecurs(links, id, data);
  }

  /** The same for the table the run leaves. */
  lemma FailedRowRecurs(links: map<nat, Link>, id: nat, data: CrawlResult)
    requires id in links && links[id].retryCount < 3
    ensures var after := links[id := FailedRow(links[id], data)];
      && id in after && after[id].status == Failed && after[id].retryCount == links[id].retryCount
      && id in EligibleIds(after)
      && ResetFailed(after)[id].status == Pending
      && ResetFailed(after)[id].retryCount == links[id].retryCount
  {
    SweepResets(links[id := FailedRow(links[id], data)], id);
  }

  /** Such a run writes the FAILED row and nothing else. */
  lemma NonRetryableRun(links: map<nat, Link>, id: nat, data: CrawlResult, attempt: nat,
                        enrich: Option<Enrichment>, vector: Option<seq<real>>)
    requires id in links && (links[id].status == Pending || links[id].status == Recommended)
    requires data.status == CrawlFailed && !IsRetryable(data.httpStatus, Strip(data.failedReason))
    ensures CrawlSpec(links, id, data, attempt, enrich, vector).1 == links[id := FailedRow(links[id], data)]
  {
    CrawlPhases(links, id, data, attempt, enrich, vector);
    FinalizeMapping(Claimed(links, id), id, data, enrich, vector);
    FailClaimed(links, id, FailedRow(links[id], data).failedReason);
  }

  /** The sweep selects an eligible row and puts it back to PENDING, nothing else about it changed. */
  lemma SweepResets(links: map<nat, Link>, id: nat)
    requires id in links && RetryEligible(links[id])
    ensures id in EligibleIds(links) && ResetFailed(links)[id] == links[id].(status := Pending)
  {
  }
}
