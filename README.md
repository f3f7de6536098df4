# ai-news-archiver ingestion core, in Dafny

This project models the article ingestion core of the `links` Django app of
ai-news-archiver and proves properties of that model. The app is a personal
archive of Naver news articles. A user submits an article URL. A Celery task
fetches and parses the page, the AI layer summarises it, and the row is
stored. The HTML views list, retry and chart the user's articles, and a persona
classifier turns the user's tags into a title.

The model covers:

- **URL identity** (`naver_url.dfy`, `recommend.dfy`):
  - `parse_naver_ids_and_normalize_url`: the three routes (query keys, path
    pattern, loose raw-query pattern) in their fixed order, with the regular
    expressions modelled exactly over ASCII input (`\d` and `\s` match
    ASCII characters only), including greedy runs and the leftmost search;
  - the canonical `https://n.news.naver.com/mnews/article/{oid}/{aid}` form;
  - `normalize_naver_candidate`.
- **Crawler classification** (`crawler.dfy`, `korean_time.dfy`):
  - `get_naver_news_info`, written as the step-by-step filling of the result
    record;
  - the keyword test of `detect_access_restriction`;
  - `parse_korean_datetime`, with its 오전/오후 (AM/PM) hour correction and
    Python's date validation.
- **The store** (`models.dfy`):
  - the `Link` row, its defaults and the `Link.save` guard;
  - the `unique_naver_news_per_user` constraint under SQL NULL semantics;
  - a `LinkStore` class: the table, the next key and the broker queue;
  - an `Accounts` class for `User`/`UserProfile`, with the `post_save`
    receivers.
- **The task** (`tasks.dfy`):
  - `crawl_and_save_link`, as the claim, retry decision and finalize steps on
    the store, including the field merge and the duplicate merge after an
    `IntegrityError`;
  - the periodic `retry_failed_links` sweep.
  - Each method is proved equal to a specification function: `ClaimOutcome`,
    `RetrySpec`, `FinalizeSpec`, `CrawlSpec`, `ResetFailed`. The lemmas of
    `TasksFacts` state what those functions promise.
- **The views** (`views.dfy`):
  - the create and retry handlers and their guards;
  - the filters, ordering whitelist and 200-row cap of the list view;
  - `get_link_context` and `htmx_link_create`;
  - the top-5 tag chart of `index`, built on `Counter.most_common`.
- **Persona** (`persona.dfy`, `ranking.dfy`):
  - `determine_persona`: how tags are credited to categories, the first-wins
    argmax, the threshold, the level and the title table;
  - a shared `Ranking` module holding both ranking idioms: `max(d,
    key=d.get)` and `Counter.most_common(n)`, the latter with its stable
    tie order;
  - a small `Seqs` module (`seqs.dfy`) with the order notions the views and
    the ranking share: first occurrence (`list.index`) and subsequence.

Choices made in the model:

- Scores in `determine_persona` are kept DOUBLED, so GENERAL's half points
  are naturals. A matched tag adds 2, an unmatched tag adds 1, and the
  threshold of 3 points becomes 6.
- What the database sorts (`order_by`) is an input: a sequence of ids in the
  database's order.
- `.order_by("-created_at").first()` is modelled as "some row with the latest
  `created_at`".
- The network, the HTML extractors and the AI calls are inputs:
  - the fetch outcome is a `FetchOutcome`;
  - the extractor results are the fields of a `Page`;
  - the summary and tags are an `Option<Enrichment>`, and each of the two
    is itself an `Option`: the AI's JSON may give `null` for a key, and
    `data.get(key, default)` passes that `None` on (links/ai.py:61-64);
  - the embedding is an `Option<seq<real>>`;
  - Celery's retry counter for the delivery is `attempt`.
- The task's three transactions run one after another on one store. A
  `ValueError` from the save guard, or an `IntegrityError` escaping the
  duplicate merge, rolls back the finalize transaction: the outcome is
  `Crashed` and the table is left as the claim step left it.
- `summary` and `tags` are NOT NULL columns. A row holding `None` in either
  is refused by the database with an `IntegrityError`, like a constraint
  violation (`Models.SaveCheck`), so a stored row never holds one.
- `save(update_fields=[...])` writes only the named fields. The duplicate
  branch therefore keeps the old url and identity on the current row
  (`Tasks.DuplicateSpec`).

The model follows the code where the design comments promise more:

- The retry branch leaves the row in PROCESSING. A redelivered task then stops
  at the "already processing" guard (`TasksFacts.RedeliveryIsNoOp`).
- RECOMMENDED rows pass the claim guard.
- A null summary or tags list from the AI makes the save fail. The handler
  then finds no other row with the identity and ends the article FAILED
  with `INTEGRITY_ERROR_DUPLICATE_NOT_FOUND`, although the crawl succeeded
  (`TasksFacts.NullEnrichmentEndsNotFound`).
- The profile refresh follows every accepted save, PARTIAL included.
- `image_url`, `published_at`, `naver_oid` and `naver_aid` are overwritten
  even with empty values.

## Model

| member | source | states |
|---|---|---|
| `NaverUrl.ParseIdentity` | links/crawler.py:71-115 | every identity found is made of digit strings, comes from a well-formed URL, and has `normalized_url` equal to the canonical prefix + oid + "/" + aid |
| `NaverUrl.PathMatchAt` | links/crawler.py:96 | a match of `/(?:mnews/)?article/(\d{3,})/(\d{5,})` at an index has the shape the pattern describes, with an oid of at least 3 digits and an aid of at least 5 |
| `NaverUrl.GroupsAt` | links/crawler.py:96 | the two digit groups found at an index are maximal digit runs of at least 3 and 5 digits, separated by `/` |
| `NaverUrl.PathSearch` | links/crawler.py:96-101 | `re.search` on the path: the match at some index, or None when no index matches |
| `NaverUrl.PathSearchLeftmost` | links/crawler.py:96 | the search returns the first match: when index k matches and no index from the start up to k does, the result is the match at k |
| `NaverUrl.LooseMatchAt` | links/crawler.py:105-108 | a match of `oid=(\d+).*aid=(\d+)` at an index yields two non-empty digit strings; which strings they are is stated matcher-free by `LooseMatchAtSound` and `LooseMatchAtComplete` below |
| `NaverUrl.LooseMatchAtSound` | links/crawler.py:105-107 | a match at index i has the loose shape: `oid=` at i, oid the whole digit run after it, then `aid=<digit>` at the rightmost such place on the rest of that line, and aid the whole digit run after it |
| `NaverUrl.LooseMatchAtComplete` | links/crawler.py:105-107 | conversely, every occurrence of the loose shape at i is what the matcher returns at i, with the same two groups |
| `NaverUrl.LooseSearch` | links/crawler.py:105-110 | a match of the loose pattern at some index, or None when no index matches |
| `NaverUrl.LooseSearchLeftmost` | links/crawler.py:105 | the search returns the first match: when index k matches and no index from the start up to k does, the result is the match at k |
| `NaverUrl.LastAidAt` | links/crawler.py:105 | the greedy `.*` stops at the rightmost `aid=<digit>` within the line, and nothing to its right up to the limit qualifies |
| `NaverUrl.LineRun` | links/crawler.py:105 | `.` consumes exactly the characters up to the next newline |
| `NaverUrlFacts.RoutesInOrder` | links/crawler.py:85-115 | the query-key route wins, the path route applies only when it fails, the raw-query route only when both fail; the result is None exactly for a malformed URL, a key mapped to an empty list of values, or no route matching; on a query as `parse_qs` yields it, None exactly when no route matches |
| `NaverUrlFacts.QueryIndexErrorUnreachable` | links/crawler.py:85-90 | on a query as `parse_qs` yields it (blank values dropped) `query["oid"][0]` and `query["aid"][0]` never meet an empty list |
| `NaverUrlFacts.BlankOidFallsToPath` | links/crawler.py:85-101 | `?oid=&aid=1` on the path `/article/001/00001`: `parse_qs` drops the blank `oid`, so the query-key route does not apply and the path gives oid `001`, aid `00001` |
| `NaverUrlFacts.PathRouteBounds` | links/crawler.py:96-101 | an identity taken from the path has an oid of at least 3 digits and an aid of at least 5 |
| `NaverUrlFacts.PathMatchAtComplete` | links/crawler.py:96 | the matcher finds every occurrence of the pattern's shape, with the same groups |
| `NaverUrlFacts.GroupsAtComplete` | links/crawler.py:96 | every occurrence of the digit-group shape is found by the group matcher |
| `NaverUrlFacts.PrefixesExclusive` | links/crawler.py:96 | `/mnews/article/` and `/article/` never both start at one index |
| `NaverUrlFacts.CanonicalRoundTrip` | links/crawler.py:96-101 | parsing the canonical URL of an oid of at least 3 digits and an aid of at least 5 gives back the same oid, aid and canonical URL |
| `NaverUrlFacts.NormalizedUrlIsNaver` | links/crawler.py:92-109 | the canonical URL starts with `https://n.news.naver.com/mnews/article/` and contains `naver.com` |
| `Recommend.NormalizeCandidate` | links/recommend_utils.py:3-19 | None for a missing or empty input or an unparseable URL; otherwise the parser's normalized URL, oid and aid, with the URL on the canonical prefix |
| `KoreanTime.Search` | links/crawler.py:152-157 | `re.search` for the timestamp pattern: the match at some index, or None when no index matches |
| `KoreanTime.SearchLeftmost` | links/crawler.py:152-155 | the search returns the first match: when index k matches and no index from the start up to k does, the result is the match at k |
| `KoreanTime.ParseKoreanDateTime` | links/crawler.py:143-176 | every result is a date and time Python's `datetime` accepts, with zero seconds; an empty value gives None |
| `KoreanTimeFacts.HourCorrection` | links/crawler.py:152-176 | a result exists exactly when the pattern matches and the corrected time is valid; 오후 h (h ≠ 12) becomes h+12, 오전 12 becomes 0, other hours are kept |
| `KoreanTimeFacts.PmOverflowRejected` | links/crawler.py:167-176 | 오후 with an hour of 13 or more gives None |
| `KoreanTimeFacts.To24HourInverse` | links/crawler.py:166-170 | the correction undoes the 12-hour clock: every hour 0..23 printed as 오전/오후 plus 1..12 is read back as itself |
| `KoreanTimeFacts.MatchLayout` | links/crawler.py:152-155 | a string laid out as `yyyy.mm.dd. ap h:mm` is matched at its start with those groups |
| `KoreanTimeFacts.FormatRoundTrip` | links/crawler.py:143-176 | every valid timestamp with zero seconds, printed the way Naver prints it, is parsed back unchanged |
| `Crawler.DetectAccessRestriction` | links/crawler.py:235-259 | ACCESS_RESTRICTED exactly when some restriction keyword occurs in the text and neither `#dic_area` nor `#articeBody` exists; otherwise None |
| `Crawler.GetNaverNewsInfo` | links/crawler.py:338-439 | an invalid URL gives FAILED/INVALID_NAVER_URL_FORMAT with no identity; timeout, request error, 403/404 and other HTTP errors give their FAILED reasons; a missing title gives FAILED with the restriction or PARSE_NO_TITLE; SUCCESS exactly when the page has a title, at least 200 characters of content and no restriction, and then the reason is empty; SOFT_SUCCESS carries SOFT_CONTENT_TOO_SHORT or the restriction; every non-SUCCESS result has a reason, and SOFT_UNKNOWN never occurs |
| `CrawlerFacts.BodyContainerClearsRestriction` | links/crawler.py:255-259 | a page with a body container is never restricted, whatever its text |
| `CrawlerFacts.KeywordRestricts` | links/crawler.py:243-257 | each keyword, anywhere in the text of a page without a body container, marks it restricted |
| `Strings.ContainsAnyExactly` | links/crawler.py:251 | `any(k in s for k in subs)` holds exactly when one of the substrings occurs |
| `Strings.StripSlice` | links/views.py:36 | `str.strip()` keeps a slice of the string and cuts only whitespace from either side of it |
| `Models.StatusName` | links/models.py:6-13 | every stored status value is a non-empty upper-case string |
| `Models.NewLink` | links/models.py:28-50 | a new row has status PENDING, retry count 0, an empty reason, an empty summary and tag list, no oid, aid or recommendation type, and the given user, url and creation time |
| `Models.SaveCheck` | links/models.py:53-66 | a write raises ValueError exactly when the row is COMPLETED or RECOMMENDED and its url lacks `naver.com`; it raises IntegrityError exactly when it passes the guard and either holds a NULL summary or tags (NOT NULL columns, links/models.py:35-36) or another row has the same user with equal non-null oid and aid; an accepted row has neither |
| `Models.LinkStore.constructor` | links/models.py:5-58 | an empty table is a valid one |
| `Models.LinkStore.Save` | links/models.py:63-66 | the result is the guard's and the constraint's verdict; the row is stored only when accepted; the table stays unique and guarded |
| `Models.LinkStore.Create` | links/models.py:63-66 | `objects.create` takes a key no row has and saves through the same checks; the key counter moves past that key exactly when the save is accepted |
| `Models.LinkStore.Enqueue` | links/views.py:74 | `delay(id)` appends the id to the broker queue |
| `Models.ValidStored` | links/models.py:52-66 | an accepted write keeps every pair of rows distinct in identity, every row past the guard and no NULL in summary or tags |
| `Models.RewriteAccepted` | links/models.py:63-66 | rewriting a row of a valid table with the same user, oid, aid, summary and tags and a status other than COMPLETED or RECOMMENDED is always accepted, whatever its url |
| `Models.AllTags` | links/views.py:227-230 | a tag is collected exactly when some row carries it |
| `Models.CollectTags` | links/utils.py:56-59 | the loop extending `all_tags` computes the row-order concatenation of the tags |
| `Models.Accounts.constructor` | links/models.py:69-70 | no users, no profiles |
| `Models.Accounts.CreateUser` | links/models.py:82-89 | creating a user adds exactly one profile, for that user, with every field at its default (null interest vector); the new user takes the next user key and the counter moves by one |
| `Models.Accounts.SaveUser` | links/models.py:82-89 | saving a user succeeds exactly when the user has a profile, so it always succeeds in a valid account table, where every user got a profile when it was created |
| `Tasks.AnyPrefix` | links/tasks.py:73 | true exactly when the reason starts with one of the prefixes |
| `Tasks.IsRetryable` | links/tasks.py:15-22 | retryable exactly when the HTTP status is 429, 500, 502, 503 or 504, or the reason starts with one of the four retryable prefixes |
| `Tasks.ClaimOutcome` | links/tasks.py:39-52 | the task goes on exactly when the row exists and is PENDING or RECOMMENDED |
| `Tasks.Claim` | links/tasks.py:37-61 | the claim step on the store: the early return of `ClaimOutcome`, and only the claimed row's status becomes PROCESSING |
| `Tasks.RetryStep` | links/tasks.py:66-95 | the retry step on the store equals `RetrySpec` and keeps the table valid |
| `Tasks.FillExisting` | links/tasks.py:210-215 | the `fields_to_fill` loop computes the filled row and the `updated` flag of the merge (see `TasksFacts.MergeExistingFields`) |
| `Tasks.Finalize` | links/tasks.py:101-175 | the finalize transaction on the store equals `FinalizeSpec` and keeps the table valid |
| `Tasks.HandleIntegrityError` | links/tasks.py:177-232 | the `IntegrityError` handler on the store equals `IntegritySpec`: a row without oid or aid is failed with INTEGRITY_ERROR_WITHOUT_OID_AID; a row whose identity no other row holds is failed with INTEGRITY_ERROR_DUPLICATE_NOT_FOUND; otherwise the other row holding the identity is merged into |
| `Tasks.MergeDuplicate` | links/tasks.py:207-232 | merging into the existing row and marking the current one equals `DuplicateSpec` |
| `Tasks.OnlyDuplicate` | links/tasks.py:191-198 | under the constraint at most one other row carries a given identity, so the `existing` query has one answer |
| `Tasks.CrawlAndSaveLink` | links/tasks.py:25-232 | one run of the task: outcome and table equal `CrawlSpec`; the table stays valid; only a scheduled retry puts the id back on the queue |
| `Tasks.CrawlPhases` | links/tasks.py:37-101 | a claimed row that takes no retry goes straight to the finalize transaction on the claimed table |
| `Tasks.FinalizeNeverRetries` | links/tasks.py:101-232 | the finalize transaction never ends in a retry or in the max-retries outcome |
| `Tasks.IntegrityOutcomes` | links/tasks.py:177-232 | the integrity handler ends in the no-identity failure, the duplicate-not-found failure, a duplicate mark or a crash |
| `Tasks.RetryFailedLinks` | links/tasks.py:235-255 | the sweep resets exactly the FAILED rows with retry count under 3 to PENDING and changes nothing else; it queues each of them once, after the old queue; it returns their number |
| `TasksFacts.NonRetryableFailureRecurs` | links/tasks.py:108-112 | a FAILED crawl that is not retryable leaves the row FAILED with its retry count unchanged; with a count under 3 the next sweep selects it and resets it to PENDING with the same count, so the premises recur and the sweep re-queues the row every time (links/tasks.py:240-244) |
| `Tasks.ResetOne` | links/tasks.py:249-252 | one row back to PENDING with a full `save()`, then queued |
| `TasksFacts.ClaimGuard` | links/tasks.py:37-56 | a missing, finalised or processing row ends the run with the table unchanged; a PENDING or RECOMMENDED row becomes PROCESSING and no other row changes |
| `TasksFacts.RetryPathExactly` | links/tasks.py:71-95 | a retry is scheduled exactly when the row was claimed, the crawl FAILED with a retryable status or reason and fewer than 3 retries were made; the budget is exhausted exactly when the same holds with 3 or more |
| `TasksFacts.RetryBookkeeping` | links/tasks.py:78-95 | a scheduled retry adds exactly 1 to the retry count, sets the reason to `RETRYING: ` + (reason or RETRYABLE_FAILURE) and leaves the row PROCESSING; an exhausted budget sets FAILED with `MAX_RETRIES_EXCEEDED: ` + the crawler's reason |
| `TasksFacts.FinalizeMapping` | links/tasks.py:104-175 | FAILED maps to FAILED with the stripped reason or CRAWLER_FAILED and the retry count untouched; a saved SUCCESS is COMPLETED with an empty reason; a saved SOFT_SUCCESS is PARTIAL with `SOFT_SUCCESS: ` + reason; the profile of the row's user is refreshed after every accepted save |
| `TasksFacts.SavedRow` | links/tasks.py:166-175 | an accepted save stores exactly the merged row and reports its status and user |
| `TasksFacts.FinalizeShape` | links/tasks.py:101-232 | the finalize transaction touches only the current row (and the duplicate it merges into), and leaves the current row in a final status unless it crashed |
| `TasksFacts.SaveFetchedShape` | links/tasks.py:166-232 | the same, for the save of the merged row and what follows it |
| `TasksFacts.IntegrityShape` | links/tasks.py:177-232 | the integrity handler deletes no row, touches only the current row and the row it merges into, leaves the current row FAILED unless it crashes, and a crash leaves the table unchanged |
| `TasksFacts.DuplicateShape` | links/tasks.py:207-232 | the duplicate merge deletes no row, touches only the two rows, leaves the current row FAILED unless it crashes, and never reports a missing identity |
| `TasksFacts.MergeFetchedFields` | links/tasks.py:127-164 | title, content and publisher are never replaced by an empty fetched value; the url changes only to a non-empty normalized URL; summary, tags and embedding change only when the AI calls return something for a row with content; image, publication time, oid and aid are always overwritten; user, retry count and creation time are kept |
| `TasksFacts.CrawledRowPassesGuard` | links/tasks.py:161-169 | a merged row whose normalized URL names `naver.com` always passes the save guard |
| `TasksFacts.MergeExistingFields` | links/tasks.py:207-225 | the existing row gains exactly those of title, content, publisher, image_url and published_at it had empty and the current row has; a COMPLETED row stays COMPLETED, any other takes the current status; nothing else changes; it is saved exactly when something changed or it was not COMPLETED |
| `TasksFacts.FinalizePhase` | links/tasks.py:101-232 | a run that ends in a finalize outcome was claimed, took no retry, and equals the finalize transaction on the claimed table |
| `TasksFacts.DuplicateMerge` | links/tasks.py:177-232 | a run marked duplicate of `e`: `e` is another row holding the same identity, the current row is FAILED with `DUPLICATE_OF:<e>` and stays in the table, and `e` is COMPLETED if it was, else takes the new status |
| `TasksFacts.IntegrityDuplicate` | links/tasks.py:191-232 | the same, for the save of the merged row |
| `TasksFacts.IntegrityWithoutIdentityRow` | links/tasks.py:181-189 | a constraint violation of a row without oid or aid marks it FAILED with INTEGRITY_ERROR_WITHOUT_OID_AID and changes nothing else |
| `TasksFacts.IdentitylessRow` | links/tasks.py:184-189 | the same, for the save of the merged row |
| `TasksFacts.DuplicateNotFoundRow` | links/tasks.py:191-205 | a run that ends with the duplicate not found had an identity that no other row holds and a merged row with a NULL summary or tags; it marks its row FAILED with INTEGRITY_ERROR_DUPLICATE_NOT_FOUND and changes nothing else |
| `TasksFacts.NotFoundRow` | links/tasks.py:200-205 | the same, for the save of the merged row |
| `TasksFacts.NullEnrichmentEndsNotFound` | links/tasks.py:131-137 | a SUCCESS or SOFT_SUCCESS crawl with content, a naver.com URL and an identity no other row holds, enriched with a null summary or tags (links/ai.py:61-64), ends FAILED with INTEGRITY_ERROR_DUPLICATE_NOT_FOUND, and only its own row changes |
| `TasksFacts.CrashRollsBack` | links/tasks.py:101-169 | a crashed finalize leaves the table as the claim left it |
| `TasksFacts.TouchesOnlyItsRows` | links/tasks.py:25-232 | a run never adds or deletes rows and changes no row but its own and the duplicate it merges into |
| `TasksFacts.CrawlKeepsTableValid` | links/tasks.py:25-232 | a run keeps the table unique and every row past the guard |
| `TasksFacts.RetryPhase` | links/tasks.py:66-95 | a claimed run that takes the retry path leaves the table the retry step leaves |
| `TasksFacts.RetryKeepsTableValid` | links/tasks.py:78-95 | the retry bookkeeping keeps the table valid |
| `TasksFacts.FinalizeKeepsTableValid` | links/tasks.py:101-232 | the finalize transaction keeps the table valid |
| `TasksFacts.IntegrityKeepsTableValid` | links/tasks.py:177-232 | the integrity handler keeps the table valid |
| `TasksFacts.DuplicateKeepsTableValid` | links/tasks.py:207-232 | the duplicate merge keeps the table valid |
| `TasksFacts.RedeliveryIsNoOp` | links/tasks.py:45-83 | after a scheduled retry, the next delivery of the task stops at the "already processing" guard and changes nothing |
| `TasksFacts.SecondRunIsNoOp` | links/tasks.py:44-52 | after any run, running the task again on the same id changes nothing |
| `TasksFacts.ClaimedRowStaysTaken` | links/tasks.py:54-232 | a claimed row ends PROCESSING or in a final status, never PENDING |
| `TasksFacts.ResetFailedExactly` | links/tasks.py:241-251 | the sweep's table: eligible rows PENDING, others unchanged, no row left eligible |
| `TasksFacts.ResetFailedKeepsTableValid` | links/tasks.py:249-251 | the sweep keeps the table valid |
| `Views.CleanParam` | links/views.py:36 | a missing parameter is the empty string, a present one is stripped |
| `Views.UrlRejection` | links/views.py:36-43 | an empty url gives "url is required", a url without `naver.com` gives "Only Naver URLs are allowed", and only a non-empty url containing `naver.com` passes |
| `Views.FindQueued` | links/views.py:48-53 | no row exactly when the user has no PENDING or PROCESSING row with that url; otherwise a latest-created such row |
| `Views.LatestExists` | links/views.py:51-52 | every non-empty set of rows has a latest-created one |
| `Views.NewLinkAccepted` | links/views.py:65-71 | a fresh PENDING row always saves |
| `Views.CreateQueued` | links/views.py:65-74 | exactly one new PENDING row under a fresh key, its id queued, and the key counter moved by one |
| `Views.LinkCreate` | links/views.py:35-79 | a rejected url gives 400 and changes nothing (rows, queue and key counter); an in-flight row for the same user and url is returned (200) with nothing added and the counter kept; otherwise exactly one PENDING row with an empty reason and retry count 0 is added under the next key and queued (201), and the counter moves by one |
| `Views.Requeue` | links/views.py:156-157 | status PENDING, empty reason, every other field (retry count included) kept |
| `Views.LinkRetry` | links/views.py:142-161 | another user's or a missing row gives 404; PROCESSING gives 409; COMPLETED and RECOMMENDED give 400 naming the status; all three change nothing; FAILED, PARTIAL and PENDING rows are reset by `Requeue` and queued; the key counter never changes |
| `Views.ResolveOrdering` | links/views.py:111-114 | the ordering is always one of the six allowed keys: the stripped parameter when allowed, `-created_at` otherwise or when absent |
| `Views.FilterListed` | links/views.py:93-109 | exactly the ids of the database's order whose rows belong to the user and pass the status and search filters, kept in that order (a subsequence of it) |
| `Views.ListLinks` | links/views.py:92-117 | the first at most 200 of the filtered rows, in the database's order, which stands for the order named by `Views.ResolveOrdering` |
| `Views.Cap` | links/views.py:117 | `qs[:200]`: a prefix of at most the limit, all when fewer |
| `Views.LinkContext` | links/views.py:164-177 | exactly the user's rows, and `has_pending` exactly when one of them is PENDING or PROCESSING |
| `Views.HtmxLinkCreate` | links/views.py:179-218 | an invalid url or an in-flight duplicate creates nothing and keeps the key counter; otherwise exactly one PENDING row is added under the next key and queued, and the counter moves by one; the context returned is the refreshed one and shows a pending row after every valid url |
| `Views.Counts` | links/views.py:234 | `Counter(tags)`: every tag maps to its positive number of occurrences |
| `Views.Distinct` | links/views.py:234 | the counter's keys: every tag once, no repeats |
| `ViewsFacts.DistinctFirstSeenOrder` | links/views.py:234 | the counter's keys come in the order of their first occurrence among the tags |
| `Views.TagChart` | links/views.py:220-245 | labels and data are the two columns of `most_common(5)` over the tags of the rows in query order |
| `Views.Unzip` | links/views.py:237-238 | the two column lists have the pairs' length and agree with them position by position |
| `ViewsFacts.UnknownStatusListsNothing` | links/views.py:95-97 | a status filter naming no status lists nothing |
| `ViewsFacts.OnlyListedRows` | links/views.py:92-117 | every listed row belongs to the user and passes both filters |
| `ViewsFacts.CreatedRowListedAsPending` | links/views.py:95-97 | a newly created row is listed under PENDING and not under COMPLETED |
| `Views.MostCommon` | links/views.py:234 | `most_common(n)` gives min(n, number of distinct tags) pairs, each a tag with its positive count |
| `ViewsFacts.MostCommonOrdered` | links/views.py:234 | the pairs have distinct tags and non-increasing counts |
| `ViewsFacts.MostCommonIsTop` | links/views.py:234 | no tag left out occurs more often than a tag in the list |
| `ViewsFacts.MostCommonTies` | links/views.py:234 | tags that occur equally often keep their first-seen order: wherever the later-seen one is listed, the earlier-seen one is listed before it |
| `Ranking.BestIndex` | links/utils.py:80 | `max(keys, key=s.get)`: a maximal key, strictly above every key before it (first wins ties) |
| `Ranking.BestUpTo` | links/utils.py:80 | the same over the first `m` keys |
| `Ranking.Without` | links/views.py:234 | the keys with one position removed, the others in order |
| `Ranking.SelectTop` | links/views.py:234 | the first min(n, number of keys) keys by score, each one scoring no more than the one before |
| `Ranking.SelectTopSorted` | links/views.py:234 | the selection is ranked by non-increasing score |
| `Ranking.ChainOrdered` | links/views.py:234 | scores that do not increase step by step do not increase over any distance |
| `Ranking.SelectTopIsTop` | links/views.py:234 | a key left out scores no more than any key taken |
| `Ranking.SelectTopDistinct` | links/views.py:234 | distinct keys give a selection without repeats |
| `Ranking.SelectTopStable` | links/views.py:234 | ties keep key order, as in a stable sort: when a key at position i ties with a key that does not occur up to i, wherever the selection holds the latter it holds the former before it |
| `Ranking.BestBeatsRest` | links/utils.py:80 | every key scores no more than the best one |
| `Persona.FirstCategory` | links/utils.py:69-74 | where the `for … break` stops: the first category from a position on whose keywords hit the tag, or none of them |
| `Persona.FirstCategoryExactly` | links/utils.py:69-74 | the first hit is the only index the search returns |
| `Persona.CategoryOfAt` | links/utils.py:67-74 | a tag credits the first of TECH, ECONOMY, POLITICS, SOCIETY, CULTURE having a keyword that is a substring of it |
| `Persona.CategoryOfNone` | links/utils.py:67-76 | a tag that hits no keyword category credits none of them |
| `Persona.ScoreTag` | links/utils.py:67-76 | one turn of the tag loop adds each category's credit for the tag and nothing more |
| `Persona.LevelOf` | links/utils.py:87-92 | lvl1 under 10 links, lvl2 from 10 to 49, lvl3 from 50 |
| `Persona.DeterminePersona` | links/utils.py:48-100 | the nested loops compute `PersonaOf` (see `PersonaFacts.PersonaShape`) |
| `PersonaFacts.CreditOnce` | links/utils.py:67-76 | each tag credits exactly one category: 2 doubled points to a keyword category, or 1 to GENERAL |
| `PersonaFacts.CreditSum` | links/utils.py:67-76 | in doubled points, a tag's keyword credits plus twice its GENERAL credit are always 2: one point to a keyword category, or half a point to GENERAL |
| `PersonaFacts.TotalScore` | links/utils.py:67-76 | the total score is the number of matched tags plus half the number of unmatched ones |
| `PersonaFacts.NoLinksIsGhost` | links/utils.py:52-53 | the ghost title and only it, exactly when there are no completed links |
| `PersonaFacts.PersonaShape` | links/utils.py:78-99 | the category is GENERAL or a best-scoring category of at least 3 points that beats every category before it in dict order; best scores under 3 give GENERAL; the level goes by the number of links, not tags; the title is `PERSONA_TITLES[category][level]`; the read count is the number of links |
| `PersonaFacts.DominantIsFirstMax` | links/utils.py:80 | the dominant category has a maximal score, strictly above every category before it in dict order |
| `PersonaFacts.OnlyFirstMaxIsDominant` | links/utils.py:80 | conversely, a category with a maximal score, strictly above every category before it in dict order, is the one `max(scores, key=scores.get)` picks |
| `PersonaFacts.PersonaFirstMaxWins` | links/utils.py:80-84 | conversely to `PersonaShape`: a category of at least 3 points with a maximal score, strictly above every category before it in dict order, is the persona's category |

## Left out

- HTTP fetching and the retrying session (`get_session`, `session.get`,
  `raise_for_status`) are I/O. Their outcome is a `FetchOutcome` input. A
  status from 400 to 599 is taken as the one `raise_for_status` raises for.
- `search_naver_news` is a network call to the Naver search API and is not
  modelled.
- BeautifulSoup extraction (`extract_title`, `extract_content`,
  `extract_publisher`, `extract_image_url`, `extract_published_at`,
  `clean_article_text`, `soup.get_text`, `select_one`) belongs to an HTML
  library. Its results are the opaque fields of a `Page`.
- `parse_iso_datetime` and `timezone.make_aware` are wrappers over
  `datetime.fromisoformat` and Django time zones. Timestamps are naive integer
  tuples, and `KoreanTime.ParseKoreanDateTime` does not attach the Asia/Seoul
  zone.
- The `crawled_at` and `updated_at` clock fields are left out; `created_at` is
  an input. The `updated_at` ordering keys are accepted by
  `Views.ResolveOrdering`, but the order itself is an input.
- The body of `links/ai.py` is not part of this model:
  - `generate_summary_and_tags` and `get_embedding` are foreign calls, given
    as `Option` inputs (an exception reads as None). Only the shape of the
    summary result is kept: two values that may each be null. A summary or
    tags value of another JSON type is not modelled;
  - `update_user_interest_profile` is numeric work on vectors. The model
    records only which user's profile is refreshed (`ProcessedSaved.refreshUser`).
- `transaction.atomic`, `select_for_update` and concurrent workers are left
  out. The steps run sequentially on one store, and a transaction that raises
  is rolled back as a whole.
- Celery's delivery and `self.retry` are left out. A scheduled retry appears
  as the id appended to the queue, and Celery's own attempt counter is the
  `attempt` input. That Celery re-raises the passed exception once the budget
  is spent is Celery's code, which is not visible here: the model follows the
  handler as written, assuming `MaxRetriesExceededError`.
- Logging and the task's return strings are left out. The task returns a
  `TaskOutcome` for each of them.
- `LinkDetailView` is a single `get_object_or_404` plus serialisation and is
  not modelled. The serialiser, the templates and the response objects are
  reduced to status codes, ids and the context fields.
- The column widths of `Link` are not modelled (links/models.py:29-43): url
  and image_url 500, naver_oid 10, naver_aid 20, title 200, publisher 50,
  section 20. No code path here truncates or checks them. PostgreSQL
  rejects an over-long value with `DataError`, which the task's
  `except IntegrityError` (links/tasks.py:177) does not catch. The finalize
  transaction then rolls back and the row stays PROCESSING. Neither the
  sweep, which selects FAILED rows only (links/tasks.py:240-244), nor the
  retry view, which answers 409 for such a row (links/views.py:147), brings
  it back. The model assumes every value fits its column, so this path, a
  second cause of a crash, is absent. `retry_count` is a `nat`, not a
  16-bit field.
- Strings:
  - `str.strip`, `str.upper`, `\s` and `\d` are restricted to ASCII:
    whitespace is space, tab, newline, carriage return, vertical tab, form
    feed and U+001C to U+001F, so U+0085, U+00A0 and the other Unicode
    spaces are not stripped and do not match `\s`;
  - `icontains` compares ASCII-upper-cased text;
  - Unicode case folding and Unicode digits are not modelled.
- The JSON `tags` field is a list of strings: tags that are not strings are
  not modelled.
- Persona.DeterminePersona: scores are doubled naturals instead of the
  source's mix of integers and 0.5 floats. The comparison with 3 becomes a
  comparison with 6, which orders the same way.
- Views.LinkContext: the context holds the set of the user's rows, not the
  list the template gets. Its `-created_at` order (links/views.py:168) is
  not modelled; `Views.FilterListed` shows how that order is kept elsewhere.
- Views.FindQueued: when several in-flight rows share the latest
  `created_at`, the model picks any one of them. The database's tie-break is
  not modelled.
