/**
 * `links/models.py`: the `Link` row, its status and recommendation-type
 * enums and defaults, the `Link.save` guard, the
 * `unique_naver_news_per_user` constraint, and the `UserProfile` rows that
 * the `post_save` receivers create for every new user.
 *
 * The database is a `LinkStore`: a map from primary key to row, the next
 * key to hand out, and the queue of link ids handed to the task broker
 * (`crawl_and_save_link.delay`).
 */
module Models {
  import opened Strings
  import KoreanTime

  datatype Status = Pending | Processing | Completed | Failed | Partial | Recommended

  datatype RecoType = Personal | Explore

  /** The stored value of a status (the first element of each `STATUS_CHOICES` pair). */
  function StatusName(s: Status): (r: string)
    ensures |r| > 0 && Upper(r) == r
  {
    match s
    case Pending => "PENDING"
    case Processing => "PROCESSING"
    case Completed => "COMPLETED"
    case Failed => "FAILED"
    case Partial => "PARTIAL"
    case Recommended => "RECOMMENDED"
  }

  /**
   * One `Link` row; `updated_at` is not modelled, `created_at` is a clock
   * reading. `summary` and `tags` are None when the Python object holds
   * `None`: their columns are NOT NULL, so a stored row never does.
   */
  datatype Link = Link(
    user: nat,
    url: string,
    naverOid: Option<string>,
    naverAid: Option<string>,
    title: string,
    content: string,
    summary: Option<string>,
    tags: Option<seq<string>>,
    embedding: Option<seq<real>>,
    publisher: string,
    publishedAt: Option<KoreanTime.DateTime>,
    section: string,
    imageUrl: Option<string>,
    status: Status,
    failedReason: string,
    retryCount: nat,
    recommendationType: Option<RecoType>,
    createdAt: nat)

  /** `Link(user=…, url=…)` with every other field at its declared default. */
  function NewLink(user: nat, url: string, createdAt: nat): (l: Link)
    ensures l.status == Pending && l.retryCount == 0 && l.failedReason == ""
    ensures l.naverOid.None? && l.naverAid.None? && l.recommendationType.None?
    ensures l.user == user && l.url == url && l.createdAt == createdAt
    ensures l.summary == Some("") && l.tags == Some([])
  {
    Link(user, url, None, None, "", "", Some(""), Some([]), None, "", None, "", None, Pending, "", 0, None, createdAt)
  }

  /** The tag list of a row; a stored row always has one, a missing list reads as empty. */
  function TagList(l: Link): seq<string>
  {
    if l.tags.Some? then l.tags.value else []
  }

  /** The tags of `links` in row order: `all_tags.extend(link.tags)` for every row. */
  function AllTags(links: seq<Link>): (r: seq<string>)
    ensures forall t :: t in r <==> exists k | 0 <= k < |links| :: t in TagList(links[k])
  {
    if links == [] then []
    else
      var init := links[..|links| - 1];
      assert forall k | 0 <= k < |init| :: init[k] == links[k];
      AllTags(init) + TagList(links[|links| - 1])
  }

  /** The loop `all_tags.extend(link.tags)` over the links. */
  method CollectTags(links: seq<Link>) returns (allTags: seq<string>)
    ensures allTags == AllTags(links)
  {
    allTags := [];
    for i := 0 to |links|
      invariant allTags == AllTags(links[..i])
    {
      if TagList(links[i]) != [] {
        allTags := allTags + TagList(links[i]);
      }
      assert links[..i + 1][..i] == links[..i];
    }
    assert links[..|links|] == links;
  }

  const NaverDomain := "naver.com"

  /** The guard of `Link.save`: it raises `ValueError` for these rows. */
  predicate SaveRejected(l: Link)
  {
    (l.status == Completed || l.status == Recommended) && !Contains(l.url, NaverDomain)
  }

  /**
   * Two rows collide under `UniqueConstraint(fields=['user', 'naver_oid',
   * 'naver_aid'])`. A NULL column never equals anything in PostgreSQL, so
   * rows with a null oid or aid never collide; an empty string is not NULL.
   */
  predicate SameIdentity(a: Link, b: Link)
  {
    a.user == b.user && a.naverOid.Some? && a.naverAid.Some? && a.naverOid == b.naverOid && a.naverAid == b.naverAid
  }

  predicate Unique(links: map<nat, Link>)
  {
    forall i, j | i in links && j in links && i != j :: !SameIdentity(links[i], links[j])
  }

  /** Every stored row passed the guard when it was written. */
  predicate GuardHolds(links: map<nat, Link>)
  {
    forall i | i in links :: !SaveRejected(links[i])
  }

  predicate Conflicts(links: map<nat, Link>, id: nat, row: Link)
  {
    exists j | j in links :: j != id && SameIdentity(row, links[j])
  }

  /** The row would write NULL into the NOT NULL `summary` or `tags` column. */
  predicate NullColumn(l: Link)
  {
    l.summary.None? || l.tags.None?
  }

  predicate NotNull(links: map<nat, Link>)
  {
    forall i | i in links :: !NullColumn(links[i])
  }

  datatype SaveResult = Saved | GuardError | IntegrityError

  /**
   * What writing `row` under key `id` does: the guard runs first, then the
   * database checks the NOT NULL columns and the constraint; PostgreSQL
   * reports both violations as `IntegrityError`.
   */
  function SaveCheck(links: map<nat, Link>, id: nat, row: Link): (r: SaveResult)
    ensures r == GuardError <==> SaveRejected(row)
    ensures r == IntegrityError <==> !SaveRejected(row) && (NullColumn(row) || Conflicts(links, id, row))
    ensures r == Saved ==> !NullColumn(row) && !Conflicts(links, id, row)
  {
    if SaveRejected(row) then GuardError
    else if NullColumn(row) || Conflicts(links, id, row) then IntegrityError
    else Saved
  }

  /** The table after the write: changed only when it was accepted. */
  function Stored(links: map<nat, Link>, id: nat, row: Link): map<nat, Link>
  {
    if SaveCheck(links, id, row) == Saved then links[id := row] else links
  }

  predicate ValidTable(links: map<nat, Link>)
  {
    Unique(links) && GuardHolds(links) && NotNull(links)
  }

  class LinkStore {
    var links: map<nat, Link>
    var nextId: nat
    var queue: seq<nat>

    ghost predicate Valid()
      reads this
    {
      ValidTable(links) && forall i | i in links :: i < nextId
    }

    constructor ()
      ensures Valid() && links == map[] && queue == []
    {
      links := map[];
      nextId := 1;
      queue := [];
    }

    /** `link.save(...)` on an existing row, or a row that takes key `id`. */
    method Save(id: nat, row: Link) returns (res: SaveResult)
      requires Valid()
      requires id in links || id >= nextId
      modifies this`links, this`nextId
      ensures Valid()
      ensures res == SaveCheck(old(links), id, row)
      ensures links == Stored(old(links), id, row)
      ensures nextId == if res == Saved && id >= old(nextId) then id + 1 else old(nextId)
    {
      res := SaveCheck(links, id, row);
      if res == Saved {
        links := links[id := row];
        if id >= nextId {
          nextId := id + 1;
        }
        ValidStored(old(links), id, row);
      }
    }

    /** `Link.objects.create(...)`: a fresh key and a save. */
    method Create(row: Link) returns (res: SaveResult, id: nat)
      requires Valid()
      modifies this`links, this`nextId
      ensures Valid()
      ensures id == old(nextId) && id !in old(links)
      ensures res == SaveCheck(old(links), id, row)
      ensures links == Stored(old(links), id, row)
      ensures nextId == if res == Saved then id + 1 else old(nextId)
    {
      id := nextId;
      res := Save(id, row);
    }

    /** `crawl_and_save_link.delay(id)`. */
    method Enqueue(id: nat)
      modifies this`queue
      ensures queue == old(queue) + [id]
    {
      queue := queue + [id];
    }
  }

  /** An accepted write keeps the table valid: unique, guarded and without NULLs. */
  lemma ValidStored(links: map<nat, Link>, id: nat, row: Link)
    requires ValidTable(links)
    ensures ValidTable(Stored(links, id, row))
  {
    if SaveCheck(links, id, row) == Saved {
      var l := links[id := row];
      forall i, j | i in l && j in l && i != j
        ensures !SameIdentity(l[i], l[j])
      {
        if i == id {
          assert !SameIdentity(row, links[j]);
        } else if j == id {
          assert !SameIdentity(row, links[i]);
        }
      }
    }
  }

  /**
   * A write that keeps the row's user, oid, aid, summary and tags and a
   * status the guard does not check (every `save(update_fields=...)` of the
   * ingestion code, which writes neither summary nor tags) is always
   * accepted.
   */
  lemma RewriteAccepted(links: map<nat, Link>, id: nat, row: Link)
    requires ValidTable(links) && id in links
    requires row.user == links[id].user && row.naverOid == links[id].naverOid && row.naverAid == links[id].naverAid
    requires row.summary == links[id].summary && row.tags == links[id].tags
    requires row.status != Completed && row.status != Recommended
    ensures SaveCheck(links, id, row) == Saved
  {
  }

  // ---------------------------------------------------------------
  // UserProfile and the post_save receivers on User
  // ---------------------------------------------------------------

  datatype Profile = Profile(interestVector: Option<seq<real>>, statsSnapshot: map<string, string>, statsSnapshotUpdatedAt: Option<nat>)

  /** `UserProfile.objects.create(user=instance)`: every field at its default. */
  const DefaultProfile := Profile(None, map[], None)

  /** The `User` table and the `UserProfile` table keyed by its one-to-one `user`. */
  class Accounts {
    var users: set<nat>
    var profiles: map<nat, Profile>
    var nextUser: nat

    ghost predicate Valid()
      reads this
    {
      profiles.Keys == users && forall u | u in users :: u < nextUser
    }

    constructor ()
      ensures Valid() && users == {} && profiles == map[]
    {
      users := {};
      profiles := map[];
      nextUser := 1;
    }

    /**
     * Creating a `User`: `create_user_profile` adds its profile, then
     * `save_user_profile` saves that profile unchanged.
     */
    method CreateUser() returns (u: nat)
      requires Valid()
      modifies this
      ensures Valid()
      ensures u !in old(users) && users == old(users) + {u}
      ensures profiles == old(profiles)[u := DefaultProfile]
      ensures u == old(nextUser) && nextUser == old(nextUser) + 1
    {
      u := nextUser;
      nextUser := nextUser + 1;
      users := users + {u};
      profiles := profiles[u := DefaultProfile];
      var ok := SaveUser(u);
      assert ok;
    }

    /**
     * Saving an existing `User`: `save_user_profile` runs
     * `instance.profile.save()`, which raises when the user has no profile.
     * In a valid account table every user has one, so the save never raises.
     */
    method SaveUser(u: nat) returns (ok: bool)
      requires u in users
      ensures ok <==> u in profiles
      ensures Valid() ==> ok
    {
      ok := u in profiles;
    }
  }
}
