/**
 * The task endpoints of the api service as a state machine over its two backends.
 *
 * The store (the relational `tasks` table) and the cache backend are each either connected or
 * absent (the module-level handles `db` and `cache` start as None). A connected cache backend holds at
 * most the one entry this service uses, under the key "tasks". Get is GET /tasks (cache-aside read),
 * Create is POST /tasks (insert, then invalidate), Expire is the cache server dropping the entry when
 * its time-to-live runs out.
 */
module Tasks {
  import opened Wrappers
  import Json

  /** A row of `SELECT id, title FROM tasks`, in the order the store returns it. */
  type Row = (int, string)

  /** What the cache server holds under "tasks": a text and the time-to-live, in seconds, it was set with. */
  datatype CacheEntry = CacheEntry(text: string, ttl: nat)

  /** The tier that served a task list: the "source" field of the response. */
  datatype Source = FromCache | FromDatabase

  datatype Response =
    | Listed(tasks: seq<Json.Task>, source: Source)
    | Created(title: string)
    | Healthy
    | Unauthorized
    | Unavailable(detail: string)
    | ServerError

  /**
   * store: None when no database connection exists, otherwise the rows of the table.
   * cache: None when no cache backend exists; Some(None) when it exists without a "tasks" entry.
   */
  datatype State = State(store: Option<seq<Row>>, cache: Option<Option<CacheEntry>>)

  const TasksTtl: nat := 30
  const DatabaseNotAvailable: string := "Database not available"

  /** The HTTP status each response is sent with; ServerError stands for an exception no handler catches. */
  function StatusCode(r: Response): int {
    match r
    case Listed(_, _) => 200
    case Created(_) => 200
    case Healthy => 200
    case Unauthorized => 401
    case Unavailable(_) => 503
    case ServerError => 500
  }

  /** `not authorization` is false: the header is present and non-empty. Its content is never examined. */
  predicate Authorized(authorization: Option<string>) {
    authorization.Some? && authorization.value != []
  }

  /** The response objects built from the rows, one per row, in the store's order. */
  function ToTasks(rows: seq<Row>): (ts: seq<Json.Task>)
    ensures |ts| == |rows|
    ensures forall i :: 0 <= i < |rows| ==> ts[i] == Json.Task(rows[i].0, rows[i].1)
  {
    if rows == [] then [] else [Json.Task(rows[0].0, rows[0].1)] + ToTasks(rows[1..])
  }

  /** `cache.get("tasks") if cache else None`. */
  function CachedText(cache: Option<Option<CacheEntry>>): (r: Option<string>)
    ensures r.Some? <==> cache.Some? && cache.value.Some?
  {
    if cache.Some? && cache.value.Some? then Some(cache.value.value.text) else None
  }

  /** `if cached:` holds: the entry exists and its text is not the empty string. */
  predicate IsHit(cache: Option<Option<CacheEntry>>) {
    var cached := CachedText(cache);
    cached.Some? && cached.value != []
  }

  /** `cache.setex("tasks", 30, json.dumps(tasks))` when a cache backend exists. */
  function Fill(cache: Option<Option<CacheEntry>>, ts: seq<Json.Task>): Option<Option<CacheEntry>> {
    if cache.Some? then Some(Some(CacheEntry(Json.Encode(ts), TasksTtl))) else None
  }

  /** `cache.delete("tasks")` when a cache backend exists. */
  function Invalidate(cache: Option<Option<CacheEntry>>): Option<Option<CacheEntry>> {
    if cache.Some? then Some(None) else None
  }

  /** GET /tasks: the response and the state afterwards. */
  function Get(s: State, authorization: Option<string>): (out: (Response, State))
    ensures out.1.store == s.store
    ensures out.0.Listed? && out.0.source == FromDatabase ==>
              s.store.Some? && out.0.tasks == ToTasks(s.store.value)
    ensures out.1.cache != s.cache ==>
              s.cache.Some? && out.0.Listed? && out.0.source == FromDatabase &&
              out.1.cache == Some(Some(CacheEntry(Json.Encode(out.0.tasks), TasksTtl)))
  {
    if !Authorized(authorization) then (Unauthorized, s)
    else if IsHit(s.cache) then
      match Json.Decode(CachedText(s.cache).value)
      case Some(ts) => (Listed(ts, FromCache), s)
      case None => (ServerError, s)
    else if s.store.Some? then
      var ts := ToTasks(s.store.value);
      (Listed(ts, FromDatabase), State(s.store, Fill(s.cache, ts)))
    else
      (Unavailable(DatabaseNotAvailable), s)
  }

  /** The store gives a new row an id no row has yet. */
  predicate FreshId(rows: seq<Row>, id: int) {
    forall i :: 0 <= i < |rows| ==> rows[i].0 != id
  }

  /** POST /tasks with the given title, where id is the id the store assigns to the new row. */
  function Create(s: State, authorization: Option<string>, title: string, id: int): (out: (Response, State))
    ensures out.0.Created? <==> Authorized(authorization) && s.store.Some?
    ensures out.0.Created? ==>
              out.0.title == title && out.1.store == Some(s.store.value + [(id, title)]) &&
              out.1.cache == (if s.cache.Some? then Some(None) else None)
    ensures !out.0.Created? ==> out.1 == s
  {
    if !Authorized(authorization) then (Unauthorized, s)
    else if s.store.Some? then
      (Created(title), State(Some(s.store.value + [(id, title)]), Invalidate(s.cache)))
    else
      (Unavailable(DatabaseNotAvailable), s)
  }

  /** The cache server drops the entry once its time-to-live has run out. */
  function Expire(s: State): (s': State)
    ensures s'.store == s.store && s'.cache == (if s.cache.Some? then Some(None) else None)
  {
    State(s.store, Invalidate(s.cache))
  }

  // ---------------------------------------------------------------------------
  // The authorization gate
  // ---------------------------------------------------------------------------

  /** A missing or empty header is refused with 401 before either backend is used. */
  lemma UnauthorizedChangesNothing(s: State, authorization: Option<string>, title: string, id: int)
    requires !Authorized(authorization)
    ensures Get(s, authorization) == (Unauthorized, s)
    ensures Create(s, authorization, title, id) == (Unauthorized, s)
    ensures StatusCode(Get(s, authorization).0) == 401
  {
  }

  /** Presence alone gates access: any two authorized headers give the same outcome. */
  lemma CredentialNotInspected(s: State, a: Option<string>, b: Option<string>, title: string, id: int)
    requires Authorized(a) && Authorized(b)
    ensures Get(s, a) == Get(s, b)
    ensures Create(s, a, title, id) == Create(s, b, title, id)
  {
  }

  // ---------------------------------------------------------------------------
  // The cache-aside read
  // ---------------------------------------------------------------------------

  /**
   * An entry holding the text of a list is a hit, even for the empty list (its text "[]" is not empty):
   * the list comes back tagged "cache", nothing changes, and the store is not needed (it may be absent).
   */
  lemma HitServedFromCache(s: State, authorization: Option<string>, ts: seq<Json.Task>, ttl: nat)
    requires Authorized(authorization)
    requires s.cache == Some(Some(CacheEntry(Json.Encode(ts), ttl)))
    ensures IsHit(s.cache)
    ensures Get(s, authorization) == (Listed(ts, FromCache), s)
  {
    Json.DecodeEncode(ts);
  }

  /**
   * A miss with a store answers the store's rows in order, tagged "database", and sets the entry to that
   * list with a 30-second time-to-live when a cache backend exists; the store is left as it was.
   */
  lemma MissServedFromStore(s: State, authorization: Option<string>, rows: seq<Row>)
    requires Authorized(authorization)
    requires !IsHit(s.cache) && s.store == Some(rows)
    ensures Get(s, authorization).0 == Listed(ToTasks(rows), FromDatabase)
    ensures Get(s, authorization).1.store == Some(rows)
    ensures Get(s, authorization).1.cache ==
              if s.cache.Some? then Some(Some(CacheEntry(Json.Encode(ToTasks(rows)), TasksTtl))) else None
  {
  }

  /** Without a hit and without a store, GET fails with 503 and changes nothing. */
  lemma GetWithoutStoreUnavailable(s: State, authorization: Option<string>)
    requires Authorized(authorization)
    requires !IsHit(s.cache) && s.store.None?
    ensures Get(s, authorization) == (Unavailable(DatabaseNotAvailable), s)
    ensures StatusCode(Get(s, authorization).0) == 503
  {
  }

  /** After a miss fills the entry, the next GET returns, from "cache", exactly the list the miss returned. */
  lemma CacheRoundTrip(s: State, first: Option<string>, second: Option<string>)
    requires Authorized(first) && Authorized(second)
    requires !IsHit(s.cache) && s.store.Some? && s.cache.Some?
    ensures var (r1, s1) := Get(s, first);
            r1.Listed? && r1.source == FromDatabase &&
            Get(s1, second) == (Listed(r1.tasks, FromCache), s1)
  {
    var (r1, s1) := Get(s, first);
    HitServedFromCache(s1, second, r1.tasks, TasksTtl);
  }

  /** An expired entry is a miss: the GET after an expiry goes back to the store. */
  lemma ExpiredEntryMisses(s: State, authorization: Option<string>, rows: seq<Row>)
    requires Authorized(authorization) && s.store == Some(rows)
    ensures Get(Expire(s), authorization).0 == Listed(ToTasks(rows), FromDatabase)
  {
  }

  // ---------------------------------------------------------------------------
  // The write with invalidation
  // ---------------------------------------------------------------------------

  lemma ToTasksAppend(rows: seq<Row>, row: Row)
    ensures ToTasks(rows + [row]) == ToTasks(rows) + [Json.Task(row.0, row.1)]
  {
    var lhs := ToTasks(rows + [row]);
    var rhs := ToTasks(rows) + [Json.Task(row.0, row.1)];
    assert |lhs| == |rhs|;
    forall i | 0 <= i < |lhs| ensures lhs[i] == rhs[i] {
      assert (rows + [row])[i] == if i < |rows| then rows[i] else row;
    }
  }

  /**
   * POST with a store appends exactly one row with the title, leaves the "tasks" entry absent and
   * reports the title; the following GET misses and lists the new row last, after the old rows in order.
   */
  lemma CreateThenGet(s: State, first: Option<string>, second: Option<string>, title: string, id: int, rows: seq<Row>)
    requires Authorized(first) && Authorized(second)
    requires s.store == Some(rows)
    ensures var (r1, s1) := Create(s, first, title, id);
            r1 == Created(title) &&
            s1.store == Some(rows + [(id, title)]) &&
            s1.cache == (if s.cache.Some? then Some(None) else None) &&
            Get(s1, second).0 == Listed(ToTasks(rows) + [Json.Task(id, title)], FromDatabase)
  {
    ToTasksAppend(rows, (id, title));
  }

  /** Without a store an authorized POST fails with 503 and does not invalidate the entry. */
  lemma CreateWithoutStoreUnavailable(s: State, authorization: Option<string>, title: string, id: int)
    requires Authorized(authorization) && s.store.None?
    ensures Create(s, authorization, title, id) == (Unavailable(DatabaseNotAvailable), s)
  {
  }

  // ---------------------------------------------------------------------------
  // Invariants
  // ---------------------------------------------------------------------------

  /** Ids in the store are pairwise distinct. */
  predicate UniqueIds(rows: seq<Row>) {
    forall i, j :: 0 <= i < j < |rows| ==> rows[i].0 != rows[j].0
  }

  function MaxId(rows: seq<Row>): (m: int)
    ensures forall i :: 0 <= i < |rows| ==> rows[i].0 <= m
  {
    if rows == [] then 0
    else
      var rest := MaxId(rows[1..]);
      if rows[0].0 > rest then rows[0].0 else rest
  }

  /** The store can always assign a new id. */
  lemma FreshIdExists(rows: seq<Row>)
    ensures FreshId(rows, MaxId(rows) + 1)
  {
  }

  /** A POST whose new id is fresh keeps the ids distinct; a GET never changes the rows. */
  lemma UniqueIdsKept(s: State, authorization: Option<string>, title: string, id: int)
    requires s.store.Some? && UniqueIds(s.store.value) && FreshId(s.store.value, id)
    ensures var s1 := Create(s, authorization, title, id).1; UniqueIds(s1.store.value)
    ensures UniqueIds(Get(s, authorization).1.store.value)
  {
    var rows := s.store.value + [(id, title)];
    forall i, j | 0 <= i < j < |rows| ensures rows[i].0 != rows[j].0 {
      if j == |rows| - 1 {
        assert rows[i] == s.store.value[i];
      }
    }
  }

  /**
   * The cache reflects the store: when both exist and the entry is present, it holds the text of the
   * store's current list. The service keeps this itself: reads fill with the current rows, writes delete.
   */
  predicate Coherent(s: State) {
    s.store.Some? && s.cache.Some? && s.cache.value.Some? ==>
      s.cache.value.value.text == Json.Encode(ToTasks(s.store.value))
  }

  lemma CoherentKept(s: State, authorization: Option<string>, title: string, id: int)
    requires Coherent(s)
    ensures Coherent(Get(s, authorization).1)
    ensures Coherent(Create(s, authorization, title, id).1)
    ensures Coherent(Expire(s))
  {
  }

  /** While the cache is coherent, GET answers the store's current rows, whichever tier serves them. */
  lemma CoherentReadIsCurrent(s: State, authorization: Option<string>, rows: seq<Row>)
    requires Coherent(s) && Authorized(authorization) && s.store == Some(rows)
    ensures Get(s, authorization).0.Listed?
    ensures Get(s, authorization).0.tasks == ToTasks(rows)
  {
    if IsHit(s.cache) {
      HitServedFromCache(s, authorization, ToTasks(rows), s.cache.value.value.ttl);
    }
  }
}
