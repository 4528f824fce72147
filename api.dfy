/**
 * The api service's handlers over its shared backend handles.
 *
 * The handles `db` and `cache` are the fields of a TaskService; each handler reads them and, where the
 * service writes (`cache.setex`, the INSERT with its commit, `cache.delete`), updates them in place.
 * Every handler is proved to do exactly what the matching function of module Tasks describes, so the
 * lemmas proved there hold of the handlers.
 */
module Api {
  import opened Wrappers
  import Json
  import opened Tasks

  class TaskService {
    var store: Option<seq<Row>>
    var cache: Option<Option<CacheEntry>>

    /** The backends as a value, for the specification functions of module Tasks. */
    function Snapshot(): State
      reads this
    {
      State(store, cache)
    }

    /** The handles as startup left them: each backend connected or not. */
    constructor (store: Option<seq<Row>>, cache: Option<Option<CacheEntry>>)
      ensures Snapshot() == State(store, cache)
    {
      this.store := store;
      this.cache := cache;
    }

    /** GET /health: ok whatever the state of the backends. */
    method Health() returns (r: Response)
      ensures r == Healthy && StatusCode(r) == 200
    {
      r := Healthy;
    }

    /** GET /tasks. */
    method GetTasks(authorization: Option<string>) returns (r: Response)
      modifies this`cache
      ensures (r, Snapshot()) == Get(old(Snapshot()), authorization)
    {
      if !Authorized(authorization) {
        return Unauthorized;
      }
      if IsHit(cache) {
        var decoded := Json.Decode(CachedText(cache).value);
        if decoded.None? {
          return ServerError;
        }
        return Listed(decoded.value, FromCache);
      }
      if store.Some? {
        var tasks := ToTasks(store.value);
        if cache.Some? {
          cache := Some(Some(CacheEntry(Json.Encode(tasks), TasksTtl)));
        }
        return Listed(tasks, FromDatabase);
      }
      return Unavailable(DatabaseNotAvailable);
    }

    /** POST /tasks. The id the store gives the new row is not part of the response. */
    method CreateTask(title: string, authorization: Option<string>) returns (r: Response, ghost id: int)
      modifies this
      ensures (r, Snapshot()) == Create(old(Snapshot()), authorization, title, id)
      ensures r.Created? ==> FreshId(old(store).value, id)
    {
      id := 0;
      if !Authorized(authorization) {
        return Unauthorized, id;
      }
      if store.Some? {
        FreshIdExists(store.value);
        var newId :| FreshId(store.value, newId);
        id := newId;
        store := Some(store.value + [(newId, title)]);
        if cache.Some? {
          cache := Some(None);
        }
        return Created(title), id;
      }
      return Unavailable(DatabaseNotAvailable), id;
    }

    /** The cache server lets the "tasks" entry lapse after its time-to-live. */
    method ExpireCache()
      modifies this`cache
      ensures Snapshot() == Expire(old(Snapshot()))
    {
      if cache.Some? {
        cache := Some(None);
      }
    }
  }

  /**
   * A session against a store holding (1, "a") and (2, "b") and an empty cache: a miss, a hit with the
   * same list, a write, then a miss that sees the new row.
   */
  method Session() {
    var rows: seq<Row> := [(1, "a"), (2, "b")];
    var service := new TaskService(Some(rows), Some(None));
    var header := Some("Bearer token");

    ghost var s0 := service.Snapshot();
    var first := service.GetTasks(header);
    MissServedFromStore(s0, header, rows);
    assert first == Listed([Json.Task(1, "a"), Json.Task(2, "b")], FromDatabase);

    ghost var s1 := service.Snapshot();
    var second := service.GetTasks(header);
    HitServedFromCache(s1, header, first.tasks, TasksTtl);
    assert second == Listed(first.tasks, FromCache);

    ghost var s2 := service.Snapshot();
    var created, id := service.CreateTask("c", header);
    var third := service.GetTasks(header);
    CreateThenGet(s2, header, header, "c", id, rows);
    assert created == Created("c");
    assert third == Listed(first.tasks + [Json.Task(id, "c")], FromDatabase);

    var refused := service.GetTasks(None);
    assert refused == Unauthorized;
  }
}
