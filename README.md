# TaskHub task list: cache-aside read and invalidating write

This project models the task endpoints of TaskHub's api service and proves how they behave. The service
keeps a task list in a relational store and reads it through a cache that holds one entry, `"tasks"`,
with a 30-second time-to-live:

- `GET /tasks` checks the authorization header first. It then serves the cached list if one is
  present. Otherwise it reads the store and fills the cache.
- `POST /tasks` inserts a row and then deletes the cached entry.
- `GET /health` always answers ok.

Either backend may be missing: the module-level handles `db` and `cache` start as `None`.

The model has four modules:

- `Wrappers`: the `Option` type.
- `Json`: the JSON text of a task list. It is written by `Encode` (the layout of `json.dumps`) and read
  back by `Decode`. The round trip `Decode(Encode(ts)) == Some(ts)` is proved.
- `Tasks`: the service as a state machine over a value `State(store, cache)`. `store` is
  `None` when there is no database connection; otherwise it is the table's rows in scan order.
  `cache` is `None` when there is no cache backend, `Some(None)` when the backend has no `"tasks"`
  entry, and `Some(Some(entry))` otherwise. `Get` and `Create` give each request's response and
  next state, and `Expire` the state after the entry lapses. The lemmas state the properties of the cache-aside pattern.
- `Api`: class `TaskService`, whose fields `store` and `cache` are the two handles. Its handlers
  `GetTasks` and `CreateTask` update those fields in place. Each is proved to give exactly the response
  and state of the matching `Tasks` function. `Session` walks through a miss, a hit, a write, a
  second miss, and a GET without a header that is refused.

The authorization header is an `Option<string>`. `None` is a missing header and `Some("")` an empty
one; both are refused with 401. The credential's content is never examined.

Three behaviours of the code that the model keeps:

- An entry whose text is empty counts as a miss, because the code tests `if cached:` (`Tasks.IsHit`).
- A cached text that `json.loads` rejects, such as one with the id written `01`, gets status 500 in
  the code, because no handler catches the exception. The model answers `ServerError` (500), changing
  nothing, for every text `Json.Decode` does not read as a task list. That set also holds valid JSON
  in other layouts (see `Json.Decode` under "## Left out").
- `create_task` sets no status code, so `POST /tasks` answers with FastAPI's default, 200.

## Model

| member | source | states |
|---|---|---|
| `Api.TaskService.constructor` | services/api/src/main.py:10-11 | The service starts with whatever store and cache handles startup left, each present or absent. |
| `Api.TaskService.Health` | services/api/src/main.py:16-19 | Health answers ok with status 200. It has no precondition on the backends and changes nothing. |
| `Api.TaskService.GetTasks` | services/api/src/main.py:62-83 | The handler's response and its new store and cache are exactly those `Tasks.Get` gives for the old state. It may change only the cache handle. |
| `Api.TaskService.CreateTask` | services/api/src/main.py:85-101 | The handler's response and new state are exactly those `Tasks.Create` gives. On success the id the store assigned to the new row is new to the table. |
| `Api.TaskService.ExpireCache` | services/api/src/main.py:79 | Letting the 30-second entry lapse leaves the state `Tasks.Expire` gives: no entry, and the store untouched. |
| `Tasks.ToTasks` | services/api/src/main.py:77 | The rows become one `{id, title}` object per row, with the same id and title, in the store's order. |
| `Tasks.CachedText` | services/api/src/main.py:68 | Reading the cache yields a text exactly when a cache backend exists and holds the entry. |
| `Tasks.Get` | services/api/src/main.py:62-83 | GET never changes the store. A list tagged "database" is the store's current rows. The only change GET makes to the cache is to set the entry to the text of the list it returned, with a 30-second time-to-live, when the backend exists. |
| `Tasks.Create` | services/api/src/main.py:85-101 | POST succeeds if and only if the header is present and non-empty and a store exists. On success it reports the title and appends exactly the row `(id, title)`. It also deletes the entry: a present cache backend is left with no entry, and an absent one stays absent. On failure nothing changes. |
| `Tasks.Expire` | services/api/src/main.py:79 | Expiry keeps the store and removes the entry: a present cache backend is left with no entry, and an absent one stays absent. |
| `Tasks.UnauthorizedChangesNothing` | services/api/src/main.py:63-88 | A missing or empty header makes both GET and POST answer 401, with store and cache unchanged. |
| `Tasks.CredentialNotInspected` | services/api/src/main.py:63-88 | Any two present, non-empty headers give the same outcome: presence alone is checked. |
| `Tasks.HitServedFromCache` | services/api/src/main.py:68-70 | An entry holding the text of a list is a hit, the empty list included. GET returns that list tagged "cache" and changes nothing, whether or not a store exists. |
| `Tasks.MissServedFromStore` | services/api/src/main.py:73-80 | On a miss with a store, GET returns the rows in order, tagged "database". The store is unchanged. The entry is set to that list's text with expiry 30 if a cache backend exists; otherwise nothing is cached. |
| `Tasks.GetWithoutStoreUnavailable` | services/api/src/main.py:82-83 | Without a hit and without a store, GET answers 503 "Database not available" and changes nothing. |
| `Tasks.CacheRoundTrip` | services/api/src/main.py:68-80 | After a miss fills the entry, the next GET returns, from "cache", exactly the list the miss returned, and changes nothing. |
| `Tasks.ExpiredEntryMisses` | services/api/src/main.py:68-80 | After the entry expires, GET reads the store again. |
| `Tasks.ToTasksAppend` | services/api/src/main.py:77 | Converting the rows with one row appended gives the old objects followed by the new row's object. |
| `Tasks.CreateThenGet` | services/api/src/main.py:62-99 | A POST with a store reports the title, appends the one row and deletes the entry. The following GET misses and lists the old rows in order, then the new row. |
| `Tasks.CreateWithoutStoreUnavailable` | services/api/src/main.py:90-101 | Without a store an authorized POST answers 503 "Database not available". The cache entry is left as it was; there is no invalidation. |
| `Tasks.FreshIdExists` | services/api/src/main.py:92-95 | The store can always give the inserted row an id no row has yet. |
| `Tasks.UniqueIdsKept` | services/api/src/main.py:92-95 | Distinct ids stay distinct across a POST with a store-assigned fresh id, and across a GET. |
| `Tasks.CoherentKept` | services/api/src/main.py:73-98 | "The entry, when present, is the text of the store's current list" is kept by GET, POST and expiry. |
| `Tasks.CoherentReadIsCurrent` | services/api/src/main.py:68-80 | While that holds, GET returns the store's current rows, whichever tier serves them. |
| `Json.Encode` | services/api/src/main.py:79 | The text of a list is never empty: it starts with `[` and ends with `]`. |
| `Json.Decode` | services/api/src/main.py:70 | Only a non-empty text decodes to a list. |
| `Json.ParseNat` | services/api/src/main.py:70 | A number is read only when it has no leading zero, as JSON requires of the text `json.loads` reads. |
| `Json.DecodeRefusesLeadingZero` | services/api/src/main.py:70 | The entry `[{"id": 01, "title": "a"}]` is refused, as `json.loads` refuses it. |
| `Json.DecodeEncode` | services/api/src/main.py:70-79 | Decoding the text written for a list gives back that list: ids, titles and order. |
| `Json.EncodeInjective` | services/api/src/main.py:79 | Two lists with the same text are equal. |

## Left out

- The auth service's `login` (services/auth/src/main.py:11-15) is not part of this model. It echoes the username next to a random UUID and keeps no state.
- `startup_event` (services/api/src/main.py:31-51) is I/O. It opens the PostgreSQL connection from environment variables and creates the Redis client for the hardcoded `redis:6379`; the constructor takes the resulting handles instead.
- `root` (services/api/src/main.py:21-26) is left out: it only reads two environment variables.
- SQL text, cursors and `db.commit()` are foreign library calls; the store is a sequence of rows. Failures of the store or of the cache server (query, commit, get, setex, delete) are not modelled. Those calls raise exceptions that no handler catches.
- The real-time countdown of the 30-second time-to-live runs on the cache server's clock. The model records the 30 in the entry and has an explicit `ExpireCache` step.
- Concurrency is left out, including the accepted race between a read filling the cache and a write deleting it. Requests are modelled one at a time.
- FastAPI routing and pydantic validation of the body are framework behaviour. A title is any string, the empty one included.
- Json.Decode: differs from `json.loads` in both directions. It reads the layout `Json.Encode` writes, plus the number `-0`, which JSON allows. It refuses numbers with a leading zero, as `json.loads` does.
  - A cached text in another valid JSON layout, or a JSON value other than a list of tasks, gets a 500 here. Python might decode it and return it.
  - It accepts a raw control character inside a title. `json.loads` refuses one in its default strict mode, so such an entry gets 200 here where Python answers 500.
- Json.Encode: escapes only the quote and the backslash inside titles. `json.dumps` also writes `\n`, `\r`, `\t`, `\b` and `\f` for those five control characters, and `\u00XX` or `\uXXXX` for the other control characters and for non-ASCII characters; the model writes all of these verbatim. The round trip holds either way.
- Api.TaskService.CreateTask: the new row's id is any id not yet in the table. The order in which a PostgreSQL sequence hands ids out is not modelled.
- Tasks.CreateThenGet: an INSERT is modelled as landing last in the store's scan order, so the following GET lists the new row after the old rows. `SELECT id, title FROM tasks;` has no ORDER BY, and PostgreSQL does not guarantee that order. The same holds for `Tasks.Create`, which appends the row to the sequence.
