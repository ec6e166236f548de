# Todos API: cache-aside handlers, breaker registry and dependency fallbacks

A Dafny model of the request-handling core of the `todos-api` service:

- **Cache facade** (`Cache`, from `todos-api/cacheService.js`). A best-effort `get`/`set`/`del` over a Redis-like backend. The backend is a map from key to entry (serialized text and TTL). Whether the backend reports an error is an input to each call. `Get` turns an error, an absent key, an empty string or text that does not parse into a miss. `Set` and `Del` leave the backend unchanged on an error and never fail. The user's key is `"todos:user:" + username`.
- **JSON** (`Json`). Serialization is abstract. `Text<V>` is either the encoding of a value, the empty string, or malformed text. The one property used is that `Parse(Serialize(v)) == Some(v)`.
- **Breaker registry** (`Breakers`, from `todos-api/circuitBreakerService.js`). The default options, option merging (custom over defaults), and a `CircuitBreakerService` class whose `breakers` map is filled by `CreateBreaker`. It also offers `GetBreaker`, per-name stats and a loop that builds the stats of every breaker. A breaker is an opaque value. It carries its wrapped action, its options, a state in {closed, open, half-open} and a count of emitted `failure` events.
- **Dependency gateway** (`ExternalApi`, from `todos-api/externalApiService.js`). The users and auth fallback records, and the breakers registered at start-up. `GetUserInfo` and `VerifyToken` return what the breaker settles to, or rethrow its error unchanged; how a breaker call settles is an input (`Fired`). `SimulateFailure` emits six `failure` events on one registered breaker.
- **Todo handlers** (`Todos`, `Controller`, `CacheAside`, from `todos-api/todoController.js`). The per-user record is `{items: id -> {id, content}, lastInsertedId}`, and a new user is seeded with ids 1-3 and counter 4. `TodoController` holds the cache facade and the gateway; its `database` field stands for the process-wide `memory-cache` store that the handlers read and write. Its `List`, `Create` and `Delete` are proved to equal the step functions `ListStep`, `CreateStep` and `DeleteStep`. Lemmas about runs of these steps prove the cache-aside protocol:
  - a `create` followed by `list` is a miss, and the next `list` is a hit;
  - a hit changes nothing;
  - writes invalidate exactly the user's key;
  - the cache stays coherent with the database as long as invalidations succeed;
  - a failed invalidation serves the stale snapshot.

Facts about the code that the model relies on:
- The cache key prefix is `todos:user:`.
- Every item id is strictly below `lastInsertedId`.
- The sources of a `list` answer are `cache`, `database` and `database_fallback`.
- `list`'s outermost error handler is reached when a cached document is truthy but has no `items` (`NoItemsDoc`). A failing store read does not reach it, because the in-memory store does not fail.
- The fallback records carry exactly the fields the code gives them.

## Model

| member | source | states |
|---|---|---|
| `Json.Serialize` | todos-api/cacheService.js:31 | serialized text is neither empty nor malformed |
| `Json.Parse` | todos-api/cacheService.js:17-22 | parsing succeeds exactly on an encoding, and yields the value that serializes to it |
| `Json.ParseSerialize` | todos-api/cacheService.js:18-31 | parsing undoes serializing (the JSON round-trip assumption) |
| `Cache.UserTodosKey` | todos-api/cacheService.js:53-55 | the key is the prefix `todos:user:` followed by the username |
| `Cache.UserTodosKeyInjective` | todos-api/cacheService.js:53-55 | two usernames share a key exactly when they are equal |
| `Cache.Read` | todos-api/cacheService.js:12-23 | a GET answered by the backend hits exactly when the key holds an encoding, and then yields the value stored there |
| `Cache.Stored` | todos-api/cacheService.js:29-38 | SETEX replaces the key's entry whole with the encoding and TTL and keeps every other key; an error or a non-positive TTL leaves the backend as it was |
| `Cache.Dropped` | todos-api/cacheService.js:42-51 | DEL removes exactly that key and keeps every other; an error leaves the backend as it was |
| `Cache.ReadAfterStore` | todos-api/cacheService.js:10-38 | round trip: after a successful set, get returns the value set |
| `Cache.ReadAfterDrop` | todos-api/cacheService.js:10-51 | after a successful del, get is a miss |
| `Cache.ReadOtherKey` | todos-api/cacheService.js:29-51 | set and del of one key leave reads of every other key unchanged |
| `Cache.CacheService.constructor` | todos-api/cacheService.js:4-7 | the facade starts over the given backend with a default TTL of 300 |
| `Cache.CacheService.Get` | todos-api/cacheService.js:10-26 | never fails: a backend error is a miss, otherwise the answer is what the stored entry reads as |
| `Cache.CacheService.Set` | todos-api/cacheService.js:29-39 | never fails; stores the encoding with the given TTL or 300 when none is given; a backend error changes nothing |
| `Cache.CacheService.Del` | todos-api/cacheService.js:42-51 | never fails; removes the key unless the backend reports an error |
| `Breakers.DefaultOptions` | todos-api/circuitBreakerService.js:4-11 | exactly the six defaults: timeout 3000, error threshold 50, reset 30000, rolling window 10000, 10 buckets, volume threshold 5 |
| `Breakers.MergeOptions` | todos-api/circuitBreakerService.js:18-19 | every key of the defaults or the custom options, each taken from the custom options when present and from the defaults otherwise |
| `Breakers.NewBreaker` | todos-api/circuitBreakerService.js:20 | a new breaker is closed, wraps the given action with the given options and has no events |
| `Breakers.Breaker.EmitFailure` | todos-api/externalApiService.js:105 | emitting a failure event adds one to the breaker's event count and changes nothing else |
| `Breakers.ExactlyOneFlag` | todos-api/circuitBreakerService.js:63-65 | exactly one of the open, half-open and closed flags holds |
| `Breakers.CircuitBreakerService.constructor` | todos-api/circuitBreakerService.js:14-16 | the registry starts empty |
| `Breakers.CircuitBreakerService.CreateBreaker` | todos-api/circuitBreakerService.js:18-49 | returns a breaker built from the merged options and registers it under the name, replacing an earlier one of that name and leaving every other entry unchanged |
| `Breakers.CircuitBreakerService.GetBreaker` | todos-api/circuitBreakerService.js:51-53 | the breaker registered under the name, or none exactly when the name is unregistered |
| `Breakers.CircuitBreakerService.GetBreakerStats` | todos-api/circuitBreakerService.js:55-67 | null exactly for an unregistered name; otherwise the queried name, that breaker's state, and the three flags read from that state |
| `Breakers.CircuitBreakerService.GetAllBreakerStats` | todos-api/circuitBreakerService.js:69-75 | one entry per registered name and no other, each equal to what `GetBreakerStats` reports for that name |
| `ExternalApi.UsersFallback` | todos-api/externalApiService.js:52-60 | the record `{username, name: 'Unknown User', email: username + '@example.com', fallback: true}` for any username |
| `ExternalApi.AuthFallback` | todos-api/externalApiService.js:62-69 | the record `{valid: false, fallback: true, message: 'Authentication service unavailable'}` |
| `ExternalApi.UsersFallbackDistinguishesUsers` | todos-api/externalApiService.js:52-60 | different usernames get different fallback records |
| `ExternalApi.AuthFallbackIgnoresToken` | todos-api/externalApiService.js:62-69 | the auth fallback is the same for every token and never accepts it |
| `ExternalApi.GetUserInfo` | todos-api/externalApiService.js:72-81 | returns the users breaker's result unchanged, the users fallback for that username when the breaker falls back, and rethrows its error unchanged |
| `ExternalApi.VerifyToken` | todos-api/externalApiService.js:83-92 | returns the auth breaker's result unchanged, the auth fallback when the breaker falls back, and rethrows its error unchanged |
| `ExternalApi.FallbackAnswersAreFlagged` | todos-api/externalApiService.js:52-69 | a fallback answer from either dependency is flagged `fallback: true`, and the auth one is `valid: false` |
| `ExternalApi.ShouldFail` | todos-api/externalApiService.js:99 | `shouldFail` defaults to true when missing and is the given value otherwise |
| `ExternalApi.ExternalApiService.constructor` | todos-api/externalApiService.js:47-49 | loading the service registers `users-api` and `auth-api` breakers with the default options and changes no other entry |
| `ExternalApi.ExternalApiService.GetBreakerStats` | todos-api/externalApiService.js:94-96 | exactly the registry's stats of all registered breakers |
| `ExternalApi.ExternalApiService.SimulateFailure` | todos-api/externalApiService.js:99-108 | with a registered name and failing asked for, exactly six failure events on that breaker and no other change; otherwise no change at all |
| `Todos.Seed` | todos-api/todoController.js:216-232 | the seed has exactly ids 1, 2, 3 with the three fixed contents, counter 4, and is well formed |
| `Todos.NewTodo` | todos-api/todoController.js:114-117 | the new item takes the current counter as id and the given content |
| `Todos.Created` | todos-api/todoController.js:113-120 | create adds the item under the old counter, keeps every other item, and raises the counter by exactly one |
| `Todos.Deleted` | todos-api/todoController.js:147-148 | delete removes exactly that id, keeps the other items and the counter, and is a no-op on an absent id |
| `Todos.Items` | todos-api/todoController.js:40 | the items a record lists are exactly the stored items: every stored item is among them, every listed item is stored under some id, and an empty record lists none |
| `Todos.ItemsBelowCounter` | todos-api/todoController.js:113-120 | every listed item of a well-formed record has an id below the counter |
| `Todos.CreatedKeepsItems` | todos-api/todoController.js:116-120 | on a well-formed record the counter is not in use, so create never overwrites an item, and the record stays well formed |
| `Todos.DeletedKeepsWellFormed` | todos-api/todoController.js:148 | delete keeps every id below the counter and under its own key |
| `Todos.ApplyAllKeepsWellFormed` | todos-api/todoController.js:108-166 | any run of creates and deletes keeps the record well formed, and the counter rises by exactly the number of creates |
| `Todos.AssignedIdsConsecutive` | todos-api/todoController.js:113-120 | the creates of a run get consecutive ids from the counter on, none reused and none previously in use |
| `Controller.UnknownUser` | todos-api/todoController.js:82-91 | the controller's placeholder `{username, name: 'Unknown User'}`, with `fallback: true` exactly when flagged |
| `Controller.Answer` | todos-api/todoController.js:70-92 | the items of the record, source and `cacheHit` as given; the user record when `getUserInfo` returns, the flagged placeholder and the fallback tag when it throws |
| `Controller.FallbackAnswer` | todos-api/todoController.js:94-105 | the outermost handler answers the database's items, source `database_fallback`, no hit, the unflagged placeholder, error `Fallback mode` and no `patterns` field at all |
| `Controller.Loaded` | todos-api/todoController.js:213-236 | the stored record of a known user, the seed for an unknown one |
| `Controller.LoadedInto` | todos-api/todoController.js:213-236 | get-or-seed persists the record it hands out and changes no other user |
| `Controller.ListStep` | todos-api/todoController.js:22-106 | list is a hit exactly when it answers from the cache, and then changes nothing; otherwise it answers the loaded record's items and persists it, caching it with TTL 600 (unless the SET fails) when it answers `database`, leaving the cache as it was on `database_fallback`, and never touching another user's record |
| `Controller.CreateStep` | todos-api/todoController.js:108-139 | create answers the new item under the user's counter with `cacheInvalidated` true, stores the user's record with that item added, keeps every other user's record, and DELs the user's key (unless the DEL fails) |
| `Controller.DeleteStep` | todos-api/todoController.js:141-166 | delete stores the user's record with that id removed, keeps every other user's record, and DELs the user's key (unless the DEL fails) |
| `Controller.TodoController.constructor` | todos-api/todoController.js:13-19 | the controller built at start-up holds the given cache and gateway, and the store is empty then (the store is a process-wide singleton; see Left out) |
| `Controller.TodoController.GetTodoData` | todos-api/todoController.js:213-236 | returns the user's record or the seed, and persists the seed; the record returned is well formed and every stored record stays well formed |
| `Controller.TodoController.SetTodoData` | todos-api/todoController.js:238-240 | stores a well-formed record under the user, changes nothing else, and keeps every stored record well formed |
| `Controller.TodoController.List` | todos-api/todoController.js:22-106 | answers and updates the state exactly as `ListStep`, keeping every stored record well formed |
| `Controller.TodoController.Create` | todos-api/todoController.js:108-139 | answers and updates the state exactly as `CreateStep`, keeps every record well formed and records one CREATE audit event with the new id |
| `Controller.TodoController.Delete` | todos-api/todoController.js:141-166 | answers and updates the state exactly as `DeleteStep`, keeps every record well formed and records one DELETE audit event with the id |
| `Controller.TodoController.BreakerStats` | todos-api/todoController.js:169-180 | the stats of every registered breaker, as the registry reports them |
| `Controller.TodoController.SimulateFailure` | todos-api/todoController.js:183-198 | replies as the code does ("enabled" only for `enable` true, "disabled" otherwise) and injects failures as the gateway does: six on a registered breaker when `enable` is missing or true, none otherwise |
| `Controller.SimulateFailureMessageAsWritten` | todos-api/todoController.js:191 | the reply as written: "enabled" exactly when `enable` is true, "disabled" when it is false or missing |
| `Controller.SimulateFailureMessage` | todos-api/todoController.js:191 | the corrected reply: "enabled" exactly when the service is registered and `shouldFail` holds (`enable` missing or true), which is when the gateway injects failures; "disabled" otherwise |
| `Controller.TodoController.SimulateFailureCorrected` | todos-api/todoController.js:183-198 | the endpoint with the corrected reply: it injects failures as the gateway does, and says "enabled" exactly when the breaker registry changed, i.e. when failures were injected |
| `Controller.AsWrittenMessageMisreports` | todos-api/todoController.js:186-191 | as written, a request for a registered service without `enable` is told "disabled" although failures are injected, where the corrected reply says "enabled" |
| `Controller.MessageMatchesEffect` | todos-api/todoController.js:186-191 | the corrected reply says "enabled" exactly when the service is registered and `shouldFail` holds |
| `CacheAside.CachedRecord` | todos-api/todoController.js:29-31 | a todo record is cached for a user exactly when the user's key reads as that record |
| `CacheAside.ListHit` | todos-api/todoController.js:29-58 | a hit answers the cached items with source `cache` and `cacheHit` true, and changes neither the database nor the cache |
| `CacheAside.ListMiss` | todos-api/todoController.js:61-81 | a miss reads the database (seeding a new user), caches that record with TTL 600 unless the SET fails, and answers source `database`, `cacheHit` false |
| `CacheAside.EnrichmentOnlyAffectsUserInfo` | todos-api/todoController.js:35-91 | the user lookup changes neither the state nor the items, source or hit flag; a thrown lookup gives the flagged placeholder |
| `CacheAside.SeedPersists` | todos-api/todoController.js:213-235 | an unknown user is seeded with ids 1-3 and counter 4, and a second read returns the same record |
| `CacheAside.CreateEffect` | todos-api/todoController.js:108-125 | create answers the item under the old counter, raises the counter by one, keeps other users, and invalidates only the user's key |
| `CacheAside.DeleteEffect` | todos-api/todoController.js:141-153 | delete removes only that id (no-op if absent), keeps the counter and other users, and invalidates only the user's key |
| `CacheAside.StepsKeepStoreValid` | todos-api/todoController.js:113-149 | list, create and delete keep every stored record well formed |
| `CacheAside.OtherUsersCached` | todos-api/todoController.js:121-125 | setting or deleting one user's key leaves every other user's cached record as it was |
| `CacheAside.ListKeepsCoherent` | todos-api/todoController.js:61-67 | whatever the cache backend does, list keeps every cached record equal to the stored one |
| `CacheAside.WritesKeepCoherent` | todos-api/todoController.js:119-153 | a create or delete whose invalidation succeeds keeps the cache coherent with the database |
| `CacheAside.CoherentHitIsCurrent` | todos-api/todoController.js:29-46 | when coherent, a hit answers exactly the stored items |
| `CacheAside.ShapelessEntrySticks` | todos-api/todoController.js:29-105 | a truthy cached document without items sends list to the outermost handler, which keeps that entry |
| `CacheAside.ListThenHit` | todos-api/todoController.js:29-81 | after a list that hits, or that misses and whose SET succeeds, the next list with no write between is a hit with the same items and no change |
| `CacheAside.CreateThenListMissesThenHits` | todos-api/todoController.js:22-125 | create then list is a miss showing the new item; the next list is a hit with the same items |
| `CacheAside.StaleAfterFailedInvalidation` | todos-api/todoController.js:121-125 | when the invalidating DEL fails, the next list still serves the old snapshot, which lacks the new item that the database holds |
| `CacheAside.RunWritesIsApplyAll` | todos-api/todoController.js:108-166 | running the create and delete handlers one after another leaves the user's record as applying the same creates and deletes to the loaded record, and the handlers answer exactly the ids that run assigns |
| `CacheAside.HandlersNeverReuseIds` | todos-api/todoController.js:113-120 | across any run of create and delete handlers on a valid store, the created items get consecutive ids from the user's counter on, none of them in use before the run |

## Findings

| source | as written | input that shows it | evidently intended | confidence | as-written member | corrected member |
|---|---|---|---|---|---|---|
| todos-api/todoController.js:186-191 | the reply reads `enable` as falsy when it is missing and says "disabled", but the gateway defaults `shouldFail` to true and injects six failures | a request for a registered service whose body has no `enable` | the reply says "enabled" exactly when failures are injected | medium, not executed | `Controller.AsWrittenMessageMisreports` | `Controller.TodoController.SimulateFailureCorrected` |

## Left out

- Breaker library internals: the rolling window, the threshold-driven open/half-open/closed transitions, call timeouts, and when a fallback fires. How `fire` settles is an input. No breaker state changes in this model, and the six simulated failures are not claimed to open a breaker.
- The `stats` field of a breaker's stats (the library's rolling counters) is not modelled. The reported `state` is the breaker's state.
- Breaker identity: breakers are values in the registry. The module-level references `usersApiBreaker`/`authApiBreaker` are not modelled separately from the registry entries, so aliasing after a re-registration is not captured.
- Breaker options are name-to-integer maps. Option values of other JavaScript types are not modelled.
- HTTP calls to the users and auth services, their environment-variable URLs and the random 30% timeout injection: these are network I/O and randomness.
- Event listeners and all console output: logging only.
- `_logOperation`: Zipkin tracing and the Redis publish are I/O. Each write appends one event to a ghost audit log instead.
- Express plumbing: requests, status codes (the 500 answers, and the body that a 204 answer drops) and timestamps.
- Create and delete failing with a 500: only tracing/publish I/O or a missing request body can throw there, and none of these is modelled.
- TTL expiry over time: TTLs are recorded, not enforced.
- Concurrency between requests: each handler runs atomically.
- The todo store is the process-wide `memory-cache` singleton (todos-api/todoController.js:3, 214, 239). The model gives it to the one controller the service builds, empty at start-up. Sharing the store between several controller instances is not captured.
- JSON serialization details and `Object.values` order: a `list` answer's items are a set.
- A missing or non-string `req.body.content` (todos-api/todoController.js:115): content is always a string here. In the code such an item is stored with `content` undefined or of another type, and `JSON.stringify` drops an undefined field, so the cached snapshot of that record would differ from the stored one.
- Cached documents whose `items` exists but is not an object.
- JavaScript truthiness of `shouldFail`/`enable` other than a boolean or a missing value.
- Delete's route parameter is modelled as an integer id. A segment that names no item is an absent id, so the delete is a no-op.
- `lastInsertedID` is an unbounded integer; floating-point precision beyond 2^53 is not modelled.
