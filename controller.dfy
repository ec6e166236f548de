/**
 * The todo request handlers of `todos-api/todoController.js`: a cache-aside
 * `list`, and `create`/`delete`, which write the per-user record and then
 * invalidate the user's cache key.
 *
 * The state is two maps: the in-memory "database" (username to record) and
 * the cache backend (key to serialized document).  Each handler runs
 * atomically.  Whether a cache call meets a backend error, and how the
 * users-dependency breaker settles, are inputs.
 *
 * `ListStep`, `CreateStep` and `DeleteStep` say, as functions of the state
 * before, what each handler answers and leaves behind; the methods of
 * `TodoController` are proved to do exactly that, and the lemmas below are
 * about runs of these steps.
 */
module Controller {
  import opened Wrappers
  import opened Json
  import opened Cache
  import opened Breakers
  import opened ExternalApi
  import opened Todos

  /**
   * What `JSON.parse` can give back from a user's cache key: a todo record,
   * a falsy value (`null`, `false`, `0`, `""`), or a truthy document without
   * an `items` object.
   */
  datatype Doc = TodoDoc(data: TodoData) | FalsyDoc | NoItemsDoc

  /** TTL in seconds of a cached todo list. */
  const ListTtl: int := 600

  datatype Source = FromCache | FromDatabase | DatabaseFallback

  /**
   * The body of a `list` answer (`items` is `Object.values(data.items)`).
   * `patterns` and `error` are `None` where the answer has no such field.
   */
  datatype ListResponse = ListResponse(
    items: set<Todo>,
    source: Source,
    cacheHit: bool,
    userInfo: Record,
    patterns: Option<seq<string>>,
    error: Option<string>)

  datatype CreateResponse = CreateResponse(todo: Todo, cacheInvalidated: bool, patterns: seq<string>)

  datatype DeleteResponse = DeleteResponse(cacheInvalidated: bool, patterns: seq<string>)

  datatype Operation = CreateOperation | DeleteOperation

  /** The audit message published after a write. */
  datatype AuditEvent = AuditEvent(op: Operation, username: string, todoId: int)

  /** The placeholder user record the controller itself puts in a `list` answer. */
  function UnknownUser(username: string, flagged: bool): (r: Record)
    ensures r.Keys == {"username", "name"} + (if flagged then {"fallback"} else {})
    ensures r["username"] == Str(username) && r["name"] == Str("Unknown User")
    ensures flagged ==> r["fallback"] == Bool(true)
  {
    var r := map["username" := Str(username), "name" := Str("Unknown User")];
    if flagged then r["fallback" := Bool(true)] else r
  }

  /**
   * The answer `list` builds from `data`: enriched with the user record when
   * `getUserInfo` returns, or with the controller's placeholder when it throws.
   */
  function Answer(data: TodoData, hit: bool, username: string, fired: Fired<Record>): (r: ListResponse)
    ensures r.items == Items(data) && r.cacheHit == hit && r.error.None?
    ensures r.source == if hit then FromCache else FromDatabase
    ensures GetUserInfo(username, fired).Returned? ==>
      r.userInfo == GetUserInfo(username, fired).value && r.patterns == Some(["cache-aside", "circuit-breaker"])
    ensures GetUserInfo(username, fired).Threw? ==>
      r.userInfo == UnknownUser(username, true) && r.patterns == Some(["cache-aside", "circuit-breaker-fallback"])
  {
    var source := if hit then FromCache else FromDatabase;
    match GetUserInfo(username, fired)
    case Returned(info) =>
      ListResponse(Items(data), source, hit, info, Some(["cache-aside", "circuit-breaker"]), None)
    case Threw(_) =>
      ListResponse(Items(data), source, hit, UnknownUser(username, true), Some(["cache-aside", "circuit-breaker-fallback"]), None)
  }

  /** The answer of `list`'s outermost error handler, read straight from the database. */
  function FallbackAnswer(data: TodoData, username: string): (r: ListResponse)
    ensures r.items == Items(data) && r.source == DatabaseFallback && !r.cacheHit
    ensures r.userInfo == UnknownUser(username, false) && r.error == Some("Fallback mode") && r.patterns.None?
  {
    ListResponse(Items(data), DatabaseFallback, false, UnknownUser(username, false), None, Some("Fallback mode"))
  }

  /** The database and the cache backend. */
  datatype World = World(database: map<string, TodoData>, backend: Backend<Doc>)

  /** Every record in the database is well formed. */
  ghost predicate StoreValid(w: World)
  {
    forall u :: u in w.database ==> WellFormed(w.database[u])
  }

  /** `_getTodoDataFromDatabase`: the user's record, or the seed for a user without one. */
  function Loaded(database: map<string, TodoData>, username: string): (d: TodoData)
    ensures username in database ==> d == database[username]
    ensures username !in database ==> d == Seed()
  {
    if username in database then database[username] else Seed()
  }

  /** The database after `_getTodoDataFromDatabase`, which persists the seed it hands out. */
  function LoadedInto(database: map<string, TodoData>, username: string): (db: map<string, TodoData>)
    ensures db.Keys == database.Keys + {username}
    ensures db[username] == Loaded(database, username)
    ensures forall u :: u in database ==> db[u] == database[u]
  {
    database[username := Loaded(database, username)]
  }

  /** `list`: what it answers and the state it leaves. */
  function ListStep(w: World, username: string, getFault: bool, setFault: bool, fired: Fired<Record>): (r: (World, ListResponse))
    ensures r.1.cacheHit <==> r.1.source == FromCache
    ensures r.1.source == FromCache ==> r.0 == w
    ensures r.1.source != FromCache ==>
      && r.0.database == LoadedInto(w.database, username)
      && r.1.items == Items(Loaded(w.database, username))
    ensures r.1.source == FromDatabase ==>
      r.0.backend == Stored(w.backend, UserTodosKey(username), TodoDoc(Loaded(w.database, username)), ListTtl, setFault)
    ensures r.1.source == DatabaseFallback ==> r.0.backend == w.backend
    ensures forall u :: u in w.database && u != username ==> u in r.0.database && r.0.database[u] == w.database[u]
  {
    var key := UserTodosKey(username);
    var cached := if getFault then None else Read(w.backend, key);
    if cached.Some? && cached.value.TodoDoc? then
      (w, Answer(cached.value.data, true, username, fired))
    else if cached.Some? && cached.value.NoItemsDoc? then
      (w.(database := LoadedInto(w.database, username)), FallbackAnswer(Loaded(w.database, username), username))
    else
      var data := Loaded(w.database, username);
      (World(LoadedInto(w.database, username), Stored(w.backend, key, TodoDoc(data), ListTtl, setFault)),
       Answer(data, false, username, fired))
  }

  /** `create`: what it answers and the state it leaves. */
  function CreateStep(w: World, username: string, content: string, delFault: bool): (r: (World, CreateResponse))
    ensures r.1.todo == NewTodo(Loaded(w.database, username), content) && r.1.cacheInvalidated
    ensures r.0.database.Keys == w.database.Keys + {username}
    ensures r.0.database[username] == Created(Loaded(w.database, username), content)
    ensures forall u :: u in w.database && u != username ==> r.0.database[u] == w.database[u]
    ensures r.0.backend == Dropped(w.backend, UserTodosKey(username), delFault)
  {
    var data := Loaded(w.database, username);
    (World(w.database[username := Created(data, content)], Dropped(w.backend, UserTodosKey(username), delFault)),
     CreateResponse(NewTodo(data, content), true, ["cache-aside"]))
  }

  /** `delete`: what it answers and the state it leaves. */
  function DeleteStep(w: World, username: string, id: int, delFault: bool): (r: (World, DeleteResponse))
    ensures r.1.cacheInvalidated
    ensures r.0.database.Keys == w.database.Keys + {username}
    ensures r.0.database[username] == Deleted(Loaded(w.database, username), id)
    ensures forall u :: u in w.database && u != username ==> r.0.database[u] == w.database[u]
    ensures r.0.backend == Dropped(w.backend, UserTodosKey(username), delFault)
  {
    var data := Loaded(w.database, username);
    (World(w.database[username := Deleted(data, id)], Dropped(w.backend, UserTodosKey(username), delFault)),
     DeleteResponse(true, ["cache-aside"]))
  }

  /**
   * The todo controller. `database` stands for the process-wide
   * `memory-cache` store, here owned by the one controller the service builds.
   */
  class TodoController {
    var database: map<string, TodoData>
    const cache: CacheService<Doc>
    const api: ExternalApiService
    ghost var auditLog: seq<AuditEvent>

    ghost function State(): World
      reads this, cache
    {
      World(database, cache.backend)
    }

    ghost predicate Valid()
      reads this, cache
    {
      StoreValid(State())
    }

    constructor (cache: CacheService<Doc>, api: ExternalApiService)
      ensures Valid() && database == map[] && auditLog == []
      ensures this.cache == cache && this.api == api
    {
      database := map[];
      this.cache := cache;
      this.api := api;
      auditLog := [];
    }

    /** `_getTodoDataFromDatabase`: get or seed, persisting the seed. */
    method GetTodoData(userId: string) returns (data: TodoData)
      requires Valid()
      modifies this`database
      ensures Valid() && WellFormed(data)
      ensures data == Loaded(old(database), userId)
      ensures database == LoadedInto(old(database), userId)
    {
      if userId in database {
        data := database[userId];
      } else {
        data := Seed();
        SetTodoData(userId, data);
      }
    }

    /** `_setTodoDataInDatabase` */
    method SetTodoData(userId: string, data: TodoData)
      requires Valid() && WellFormed(data)
      modifies this`database
      ensures Valid()
      ensures database == old(database)[userId := data]
    {
      database := database[userId := data];
    }

    /** Cache-aside read of the user's todos. */
    method List(username: string, getFault: bool, setFault: bool, fired: Fired<Record>) returns (r: ListResponse)
      requires Valid()
      modifies this`database, cache
      ensures Valid()
      ensures (State(), r) == ListStep(old(State()), username, getFault, setFault, fired)
    {
      var key := UserTodosKey(username);
      var cached := cache.Get(key, getFault);
      if cached.Some? && cached.value.TodoDoc? {
        r := Answer(cached.value.data, true, username, fired);
        return;
      }
      if cached.Some? && cached.value.NoItemsDoc? {
        // `Object.values(undefined)` throws; the outermost handler reads the database again.
        var data := GetTodoData(username);
        r := FallbackAnswer(data, username);
        return;
      }
      var data := GetTodoData(username);
      cache.Set(key, TodoDoc(data), Some(ListTtl), setFault);
      r := Answer(data, false, username, fired);
    }

    /** Adds a todo under the next id, then invalidates the user's cache key. */
    method Create(username: string, content: string, delFault: bool) returns (r: CreateResponse)
      requires Valid()
      modifies this`database, this`auditLog, cache
      ensures Valid()
      ensures (State(), r) == CreateStep(old(State()), username, content, delFault)
      ensures auditLog == old(auditLog) + [AuditEvent(CreateOperation, username, r.todo.id)]
    {
      var key := UserTodosKey(username);
      var data := GetTodoData(username);
      ghost var loaded := data;
      CreatedKeepsItems(data, content);
      var todo := Todo(data.lastInsertedId, content);
      data := data.(items := data.items[data.lastInsertedId := todo]);
      data := data.(lastInsertedId := data.lastInsertedId + 1);
      assert data == Created(loaded, content);
      SetTodoData(username, data);
      assert database == old(database)[username := data];
      cache.Del(key, delFault);
      auditLog := auditLog + [AuditEvent(CreateOperation, username, todo.id)];
      r := CreateResponse(todo, true, ["cache-aside"]);
    }

    /** Removes the todo `id` if present, then invalidates the user's cache key. */
    method Delete(username: string, id: int, delFault: bool) returns (r: DeleteResponse)
      requires Valid()
      modifies this`database, this`auditLog, cache
      ensures Valid()
      ensures (State(), r) == DeleteStep(old(State()), username, id, delFault)
      ensures auditLog == old(auditLog) + [AuditEvent(DeleteOperation, username, id)]
    {
      var key := UserTodosKey(username);
      var data := GetTodoData(username);
      DeletedKeepsWellFormed(data, id);
      ghost var loaded := data;
      data := data.(items := data.items - {id});
      assert data == Deleted(loaded, id);
      SetTodoData(username, data);
      assert database == old(database)[username := data];
      cache.Del(key, delFault);
      auditLog := auditLog + [AuditEvent(DeleteOperation, username, id)];
      r := DeleteResponse(true, ["cache-aside"]);
    }

    /** The breaker-stats endpoint: every registered breaker's stats. */
    method BreakerStats() returns (all: map<string, Stats>)
      ensures all.Keys == api.registry.breakers.Keys
      ensures forall name :: name in all ==> api.registry.GetBreakerStats(name) == Some(all[name])
    {
      all := api.GetBreakerStats();
    }

    /** The failure-simulation endpoint; its reply reads `enable` as the source does. */
    method SimulateFailure(service: string, enable: Option<bool>) returns (message: string)
      modifies api.registry
      ensures message == SimulateFailureMessageAsWritten(service, enable)
      ensures service in old(api.registry.breakers) && ShouldFail(enable) ==>
        var b := old(api.registry.breakers)[service];
        api.registry.breakers == old(api.registry.breakers)[service := b.(failuresEmitted := b.failuresEmitted + SimulatedFailures)]
      ensures service !in old(api.registry.breakers) || !ShouldFail(enable) ==>
        api.registry.breakers == old(api.registry.breakers)
    {
      api.SimulateFailure(service, enable);
      message := SimulateFailureMessageAsWritten(service, enable);
    }

    /**
     * The failure-simulation endpoint with the corrected reply: it says
     * "enabled" exactly when the gateway injected failures.
     */
    method SimulateFailureCorrected(service: string, enable: Option<bool>) returns (message: string)
      modifies api.registry
      ensures message == SimulateFailureMessage(service, service in old(api.registry.breakers), enable)
      ensures message == "Failure simulation enabled for " + service <==>
        api.registry.breakers != old(api.registry.breakers)
      ensures service in old(api.registry.breakers) && ShouldFail(enable) ==>
        var b := old(api.registry.breakers)[service];
        api.registry.breakers == old(api.registry.breakers)[service := b.(failuresEmitted := b.failuresEmitted + SimulatedFailures)]
      ensures service !in old(api.registry.breakers) || !ShouldFail(enable) ==>
        api.registry.breakers == old(api.registry.breakers)
    {
      var registered := service in api.registry.breakers;
      api.SimulateFailure(service, enable);
      message := SimulateFailureMessage(service, registered, enable);
      MessageMatchesEffect(service, registered, enable);
      if registered && ShouldFail(enable) {
        assert api.registry.breakers[service] != old(api.registry.breakers)[service];
      }
    }
  }

  /** The reply as the source writes it: only a true `enable` reads as "enabled"; a missing one as "disabled". */
  function SimulateFailureMessageAsWritten(service: string, enable: Option<bool>): (message: string)
    ensures enable == Some(true) ==> message == "Failure simulation enabled for " + service
    ensures enable != Some(true) ==> message == "Failure simulation disabled for " + service
  {
    "Failure simulation " + (if enable.GetOr(false) then "enabled" else "disabled") + " for " + service
  }

  /**
   * The reply naming what the gateway actually does: failures are injected
   * when the service has a registered breaker and `shouldFail` holds.
   */
  function SimulateFailureMessage(service: string, registered: bool, enable: Option<bool>): (message: string)
    ensures registered && ShouldFail(enable) ==> message == "Failure simulation enabled for " + service
    ensures !(registered && ShouldFail(enable)) ==> message == "Failure simulation disabled for " + service
  {
    "Failure simulation " + (if registered && ShouldFail(enable) then "enabled" else "disabled") + " for " + service
  }

  /**
   * As written, a request for a registered service without `enable` is
   * answered "disabled" while the gateway injects failures.
   */
  lemma AsWrittenMessageMisreports(service: string)
    ensures ShouldFail(None)
    ensures SimulateFailureMessageAsWritten(service, None) == "Failure simulation disabled for " + service
    ensures SimulateFailureMessage(service, true, None) == "Failure simulation enabled for " + service
  {
  }

  /** The corrected reply says "enabled" exactly when failures are injected. */
  lemma MessageMatchesEffect(service: string, registered: bool, enable: Option<bool>)
    ensures SimulateFailureMessage(service, registered, enable) == "Failure simulation enabled for " + service
      <==> registered && ShouldFail(enable)
  {
  }
}
