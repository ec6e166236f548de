/**
 * Properties of runs of the todo handlers: how `list` fills the cache, how
 * `create` and `delete` invalidate it, and when a cached list is the
 * database's current record.
 */
module CacheAside {
  import opened Wrappers
  import opened Json
  import opened Cache
  import opened ExternalApi
  import opened Todos
  import opened Controller

  /** The todo record cached for `username`, if the key holds one. */
  function CachedRecord(backend: Backend<Doc>, username: string): (r: Option<TodoData>)
    ensures r.Some? <==> Read(backend, UserTodosKey(username)).Some? && Read(backend, UserTodosKey(username)).value.TodoDoc?
    ensures r.Some? ==> Read(backend, UserTodosKey(username)) == Some(TodoDoc(r.value))
  {
    var cached := Read(backend, UserTodosKey(username));
    if cached.Some? && cached.value.TodoDoc? then Some(cached.value.data) else None
  }

  /** Every todo record in the cache is the database's record for that user. */
  ghost predicate Coherent(w: World)
  {
    forall u :: CachedRecord(w.backend, u).Some? ==> u in w.database && CachedRecord(w.backend, u).value == w.database[u]
  }

  /** A hit answers the cached snapshot and touches neither the database nor the cache. */
  lemma ListHit(w: World, username: string, setFault: bool, fired: Fired<Record>)
    requires CachedRecord(w.backend, username).Some?
    ensures var (w', r) := ListStep(w, username, false, setFault, fired);
      && w' == w
      && r.source == FromCache && r.cacheHit
      && r.items == Items(CachedRecord(w.backend, username).value)
  {
  }

  /**
   * A miss (a backend error, nothing cached, or a falsy document) reads the
   * database, seeding a new user, and caches that record for 600 seconds.
   */
  lemma ListMiss(w: World, username: string, getFault: bool, setFault: bool, fired: Fired<Record>)
    requires getFault || Read(w.backend, UserTodosKey(username)) in {None, Some(FalsyDoc)}
    ensures var (w', r) := ListStep(w, username, getFault, setFault, fired);
      && w'.database == LoadedInto(w.database, username)
      && w'.backend == Stored(w.backend, UserTodosKey(username), TodoDoc(Loaded(w.database, username)), ListTtl, setFault)
      && (!setFault ==> w'.backend[UserTodosKey(username)].ttl == 600)
      && r.source == FromDatabase && !r.cacheHit
      && r.items == Items(Loaded(w.database, username))
  {
  }

  /**
   * Whether the users lookup succeeds, falls back or throws changes only the
   * `userInfo` of a `list` answer (and its pattern tag); a throw yields the
   * controller's flagged placeholder.
   */
  lemma EnrichmentOnlyAffectsUserInfo(w: World, username: string, getFault: bool, setFault: bool, fired: Fired<Record>, other: Fired<Record>)
    ensures var (w1, r1) := ListStep(w, username, getFault, setFault, fired);
      var (w2, r2) := ListStep(w, username, getFault, setFault, other);
      w1 == w2 && r1.items == r2.items && r1.source == r2.source && r1.cacheHit == r2.cacheHit
    ensures fired.Rejected? && ListStep(w, username, getFault, setFault, fired).1.source != DatabaseFallback ==>
      ListStep(w, username, getFault, setFault, fired).1.userInfo == UnknownUser(username, true)
  {
  }

  /** A user without a record is seeded with ids 1 to 3 and counter 4, and a second read returns that same record. */
  lemma SeedPersists(database: map<string, TodoData>, username: string)
    requires username !in database
    ensures Loaded(database, username).items.Keys == {1, 2, 3}
    ensures Loaded(database, username).lastInsertedId == 4
    ensures Loaded(LoadedInto(database, username), username) == Loaded(database, username)
  {
  }

  /**
   * `create` stores the new item under the old counter, bumps the counter by
   * one, answers with that item, leaves other users' records alone, and
   * invalidates exactly the user's cache key.
   */
  lemma CreateEffect(w: World, username: string, content: string, delFault: bool)
    ensures var (w', r) := CreateStep(w, username, content, delFault);
      var before := Loaded(w.database, username);
      && r.todo == Todo(before.lastInsertedId, content) && r.cacheInvalidated
      && username in w'.database
      && w'.database[username].lastInsertedId == before.lastInsertedId + 1
      && w'.database[username].items == before.items[before.lastInsertedId := r.todo]
      && (forall u :: u in w.database && u != username ==> u in w'.database && w'.database[u] == w.database[u])
      && w'.backend == Dropped(w.backend, UserTodosKey(username), delFault)
  {
  }

  /**
   * `delete` removes only item `id` (a no-op on an absent id), keeps the
   * counter, leaves other users' records alone, and invalidates exactly the
   * user's cache key.
   */
  lemma DeleteEffect(w: World, username: string, id: int, delFault: bool)
    ensures var (w', r) := DeleteStep(w, username, id, delFault);
      var before := Loaded(w.database, username);
      && username in w'.database
      && w'.database[username].lastInsertedId == before.lastInsertedId
      && w'.database[username].items == before.items - {id}
      && (id !in before.items ==> w'.database[username] == before)
      && (forall u :: u in w.database && u != username ==> u in w'.database && w'.database[u] == w.database[u])
      && w'.backend == Dropped(w.backend, UserTodosKey(username), delFault)
  {
  }

  /** Every handler keeps every record in the database well formed. */
  lemma StepsKeepStoreValid(w: World, username: string, content: string, id: int,
                             getFault: bool, setFault: bool, delFault: bool, fired: Fired<Record>)
    requires StoreValid(w)
    ensures StoreValid(ListStep(w, username, getFault, setFault, fired).0)
    ensures StoreValid(CreateStep(w, username, content, delFault).0)
    ensures StoreValid(DeleteStep(w, username, id, delFault).0)
  {
  }

  /** Other users' cache entries are unaffected by a change to this user's key. */
  lemma OtherUsersCached(backend: Backend<Doc>, username: string, other: string, value: Doc, fault: bool)
    requires other != username
    ensures CachedRecord(Stored(backend, UserTodosKey(username), value, ListTtl, fault), other) == CachedRecord(backend, other)
    ensures CachedRecord(Dropped(backend, UserTodosKey(username), fault), other) == CachedRecord(backend, other)
  {
  }

  /** `list` keeps the cache coherent with the database, whatever the cache backend does. */
  lemma ListKeepsCoherent(w: World, username: string, getFault: bool, setFault: bool, fired: Fired<Record>)
    requires Coherent(w)
    ensures Coherent(ListStep(w, username, getFault, setFault, fired).0)
  {
  }

  /** A write whose invalidation succeeds keeps the cache coherent. */
  lemma WritesKeepCoherent(w: World, username: string, content: string, id: int)
    requires Coherent(w)
    ensures Coherent(CreateStep(w, username, content, false).0)
    ensures Coherent(DeleteStep(w, username, id, false).0)
  {
  }

  /** In a coherent state a hit answers exactly the database's current items. */
  lemma CoherentHitIsCurrent(w: World, username: string, setFault: bool, fired: Fired<Record>)
    requires Coherent(w) && CachedRecord(w.backend, username).Some?
    ensures ListStep(w, username, false, setFault, fired).1.items == Items(w.database[username])
  {
  }

  /**
   * A truthy cached document without `items` sends every `list` to the
   * outermost error handler, which neither repairs nor drops the entry.
   */
  lemma ShapelessEntrySticks(w: World, username: string, setFault: bool, fired: Fired<Record>)
    requires Read(w.backend, UserTodosKey(username)) == Some(NoItemsDoc)
    ensures var (w1, r) := ListStep(w, username, false, setFault, fired);
      && r.source == DatabaseFallback && r.error == Some("Fallback mode")
      && r.items == Items(Loaded(w.database, username))
      && w1.backend == w.backend
      && Read(w1.backend, UserTodosKey(username)) == Some(NoItemsDoc)
  {
  }

  /**
   * After a `list` that hits, or misses and SETs successfully, the next
   * `list` (with no write in between and no GET error) is a hit with the
   * same items.
   */
  lemma ListThenHit(w: World, username: string, getFault: bool, fired: Fired<Record>, fired2: Fired<Record>)
    requires getFault || Read(w.backend, UserTodosKey(username)) != Some(NoItemsDoc)
    ensures var (w1, r1) := ListStep(w, username, getFault, false, fired);
      var (w2, r2) := ListStep(w1, username, false, false, fired2);
      && r2.source == FromCache && r2.cacheHit
      && r2.items == r1.items
      && w2 == w1
  {
  }

  /**
   * `create` followed by `list` is a miss that shows the new item; with the
   * cache write succeeding, the next `list` is a hit with the same items.
   */
  lemma CreateThenListMissesThenHits(w: World, username: string, content: string,
                                      fired: Fired<Record>, fired2: Fired<Record>)
    ensures var (w1, c) := CreateStep(w, username, content, false);
      var (w2, r1) := ListStep(w1, username, false, false, fired);
      var (w3, r2) := ListStep(w2, username, false, false, fired2);
      && r1.source == FromDatabase && !r1.cacheHit && c.todo in r1.items
      && r2.source == FromCache && r2.cacheHit && r2.items == r1.items
  {
  }

  /**
   * The bounded inconsistency window: when a write's invalidation fails, the
   * next `list` still answers the old snapshot, which lacks the new item.
   */
  lemma StaleAfterFailedInvalidation(w: World, username: string, content: string, fired: Fired<Record>)
    requires StoreValid(w) && Coherent(w) && CachedRecord(w.backend, username).Some?
    ensures var (w1, c) := CreateStep(w, username, content, true);
      var r := ListStep(w1, username, false, false, fired).1;
      && r.source == FromCache
      && r.items == Items(w.database[username])
      && c.todo !in r.items
      && c.todo in Items(w1.database[username])
  {
    var (w1, c) := CreateStep(w, username, content, true);
    var d := w.database[username];
    assert CachedRecord(w1.backend, username) == Some(d);
    ItemsBelowCounter(d);
    assert w1.database[username].items[c.todo.id] == c.todo;
  }

  /** The state after one write handler for `username`. */
  function WriteStep(w: World, username: string, op: Op, delFault: bool): World
  {
    match op
    case CreateOp(content) => CreateStep(w, username, content, delFault).0
    case DeleteOp(id) => DeleteStep(w, username, id, delFault).0
  }

  /** The state after running the write handlers `ops` for `username`, one after the other. */
  function RunWrites(w: World, username: string, ops: seq<Op>, delFault: bool): World
    decreases |ops|
  {
    if ops == [] then w else RunWrites(WriteStep(w, username, ops[0], delFault), username, ops[1..], delFault)
  }

  /** The ids the `create` handlers among `ops` answer with, in order. */
  function HandedOutIds(w: World, username: string, ops: seq<Op>, delFault: bool): seq<int>
    decreases |ops|
  {
    if ops == [] then []
    else
      (if ops[0].CreateOp? then [CreateStep(w, username, ops[0].content, delFault).1.todo.id] else [])
      + HandedOutIds(WriteStep(w, username, ops[0], delFault), username, ops[1..], delFault)
  }

  /**
   * Running the handlers changes the user's record exactly as `ApplyAll`
   * changes the record they start from, and their answers carry the ids
   * `AssignedIds` lists.
   */
  lemma {:induction false} RunWritesIsApplyAll(w: World, username: string, ops: seq<Op>, delFault: bool)
    ensures Loaded(RunWrites(w, username, ops, delFault).database, username) == ApplyAll(Loaded(w.database, username), ops)
    ensures HandedOutIds(w, username, ops, delFault) == AssignedIds(Loaded(w.database, username), ops)
    decreases |ops|
  {
    if ops != [] {
      var next := WriteStep(w, username, ops[0], delFault);
      assert Loaded(next.database, username) == Apply(Loaded(w.database, username), ops[0]);
      RunWritesIsApplyAll(next, username, ops[1..], delFault);
    }
  }

  /**
   * Across any run of `create` and `delete` handlers for one user, the
   * creates answer consecutive ids from the user's counter on: no id is
   * handed out twice and none was in use before.
   */
  lemma HandlersNeverReuseIds(w: World, username: string, ops: seq<Op>, delFault: bool)
    requires StoreValid(w)
    ensures var ids := HandedOutIds(w, username, ops, delFault);
      && (forall i :: 0 <= i < |ids| ==> ids[i] == Loaded(w.database, username).lastInsertedId + i)
      && (forall i :: 0 <= i < |ids| ==> ids[i] !in Loaded(w.database, username).items)
  {
    RunWritesIsApplyAll(w, username, ops, delFault);
    AssignedIdsConsecutive(Loaded(w.database, username), ops);
  }
}
