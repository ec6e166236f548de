/**
 * The per-user todo record kept in the in-memory "database" of
 * `todos-api/todoController.js`, and the changes `create` and `delete` make
 * to it.
 */
module Todos {

  datatype Todo = Todo(id: int, content: string)

  /** A user's record: items by id, and the id the next created item gets. */
  datatype TodoData = TodoData(items: map<int, Todo>, lastInsertedId: int)

  /** Every item sits under its own id, and every id is below the counter. */
  predicate WellFormed(d: TodoData)
  {
    forall id :: id in d.items ==> id < d.lastInsertedId && d.items[id].id == id
  }

  /** The record a user without one is given. */
  function Seed(): (d: TodoData)
    ensures d.items.Keys == {1, 2, 3} && d.lastInsertedId == 4
    ensures d.items[1].content == "Create new todo"
    ensures d.items[2].content == "Update me"
    ensures d.items[3].content == "Delete example ones"
    ensures WellFormed(d)
  {
    TodoData(map[1 := Todo(1, "Create new todo"),
                 2 := Todo(2, "Update me"),
                 3 := Todo(3, "Delete example ones")],
             4)
  }

  /** The items a record lists (the values of its `items` object, order aside). */
  function Items(d: TodoData): (s: set<Todo>)
    ensures forall id :: id in d.items ==> d.items[id] in s
    ensures forall t :: t in s ==> exists id :: id in d.items && d.items[id] == t
    ensures d.items == map[] ==> s == {}
  {
    set id | id in d.items :: d.items[id]
  }

  /** The item `create` adds: it takes the current counter as its id. */
  function NewTodo(d: TodoData, content: string): (t: Todo)
    ensures t.id == d.lastInsertedId && t.content == content
  {
    Todo(d.lastInsertedId, content)
  }

  /** The record after `create`: the new item under the old counter, the counter one higher. */
  function Created(d: TodoData, content: string): (e: TodoData)
    ensures e.lastInsertedId == d.lastInsertedId + 1
    ensures e.items.Keys == d.items.Keys + {d.lastInsertedId}
    ensures e.items[d.lastInsertedId] == NewTodo(d, content)
    ensures forall id :: id in d.items && id != d.lastInsertedId ==> e.items[id] == d.items[id]
  {
    var todo := NewTodo(d, content);
    TodoData(d.items[todo.id := todo], d.lastInsertedId + 1)
  }

  /** The record after `delete id`: that item gone, nothing else changed. */
  function Deleted(d: TodoData, id: int): (e: TodoData)
    ensures e.lastInsertedId == d.lastInsertedId
    ensures e.items.Keys == d.items.Keys - {id}
    ensures forall k :: k in e.items ==> e.items[k] == d.items[k]
    ensures id !in d.items ==> e == d
  {
    TodoData(d.items - {id}, d.lastInsertedId)
  }

  /** `create` keeps the record well formed and never overwrites an item. */
  lemma CreatedKeepsItems(d: TodoData, content: string)
    requires WellFormed(d)
    ensures d.lastInsertedId !in d.items
    ensures WellFormed(Created(d, content))
    ensures forall id :: id in d.items ==> Created(d, content).items[id] == d.items[id]
  {
  }

  /** Every item of a well-formed record has an id below the counter. */
  lemma ItemsBelowCounter(d: TodoData)
    requires WellFormed(d)
    ensures forall t :: t in Items(d) ==> t.id < d.lastInsertedId
  {
    forall t | t in Items(d)
      ensures t.id < d.lastInsertedId
    {
      var id :| id in d.items && d.items[id] == t;
    }
  }

  /** `delete` keeps the record well formed. */
  lemma DeletedKeepsWellFormed(d: TodoData, id: int)
    requires WellFormed(d)
    ensures WellFormed(Deleted(d, id))
  {
  }

  /** One handler's change to a record. */
  datatype Op = CreateOp(content: string) | DeleteOp(id: int)

  function Apply(d: TodoData, op: Op): TodoData
  {
    match op
    case CreateOp(content) => Created(d, content)
    case DeleteOp(id) => Deleted(d, id)
  }

  /** The record after running `ops` in order, each handler atomically. */
  function ApplyAll(d: TodoData, ops: seq<Op>): TodoData
    decreases |ops|
  {
    if ops == [] then d else ApplyAll(Apply(d, ops[0]), ops[1..])
  }

  /** The ids the `create`s among `ops` hand out, in order. */
  function AssignedIds(d: TodoData, ops: seq<Op>): seq<int>
    decreases |ops|
  {
    if ops == [] then []
    else (if ops[0].CreateOp? then [d.lastInsertedId] else []) + AssignedIds(Apply(d, ops[0]), ops[1..])
  }

  /**
   * Any run of handlers keeps the record well formed, and the counter moves
   * up by exactly the number of `create`s.
   */
  lemma {:induction false} ApplyAllKeepsWellFormed(d: TodoData, ops: seq<Op>)
    requires WellFormed(d)
    ensures WellFormed(ApplyAll(d, ops))
    ensures ApplyAll(d, ops).lastInsertedId == d.lastInsertedId + |AssignedIds(d, ops)|
    decreases |ops|
  {
    if ops != [] {
      match ops[0] {
        case CreateOp(content) => CreatedKeepsItems(d, content);
        case DeleteOp(id) => DeletedKeepsWellFormed(d, id);
      }
      ApplyAllKeepsWellFormed(Apply(d, ops[0]), ops[1..]);
    }
  }

  /**
   * The `create`s in a run receive consecutive ids starting at the counter:
   * no id is handed out twice, none is skipped, and none was in use before.
   */
  lemma {:induction false} AssignedIdsConsecutive(d: TodoData, ops: seq<Op>)
    requires WellFormed(d)
    ensures forall i :: 0 <= i < |AssignedIds(d, ops)| ==> AssignedIds(d, ops)[i] == d.lastInsertedId + i
    ensures forall i :: 0 <= i < |AssignedIds(d, ops)| ==> AssignedIds(d, ops)[i] !in d.items
    decreases |ops|
  {
    if ops != [] {
      var e := Apply(d, ops[0]);
      match ops[0] {
        case CreateOp(content) => CreatedKeepsItems(d, content);
        case DeleteOp(id) => DeletedKeepsWellFormed(d, id);
      }
      AssignedIdsConsecutive(e, ops[1..]);
      var ids := AssignedIds(d, ops);
      var head := if ops[0].CreateOp? then [d.lastInsertedId] else [];
      assert ids == head + AssignedIds(e, ops[1..]);
      assert e.lastInsertedId == d.lastInsertedId + |head|;
      forall i | 0 <= i < |ids|
        ensures ids[i] == d.lastInsertedId + i && ids[i] !in d.items
      {
        if i >= |head| {
          assert ids[i] == AssignedIds(e, ops[1..])[i - |head|];
        }
      }
    }
  }
}
