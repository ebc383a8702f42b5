/**
 * The task entity and the volatile task repository (internal/task/store.go).
 *
 * The abstract value of a store is a `StoreState`: the table from IDs to tasks and
 * the ID allocator `next`. The functions `Lookup`, `CreateStep`, `UpdateStep` and
 * `DeleteStep` say what each operation does to that value; the class `InMemoryStore`
 * holds the same two fields and updates them in place, each method proved to follow
 * its function. The mutex of the source only makes each method one atomic step, so
 * every method here is one sequential step.
 */
module TaskStore {
  import opened Wrappers

  /** A task record. `clock` is the logical timestamp of the mutation that produced it. */
  datatype Task = Task(id: int, text: string, done: bool, clock: int)

  /** Go's zero value `Task{}`. */
  const ZeroTask: Task := Task(0, "", false, 0)

  /** The one error the in-memory store reports: "task with id %d not found". */
  datatype StoreError = NotFound(id: int)

  /** The abstract value of an in-memory store: its table and its ID allocator. */
  datatype StoreState = StoreState(tasks: map<int, Task>, next: int)

  /** What a store operation leaves behind and what it returns to its caller. */
  datatype Outcome<T> = Outcome(state: StoreState, result: Result<T, StoreError>)

  /**
   * The store invariant: the IDs handed out so far are 1..next, so every key lies
   * in that range, and every task is filed under its own ID.
   */
  ghost predicate Consistent(s: StoreState) {
    && 0 <= s.next
    && forall k :: k in s.tasks ==> 1 <= k <= s.next && s.tasks[k].id == k
  }

  /** `NewInMemoryStore()`: an empty table whose allocator starts at 0, so the first ID is 1. */
  function Empty(): (s: StoreState)
    ensures Consistent(s)
    ensures |s.tasks| == 0 && s.next == 0
  {
    StoreState(map[], 0)
  }

  /** `Get(id)`: the task filed under `id`, or NotFound; the state is not touched. */
  function Lookup(s: StoreState, id: int): (r: Result<Task, StoreError>)
    ensures r.Ok? <==> id in s.tasks
    ensures r.Ok? ==> r.value == s.tasks[id]
    ensures r.Err? ==> r.error == NotFound(id)
    ensures Consistent(s) && r.Ok? ==> r.value.id == id
  {
    if id in s.tasks then Ok(s.tasks[id]) else Err(NotFound(id))
  }

  /**
   * `Create(draft)`: advance the allocator, file the draft under the new ID with its
   * ID field overwritten, and return the stored task. It cannot fail.
   */
  function CreateStep(s: StoreState, draft: Task): (o: Outcome<Task>)
    ensures o.result.Ok?
    ensures o.state.next == s.next + 1
    ensures var t := o.result.value;
      && t.id == o.state.next
      && t.text == draft.text && t.done == draft.done && t.clock == draft.clock
      && o.state.tasks.Keys == s.tasks.Keys + {t.id}
      && o.state.tasks[t.id] == t
      && (forall k :: k in s.tasks && k != t.id ==> o.state.tasks[k] == s.tasks[k])
    // IDs are never reused: the new ID is above every ID already on file.
    ensures Consistent(s) ==>
      && (forall k :: k in s.tasks ==> k < o.result.value.id)
      && Consistent(o.state)
  {
    var id := s.next + 1;
    var t := draft.(id := id);
    Outcome(StoreState(s.tasks[id := t], id), Ok(t))
  }

  /**
   * `Update(id, t)`: on an absent ID, NotFound and no change; otherwise file `t`
   * under `id` with its ID field forced to `id`, and return it.
   */
  function UpdateStep(s: StoreState, id: int, t: Task): (o: Outcome<Task>)
    ensures o.result.Ok? <==> id in s.tasks
    ensures o.result.Err? ==> o == Outcome(s, Err(NotFound(id)))
    ensures o.result.Ok? ==>
      && o.result.value.id == id
      && o.result.value.text == t.text && o.result.value.done == t.done
      && o.result.value.clock == t.clock
      && o.state.next == s.next
      && o.state.tasks.Keys == s.tasks.Keys
      && o.state.tasks[id] == o.result.value
      && (forall k :: k in s.tasks && k != id ==> o.state.tasks[k] == s.tasks[k])
    ensures Consistent(s) ==> Consistent(o.state)
  {
    if id !in s.tasks then
      Outcome(s, Err(NotFound(id)))
    else
      var stored := t.(id := id);
      Outcome(StoreState(s.tasks[id := stored], s.next), Ok(stored))
  }

  /**
   * `Delete(id)`: on an absent ID, NotFound and no change; otherwise remove exactly
   * that entry. A later `Get(id)` then fails.
   */
  function DeleteStep(s: StoreState, id: int): (o: Outcome<()>)
    ensures o.result.Ok? <==> id in s.tasks
    ensures o.result.Err? ==> o == Outcome(s, Err(NotFound(id)))
    ensures o.result.Ok? ==>
      && o.state.next == s.next
      && o.state.tasks.Keys == s.tasks.Keys - {id}
      && (forall k :: k in o.state.tasks ==> o.state.tasks[k] == s.tasks[k])
    ensures Lookup(o.state, id) == Err(NotFound(id))
    ensures Consistent(s) ==> Consistent(o.state)
  {
    if id !in s.tasks then
      Outcome(s, Err(NotFound(id)))
    else
      Outcome(StoreState(s.tasks - {id}, s.next), Ok(()))
  }

  /**
   * `out` lists the stored tasks: each stored value exactly once and nothing else,
   * in no particular order.
   */
  ghost predicate Enumerates(out: seq<Task>, tasks: map<int, Task>) {
    && |out| == |tasks|
    && (forall i :: 0 <= i < |out| ==> out[i] in tasks.Values)
    && (forall k :: k in tasks ==> tasks[k] in out)
    && (forall i, j :: 0 <= i < j < |out| ==> out[i] != out[j])
  }

  /**
   * A non-empty set of keys has a member: what the key choice in `List` needs in
   * order to pick one.
   */
  lemma HasMember(keys: set<int>)
    ensures keys != {} ==> exists k :: k in keys
  {
    if forall k :: k !in keys {
      assert keys == {};
    }
  }

  /** A Create after deleting an ID never hands that ID out again. */
  lemma DeletedIdNotReissued(s: StoreState, id: int, draft: Task)
    requires Consistent(s) && id in s.tasks
    ensures CreateStep(DeleteStep(s, id).state, draft).result.value.id != id
  {
  }

  /** The in-memory store; the source's mutex is dropped, each method is one step. */
  class InMemoryStore {
    var tasks: map<int, Task>
    var next: int

    /** The abstract value of this store. */
    function State(): StoreState
      reads this
    {
      StoreState(tasks, next)
    }

    ghost predicate Valid()
      reads this
    {
      Consistent(State())
    }

    /** `NewInMemoryStore()`. */
    constructor ()
      ensures Valid()
      ensures State() == Empty()
    {
      tasks := map[];
      next := 0;
    }

    method Get(id: int) returns (r: Result<Task, StoreError>)
      ensures r == Lookup(State(), id)
    {
      if id in tasks {
        r := Ok(tasks[id]);
      } else {
        r := Err(NotFound(id));
      }
    }

    /** Collects the stored tasks by visiting the keys in an arbitrary order, as Go's map range does. */
    method List() returns (out: seq<Task>)
      requires Valid()
      ensures Enumerates(out, tasks)
    {
      out := [];
      var pending := tasks.Keys;
      while pending != {}
        invariant pending <= tasks.Keys
        invariant |out| + |pending| == |tasks|
        invariant forall i :: 0 <= i < |out| ==> out[i].id in tasks.Keys - pending && tasks[out[i].id] == out[i]
        invariant forall k :: k in tasks.Keys - pending ==> tasks[k] in out
        invariant forall i, j :: 0 <= i < j < |out| ==> out[i] != out[j]
        decreases pending
      {
        HasMember(pending);
        var k :| k in pending;
        out := out + [tasks[k]];
        pending := pending - {k};
      }
    }

    method Create(draft: Task) returns (r: Result<Task, StoreError>)
      requires Valid()
      modifies this
      ensures Valid()
      ensures State() == CreateStep(old(State()), draft).state
      ensures r == CreateStep(old(State()), draft).result
    {
      next := next + 1;
      var t := draft.(id := next);
      tasks := tasks[t.id := t];
      r := Ok(t);
    }

    method Update(id: int, t: Task) returns (r: Result<Task, StoreError>)
      requires Valid()
      modifies this
      ensures Valid()
      ensures State() == UpdateStep(old(State()), id, t).state
      ensures r == UpdateStep(old(State()), id, t).result
    {
      if id !in tasks {
        return Err(NotFound(id));
      }
      var stored := t.(id := id);
      tasks := tasks[id := stored];
      r := Ok(stored);
    }

    method Delete(id: int) returns (r: Result<(), StoreError>)
      requires Valid()
      modifies this
      ensures Valid()
      ensures State() == DeleteStep(old(State()), id).state
      ensures r == DeleteStep(old(State()), id).result
    {
      if id !in tasks {
        return Err(NotFound(id));
      }
      tasks := tasks - {id};
      r := Ok(());
    }
  }
}
