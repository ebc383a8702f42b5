/**
 * The API server of cmd/server/main.go with HTTP and JSON taken away: a logical
 * clock, a task store, and the events handed to the message broker.
 *
 * `ServerState` is the abstract value of a server. `CreateTaskStep`,
 * `UpdateTaskStep` and `DeleteTaskStep` say what each mutating handler does to it:
 * which store call it makes, whether it ticks the clock, and which event it
 * publishes. The class `ApiServer` runs the same steps in place, against an
 * `InMemoryStore`, and each handler method is proved to follow its function.
 */
module Server {
  import opened Wrappers
  import opened TaskStore

  /** The `type` values of published events: "created", "updated", "deleted". */
  datatype EventKind = Created | Updated | Deleted

  /** The `{type, task}` payload `publishEvent` hands to the broker. */
  datatype Event = Event(kind: EventKind, task: Task)

  /**
   * A decoded request body: each JSON field the client sent, or None for a field
   * the body leaves out.
   */
  datatype Body = Body(id: Option<int>, text: Option<string>, done: Option<bool>, clock: Option<int>)

  /**
   * Decoding a body into an existing task value: every field present in the body
   * overwrites that field, the others keep their value.
   */
  function DecodeInto(t: Task, b: Body): (r: Task)
    ensures b.id.Some? ==> r.id == b.id.value
    ensures b.id.None? ==> r.id == t.id
    ensures b.text.Some? ==> r.text == b.text.value
    ensures b.text.None? ==> r.text == t.text
    ensures b.done.Some? ==> r.done == b.done.value
    ensures b.done.None? ==> r.done == t.done
    ensures b.clock.Some? ==> r.clock == b.clock.value
    ensures b.clock.None? ==> r.clock == t.clock
    ensures b == Body(None, None, None, None) ==> r == t
  {
    Task(b.id.GetOr(t.id), b.text.GetOr(t.text), b.done.GetOr(t.done), b.clock.GetOr(t.clock))
  }

  /** Why a handler gave up: the transport's reply, with its status left out. */
  datatype ApiError =
    | InvalidId                   // the path ID is not an integer
    | BadRequest                  // the body is not a decodable task
    | TaskNotFound                // update: the pre-check `Get` failed
    | StoreFailed(cause: StoreError)  // the store call itself failed

  /** The abstract value of a server: its clock, its store and the events published so far. */
  datatype ServerState = ServerState(clock: int, store: StoreState, published: seq<Event>)

  /** A handler's effect: the new server state and the event or error it reports. */
  datatype Reply = Reply(state: ServerState, response: Result<Event, ApiError>)

  /**
   * The successful-mutation shape: the handler ticked exactly once, the event it
   * returns carries that clock value, and that event, and only it, was published.
   */
  ghost predicate Emitted(s: ServerState, r: Reply, kind: EventKind) {
    && r.response.Ok?
    && r.response.value.kind == kind
    && r.state.clock == s.clock + 1
    && r.response.value.task.clock == r.state.clock
    && r.state.published == s.published + [r.response.value]
  }

  /** Publishing a successful mutation's event, and reporting it. */
  function Publish(s: ServerState, e: Event): Reply {
    Reply(s.(published := s.published + [e]), Ok(e))
  }

  /**
   * `handleCreateTask`: decode the body into a zero task, stamp it with a fresh
   * tick, store it, publish "created". The store's failure branch is kept as the
   * source has it: the tick is already spent, nothing is published.
   */
  function CreateTaskStep(s: ServerState, body: Option<Body>): (r: Reply)
    ensures body.None? ==> r == Reply(s, Err(BadRequest))
    ensures body.Some? ==>
      && Emitted(s, r, Created)
      && var t := r.response.value.task;
         && t.id == s.store.next + 1
         && t.text == DecodeInto(ZeroTask, body.value).text
         && t.done == DecodeInto(ZeroTask, body.value).done
         && r.state.store == StoreState(s.store.tasks[t.id := t], t.id)
  {
    match body
    case None => Reply(s, Err(BadRequest))
    case Some(b) =>
      var clock := s.clock + 1;
      var o := CreateStep(s.store, DecodeInto(ZeroTask, b).(clock := clock));
      var after := ServerState(clock, o.state, s.published);
      match o.result
      case Err(e) => Reply(after, Err(StoreFailed(e)))
      case Ok(created) => Publish(after, Event(Created, created))
  }

  /**
   * `handleUpdateTask`: fetch the current task (NotFound stops here, before any
   * tick), decode the body over it, stamp it with a fresh tick, store it under the
   * path ID, publish "updated".
   */
  function UpdateTaskStep(s: ServerState, id: Option<int>, body: Option<Body>): (r: Reply)
    ensures id.None? ==> r == Reply(s, Err(InvalidId))
    ensures id.Some? && id.value !in s.store.tasks ==> r == Reply(s, Err(TaskNotFound))
    ensures id.Some? && id.value in s.store.tasks && body.None? ==> r == Reply(s, Err(BadRequest))
    ensures id.Some? && id.value in s.store.tasks && body.Some? ==>
      && Emitted(s, r, Updated)
      && var t := r.response.value.task;
         && t.id == id.value
         && t.text == DecodeInto(s.store.tasks[id.value], body.value).text
         && t.done == DecodeInto(s.store.tasks[id.value], body.value).done
         && r.state.store == StoreState(s.store.tasks[id.value := t], s.store.next)
  {
    match id
    case None => Reply(s, Err(InvalidId))
    case Some(id) =>
      match Lookup(s.store, id)
      case Err(_) => Reply(s, Err(TaskNotFound))
      case Ok(current) =>
        match body
        case None => Reply(s, Err(BadRequest))
        case Some(b) =>
          var clock := s.clock + 1;
          var o := UpdateStep(s.store, id, DecodeInto(current, b).(clock := clock));
          var after := ServerState(clock, o.state, s.published);
          match o.result
          case Err(e) => Reply(after, Err(StoreFailed(e)))
          case Ok(updated) => Publish(after, Event(Updated, updated))
  }

  /**
   * `handleDeleteTask`: delete from the store (its NotFound is passed on as a
   * store failure, before any tick), then tick and publish "deleted" with a task
   * that carries only the ID and that tick.
   */
  function DeleteTaskStep(s: ServerState, id: Option<int>): (r: Reply)
    ensures id.None? ==> r == Reply(s, Err(InvalidId))
    ensures id.Some? && id.value !in s.store.tasks ==> r == Reply(s, Err(StoreFailed(NotFound(id.value))))
    ensures id.Some? && id.value in s.store.tasks ==>
      && Emitted(s, r, Deleted)
      && r.response.value.task == Task(id.value, "", false, s.clock + 1)
      && r.state.store == StoreState(s.store.tasks - {id.value}, s.store.next)
  {
    match id
    case None => Reply(s, Err(InvalidId))
    case Some(id) =>
      var o := DeleteStep(s.store, id);
      match o.result
      case Err(e) => Reply(s.(store := o.state), Err(StoreFailed(e)))
      case Ok(_) =>
        var clock := s.clock + 1;
        Publish(ServerState(clock, o.state, s.published), Event(Deleted, ZeroTask.(id := id, clock := clock)))
  }

  /**
   * The server, holding its store, its clock and, as a ghost log, every event it
   * has handed to the broker. `clock` changes only in `Tick`.
   */
  class ApiServer {
    const store: InMemoryStore
    var clock: int
    ghost var published: seq<Event>

    ghost function State(): ServerState
      reads this, store
    {
      ServerState(clock, store.State(), published)
    }

    ghost predicate Valid()
      reads this, store
    {
      store.Valid()
    }

    /** `&ApiServer{store: ...}`: the clock starts at zero and nothing has been published. */
    constructor (store: InMemoryStore)
      requires store.Valid()
      ensures Valid()
      ensures this.store == store
      ensures clock == 0 && published == []
    {
      this.store := store;
      clock := 0;
      published := [];
    }

    /** `tick()`: advance the clock by one and return the new value. */
    method Tick() returns (c: int)
      modifies this`clock
      ensures clock == old(clock) + 1
      ensures c == clock
    {
      clock := clock + 1;
      c := clock;
    }

    /** `publishEvent`: the broker call, whose result the source discards, becomes an entry in the log. */
    method PublishEvent(e: Event)
      modifies this`published
      ensures published == old(published) + [e]
    {
      published := published + [e];
    }

    /** `handleGetTasks`: a read; no tick, no event. */
    method HandleGetTasks() returns (tasks: seq<Task>)
      requires Valid()
      ensures Enumerates(tasks, store.tasks)
    {
      tasks := store.List();
    }

    method HandleCreateTask(body: Option<Body>) returns (r: Result<Event, ApiError>)
      requires Valid()
      modifies this, store
      ensures Valid()
      ensures State() == CreateTaskStep(old(State()), body).state
      ensures r == CreateTaskStep(old(State()), body).response
    {
      if body.None? {
        return Err(BadRequest);
      }
      var t := DecodeInto(ZeroTask, body.value);
      var c := Tick();
      t := t.(clock := c);
      var created := store.Create(t);
      // The in-memory store's Create always succeeds.
      r := Ok(Event(Created, created.value));
      PublishEvent(r.value);
    }

    method HandleUpdateTask(id: Option<int>, body: Option<Body>) returns (r: Result<Event, ApiError>)
      requires Valid()
      modifies this, store
      ensures Valid()
      ensures State() == UpdateTaskStep(old(State()), id, body).state
      ensures r == UpdateTaskStep(old(State()), id, body).response
    {
      if id.None? {
        return Err(InvalidId);
      }
      var current := store.Get(id.value);
      if current.Err? {
        return Err(TaskNotFound);
      }
      if body.None? {
        return Err(BadRequest);
      }
      var t := DecodeInto(current.value, body.value);
      var c := Tick();
      t := t.(clock := c);
      var updated := store.Update(id.value, t);
      // The entry `Get` just found is still there: Update succeeds.
      r := Ok(Event(Updated, updated.value));
      PublishEvent(r.value);
    }

    method HandleDeleteTask(id: Option<int>) returns (r: Result<Event, ApiError>)
      requires Valid()
      modifies this, store
      ensures Valid()
      ensures State() == DeleteTaskStep(old(State()), id).state
      ensures r == DeleteTaskStep(old(State()), id).response
    {
      if id.None? {
        return Err(InvalidId);
      }
      var deleted := store.Delete(id.value);
      if deleted.Err? {
        return Err(StoreFailed(deleted.error));
      }
      var c := Tick();
      r := Ok(Event(Deleted, ZeroTask.(id := id.value, clock := c)));
      PublishEvent(r.value);
    }
  }
}
