/**
 * Runs of the server: sequences of mutating requests, and what the published
 * events say about them. From a freshly built server the events carry the clock
 * values 1, 2, 3, ... in order, the "created" events carry the IDs 1, 2, 3, ...
 * in order, and a subscriber that applies the events in order rebuilds the store.
 */
module Trace {
  import opened Wrappers
  import opened TaskStore
  import opened Server

  /** The three mutating routes, after path and body parsing. */
  datatype Request =
    | CreateTask(body: Option<Body>)
    | UpdateTask(id: Option<int>, body: Option<Body>)
    | DeleteTask(id: Option<int>)

  /** One request, handled to completion. An error leaves no trace; a success ticks once and publishes once. */
  function Handle(s: ServerState, req: Request): (r: Reply)
    ensures r.response.Err? ==> r.state == s
    ensures r.response.Ok? ==> Emitted(s, r, r.response.value.kind)
  {
    match req
    case CreateTask(body) => CreateTaskStep(s, body)
    case UpdateTask(id, body) => UpdateTaskStep(s, id, body)
    case DeleteTask(id) => DeleteTaskStep(s, id)
  }

  /** Handling the requests one after another. */
  function Run(s: ServerState, reqs: seq<Request>): ServerState
    decreases |reqs|
  {
    if reqs == [] then s else Run(Handle(s, reqs[0]).state, reqs[1..])
  }

  /** A freshly built server over a fresh in-memory store. */
  function Fresh(): ServerState {
    ServerState(0, Empty(), [])
  }

  /** How a subscriber applies one event to its copy of the table. */
  function Apply(m: map<int, Task>, e: Event): map<int, Task> {
    match e.kind
    case Created => m[e.task.id := e.task]
    case Updated => m[e.task.id := e.task]
    case Deleted => m - {e.task.id}
  }

  /** The table a subscriber rebuilds by applying the events in order. */
  function Replay(log: seq<Event>): map<int, Task>
    decreases |log|
  {
    if log == [] then map[] else Apply(Replay(log[..|log| - 1]), log[|log| - 1])
  }

  /** The IDs carried by the "created" events, in order. */
  function CreatedIds(log: seq<Event>): seq<int>
    decreases |log|
  {
    if log == [] then []
    else
      var rest := CreatedIds(log[..|log| - 1]);
      if log[|log| - 1].kind == Created then rest + [log[|log| - 1].task.id] else rest
  }

  /** The sequence 1, 2, ..., n. */
  function UpTo(n: int): seq<int>
    decreases n
  {
    if n <= 0 then [] else UpTo(n - 1) + [n]
  }

  lemma {:induction false} UpToAt(n: nat)
    ensures |UpTo(n)| == n
    ensures forall i :: 0 <= i < n ==> UpTo(n)[i] == i + 1
  {
    if n > 0 {
      UpToAt(n - 1);
    }
  }

  /**
   * What holds of a server reached from a fresh one: the store is consistent; one
   * event was published per clock value, the i-th carrying clock i + 1; the
   * "created" events handed out the IDs 1..next in order; and replaying the events
   * rebuilds the store's table.
   */
  ghost predicate Coherent(s: ServerState) {
    && Consistent(s.store)
    && |s.published| == s.clock
    && (forall i :: 0 <= i < |s.published| ==> s.published[i].task.clock == i + 1)
    && CreatedIds(s.published) == UpTo(s.store.next)
    && Replay(s.published) == s.store.tasks
  }

  lemma FreshIsCoherent()
    ensures Coherent(Fresh())
  {
  }

  /** Every mutating handler keeps the run invariant. */
  lemma HandleKeepsCoherent(s: ServerState, req: Request)
    requires Coherent(s)
    ensures Coherent(Handle(s, req).state)
  {
  }

  lemma {:induction false} RunKeepsCoherent(s: ServerState, reqs: seq<Request>)
    requires Coherent(s)
    ensures Coherent(Run(s, reqs))
    ensures Run(s, reqs).clock >= s.clock
    ensures s.published <= Run(s, reqs).published
    decreases |reqs|
  {
    if reqs != [] {
      HandleKeepsCoherent(s, reqs[0]);
      RunKeepsCoherent(Handle(s, reqs[0]).state, reqs[1..]);
    }
  }

  /**
   * IDs are never reused: on any server reached from a fresh one, the ID a
   * successful create hands out appears in no earlier "created" event, even after
   * deletes, and is not on file.
   */
  lemma NewIdNeverIssued(s: ServerState, body: Option<Body>)
    requires Coherent(s)
    requires body.Some?
    ensures var r := CreateTaskStep(s, body);
      && r.response.value.task.id !in CreatedIds(s.published)
      && r.response.value.task.id !in s.store.tasks
  {
    UpToAt(s.store.next);
  }

  /**
   * From a freshly built server, whatever the requests: one event per clock value,
   * the published clocks exactly 1..M in order, so strictly increasing and never
   * repeated.
   */
  lemma FreshRunClocks(reqs: seq<Request>)
    ensures var log := Run(Fresh(), reqs).published;
      && |log| == Run(Fresh(), reqs).clock
      && (forall i :: 0 <= i < |log| ==> log[i].task.clock == i + 1)
      && (forall i, j :: 0 <= i < j < |log| ==> log[i].task.clock < log[j].task.clock)
  {
    RunKeepsCoherent(Fresh(), reqs);
  }

  /**
   * From a freshly built server, whatever the requests: the "created" events carry
   * the IDs 1..N in order, N being the allocator's value, so no ID is handed out twice.
   */
  lemma FreshRunIds(reqs: seq<Request>)
    ensures var ids := CreatedIds(Run(Fresh(), reqs).published);
      && |ids| == Run(Fresh(), reqs).store.next
      && (forall i :: 0 <= i < |ids| ==> ids[i] == i + 1)
      && (forall i, j :: 0 <= i < j < |ids| ==> ids[i] < ids[j])
  {
    var s := Run(Fresh(), reqs);
    RunKeepsCoherent(Fresh(), reqs);
    UpToAt(s.store.next);
  }

  /** From a freshly built server, a subscriber replaying the published events rebuilds the store's table. */
  lemma FreshRunReplay(reqs: seq<Request>)
    ensures Replay(Run(Fresh(), reqs).published) == Run(Fresh(), reqs).store.tasks
  {
    RunKeepsCoherent(Fresh(), reqs);
  }

  /**
   * Create "buy milk", mark it done, delete it, on a fresh server with a fresh
   * in-memory store: the three events carry ID 1 and clocks 1, 2, 3, they are
   * exactly what was published, and the task is gone afterwards.
   */
  method BuyMilk() returns (created: Result<Event, ApiError>, updated: Result<Event, ApiError>,
                            deleted: Result<Event, ApiError>, lookup: Result<Task, StoreError>,
                            ghost log: seq<Event>)
    ensures created == Ok(Event(Created, Task(1, "buy milk", false, 1)))
    ensures updated == Ok(Event(Updated, Task(1, "buy milk", true, 2)))
    ensures deleted == Ok(Event(Deleted, Task(1, "", false, 3)))
    ensures lookup == Err(NotFound(1))
    ensures log == [created.value, updated.value, deleted.value]
  {
    var store := new InMemoryStore();
    var server := new ApiServer(store);
    created := server.HandleCreateTask(Some(Body(None, Some("buy milk"), Some(false), None)));
    updated := server.HandleUpdateTask(Some(1), Some(Body(None, Some("buy milk"), Some(true), None)));
    deleted := server.HandleDeleteTask(Some(1));
    lookup := store.Get(1);
    log := server.published;
  }
}
