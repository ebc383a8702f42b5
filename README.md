# Task store, logical clock and mutation events

This project models the core of a small task-list service written in Go, and proves properties of that model.

- **The in-memory task repository** (`internal/task/store.go`). It holds a table from integer IDs to `Task{ID, Text, Done, Clock}` records and an allocator `next`. Create, Get, Update, Delete and List work on these.
- **The API server's sequencing** (`cmd/server/main.go`). The server has a logical clock that `tick()` advances by one. Each mutating handler calls the store, ticks the clock once and publishes a `{type, task}` event to a message broker, in a fixed order per handler:
  - Create: decode the body, tick, store Create, publish.
  - Update: store Get, decode the body over the fetched task, tick, store Update, publish.
  - Delete: store Delete, tick, publish.

With HTTP and JSON removed, the two files together form one sequential state machine.

Files:

- `wrappers.dfy`: `Option` and `Result`.
- `task_store.dfy` (module `TaskStore`): the `Task` entity and `StoreState`, the abstract value of a store. The functions `Lookup`, `CreateStep`, `UpdateStep` and `DeleteStep` give the meaning of each operation. The class `InMemoryStore` has the source's two fields, `tasks: map<int, Task>` and `next`. Its Get, Create, Update and Delete methods are proved to follow those functions. `List` is proved against the predicate `Enumerates`: each stored task exactly once, in any order.
- `server.dfy` (module `Server`): events, request bodies and API errors. `CreateTaskStep`, `UpdateTaskStep` and `DeleteTaskStep` say what each handler does to a `ServerState` (clock, store, published events). The class `ApiServer` holds `clock`, a reference to an `InMemoryStore` and a ghost log of every event handed to the broker. Its three mutating handler methods call `Tick`, the store and `PublishEvent` in the source's order, and they are proved to follow the step functions. `HandleGetTasks` only calls the store's `List`.
- `trace.dfy` (module `Trace`) covers runs of requests:
  - `Replay` is an independent reference: it is how a subscriber rebuilds the table by applying the events in order.
  - `Coherent` is the invariant that every run from a fresh server keeps.
  - `BuyMilk` is the create → update → delete scenario, stated over the class methods.

In three places the code behaves differently from the documented intended behaviour of the service. The model follows the code:

- **Delete on an absent ID.** `handleDeleteTask` passes the store's "not found" error on as a server error (`cmd/server/main.go:155-158`). It does not give a not-found reply, which is what the intended behaviour calls for. The model reports it as `StoreFailed(NotFound(id))`, while Update's pre-check failure is `TaskNotFound`.
- **Update merges the body.** The body is decoded over the fetched task (`cmd/server/main.go:128-136`), so fields the body leaves out keep their stored values. The code therefore does a field-wise merge, while the intended behaviour is a full replacement of Text and Done. `DecodeInto` models the merge.
- **Who ticks the clock.** The server ticks the clock; the store does not. Create and Update tick *before* the store call (`cmd/server/main.go:111-112, 137-138`), so a store that failed at that point would use up a clock value without publishing anything. The intended behaviour is that a failed mutation uses up no clock value. In a sequential run the in-memory store cannot fail there. The step functions keep that branch as the code has it, and the class methods show it is unreachable in a sequential run.

## Model

| member | source | states |
|---|---|---|
| `TaskStore.Empty` | internal/task/store.go:32-35 | A new store is empty, satisfies the store invariant, and its allocator is at 0, so the first ID is 1. |
| `TaskStore.Lookup` | internal/task/store.go:38-46 | Get succeeds exactly when the ID is on file and returns that entry. Otherwise it returns NotFound(id). On a consistent store the returned task's ID is the requested ID. |
| `TaskStore.CreateStep` | internal/task/store.go:58-65 | Create always succeeds and advances `next` by one. It files the draft under the new ID, with only the ID field changed, and returns it. No other entry changes. On a consistent store the new ID is greater than every key already stored, and consistency is kept. |
| `TaskStore.UpdateStep` | internal/task/store.go:67-77 | On an absent ID: NotFound, and the state is unchanged. On a present ID: the given task is stored with its ID forced to the path ID and returned. The other entries, the key set and `next` are unchanged. Consistency is kept. |
| `TaskStore.DeleteStep` | internal/task/store.go:79-87 | On an absent ID: NotFound, and the state is unchanged. On a present ID: exactly that key is removed, and the other entries and `next` are unchanged. Either way a later Get of that ID fails. Consistency is kept. |
| `TaskStore.DeletedIdNotReissued` | internal/task/store.go:58-87 | A Create after a Delete never hands out the deleted ID again. |
| `TaskStore.InMemoryStore.constructor` | internal/task/store.go:32-35 | `NewInMemoryStore` builds a valid, empty store with `next = 0`. |
| `TaskStore.InMemoryStore.Get` | internal/task/store.go:38-46 | Returns exactly what `Lookup` gives for the current state, and changes nothing. |
| `TaskStore.InMemoryStore.List` | internal/task/store.go:48-56 | Returns each stored task exactly once and nothing else, in an order it leaves open. The length equals the table size. Nothing changes. |
| `TaskStore.InMemoryStore.Create` | internal/task/store.go:58-65 | Changes the fields in place to `CreateStep`'s new state, returns its result, and keeps the invariant. |
| `TaskStore.InMemoryStore.Update` | internal/task/store.go:67-77 | Changes the fields in place to `UpdateStep`'s new state, returns its result, and keeps the invariant. |
| `TaskStore.InMemoryStore.Delete` | internal/task/store.go:79-87 | Changes the fields in place to `DeleteStep`'s new state, returns its result, and keeps the invariant. |
| `Server.DecodeInto` | cmd/server/main.go:128-136 | Decoding a body into a task, which `handleCreateTask` does into a zero task (`cmd/server/main.go:107`) and `handleUpdateTask` into the fetched task. A field present in the body overwrites that field, and an absent field keeps the target's value. An empty body leaves the task unchanged. |
| `Server.CreateTaskStep` | cmd/server/main.go:105-119 | A body that does not decode: error, and no tick, store change or event. Otherwise: exactly one tick, the task gets ID `next+1` and that clock value, `text` and `done` come from the body, the store gains exactly that entry, and exactly one "created" event with that task is published. |
| `Server.UpdateTaskStep` | cmd/server/main.go:121-145 | A bad path ID, an ID the store does not hold, or an undecodable body: error, and the server state is unchanged (no tick, no event). Otherwise: exactly one tick, and the stored and returned task has the path ID, the merged `text`/`done` and the new clock. Exactly one "updated" event is published. |
| `Server.DeleteTaskStep` | cmd/server/main.go:147-162 | A bad path ID, or an ID the store does not hold: error, and the state is unchanged (no tick, no event). Otherwise: the entry is removed, then exactly one tick. The "deleted" event carries `Task{ID: id, Clock: tick}` with the other fields at zero values. |
| `Server.ApiServer.constructor` | cmd/server/main.go:69-73 | A new server starts with clock 0 and nothing published, over the given valid store. |
| `Server.ApiServer.Tick` | cmd/server/main.go:28-34 | Increases the clock by exactly one and returns the new value. It changes only the clock. |
| `Server.ApiServer.PublishEvent` | cmd/server/main.go:172-182 | Appends exactly the given event to the published log. It changes nothing else and cannot fail. |
| `Server.ApiServer.HandleGetTasks` | cmd/server/main.go:96-103 | Returns the store's listing. It does not tick and does not publish. |
| `Server.ApiServer.HandleCreateTask` | cmd/server/main.go:105-119 | Runs decode, tick, store Create and publish in place. The resulting state and reply are those of `CreateTaskStep`. |
| `Server.ApiServer.HandleUpdateTask` | cmd/server/main.go:121-145 | Runs Get, decode, tick, store Update and publish in place. The resulting state and reply are those of `UpdateTaskStep`. |
| `Server.ApiServer.HandleDeleteTask` | cmd/server/main.go:147-162 | Runs store Delete, tick and publish in place. The resulting state and reply are those of `DeleteTaskStep`. |
| `Trace.Handle` | cmd/server/main.go:105-162 | A handler that reports an error leaves the whole server state unchanged: no clock value is used and no event is published. A handler that succeeds ticks exactly once and publishes exactly its reply's event, which carries the new clock value. |
| `Trace.FreshIsCoherent` | cmd/server/main.go:69-73 | A fresh server over a fresh store satisfies the run invariant. |
| `Trace.HandleKeepsCoherent` | cmd/server/main.go:105-162 | Every mutating handler keeps the run invariant: the store stays consistent, the i-th event carries clock i+1, the created IDs are 1..next in order, and replaying the events gives the store's table. |
| `Trace.RunKeepsCoherent` | cmd/server/main.go:105-162 | Any sequence of requests keeps the run invariant. The clock never goes down, and the published log only grows. |
| `Trace.NewIdNeverIssued` | internal/task/store.go:58-65 | On any server reached from a fresh one, a create hands out an ID that no earlier "created" event carried and that is not on file, even after deletes. |
| `Trace.FreshRunClocks` | cmd/server/main.go:24-34 | From a fresh server, any run publishes one event per clock value. The events' clocks are exactly 1..M in order, so they strictly increase and never repeat. |
| `Trace.FreshRunIds` | internal/task/store.go:58-65 | From a fresh server, any run's "created" events carry the IDs 1..N in order, where N is the allocator's value. So no ID is handed out twice. |
| `Trace.FreshRunReplay` | cmd/server/main.go:172-182 | From a fresh server, after any run, a subscriber that applies the published events in order rebuilds exactly the store's table. |
| `Trace.BuyMilk` | cmd/server/main.go:105-162 | On a fresh server and store, these replies come back in turn. Create "buy milk" returns `{1, "buy milk", false, 1}`. Marking it done returns `{1, "buy milk", true, 2}`. Delete's event is `{1, "", false, 3}`; the HTTP reply for Delete has no body. A later Get(1) fails with NotFound. The published log is exactly these three events, so its clocks are 1, 2, 3. |

## Left out

- HTTP is not modelled: routing, the `http.ResponseWriter` writes, status codes, CORS, and `writeJSON` (`cmd/server/main.go:75-91, 164-168`). A path ID that does not parse is an `Option<int>` that is `None`. The handler then stops with `InvalidId` and has no effect.
- JSON decoding is simplified. `DecodeInto` treats the request body as a set of optional fields that overwrite the target task. A JSON `null` leaves a non-pointer field unchanged, which is a `None` field of `Body`. Unknown fields are ignored, as they are in the source. A field of the wrong type makes `Decode` report an error, and the handler then stops with no effect. That is the `None` body case. `json.Marshal` of the event (`cmd/server/main.go:180`) is not modelled. The published log holds the event value itself.
- `main` is not modelled: configuration loading, `DATABASE_URL`, the Postgres pool and the schema DDL (`cmd/server/main.go:36-67`), and the log lines.
- The Postgres store is not part of this model, because its code is not available. The `Store` interface has no Dafny counterpart either, since the model has no interfaces. The server is therefore built over an `InMemoryStore`. Under that store, the "store failed after the tick" branches of Create and Update (`cmd/server/main.go:113-116, 139-142`) are unreachable in a sequential run.
- The broker connection, the topic and the outcome of `Publish` are not modelled. The source discards the outcome of `Publish` (`cmd/server/main.go:181`), so it cannot affect a handler's outcome. `PublishEvent` records each publish attempt in a ghost log, and whether the broker delivers the event is not modelled.
- The mutexes and concurrency are not modelled. Each locked store method and `tick` is one atomic step. Interleavings between steps are not modelled. In handleUpdateTask, a concurrent DELETE can land between `Get` (`cmd/server/main.go:128`) and `Update` (`cmd/server/main.go:138`). The in-memory `Update` then fails after the tick at `cmd/server/main.go:137` has used up a clock value, and no event is published. The model does not capture this, nor any interleaving between `tick` and the store call.
- Go's map iteration order is not modelled. `List` picks the keys in an arbitrary order, and its contract holds for every order.
- Machine-integer overflow of `next` and `clock` is not modelled. Both are unbounded integers.
- The clock does not persist across restarts. Every model server starts at clock 0, as the source's does.
