# furthest-point-calculator: the store and the backend dispatch, in Dafny

The web front end of furthest-point-calculator keeps a list of map locations
chosen by the user and shows the point furthest from all of them. The
geometry runs in WebAssembly. It runs either in a module web worker or on the
page itself, depending on what the browser supports. This project models the
TypeScript layer around that computation:

- `Store` (www/src/model.ts): the `Model` class. It holds `inputs`, the last
  committed `output` and the `subscribers`. `addInput` removes every input at
  the same coordinates, appends the new one and recomputes. `removeInput`
  removes by coordinates and recomputes. `subscribe` registers a callback and
  replays the current state to it. `update` is asynchronous, so the model
  splits it into two steps. `Update` records the inputs the computation was
  started on. `Complete(k)` commits the result of the `k`-th computation
  still in flight and calls the subscribers in order. A subscriber that throws
  ends that loop, and `update`'s promise rejects with the output already
  committed. `Reject(k)` is a failed computation. There is no staleness
  check, so the completion that commits last wins.
- `WorkerImpl` (www/src/logic/workerImpl.ts): the page side of the worker.
  `nextRequestId` is one counter shared by both calls. `pendingMessageHandlers`
  maps a request id to the promise handler registered under it. `onmessage`
  calls and deletes the handler for the response's id, or reports the id as
  unhandled. The pure function `Receive` gives the table's behaviour on one
  response; the class `WorkerLogicImpl` holds the module-level state.
- `Worker` (www/src/logic/worker.ts): the worker's `onmessage`. It dispatches
  on the request's kind and answers with exactly one response that carries the
  same id and method. It answers nothing for an unknown tag. Empty inputs
  return no point without consulting the backend.
- `Selector` (www/src/logic/index.ts): `getImplementation`. The first call
  probes `supportsWorkerType` and fixes the choice; later calls return it.
- `Protocol`: both sides together. The worker's replies resolve each call with
  the answer to that call's own request, including when the replies arrive in
  reverse order.
- `Messages` (www/src/logic/workerMessages.ts, www/src/model.ts:47-51): the
  `Location` record and the request and response types, as closed sum types.

The WASM functions `find_most_distant_point` and `distance_between` are opaque
function values in `Worker.Backend`. The degree conversions around them are
folded into those functions (www/src/logic/worker.ts:38, 42, 50-51). The
backend's input type `Worker.Points` is non-empty by construction. That is a
modelling choice: it encodes the handler's own short-circuit on empty input
(www/src/logic/worker.ts:31-33), so the type checker confirms the handler never
passes an empty buffer. The injected `computeFurthestPoint` of `Model` is the
opaque function `Model.computeFurthestPoint`. Subscriber callbacks are
identities (`Callback`). Their invocations are recorded in `Model.calls`
rather than run, and a `throws` parameter says which invocations throw.
Promise resolution is recorded in `WorkerLogicImpl.settled`. `console.error`
for an unhandled id is recorded in `errors`, and the selector's `console.log`
lines in `Implementation.log`. The browser's answer to the worker probe is the
`Browser` parameter. The probe's `try`/`finally` is modelled with ECMAScript
completion records (`Selector.Completion`).

Facts about the code that the model follows:

- `update` has no staleness guard (www/src/model.ts:39-44). It commits
  whatever the awaited computation returns. `StaleCompletionWins` shows the
  consequence: if two computations complete out of order, the older result
  stays committed, although the inputs it was computed from are no longer
  current.
- `removeInputInternal` matches by latitude and longitude, not by index
  (www/src/model.ts:31). Because `addInput` calls it before appending
  (www/src/model.ts:18-19), exactly one input has the added location's
  coordinates afterwards (`AddLeavesOneAtEnd`).
- www/src/map.ts calls `getInput` (line 97), `getOutput` (line 101),
  `getDistances` (line 148) and `removeInput` with an index (line 155).
  www/src/model.ts has none of the first three, and its `removeInput` takes a
  location. www/src/main.ts:6 constructs `Model` without the
  `computeFurthestPoint` argument that its constructor takes
  (www/src/model.ts:10). The model follows www/src/model.ts as written.

## Model

| member | source | states |
|---|---|---|
| Store.Model.constructor | www/src/model.ts:6-10 | a new store has no inputs, no output, no subscribers, nothing in flight, and keeps the injected computation |
| Store.Model.Subscribe | www/src/model.ts:12-15 | the callback is appended to `subscribers` and called exactly once, immediately, with the current `(inputs, output)`; `subscribe` throws exactly when that call throws, with the callback already registered; nothing else changes |
| Store.Model.AddInput | www/src/model.ts:17-21 | `inputs` becomes the old inputs without any location at the new point's coordinates, followed by the new point; one computation on the new inputs is started; output and subscribers are untouched until it completes |
| Store.Model.RemoveInput | www/src/model.ts:23-26 | `inputs` loses every location at the given coordinates and nothing else; one computation on the new inputs is started |
| Store.Model.RemoveInputInternal | www/src/model.ts:28-37 | the in-place splice loop leaves exactly `Without(old inputs, p)`; it terminates because each iteration either advances the index or shortens the list |
| Store.Model.Update | www/src/model.ts:39-40 | starting `update()` records the inputs at that moment as the argument of a new computation in flight; no state the subscribers see changes |
| Store.Model.Complete | www/src/model.ts:39-44 | completing the k-th computation sets `output` to the computation's result on the inputs it was started on (no staleness check) and removes it from the in-flight list. It then calls the subscribers in registration order, each with the same current `(inputs, output)`, up to and including the first call that throws; `update()` rejects exactly when the last call made threw, and the output stays committed either way |
| Store.Model.Reject | www/src/model.ts:39-40 | a rejected computation commits nothing and notifies no one: inputs, output and calls are unchanged |
| Store.Notify | www/src/model.ts:41-43 | the subscriber loop makes exactly the first `Reached` calls of the full round, in order, each with the same snapshot, and reports a rejection exactly when the last call it made threw |
| Store.ReachedStopsAtThrow | www/src/model.ts:41-43 | of the subscribers a round reaches, only the last may throw, and a round that stops before the last subscriber stops at a call that throws |
| Store.ReachedRejects | www/src/model.ts:39-44 | `update()` rejects exactly when some subscriber throws on the snapshot; when none throws, every subscriber is called |
| Store.WithoutAppend | www/src/model.ts:28-37 | removal distributes over concatenation, so the kept elements keep their relative order |
| Store.WithoutRemovesAll | www/src/model.ts:28-37 | after removal no element has the removed point's latitude and longitude |
| Store.WithoutCounts | www/src/model.ts:28-37 | removal removes nothing else: each location not at the coordinates keeps its number of occurrences, and each location at them has none left |
| Store.WithoutAbsent | www/src/model.ts:23-37 | removing coordinates that no input has leaves the inputs unchanged |
| Store.WithoutIdempotent | www/src/model.ts:23-37 | removing the same point twice gives the same list as removing it once |
| Store.AddLeavesOneAtEnd | www/src/model.ts:17-20 | after adding p, exactly one element has p's coordinates (the name is ignored when matching), and it is the last element, p itself |
| Store.StaleCompletionWins | www/src/model.ts:39-44 | add p, add q, then complete q's computation before p's: the inputs are [p, q] but the committed output is the result for [p] |
| WorkerImpl.Receive | www/src/logic/workerImpl.ts:9-18 | a response whose id has a handler resolves that id's promise with the response and deletes the handler; an unknown id leaves handlers and resolutions unchanged and is logged once; in both cases no other id's entry changes and the table invariant is kept |
| WorkerImpl.DuplicateResponseUnhandled | www/src/logic/workerImpl.ts:11-17 | a second response with an id that was already handled takes the unhandled branch and only logs |
| WorkerImpl.ReceiveAllDistinct | www/src/logic/workerImpl.ts:9-18 | responses for distinct pending ids, delivered in any order, each resolve exactly their own id with themselves; those ids leave the pending table, every earlier resolution stays, and nothing is logged |
| WorkerImpl.DeliveryOrderIrrelevant | www/src/logic/workerImpl.ts:9-18 | any two arrival orders of the same responses with distinct pending ids leave the same table |
| WorkerImpl.WorkerLogicImpl.constructor | www/src/logic/workerImpl.ts:5-6 | the counter starts at 0 and the handler table is empty |
| WorkerImpl.WorkerLogicImpl.Execute | www/src/logic/workerImpl.ts:20-25 | the request is posted and its handler is registered under exactly `request.requestId` |
| WorkerImpl.WorkerLogicImpl.ComputeFurthestPoint | www/src/logic/workerImpl.ts:28-36 | the call takes id `nextRequestId`, then increments the counter. The id is greater than every id posted before and is neither pending nor resolved. It posts a furthest-point request with that id and the inputs, and registers a handler under it |
| WorkerImpl.WorkerLogicImpl.DistanceBetween | www/src/logic/workerImpl.ts:38-47 | the same counter and table as `ComputeFurthestPoint`: a fresh, strictly larger id, a distance request posted and a handler registered under that id |
| WorkerImpl.WorkerLogicImpl.OnMessage | www/src/logic/workerImpl.ts:9-18 | the handler table changes exactly as `Receive` says. The invariant is kept: ids 0 .. nextRequestId-1 were each posted once, in order, and each is pending or resolved, never both |
| Worker.ComputeFurthestPoint | www/src/logic/worker.ts:30-46 | empty inputs give no point; non-empty inputs give a point with the backend's latitude and longitude and no name |
| Worker.Reply | www/src/logic/worker.ts:7-20 | a response carries the request's id and method tag. Its payload is the furthest point of the request's inputs (`ComputeFurthestPoint`), or the backend's `distance_between` of the two points (`DistanceBetween`, www/src/logic/worker.ts:48-52) |
| Worker.OnMessage | www/src/logic/worker.ts:5-24 | a known request yields exactly one response with the same id and method; an unknown tag yields none |
| Worker.EmptyInputsBypassBackend | www/src/logic/worker.ts:31-33 | an empty furthest-point request is answered with no point, identically for every backend |
| Selector.SupportsWorkerType | www/src/logic/index.ts:24-38 | the probe always completes with `return`, whether the `Worker` constructor returns or throws, because the `finally` block's `return` overrides the constructor's completion; the value returned is whether the browser read the `type` option |
| Selector.Choice | www/src/logic/index.ts:12-18 | probe true selects the worker implementation, probe false the local one |
| Selector.Implementation.constructor | www/src/logic/index.ts:8 | `impl` starts unset |
| Selector.Implementation.GetImplementation | www/src/logic/index.ts:10-21 | the first call probes once, assigns `impl` and logs the choice. Later calls return the cached `impl`, do not probe or log, and leave `impl` unchanged |
| Selector.RepeatedCallsAgree | www/src/logic/index.ts:10-21 | any number of calls return the same implementation, the one the probe selects, and the probe runs once |
| Protocol.ReplySettlesOwnCall | www/src/logic/workerImpl.ts:27-47 | the worker's reply to a pending request resolves that request's promise with a response of the same method. The `result` the call returns is the worker's furthest point or distance for that request |
| Protocol.ReversedRepliesSettleOwnCalls | www/src/logic/workerImpl.ts:9-18 | outstanding requests answered in reverse order each resolve with the worker's answer to their own request; nothing is left pending and nothing is reported unhandled |

## Left out

- Coordinates and distances are `real`. JavaScript numbers are doubles. The store only compares coordinates with `==`, so the one difference is NaN: NaN never compares equal and would never be removed. That case is not modelled.
- `nextRequestId` is an unbounded integer. Above 2^53 a JavaScript number can no longer be incremented exactly; this is not modelled.
- Promises, `await`, `postMessage` and the Worker transport are not modelled. A call is modelled as explicit issue and delivery steps, and there is no scheduling or concurrency.
- Store.Model.Update records a copy of the inputs. The source passes a reference to the live array. The worker implementation copies it synchronously: `computeFurthestPoint` hands it to `execute`, whose `postMessage` clones it before any `await` (www/src/logic/workerImpl.ts:23, 29-34). The in-page implementation www/src/logic/localImpl.ts:3, 6 delegates to `./rustWrapper`, which is not part of this model. It is assumed to behave like www/src/calculator.ts:4-12, which reads the array synchronously before its first `await`. Under these facts, the copy is what the computation runs on. Subscribers are modelled as receiving the inputs as they are at the call.
- Store.Model.Complete: subscriber callbacks are opaque and assumed not to call back into the store. A callback that subscribes during notification would extend the loop in the source; that re-entrancy is not modelled. The rejected promise of `update()` is reported as `rejected`; nothing in the source handles it.
- Worker: `console.log` of the duration, `performance.now` and `console.error` for an unknown tag are I/O and are not modelled. An unknown tag is modelled only as "no response".
- Worker.Backend: the WASM geometry is opaque. `Point.create_degrees` (src/lib.rs:18-23) stores radians as `f32`, and `get_lat_degrees` / `get_long_degrees` convert back. The rounding this causes is folded into the opaque backend functions, so `ToPoint` in the model carries the coordinates unchanged. `find_most_distant_point` (src/lib.rs:106) accepts an empty buffer too; the non-empty `Points` type reflects the handler, not the backend. `distance_between`, imported at www/src/logic/worker.ts:3, is not defined in src/lib.rs, which has only a private `distance` (src/lib.rs:165); it is not part of this model.
- The construction of the worker (www/src/logic/workerImpl.ts:8) and the dynamic `import()` of an implementation (www/src/logic/index.ts:14, 17) are assumed to succeed.
- Selector.SupportsWorkerType: the getter mechanism and the `Worker` constructor are reduced to two booleans in `Browser`.
- www/src/logic/localImpl.ts is not part of this model. It delegates to `./rustWrapper` (www/src/logic/localImpl.ts:3, 6), which is not part of this model either. That module is assumed to behave like www/src/calculator.ts:4-12, which returns `undefined` for empty inputs before calling the WASM package, the same short-circuit as `Worker.ComputeFurthestPoint`. www/src/calculator.ts itself is not modelled.
- www/src/map.ts, www/src/drawer.ts and the templates are DOM, map rendering and geocoding code, and are not part of this model. So are www/src/main.ts and the build configuration.
