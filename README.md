# interest-dashboard stream engine and history resubmission, in Dafny

This project models two parts of the interest-dashboard add-on and proves
properties of the model.

**The stream engine** (`lib/streams/core.js`) wires processing nodes into a
topology keyed by message type.
- A node consumes a message: it runs `init` once, `ingest`s a truthy message,
  and when `emitReady()` holds or a flush is forced, resolves its outstanding
  deferred with what `flush()` returns and `clear`s itself.
- A stream hands a pushed message to every listener of its type. When a
  listener's deferred is resolved, a continuation on the job queue hands the
  emitted value to every listener of that node's `emitType`. The promise of a
  push joins the promises of all these calls.

**The resubmission bookkeeping** of `lib/HistoryReader.js` sends recent
history to the interest worker in chunks. It counts the requests each chunk
posts and the "resubmit" results that come back, and starts the next chunk
when the count reaches zero. It resolves the resubmission's promise when a
chunk's query completes while the count is zero: the chunk posted nothing,
or every result it asked for is already back.

Files:
- `values.dfy` (module `Values`): JSON-shaped message payloads, JavaScript
  truthiness, the errors a hook can throw, `Option` and `Result`.
- `node.dfy` (module `Nodes`):
  - `ConsumeStep`, the meaning of `consume` on a node state;
  - class `Node`, whose `Consume` and `Clear` update its fields in place and
    are proved against `ConsumeStep`;
  - `CreateNode`;
  - the constructor as written and as intended;
  - lemmas about a batching Spout.
- `stream.dfy` (module `Streams`):
  - the functions `ProcessStep`, `SpawnStep`, `LaunchStep`, `PushStep`,
    `FlushStep` and `JobStep`, and the ghost function `Drain`, which give the
    meaning of `_process`, its loops, `_launch_process`, `push`, `flush`, one
    turn of the job queue and the queue run until it is empty;
  - class `Stream`, whose methods are proved against those functions;
  - lemmas about the invariant of the promises, about what a push or a flush
    forces and what it leaves alone, and about which promises settle.
- `scenarios.dfy` (module `Scenarios`): one push through a small topology,
  turn by turn.
- `history.dfy` (module `History`):
  - pure transitions of the resubmission state, and lemmas over runs of
    events;
  - class `HistoryReader`, whose methods update the fields in place and are
    proved against the transitions.

How promises are modelled:
- `consume` returns `Ready(deferred, value)` when it resolved its outstanding
  deferred, `Pending(deferred)` when it did not, and `Threw(error)` when a
  hook threw. A deferred is known by its generation: `clear` replaces it with
  the next one.
- Every `_process` call that does not throw makes a promise: the `then` on
  the deferred `consume` returned. The model keeps these promises as tasks,
  numbered in the order they were made. Each task records its node, the emit
  type of the node object the call used, and where its continuation stands:
  waiting on a deferred, scheduled with a value, run (joining the promises of
  the calls it made), failed, or stranded.
- The job queue is the list of scheduled continuations, in order. Resolving
  a deferred schedules the continuations waiting on it in the order they
  were registered. The `then` of the call that resolved it goes last, since
  it is registered on a promise that is already resolved.
- A turn of the queue takes the first continuation. It hands the value to
  every listener of the emit type, with no flush. A synchronous throw in that
  loop rejects the continuation's promise; otherwise the promise joins the
  promises of the calls it made.
- `push` and `flush` make all their first calls before any continuation
  runs. Only a throw in one of those first `consume` calls escapes
  synchronously.
- The state of a promise (`Resolved`, `Waiting`, `Rejected`) is read off the
  recorded promises: `Promise.all` over the calls each continuation made.

Facts about the code that the model follows:
- `push` makes a rejected deferred when the type is not a head type with
  listeners (lib/streams/core.js:146-149), but never returns it. It returns
  the promise of `_launch_process` over the type's listeners (lines
  150-151). So a non-head type is routed like any other, and a type nobody
  listens on gives a promise that is resolved at once, unless its name is
  that of a member of `Object.prototype` (see "## Left out").
- `addNode` (lines 128-139) never checks whether the identifier is taken. It
  appends the identifier to the bucket again, and the new object replaces
  the old one.
- Nothing checks that a node has an `ingest`. The base `ingest` (lines
  64-69) throws `NotImplementedError` the first time `consume` hands it a
  truthy message.
- A `_process` call on a node that stays pending returns a `then` on that
  node's deferred (line 202). That promise waits until a later `consume` of
  the node resolves the deferred (lines 54-59), in the same push or in a
  later one.

## Model

| member | source | states |
|---|---|---|
| `Nodes.ConsumeStep` | lib/streams/core.js:40-62 | the promise `consume` returns or resolves is that of the deferred the node held on entry; the node moves to its next deferred exactly when it resolves one; a forced call never stays pending (`ConsumeContract` states every path) |
| `Nodes.ConsumeContract` | lib/streams/core.js:40-62 | `init` runs first and only while `initted` is false; a throwing `init` leaves the node as it was and throws. A truthy message is ingested, and a throwing `ingest` stops the call with the node as `init` left it. Once the message is in: an `emitReady()` that throws stops the call; one that says yes, or a forced flush, emits what `flush()` returns by resolving the deferred outstanding at entry, then leaves `results` null and the next deferred outstanding; one that says no leaves the call pending on the same deferred. A throwing `flush()` stops the call. |
| `Nodes.Node.Consume` | lib/streams/core.js:40-62 | updates the node's fields in place to exactly the state `ConsumeStep` gives, and returns what it returns |
| `Nodes.Node.Clear` | lib/streams/core.js:88-94 | `results` becomes null and the next deferred replaces the outstanding one |
| `Nodes.DefaultIngestThrows` | lib/streams/core.js:64-69 | with the base `ingest`, a truthy message makes `consume` throw `NotImplementedError("ingest implementation not found")` once `init` has run, now or before, and leaves the node as `init` left it |
| `Nodes.DefaultsMakeABolt` | lib/streams/core.js:71-86 | with the base `emitReady` and `flush`, no call stays pending, and a call that gets past `ingest` resolves the outstanding deferred with the buffered `results` |
| `Nodes.SpoutBuffers` | lib/streams/core.js:33-38 | a batch Spout that holds fewer than its batch size stays pending on one and the same deferred, and buffers every message in order |
| `Nodes.BatchHolds` | lib/streams/core.js:51-61 | a message that leaves a batch Spout short of its size is appended to the buffer, and the call waits on the deferred the node already holds |
| `Nodes.SpoutEmitsBatch` | lib/streams/core.js:54-59 | the message that completes a batch resolves the deferred the batch waited on with the whole batch, and clears the buffer |
| `Nodes.CreateNode` | lib/streams/core.js:103-118 | each hook given in the options replaces the base one and the others stay the base ones. Every key of `locals` becomes an own field. `results` is null unless `locals` sets it, and the node starts on a fresh deferred. |
| `Nodes.ConstructAsWritten` | lib/streams/core.js:15-22 | `new Node(...)` as written always throws a ReferenceError |
| `Nodes.Construct` | lib/streams/core.js:15-22 | the intended constructor: the given identifier and types, the base hooks, nothing buffered, not initialised, a fresh deferred; any truthy message then makes `consume` throw |
| `Streams.JoinAll` | lib/streams/core.js:182-188 | `Promise.all`: resolved exactly when every promise is resolved, rejected exactly when some promise is rejected, waiting otherwise |
| `Streams.SettledStays` | lib/streams/core.js:202-208 | a promise that has settled keeps its state whatever runs later |
| `Streams.JoinSettledStays` | lib/streams/core.js:182-188 | a joined promise that has settled keeps its state whatever runs later |
| `Streams.Waiters` | lib/streams/core.js:54-59 | the continuations a resolution schedules are exactly those waiting on that deferred of that node, in the order they were made |
| `Streams.Wake` | lib/streams/core.js:57 | resolving a deferred changes exactly the promises that `Waiters` lists, and each of them only becomes scheduled with the resolved value, keeping its node and emit type |
| `Streams.ProcessStep` | lib/streams/core.js:192-202 | a `_process` call changes no node but the one it calls, only appends to the job queue, and when it returns, returns the next promise (`ProcessContract` states every case) |
| `Streams.Registered` | lib/streams/core.js:202 | registering the continuation changes no node; it throws exactly when `consume` threw; otherwise it makes one new promise, of the called node and its emit type, and only appends to the job queue |
| `Streams.ProcessContract` | lib/streams/core.js:192-209 | `_process` throws exactly when the node's `consume` throws, and then makes no promise. Otherwise its promise is the next task. It waits on the deferred `consume` left pending; or, when `consume` resolved a deferred, it is scheduled after every continuation that waited on that deferred, which are scheduled in the order they were registered. Only the node called changes. |
| `Streams.ProcessKeeps` | lib/streams/core.js:192-209 | a `_process` call keeps the invariant: the calls a continuation made come after it, and the queue holds every scheduled continuation once. It only schedules waiting continuations and makes one new promise. |
| `Streams.SpawnStep` | lib/streams/core.js:179-181 | the loop of `_process` calls keeps the set of nodes, loses no promise and only appends to the job queue (the lemmas below state what it throws and collects) |
| `Streams.SpawnStopsAtThrow` | lib/streams/core.js:179-181 | once a call throws, the identifiers after it are never handed the message |
| `Streams.SpawnThrowsIff` | lib/streams/core.js:179-181 | a loop of `_process` calls throws exactly when the `consume` of one of its own calls throws |
| `Streams.SpawnThrowsFirst` | lib/streams/core.js:179-181 | the loop throws what the first `consume` that threw threw |
| `Streams.SpawnLength` | lib/streams/core.js:179-181 | a loop that does not throw collects one promise per identifier |
| `Streams.SpawnKeeps` | lib/streams/core.js:179-181 | a loop of `_process` calls keeps the invariant, and the promises it collects are new ones |
| `Streams.JobRun` | lib/streams/core.js:203-208 | the loop of a continuation takes the first scheduled continuation off the queue; what was scheduled behind it stays first, in order, and no promise is lost |
| `Streams.JobStep` | lib/streams/core.js:202-209 | after one turn, the continuation that ran has settled its promise (ran or rejected), and the rest of the queue is still ahead of anything the turn scheduled |
| `Streams.JobKeeps` | lib/streams/core.js:202-209 | a turn of the job queue keeps the invariant and only moves promises forward. The continuation that ran is rejected when its loop threw, and otherwise joins the promises of one call per listener of the emit type. |
| `Streams.JobRejectsOnThrow` | lib/streams/core.js:202-209 | a throw inside a continuation does not escape: it rejects that continuation's promise |
| `Streams.JobLowersMass` | lib/streams/core.js:202-209 | on a routing graph without cycles, each turn of the job queue lowers a measure of the work still to do, so the queue runs empty |
| `Streams.Drain` | lib/streams/core.js:202-209 | running the queue ends with it empty and the invariant kept |
| `Streams.DrainRunsScheduled` | lib/streams/core.js:202-209 | once the queue has run empty, every continuation that was scheduled has run, none is left scheduled, and every promise has only moved forward |
| `Streams.ProcessFrame` | lib/streams/core.js:200-209 | a `_process` call only moves the generation of its own node, and only up: by one when `consume` emits, which a forced call that does not throw always does, and never when the node is not forced and its `emitReady` never says yes. Waiting continuations keep waiting on their node's outstanding deferred, and an emission schedules all of those of its node. |
| `Streams.SpawnFrame` | lib/streams/core.js:179-181 | a loop of `_process` calls changes only the nodes it calls, moves no generation down, leaves an unforced node that is never ready on its deferred, and keeps continuations waiting on their node's deferred |
| `Streams.SpawnForces` | lib/streams/core.js:179-181 | a forced loop that does not throw moves every node it calls to a later deferred |
| `Streams.JobFrame` | lib/streams/core.js:203-207 | a turn of the job queue forces no flush: a node no type routes to stays as it was, a node that is never ready stays on its deferred, and no generation goes down |
| `Streams.DrainFrame` | lib/streams/core.js:202-209 | the same holds of the job queue run until it is empty |
| `Streams.DrainLeavesWaiters` | lib/streams/core.js:202-209 | once the queue is empty, every continuation not yet run, other than the stranded ones, waits on the deferred its node has outstanding now, so only a later `consume` of that node can move it |
| `Streams.LaunchStep` | lib/streams/core.js:169-190 | a launch that does not throw joins exactly one promise per handler |
| `Streams.LaunchKeeps` | lib/streams/core.js:169-190 | a launch keeps the invariant, moves promises forward only, and joins new promises |
| `Streams.PushStep` | lib/streams/core.js:141-152 | a push of a type nobody listens on changes nothing and is resolved at once |
| `Streams.HeadHandlers` | lib/streams/core.js:159-165 | every handler a flush collects names a node |
| `Streams.HeadHandlersAreHeadListeners` | lib/streams/core.js:159-165 | an identifier is among a flush's handlers exactly when it listens on some head type |
| `Streams.PushKeepsUnlisted` | lib/streams/core.js:141-152 | a node that no message type routes to is left as it was by a push and by every continuation it leads to |
| `Streams.FlushStep` | lib/streams/core.js:154-167 | a flush of a stream with no head types changes nothing and resolves at once; a flush that does not throw makes one branch per handler of the head types |
| `Streams.FlushForcesOnlyHeadListeners` | lib/streams/core.js:154-167 | continuations pass no flush flag: a node whose `emitReady` never says yes and that listens on no head type keeps its outstanding deferred through a flush and every continuation it leads to |
| `Streams.FlushForcesHeadListeners` | lib/streams/core.js:154-167 | a flush that does not throw forces every listener of every head type to emit: each ends on a later deferred, and stays there while the queue runs |
| `Streams.Strand` | lib/streams/core.js:134 | replacing a node leaves none of its continuations waiting; the promises of other nodes, and those not waiting, are untouched; a promise that changed is stranded; promises only move forward and stay ordered |
| `Streams.StrandKeepsOutcomes` | lib/streams/core.js:134 | stranding changes the state of no promise: a stranded continuation leaves its promise waiting, as it was |
| `Streams.StrandKeeps` | lib/streams/core.js:134 | stranding keeps the promises ordered and the queue as it was |
| `Streams.ReplaceKeeps` | lib/streams/core.js:134 | replacing a node keeps the invariant, moves promises forward only, and leaves every waiting continuation waiting on its node's outstanding deferred |
| `Streams.Stream.constructor` | lib/streams/core.js:120-124 | a stream starts with no nodes, no buckets, no heads and no promises |
| `Streams.Stream.AddNode` | lib/streams/core.js:128-139 | the identifier is appended to its listen type's bucket, which is created if absent, even when it is there already. The node replaces any node of that identifier, whose waiting continuations are stranded. The listen type becomes a head only when `isHead`, and no other bucket changes. |
| `Streams.Stream.Push` | lib/streams/core.js:141-152 | the new state and the result are those of `PushStep`: the listeners of the type are called with the message and no flush, whether or not the type is a head |
| `Streams.Stream.Flush` | lib/streams/core.js:154-167 | the new state and the result are those of `FlushStep`: every listener of every head type is called with a null message and a forced flush |
| `Streams.Stream.CollectHeadHandlers` | lib/streams/core.js:159-165 | the handler list is the concatenation of the head types' buckets, head by head |
| `Streams.Stream.LaunchProcess` | lib/streams/core.js:169-190 | the new state and the result are those of `LaunchStep`, and the invariant holds |
| `Streams.Stream.Dispatch` | lib/streams/core.js:178-181 | the loop over the handlers is `SpawnStep`: one promise per handler, in order, cut short by a synchronous throw |
| `Streams.Stream.Process` | lib/streams/core.js:192-209 | the new state and the result are those of `ProcessStep` |
| `Streams.Stream.ConsumeAt` | lib/streams/core.js:200-202 | only node `id` changes, as `ConsumeStep` says |
| `Streams.Stream.Register` | lib/streams/core.js:202 | the `then` on the deferred `consume` returned, as `Registered` says: a throw makes no promise, a pending deferred makes a waiting one, a resolved one schedules its waiters and then the new one |
| `Streams.Stream.Resolve` | lib/streams/core.js:57 | resolving a deferred schedules the continuations waiting on it, in the order they were registered, and changes no other promise |
| `Streams.Stream.RunJob` | lib/streams/core.js:202-209 | the new state is that of `JobStep`, and the invariant holds |
| `Streams.Stream.RunJobs` | lib/streams/core.js:202-209 | the new state is that of `Drain`: the queue is run until it is empty, and, as after every method of the stream, each continuation still waiting waits on the deferred its node has outstanding now |
| `Scenarios.DiamondPushWaits` | lib/streams/core.js:141-152 | "a" and "b" listen on "t" and emit on "u", and "x" batches two messages from "u". A push on "t" returns with both branches scheduled, so its promise is still waiting. |
| `Scenarios.FirstTurn` | lib/streams/core.js:54-61 | in that topology, the first continuation hands "x" one message; "x" holds it and stays pending, so the promise of that call waits on the deferred of generation 0 |
| `Scenarios.SecondTurn` | lib/streams/core.js:202-208 | the second continuation makes "x" emit the batch; the waiting call is woken and scheduled ahead of the second call's own continuation, and "x" moves on to the deferred of generation 1 |
| `Scenarios.DiamondDrainResolves` | lib/streams/core.js:202-209 | once the queue is empty, every continuation has run, the push's promise is resolved, and "x" is idle on its next deferred, holding no messages |
| `History.NormalizeHostName` | lib/HistoryReader.js:170-172 | the result is a suffix of the host; what comes off is exactly "www." when the host starts with it and nothing otherwise |
| `History.NormalizeStripsOnce` | lib/HistoryReader.js:170-172 | only one leading "www." is removed, even when another follows |
| `History.ConvertDateToDays` | lib/HistoryReader.js:191-194 | the day number `d` satisfies `d * 86400000 <= t < (d + 1) * 86400000`, where `t` is the visit time, or the current time when the visit time is null, missing or zero |
| `History.FalsyTimeIsNow` | lib/HistoryReader.js:191-194 | a null, missing or zero visit time gives the current day |
| `History.OptionOr` | lib/HistoryReader.js:56-57 | `options[key] \|\| fallback`: a truthy option is taken as is, and anything else gives the fallback |
| `History.ResubmitHistoryStep` | lib/HistoryReader.js:55-59 | a new resubmission uses `daysBack` 120 and `chunkSize` 1000 where the option is missing or falsy, so both settings are truthy; one in progress is returned unchanged |
| `History.HistoryReader.ResubmitHistory` | lib/HistoryReader.js:55-59 | updates the fields as `ResubmitHistoryStep` says and keeps each promise resolved at most once |
| `History.StartStep` | lib/HistoryReader.js:104-119 | while a resubmission is in progress, its promise is returned and nothing changes. Otherwise a new promise is made and the largest id restarts at 0. Both settings are recorded, with `chunkSize` 1000 when not passed, and the first chunk is queried at once. |
| `History.HistoryReader.ResubmitRecentHistory` | lib/HistoryReader.js:104-119 | updates the fields as `StartStep` says and keeps each promise resolved at most once |
| `History.ChunkStep` | lib/HistoryReader.js:121-150 | the count restarts at 0, and Places is asked for visits after the largest id seen, with the recorded settings. Nothing else changes. |
| `History.HistoryReader.ResubmitRecentHistoryChunk` | lib/HistoryReader.js:121-150 | updates the fields as `ChunkStep` says |
| `History.ItemStep` | lib/HistoryReader.js:125-146 | a visit whose URL does not parse changes nothing and posts nothing. Any other visit posts its request (normalised host, days, "resubmit", "en") and counts one up. The largest id becomes the larger of itself and the visit's id, and nothing else changes. |
| `History.HistoryReader.OnHistoryItem` | lib/HistoryReader.js:125-146 | updates the fields as `ItemStep` says and returns the posted request |
| `History.ItemsCount` | lib/HistoryReader.js:137-141 | over a chunk, the count goes up by the number of visits that parsed, and the largest id becomes the largest of theirs and its own; nothing else changes |
| `History.ChunkCounts` | lib/HistoryReader.js:121-146 | a chunk counts exactly the visits whose URL parses |
| `History.MaxId` | lib/HistoryReader.js:139-141 | the largest id is at least the one before and every parsed visit's id, and is one of them |
| `History.ChunkDoneStep` | lib/HistoryReader.js:150-156 | at the end of a chunk's query, the promise is resolved exactly when a resubmission is in progress and the count is 0 |
| `History.HistoryReader.OnChunkComplete` | lib/HistoryReader.js:150-156 | updates the fields as `ChunkDoneStep` says |
| `History.EmptyChunkResolves` | lib/HistoryReader.js:150-156 | a chunk that finds nothing resolves the promise in progress and clears it |
| `History.ResultStep` | lib/HistoryReader.js:85-102 | a "resubmit" result counts one down and schedules the next chunk exactly when the count reaches 0; other results change nothing |
| `History.HistoryReader.HandleInterestsResults` | lib/HistoryReader.js:85-102 | updates the fields as `ResultStep` says and returns whether the next chunk is scheduled |
| `History.ResultsCountDown` | lib/HistoryReader.js:93-99 | after any run of results, the count is down by the number of "resubmit" ones. A result schedules the next chunk exactly when it is the "resubmit" result that brings that number to the count. |
| `History.ResultsScheduleOnce` | lib/HistoryReader.js:93-99 | with `n > 0` requests outstanding and `n` "resubmit" results, the next chunk is scheduled by exactly one result and the count ends at 0 |
| `History.ChunkSchedulesNextOnce` | lib/HistoryReader.js:121-146 | a chunk in which some visits parse, followed by as many "resubmit" results, schedules the next chunk exactly once |
| `History.ResolveStep` | lib/HistoryReader.js:164-169 | resolves the promise in progress, if any, and clears it; with none in progress nothing changes |
| `History.ResolveIdempotent` | lib/HistoryReader.js:164-169 | resolving twice is resolving once |
| `History.HistoryReader.ResolveResubmitHistoryPromise` | lib/HistoryReader.js:164-169 | updates the fields as `ResolveStep` says |
| `History.StepsKeepConsistent` | lib/HistoryReader.js:104-169 | every transition keeps each promise resolved at most once, after it was made, and keeps the promise in progress unresolved |
| `History.HistoryReader.constructor` | lib/HistoryReader.js:21-23 | a new reader has no resubmission in progress and has made no promise |

## Left out

- The job queue is one FIFO queue of `then` continuations. The extra turns
  that `Promise.all` and the promise returned by a continuation take before
  an outer promise settles are not modelled. They call no `consume`, so they
  change no node, and the state of each promise is read off the recorded
  promises.
- Streams.JoinAll, Streams.JoinOutcome: the state of a promise is kept
  without the reason of a rejection. Which rejection `Promise.all` reports,
  the first in time, is not modelled.
- Streams.Stream.RunJobs, Streams.Drain: running the queue until it is empty
  is modelled only on a routing graph without cycles, witnessed by a ghost
  `rank` of the message types. `PushStep`, `FlushStep`, `JobStep` and
  `Stream.RunJob` hold on any graph. On a graph with a cycle the source's
  queue may still run empty, for instance when a node on the cycle stays
  pending or the cycle is never reached. The model states nothing about
  that.
- Streams.Stream.AddNode, Streams.Strand: the continuations waiting on a
  replaced node are stranded, for good, by identifier. In the source they
  wait on the replaced object's deferred (lib/streams/core.js:202). If that
  object is added again later, or other code that still holds it calls
  `consume` on it, its next emission (lib/streams/core.js:57) runs them and
  settles the push that made them. The model does not record which object
  a continuation waits on: those continuations stay `Stranded` and that
  push stays `Waiting`.
- Streams.PushStep, Streams.Stream.AddNode, Streams.JobRun: `listensTo` and
  `heads` are plain JavaScript objects, so a message type named like a
  member of `Object.prototype` (`toString`, `constructor`, `__proto__`,
  `hasOwnProperty`, ...) finds an inherited value there. In the source,
  `push` of such a type throws a `TypeError` at once (lib/streams/core.js:150,
  179), `addNode` with such a listen type throws (lines 129-132), and a
  continuation that emits such a type is rejected (lines 203-205). The model
  treats these names like any other type, with no listeners unless added.
- Nodes.ConsumeStep: `init`, `ingest` and `flush` are modelled as functions
  from the node's data to a new version of it, or to an error. A hook that
  changes some fields and then throws is modelled as changing nothing.
- Nodes.ConsumeStep: `emitReady` is modelled as a function from the node's
  data to a boolean, or to an error, so it cannot change the node. A write
  to `this` inside `emitReady`, such as a counter, is lost.
- Nodes.ConsumeStep: every hook is a fixed function of the node's data
  alone. A hook that reads the clock or other outside state, such as an
  `emitReady` that fires once some time has passed, cannot be expressed.
- Nodes.CreateNode: only the four hooks can be overridden by the options,
  and only `results` and `initted` among the engine's own fields can be set
  by `locals`. A `locals` key such as `emitDeferred` or `identifier`, or an
  options key other than the hooks and the three names, is not modelled.
- `flush()` returning a promise, which `resolve` would chain, is not
  modelled. The emitted value is a plain value.
- The JSON copy of a message is the identity on the modelled values. The
  loss of functions and `undefined` in the copy is not modelled.
- `heads` is an object whose keys `flush` enumerates. The model keeps the
  order in which head types were first marked. JavaScript puts integer-like
  keys first, and that is not modelled.
- `Cu.reportError`, `console.log`, and the `toString` of
  `NotImplementedError` are logging only.
- History.ItemStep: only a URL that does not parse makes the per-visit
  callback throw. `postMessage` is assumed not to throw.
- History.ResubmitHistoryStep, History.StartStep: options and `daysBack`
  are JSON-shaped values. `undefined` is modelled as a missing key or as
  `None`, and `NaN` options are not modelled.
- Foreign host APIs are parameters or results. They are `ChromeWorker`
  (requests are returned rather than posted), `PlacesInterestsUtils`
  (queries are returned and visits passed in), `NetUtil.newURI` (the parsed
  URI is a parameter), `Services.eTLD` (the base domain is a parameter),
  the observer service (notifications are not modelled), `timers.setTimeout`
  (the scheduling of the next chunk is returned as a flag) and `Date.now`
  (a parameter).
- `HistoryReader.setupWorker`, `init` and `handleEvent` are not modelled:
  they set up the worker and dispatch its events. `HistoryReader.stop` is
  not modelled: it sets a flag that nothing reads. `data/upstudy.js` is a
  user-interface controller and is not part of this model.

## Findings

| source | as written | input that shows it | evidently intended | confidence | as-written member | corrected member |
|---|---|---|---|---|---|---|
| lib/streams/core.js:17-18 | the constructor assigns the undeclared names `listens` and `emits` | `new Node("a", "raw", "out")` throws a ReferenceError | `this.listenType = listenType; this.emitType = emitType;` | high; not executed | `Nodes.ConstructAsWritten` | `Nodes.Construct` |

Nodes are built only through `createNode`, which does not run this
constructor, so the rest of the model does not depend on it.
