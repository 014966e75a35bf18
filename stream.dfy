/**
 * The routing topology and the promises of its `_process` calls.
 *
 * A push or a flush hands a message to the listeners of a type, one after
 * another, and returns `Promise.all` of the promises their `_process` calls
 * return. Each of those promises is a `then` on the deferred that the node's
 * `consume` returned. The continuation runs from the job queue once that
 * deferred is resolved, and hands the emitted value to every listener of the
 * node's emit type, making new `_process` calls.
 *
 * The model keeps every such promise as a task, numbered in the order the
 * calls were made, and the job queue as the list of continuations scheduled
 * to run, in order. The continuations registered on a pending deferred are
 * those waiting on it, in the order they were made, which is the order
 * they were registered.
 */
module Streams {
  import opened Values
  import opened Nodes

  // --- Promises and the job queue -----------------------------------------------

  /**
   * Where the continuation of one `_process` promise stands: waiting on the
   * deferred of the given generation of its node, scheduled on the job queue
   * with the value that deferred was resolved with, or run. A continuation
   * that ran either threw part-way through its loop, which rejects the
   * promise, or returned `Promise.all` of the promises of the calls it made.
   * A continuation is stranded when it waits on the deferred of a node that
   * `addNode` has replaced: nothing can resolve that deferred any more.
   */
  datatype Status =
    | WaitingOn(generation: nat)
    | Queued(value: Value)
    | Ran(children: seq<nat>)
    | Failed(error: Error)
    | Stranded

  /**
   * The promise of one `_process(node, ...)` call that did not throw. The
   * continuation forwards to the listeners of `emits`, the emit type of the
   * node object the call consumed with.
   */
  datatype Task = Task(node: Id, emits: MsgType, status: Status)

  /** The continuation has not run yet. */
  predicate Unsettled(s: Status) {
    s.WaitingOn? || s.Queued?
  }

  /** The state of a promise. */
  datatype Outcome = Resolved | Waiting | Rejected

  /**
   * What a loop over identifiers does: a synchronous throw cuts it short, or
   * it collects the promise of each identifier's `_process` call.
   */
  datatype Launch = Aborted(error: Error) | Started(tasks: seq<nat>)

  /**
   * What `push`, `flush` and `_launch_process` do: throw synchronously, or
   * return a promise that joins the promises of the given tasks.
   */
  datatype Step = Escaped(error: Error) | Returned(branches: seq<nat>)

  /** The nodes by identifier and the identifiers listening on each message type. */
  datatype Graph = Graph(defs: map<Id, NodeDef>, listensTo: map<MsgType, seq<Id>>)

  /** The state of every node, by identifier. */
  type States = map<Id, NodeState>

  /** The node states, the promises made so far, and the job queue. */
  datatype World = World(nodes: States, tasks: seq<Task>, queue: seq<nat>)

  /** `listensTo[t] || []`. */
  function Listeners(g: Graph, t: MsgType): seq<Id> {
    if t in g.listensTo then g.listensTo[t] else []
  }

  /** Every identifier in the routing table names a node. */
  ghost predicate Routable(g: Graph) {
    forall t, i | t in g.listensTo && 0 <= i < |g.listensTo[t]| :: g.listensTo[t][i] in g.defs
  }

  /** The calls a continuation made were made after it, and exist. */
  ghost predicate Ordered(ts: seq<Task>) {
    forall t, i | 0 <= t < |ts| && ts[t].status.Ran? && 0 <= i < |ts[t].status.children| ::
      t < ts[t].status.children[i] < |ts|
  }

  /**
   * The job queue holds scheduled continuations, each once. Every scheduled
   * continuation is on the queue, except those of `spare`, which are being
   * run.
   */
  ghost predicate Scheduled(ts: seq<Task>, queue: seq<nat>, spare: set<nat>) {
    && (forall i | 0 <= i < |queue| :: queue[i] < |ts| && ts[queue[i]].status.Queued? && queue[i] !in spare)
    && (forall i, j | 0 <= i < j < |queue| :: queue[i] != queue[j])
    && (forall t | 0 <= t < |ts| && ts[t].status.Queued? :: t in queue || t in spare)
    && (forall t | t in spare :: t < |ts| && ts[t].status.Queued?)
  }

  /** What holds of a world while the continuations of `spare` run. */
  ghost predicate Kept(g: Graph, w: World, spare: set<nat>) {
    && w.nodes.Keys == g.defs.Keys
    && Ordered(w.tasks)
    && Scheduled(w.tasks, w.queue, spare)
  }

  /** What holds of a world between two turns of the job queue. */
  ghost predicate Inv(g: Graph, w: World) {
    Kept(g, w, {})
  }

  /**
   * `us` is `ts` later on: no promise is lost and each keeps its node; a
   * continuation only goes from waiting to scheduled to run; and one that
   * ran stays as it was.
   */
  predicate Later(ts: seq<Task>, us: seq<Task>) {
    |ts| <= |us|
    && forall t | 0 <= t < |ts| ::
         us[t].node == ts[t].node && us[t].emits == ts[t].emits
         && (us[t].status == ts[t].status
             || (ts[t].status.WaitingOn? && !us[t].status.WaitingOn?)
             || (ts[t].status.Queued? && !Unsettled(us[t].status)))
  }

  /** `us` is `ts` after some waiting continuations were scheduled, and new promises made. */
  predicate Woken(ts: seq<Task>, us: seq<Task>) {
    |ts| <= |us|
    && forall t | 0 <= t < |ts| ::
         us[t] == ts[t] || (ts[t].status.WaitingOn? && us[t] == ts[t].(status := us[t].status) && us[t].status.Queued?)
  }

  // --- The state of a promise ---------------------------------------------------

  /**
   * `Promise.all`: resolved exactly when every promise is resolved, rejected
   * exactly when some promise is rejected, waiting otherwise.
   */
  function JoinAll(bs: seq<Outcome>): (r: Outcome)
    ensures r == Resolved <==> forall i | 0 <= i < |bs| :: bs[i] == Resolved
    ensures r == Rejected <==> exists i | 0 <= i < |bs| :: bs[i] == Rejected
  {
    if bs == [] then Resolved
    else
      var rest := JoinAll(bs[1..]);
      assert forall i | 1 <= i < |bs| :: bs[i] == bs[1..][i - 1];
      if bs[0] == Rejected || rest == Rejected then Rejected
      else if bs[0] == Waiting || rest == Waiting then Waiting
      else Resolved
  }

  /**
   * The state of the promise of task `t`: waiting until its continuation
   * has run, rejected when that threw, and otherwise the state of
   * `Promise.all` of the promises of the calls it made.
   */
  function TaskOutcome(ts: seq<Task>, t: nat): Outcome
    requires Ordered(ts) && t < |ts|
    decreases |ts| - t
  {
    match ts[t].status
    case WaitingOn(_) => Waiting
    case Queued(_) => Waiting
    case Stranded => Waiting
    case Failed(_) => Rejected
    case Ran(cs) => JoinAll(seq(|cs|, i requires 0 <= i < |cs| => TaskOutcome(ts, cs[i])))
  }

  /** The state of the promise that joins the promises of `branches`. */
  function JoinOutcome(ts: seq<Task>, branches: seq<nat>): Outcome
    requires Ordered(ts) && forall i | 0 <= i < |branches| :: branches[i] < |ts|
  {
    JoinAll(seq(|branches|, i requires 0 <= i < |branches| => TaskOutcome(ts, branches[i])))
  }

  /** A promise that has settled stays settled the same way, whatever runs later. */
  lemma {:induction false} SettledStays(ts: seq<Task>, us: seq<Task>, t: nat)
    requires Ordered(ts) && Ordered(us) && Later(ts, us) && t < |ts|
    requires TaskOutcome(ts, t) != Waiting
    ensures TaskOutcome(us, t) == TaskOutcome(ts, t)
    decreases |ts| - t
  {
    assert us[t].status == ts[t].status;
    if ts[t].status.Ran? {
      var cs := ts[t].status.children;
      var before := seq(|cs|, i requires 0 <= i < |cs| => TaskOutcome(ts, cs[i]));
      var after := seq(|cs|, i requires 0 <= i < |cs| => TaskOutcome(us, cs[i]));
      if TaskOutcome(ts, t) == Resolved {
        forall i | 0 <= i < |cs| ensures after[i] == Resolved {
          assert before[i] == Resolved;
          SettledStays(ts, us, cs[i]);
        }
      } else {
        var i :| 0 <= i < |cs| && before[i] == Rejected;
        SettledStays(ts, us, cs[i]);
        assert after[i] == Rejected;
      }
    }
  }

  // --- One `_process` call ------------------------------------------------------

  /** The continuations waiting on deferred `gen` of node `id`, in the order they were registered. */
  function Waiters(ts: seq<Task>, id: Id, gen: nat): (r: seq<nat>)
    ensures forall i | 0 <= i < |r| :: r[i] < |ts| && Awaits(ts[r[i]], id, gen)
    ensures forall t | 0 <= t < |ts| && Awaits(ts[t], id, gen) :: t in r
    ensures forall i, j | 0 <= i < j < |r| :: r[i] < r[j]
  {
    if ts == [] then []
    else
      var rest := Waiters(ts[..|ts| - 1], id, gen);
      if Awaits(ts[|ts| - 1], id, gen) then rest + [|ts| - 1] else rest
  }

  /** The continuation of `task` waits on deferred `gen` of node `id`. */
  predicate Awaits(task: Task, id: Id, gen: nat) {
    task.node == id && task.status == WaitingOn(gen)
  }

  /**
   * The waiting continuations of deferred `gen` of node `id`, scheduled with
   * `v`: exactly the promises of `Waiters` change, and each of them only
   * becomes scheduled with that value.
   */
  function Wake(ts: seq<Task>, id: Id, gen: nat, v: Value): (r: seq<Task>)
    ensures |r| == |ts|
    ensures forall t | 0 <= t < |ts| :: r[t].node == ts[t].node && r[t].emits == ts[t].emits
    ensures forall t | 0 <= t < |ts| :: r[t] != ts[t] <==> t in Waiters(ts, id, gen)
    ensures forall t | 0 <= t < |ts| && t in Waiters(ts, id, gen) :: r[t].status == Queued(v)
  {
    seq(|ts|, t requires 0 <= t < |ts| => if Awaits(ts[t], id, gen) then ts[t].(status := Queued(v)) else ts[t])
  }

  /** `Wake`, promise by promise. */
  lemma WakeAt(ts: seq<Task>, id: Id, gen: nat, v: Value)
    ensures forall t | 0 <= t < |ts| ::
              Wake(ts, id, gen, v)[t] == if Awaits(ts[t], id, gen) then ts[t].(status := Queued(v)) else ts[t]
  {
  }

  /**
   * `_process(id, message, flush)` up to its return. Node `id` consumes the
   * message; the JSON copy is the identity on message values. A throw
   * escapes to the caller. Otherwise the call returns a new promise whose
   * continuation is registered on the deferred `consume` returned. While
   * that deferred is pending the continuation waits on it. When `consume`
   * resolved it, the continuations waiting on it are scheduled in the order
   * they were registered, and this call's continuation after them.
   */
  function ProcessStep(g: Graph, w: World, id: Id, message: Value, flush: bool): (r: (World, Result<nat>))
    requires id in g.defs && w.nodes.Keys == g.defs.Keys
    ensures r.0.nodes.Keys == w.nodes.Keys && forall x | x in w.nodes && x != id :: r.0.nodes[x] == w.nodes[x]
    ensures w.queue <= r.0.queue
    ensures r.1.Ok? ==> r.1.value == |w.tasks| && |r.0.tasks| == |w.tasks| + 1
  {
    var c := ConsumeStep(g.defs[id].hooks, w.nodes[id], message, flush);
    Registered(w.(nodes := w.nodes[id := c.0]), id, g.defs[id].emitType, c.1)
  }

  /**
   * The rest of `_process(id, ...)` once node `id`, which emits on `emits`,
   * has consumed with result `c`.
   */
  function Registered(w: World, id: Id, emits: MsgType, c: Consumed): (r: (World, Result<nat>))
    ensures r.0.nodes == w.nodes
    ensures r.1.Err? <==> c.Threw?
    ensures r.1.Ok? ==> && r.1.value == |w.tasks| && |r.0.tasks| == |w.tasks| + 1
                        && r.0.tasks[|w.tasks|].node == id && r.0.tasks[|w.tasks|].emits == emits
    ensures w.queue <= r.0.queue
  {
    match c
    case Threw(e) => (w, Err(e))
    case Pending(d) =>
      (w.(tasks := w.tasks + [Task(id, emits, WaitingOn(d.generation))]), Ok(|w.tasks|))
    case Ready(d, v) =>
      (w.(tasks := Wake(w.tasks, id, d.generation, v) + [Task(id, emits, Queued(v))],
          queue := w.queue + Waiters(w.tasks, id, d.generation) + [|w.tasks|]),
       Ok(|w.tasks|))
  }

  /**
   * What a `_process` call does, stated without its steps: it throws exactly
   * when `consume` throws, and then makes no promise. Otherwise its promise
   * is the next task, which waits on the deferred `consume` left pending.
   * When `consume` resolved a deferred instead, the new task is scheduled
   * last, after every continuation that waited on that deferred, in the
   * order they were registered. Only node `id` changes.
   */
  lemma ProcessContract(g: Graph, w: World, id: Id, message: Value, flush: bool)
    requires id in g.defs && w.nodes.Keys == g.defs.Keys
    ensures var c := ConsumeStep(g.defs[id].hooks, w.nodes[id], message, flush);
            var r := ProcessStep(g, w, id, message, flush);
            && r.0.nodes == w.nodes[id := c.0]
            && (r.1.Err? <==> c.1.Threw?)
            && (c.1.Threw? ==> r.0.tasks == w.tasks && r.0.queue == w.queue && r.1.error == c.1.error)
            && (r.1.Ok? ==> r.1.value == |w.tasks| && |r.0.tasks| == |w.tasks| + 1
                            && r.0.tasks[|w.tasks|].node == id && r.0.tasks[|w.tasks|].emits == g.defs[id].emitType)
            && (c.1.Pending? ==>
                  r.0.tasks[|w.tasks|].status == WaitingOn(c.1.outstanding.generation)
                  && r.0.tasks[..|w.tasks|] == w.tasks && r.0.queue == w.queue)
            && (c.1.Ready? ==>
                  r.0.tasks[|w.tasks|].status == Queued(c.1.value)
                  && (forall t | 0 <= t < |w.tasks| ::
                        r.0.tasks[t] == if Awaits(w.tasks[t], id, c.1.resolved.generation)
                                        then w.tasks[t].(status := Queued(c.1.value)) else w.tasks[t])
                  && r.0.queue == w.queue + Waiters(w.tasks, id, c.1.resolved.generation) + [|w.tasks|])
  {
    var c := ConsumeStep(g.defs[id].hooks, w.nodes[id], message, flush);
    if c.1.Pending? {
      var r := ProcessStep(g, w, id, message, flush);
      assert r.0.tasks == w.tasks + [Task(id, g.defs[id].emitType, WaitingOn(c.1.outstanding.generation))];
    }
  }

  // --- A loop of `_process` calls -----------------------------------------------

  /**
   * The loop `for (ident of ls) promises.push(this._process(ident, message, flush))`:
   * a synchronous throw stops it; otherwise it collects the promise of each call.
   */
  function SpawnStep(g: Graph, w: World, ls: seq<Id>, message: Value, flush: bool): (r: (World, Launch))
    requires w.nodes.Keys == g.defs.Keys && forall i | 0 <= i < |ls| :: ls[i] in g.defs
    ensures r.0.nodes.Keys == w.nodes.Keys
    ensures |w.tasks| <= |r.0.tasks|
    ensures w.queue <= r.0.queue
  {
    if ls == [] then (w, Started([]))
    else
      var before := SpawnStep(g, w, ls[..|ls| - 1], message, flush);
      match before.1
      case Aborted(_) => before
      case Started(ts) =>
        var p := ProcessStep(g, before.0, ls[|ls| - 1], message, flush);
        match p.1
        case Err(e) => (p.0, Aborted(e))
        case Ok(t) => (p.0, Started(ts + [t]))
  }

  /** One more turn of the loop. */
  lemma SpawnNext(g: Graph, w: World, ls: seq<Id>, message: Value, flush: bool, i: nat)
    requires w.nodes.Keys == g.defs.Keys && (forall j | 0 <= j < |ls| :: ls[j] in g.defs) && i < |ls|
    requires SpawnStep(g, w, ls[..i], message, flush).1.Started?
    ensures var before := SpawnStep(g, w, ls[..i], message, flush);
            var p := ProcessStep(g, before.0, ls[i], message, flush);
            SpawnStep(g, w, ls[..i + 1], message, flush)
            == (p.0, if p.1.Err? then Aborted(p.1.error) else Started(before.1.tasks + [p.1.value]))
  {
    assert ls[..i + 1][..i] == ls[..i];
  }

  /**
   * A synchronous throw ends the loop for good: the identifiers after the
   * one that threw are never handed the message.
   */
  lemma {:induction false} SpawnStopsAtThrow(g: Graph, w: World, ls: seq<Id>, message: Value, flush: bool, j: nat)
    requires w.nodes.Keys == g.defs.Keys && (forall i | 0 <= i < |ls| :: ls[i] in g.defs) && j <= |ls|
    requires SpawnStep(g, w, ls[..j], message, flush).1.Aborted?
    ensures SpawnStep(g, w, ls, message, flush) == SpawnStep(g, w, ls[..j], message, flush)
  {
    if j < |ls| {
      var prefix := ls[..|ls| - 1];
      assert prefix[..j] == ls[..j];
      SpawnStopsAtThrow(g, w, prefix, message, flush, j);
    } else {
      assert ls[..j] == ls;
    }
  }

  /**
   * The `consume` of the `j`-th identifier throws, and every call before it
   * returned a promise.
   */
  ghost predicate ThrowsAt(g: Graph, w: World, ls: seq<Id>, message: Value, flush: bool, j: nat)
    requires w.nodes.Keys == g.defs.Keys && (forall i | 0 <= i < |ls| :: ls[i] in g.defs) && j < |ls|
  {
    var before := SpawnStep(g, w, ls[..j], message, flush);
    before.1.Started? && ConsumeStep(g.defs[ls[j]].hooks, before.0.nodes[ls[j]], message, flush).1.Threw?
  }

  /** The loop throws exactly when the `consume` of one of its own calls throws. */
  lemma {:induction false} SpawnThrowsIff(g: Graph, w: World, ls: seq<Id>, message: Value, flush: bool)
    requires w.nodes.Keys == g.defs.Keys && forall i | 0 <= i < |ls| :: ls[i] in g.defs
    ensures SpawnStep(g, w, ls, message, flush).1.Aborted? <==>
              exists j | 0 <= j < |ls| :: ThrowsAt(g, w, ls, message, flush, j)
  {
    if ls != [] {
      var prefix := ls[..|ls| - 1];
      var last := |ls| - 1;
      SpawnThrowsIff(g, w, prefix, message, flush);
      ThrowsAtPrefix(g, w, ls, message, flush);
      assert ls[..last] == prefix;
      var before := SpawnStep(g, w, prefix, message, flush);
      if before.1.Started? {
        SpawnThrowsLast(g, w, ls, message, flush);
      } else {
        assert SpawnStep(g, w, ls, message, flush) == before;
        var j :| 0 <= j < |prefix| && ThrowsAt(g, w, prefix, message, flush, j);
        assert ThrowsAt(g, w, ls, message, flush, j);
      }
    }
  }

  /** When the calls before the last one all returned, the loop throws exactly when the last `consume` does. */
  lemma SpawnThrowsLast(g: Graph, w: World, ls: seq<Id>, message: Value, flush: bool)
    requires w.nodes.Keys == g.defs.Keys && (forall i | 0 <= i < |ls| :: ls[i] in g.defs) && ls != []
    requires SpawnStep(g, w, ls[..|ls| - 1], message, flush).1.Started?
    ensures SpawnStep(g, w, ls, message, flush).1.Aborted? <==> ThrowsAt(g, w, ls, message, flush, |ls| - 1)
  {
    var before := SpawnStep(g, w, ls[..|ls| - 1], message, flush);
    ProcessContract(g, before.0, ls[|ls| - 1], message, flush);
  }

  /** Before the last identifier, the loop over `ls` is the loop over its prefix. */
  lemma ThrowsAtPrefix(g: Graph, w: World, ls: seq<Id>, message: Value, flush: bool)
    requires w.nodes.Keys == g.defs.Keys && (forall i | 0 <= i < |ls| :: ls[i] in g.defs) && ls != []
    ensures forall j | 0 <= j < |ls| - 1 ::
              ThrowsAt(g, w, ls, message, flush, j) == ThrowsAt(g, w, ls[..|ls| - 1], message, flush, j)
  {
    forall j | 0 <= j < |ls| - 1
      ensures ThrowsAt(g, w, ls, message, flush, j) == ThrowsAt(g, w, ls[..|ls| - 1], message, flush, j)
    {
      assert ls[..|ls| - 1][..j] == ls[..j];
    }
  }

  /** The loop throws what the first `consume` that threw threw. */
  lemma SpawnThrowsFirst(g: Graph, w: World, ls: seq<Id>, message: Value, flush: bool, j: nat)
    requires w.nodes.Keys == g.defs.Keys && (forall i | 0 <= i < |ls| :: ls[i] in g.defs) && j < |ls|
    requires ThrowsAt(g, w, ls, message, flush, j)
    ensures var before := SpawnStep(g, w, ls[..j], message, flush);
            SpawnStep(g, w, ls, message, flush).1
            == Aborted(ConsumeStep(g.defs[ls[j]].hooks, before.0.nodes[ls[j]], message, flush).1.error)
  {
    var before := SpawnStep(g, w, ls[..j], message, flush);
    SpawnNext(g, w, ls, message, flush, j);
    ProcessContract(g, before.0, ls[j], message, flush);
    SpawnStopsAtThrow(g, w, ls, message, flush, j + 1);
  }

  // --- The invariant, step by step ----------------------------------------------

  /** Scheduling the waiters of a deferred keeps the shape of the promises. */
  lemma WakeShape(ts: seq<Task>, id: Id, e: MsgType, gen: nat, v: Value)
    requires Ordered(ts)
    ensures var us := Wake(ts, id, gen, v) + [Task(id, e, Queued(v))];
            Ordered(us) && Woken(ts, us)
  {
    var woken := Wake(ts, id, gen, v);
    var us := woken + [Task(id, e, Queued(v))];
    assert forall t | 0 <= t < |ts| :: us[t] == woken[t];
  }

  /**
   * The waiters of a deferred, then the new continuation, go on the queue
   * behind what was already scheduled, each once.
   */
  lemma WakeQueue(ts: seq<Task>, queue: seq<nat>, spare: set<nat>, id: Id, e: MsgType, gen: nat, v: Value)
    requires Scheduled(ts, queue, spare)
    ensures Scheduled(Wake(ts, id, gen, v) + [Task(id, e, Queued(v))], queue + Waiters(ts, id, gen) + [|ts|], spare)
  {
    WakeQueueEntries(ts, queue, spare, id, e, gen, v);
    WakeQueueDistinct(ts, queue, spare, id, gen);
    WakeQueueCovers(ts, queue, spare, id, e, gen, v);
  }

  lemma WakeQueueEntries(ts: seq<Task>, queue: seq<nat>, spare: set<nat>, id: Id, e: MsgType, gen: nat, v: Value)
    requires Scheduled(ts, queue, spare)
    ensures var us := Wake(ts, id, gen, v) + [Task(id, e, Queued(v))];
            var q := queue + Waiters(ts, id, gen) + [|ts|];
            forall i | 0 <= i < |q| :: q[i] < |us| && us[q[i]].status.Queued? && q[i] !in spare
  {
    var woken := Wake(ts, id, gen, v);
    var us := woken + [Task(id, e, Queued(v))];
    var ws := Waiters(ts, id, gen);
    var q := queue + ws + [|ts|];
    forall i | 0 <= i < |q| ensures q[i] < |us| && us[q[i]].status.Queued? && q[i] !in spare {
      if i < |queue| {
        assert q[i] == queue[i];
        assert us[q[i]] == woken[q[i]];
      } else if i < |queue| + |ws| {
        assert q[i] == ws[i - |queue|];
        assert us[q[i]] == woken[q[i]];
      }
    }
  }

  lemma WakeQueueDistinct(ts: seq<Task>, queue: seq<nat>, spare: set<nat>, id: Id, gen: nat)
    requires Scheduled(ts, queue, spare)
    ensures var q := queue + Waiters(ts, id, gen) + [|ts|];
            forall i, j | 0 <= i < j < |q| :: q[i] != q[j]
  {
    var ws := Waiters(ts, id, gen);
    var q := queue + ws + [|ts|];
    forall i, j | 0 <= i < j < |q| ensures q[i] != q[j] {
      if j == |q| - 1 {
        assert q[i] < |ts|;
      } else if i < |queue| && j >= |queue| {
        assert q[i] == queue[i] && q[j] == ws[j - |queue|];
        assert ts[q[i]].status.Queued? && ts[q[j]].status.WaitingOn?;
      } else if i >= |queue| {
        assert q[i] == ws[i - |queue|] && q[j] == ws[j - |queue|];
      } else {
        assert q[i] == queue[i] && q[j] == queue[j];
      }
    }
  }

  lemma WakeQueueCovers(ts: seq<Task>, queue: seq<nat>, spare: set<nat>, id: Id, e: MsgType, gen: nat, v: Value)
    requires Scheduled(ts, queue, spare)
    ensures var us := Wake(ts, id, gen, v) + [Task(id, e, Queued(v))];
            var q := queue + Waiters(ts, id, gen) + [|ts|];
            && (forall t | 0 <= t < |us| && us[t].status.Queued? :: t in q || t in spare)
            && (forall t | t in spare :: t < |us| && us[t].status.Queued?)
  {
    var woken := Wake(ts, id, gen, v);
    var us := woken + [Task(id, e, Queued(v))];
    var ws := Waiters(ts, id, gen);
    var q := queue + ws + [|ts|];
    forall t | 0 <= t < |us| && us[t].status.Queued? ensures t in q || t in spare {
      if t == |ts| {
        assert q[|q| - 1] == t;
      } else {
        assert us[t] == woken[t];
        if Awaits(ts[t], id, gen) {
          var k :| 0 <= k < |ws| && ws[k] == t;
          assert q[|queue| + k] == t;
        } else if t in queue {
          var k :| 0 <= k < |queue| && queue[k] == t;
          assert q[k] == t;
        }
      }
    }
    forall t | t in spare ensures t < |us| && us[t].status.Queued? {
      assert us[t] == woken[t];
    }
  }

  /** A `_process` call keeps the invariant, and only schedules continuations or makes promises. */
  lemma ProcessKeeps(g: Graph, w: World, id: Id, message: Value, flush: bool, spare: set<nat>)
    requires Kept(g, w, spare) && id in g.defs
    ensures var r := ProcessStep(g, w, id, message, flush);
            && Kept(g, r.0, spare) && Woken(w.tasks, r.0.tasks)
            && (r.1.Err? ==> r.0.tasks == w.tasks)
            && (r.1.Ok? ==> r.1.value == |w.tasks| && |r.0.tasks| == |w.tasks| + 1
                            && r.0.tasks[|w.tasks|].node == id && Unsettled(r.0.tasks[|w.tasks|].status))
  {
    var c := ConsumeStep(g.defs[id].hooks, w.nodes[id], message, flush);
    if c.1.Ready? {
      WakeShape(w.tasks, id, g.defs[id].emitType, c.1.resolved.generation, c.1.value);
      WakeQueue(w.tasks, w.queue, spare, id, g.defs[id].emitType, c.1.resolved.generation, c.1.value);
    }
  }

  /** A loop of `_process` calls keeps the invariant; the promises it collects are new ones. */
  lemma {:induction false} SpawnKeeps(g: Graph, w: World, ls: seq<Id>, message: Value, flush: bool, spare: set<nat>)
    requires Kept(g, w, spare) && forall i | 0 <= i < |ls| :: ls[i] in g.defs
    ensures var r := SpawnStep(g, w, ls, message, flush);
            && Kept(g, r.0, spare) && Woken(w.tasks, r.0.tasks)
            && (r.1.Started? ==> forall i | 0 <= i < |r.1.tasks| :: |w.tasks| <= r.1.tasks[i] < |r.0.tasks|)
  {
    if ls != [] {
      var prefix := ls[..|ls| - 1];
      SpawnKeeps(g, w, prefix, message, flush, spare);
      var before := SpawnStep(g, w, prefix, message, flush);
      if before.1.Started? {
        var p := ProcessStep(g, before.0, ls[|ls| - 1], message, flush);
        assert SpawnStep(g, w, ls, message, flush)
            == (p.0, if p.1.Err? then Aborted(p.1.error) else Started(before.1.tasks + [p.1.value]));
        SpawnKeepsNext(g, w, before.0, before.1.tasks, ls[|ls| - 1], message, flush, spare);
      }
    }
  }

  /** One more `_process` call of the loop keeps what `SpawnKeeps` promises. */
  lemma SpawnKeepsNext(g: Graph, w: World, mid: World, made: seq<nat>, id: Id, message: Value, flush: bool, spare: set<nat>)
    requires Kept(g, mid, spare) && Woken(w.tasks, mid.tasks) && id in g.defs
    requires forall i | 0 <= i < |made| :: |w.tasks| <= made[i] < |mid.tasks|
    ensures var p := ProcessStep(g, mid, id, message, flush);
            && Kept(g, p.0, spare) && Woken(w.tasks, p.0.tasks)
            && (p.1.Ok? ==> forall i | 0 <= i < |made + [p.1.value]| :: |w.tasks| <= (made + [p.1.value])[i] < |p.0.tasks|)
  {
    var p := ProcessStep(g, mid, id, message, flush);
    ProcessKeeps(g, mid, id, message, flush, spare);
    WokenTrans(w.tasks, mid.tasks, p.0.tasks);
  }

  /** `Woken` composes. */
  lemma WokenTrans(ts: seq<Task>, us: seq<Task>, vs: seq<Task>)
    requires Woken(ts, us) && Woken(us, vs)
    ensures Woken(ts, vs)
  {
  }

  // --- One turn of the job queue ------------------------------------------------

  /**
   * The loop of the first scheduled continuation: it hands the value its
   * deferred was resolved with to every listener of the emit type of its
   * node, in turn, with no flush.
   */
  function JobRun(g: Graph, w: World): (r: (World, Launch))
    requires Inv(g, w) && Routable(g) && w.queue != []
    ensures r.0.nodes.Keys == w.nodes.Keys && |w.tasks| <= |r.0.tasks|
    ensures w.queue[1..] <= r.0.queue
  {
    var task := w.tasks[w.queue[0]];
    SpawnStep(g, w.(queue := w.queue[1..]), Listeners(g, task.emits), task.status.value, false)
  }

  /**
   * One turn of the job queue: the first scheduled continuation runs its
   * loop. A throw stops the loop and rejects its promise; otherwise its
   * promise follows those of the calls it made.
   */
  function JobStep(g: Graph, w: World): (r: World)
    requires Inv(g, w) && Routable(g) && w.queue != []
    ensures r.nodes.Keys == w.nodes.Keys && |w.tasks| <= |r.tasks|
    ensures w.queue[1..] <= r.queue
    ensures w.queue[0] < |r.tasks| && !Unsettled(r.tasks[w.queue[0]].status)
  {
    var t := w.queue[0];
    var run := JobRun(g, w);
    var status := match run.1 case Aborted(e) => Failed(e) case Started(cs) => Ran(cs);
    run.0.(tasks := run.0.tasks[t := w.tasks[t].(status := status)])
  }

  /** Taking the first continuation off the queue sets it aside as the one that runs. */
  lemma PopKeeps(g: Graph, w: World)
    requires Inv(g, w) && w.queue != []
    ensures Kept(g, w.(queue := w.queue[1..]), {w.queue[0]})
  {
    var t := w.queue[0];
    var popped := w.(queue := w.queue[1..]);
    forall u | 0 <= u < |w.tasks| && w.tasks[u].status.Queued? ensures u in popped.queue || u in {t} {
      assert u in w.queue;
      if u != t {
        var i :| 0 <= i < |w.queue| && w.queue[i] == u;
        assert popped.queue[i - 1] == u;
      }
    }
  }

  /**
   * A turn keeps the invariant and only moves promises forward. The
   * continuation it ran has settled: rejected when its loop threw, and
   * otherwise joining the promises of exactly the calls it made, one per
   * listener of the emit type.
   */
  lemma JobKeeps(g: Graph, w: World)
    requires Inv(g, w) && Routable(g) && w.queue != []
    ensures var r := JobStep(g, w);
            var t := w.queue[0];
            var run := JobRun(g, w);
            && Inv(g, r) && Later(w.tasks, r.tasks)
            && r.tasks[t].node == w.tasks[t].node && r.tasks[t].emits == w.tasks[t].emits
            && (run.1.Aborted? ==> r.tasks[t].status == Failed(run.1.error))
            && (run.1.Started? ==> r.tasks[t].status == Ran(run.1.tasks)
                                   && |run.1.tasks| == |Listeners(g, w.tasks[t].emits)|)
  {
    var t := w.queue[0];
    var task := w.tasks[t];
    var popped := w.(queue := w.queue[1..]);
    PopKeeps(g, w);
    var ls := Listeners(g, task.emits);
    SpawnKeeps(g, popped, ls, task.status.value, false, {t});
    SpawnLength(g, popped, ls, task.status.value, false);
    var run := SpawnStep(g, popped, ls, task.status.value, false);
    assert run.0.tasks[t] == task;
    var r := JobStep(g, w);
    assert Ordered(r.tasks);
    assert Scheduled(r.tasks, r.queue, {});
  }

  /**
   * A throw inside a continuation does not escape: it rejects the promise of
   * that continuation, and so every promise that joins it.
   */
  lemma JobRejectsOnThrow(g: Graph, w: World)
    requires Inv(g, w) && Routable(g) && w.queue != []
    requires JobRun(g, w).1.Aborted?
    ensures Inv(g, JobStep(g, w))
    ensures TaskOutcome(JobStep(g, w).tasks, w.queue[0]) == Rejected
  {
    JobKeeps(g, w);
  }

  // --- Running the job queue until it is empty ----------------------------------

  /** One more than the rank of `t` when it has listeners, and 0 otherwise. */
  function Rank(g: Graph, rank: map<MsgType, nat>, t: MsgType): nat {
    if t in g.listensTo && t in rank then rank[t] + 1 else 0
  }

  /**
   * `rank` ranks every message type with listeners above the emit types of
   * those listeners, so the routing graph has no cycle.
   */
  ghost predicate Ranked(g: Graph, rank: map<MsgType, nat>) {
    && Routable(g)
    && forall t, i | t in g.listensTo && 0 <= i < |g.listensTo[t]| ::
         g.listensTo[t][i] in g.defs && Rank(g, rank, g.defs[g.listensTo[t][i]].emitType) < Rank(g, rank, t)
  }

  /**
   * The number of continuations that a value emitted on type `u` can still
   * lead to: its own, and those of the calls it makes.
   */
  ghost function Weight(g: Graph, rank: map<MsgType, nat>, u: MsgType): (r: nat)
    requires Ranked(g, rank)
    ensures r >= 1
    decreases Rank(g, rank, u), 1
  {
    1 + Weights(g, rank, Listeners(g, u), Rank(g, rank, u))
  }

  /** The weights of the emit types of the nodes of `ls`, which all rank below `bound`, added up. */
  ghost function Weights(g: Graph, rank: map<MsgType, nat>, ls: seq<Id>, bound: nat): nat
    requires Ranked(g, rank)
    requires forall i | 0 <= i < |ls| :: ls[i] in g.defs && Rank(g, rank, g.defs[ls[i]].emitType) < bound
    decreases bound, 0, |ls|
  {
    if ls == [] then 0
    else Weights(g, rank, ls[..|ls| - 1], bound) + Weight(g, rank, g.defs[ls[|ls| - 1]].emitType)
  }

  /** The weights of the promises whose continuation has not run yet, added up. */
  ghost function Mass(g: Graph, rank: map<MsgType, nat>, ts: seq<Task>): nat
    requires Ranked(g, rank)
  {
    if ts == [] then 0
    else
      Mass(g, rank, ts[..|ts| - 1])
      + if Unsettled(ts[|ts| - 1].status) then Weight(g, rank, ts[|ts| - 1].emits) else 0
  }

  /** The weights of the promises of `us` from `k` on. */
  ghost function MassFrom(g: Graph, rank: map<MsgType, nat>, us: seq<Task>, k: nat): nat
    requires Ranked(g, rank) && k <= |us|
    decreases |us| - k
  {
    if k == |us| then 0
    else MassFrom(g, rank, us[..|us| - 1], k) + Weight(g, rank, us[|us| - 1].emits)
  }

  /** Scheduling a waiting continuation does not change the mass; a new promise adds its weight. */
  lemma {:induction false} MassWoken(g: Graph, rank: map<MsgType, nat>, ts: seq<Task>, us: seq<Task>)
    requires Ranked(g, rank) && Woken(ts, us)
    requires forall t | |ts| <= t < |us| :: Unsettled(us[t].status)
    ensures Mass(g, rank, us) == Mass(g, rank, ts) + MassFrom(g, rank, us, |ts|)
    decreases |us|
  {
    if |us| > |ts| {
      MassWoken(g, rank, ts, us[..|us| - 1]);
    } else if us != [] {
      MassWoken(g, rank, ts[..|ts| - 1], us[..|us| - 1]);
    }
  }

  /** Running a continuation takes its weight off the mass. */
  lemma {:induction false} MassSettle(g: Graph, rank: map<MsgType, nat>, ts: seq<Task>, t: nat, task: Task)
    requires Ranked(g, rank) && t < |ts|
    requires Unsettled(ts[t].status) && task.emits == ts[t].emits && !Unsettled(task.status)
    ensures Mass(g, rank, ts[t := task]) + Weight(g, rank, task.emits) == Mass(g, rank, ts)
  {
    var us := ts[t := task];
    if t < |ts| - 1 {
      assert us[..|us| - 1] == ts[..|ts| - 1][t := task];
      MassSettle(g, rank, ts[..|ts| - 1], t, task);
    } else {
      assert us[..|us| - 1] == ts[..|ts| - 1];
    }
  }

  /** A `_process` call of node `id` adds at most the weight of its emit type to the mass. */
  lemma ProcessMass(g: Graph, rank: map<MsgType, nat>, w: World, id: Id, message: Value, flush: bool,
                    spare: set<nat>)
    requires Ranked(g, rank) && Kept(g, w, spare) && id in g.defs
    ensures Mass(g, rank, ProcessStep(g, w, id, message, flush).0.tasks)
            <= Mass(g, rank, w.tasks) + Weight(g, rank, g.defs[id].emitType)
  {
    ProcessKeeps(g, w, id, message, flush, spare);
    ProcessContract(g, w, id, message, flush);
    var p := ProcessStep(g, w, id, message, flush);
    MassWoken(g, rank, w.tasks, p.0.tasks);
    if p.1.Ok? {
      assert p.0.tasks[..|p.0.tasks| - 1][..|w.tasks|] == p.0.tasks[..|w.tasks|];
      assert MassFrom(g, rank, p.0.tasks, |w.tasks|) == Weight(g, rank, g.defs[id].emitType);
    } else {
      assert MassFrom(g, rank, p.0.tasks, |w.tasks|) == 0;
    }
  }

  /** A loop of `_process` calls over `ls` adds at most the weights of `ls` to the mass. */
  lemma {:induction false} SpawnMass(g: Graph, rank: map<MsgType, nat>, w: World, ls: seq<Id>, message: Value,
                                     flush: bool, bound: nat, spare: set<nat>)
    requires Ranked(g, rank) && Kept(g, w, spare)
    requires forall i | 0 <= i < |ls| :: ls[i] in g.defs && Rank(g, rank, g.defs[ls[i]].emitType) < bound
    ensures Mass(g, rank, SpawnStep(g, w, ls, message, flush).0.tasks)
            <= Mass(g, rank, w.tasks) + Weights(g, rank, ls, bound)
  {
    if ls != [] {
      var prefix := ls[..|ls| - 1];
      SpawnMass(g, rank, w, prefix, message, flush, bound, spare);
      SpawnKeeps(g, w, prefix, message, flush, spare);
      var before := SpawnStep(g, w, prefix, message, flush);
      if before.1.Started? {
        ProcessMass(g, rank, before.0, ls[|ls| - 1], message, flush, spare);
      }
    }
  }

  /** A turn of the job queue lowers the mass, so the queue runs empty. */
  lemma JobLowersMass(g: Graph, rank: map<MsgType, nat>, w: World)
    requires Ranked(g, rank) && Inv(g, w) && w.queue != []
    ensures Mass(g, rank, JobStep(g, w).tasks) < Mass(g, rank, w.tasks)
  {
    var t := w.queue[0];
    var task := w.tasks[t];
    var popped := w.(queue := w.queue[1..]);
    JobKeeps(g, w);
    PopKeeps(g, w);
    var ls := Listeners(g, task.emits);
    SpawnKeeps(g, popped, ls, task.status.value, false, {t});
    SpawnMass(g, rank, popped, ls, task.status.value, false, Rank(g, rank, task.emits), {t});
    var run := SpawnStep(g, popped, ls, task.status.value, false);
    assert run.0.tasks[t] == task;
    MassSettle(g, rank, run.0.tasks, t, JobStep(g, w).tasks[t]);
    assert JobStep(g, w).tasks == run.0.tasks[t := JobStep(g, w).tasks[t]];
  }

  /**
   * The job queue run until it is empty: every scheduled continuation runs,
   * including those it schedules in turn.
   */
  ghost function Drain(g: Graph, w: World, rank: map<MsgType, nat>): (r: World)
    requires Ranked(g, rank) && Inv(g, w)
    ensures Inv(g, r) && r.queue == []
    decreases Mass(g, rank, w.tasks)
  {
    if w.queue == [] then w
    else
      JobKeeps(g, w);
      JobLowersMass(g, rank, w);
      Drain(g, JobStep(g, w), rank)
  }

  /** `Later` composes. */
  lemma LaterTrans(ts: seq<Task>, us: seq<Task>, vs: seq<Task>)
    requires Later(ts, us) && Later(us, vs)
    ensures Later(ts, vs)
  {
  }

  /**
   * Once the queue is empty, no continuation is left scheduled: each one
   * that was scheduled has run, and every promise has moved forward only.
   */
  lemma {:induction false} DrainRunsScheduled(g: Graph, w: World, rank: map<MsgType, nat>)
    requires Ranked(g, rank) && Inv(g, w)
    ensures var r := Drain(g, w, rank);
            && Later(w.tasks, r.tasks)
            && (forall t | 0 <= t < |r.tasks| :: !r.tasks[t].status.Queued?)
            && (forall t | 0 <= t < |w.tasks| && w.tasks[t].status.Queued? :: !Unsettled(r.tasks[t].status))
    decreases Mass(g, rank, w.tasks)
  {
    if w.queue != [] {
      JobKeeps(g, w);
      JobLowersMass(g, rank, w);
      DrainRunsScheduled(g, JobStep(g, w), rank);
      LaterTrans(w.tasks, JobStep(g, w).tasks, Drain(g, w, rank).tasks);
    }
  }

  // --- What the steps do to the nodes -------------------------------------------

  /** No node comes or goes, and no node's generation goes down. */
  ghost predicate Grown(a: States, b: States) {
    a.Keys == b.Keys && forall x | x in a :: a[x].emitDeferred.generation <= b[x].emitDeferred.generation
  }

  /** A node whose own `emitReady` never says yes. */
  ghost predicate NeverReady(h: Hooks) {
    forall self: Self :: h.emitReady(self) != Ok(true)
  }

  /** A node that no message type routes to. */
  ghost predicate Unlisted(g: Graph, x: Id) {
    forall t, i | t in g.listensTo && 0 <= i < |g.listensTo[t]| :: g.listensTo[t][i] != x
  }

  /**
   * Every waiting continuation waits on the deferred its node has
   * outstanding now, so the node's next emission schedules it.
   */
  ghost predicate Awaiting(w: World) {
    forall t | 0 <= t < |w.tasks| && w.tasks[t].status.WaitingOn? ::
      w.tasks[t].node in w.nodes
      && w.tasks[t].status.generation == w.nodes[w.tasks[t].node].emitDeferred.generation
  }

  /**
   * A `_process` call only moves the generation of its own node, and only
   * up: by one when `consume` emits, which a forced flush always does unless
   * it throws, and never for a node whose `emitReady` never says yes and
   * that is not forced. It keeps every waiting continuation waiting on the
   * deferred of its node, and an emission schedules all those of the
   * emitting node.
   */
  lemma ProcessFrame(g: Graph, w: World, id: Id, message: Value, flush: bool)
    requires id in g.defs && w.nodes.Keys == g.defs.Keys
    ensures var r := ProcessStep(g, w, id, message, flush);
            var c := ConsumeStep(g.defs[id].hooks, w.nodes[id], message, flush);
            && Grown(w.nodes, r.0.nodes)
            && (forall x | x in w.nodes && x != id :: r.0.nodes[x] == w.nodes[x])
            && (c.1.Ready? ==> r.0.nodes[id].emitDeferred.generation == w.nodes[id].emitDeferred.generation + 1)
            && (!c.1.Ready? ==> r.0.nodes[id].emitDeferred == w.nodes[id].emitDeferred)
            && (flush && r.1.Ok? ==> c.1.Ready?)
            && (!flush && NeverReady(g.defs[id].hooks) ==> !c.1.Ready?)
            && (Awaiting(w) ==> Awaiting(r.0))
            && (Awaiting(w) && c.1.Ready? ==>
                  forall t | 0 <= t < |r.0.tasks| && r.0.tasks[t].node == id :: !r.0.tasks[t].status.WaitingOn?)
  {
    var c := ConsumeStep(g.defs[id].hooks, w.nodes[id], message, flush);
    ConsumeContract(g.defs[id].hooks, w.nodes[id], message, flush, c);
    ProcessContract(g, w, id, message, flush);
  }

  /**
   * A loop of `_process` calls only touches the nodes it calls, moves no
   * generation down, keeps unforced nodes that are never ready as they
   * were, and keeps every waiting continuation waiting on its node.
   */
  lemma SpawnFrame(g: Graph, w: World, ls: seq<Id>, message: Value, flush: bool)
    requires w.nodes.Keys == g.defs.Keys && forall i | 0 <= i < |ls| :: ls[i] in g.defs
    ensures var r := SpawnStep(g, w, ls, message, flush);
            && Grown(w.nodes, r.0.nodes)
            && (forall x | x in w.nodes && x !in ls :: r.0.nodes[x] == w.nodes[x])
            && (!flush ==> forall x | x in w.nodes && NeverReady(g.defs[x].hooks) ::
                             r.0.nodes[x].emitDeferred == w.nodes[x].emitDeferred)
            && (Awaiting(w) ==> Awaiting(r.0))
  {
    SpawnGrows(g, w, ls, message, flush);
    SpawnKeepsOthers(g, w, ls, message, flush);
    if !flush {
      SpawnKeepsNeverReady(g, w, ls, message);
    }
    if Awaiting(w) {
      SpawnAwaits(g, w, ls, message, flush);
    }
  }

  lemma {:induction false} SpawnGrows(g: Graph, w: World, ls: seq<Id>, message: Value, flush: bool)
    requires w.nodes.Keys == g.defs.Keys && forall i | 0 <= i < |ls| :: ls[i] in g.defs
    ensures Grown(w.nodes, SpawnStep(g, w, ls, message, flush).0.nodes)
  {
    if ls != [] {
      var prefix := ls[..|ls| - 1];
      SpawnGrows(g, w, prefix, message, flush);
      var before := SpawnStep(g, w, prefix, message, flush);
      if before.1.Started? {
        ProcessFrame(g, before.0, ls[|ls| - 1], message, flush);
      }
    }
  }

  lemma {:induction false} SpawnKeepsOthers(g: Graph, w: World, ls: seq<Id>, message: Value, flush: bool)
    requires w.nodes.Keys == g.defs.Keys && forall i | 0 <= i < |ls| :: ls[i] in g.defs
    ensures forall x | x in w.nodes && x !in ls :: SpawnStep(g, w, ls, message, flush).0.nodes[x] == w.nodes[x]
  {
    if ls != [] {
      var prefix := ls[..|ls| - 1];
      SpawnKeepsOthers(g, w, prefix, message, flush);
      var before := SpawnStep(g, w, prefix, message, flush);
      if before.1.Started? {
        ProcessContract(g, before.0, ls[|ls| - 1], message, flush);
      }
    }
  }

  lemma {:induction false} SpawnKeepsNeverReady(g: Graph, w: World, ls: seq<Id>, message: Value)
    requires w.nodes.Keys == g.defs.Keys && forall i | 0 <= i < |ls| :: ls[i] in g.defs
    ensures forall x | x in w.nodes && NeverReady(g.defs[x].hooks) ::
              SpawnStep(g, w, ls, message, false).0.nodes[x].emitDeferred == w.nodes[x].emitDeferred
  {
    if ls != [] {
      var prefix := ls[..|ls| - 1];
      SpawnKeepsNeverReady(g, w, prefix, message);
      var before := SpawnStep(g, w, prefix, message, false);
      if before.1.Started? {
        ProcessFrame(g, before.0, ls[|ls| - 1], message, false);
      }
    }
  }

  lemma {:induction false} SpawnAwaits(g: Graph, w: World, ls: seq<Id>, message: Value, flush: bool)
    requires w.nodes.Keys == g.defs.Keys && forall i | 0 <= i < |ls| :: ls[i] in g.defs
    requires Awaiting(w)
    ensures Awaiting(SpawnStep(g, w, ls, message, flush).0)
  {
    if ls != [] {
      var prefix := ls[..|ls| - 1];
      SpawnAwaits(g, w, prefix, message, flush);
      var before := SpawnStep(g, w, prefix, message, flush);
      if before.1.Started? {
        ProcessFrame(g, before.0, ls[|ls| - 1], message, flush);
      }
    }
  }

  /**
   * A flush that does not throw forces every node it calls to emit: each one
   * ends on a later deferred than it started on.
   */
  lemma {:induction false} SpawnForces(g: Graph, w: World, ls: seq<Id>, message: Value)
    requires w.nodes.Keys == g.defs.Keys && forall i | 0 <= i < |ls| :: ls[i] in g.defs
    requires SpawnStep(g, w, ls, message, true).1.Started?
    ensures forall i | 0 <= i < |ls| ::
              w.nodes[ls[i]].emitDeferred.generation
              < SpawnStep(g, w, ls, message, true).0.nodes[ls[i]].emitDeferred.generation
  {
    if ls != [] {
      var prefix := ls[..|ls| - 1];
      var last := ls[|ls| - 1];
      var before := SpawnStep(g, w, prefix, message, true);
      assert before.1.Started?;
      SpawnForces(g, w, prefix, message);
      SpawnGrows(g, w, prefix, message, true);
      var p := ProcessStep(g, before.0, last, message, true);
      assert p.1.Ok?;
      ProcessForces(g, before.0, last, message);
      assert SpawnStep(g, w, ls, message, true).0 == p.0;
      assert ls == prefix + [last];
      ForcedOneMore(w.nodes, before.0.nodes, p.0.nodes, prefix, last);
    }
  }

  /** A forced `_process` call that does not throw moves its node to the next deferred. */
  lemma ProcessForces(g: Graph, w: World, id: Id, message: Value)
    requires id in g.defs && w.nodes.Keys == g.defs.Keys
    requires ProcessStep(g, w, id, message, true).1.Ok?
    ensures var r := ProcessStep(g, w, id, message, true);
            Grown(w.nodes, r.0.nodes)
            && r.0.nodes[id].emitDeferred.generation == w.nodes[id].emitDeferred.generation + 1
  {
    ProcessFrame(g, w, id, message, true);
  }

  /** A generation that went up and then did not go down ends up higher. */
  lemma ForcedOneMore(a: States, b: States, c: States, prefix: seq<Id>, last: Id)
    requires Grown(a, b) && Grown(b, c) && last in a && forall i | 0 <= i < |prefix| :: prefix[i] in a
    requires forall i | 0 <= i < |prefix| :: a[prefix[i]].emitDeferred.generation < b[prefix[i]].emitDeferred.generation
    requires b[last].emitDeferred.generation < c[last].emitDeferred.generation
    ensures var ls := prefix + [last];
            forall i | 0 <= i < |ls| :: a[ls[i]].emitDeferred.generation < c[ls[i]].emitDeferred.generation
  {
    var ls := prefix + [last];
    forall i | 0 <= i < |ls| ensures a[ls[i]].emitDeferred.generation < c[ls[i]].emitDeferred.generation {
      var x := ls[i];
      assert a[x].emitDeferred.generation <= b[x].emitDeferred.generation;
      assert b[x].emitDeferred.generation <= c[x].emitDeferred.generation;
      if i < |prefix| {
        assert x == prefix[i];
      }
    }
  }

  /**
   * A turn of the job queue never forces a flush: it leaves a node that no
   * type routes to as it was, and the deferred of a node that is never ready
   * where it was. It moves no generation down and keeps every waiting
   * continuation waiting on its node.
   */
  lemma JobFrame(g: Graph, w: World)
    requires Inv(g, w) && Routable(g) && w.queue != []
    ensures var r := JobStep(g, w);
            && Grown(w.nodes, r.nodes)
            && (forall x | x in w.nodes && Unlisted(g, x) :: r.nodes[x] == w.nodes[x])
            && (forall x | x in w.nodes && NeverReady(g.defs[x].hooks) ::
                  r.nodes[x].emitDeferred == w.nodes[x].emitDeferred)
            && (Awaiting(w) ==> Awaiting(r))
  {
    var task := w.tasks[w.queue[0]];
    var ls := Listeners(g, task.emits);
    SpawnFrame(g, w.(queue := w.queue[1..]), ls, task.status.value, false);
  }

  /**
   * What the job queue does to the nodes, run until it is empty: as one
   * turn does. And once it is empty, every promise still pending waits on
   * the deferred its node has outstanding, or on a deferred of a node that
   * has been replaced.
   */
  lemma {:induction false} DrainFrame(g: Graph, w: World, rank: map<MsgType, nat>)
    requires Ranked(g, rank) && Inv(g, w)
    ensures var r := Drain(g, w, rank);
            && Grown(w.nodes, r.nodes)
            && (forall x | x in w.nodes && Unlisted(g, x) :: r.nodes[x] == w.nodes[x])
            && (forall x | x in w.nodes && NeverReady(g.defs[x].hooks) ::
                  r.nodes[x].emitDeferred == w.nodes[x].emitDeferred)
            && (Awaiting(w) ==> Awaiting(r))
    decreases Mass(g, rank, w.tasks)
  {
    if w.queue != [] {
      JobKeeps(g, w);
      JobLowersMass(g, rank, w);
      JobFrame(g, w);
      DrainFrame(g, JobStep(g, w), rank);
    }
  }

  /**
   * Once the queue is empty, every promise still pending waits on the
   * deferred its node has outstanding now, unless that node was replaced.
   */
  lemma DrainLeavesWaiters(g: Graph, w: World, rank: map<MsgType, nat>)
    requires Ranked(g, rank) && Inv(g, w) && Awaiting(w)
    ensures var r := Drain(g, w, rank);
            forall t | 0 <= t < |r.tasks| && Unsettled(r.tasks[t].status) ::
              r.tasks[t].node in r.nodes
              && r.tasks[t].status == WaitingOn(r.nodes[r.tasks[t].node].emitDeferred.generation)
  {
    DrainFrame(g, w, rank);
    DrainRunsScheduled(g, w, rank);
  }

  // --- push, flush and _launch_process ----------------------------------------

  /**
   * `_launch_process(handlers, message, flush)`: a synchronous throw of a
   * handler's `consume` escapes to the caller; otherwise the promise joins
   * the promises of all the handlers' calls.
   */
  function LaunchStep(g: Graph, w: World, handlers: seq<Id>, message: Value, flush: bool): (r: (World, Step))
    requires w.nodes.Keys == g.defs.Keys && forall i | 0 <= i < |handlers| :: handlers[i] in g.defs
    ensures r.1.Returned? ==> |r.1.branches| == |handlers|
  {
    var run := SpawnStep(g, w, handlers, message, flush);
    SpawnLength(g, w, handlers, message, flush);
    match run.1
    case Aborted(e) => (run.0, Escaped(e))
    case Started(ts) => (run.0, Returned(ts))
  }

  /** The loop collects one promise per identifier. */
  lemma {:induction false} SpawnLength(g: Graph, w: World, ls: seq<Id>, message: Value, flush: bool)
    requires w.nodes.Keys == g.defs.Keys && forall i | 0 <= i < |ls| :: ls[i] in g.defs
    ensures var r := SpawnStep(g, w, ls, message, flush);
            r.1.Started? ==> |r.1.tasks| == |ls|
  {
    if ls != [] {
      SpawnLength(g, w, ls[..|ls| - 1], message, flush);
    }
  }

  /** The launch keeps the invariant, and its promise joins new promises. */
  lemma LaunchKeeps(g: Graph, w: World, handlers: seq<Id>, message: Value, flush: bool)
    requires Inv(g, w) && forall i | 0 <= i < |handlers| :: handlers[i] in g.defs
    ensures var r := LaunchStep(g, w, handlers, message, flush);
            && Inv(g, r.0) && Later(w.tasks, r.0.tasks)
            && (r.1.Returned? ==> forall i | 0 <= i < |r.1.branches| :: |w.tasks| <= r.1.branches[i] < |r.0.tasks|)
            && (Awaiting(w) ==> Awaiting(r.0))
  {
    SpawnKeeps(g, w, handlers, message, flush, {});
    SpawnFrame(g, w, handlers, message, flush);
  }

  /**
   * `push(messageType, message)`: the message goes to every listener of its
   * type, head or not, with no flush. A type nobody listens on changes
   * nothing, and its promise joins no promise, so it is resolved at once.
   */
  function PushStep(g: Graph, w: World, messageType: MsgType, message: Value): (r: (World, Step))
    requires w.nodes.Keys == g.defs.Keys && Routable(g)
    ensures messageType !in g.listensTo ==> r == (w, Returned([]))
  {
    LaunchStep(g, w, Listeners(g, messageType), message, false)
  }

  /** The listeners of every head type, head by head, in order. */
  function HeadHandlers(g: Graph, heads: seq<MsgType>): (r: seq<Id>)
    ensures Routable(g) ==> forall i | 0 <= i < |r| :: r[i] in g.defs
  {
    if heads == [] then []
    else HeadHandlers(g, heads[..|heads| - 1]) + Listeners(g, heads[|heads| - 1])
  }

  /** The handlers of a flush are exactly the listeners of the head types. */
  lemma {:induction false} HeadHandlersAreHeadListeners(g: Graph, heads: seq<MsgType>, x: Id)
    ensures x in HeadHandlers(g, heads) <==> exists t | t in heads :: x in Listeners(g, t)
  {
    if heads != [] {
      var prefix := heads[..|heads| - 1];
      var last := heads[|heads| - 1];
      HeadHandlersAreHeadListeners(g, prefix, x);
      assert heads == prefix + [last];
      if x in HeadHandlers(g, heads) {
        if x in HeadHandlers(g, prefix) {
          var t :| t in prefix && x in Listeners(g, t);
          assert t in heads;
        } else {
          assert x in Listeners(g, last);
        }
      }
      if exists t | t in heads :: x in Listeners(g, t) {
        var t :| t in heads && x in Listeners(g, t);
        if t != last {
          assert t in prefix;
        }
      }
    }
  }

  /**
   * `flush()`: every listener of every head type consumes a null message
   * with a forced flush. What they emit travels on, from the job queue, as
   * ordinary messages.
   */
  function FlushStep(g: Graph, w: World, heads: seq<MsgType>): (r: (World, Step))
    requires w.nodes.Keys == g.defs.Keys && Routable(g)
    ensures heads == [] ==> r == (w, Returned([]))
    ensures r.1.Returned? ==> |r.1.branches| == |HeadHandlers(g, heads)|
  {
    LaunchStep(g, w, HeadHandlers(g, heads), Null, true)
  }

  /** The state of a joined promise, once settled, stays the same whatever runs later. */
  lemma JoinSettledStays(ts: seq<Task>, us: seq<Task>, branches: seq<nat>)
    requires Ordered(ts) && Ordered(us) && Later(ts, us)
    requires forall i | 0 <= i < |branches| :: branches[i] < |ts|
    requires JoinOutcome(ts, branches) != Waiting
    ensures JoinOutcome(us, branches) == JoinOutcome(ts, branches)
  {
    var before := seq(|branches|, i requires 0 <= i < |branches| => TaskOutcome(ts, branches[i]));
    var after := seq(|branches|, i requires 0 <= i < |branches| => TaskOutcome(us, branches[i]));
    if JoinOutcome(ts, branches) == Resolved {
      forall i | 0 <= i < |branches| ensures after[i] == Resolved {
        assert before[i] == Resolved;
        SettledStays(ts, us, branches[i]);
      }
    } else {
      var i :| 0 <= i < |branches| && before[i] == Rejected;
      SettledStays(ts, us, branches[i]);
      assert after[i] == Rejected;
    }
  }

  /**
   * A node that no message type routes to is left exactly as it was by a
   * push and by every continuation the push leads to.
   */
  lemma PushKeepsUnlisted(g: Graph, w: World, rank: map<MsgType, nat>, messageType: MsgType, message: Value, x: Id)
    requires Ranked(g, rank) && Inv(g, w) && x in g.defs && Unlisted(g, x)
    ensures Inv(g, PushStep(g, w, messageType, message).0)
    ensures Drain(g, PushStep(g, w, messageType, message).0, rank).nodes[x] == w.nodes[x]
  {
    var ls := Listeners(g, messageType);
    LaunchKeeps(g, w, ls, message, false);
    SpawnFrame(g, w, ls, message, false);
    DrainFrame(g, PushStep(g, w, messageType, message).0, rank);
  }

  /**
   * Only listeners of a head type are forced by `flush()`: a node whose own
   * `emitReady` never says yes and that listens on no head type keeps its
   * outstanding deferred, however far downstream of the heads it sits.
   */
  lemma FlushForcesOnlyHeadListeners(g: Graph, w: World, rank: map<MsgType, nat>, heads: seq<MsgType>, x: Id)
    requires Ranked(g, rank) && Inv(g, w)
    requires x in g.defs && NeverReady(g.defs[x].hooks)
    requires forall t | t in heads :: x !in Listeners(g, t)
    ensures Inv(g, FlushStep(g, w, heads).0)
    ensures Drain(g, FlushStep(g, w, heads).0, rank).nodes[x].emitDeferred == w.nodes[x].emitDeferred
  {
    var hs := HeadHandlers(g, heads);
    HeadHandlersAreHeadListeners(g, heads, x);
    LaunchKeeps(g, w, hs, Null, true);
    SpawnFrame(g, w, hs, Null, true);
    DrainFrame(g, FlushStep(g, w, heads).0, rank);
  }

  /**
   * A flush that does not throw forces every listener of every head type to
   * emit: each one is on a later deferred than before, and stays there
   * while the job queue runs.
   */
  lemma FlushForcesHeadListeners(g: Graph, w: World, rank: map<MsgType, nat>, heads: seq<MsgType>)
    requires Ranked(g, rank) && Inv(g, w)
    requires FlushStep(g, w, heads).1.Returned?
    ensures Inv(g, FlushStep(g, w, heads).0)
    ensures var hs := HeadHandlers(g, heads);
            var r := Drain(g, FlushStep(g, w, heads).0, rank);
            forall i | 0 <= i < |hs| ::
              w.nodes[hs[i]].emitDeferred.generation < r.nodes[hs[i]].emitDeferred.generation
  {
    var hs := HeadHandlers(g, heads);
    LaunchKeeps(g, w, hs, Null, true);
    SpawnForces(g, w, hs, Null);
    DrainFrame(g, FlushStep(g, w, heads).0, rank);
  }

  // --- Replacing a node ---------------------------------------------------------

  /**
   * The continuations waiting on the deferred of node `id`, stranded: the
   * node object that holds that deferred has been replaced.
   */
  function Strand(ts: seq<Task>, id: Id): (r: seq<Task>)
    ensures |r| == |ts| && Later(ts, r) && (Ordered(ts) ==> Ordered(r))
    // no continuation of node `id` is left waiting
    ensures forall t | 0 <= t < |ts| && r[t].node == id :: !r[t].status.WaitingOn?
    // the promises of other nodes, and those not waiting, are untouched
    ensures forall t | 0 <= t < |ts| && (ts[t].node != id || !ts[t].status.WaitingOn?) :: r[t] == ts[t]
    // a promise that changed is stranded
    ensures forall t | 0 <= t < |ts| && r[t] != ts[t] :: r[t].status == Stranded
  {
    seq(|ts|, t requires 0 <= t < |ts| =>
      if ts[t].node == id && ts[t].status.WaitingOn? then ts[t].(status := Stranded) else ts[t])
  }

  /**
   * Stranding changes the state of no promise: a stranded continuation, like
   * a waiting one, leaves its promise waiting, and so every promise that
   * joins it.
   */
  lemma {:induction false} StrandKeepsOutcomes(ts: seq<Task>, id: Id, t: nat)
    requires Ordered(ts) && t < |ts|
    ensures TaskOutcome(Strand(ts, id), t) == TaskOutcome(ts, t)
    decreases |ts| - t
  {
    var us := Strand(ts, id);
    if ts[t].status.Ran? {
      var cs := ts[t].status.children;
      assert us[t] == ts[t];
      forall i | 0 <= i < |cs| ensures TaskOutcome(us, cs[i]) == TaskOutcome(ts, cs[i]) {
        StrandKeepsOutcomes(ts, id, cs[i]);
      }
      assert seq(|cs|, i requires 0 <= i < |cs| => TaskOutcome(us, cs[i]))
          == seq(|cs|, i requires 0 <= i < |cs| => TaskOutcome(ts, cs[i]));
    }
  }

  /** Stranding continuations keeps the promises ordered and the queue as it was. */
  lemma StrandKeeps(ts: seq<Task>, queue: seq<nat>, id: Id)
    requires Ordered(ts) && Scheduled(ts, queue, {})
    ensures Ordered(Strand(ts, id)) && Scheduled(Strand(ts, id), queue, {})
  {
    var us := Strand(ts, id);
    assert forall t | 0 <= t < |us| && us[t].status.Queued? :: ts[t].status.Queued?;
  }

  /**
   * Replacing node `id` keeps the invariant, only moves promises forward,
   * and leaves no continuation waiting on a deferred that is not its node's.
   */
  lemma ReplaceKeeps(g: Graph, w: World, id: Id, def: NodeDef, n: NodeState)
    requires Inv(g, w)
    ensures var w2 := World(w.nodes[id := n], Strand(w.tasks, id), w.queue);
            var g2 := g.(defs := g.defs[id := def]);
            && Inv(g2, w2) && Later(w.tasks, w2.tasks)
            && (Awaiting(w) ==> Awaiting(w2))
  {
    var ts := Strand(w.tasks, id);
    assert forall t | 0 <= t < |ts| && ts[t].status.Queued? :: w.tasks[t].status.Queued?;
  }

  // --- The topology as an object ------------------------------------------------

  /**
   * A stream: `objects` maps identifiers to nodes, `listensTo` maps a message
   * type to the identifiers listening on it, in the order they were added,
   * and `heads` holds the head types in the order they were first marked.
   * `tasks` and `queue` stand for what the JavaScript runtime holds for the
   * stream: the promise of every `_process` call made so far, and the
   * continuations scheduled on its job queue.
   */
  class Stream {
    var objects: map<Id, Node>
    var listensTo: map<MsgType, seq<Id>>
    var heads: seq<MsgType>
    var tasks: seq<Task>
    var queue: seq<nat>

    /** Every node is filed under its own identifier. */
    ghost predicate Keyed()
      reads this
    {
      forall id | id in objects :: objects[id].identifier == id
    }

    /** Every identifier in a bucket names a node, and every head type has a bucket, once. */
    ghost predicate Routed()
      reads this
    {
      && Keyed()
      && (forall t, i | t in listensTo && 0 <= i < |listensTo[t]| :: listensTo[t][i] in objects)
      && (forall i | 0 <= i < |heads| :: heads[i] in listensTo)
      && (forall i, j | 0 <= i < j < |heads| :: heads[i] != heads[j])
    }

    /**
     * The routing is sound, the promises keep the invariant, and every
     * waiting continuation waits on the deferred its node has outstanding.
     */
    ghost predicate Valid()
      reads this, objects.Values
    {
      Routed() && Ordered(tasks) && Scheduled(tasks, queue, {}) && Awaiting(Current())
    }

    ghost function Topology(): Graph
      reads this
    {
      Graph(map id | id in objects :: objects[id].Def(), listensTo)
    }

    ghost function States(): States
      reads this, objects.Values
    {
      map id | id in objects :: objects[id].State()
    }

    /** The node states, the promises and the job queue. */
    ghost function Current(): World
      reads this, objects.Values
    {
      World(States(), tasks, queue)
    }

    /** A valid stream holds a world that keeps the invariant. */
    lemma ValidInv()
      requires Valid()
      ensures Inv(Topology(), Current()) && Routable(Topology()) && Awaiting(Current())
    {
    }

    /** `listensTo[t] || []`. */
    function Bucket(t: MsgType): seq<Id>
      reads this
    {
      if t in listensTo then listensTo[t] else []
    }

    constructor ()
      ensures Valid()
      ensures objects == map[] && listensTo == map[] && heads == [] && tasks == [] && queue == []
    {
      objects, listensTo, heads := map[], map[], [];
      tasks, queue := [], [];
    }

    /**
     * `addNode(obj, isHead)`: the identifier joins the end of its listen
     * type's bucket (even when it is there already), the node replaces any
     * node of the same identifier, and the listen type becomes a head type
     * when `isHead`. The continuations waiting on a replaced node are
     * stranded.
     */
    method AddNode(obj: Node, isHead: bool)
      requires Valid()
      modifies this
      ensures Valid()
      ensures objects == old(objects)[obj.identifier := obj]
      ensures listensTo == old(listensTo)[obj.listenType := old(Bucket(obj.listenType)) + [obj.identifier]]
      ensures heads == if isHead && obj.listenType !in old(heads) then old(heads) + [obj.listenType]
                       else old(heads)
      ensures tasks == if obj.identifier in old(objects) && old(objects)[obj.identifier] == obj then old(tasks)
                       else Strand(old(tasks), obj.identifier)
      ensures queue == old(queue)
    {
      if !(obj.identifier in objects && objects[obj.identifier] == obj) {
        StrandKeeps(tasks, queue, obj.identifier);
        tasks := Strand(tasks, obj.identifier);
      }
      File(obj, isHead);
    }

    /** The routing part of `addNode`. */
    method File(obj: Node, isHead: bool)
      requires Routed()
      modifies this
      ensures Routed() && tasks == old(tasks) && queue == old(queue)
      ensures objects == old(objects)[obj.identifier := obj]
      ensures listensTo == old(listensTo)[obj.listenType := old(Bucket(obj.listenType)) + [obj.identifier]]
      ensures heads == if isHead && obj.listenType !in old(heads) then old(heads) + [obj.listenType]
                       else old(heads)
    {
      if obj.listenType !in listensTo {
        listensTo := listensTo[obj.listenType := []];
      }
      listensTo := listensTo[obj.listenType := listensTo[obj.listenType] + [obj.identifier]];
      objects := objects[obj.identifier := obj];
      if isHead && obj.listenType !in heads {
        heads := heads + [obj.listenType];
      }
    }

    /**
     * `push(messageType, message)`. The source makes a rejected deferred for
     * a type that is not a head with listeners, but never returns it, so
     * that check has no effect and is not modelled.
     */
    method Push(messageType: MsgType, message: Value) returns (r: Step)
      requires Valid()
      modifies this, objects.Values
      ensures Valid()
      ensures objects == old(objects) && listensTo == old(listensTo) && heads == old(heads)
      ensures (Current(), r) == PushStep(Topology(), old(Current()), messageType, message)
    {
      var handlers := Bucket(messageType);
      r := LaunchProcess(handlers, message, false);
    }

    /** `flush()`. */
    method Flush() returns (r: Step)
      requires Valid()
      modifies this, objects.Values
      ensures Valid()
      ensures objects == old(objects) && listensTo == old(listensTo) && heads == old(heads)
      ensures (Current(), r) == FlushStep(Topology(), old(Current()), heads)
    {
      var handlers := CollectHeadHandlers();
      r := LaunchProcess(handlers, Null, true);
    }

    /** The loop of `flush()` that lists the listeners of every head type. */
    method CollectHeadHandlers() returns (handlers: seq<Id>)
      requires Valid()
      ensures handlers == HeadHandlers(Topology(), heads)
    {
      handlers := [];
      for i := 0 to |heads|
        invariant handlers == HeadHandlers(Topology(), heads[..i])
      {
        var msgHandlers := listensTo[heads[i]];
        for j := 0 to |msgHandlers|
          invariant handlers == HeadHandlers(Topology(), heads[..i]) + msgHandlers[..j]
        {
          handlers := handlers + [msgHandlers[j]];
        }
        assert heads[..i + 1][..i] == heads[..i];
      }
      assert heads[..|heads|] == heads;
    }

    /** `_launch_process(handlers, message, flush)`. */
    method LaunchProcess(handlers: seq<Id>, message: Value, flush: bool) returns (r: Step)
      requires Valid()
      requires forall i | 0 <= i < |handlers| :: handlers[i] in objects
      modifies this, objects.Values
      ensures Valid()
      ensures objects == old(objects) && listensTo == old(listensTo) && heads == old(heads)
      ensures (Current(), r) == LaunchStep(Topology(), old(Current()), handlers, message, flush)
    {
      ValidInv();
      LaunchKeeps(Topology(), Current(), handlers, message, flush);
      var launched := Dispatch(handlers, message, flush);
      match launched
      case Aborted(e) => r := Escaped(e);
      case Started(subTasks) => r := Returned(subTasks);
    }

    /** The loop that hands one message to each identifier of `ls` in turn. */
    method Dispatch(ls: seq<Id>, message: Value, flush: bool) returns (l: Launch)
      requires Keyed() && forall i | 0 <= i < |ls| :: ls[i] in objects
      modifies this, objects.Values
      ensures objects == old(objects) && listensTo == old(listensTo) && heads == old(heads)
      ensures (Current(), l) == SpawnStep(Topology(), old(Current()), ls, message, flush)
    {
      var promises := [];
      for i := 0 to |ls|
        invariant objects == old(objects) && listensTo == old(listensTo) && heads == old(heads)
        invariant (Current(), Started(promises)) == SpawnStep(Topology(), old(Current()), ls[..i], message, flush)
      {
        var p := Process(ls[i], message, flush);
        SpawnNext(Topology(), old(Current()), ls, message, flush, i);
        if p.Err? {
          SpawnStopsAtThrow(Topology(), old(Current()), ls, message, flush, i + 1);
          return Aborted(p.error);
        }
        promises := promises + [p.value];
      }
      assert ls[..|ls|] == ls;
      l := Started(promises);
    }

    /**
     * `_process(objectIdent, message, flush)`: node `id` consumes the
     * message, and the call returns the promise of its continuation.
     */
    method Process(id: Id, message: Value, flush: bool) returns (r: Result<nat>)
      requires Keyed() && id in objects
      modifies this, objects.Values
      ensures objects == old(objects) && listensTo == old(listensTo) && heads == old(heads)
      ensures (Current(), r) == ProcessStep(Topology(), old(Current()), id, message, flush)
    {
      ghost var g, w := Topology(), Current();
      assert g.defs[id] == objects[id].Def();
      var emits := objects[id].emitType;
      // the JSON copy of a Value is the value itself
      var c := ConsumeAt(id, message, flush);
      r := Register(id, emits, c);
    }

    /**
     * The `then` of `_process`: the promise of the continuation of node `id`,
     * registered on the deferred that `consume` returned.
     */
    method Register(id: Id, emits: MsgType, c: Consumed) returns (r: Result<nat>)
      modifies this
      ensures objects == old(objects) && listensTo == old(listensTo) && heads == old(heads)
      ensures (Current(), r) == Registered(old(Current()), id, emits, c)
    {
      match c {
        case Threw(e) =>
          r := Err(e);
        case Pending(d) =>
          tasks := tasks + [Task(id, emits, WaitingOn(d.generation))];
          r := Ok(|tasks| - 1);
        case Ready(d, v) =>
          var promise := |tasks|;
          Resolve(id, d.generation, v);
          tasks := tasks + [Task(id, emits, Queued(v))];
          queue := queue + [promise];
          r := Ok(promise);
      }
      SameStates();
    }

    /** The node states do not change when only the fields of the stream do. */
    twostate lemma SameStates()
      requires objects == old(objects)
      requires forall id | id in objects :: unchanged(objects[id])
      ensures States() == old(States())
    {
    }

    /** Node `id` consumes `message`; no other node changes. */
    method ConsumeAt(id: Id, message: Value, flush: bool) returns (c: Consumed)
      requires Keyed() && id in objects
      modifies objects[id]
      ensures var step := ConsumeStep(objects[id].hooks, old(objects[id].State()), message, flush);
              c == step.1 && States() == old(States())[id := step.0]
    {
      var worker := objects[id];
      c := worker.Consume(message, flush);
      OnlyOneChanged(id);
    }

    /** A change to node `id` alone shows in the states under `id` alone. */
    twostate lemma OnlyOneChanged(id: Id)
      requires Keyed() && id in objects && unchanged(this)
      requires forall other | other in objects && other != id :: unchanged(objects[other])
      ensures States() == old(States())[id := objects[id].State()]
    {
      forall other | other in objects && other != id
        ensures objects[other].State() == old(States())[other]
      {
      }
    }

    /**
     * Resolving deferred `gen` of node `id` with `v`: the continuations
     * waiting on it are scheduled, in the order they were registered.
     */
    method Resolve(id: Id, gen: nat, v: Value)
      modifies this
      ensures objects == old(objects) && listensTo == old(listensTo) && heads == old(heads)
      ensures tasks == Wake(old(tasks), id, gen, v)
      ensures queue == old(queue) + Waiters(old(tasks), id, gen)
    {
      ghost var ts := tasks;
      for i := 0 to |tasks|
        invariant objects == old(objects) && listensTo == old(listensTo) && heads == old(heads)
        invariant |tasks| == |ts|
        invariant forall t | 0 <= t < |ts| ::
                    tasks[t] == if t < i && Awaits(ts[t], id, gen) then ts[t].(status := Queued(v)) else ts[t]
        invariant queue == old(queue) + Waiters(ts[..i], id, gen)
      {
        assert ts[..i + 1][..i] == ts[..i];
        if Awaits(tasks[i], id, gen) {
          tasks := tasks[i := tasks[i].(status := Queued(v))];
          queue := queue + [i];
        }
      }
      assert ts[..|ts|] == ts;
      WakeAt(ts, id, gen, v);
    }

    /**
     * One turn of the job queue: the first scheduled continuation hands the
     * value its deferred was resolved with to every listener of its node's
     * emit type, and its promise settles on what that loop did.
     */
    method RunJob()
      requires Valid() && queue != []
      modifies this, objects.Values
      ensures Valid()
      ensures objects == old(objects) && listensTo == old(listensTo) && heads == old(heads)
      ensures Current() == JobStep(Topology(), old(Current()))
    {
      ValidInv();
      ghost var g, w := Topology(), Current();
      JobKeeps(g, w);
      var t := queue[0];
      var task := tasks[t];
      label start:
      queue := queue[1..];
      SameStates@start();
      assert Current() == w.(queue := w.queue[1..]);
      var launched := Dispatch(Bucket(task.emits), task.status.value, false);
      assert (Current(), launched) == JobRun(g, w);
      label ran:
      match launched {
        case Aborted(e) => tasks := tasks[t := task.(status := Failed(e))];
        case Started(cs) => tasks := tasks[t := task.(status := Ran(cs))];
      }
      SameStates@ran();
      assert Current() == JobStep(g, w);
      JobFrame(g, w);
    }

    /**
     * The job queue run until it is empty. The routing graph must have no
     * cycle for this to end, which `rank` witnesses.
     */
    method RunJobs(ghost rank: map<MsgType, nat>)
      requires Valid() && Ranked(Topology(), rank)
      modifies this, objects.Values
      ensures Valid() && queue == []
      ensures objects == old(objects) && listensTo == old(listensTo) && heads == old(heads)
      ensures Current() == Drain(Topology(), old(Current()), rank)
    {
      ValidInv();
      while queue != []
        invariant Valid()
        invariant objects == old(objects) && listensTo == old(listensTo) && heads == old(heads)
        invariant Drain(Topology(), Current(), rank) == Drain(Topology(), old(Current()), rank)
        decreases Mass(Topology(), rank, tasks)
      {
        ValidInv();
        JobLowersMass(Topology(), rank, Current());
        RunJob();
      }
    }
  }
}
