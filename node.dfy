/**
 * One processing unit of a stream. A node folds the messages it consumes
 * into its buffered `results` and, when its `emitReady` hook says so or a
 * flush is forced, resolves its outstanding deferred with the value of its
 * `flush` hook and starts a fresh one.
 *
 * A promise is modelled by the node's deferred, named by a generation number:
 * the deferreds of one node are numbered in the order they are created. The
 * `then` continuations registered on a pending deferred are kept by the
 * stream that registered them.
 */
module Nodes {
  import opened Values

  type Id = string
  type MsgType = string

  /** One `Promise.defer()` of a node. */
  datatype Deferred = Deferred(generation: nat)

  /** What a hook sees as `this`: the buffered results and the node's own data fields. */
  datatype Self = Self(results: Value, locals: map<string, Value>)

  /** What a `flush` hook leaves behind and the value it emits. */
  datatype Emission = Emission(self: Self, value: Value)

  /**
   * The four overridable hooks of a node. A hook that throws is an `Err`;
   * a throwing hook leaves the node's fields as they were before it ran.
   */
  datatype Hooks = Hooks(
    init: Self -> Result<Self>,
    ingest: (Self, Value) -> Result<Self>,
    emitReady: Self -> Result<bool>,
    flush: Self -> Result<Emission>)

  /** The parts of a node that never change after it is built. */
  datatype NodeDef = NodeDef(identifier: Id, listenType: MsgType, emitType: MsgType, hooks: Hooks)

  /** The parts of a node that `consume` updates. */
  datatype NodeState = NodeState(self: Self, initted: bool, emitDeferred: Deferred)

  /** What `consume` hands back: the promise it returns, or the exception it lets escape. */
  datatype Consumed =
    | Ready(resolved: Deferred, value: Value)
    | Pending(outstanding: Deferred)
    | Threw(error: Error)

  const NOT_IMPLEMENTED := "ingest implementation not found"

  // The base hooks of Node.prototype.

  function DefaultInit(s: Self): Result<Self> { Ok(s) }

  function DefaultIngest(s: Self, message: Value): Result<Self> {
    Err(NotImplementedError(NOT_IMPLEMENTED))
  }

  function DefaultEmitReady(s: Self): Result<bool> { Ok(true) }

  function DefaultFlush(s: Self): Result<Emission> { Ok(Emission(s, s.results)) }

  /** The base hooks, as a node without overrides has them. */
  function DefaultHooks(): Hooks {
    Hooks(DefaultInit, DefaultIngest, DefaultEmitReady, DefaultFlush)
  }

  /** `init`, when it has not run yet. */
  function Initialise(h: Hooks, n: NodeState): Result<NodeState> {
    if n.initted then Ok(n)
    else match h.init(n.self) {
      case Ok(s) => Ok(n.(self := s, initted := true))
      case Err(e) => Err(e)
    }
  }

  /** `init` when needed, then `ingest` of a truthy message. */
  function Ingested(h: Hooks, n: NodeState, message: Value): Result<NodeState> {
    match Initialise(h, n) {
      case Err(e) => Err(e)
      case Ok(n1) =>
        if !Truthy(message) then Ok(n1)
        else match h.ingest(n1.self, message) {
          case Ok(s) => Ok(n1.(self := s))
          case Err(e) => Err(e)
        }
    }
  }

  /** `clear`: no buffered results, and a fresh deferred. */
  function Cleared(n: NodeState): (r: NodeState)
    ensures r.self.results == Null && r.self.locals == n.self.locals && r.initted == n.initted
    ensures r.emitDeferred.generation > n.emitDeferred.generation
  {
    n.(self := n.self.(results := Null),
       emitDeferred := Deferred(n.emitDeferred.generation + 1))
  }

  /**
   * `consume(message, flush)`: the new state of the node and what the call
   * returns or throws.
   */
  function ConsumeStep(h: Hooks, n: NodeState, message: Value, flush: bool): (r: (NodeState, Consumed))
    // the promise returned is that of the deferred held on entry
    ensures r.1.Pending? ==> r.1.outstanding == n.emitDeferred && r.0.emitDeferred == n.emitDeferred
    ensures r.1.Ready? ==> r.1.resolved == n.emitDeferred
    // the node moves to its next deferred exactly when it resolves one
    ensures r.0.emitDeferred.generation == n.emitDeferred.generation + (if r.1.Ready? then 1 else 0)
    // a forced call never leaves its promise pending
    ensures flush ==> !r.1.Pending?
  {
    match Ingested(h, n, message) {
      case Err(e) =>
        (if !n.initted && h.init(n.self).Ok? then n.(self := h.init(n.self).value, initted := true) else n,
         Threw(e))
      case Ok(n2) =>
        match h.emitReady(n2.self) {
          case Err(e) => (n2, Threw(e))
          case Ok(ready) =>
            if ready || flush then
              match h.flush(n2.self) {
                case Err(e) => (n2, Threw(e))
                case Ok(em) => (Cleared(n2.(self := em.self)), Ready(n2.emitDeferred, em.value))
              }
            else (n2, Pending(n2.emitDeferred))
        }
    }
  }

  /** What a call of `consume` promises, whatever the hooks do. */
  lemma ConsumeContract(h: Hooks, n: NodeState, message: Value, flush: bool, r: (NodeState, Consumed))
    requires r == ConsumeStep(h, n, message, flush)
    // init runs before anything else, and a throwing init leaves the node as it was
    ensures !n.initted && h.init(n.self).Err? ==> r == (n, Threw(h.init(n.self).error))
    // once init has run it never runs again
    ensures n.initted || h.init(n.self).Ok? ==> r.0.initted
    ensures n.initted ==> Initialise(h, n) == Ok(n)
    // a truthy message is ingested once, and a throwing ingest stops the call
    ensures n.initted && Truthy(message) && h.ingest(n.self, message).Err? ==>
              r == (n, Threw(h.ingest(n.self, message).error))
    // on a node not yet initialised, a throwing ingest leaves the node as init left it
    ensures Initialise(h, n).Ok? && Truthy(message) && h.ingest(Initialise(h, n).value.self, message).Err? ==>
              r == (Initialise(h, n).value, Threw(h.ingest(Initialise(h, n).value.self, message).error))
    ensures n.initted && Truthy(message) && h.ingest(n.self, message).Ok? && r.1.Pending? ==>
              r.0 == n.(self := h.ingest(n.self, message).value)
    // a falsy message is not ingested: a call that stays pending changes nothing
    ensures n.initted && !Truthy(message) && r.1.Pending? ==> r.0 == n
    // a forced flush never leaves the call pending
    ensures flush ==> !r.1.Pending?
    // once the message is taken in: emitReady() or a forced flush emits what flush() returns,
    // and otherwise the call stays pending on the same deferred; a throwing hook stops the call
    ensures Ingested(h, n, message).Ok? ==>
              var n2 := Ingested(h, n, message).value;
              && (h.emitReady(n2.self).Err? ==> r == (n2, Threw(h.emitReady(n2.self).error)))
              && (h.emitReady(n2.self).Ok? && !h.emitReady(n2.self).value && !flush ==>
                    r == (n2, Pending(n.emitDeferred)))
              && (h.emitReady(n2.self).Ok? && (h.emitReady(n2.self).value || flush) ==>
                    if h.flush(n2.self).Ok? then
                      r == (Cleared(n2.(self := h.flush(n2.self).value.self)),
                            Ready(n.emitDeferred, h.flush(n2.self).value.value))
                    else r == (n2, Threw(h.flush(n2.self).error)))
    // emitting resolves the deferred outstanding at entry, then clears the node
    ensures r.1.Ready? ==> r.1.resolved == n.emitDeferred
    ensures r.1.Ready? ==> r.0.self.results == Null
                           && r.0.emitDeferred == Deferred(n.emitDeferred.generation + 1)
    // a falsy message that is flushed emits what `flush` makes of the buffer
    ensures n.initted && !Truthy(message) && r.1.Ready? ==>
              h.flush(n.self).Ok? && r.1.value == h.flush(n.self).value.value
    // without an emission the same deferred stays outstanding
    ensures !r.1.Ready? ==> r.0.emitDeferred == n.emitDeferred
    ensures r.1.Pending? ==> r.1.outstanding == n.emitDeferred
  {
  }

  /**
   * A node that keeps the base `ingest` accepts no message: once `init` has
   * run (now or before), a truthy message makes `consume` throw
   * `NotImplementedError`, leaving the node as `init` left it.
   */
  lemma DefaultIngestThrows(h: Hooks, n: NodeState, message: Value, flush: bool)
    requires h.ingest == DefaultIngest && Truthy(message)
    requires n.initted || h.init(n.self).Ok?
    ensures ConsumeStep(h, n, message, flush)
              == (Initialise(h, n).value, Threw(NotImplementedError(NOT_IMPLEMENTED)))
  {
  }

  /**
   * With the base `emitReady` and `flush`, every call that gets past `ingest`
   * emits at once (a Bolt), and what it emits is the buffer `ingest` left.
   */
  lemma DefaultsMakeABolt(h: Hooks, n: NodeState, message: Value, flush: bool)
    requires h.emitReady == DefaultEmitReady && h.flush == DefaultFlush
    ensures var r := ConsumeStep(h, n, message, flush);
            !r.1.Pending?
            && (Ingested(h, n, message).Ok? ==>
                  r.1 == Ready(n.emitDeferred, Ingested(h, n, message).value.self.results))
  {
  }

  // --- Nodes as objects -------------------------------------------------------

  /**
   * A node as the engine holds it: the identifier, the two message types and
   * the hooks are fixed; `results`, the own data fields, `initted` and the
   * outstanding deferred change as it consumes.
   */
  class Node {
    const identifier: Id
    const listenType: MsgType
    const emitType: MsgType
    const hooks: Hooks
    var results: Value
    var locals: map<string, Value>
    var initted: bool
    var emitDeferred: Deferred

    function Def(): NodeDef {
      NodeDef(identifier, listenType, emitType, hooks)
    }

    function State(): NodeState
      reads this
    {
      NodeState(Self(results, locals), initted, emitDeferred)
    }

    constructor (def: NodeDef, state: NodeState)
      ensures Def() == def && State() == state
    {
      identifier, listenType, emitType, hooks := def.identifier, def.listenType, def.emitType, def.hooks;
      results, locals := state.self.results, state.self.locals;
      initted, emitDeferred := state.initted, state.emitDeferred;
    }

    /** `clear`: drop the buffered results and install a fresh deferred. */
    method Clear()
      modifies this
      ensures State() == Cleared(old(State()))
    {
      results := Null;
      emitDeferred := Deferred(emitDeferred.generation + 1);
    }

    /** `consume(message, flush)`. */
    method Consume(message: Value, flush: bool) returns (r: Consumed)
      modifies this
      ensures (State(), r) == ConsumeStep(hooks, old(State()), message, flush)
    {
      if !initted {
        var s := hooks.init(Self(results, locals));
        if s.Err? {
          return Threw(s.error);
        }
        results, locals := s.value.results, s.value.locals;
        initted := true;
      }
      if Truthy(message) {
        var s := hooks.ingest(Self(results, locals), message);
        if s.Err? {
          return Threw(s.error);
        }
        results, locals := s.value.results, s.value.locals;
      }
      var ready := hooks.emitReady(Self(results, locals));
      if ready.Err? {
        return Threw(ready.error);
      }
      if ready.value || flush {
        var deferred := emitDeferred;
        var emitted := hooks.flush(Self(results, locals));
        if emitted.Err? {
          return Threw(emitted.error);
        }
        results, locals := emitted.value.self.results, emitted.value.self.locals;
        // the deferred is resolved with the emitted value before the node is cleared
        Clear();
        return Ready(deferred, emitted.value.value);
      }
      r := Pending(emitDeferred);
    }
  }

  // --- Building nodes -----------------------------------------------------------

  /**
   * The options map of `createNode`: the identifier, the two message types,
   * and the hooks it overrides.
   */
  datatype Options = Options(
    identifier: Id,
    listenType: MsgType,
    emitType: MsgType,
    init: Option<Self -> Result<Self>>,
    ingest: Option<(Self, Value) -> Result<Self>>,
    emitReady: Option<Self -> Result<bool>>,
    flush: Option<Self -> Result<Emission>>)

  /** The own fields of a node that are not data the hooks see. */
  const RESERVED: set<string> := {"results", "initted"}

  /**
   * `createNode(options, locals)`: every hook given in `options` replaces the
   * base one, every key of `locals` becomes an own field (so `locals` may set
   * the initial `results`, or even `initted`), and the node starts with a
   * fresh deferred nobody waits on.
   */
  method CreateNode(options: Options, locals: map<string, Value>) returns (n: Node)
    ensures fresh(n)
    ensures n.identifier == options.identifier
    ensures n.listenType == options.listenType && n.emitType == options.emitType
    ensures n.hooks.init == (if options.init.Some? then options.init.value else DefaultInit)
    ensures n.hooks.ingest == (if options.ingest.Some? then options.ingest.value else DefaultIngest)
    ensures n.hooks.emitReady == (if options.emitReady.Some? then options.emitReady.value else DefaultEmitReady)
    ensures n.hooks.flush == (if options.flush.Some? then options.flush.value else DefaultFlush)
    ensures n.results == (if "results" in locals then locals["results"] else Null)
    ensures n.initted == ("initted" in locals && Truthy(locals["initted"]))
    ensures forall k | k in locals && k !in RESERVED :: k in n.locals && n.locals[k] == locals[k]
    ensures forall k | k in n.locals :: k in locals && k !in RESERVED
    ensures n.emitDeferred == Deferred(0)
  {
    var hooks := DefaultHooks();
    if options.init.Some? { hooks := hooks.(init := options.init.value); }
    if options.ingest.Some? { hooks := hooks.(ingest := options.ingest.value); }
    if options.emitReady.Some? { hooks := hooks.(emitReady := options.emitReady.value); }
    if options.flush.Some? { hooks := hooks.(flush := options.flush.value); }
    var results := if "results" in locals then locals["results"] else Null;
    var initted := "initted" in locals && Truthy(locals["initted"]);
    var own := locals - RESERVED;
    n := new Node(NodeDef(options.identifier, options.listenType, options.emitType, hooks),
                  NodeState(Self(results, own), initted, Deferred(0)));
  }

  /**
   * `new Node(identifier, listenType, emitType)` as written: it reads the
   * undeclared names `listens` and `emits`, so it throws a ReferenceError
   * before any node exists, whatever its arguments.
   */
  function ConstructAsWritten(identifier: Id, listenType: MsgType, emitType: MsgType): (r: Result<(NodeDef, NodeState)>)
    ensures r.Err? && r.error.ReferenceError?
  {
    Err(ReferenceError("listens"))
  }

  /**
   * `new Node(identifier, listenType, emitType)` as intended: a node that
   * listens and emits on the given types, with the base hooks, nothing
   * buffered, not yet initialised, and a fresh deferred.
   */
  function Construct(identifier: Id, listenType: MsgType, emitType: MsgType): (r: (NodeDef, NodeState))
    ensures r.0.identifier == identifier && r.0.listenType == listenType && r.0.emitType == emitType
    ensures r.0.hooks == DefaultHooks()
    ensures r.1.self.results == Null && !r.1.initted && r.1.emitDeferred == Deferred(0)
    ensures forall m | Truthy(m) :: ConsumeStep(r.0.hooks, r.1, m, false).1.Threw?
  {
    (NodeDef(identifier, listenType, emitType, DefaultHooks()),
     NodeState(Self(Null, map[]), false, Deferred(0)))
  }

  // --- A Spout --------------------------------------------------------------------

  /** Appends a message to an array buffer (a null buffer counts as empty). */
  function Append(buffer: Value, message: Value): Value {
    match buffer
    case Arr(items) => Arr(items + [message])
    case _ => Arr([message])
  }

  /** The number of messages in an array buffer. */
  function Buffered(buffer: Value): nat {
    match buffer
    case Arr(items) => |items|
    case _ => 0
  }

  /** A Spout that buffers messages in `results` and emits them as one batch of `size`. */
  function BatchHooks(size: nat): Hooks {
    DefaultHooks().(
      ingest := (s: Self, m: Value) => Ok(s.(results := Append(s.results, m))),
      emitReady := (s: Self) => Ok(Buffered(s.results) >= size))
  }

  /** Consumes the messages one after another, collecting what each call returns. */
  function ConsumeAll(h: Hooks, n: NodeState, messages: seq<Value>): (r: (NodeState, seq<Consumed>))
    ensures |r.1| == |messages|
  {
    if messages == [] then (n, [])
    else
      var before := ConsumeAll(h, n, messages[..|messages| - 1]);
      var last := ConsumeStep(h, before.0, messages[|messages| - 1], false);
      (last.0, before.1 + [last.1])
  }

  /**
   * A batch Spout stays pending on one and the same deferred while it holds
   * fewer than `size` messages, buffering each of them.
   */
  lemma {:induction false} SpoutBuffers(size: nat, n: NodeState, messages: seq<Value>)
    requires n.initted && n.self.results == Null
    requires |messages| < size
    requires forall i | 0 <= i < |messages| :: Truthy(messages[i])
    ensures var r := ConsumeAll(BatchHooks(size), n, messages);
            r.0 == n.(self := n.self.(results := if messages == [] then Null else Arr(messages)))
            && forall i | 0 <= i < |messages| :: r.1[i] == Pending(n.emitDeferred)
  {
    if messages != [] {
      var prefix := messages[..|messages| - 1];
      SpoutBuffers(size, n, prefix);
      var before := ConsumeAll(BatchHooks(size), n, prefix);
      var m := messages[|messages| - 1];
      assert Append(before.0.self.results, m) == Arr(messages) by {
        assert prefix + [m] == messages;
      }
      BatchHolds(size, before.0, m);
    }
  }

  /** The message that completes a batch resolves the deferred with the whole batch. */
  lemma {:induction false} SpoutEmitsBatch(size: nat, n: NodeState, messages: seq<Value>)
    requires n.initted && n.self.results == Null
    requires 0 < |messages| == size
    requires forall i | 0 <= i < |messages| :: Truthy(messages[i])
    ensures var r := ConsumeAll(BatchHooks(size), n, messages);
            r.1[size - 1] == Ready(n.emitDeferred, Arr(messages))
            && r.0.self.results == Null
            && r.0.emitDeferred == Deferred(n.emitDeferred.generation + 1)
  {
    var h := BatchHooks(size);
    var prefix := messages[..size - 1];
    var m := messages[size - 1];
    SpoutBuffers(size, n, prefix);
    var before := ConsumeAll(h, n, prefix);
    assert Append(before.0.self.results, m) == Arr(messages) by {
      assert prefix + [m] == messages;
    }
    BatchCompletes(size, before.0, m);
    ConsumeAllLast(h, n, messages);
  }

  /** Consuming a run of messages is consuming all but the last, then the last. */
  lemma {:induction false} ConsumeAllLast(h: Hooks, n: NodeState, messages: seq<Value>)
    requires messages != []
    ensures var before := ConsumeAll(h, n, messages[..|messages| - 1]);
            var last := ConsumeStep(h, before.0, messages[|messages| - 1], false);
            ConsumeAll(h, n, messages) == (last.0, before.1 + [last.1])
  {
  }

  /** A message that leaves the buffer short of the batch size is buffered, and the call stays pending. */
  lemma BatchHolds(size: nat, n: NodeState, m: Value)
    requires n.initted && Truthy(m) && Buffered(Append(n.self.results, m)) < size
    ensures ConsumeStep(BatchHooks(size), n, m, false)
              == (n.(self := n.self.(results := Append(n.self.results, m))), Pending(n.emitDeferred))
  {
  }

  /** A message that brings the buffer up to the batch size makes the Spout emit the buffer. */
  lemma BatchCompletes(size: nat, n: NodeState, m: Value)
    requires n.initted && Truthy(m) && Buffered(Append(n.self.results, m)) >= size
    ensures var full := Append(n.self.results, m);
            ConsumeStep(BatchHooks(size), n, m, false)
              == (Cleared(n.(self := n.self.(results := full))), Ready(n.emitDeferred, full))
  {
  }

}
