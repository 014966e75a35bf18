/**
 * A worked run of the stream engine: two nodes that pass every message on
 * at once feed one node that batches two messages.
 */
module Scenarios {
  import opened Values
  import opened Nodes
  import opened Streams

  /** Nodes "a" and "b" listen on "t" and emit on "u"; node "x" listens on "u" and emits batches of two on "v". */
  function Diamond(): Graph {
    Graph(map["a" := NodeDef("a", "t", "u", BatchHooks(1)),
              "b" := NodeDef("b", "t", "u", BatchHooks(1)),
              "x" := NodeDef("x", "u", "v", BatchHooks(2))],
          map["t" := ["a", "b"], "u" := ["x"]])
  }

  /** A node that has buffered nothing. */
  function Idle(gen: nat): NodeState {
    NodeState(Self(Null, map[]), true, Deferred(gen))
  }

  /** Every node idle, no promise made yet. */
  function Start(): World {
    World(map["a" := Idle(0), "b" := Idle(0), "x" := Idle(0)], [], [])
  }

  /** "t" ranks above "u", and nothing listens on "v". */
  function DiamondRank(): map<MsgType, nat> {
    map["t" := 1, "u" := 0]
  }

  /** The message pushed. */
  const M := Num(1)

  lemma PassOn()
    ensures ConsumeStep(BatchHooks(1), Idle(0), M, false) == (Idle(1), Ready(Deferred(0), Arr([M])))
  {
  }

  lemma FirstOfTwo()
    ensures ConsumeStep(BatchHooks(2), Idle(0), Arr([M]), false)
            == (NodeState(Self(Arr([Arr([M])]), map[]), true, Deferred(0)), Pending(Deferred(0)))
  {
  }

  lemma SecondOfTwo()
    ensures ConsumeStep(BatchHooks(2), Holding(), Arr([M]), false) == (Idle(1), Ready(Deferred(0), Batch()))
  {
    assert [Arr([M])] + [Arr([M])] == [Arr([M]), Arr([M])];
  }

  /** "x" holding one message. */
  function Holding(): NodeState {
    NodeState(Self(Arr([Arr([M])]), map[]), true, Deferred(0))
  }

  /** What "a" and "b" emit. */
  function Passed(): Value {
    Arr([M])
  }

  /** What "x" emits. */
  function Batch(): Value {
    Arr([Passed(), Passed()])
  }

  /** Right after the push: both branches are scheduled. */
  function W1(): World {
    World(map["a" := Idle(1), "b" := Idle(1), "x" := Idle(0)],
          [Task("a", "u", Queued(Passed())), Task("b", "u", Queued(Passed()))], [0, 1])
  }

  /** After the first turn: "x" holds one message, and the call that gave it waits. */
  function W2(): World {
    World(map["a" := Idle(1), "b" := Idle(1), "x" := Holding()],
          [Task("a", "u", Ran([2])), Task("b", "u", Queued(Passed())), Task("x", "v", WaitingOn(0))], [1])
  }

  /** After the second turn: "x" has emitted, and both its calls are scheduled, the waiting one first. */
  function W3(): World {
    World(map["a" := Idle(1), "b" := Idle(1), "x" := Idle(1)],
          [Task("a", "u", Ran([2])), Task("b", "u", Ran([3])), Task("x", "v", Queued(Batch())),
           Task("x", "v", Queued(Batch()))], [2, 3])
  }

  /** After the third turn: the continuation of the first call to "x" has run, and nothing listens on "v". */
  function W4(): World {
    World(W3().nodes,
          [Task("a", "u", Ran([2])), Task("b", "u", Ran([3])), Task("x", "v", Ran([])),
           Task("x", "v", Queued(Batch()))], [3])
  }

  /** Once the queue is empty: every continuation has run. */
  function W5(): World {
    World(W3().nodes,
          [Task("a", "u", Ran([2])), Task("b", "u", Ran([3])), Task("x", "v", Ran([])), Task("x", "v", Ran([]))], [])
  }

  lemma DiamondRanked()
    ensures Ranked(Diamond(), DiamondRank())
  {
    assert Listeners(Diamond(), "t") == ["a", "b"] && Listeners(Diamond(), "u") == ["x"];
  }

  /** A node that emits with no call waiting on it schedules only the new call's continuation. */
  lemma NoneWaiting(w: World, id: Id, emits: MsgType, d: Deferred, v: Value)
    requires forall t | 0 <= t < |w.tasks| :: !Awaits(w.tasks[t], id, d.generation)
    ensures Registered(w, id, emits, Ready(d, v))
            == (w.(tasks := w.tasks + [Task(id, emits, Queued(v))], queue := w.queue + [|w.tasks|]), Ok(|w.tasks|))
  {
    assert Wake(w.tasks, id, d.generation, v) == w.tasks;
    NoWaiters(w.tasks, id, d.generation);
    assert w.queue + [] == w.queue;
  }

  lemma NoWaiters(ts: seq<Task>, id: Id, gen: nat)
    requires forall t | 0 <= t < |ts| :: !Awaits(ts[t], id, gen)
    ensures Waiters(ts, id, gen) == []
  {
  }

  /** After "a" took the message in. */
  function Wa(): World {
    World(map["a" := Idle(1), "b" := Idle(0), "x" := Idle(0)], [Task("a", "u", Queued(Passed()))], [0])
  }

  /** During the first turn, once "x" has left its call pending. */
  function Held(): World {
    World(W2().nodes, W1().tasks + [Task("x", "v", WaitingOn(0))], [1])
  }

  /** During the second turn, once "x" has emitted. */
  function Emitted(): World {
    World(W3().nodes, W2().tasks[2 := Task("x", "v", Queued(Batch()))] + [Task("x", "v", Queued(Batch()))], [2, 3])
  }

  lemma ProcessA()
    ensures ProcessStep(Diamond(), Start(), "a", M, false) == (Wa(), Ok(0))
  {
    var g, w := Diamond(), Start();
    PassOn();
    NoneWaiting(w.(nodes := Wa().nodes), "a", "u", Deferred(0), Passed());
    assert w.nodes["a"] == Idle(0) && g.defs["a"] == NodeDef("a", "t", "u", BatchHooks(1));
    assert w.nodes["a" := Idle(1)] == Wa().nodes;
    assert [] + [Task("a", "u", Queued(Passed()))] == Wa().tasks;
    assert [] + [0] == [0];
    assert Registered(w.(nodes := Wa().nodes), "a", "u", Ready(Deferred(0), Passed())) == (Wa(), Ok(0));
  }

  lemma ProcessB()
    ensures ProcessStep(Diamond(), Wa(), "b", M, false) == (W1(), Ok(1))
  {
    var g, w := Diamond(), Wa();
    PassOn();
    NoneWaiting(w.(nodes := W1().nodes), "b", "u", Deferred(0), Passed());
    assert w.nodes["b"] == Idle(0) && g.defs["b"] == NodeDef("b", "t", "u", BatchHooks(1));
    assert w.nodes["b" := Idle(1)] == W1().nodes;
    assert Wa().tasks + [Task("b", "u", Queued(Passed()))] == W1().tasks;
    assert [0] + [1] == [0, 1];
    assert Registered(w.(nodes := W1().nodes), "b", "u", Ready(Deferred(0), Passed())) == (W1(), Ok(1));
  }

  lemma SpawnA()
    ensures SpawnStep(Diamond(), Start(), ["a"], M, false) == (Wa(), Started([0]))
  {
    var g, w := Diamond(), Start();
    ProcessA();
    assert ["a"][..0] == [];
    assert SpawnStep(g, w, [], M, false) == (w, Started([]));
  }

  lemma SpawnAB()
    ensures SpawnStep(Diamond(), Start(), ["a", "b"], M, false) == (W1(), Started([0, 1]))
  {
    SpawnA();
    ProcessB();
    assert ["a", "b"][..1] == ["a"];
    assert [0] + [1] == [0, 1];
  }

  lemma PushTurn()
    ensures PushStep(Diamond(), Start(), "t", M) == (W1(), Returned([0, 1]))
  {
    SpawnAB();
    assert Listeners(Diamond(), "t") == ["a", "b"];
  }

  lemma FirstKeeps()
    ensures Routable(Diamond()) && Inv(Diamond(), W1())
  {
    var w := W1();
    assert w.nodes.Keys == Diamond().defs.Keys;
    assert w.tasks[0].status.Queued? && w.tasks[1].status.Queued?;
    assert w.queue[0] == 0 && w.queue[1] == 1;
  }

  lemma ProcessFirstX()
    ensures ProcessStep(Diamond(), W1().(queue := [1]), "x", Passed(), false) == (Held(), Ok(2))
  {
    var g, w := Diamond(), W1().(queue := [1]);
    FirstOfTwo();
    assert w.nodes["x"] == Idle(0) && g.defs["x"] == NodeDef("x", "u", "v", BatchHooks(2));
    assert w.nodes["x" := Holding()] == W2().nodes;
  }

  lemma FirstTurn()
    ensures Routable(Diamond()) && Inv(Diamond(), W1()) && JobStep(Diamond(), W1()) == W2()
  {
    FirstKeeps();
    ProcessFirstX();
    var g, w := Diamond(), W1();
    var popped := w.(queue := [1]);
    assert w.queue[1..] == [1];
    assert Listeners(g, "u") == ["x"];
    assert ["x"][..0] == [];
    assert SpawnStep(g, popped, [], Passed(), false) == (popped, Started([]));
    assert SpawnStep(g, popped, ["x"], Passed(), false) == (Held(), Started([] + [2]));
    assert w.tasks[w.queue[0]] == Task("a", "u", Queued(Passed()));
    assert [] + [2] == [2];
    assert JobRun(g, w) == SpawnStep(g, popped, ["x"], Passed(), false);
  }

  lemma SecondKeeps()
    ensures Routable(Diamond()) && Inv(Diamond(), W2())
  {
    FirstTurn();
    JobKeeps(Diamond(), W1());
  }

  /** In the second turn, the call of the first turn is the one waiting on "x". */
  lemma SecondWake()
    ensures Waiters(W2().tasks, "x", 0) == [2]
    ensures Wake(W2().tasks, "x", 0, Batch()) == W2().tasks[2 := Task("x", "v", Queued(Batch()))]
  {
    var ts := W2().tasks;
    NoWaiters(ts[..2], "x", 0);
    assert ts[..3][..2] == ts[..2];
  }

  lemma ProcessSecondX()
    ensures ProcessStep(Diamond(), W2().(queue := []), "x", Passed(), false) == (Emitted(), Ok(3))
  {
    var g, w := Diamond(), W2().(queue := []);
    SecondOfTwo();
    assert w.nodes["x"] == Holding() && g.defs["x"] == NodeDef("x", "u", "v", BatchHooks(2));
    assert w.nodes["x" := Idle(1)] == W3().nodes;
    SecondWake();
    assert [] + [2] + [3] == [2, 3];
    assert Registered(w.(nodes := W3().nodes), "x", "v", Ready(Deferred(0), Batch())) == (Emitted(), Ok(3));
  }

  lemma SecondTurn()
    ensures Routable(Diamond()) && Inv(Diamond(), W2()) && JobStep(Diamond(), W2()) == W3()
  {
    SecondKeeps();
    ProcessSecondX();
    var g, w := Diamond(), W2();
    var popped := w.(queue := []);
    assert w.queue[1..] == [];
    assert Listeners(g, "u") == ["x"];
    assert ["x"][..0] == [];
    assert SpawnStep(g, popped, [], Passed(), false) == (popped, Started([]));
    assert SpawnStep(g, popped, ["x"], Passed(), false) == (Emitted(), Started([] + [3]));
    assert w.tasks[w.queue[0]] == Task("b", "u", Queued(Passed()));
    assert [] + [3] == [3];
    assert JobRun(g, w) == SpawnStep(g, popped, ["x"], Passed(), false);
  }

  lemma ThirdTurn()
    ensures Routable(Diamond()) && Inv(Diamond(), W3()) && JobStep(Diamond(), W3()) == W4()
  {
    SecondTurn();
    JobKeeps(Diamond(), W2());
    assert Listeners(Diamond(), "v") == [];
  }

  lemma LastTurn()
    ensures Routable(Diamond()) && Inv(Diamond(), W4()) && JobStep(Diamond(), W4()) == W5()
  {
    ThirdTurn();
    JobKeeps(Diamond(), W3());
    assert Listeners(Diamond(), "v") == [];
  }

  lemma DrainFourth()
    ensures Ranked(Diamond(), DiamondRank()) && Inv(Diamond(), W4())
    ensures Drain(Diamond(), W4(), DiamondRank()) == W5()
  {
    DiamondRanked();
    LastTurn();
    JobKeeps(Diamond(), W4());
    assert Drain(Diamond(), W5(), DiamondRank()) == W5();
  }

  lemma DrainThird()
    ensures Ranked(Diamond(), DiamondRank()) && Inv(Diamond(), W3())
    ensures Drain(Diamond(), W3(), DiamondRank()) == W5()
  {
    DrainFourth();
    ThirdTurn();
  }

  lemma DrainSecond()
    ensures Ranked(Diamond(), DiamondRank()) && Inv(Diamond(), W2())
    ensures Drain(Diamond(), W2(), DiamondRank()) == W5()
  {
    DrainThird();
    SecondTurn();
  }

  lemma DrainFirst()
    ensures Ranked(Diamond(), DiamondRank()) && Inv(Diamond(), W1())
    ensures Drain(Diamond(), W1(), DiamondRank()) == W5()
  {
    DrainSecond();
    FirstTurn();
  }

  lemma FirstWaiting()
    ensures Ordered(W1().tasks) && JoinOutcome(W1().tasks, [0, 1]) == Waiting
  {
    var ts := W1().tasks;
    assert TaskOutcome(ts, 0) == Waiting;
    assert seq(2, i requires 0 <= i < 2 => TaskOutcome(ts, [0, 1][i])) == [Waiting, Waiting];
  }

  lemma LastResolved()
    ensures Ordered(W5().tasks) && JoinOutcome(W5().tasks, [0, 1]) == Resolved
  {
    var ts := W5().tasks;
    assert ts == [Task("a", "u", Ran([2])), Task("b", "u", Ran([3])), Task("x", "v", Ran([])), Task("x", "v", Ran([]))];
    assert TaskOutcome(ts, 2) == Resolved && TaskOutcome(ts, 3) == Resolved;
    assert seq(1, i requires 0 <= i < 1 => TaskOutcome(ts, [2][i])) == [Resolved];
    assert seq(1, i requires 0 <= i < 1 => TaskOutcome(ts, [3][i])) == [Resolved];
    assert TaskOutcome(ts, 0) == Resolved && TaskOutcome(ts, 1) == Resolved;
    assert seq(2, i requires 0 <= i < 2 => TaskOutcome(ts, [0, 1][i])) == [Resolved, Resolved];
  }

  /**
   * A push on "t" hands the message to "a" and "b", which both emit at
   * once. The push returns before either branch has gone on: both wait on
   * the job queue, so the promise it returns is still waiting.
   */
  lemma DiamondPushWaits()
    ensures Routable(Diamond()) && PushStep(Diamond(), Start(), "t", M) == (W1(), Returned([0, 1]))
    ensures Inv(Diamond(), W1()) && JoinOutcome(W1().tasks, [0, 1]) == Waiting
  {
    PushTurn();
    FirstKeeps();
    FirstWaiting();
  }

  /**
   * The branches then reach "x": the first call leaves "x" pending, and the
   * second emits the batch, which schedules the first call's continuation
   * ahead of its own. Once the queue has run, the push's promise is
   * resolved and "x" has emitted both messages as one batch.
   */
  lemma DiamondDrainResolves()
    ensures Ranked(Diamond(), DiamondRank()) && Inv(Diamond(), W1())
    ensures Drain(Diamond(), W1(), DiamondRank()) == W5()
    ensures Ordered(W5().tasks) && JoinOutcome(W5().tasks, [0, 1]) == Resolved
    ensures W5().nodes["x"] == Idle(1)
  {
    DrainFirst();
    LastResolved();
  }
}
