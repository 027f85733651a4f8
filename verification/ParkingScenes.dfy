/** Runs that strand a task because a scan does not look at every group, and a run in which a worker blocks
    although its lot was signalled. No queue of these runs ever holds more than one task. */
module ParkingScenes {
  import opened Parking

  ghost predicate Light(s: State) {
    forall q {:trigger s.queues[q]} :: q in s.queues ==> |s.queues[q]| <= 1
  }

  ghost predicate LightRun(s: State, es: seq<Event>)
    requires Executable(s, es)
    decreases |es|
  {
    Light(s) && (es != [] ==> LightRun(Step(s, es[0]), es[1..]))
  }

  ghost predicate Path(s: State, es: seq<Event>, s': State) {
    Executable(s, es) && LightRun(s, es) && After(s, es) == s'
  }

  /** Some run with at most one task in each queue ends in state `s`. */
  ghost predicate Occurs(s: State) {
    exists s0, es :: Init(s0) && Path(s0, es, s)
  }

  lemma {:induction false} Join(s: State, es: seq<Event>, s1: State, more: seq<Event>, s2: State)
    requires Path(s, es, s1) && Path(s1, more, s2)
    ensures Path(s, es + more, s2)
    decreases |es|
  {
    if es == [] {
      assert es + more == more;
    } else {
      Join(Step(s, es[0]), es[1..], s1, more, s2);
      assert (es + more)[1..] == es[1..] + more;
    }
  }

  /** The run `es` from `s` to `s1` goes on with the event `e`. */
  lemma Then(s: State, es: seq<Event>, s1: State, e: Event, s2: State) returns (longer: seq<Event>)
    requires Path(s, es, s1) && Light(s1) && Enabled(s1, e) && Step(s1, e) == s2 && Light(s2)
    ensures Path(s, longer, s2)
  {
    assert [e][1..] == [];
    Join(s, es, s1, [e], s2);
    longer := es + [e];
  }

  // ---------- 2^31 signals between saving the state and waiting ----------

  function DuoQueues(rq: seq<Task>, remote: seq<Task>): map<Queue, seq<Task>> {
    map[Rq(0) := [], Remote(0) := [], Rq(1) := rq, Remote(1) := remote]
  }

  lemma DuoQueuesSet(rq: seq<Task>, remote: seq<Task>, x: seq<Task>)
    ensures DuoQueues(rq, remote)[Rq(1) := x] == DuoQueues(x, remote)
    ensures DuoQueues(rq, remote)[Remote(1) := x] == DuoQueues(rq, x)
  {}

  function DuoQuiet(): map<Queue, nat> {
    map[Rq(0) := 0, Remote(0) := 0, Rq(1) := 0, Remote(1) := 0]
  }

  /** Worker 1 holds up to one task in its run queue or its remote queue; worker 0 is in another lot. */
  function Duo(pc0: Pc, pc1: Pc, rq: seq<Task>, remote: seq<Task>, lots: seq<nat>, calls: map<nat, Call>): State {
    State([Worker(pc0, 0, 0, 1, 0), Worker(pc1, 0, 0, 1, 1)], DuoQueues(rq, remote), DuoQuiet(), lots, calls)
  }

  /** The lots while a call that started at lot 0 has signalled the first `k` of them. */
  function Levels(m: nat, k: nat): (lots: seq<nat>)
    ensures |lots| == PARKING_LOT_NUM
  {
    seq(PARKING_LOT_NUM, i => if i < k then m + 1 else m)
  }

  function Progress(k: nat): map<nat, Call> {
    if k < PARKING_LOT_NUM then map[0 := Call(1, 0, k, false)] else map[]
  }

  /** Nobody is blocked: a call signals lot `k` and goes on. */
  lemma SignalLot(pc1: Pc, rq: seq<Task>, remote: seq<Task>, m: nat, k: nat) returns (es: seq<Event>)
    requires k < PARKING_LOT_NUM && !pc1.Blocked? && |rq| <= 1 && |remote| <= 1
    ensures Path(Duo(Wait, pc1, rq, remote, Levels(m, k), Progress(k)), es,
                 Duo(Wait, pc1, rq, remote, Levels(m, k + 1), Progress(k + 1)))
  {
    var s := Duo(Wait, pc1, rq, remote, Levels(m, k), map[0 := Call(1, 0, k, false)]);
    var s1 := Duo(Wait, pc1, rq, remote, Levels(m, k + 1), map[0 := Call(1, 0, k, true)]);
    var s2 := Duo(Wait, pc1, rq, remote, Levels(m, k + 1), Progress(k + 1));
    assert Levels(m, k)[k := Levels(m, k)[k] + 1] == Levels(m, k + 1);
    assert s.calls[0 := Call(1, 0, k, true)] == s1.calls;
    assert Step(s, Bump(0)) == s1;
    assert s1.calls - {0} == map[];
    assert s1.calls[0 := Call(1, 0, k + 1, false)] == map[0 := Call(1, 0, k + 1, false)];
    assert Step(s1, WakeNone(0)) == s2;
    es := Then(s, [], s, Bump(0), s1);
    es := Then(s, es, s1, WakeNone(0), s2);
  }

  lemma {:induction false} SignalLots(pc1: Pc, rq: seq<Task>, remote: seq<Task>, m: nat, k: nat)
    returns (es: seq<Event>)
    requires k <= PARKING_LOT_NUM && !pc1.Blocked? && |rq| <= 1 && |remote| <= 1
    ensures Path(Duo(Wait, pc1, rq, remote, Levels(m, k), Progress(k)), es,
                 Duo(Wait, pc1, rq, remote, Levels(m + 1, 0), map[]))
    decreases PARKING_LOT_NUM - k
  {
    if k < PARKING_LOT_NUM {
      var first := SignalLot(pc1, rq, remote, m, k);
      var rest := SignalLots(pc1, rq, remote, m, k + 1);
      es := first + rest;
      Join(Duo(Wait, pc1, rq, remote, Levels(m, k), Progress(k)), first,
           Duo(Wait, pc1, rq, remote, Levels(m, k + 1), Progress(k + 1)), rest,
           Duo(Wait, pc1, rq, remote, Levels(m + 1, 0), map[]));
    } else {
      assert Levels(m, k) == Levels(m + 1, 0);
      es := [];
    }
  }

  /** Worker 1 runs a task, and `rq` is in its run queue; every lot was signalled `m` times. */
  function Working(rq: seq<Task>, m: nat): State {
    Duo(Wait, Busy, rq, [], Levels(m, 0), map[])
  }

  /** Either worker 1 pushes to its run queue, or somebody to its remote queue. */
  predicate Pushed(pc1: Pc, q: Queue, rq: seq<Task>, remote: seq<Task>) {
    || (pc1 == Busy && q == Rq(1) && rq == [0] && remote == [])
    || (pc1 == Wait && q == Remote(1) && rq == [] && remote == [0])
  }

  lemma PushStep(pc1: Pc, q: Queue, rq: seq<Task>, remote: seq<Task>, m: nat)
    requires Pushed(pc1, q, rq, remote)
    ensures var s := Duo(Wait, pc1, [], [], Levels(m, 0), map[]);
            && Enabled(s, PushSignal(q, 0, 0, 0))
            && Step(s, PushSignal(q, 0, 0, 0)) == Duo(Wait, pc1, rq, remote, Levels(m, 0), Progress(0))
  {
    var s := Duo(Wait, pc1, [], [], Levels(m, 0), map[]);
    DuoQueuesSet([], [], [0]);
    assert s.queues[q] + [0] == [0];
    assert s.quiet[q := 0] == DuoQuiet();
    assert s.calls[0 := Call(1, 0, 0, false)] == Progress(0);
  }

  /** A task is pushed and all lots are signalled. */
  lemma PushAndSignal(pc1: Pc, q: Queue, rq: seq<Task>, remote: seq<Task>, m: nat) returns (es: seq<Event>)
    requires Pushed(pc1, q, rq, remote)
    ensures Path(Duo(Wait, pc1, [], [], Levels(m, 0), map[]), es, Duo(Wait, pc1, rq, remote, Levels(m + 1, 0), map[]))
  {
    var s := Duo(Wait, pc1, [], [], Levels(m, 0), map[]);
    var s1 := Duo(Wait, pc1, rq, remote, Levels(m, 0), Progress(0));
    PushStep(pc1, q, rq, remote, m);
    var push := Then(s, [], s, PushSignal(q, 0, 0, 0), s1);
    var rest := SignalLots(pc1, rq, remote, m, 0);
    Join(s, push, s1, rest, Duo(Wait, pc1, rq, remote, Levels(m + 1, 0), map[]));
    es := push + rest;
  }

  /** Worker 1 pushes a task, with a signal... */
  lemma PushOwn(m: nat) returns (es: seq<Event>)
    ensures Path(Working([], m), es, Working([0], m + 1))
  {
    es := PushAndSignal(Busy, Rq(1), [0], [], m);
  }

  /** ...and takes it after the task it runs. */
  lemma PopOwnTask(m: nat) returns (es: seq<Event>)
    ensures Path(Working([0], m), es, Working([], m))
  {
    var s := Working([0], m);
    var s1 := Duo(Wait, PopOwn, [0], [], Levels(m, 0), map[]);
    DuoQueuesSet([0], [], [0][..0]);
    es := Then(s, [], s, Finish(1), s1);
    es := Then(s, es, s1, TryOwn(1), Working([], m));
  }

  function Start(): State {
    Duo(Wait, Wait, [], [], Levels(0, 0), map[])
  }

  lemma StartInit()
    ensures Init(Start())
  {
    assert Levels(0, 0) == [0, 0, 0, 0];
  }

  lemma TakeSteps()
    ensures var s2 := Duo(Wait, Wait, [], [0], Levels(1, 0), map[]);
            var s3 := Duo(Wait, PopRemote, [], [0], Levels(1, 0), map[]);
            && Enabled(s2, EnterWait(1)) && Step(s2, EnterWait(1)) == s3
            && Enabled(s3, TryRemote(1)) && Step(s3, TryRemote(1)) == Working([], 1)
  {
    DuoQueuesSet([], [0], [0][1..]);
  }

  /** Worker 1 gets its first task from outside. */
  lemma FirstTask() returns (es: seq<Event>)
    ensures Path(Start(), es, Working([], 1))
  {
    es := PushAndSignal(Wait, Remote(1), [], [0], 0);
    var s2 := Duo(Wait, Wait, [], [0], Levels(1, 0), map[]);
    var s3 := Duo(Wait, PopRemote, [], [0], Levels(1, 0), map[]);
    TakeSteps();
    es := Then(Start(), es, s2, EnterWait(1), s3);
    es := Then(Start(), es, s3, TryRemote(1), Working([], 1));
  }

  lemma {:induction false} ManyOwnTasks(m: nat) returns (es: seq<Event>)
    requires m > 0
    ensures Path(Start(), es, Working([], m))
  {
    if m == 1 {
      es := FirstTask();
    } else {
      es := ManyOwnTasks(m - 1);
      var push := PushOwn(m - 1);
      var pop := PopOwnTask(m);
      Join(Start(), es, Working([], m - 1), push, Working([0], m));
      Join(Start(), es + push, Working([0], m), pop, Working([], m));
      es := es + push + pop;
    }
  }

  lemma BlocksAfter(m: nat)
    requires m % SIGNAL_MODULUS == 0
    ensures Enabled(Working([0], m), EnterWait(0))
    ensures Step(Working([0], m), EnterWait(0)) == Duo(Blocked, Busy, [0], [], Levels(m, 0), map[])
  {}

  /** A worker whose lot was signalled exactly 2^31 times since it saved the state takes that for no signal
      and blocks, with a task in the queue of a worker that is busy, and nobody left to signal. */
  lemma CounterWrapBlocks() returns (s: State)
    ensures Occurs(s) && |s.workers| == 2 && s.workers[0].pc.Blocked? && s.workers[1].pc.Busy?
    ensures s.workers[0].lot < |s.lots| && s.lots[s.workers[0].lot] == s.workers[0].saved + SIGNAL_MODULUS
    ensures Rq(1) in s.queues && s.queues[Rq(1)] != []
    ensures s.calls == map[] && forall q :: q in s.quiet ==> s.quiet[q] == 0
  {
    var m := SIGNAL_MODULUS;
    var es := ManyOwnTasks(m - 1);
    var push := PushOwn(m - 1);
    Join(Start(), es, Working([], m - 1), push, Working([0], m));
    s := Duo(Blocked, Busy, [0], [], Levels(m, 0), map[]);
    StartInit();
    BlocksAfter(m);
    es := Then(Start(), es + push, Working([0], m), EnterWait(0), s);
  }
}
