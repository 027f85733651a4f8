/** Whatever the number of groups: a scan that does not look at every group can strand a task. */
module ScanScenes {
  import opened Arithmetic
  import opened StealScan
  import opened Parking
  import opened ParkingCover
  import opened ParkingScenes

  /** `n` workers with one seed and one offset; `w` is alone in lot 0 and gets woken; the task is put where
      its scan does not look. */
  datatype Setup = Setup(n: nat, seed: nat, offset: nat, w: nat, k: nat)

  ghost predicate Fits(c: Setup) {
    c.w < c.n && c.k < c.n && c.w != c.k && !IsHit(c.seed, c.offset, c.n, c.k)
  }

  function Names(n: nat): (names: set<Queue>)
    ensures forall q {:trigger q in names} :: q in names <==> q.g < n
  {
    (set g: nat | g < n :: Rq(g)) + (set g: nat | g < n :: Remote(g))
  }

  function Queues(c: Setup, tasks: seq<Task>): map<Queue, seq<Task>> {
    map q | q in Names(c.n) :: if q == Remote(c.k) then tasks else []
  }

  function Quiet(c: Setup): map<Queue, nat> {
    map q | q in Names(c.n) :: 0
  }

  function Crew(c: Setup, r: Worker, m: nat): seq<Worker> {
    seq(c.n, v => if v == c.w then r else Worker(if v < m then Blocked else Wait, 0, c.seed, c.offset, 1))
  }

  /** `r` is worker `w`; of the others those below `m` are blocked and the rest about to wait. */
  function Scene(c: Setup, r: Worker, m: nat, tasks: seq<Task>, lots: seq<nat>, calls: map<nat, Call>): State {
    State(Crew(c, r, m), Queues(c, tasks), Quiet(c), lots, calls)
  }

  function Woken(c: Setup, pc: Pc, saved: nat): Worker {
    Worker(pc, saved, c.seed, c.offset, 0)
  }

  lemma SetWoken(c: Setup, r: Worker, r': Worker, m: nat)
    requires Fits(c)
    ensures Crew(c, r, m)[c.w] == r && Crew(c, r, m)[c.w := r'] == Crew(c, r', m)
  {}

  lemma SceneInit(c: Setup)
    requires Fits(c)
    ensures Init(Scene(c, Woken(c, Wait, 0), 0, [], [0, 0, 0, 0], map[]))
  {}

  lemma BlockStep(c: Setup, m: nat)
    requires Fits(c) && m < c.n && m != c.w
    ensures var s := Scene(c, Woken(c, Blocked, 0), m, [], [0, 0, 0, 0], map[]);
            && Enabled(s, EnterWait(m))
            && Step(s, EnterWait(m)) == Scene(c, Woken(c, Blocked, 0), m + 1, [], [0, 0, 0, 0], map[])
  {
    var r := Woken(c, Blocked, 0);
    assert Crew(c, r, m)[m] == Worker(Wait, 0, c.seed, c.offset, 1);
    assert Crew(c, r, m)[m := Worker(Blocked, 0, c.seed, c.offset, 1)] == Crew(c, r, m + 1);
  }

  function Resting(c: Setup, m: nat): State {
    Scene(c, Woken(c, Blocked, 0), m, [], [0, 0, 0, 0], map[])
  }

  lemma OneBlocks(c: Setup, m: nat) returns (es: seq<Event>)
    requires Fits(c) && m < c.n
    ensures Path(Resting(c, m), es, Resting(c, m + 1))
  {
    if m == c.w {
      assert Crew(c, Woken(c, Blocked, 0), m) == Crew(c, Woken(c, Blocked, 0), m + 1);
      es := [];
    } else {
      BlockStep(c, m);
      es := Then(Resting(c, m), [], Resting(c, m), EnterWait(m), Resting(c, m + 1));
    }
  }

  /** The other workers from `m` on go to sleep. */
  lemma {:induction false} OthersBlock(c: Setup, m: nat) returns (es: seq<Event>)
    requires Fits(c) && m <= c.n
    ensures Path(Resting(c, m), es, Resting(c, c.n))
    decreases c.n - m
  {
    if m == c.n {
      es := [];
    } else {
      var first := OneBlocks(c, m);
      var rest := OthersBlock(c, m + 1);
      Join(Resting(c, m), first, Resting(c, m + 1), rest, Resting(c, c.n));
      es := first + rest;
    }
  }

  lemma AllBlock(c: Setup) returns (es: seq<Event>)
    requires Fits(c)
    ensures Path(Scene(c, Woken(c, Wait, 0), 0, [], [0, 0, 0, 0], map[]), es,
                 Scene(c, Woken(c, Blocked, 0), c.n, [], [0, 0, 0, 0], map[]))
  {
    var s := Scene(c, Woken(c, Wait, 0), 0, [], [0, 0, 0, 0], map[]);
    var s1 := Scene(c, Woken(c, Blocked, 0), 0, [], [0, 0, 0, 0], map[]);
    SetWoken(c, Woken(c, Wait, 0), Woken(c, Blocked, 0), 0);
    assert Step(s, EnterWait(c.w)) == s1;
    var first := Then(s, [], s, EnterWait(c.w), s1);
    var rest := OthersBlock(c, 0);
    Join(s, first, s1, rest, Scene(c, Woken(c, Blocked, 0), c.n, [], [0, 0, 0, 0], map[]));
    es := first + rest;
  }

  function Calls(bumped: bool): map<nat, Call> {
    map[0 := Call(1, 0, 0, bumped)]
  }

  lemma PushedQueues(c: Setup)
    requires Fits(c)
    ensures Queues(c, [])[Remote(c.k)] + [7] == [7]
    ensures Queues(c, [])[Remote(c.k) := [7]] == Queues(c, [7])
    ensures Quiet(c)[Remote(c.k) := 0] == Quiet(c)
  {}

  lemma PushStep(c: Setup)
    requires Fits(c)
    ensures var s := Scene(c, Woken(c, Blocked, 0), c.n, [], [0, 0, 0, 0], map[]);
            && Enabled(s, PushSignal(Remote(c.k), 7, 0, 0))
            && Step(s, PushSignal(Remote(c.k), 7, 0, 0)) ==
               Scene(c, Woken(c, Blocked, 0), c.n, [7], [0, 0, 0, 0], Calls(false))
  {
    PushedQueues(c);
    var none: map<nat, Call> := map[];
    assert none[0 := Call(1, 0, 0, false)] == Calls(false);
  }

  lemma BumpStep(c: Setup)
    requires Fits(c)
    ensures var s := Scene(c, Woken(c, Blocked, 0), c.n, [7], [0, 0, 0, 0], Calls(false));
            && Enabled(s, Bump(0))
            && Step(s, Bump(0)) == Scene(c, Woken(c, Blocked, 0), c.n, [7], [1, 0, 0, 0], Calls(true))
  {
    assert Calls(false)[0 := Call(1, 0, 0, true)] == Calls(true);
    assert [0, 0, 0, 0][0 := 1] == [1, 0, 0, 0];
  }

  lemma WakeAndSave(c: Setup)
    requires Fits(c)
    ensures var s2 := Scene(c, Woken(c, Blocked, 0), c.n, [7], [1, 0, 0, 0], Calls(true));
            var s3 := Scene(c, Woken(c, PopRemote, 0), c.n, [7], [1, 0, 0, 0], map[]);
            var s4 := Scene(c, Woken(c, Save, 0), c.n, [7], [1, 0, 0, 0], map[]);
            var s5 := Scene(c, Woken(c, ScanRq(0), 1), c.n, [7], [1, 0, 0, 0], map[]);
            && Enabled(s2, WakeOne(0, c.w)) && Step(s2, WakeOne(0, c.w)) == s3
            && Enabled(s3, TryRemote(c.w)) && Step(s3, TryRemote(c.w)) == s4
            && Enabled(s4, SaveState(c.w)) && Step(s4, SaveState(c.w)) == s5
  {
    SetWoken(c, Woken(c, Blocked, 0), Woken(c, PopRemote, 0), c.n);
    SetWoken(c, Woken(c, PopRemote, 0), Woken(c, Save, 0), c.n);
    SetWoken(c, Woken(c, Save, 0), Woken(c, ScanRq(0), 1), c.n);
    assert Calls(true) - {0} == map[];
  }

  lemma PushSignals(c: Setup) returns (es: seq<Event>)
    requires Fits(c)
    ensures Path(Scene(c, Woken(c, Blocked, 0), c.n, [], [0, 0, 0, 0], map[]), es,
                 Scene(c, Woken(c, Blocked, 0), c.n, [7], [1, 0, 0, 0], Calls(true)))
  {
    var s := Scene(c, Woken(c, Blocked, 0), c.n, [], [0, 0, 0, 0], map[]);
    var s1 := Scene(c, Woken(c, Blocked, 0), c.n, [7], [0, 0, 0, 0], Calls(false));
    PushStep(c);
    BumpStep(c);
    es := Then(s, [], s, PushSignal(Remote(c.k), 7, 0, 0), s1);
    es := Then(s, es, s1, Bump(0), Scene(c, Woken(c, Blocked, 0), c.n, [7], [1, 0, 0, 0], Calls(true)));
  }

  lemma SignalWakes(c: Setup) returns (es: seq<Event>)
    requires Fits(c)
    ensures Path(Scene(c, Woken(c, Blocked, 0), c.n, [7], [1, 0, 0, 0], Calls(true)), es,
                 Scene(c, Woken(c, ScanRq(0), 1), c.n, [7], [1, 0, 0, 0], map[]))
  {
    var s := Scene(c, Woken(c, Blocked, 0), c.n, [7], [1, 0, 0, 0], Calls(true));
    var s1 := Scene(c, Woken(c, PopRemote, 0), c.n, [7], [1, 0, 0, 0], map[]);
    var s2 := Scene(c, Woken(c, Save, 0), c.n, [7], [1, 0, 0, 0], map[]);
    WakeAndSave(c);
    es := Then(s, [], s, WakeOne(0, c.w), s1);
    es := Then(s, es, s1, TryRemote(c.w), s2);
    es := Then(s, es, s2, SaveState(c.w), Scene(c, Woken(c, ScanRq(0), 1), c.n, [7], [1, 0, 0, 0], map[]));
  }

  function Further(pc: Pc): Pc
    requires Scanning(pc)
  {
    if pc.ScanRq? then ScanRemote(pc.i) else ScanRq(pc.i + 1)
  }

  lemma VisitedBelow(seed: nat, offset: nat, i: nat, n: nat)
    requires n > 0
    ensures Visited(seed, offset, i, n) < n
  {}

  lemma MissTarget(c: Setup, pc: Pc)
    requires Fits(c) && Scanning(pc) && pc.i < c.n
    ensures Target(c.n, Woken(c, pc, 1)) in Queues(c, [7]) && Queues(c, [7])[Target(c.n, Woken(c, pc, 1))] == []
  {
    assert !Hits(c.seed, c.offset, c.n, pc.i, c.k);
    VisitedBelow(c.seed, c.offset, pc.i, c.n);
  }

  lemma MissStep(c: Setup, pc: Pc)
    requires Fits(c) && Scanning(pc) && pc.i < c.n
    ensures var s := Scene(c, Woken(c, pc, 1), c.n, [7], [1, 0, 0, 0], map[]);
            && Enabled(s, ScanOne(c.w))
            && Step(s, ScanOne(c.w)) == Scene(c, Woken(c, Further(pc), 1), c.n, [7], [1, 0, 0, 0], map[])
  {
    SetWoken(c, Woken(c, pc, 1), Woken(c, Further(pc), 1), c.n);
    MissTarget(c, pc);
    var s := Scene(c, Woken(c, pc, 1), c.n, [7], [1, 0, 0, 0], map[]);
    assert At(s, c.w) && s.workers[c.w] == Woken(c, pc, 1) && |s.workers| == c.n;
  }

  /** The scan goes through all its iterations without looking at group `k`. */
  lemma {:induction false} ScanMisses(c: Setup, pc: Pc) returns (es: seq<Event>)
    requires Fits(c) && Scanning(pc) && (pc.i < c.n || pc == ScanRq(c.n))
    ensures Path(Scene(c, Woken(c, pc, 1), c.n, [7], [1, 0, 0, 0], map[]), es,
                 Scene(c, Woken(c, ScanRq(c.n), 1), c.n, [7], [1, 0, 0, 0], map[]))
    decreases c.n - pc.i, pc.ScanRq?
  {
    if pc == ScanRq(c.n) {
      es := [];
    } else {
      var s := Scene(c, Woken(c, pc, 1), c.n, [7], [1, 0, 0, 0], map[]);
      var s1 := Scene(c, Woken(c, Further(pc), 1), c.n, [7], [1, 0, 0, 0], map[]);
      MissStep(c, pc);
      var first := Then(s, [], s, ScanOne(c.w), s1);
      var rest := ScanMisses(c, Further(pc));
      Join(s, first, s1, rest, Scene(c, Woken(c, ScanRq(c.n), 1), c.n, [7], [1, 0, 0, 0], map[]));
      es := first + rest;
    }
  }

  function Finished(c: Setup, pc: Pc): State {
    Scene(c, Worker(pc, 1, SeedAfter(c.seed, c.offset, c.n), c.offset, 0), c.n, [7], [1, 0, 0, 0], map[])
  }

  lemma SleepsAgain(c: Setup)
    requires Fits(c)
    ensures var s := Scene(c, Woken(c, ScanRq(c.n), 1), c.n, [7], [1, 0, 0, 0], map[]);
            && Enabled(s, EndScan(c.w)) && Step(s, EndScan(c.w)) == Finished(c, Idle)
            && Enabled(Finished(c, Idle), Settle(c.w)) && Step(Finished(c, Idle), Settle(c.w)) == Finished(c, Wait)
            && Enabled(Finished(c, Wait), EnterWait(c.w))
            && Step(Finished(c, Wait), EnterWait(c.w)) == Finished(c, Blocked)
  {
    var seed := SeedAfter(c.seed, c.offset, c.n);
    SetWoken(c, Woken(c, ScanRq(c.n), 1), Worker(Idle, 1, seed, c.offset, 0), c.n);
    SetWoken(c, Worker(Idle, 1, seed, c.offset, 0), Worker(Wait, 1, seed, c.offset, 0), c.n);
    SetWoken(c, Worker(Wait, 1, seed, c.offset, 0), Worker(Blocked, 1, seed, c.offset, 0), c.n);
  }

  lemma SetupStrands(c: Setup)
    requires Fits(c)
    ensures Occurs(Finished(c, Blocked))
  {
    var s0 := Scene(c, Woken(c, Wait, 0), 0, [], [0, 0, 0, 0], map[]);
    var s1 := Scene(c, Woken(c, Blocked, 0), c.n, [], [0, 0, 0, 0], map[]);
    var s2 := Scene(c, Woken(c, ScanRq(0), 1), c.n, [7], [1, 0, 0, 0], map[]);
    var s3 := Scene(c, Woken(c, ScanRq(c.n), 1), c.n, [7], [1, 0, 0, 0], map[]);
    SceneInit(c);
    var es := AllBlock(c);
    var push := PushSignals(c);
    var wake := SignalWakes(c);
    var s11 := Scene(c, Woken(c, Blocked, 0), c.n, [7], [1, 0, 0, 0], Calls(true));
    Join(s1, push, s11, wake, s2);
    var more := push + wake;
    Join(s0, es, s1, more, s2);
    var scan := ScanMisses(c, ScanRq(0));
    Join(s0, es + more, s2, scan, s3);
    SleepsAgain(c);
    var fs := Then(s0, es + more + scan, s3, EndScan(c.w), Finished(c, Idle));
    fs := Then(s0, fs, Finished(c, Idle), Settle(c.w), Finished(c, Wait));
    fs := Then(s0, fs, Finished(c, Wait), EnterWait(c.w), Finished(c, Blocked));
  }

  /** The converse of NoStrandedWork: if the scan of some seed and offset does not look at every group, then a
      run with this seed and offset ends with a task queued, everybody asleep and nobody left to signal. */
  lemma IncompleteScanStrands(seed: nat, offset: nat, n: nat) returns (s: State, k: nat)
    requires n > 0 && !CoversAll(seed, offset, n)
    ensures Occurs(s) && AllAsleep(s) && |s.workers| == n
    ensures forall v :: 0 <= v < n ==> s.workers[v].offset == offset
    ensures Remote(k) in s.queues && s.queues[Remote(k)] != []
  {
    k :| k < n && !IsHit(seed, offset, n, k);
    if n == 1 {
      assert Hits(seed, offset, n, 0, k);
    }
    var c := Setup(n, seed, offset, if k == 0 then 1 else 0, k);
    SetupStrands(c);
    s := Finished(c, Blocked);
  }

  /** So does every offset that shares a factor with the number of groups, and every seed that wraps where it
      matters. */
  lemma BadOffsetStrands(seed: nat, offset: nat, n: nat) returns (s: State, k: nat)
    requires n > 0 && seed < SIZE_MODULUS && n * offset < SIZE_MODULUS
    requires Gcd(offset, n) != 1 || !WrapHarmless(seed, offset, n)
    ensures Occurs(s) && AllAsleep(s) && |s.workers| == n
    ensures forall v :: 0 <= v < n ==> s.workers[v].offset == offset
    ensures Remote(k) in s.queues && s.queues[Remote(k)] != []
  {
    ScanCoversIff(seed, offset, n);
    s, k := IncompleteScanStrands(seed, offset, n);
  }
}
