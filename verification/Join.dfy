/** TaskGroup::join against the end of task_runner: one slot, its successive tasks, and any number of
    joiners waiting on its version butex. */
module Join {
  import opened Tids

  /** The task in the slot: none, running, or in one of the steps that end it. `Bumped` has changed the
      version and is still to wake the joiners. */
  datatype Runner = Vacant | Running | FnReturned | KeysReturned | Bumped | Woke

  /** A joiner tests the version, waits, or has returned. */
  datatype Pc = Testing | Waiting | Queued | Joined | Invalid

  /** `task` says which task of the slot is joined; `tid` is 0 for a pthread. */
  datatype Joiner = Joiner(task: nat, expected: Uint32, tid: nat, pc: Pc)

  /** `ends` tasks have ended, so the version is VersionAfter(1, ends). History: `fnEnded` and `keysReturned`
      are the tasks whose function ended and whose keytable was returned. */
  datatype State = State(
    ends: nat,
    runner: Runner,
    joiners: map<nat, Joiner>,
    queue: seq<nat>,
    fnEnded: set<nat>,
    keysReturned: set<nat>)

  datatype Event =
    | Start
    | ReturnFn
    | ReturnKeys
    | BumpVersion
    | WakeJoiners
    | Release
    | BeginJoin(j: nat, task: nat, tid: nat, self: bool)
    | TestVersion(j: nat)
    | EnterWait(j: nat)
    | Interrupted(j: nat)

  function Version(s: State): Uint32 {
    VersionAfter(1, s.ends)
  }

  function SetPc(s: State, j: nat, pc: Pc): State
    requires j in s.joiners
  {
    s.(joiners := s.joiners[j := s.joiners[j].(pc := pc)])
  }

  /** butex_wake_except keeps only bthreads with the excluded tid; pthreads have tid 0. */
  function KeptBy(joiners: map<nat, Joiner>, queue: seq<nat>, excluded: nat): seq<nat> {
    if queue == [] then []
    else
      var rest := KeptBy(joiners, queue[1..], excluded);
      if queue[0] in joiners && joiners[queue[0]].tid != 0 && joiners[queue[0]].tid == excluded then [queue[0]] + rest
      else rest
  }

  /** Excluding tid 0 excludes nobody. */
  lemma {:induction false} ZeroExcludesNobody(joiners: map<nat, Joiner>, queue: seq<nat>)
    ensures KeptBy(joiners, queue, 0) == []
  {
    if queue != [] { ZeroExcludesNobody(joiners, queue[1..]); }
  }

  function StepWake(s: State): State {
    var kept := KeptBy(s.joiners, s.queue, 0);
    s.(runner := Woke, queue := kept,
       joiners := map j | j in s.joiners ::
                    if j in s.queue && j !in kept then s.joiners[j].(pc := Testing) else s.joiners[j])
  }

  /** A tid that was given out: of an earlier task of the slot, or of the present one. */
  predicate Issued(s: State, task: nat) {
    task < s.ends || (task == s.ends && !s.runner.Vacant? && !s.runner.Bumped? && !s.runner.Woke?)
  }

  /** Joining oneself is refused; a tid of 0 or of an unknown slot would be refused the same way. */
  function StepBegin(s: State, j: nat, task: nat, tid: nat, self: bool): State {
    s.(joiners := s.joiners[j := Joiner(task, VersionAfter(1, task), tid, if self then Invalid else Testing)])
  }

  predicate CanTest(s: State, j: nat) {
    j in s.joiners && s.joiners[j].pc.Testing?
  }

  /** `while (*version_butex == expected_version)`. */
  function StepTest(s: State, j: nat): State
    requires CanTest(s, j)
  {
    SetPc(s, j, if Version(s) == s.joiners[j].expected then Waiting else Joined)
  }

  predicate CanEnter(s: State, j: nat) {
    j in s.joiners && s.joiners[j].pc.Waiting?
  }

  /** butex_wait compares under its lock: the joiner is queued, or EWOULDBLOCK sends it back to the test. */
  function StepEnter(s: State, j: nat): State
    requires CanEnter(s, j)
  {
    if Version(s) == s.joiners[j].expected then SetPc(s, j, Queued).(queue := s.queue + [j]) else SetPc(s, j, Testing)
  }

  /** EINTR: an interrupter takes the joiner out of the queue. */
  predicate CanInterrupt(s: State, j: nat) {
    j in s.joiners && s.joiners[j].pc.Queued?
  }

  function Drop(q: seq<nat>, j: nat): seq<nat> {
    if q == [] then [] else if q[0] == j then Drop(q[1..], j) else [q[0]] + Drop(q[1..], j)
  }

  function StepInterrupted(s: State, j: nat): State
    requires CanInterrupt(s, j)
  {
    SetPc(s, j, Testing).(queue := Drop(s.queue, j))
  }

  predicate Enabled(s: State, e: Event) {
    match e
    case Start => s.runner.Vacant?
    case ReturnFn => s.runner.Running?
    case ReturnKeys => s.runner.FnReturned?
    case BumpVersion => s.runner.KeysReturned?
    case WakeJoiners => s.runner.Bumped?
    case Release => s.runner.Woke?
    case BeginJoin(j, task, tid, self) => j !in s.joiners && Issued(s, task)
    case TestVersion(j) => CanTest(s, j)
    case EnterWait(j) => CanEnter(s, j)
    case Interrupted(j) => CanInterrupt(s, j)
  }

  function Step(s: State, e: Event): State
    requires Enabled(s, e)
  {
    match e
    case Start => s.(runner := Running)
    case ReturnFn => s.(runner := FnReturned, fnEnded := s.fnEnded + {s.ends})
    case ReturnKeys => s.(runner := KeysReturned, keysReturned := s.keysReturned + {s.ends})
    case BumpVersion => s.(runner := Bumped, ends := s.ends + 1)
    case WakeJoiners => StepWake(s)
    case Release => s.(runner := Vacant)
    case BeginJoin(j, task, tid, self) => StepBegin(s, j, task, tid, self)
    case TestVersion(j) => StepTest(s, j)
    case EnterWait(j) => StepEnter(s, j)
    case Interrupted(j) => StepInterrupted(s, j)
  }

  predicate Executable(s: State, es: seq<Event>)
    decreases |es|
  {
    es != [] ==> Enabled(s, es[0]) && Executable(Step(s, es[0]), es[1..])
  }

  function After(s: State, es: seq<Event>): State
    requires Executable(s, es)
    decreases |es|
  {
    if es == [] then s else After(Step(s, es[0]), es[1..])
  }

  predicate Init(s: State) {
    s == State(0, Vacant, map[], [], {}, {})
  }

  // ---------- the invariant ----------

  /** Tasks before `ends` have gone through all steps; the present one as far as its runner says. */
  ghost predicate EndedOk(s: State, task: nat) {
    && (task in s.fnEnded <==> task < s.ends || (task == s.ends && (s.runner.FnReturned? || s.runner.KeysReturned?)))
    && (task in s.keysReturned <==> task < s.ends || (task == s.ends && s.runner.KeysReturned?))
  }

  /** A queued joiner expects the version as it is, or the wake of its task is still to come. */
  ghost predicate JoinerOk(s: State, j: nat)
    requires j in s.joiners
  {
    var r := s.joiners[j];
    && r.expected == VersionAfter(1, r.task) && r.task <= s.ends
    && (r.pc.Queued? <==> j in s.queue)
    && (r.pc.Queued? && r.expected != Version(s) ==>
          s.runner.Bumped? && s.ends > 0 && r.expected == VersionAfter(1, s.ends - 1))
    && (r.pc.Joined? ==> r.task < s.ends)
  }

  ghost predicate Inv(s: State) {
    && (s.runner.Bumped? ==> s.ends > 0)
    && (forall task {:trigger EndedOk(s, task)} :: EndedOk(s, task))
    && (forall j {:trigger JoinerOk(s, j)} :: j in s.joiners ==> JoinerOk(s, j))
    && (forall j {:trigger j in s.queue} :: j in s.queue ==> j in s.joiners)
  }

  lemma {:induction false} DropMembers(q: seq<nat>, j: nat, i: nat)
    ensures i in Drop(q, j) <==> i in q && i != j
    decreases |q|
  {
    if q != [] { DropMembers(q[1..], j, i); }
  }

  lemma WakeInv(s: State)
    requires Inv(s) && Enabled(s, WakeJoiners)
    ensures Inv(StepWake(s))
  {
    var s' := StepWake(s);
    ZeroExcludesNobody(s.joiners, s.queue);
    forall task ensures EndedOk(s', task) { assert EndedOk(s, task); }
    forall j | j in s'.joiners ensures JoinerOk(s', j) { assert JoinerOk(s, j); }
  }

  lemma JoinerStepInv(s: State, s': State, j: nat)
    requires Inv(s) && j in s'.joiners && s'.joiners == s.joiners[j := s'.joiners[j]] && JoinerOk(s', j)
    requires s'.ends == s.ends && s'.runner == s.runner && s'.fnEnded == s.fnEnded && s'.keysReturned == s.keysReturned
    requires forall i {:trigger i in s'.queue} :: i != j ==> (i in s'.queue <==> i in s.queue)
    ensures Inv(s')
  {
    forall task ensures EndedOk(s', task) { assert EndedOk(s, task); }
    forall i | i in s'.joiners ensures JoinerOk(s', i) { if i != j { assert JoinerOk(s, i); } }
  }

  lemma RunnerInv(s: State, e: Event)
    requires Inv(s) && Enabled(s, e) && (e.Start? || e.ReturnFn? || e.ReturnKeys? || e.BumpVersion? || e.Release?)
    ensures Inv(Step(s, e))
  {
    var s' := Step(s, e);
    forall task ensures EndedOk(s', task) { assert EndedOk(s, task); }
    forall j | j in s'.joiners ensures JoinerOk(s', j) { assert JoinerOk(s, j); }
  }

  lemma StepInv(s: State, e: Event)
    requires Inv(s) && Enabled(s, e)
    ensures Inv(Step(s, e))
  {
    match e {
      case WakeJoiners => WakeInv(s);
      case BeginJoin(j, task, tid, self) => JoinerStepInv(s, Step(s, e), j);
      case TestVersion(j) => assert JoinerOk(s, j); JoinerStepInv(s, Step(s, e), j);
      case EnterWait(j) => assert JoinerOk(s, j); JoinerStepInv(s, Step(s, e), j);
      case Interrupted(j) =>
        assert JoinerOk(s, j);
        forall i ensures i in Drop(s.queue, j) <==> i in s.queue && i != j { DropMembers(s.queue, j, i); }
        JoinerStepInv(s, Step(s, e), j);
      case _ => RunnerInv(s, e);
    }
  }

  lemma {:induction false} RunInv(s: State, es: seq<Event>)
    requires Inv(s) && Executable(s, es)
    ensures Inv(After(s, es))
    decreases |es|
  {
    if es != [] {
      StepInv(s, es[0]);
      RunInv(Step(s, es[0]), es[1..]);
    }
  }

  ghost predicate Reachable(s: State) {
    exists s0, es :: Init(s0) && Executable(s0, es) && After(s0, es) == s
  }

  lemma ReachableInv(s: State)
    requires Reachable(s)
    ensures Inv(s)
  {
    var s0, es :| Init(s0) && Executable(s0, es) && After(s0, es) == s;
    RunInv(s0, es);
  }

  // ---------- what join promises ----------

  /** join returns 0 only after the function of that very task ended and its keytable was returned. */
  lemma JoinedAfterEnd(s: State, j: nat)
    requires Reachable(s) && j in s.joiners && s.joiners[j].pc.Joined?
    ensures s.joiners[j].task in s.fnEnded && s.joiners[j].task in s.keysReturned
    ensures s.joiners[j].task < s.ends
  {
    ReachableInv(s);
    assert JoinerOk(s, j) && EndedOk(s, s.joiners[j].task);
  }

  /** A queued joiner's task is still alive, or is about to wake it; only after 2^32 - 1 more tasks could the
      version have come round. */
  lemma NoJoinerLeftBehind(s: State, j: nat)
    requires Reachable(s) && j in s.joiners && s.joiners[j].pc.Queued? && s.ends - s.joiners[j].task < MAX32 - 1
    ensures s.joiners[j].task == s.ends || (s.runner.Bumped? && s.joiners[j].task + 1 == s.ends)
  {
    ReachableInv(s);
    assert JoinerOk(s, j);
    var k := s.joiners[j].task;
    VersionRecurs(k, s.ends);
    SmallGap(s.ends - k);
    if s.ends > 0 && k <= s.ends - 1 {
      VersionRecurs(k, s.ends - 1);
      SmallGap(s.ends - 1 - k);
    }
  }

  /** The wake at the end of a task leaves no joiner of it queued, bthread or pthread. */
  lemma WakeReachesAll(s: State, j: nat)
    requires Reachable(s) && Enabled(s, WakeJoiners) && j in s.joiners && s.joiners[j].pc.Queued?
    ensures StepWake(s).queue == [] && StepWake(s).joiners[j].pc.Testing?
  {
    ReachableInv(s);
    assert JoinerOk(s, j);
    ZeroExcludesNobody(s.joiners, s.queue);
  }
}
