/** The sleepers of a bthread_id lock: when somebody is bound to wake them, and the one way to strand them. */
module IdLockSleepers {
  import opened Wrappers
  import opened IdLock

  /** A thread that has waited before and is awake on its way back to the lock. */
  predicate ContenderAwake(pc: Pc) {
    (pc.Arriving? && pc.ever) || pc.Checking? || pc.Suspending?
  }

  /** A contender that goes to sleep if it still finds `value`. */
  predicate Awaits(pc: Pc, value: nat) {
    (pc.Checking? || pc.Suspending?) && pc.expected == value
  }

  ghost predicate SomebodyActs(s: State) {
    exists t :: t in s.pcs && (s.pcs[t] == WakeDue || ContenderAwake(s.pcs[t]))
  }

  ghost predicate SomeWakeDue(s: State) {
    exists t :: t in s.pcs && s.pcs[t] == WakeDue
  }

  /** Somebody sleeps or is just being queued. */
  ghost predicate Needy(s: State) {
    s.queue != [] || s.listHolder.Some?
  }

  /** A contender is awake that will not go to sleep on `value`, or is sure to be woken. */
  ghost predicate Rescue(s: State, value: nat) {
    || (exists t :: t in s.pcs && ContenderAwake(s.pcs[t]) && !Awaits(s.pcs[t], value))
    || (Needy(s) && SomeWakeDue(s))
  }

  ghost predicate SomeAwaits(s: State, value: nat) {
    exists t :: t in s.pcs && Awaits(s.pcs[t], value)
  }

  /** With `t` the lock is taken as uncontended although the value it gets is one that a contender awaits and
      goes to sleep on, and nobody else is left to wake it. */
  ghost predicate Strands(s: State, t: ThreadId)
    requires t in s.pcs && s.pcs[t].Arriving?
  {
    var value := LockedAfter(s.meta, s.pcs[t].range);
    s.meta.value == s.meta.first && !s.pcs[t].ever && SomeAwaits(s, value) && !Rescue(s, value)
  }

  /** No lock of the run strands a contender. */
  ghost predicate StrandsNobody(s: State, es: seq<Event>)
    requires Executable(s, es)
    decreases |es|
  {
    es != [] ==> (es[0].Lock? ==> !Strands(s, es[0].t)) && StrandsNobody(Step(s, es[0]), es[1..])
  }

  /** Sleepers are waited on by a holder that will wake, or by somebody awake; who goes to sleep on a value
      that is not marked as contended does so only beside somebody who acts. */
  ghost predicate Covered(s: State) {
    && (Needy(s) ==> OwesWake(s.meta) || SomebodyActs(s))
    && (SomeAwaits(s, s.meta.value) ==> OwesWake(s.meta) || Rescue(s, s.meta.value))
  }

  // ---------- every other step keeps them covered ----------

  /** A contender on its way to the lock covers everybody. */
  lemma ReturnerCovers(s: State, t: ThreadId)
    requires t in s.pcs && s.pcs[t].Arriving? && s.pcs[t].ever
    ensures Covered(s)
  {
    assert ContenderAwake(s.pcs[t]) && !Awaits(s.pcs[t], s.meta.value);
  }

  /** A step of `t`, which is no rescuer before or still is one after. */
  lemma RescueStays(s: State, s': State, t: ThreadId, value: nat)
    requires t in s.pcs && t in s'.pcs && s'.pcs == s.pcs[t := s'.pcs[t]]
    requires ContenderAwake(s.pcs[t]) && !Awaits(s.pcs[t], value) ==>
               ContenderAwake(s'.pcs[t]) && !Awaits(s'.pcs[t], value)
    requires s.pcs[t] == WakeDue ==> s'.pcs[t] == WakeDue
    requires Needy(s) ==> Needy(s')
    ensures Rescue(s, value) ==> Rescue(s', value) && SomebodyActs(s')
  {
    if u :| u in s.pcs && ContenderAwake(s.pcs[u]) && !Awaits(s.pcs[u], value) {
      assert u in s'.pcs && ContenderAwake(s'.pcs[u]) && !Awaits(s'.pcs[u], value);
    } else if Rescue(s, value) {
      var u :| u in s.pcs && s.pcs[u] == WakeDue;
      assert u in s'.pcs && s'.pcs[u] == WakeDue;
    }
  }

  lemma ActsStays(s: State, s': State, t: ThreadId)
    requires t in s.pcs && t in s'.pcs && s'.pcs == s.pcs[t := s'.pcs[t]]
    requires s.pcs[t] == WakeDue || ContenderAwake(s.pcs[t]) ==> s'.pcs[t] == WakeDue || ContenderAwake(s'.pcs[t])
    ensures SomebodyActs(s) ==> SomebodyActs(s')
  {
    if SomebodyActs(s) {
      var u :| u in s.pcs && (s.pcs[u] == WakeDue || ContenderAwake(s.pcs[u]));
      assert u in s'.pcs && (s'.pcs[u] == WakeDue || ContenderAwake(s'.pcs[u]));
    }
  }

  lemma AwaitsBefore(s: State, s': State, t: ThreadId, value: nat)
    requires t in s.pcs && t in s'.pcs && s'.pcs == s.pcs[t := s'.pcs[t]]
    requires Awaits(s'.pcs[t], value) ==> Awaits(s.pcs[t], value)
    ensures SomeAwaits(s', value) ==> SomeAwaits(s, value)
  {
    if SomeAwaits(s', value) {
      var u :| u in s'.pcs && Awaits(s'.pcs[u], value);
      assert u in s.pcs && Awaits(s.pcs[u], value);
    }
  }

  lemma LockCovered(s: State, t: ThreadId)
    requires Inv(s) && Covered(s) && Enabled(s, Lock(t)) && !Strands(s, t)
    ensures Covered(Step(s, Lock(t)))
  {
    var s' := Step(s, Lock(t));
    if s.meta.value == s.meta.first && !s.pcs[t].ever {
      var value := LockedAfter(s.meta, s.pcs[t].range);
      RescueStays(s, s', t, value);
      ActsStays(s, s', t);
      AwaitsBefore(s, s', t, value);
    }
  }

  lemma LookCovered(s: State, t: ThreadId, e: Event)
    requires Inv(s) && Covered(s) && Enabled(s, e) && (e == FirstLook(t) || e == SecondLook(t))
    ensures Covered(Step(s, e))
  {
    var s' := Step(s, e);
    if s.meta.value != s.pcs[t].expected {
      ReturnerCovers(s', t);
    } else {
      assert Awaits(s.pcs[t], s.meta.value);
      RescueStays(s, s', t, s.meta.value);
      if e == FirstLook(t) {
        ActsStays(s, s', t);
      }
    }
  }

  lemma UnlockCovered(s: State, t: ThreadId)
    requires Inv(s) && Covered(s) && Enabled(s, Unlock(t))
    ensures Covered(Step(s, Unlock(t)))
  {
    var s' := Step(s, Unlock(t));
    assert SomeHolder(s);
    ActsStays(s, s', t);
    if s.meta.pending > 0 {
      RescueStays(s, s', t, s.meta.value);
      AwaitsBefore(s, s', t, s.meta.value);
    } else {
      forall u | u in s'.pcs ensures !Awaits(s'.pcs[u], s.meta.first) { assert u == t || ThreadOk(s, u); }
      assert OwesWake(s.meta) ==> s'.pcs[t] == WakeDue;
    }
  }

  lemma WakeCovered(s: State, t: ThreadId)
    requires Inv(s) && Covered(s) && Enabled(s, Wake(t))
    ensures Covered(Step(s, Wake(t)))
  {
    var s' := Step(s, Wake(t));
    if s.queue != [] {
      ReturnerCovers(s', s.queue[0]);
    } else if SomeAwaits(s', s.meta.value) {
      AwaitsBefore(s, s', t, s.meta.value);
      if !OwesWake(s.meta) {
        var u :| u in s.pcs && ContenderAwake(s.pcs[u]) && !Awaits(s.pcs[u], s.meta.value);
        assert u in s'.pcs && ContenderAwake(s'.pcs[u]) && !Awaits(s'.pcs[u], s.meta.value);
      }
    }
  }

  lemma StepCovered(s: State, e: Event)
    requires Inv(s) && Covered(s) && Enabled(s, e) && (e.Lock? ==> !Strands(s, e.t))
    ensures Covered(Step(s, e))
  {
    var s' := Step(s, e);
    match e {
      case Lock(t) => LockCovered(s, t);
      case FirstLook(t) => LookCovered(s, t, e);
      case SecondLook(t) => LookCovered(s, t, e);
      case Unlock(t) => UnlockCovered(s, t);
      case Wake(t) => WakeCovered(s, t);
      case Interrupt(t) => ReturnerCovers(s', t);
      case ReportError =>
        assert SomebodyActs(s) <==> SomebodyActs(s');
        assert SomeAwaits(s, s.meta.value) <==> SomeAwaits(s', s.meta.value);
        assert Rescue(s, s.meta.value) <==> Rescue(s', s.meta.value) by {
          assert SomeWakeDue(s) <==> SomeWakeDue(s');
        }
      case _ =>
        assert ThreadOk(s, e.t);
        ActsStays(s, s', e.t);
        RescueStays(s, s', e.t, s.meta.value);
        AwaitsBefore(s, s', e.t, s.meta.value);
    }
  }

  lemma {:induction false} RunCovered(s: State, es: seq<Event>)
    requires Inv(s) && Covered(s) && Executable(s, es) && StrandsNobody(s, es)
    ensures Inv(After(s, es)) && Covered(After(s, es))
    decreases |es|
  {
    if es != [] {
      StepInv(s, es[0]);
      StepCovered(s, es[0]);
      RunCovered(Step(s, es[0]), es[1..]);
    }
  }

  /** `z` ends a run in which no lock strands a contender. */
  ghost predicate ReachableKindly(z: State) {
    exists s, es :: Init(s) && Executable(s, es) && StrandsNobody(s, es) && After(s, es) == z
  }

  lemma ReachableCovered(z: State)
    requires ReachableKindly(z)
    ensures Inv(z) && Covered(z) && Reachable(z)
  {
    var s, es :| Init(s) && Executable(s, es) && StrandsNobody(s, es) && After(s, es) == z;
    InitInv(s);
    assert Covered(s);
    RunCovered(s, es);
  }

  /** If any thread sleeps on the butex, the value still tells the holder to wake somebody, or a wake is
      due, or a thread that has waited before is awake and will take the lock as contended. */
  lemma NobodyAbandoned(z: State)
    requires ReachableKindly(z) && z.queue != []
    ensures OwesWake(z.meta) || SomebodyActs(z)
  {
    ReachableCovered(z);
  }

  /** Once no thread holds, releases or is on its way to the lock, nobody sleeps on the butex. */
  lemma QuietMeansNobodySleeps(z: State, t: ThreadId)
    requires ReachableKindly(z) && t in z.pcs
    requires forall u :: u in z.pcs ==> z.pcs[u] == Outside || z.pcs[u].Queued?
    ensures z.pcs[t] == Outside
  {
    ReachableCovered(z);
    assert !SomeHolder(z) && !SomebodyActs(z);
    assert ThreadOk(z, t);
  }

  // ---------- plain locks ----------

  /** No lock of the run enlarges `locked`, as with bthread_id_lock, which passes range 0. */
  ghost predicate KeepsRange(s: State, es: seq<Event>)
    requires Executable(s, es)
    decreases |es|
  {
    es != [] ==>
      && (es[0].Lock? ==> LockedAfter(s.meta, s.pcs[es[0].t].range) == s.meta.locked)
      && KeepsRange(Step(s, es[0]), es[1..])
  }

  /** Whoever is in butex_wait expects the contended mark of the present range. */
  ghost predicate ExpectsContended(s: State) {
    forall t :: t in s.pcs && InFlight(s.pcs[t]) ==> s.pcs[t].expected == Contended(s.meta)
  }

  /** Only an enlarged range can strand anybody. */
  lemma {:induction false} PlainLocksStrandNobody(s: State, es: seq<Event>)
    requires ExpectsContended(s) && Executable(s, es) && KeepsRange(s, es)
    ensures StrandsNobody(s, es)
    decreases |es|
  {
    if es != [] {
      var s' := Step(s, es[0]);
      forall t | t in s'.pcs && InFlight(s'.pcs[t]) ensures s'.pcs[t].expected == Contended(s'.meta) {
        assert t in s.pcs;
      }
      PlainLocksStrandNobody(s', es[1..]);
    }
  }

  // ---------- what a stranding lock leads to ----------

  ghost predicate Path(s: State, es: seq<Event>, z: State) {
    Executable(s, es) && After(s, es) == z
  }

  lemma Then(s: State, e: Event, es: seq<Event>, z: State)
    requires Enabled(s, e) && Path(Step(s, e), es, z)
    ensures Path(s, [e] + es, z)
  {
    assert ([e] + es)[1..] == es;
  }

  lemma {:induction false} Join(s: State, es: seq<Event>, m: State, fs: seq<Event>, z: State)
    requires Path(s, es, m) && Path(m, fs, z)
    ensures Path(s, es + fs, z)
    decreases |es|
  {
    if es == [] {
      assert es + fs == fs;
    } else {
      Join(Step(s, es[0]), es[1..], m, fs, z);
      assert (es + fs)[1..] == es[1..] + fs;
    }
  }

  /** Somebody sleeps on an unlocked id that nobody holds, releases or is coming back to. */
  ghost predicate Abandoned(z: State) {
    z.queue != [] && z.meta.value == z.meta.first && !SomeHolder(z) && !SomebodyActs(z)
  }

  ghost predicate NoWakeDue(s: State, outside: set<ThreadId>) {
    forall t :: t in s.pcs && s.pcs[t] == WakeDue ==> t in outside
  }

  /** Those of `due` who owe a wake find nobody to wake. */
  lemma {:induction false} WakesWasted(s: State, due: set<ThreadId>) returns (es: seq<Event>, z: State)
    requires !Needy(s) && NoWakeDue(s, due)
    ensures Path(s, es, z) && NoWakeDue(z, {})
    ensures z.meta == s.meta && z.queue == s.queue && z.listHolder == s.listHolder && z.pcs.Keys == s.pcs.Keys
    ensures forall t :: t in s.pcs && s.pcs[t] != WakeDue ==> z.pcs[t] == s.pcs[t]
    ensures forall t :: t in s.pcs && s.pcs[t] == WakeDue ==> z.pcs[t] == Outside
    decreases due
  {
    if t :| t in due && t in s.pcs && s.pcs[t] == WakeDue {
      es, z := WakesWasted(Step(s, Wake(t)), due - {t});
      Then(s, Wake(t), es, z);
      es := [Wake(t)] + es;
    } else {
      es, z := [], s;
    }
  }

  ghost predicate ContendersIn(s: State, ts: set<ThreadId>, value: nat) {
    forall t :: t in s.pcs && ContenderAwake(s.pcs[t]) ==> t in ts && Awaits(s.pcs[t], value)
  }

  /** One contender that finds the value it awaits goes to sleep. */
  lemma FallsAsleep(s: State, t: ThreadId) returns (es: seq<Event>, z: State)
    requires t in s.pcs && Awaits(s.pcs[t], s.meta.value) && s.listHolder == None
    ensures Path(s, es, z)
    ensures z == s.(queue := s.queue + [t], pcs := s.pcs[t := Queued(s.pcs[t].range)])
  {
    var s1 := if s.pcs[t].Checking? then Step(s, FirstLook(t)) else s;
    var s2 := Step(s1, SecondLook(t));
    z := Step(s2, Enqueue(t));
    assert z.pcs == s.pcs[t := Queued(s.pcs[t].range)];
    Then(s2, Enqueue(t), [], z);
    Then(s1, SecondLook(t), [Enqueue(t)] + [], z);
    es := [SecondLook(t)] + ([Enqueue(t)] + []);
    if s.pcs[t].Checking? {
      Then(s, FirstLook(t), es, z);
      es := [FirstLook(t)] + es;
    }
  }

  /** All contenders, who are among `ts` and await the present value, go to sleep. */
  lemma {:induction false} AllFallAsleep(s: State, ts: set<ThreadId>) returns (es: seq<Event>, z: State)
    requires s.listHolder == None && ContendersIn(s, ts, s.meta.value)
    ensures Path(s, es, z) && ContendersIn(z, {}, z.meta.value)
    ensures z.meta == s.meta && z.listHolder == None && z.pcs.Keys == s.pcs.Keys
    ensures s.queue != [] || SomeAwaits(s, s.meta.value) ==> z.queue != []
    ensures forall t :: t in s.pcs && !ContenderAwake(s.pcs[t]) ==> z.pcs[t] == s.pcs[t]
    ensures forall t :: t in s.pcs && ContenderAwake(s.pcs[t]) ==> z.pcs[t].Queued?
    decreases ts
  {
    if t :| t in ts && t in s.pcs && ContenderAwake(s.pcs[t]) {
      var s1;
      es, s1 := FallsAsleep(s, t);
      var fs;
      fs, z := AllFallAsleep(s1, ts - {t});
      Join(s, es, s1, fs, z);
      es := es + fs;
    } else {
      es, z := [], s;
    }
  }

  /** The holder serves the pending errors and releases a lock that is not marked as contended. */
  lemma {:induction false} Releases(s: State, t: ThreadId) returns (es: seq<Event>, z: State)
    requires t in s.pcs && s.pcs[t] == Holding && s.meta.value != s.meta.first && !OwesWake(s.meta)
    ensures Path(s, es, z)
    ensures z == s.(pcs := s.pcs[t := Outside], meta := s.meta.(value := s.meta.first, pending := 0))
    decreases s.meta.pending
  {
    var s1 := Step(s, Unlock(t));
    if s.meta.pending == 0 {
      es, z := [], s1;
    } else {
      assert s1.pcs == s.pcs;
      es, z := Releases(s1, t);
    }
    Then(s, Unlock(t), es, z);
    es := [Unlock(t)] + es;
  }

  /** `t` has just taken the lock; every contender awaits the value it has now. */
  ghost predicate HeldUnmarked(s: State, t: ThreadId) {
    && t in s.pcs && s.pcs[t] == Holding && s.meta.value != s.meta.first && !OwesWake(s.meta)
    && (forall u :: u in s.pcs && s.pcs[u] == Holding ==> u == t)
    && ContendersIn(s, s.pcs.Keys, s.meta.value) && SomeAwaits(s, s.meta.value)
  }

  /** With nobody being queued and no wake due, the contenders fall asleep and `t` wakes nobody. */
  lemma SleepThenRelease(s: State, t: ThreadId) returns (es: seq<Event>, z: State)
    requires HeldUnmarked(s, t) && s.listHolder == None && NoWakeDue(s, {})
    ensures Path(s, es, z) && Abandoned(z)
  {
    var s1;
    es, s1 := AllFallAsleep(s, s.pcs.Keys);
    var fs;
    fs, z := Releases(s1, t);
    Join(s, es, s1, fs, z);
    es := es + fs;
    forall u | u in z.pcs ensures z.pcs[u] != Holding && z.pcs[u] != WakeDue && !ContenderAwake(z.pcs[u]) {
      assert u in s.pcs && u in s1.pcs;
    }
  }

  /** The wakes that are due are wasted, or the thread being queued is. */
  lemma ClearTheWay(s: State, t: ThreadId) returns (es: seq<Event>, z: State)
    requires HeldUnmarked(s, t) && !(Needy(s) && SomeWakeDue(s))
    requires s.listHolder.Some? ==> s.listHolder.value in s.pcs && s.pcs[s.listHolder.value].Queueing?
    ensures Path(s, es, z) && HeldUnmarked(z, t) && z.listHolder == None && NoWakeDue(z, {})
  {
    if s.listHolder.Some? {
      var x := s.listHolder.value;
      es, z := [Enqueue(x)] + [], Step(s, Enqueue(x));
      Then(s, Enqueue(x), [], z);
    } else if SomeWakeDue(s) {
      es, z := WakesWasted(s, s.pcs.Keys);
    } else {
      es, z := [], s;
    }
    forall u | u in z.pcs ensures z.pcs[u] == Holding <==> s.pcs[u] == Holding {}
    forall u | u in z.pcs ensures ContenderAwake(z.pcs[u]) <==> ContenderAwake(s.pcs[u]) {}
    var w :| w in s.pcs && Awaits(s.pcs[w], s.meta.value);
    assert w in z.pcs && z.pcs[w] == s.pcs[w];
  }

  /** The condition is exact: whenever a lock strands a contender, the run can go on in such a way that
      somebody sleeps on the unlocked id and nobody is left who will wake it. */
  lemma StrandingLockStrands(s: State, t: ThreadId) returns (es: seq<Event>, z: State)
    requires Reachable(s) && Enabled(s, Lock(t)) && Strands(s, t)
    ensures Path(s, [Lock(t)] + es, z) && Abandoned(z)
  {
    ReachableInv(s);
    var s1 := Step(s, Lock(t));
    var value := LockedAfter(s.meta, s.pcs[t].range);
    assert s1.meta.value == value && s1.pcs == s.pcs[t := Holding];
    forall u | u in s.pcs ensures s.pcs[u] != Holding { assert !SomeHolder(s); }
    forall u | u in s1.pcs && ContenderAwake(s1.pcs[u]) ensures Awaits(s1.pcs[u], value) {
      assert ContenderAwake(s.pcs[u]);
    }
    var w :| w in s.pcs && Awaits(s.pcs[w], value);
    assert w in s1.pcs && Awaits(s1.pcs[w], value);
    if s.listHolder.Some? {
      assert ThreadOk(s, s.listHolder.value);
    }
    if SomeWakeDue(s1) {
      var u :| u in s1.pcs && s1.pcs[u] == WakeDue;
      assert s.pcs[u] == WakeDue;
    }
    var s2;
    es, s2 := ClearTheWay(s1, t);
    var fs;
    fs, z := SleepThenRelease(s2, t);
    Join(s1, es, s2, fs, z);
    es := es + fs;
    Then(s, Lock(t), es, z);
  }

  // ---------- a lock that strands a contender ----------

  function Scene(value: nat, p: Pc, q: Pc, r: Pc): State {
    State(Meta(1, 4, 1024, value, 0), map[0 := p, 1 := q, 2 := r], [], None)
  }

  /** Thread 0 takes the lock and thread 1 finds it taken. */
  lemma ContendedStart(es: seq<Event>, z: State)
    requires Path(Scene(5, Holding, Checking(5, 0), Outside), es, z)
    ensures Reachable(z)
  {
    var s0 := Scene(1, Outside, Outside, Outside);
    var s1 := Scene(1, Arriving(false, 0), Outside, Outside);
    var s2 := Scene(4, Holding, Outside, Outside);
    var s3 := Scene(4, Holding, Arriving(false, 0), Outside);
    assert Step(s3, Lock(1)) == Scene(5, Holding, Checking(5, 0), Outside);
    Then(s3, Lock(1), es, z);
    assert Step(s2, Call(1, 0)) == s3;
    Then(s2, Call(1, 0), [Lock(1)] + es, z);
    assert Step(s1, Lock(0)) == s2;
    Then(s1, Lock(0), [Call(1, 0)] + ([Lock(1)] + es), z);
    assert Step(s0, Call(0, 0)) == s1;
    Then(s0, Call(0, 0), [Lock(0)] + ([Call(1, 0)] + ([Lock(1)] + es)), z);
    assert Init(s0);
  }

  /** Thread 1 is about to go to sleep while thread 0 releases the lock. */
  lemma ReleasedEarly(es: seq<Event>, z: State)
    requires Path(Scene(1, WakeDue, Suspending(5, 0), Outside), es, z)
    ensures Reachable(z)
  {
    var s0 := Scene(5, Holding, Checking(5, 0), Outside);
    var s1 := Scene(5, Holding, Suspending(5, 0), Outside);
    assert Step(s1, Unlock(0)) == Scene(1, WakeDue, Suspending(5, 0), Outside);
    Then(s1, Unlock(0), es, z);
    assert Step(s0, FirstLook(1)) == s1;
    Then(s0, FirstLook(1), [Unlock(0)] + es, z);
    ContendedStart([FirstLook(1)] + ([Unlock(0)] + es), z);
  }

  lemma EnlargementStrands()
    ensures var s := Scene(1, Outside, Suspending(5, 0), Arriving(false, 4));
            Enabled(s, Lock(2)) && Strands(s, 2)
  {
    assert Awaits(Scene(1, Outside, Suspending(5, 0), Arriving(false, 4)).pcs[1], 5);
  }

  /** It happens: thread 1 is about to sleep on 5, the contended mark of the old range, thread 0 has released
      the lock and woken nobody, and thread 2 now takes the lock and enlarges `locked` to 5. */
  lemma EnlargingCanStrand() returns (s: State)
    ensures Reachable(s) && Enabled(s, Lock(2)) && Strands(s, 2)
  {
    var s2 := Scene(1, WakeDue, Suspending(5, 0), Outside);
    var s3 := Scene(1, Outside, Suspending(5, 0), Outside);
    s := Scene(1, Outside, Suspending(5, 0), Arriving(false, 4));
    assert Step(s3, Call(2, 4)) == s;
    Then(s3, Call(2, 4), [], s);
    assert Step(s2, Wake(0)) == s3;
    Then(s2, Wake(0), [Call(2, 4)] + [], s);
    ReleasedEarly([Wake(0)] + ([Call(2, 4)] + []), s);
    EnlargementStrands();
  }
}
