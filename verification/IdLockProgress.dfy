/** What the lock and unlock of an id achieve: who gets the lock, who sleeps, how far its versions reach. */
module IdLockProgress {
  import opened Wrappers
  import opened IdLock

  // ---------- the range of versions ----------

  /** The range of an acquisition that may enlarge `locked`: `e` takes a lock that nobody holds. */
  ghost function AcceptedRange(s: State, e: Event): set<int>
    requires Enabled(s, e)
  {
    if e.Lock? && !SomeHolder(s) && 0 <= s.pcs[e.t].range <= s.meta.maxRange then {s.pcs[e.t].range} else {}
  }

  /** The ranges accepted in a run. */
  ghost function AcceptedRanges(s: State, es: seq<Event>): set<int>
    requires Executable(s, es)
    decreases |es|
  {
    if es == [] then {} else AcceptedRange(s, es[0]) + AcceptedRanges(Step(s, es[0]), es[1..])
  }

  ghost predicate IsLargest(x: int, among: set<int>) {
    x in among && forall y :: y in among ==> y <= x
  }

  /** How many versions the lock spans. */
  function Span(m: Meta): int {
    m.locked - m.first
  }

  /** An acquisition leaves `locked` at the larger of its old value and the end of its range, if the range
      is valid, and alone if it is not; no other event changes it. */
  lemma SpanAfterStep(s: State, e: Event)
    requires Inv(s) && Enabled(s, e)
    ensures IsLargest(Span(Step(s, e).meta), {Span(s.meta)} + AcceptedRange(s, e))
    ensures Step(s, e).meta.first == s.meta.first && Step(s, e).meta.maxRange == s.meta.maxRange
  {}

  lemma {:induction false} SpanAfterRun(s: State, es: seq<Event>)
    requires Inv(s) && Executable(s, es)
    ensures IsLargest(Span(After(s, es).meta), {Span(s.meta)} + AcceptedRanges(s, es))
    ensures After(s, es).meta.first == s.meta.first
    decreases |es|
  {
    if es != [] {
      SpanAfterStep(s, es[0]);
      StepInv(s, es[0]);
      SpanAfterRun(Step(s, es[0]), es[1..]);
    }
  }

  /** In every run `locked` is `first` plus the largest of the initial range and the accepted ranges. */
  lemma LockedIsLargestRange(s: State, es: seq<Event>)
    requires Init(s) && Executable(s, es)
    ensures IsLargest(After(s, es).meta.locked - s.meta.first,
                      {s.meta.locked - s.meta.first} + AcceptedRanges(s, es))
  {
    InitInv(s);
    SpanAfterRun(s, es);
  }

  // ---------- who gets the lock and who sleeps ----------

  /** A thread gets the lock exactly if nobody has it, and otherwise marks it as contended and goes to
      wait for that mark to change. */
  lemma LockTakenIffFree(z: State, t: ThreadId)
    requires Reachable(z) && Enabled(z, Lock(t))
    ensures Step(z, Lock(t)).pcs[t] == Holding <==> !SomeHolder(z)
    ensures SomeHolder(z) ==>
              && Step(z, Lock(t)).pcs[t] == Checking(Contended(z.meta), z.pcs[t].range)
              && OwesWake(Step(z, Lock(t)).meta)
  {
    ReachableInv(z);
  }

  /** The lock is held on behalf of `t`'s wait: it has not changed since `t` marked it. */
  predicate Unchanged(z: State, t: ThreadId) {
    t in z.pcs && InFlight(z.pcs[t]) && z.meta.value == z.pcs[t].expected
  }

  /** At both looks a locker goes on to sleep exactly if the value is still the one it has left, and
      otherwise is back at the mutex, to be counted as having waited. */
  lemma SleepsIffUnchanged(z: State, t: ThreadId)
    requires Reachable(z)
    ensures Enabled(z, FirstLook(t)) ==>
              && (Step(z, FirstLook(t)).pcs[t].Suspending? <==> Unchanged(z, t))
              && (!Unchanged(z, t) ==> Step(z, FirstLook(t)).pcs[t] == Arriving(true, z.pcs[t].range))
    ensures Enabled(z, SecondLook(t)) ==>
              && (Step(z, SecondLook(t)).listHolder == Some(t) <==> Unchanged(z, t))
              && (!Unchanged(z, t) ==> Step(z, SecondLook(t)).pcs[t] == Arriving(true, z.pcs[t].range))
    ensures Enabled(z, Enqueue(t)) ==>
              && Step(z, Enqueue(t)).queue == z.queue + [t] && Step(z, Enqueue(t)).pcs[t].Queued?
  {
    ReachableInv(z);
    if t in z.pcs { assert ThreadOk(z, t); }
  }

  /** An interrupted sleeper leaves the list and tries again as one that has waited. */
  lemma InterruptedTriesAgain(z: State, t: ThreadId, u: ThreadId)
    requires Reachable(z) && Enabled(z, Interrupt(t))
    ensures Step(z, Interrupt(t)).pcs == z.pcs[t := Arriving(true, z.pcs[t].range)]
    ensures u in Step(z, Interrupt(t)).queue <==> u in z.queue && u != t
    ensures Step(z, Interrupt(t)).meta == z.meta
  {
    ReachableInv(z);
    WithoutFacts(z.queue, t);
  }

  /** Who is on the way to sleep can go on, or waits for the list, whose holder can go on. */
  lemma InFlightGoesOn(z: State, t: ThreadId) returns (e: Event)
    requires Reachable(z) && t in z.pcs && InFlight(z.pcs[t])
    ensures Enabled(z, e) && (e == FirstLook(t) || e == SecondLook(t) || e.Enqueue?)
    ensures e.Enqueue? && e.t != t ==>
              z.pcs[t].Suspending? && z.listHolder == Some(e.t) && Step(z, e).listHolder == None
  {
    ReachableInv(z);
    assert ThreadOk(z, t);
    if z.pcs[t].Checking? {
      e := FirstLook(t);
    } else if z.pcs[t].Queueing? {
      e := Enqueue(t);
    } else if z.listHolder.Some? {
      assert ThreadOk(z, z.listHolder.value);
      e := Enqueue(z.listHolder.value);
    } else {
      e := SecondLook(t);
    }
  }

  // ---------- handing the lock on ----------

  lemma {:induction false} RunJoin(s: State, es: seq<Event>, fs: seq<Event>)
    requires Executable(s, es) && Executable(After(s, es), fs)
    ensures Executable(s, es + fs) && After(s, es + fs) == After(After(s, es), fs)
    decreases |es|
  {
    if es == [] {
      assert es + fs == fs;
    } else {
      RunJoin(Step(s, es[0]), es[1..], fs);
      assert (es + fs)[1..] == es[1..] + fs;
    }
  }

  /** The holder unlocks `n` times over, once for each pending error and once to release. */
  function Unlocks(t: ThreadId, n: nat): seq<Event> {
    if n == 0 then [] else [Unlock(t)] + Unlocks(t, n - 1)
  }

  /** Each pending error is taken off by one unlock, which keeps the lock; the next one releases it. */
  lemma {:induction false} UnlocksRelease(s: State, t: ThreadId)
    requires Inv(s) && t in s.pcs && s.pcs[t] == Holding
    ensures Executable(s, Unlocks(t, s.meta.pending + 1))
    ensures After(s, Unlocks(t, s.meta.pending + 1)) ==
            Move(s.(meta := s.meta.(pending := 0, value := s.meta.first)), t,
                 if OwesWake(s.meta) then WakeDue else Outside)
    decreases s.meta.pending
  {
    var s1 := Step(s, Unlock(t));
    assert SomeHolder(s);
    if s.meta.pending == 0 {
      assert Unlocks(t, 1) == [Unlock(t)] + [];
      assert After(s1, []) == s1;
    } else {
      assert s.pcs[t := Holding] == s.pcs;
      StepInv(s, Unlock(t));
      UnlocksRelease(s1, t);
      var last := if OwesWake(s.meta) then WakeDue else Outside;
      assert s1.pcs[t := last] == s.pcs[t := last];
    }
  }

  /** The releaser wakes the first sleeper, which then takes the lock. */
  function HandOver(t: ThreadId, pending: nat, u: ThreadId): seq<Event> {
    Unlocks(t, pending + 1) + [Wake(t), Lock(u)]
  }

  /** One thread holds a contended lock and the list is in nobody's hands. */
  ghost predicate Handing(s: State, t: ThreadId) {
    Inv(s) && t in s.pcs && s.pcs[t] == Holding && OwesWake(s.meta) && s.listHolder == None
  }

  lemma WakeThenLock(s: State, t: ThreadId)
    requires t in s.pcs && s.pcs[t] == WakeDue && s.listHolder == None && s.meta.value == s.meta.first
    requires s.queue != [] && s.queue[0] in s.pcs && s.pcs[s.queue[0]].Queued?
    ensures Executable(s, [Wake(t), Lock(s.queue[0])])
    ensures var z := After(s, [Wake(t), Lock(s.queue[0])]);
            && z.pcs == s.pcs[t := Outside][s.queue[0] := Holding] && z.queue == s.queue[1..]
            && z.listHolder == None && OwesWake(z.meta) && z.meta.pending == s.meta.pending
  {
    var u := s.queue[0];
    var s1 := Step(s, Wake(t));
    var s2 := Step(s1, Lock(u));
    assert [Wake(t), Lock(u)][1..] == [Lock(u)] && [Lock(u)][1..] == [];
    assert Enabled(s1, Lock(u)) && After(s2, []) == s2;
    assert s2.pcs == s.pcs[t := Outside][u := Holding];
    assert After(s1, [Lock(u)]) == s2;
  }

  /** A contended lock goes from its holder to the first of the sleepers, and stays contended. */
  lemma HandedOver(s: State, t: ThreadId)
    requires Handing(s, t) && s.queue != []
    ensures Executable(s, HandOver(t, s.meta.pending, s.queue[0]))
    ensures var z := After(s, HandOver(t, s.meta.pending, s.queue[0]));
            && Handing(z, s.queue[0]) && z.queue == s.queue[1..] && z.meta.pending == 0
            && z.pcs == s.pcs[t := Outside][s.queue[0] := Holding]
  {
    var u := s.queue[0];
    assert ThreadOk(s, t) && u in s.queue;
    assert ThreadOk(s, u);
    UnlocksRelease(s, t);
    var s1 := After(s, Unlocks(t, s.meta.pending + 1));
    WakeThenLock(s1, t);
    RunJoin(s, Unlocks(t, s.meta.pending + 1), [Wake(t), Lock(u)]);
    RunInv(s, HandOver(t, s.meta.pending, u));
    assert s.pcs[t := WakeDue][t := Outside][u := Holding] == s.pcs[t := Outside][u := Holding];
  }

  /** All sleepers of `q` get the lock, one after the other. */
  function HandOvers(t: ThreadId, pending: nat, q: seq<ThreadId>): seq<Event>
    decreases |q|
  {
    if q == [] then [] else HandOver(t, pending, q[0]) + HandOvers(q[0], 0, q[1..])
  }

  function LastOf(t: ThreadId, q: seq<ThreadId>): ThreadId {
    if q == [] then t else q[|q| - 1]
  }

  /** The places after every sleeper of `q` has taken its turn. */
  function AfterTurns(pcs: map<ThreadId, Pc>, t: ThreadId, q: seq<ThreadId>): map<ThreadId, Pc>
    decreases |q|
  {
    if q == [] then pcs else AfterTurns(pcs[t := Outside][q[0] := Holding], q[0], q[1..])
  }

  /** Only the last sleeper still has the lock, and nobody else has moved. */
  lemma {:induction false} AfterTurnsPlaces(pcs: map<ThreadId, Pc>, t: ThreadId, q: seq<ThreadId>, u: ThreadId)
    requires t in pcs && pcs[t] == Holding && NoDuplicates(q) && t !in q && u in pcs
    ensures u in AfterTurns(pcs, t, q)
    ensures AfterTurns(pcs, t, q)[u] ==
            if u == LastOf(t, q) then Holding else if u == t || u in q then Outside else pcs[u]
    decreases |q|
  {
    if q != [] {
      assert forall v :: v in q <==> v == q[0] || v in q[1..];
      AfterTurnsPlaces(pcs[t := Outside][q[0] := Holding], q[0], q[1..], u);
    }
  }

  lemma {:induction false} TurnsRun(s: State, t: ThreadId)
    requires Handing(s, t)
    ensures Executable(s, HandOvers(t, s.meta.pending, s.queue))
    ensures var z := After(s, HandOvers(t, s.meta.pending, s.queue));
            z.queue == [] && OwesWake(z.meta) && z.pcs == AfterTurns(s.pcs, t, s.queue)
    decreases |s.queue|
  {
    if s.queue != [] {
      var u := s.queue[0];
      HandedOver(s, t);
      TurnsRun(After(s, HandOver(t, s.meta.pending, u)), u);
      RunJoin(s, HandOver(t, s.meta.pending, u), HandOvers(u, 0, s.queue[1..]));
    }
  }

  /** From a contended holder every sleeper gets the lock without any further call, in the order of the
      list, and in the end only the last of them has it. */
  lemma SleepersTakeTurns(s: State, t: ThreadId, u: ThreadId)
    requires Handing(s, t) && u in s.pcs
    ensures Executable(s, HandOvers(t, s.meta.pending, s.queue))
    ensures var z := After(s, HandOvers(t, s.meta.pending, s.queue));
            && z.queue == [] && u in z.pcs
            && z.pcs[u] == (if u == LastOf(t, s.queue) then Holding
                            else if u == t || u in s.queue then Outside else s.pcs[u])
  {
    TurnsRun(s, t);
    assert ThreadOk(s, t);
    AfterTurnsPlaces(s.pcs, t, s.queue, u);
  }
}
