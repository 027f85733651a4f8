/** bthread_id_lock and bthread_id_unlock: a mutex whose contention bit is encoded in version numbers
    and whose waiters sleep on a butex. */
module IdLock {
  import opened Wrappers

  type ThreadId = nat

  /** The fields of bthread::Id that lock and unlock use; `value` is `*butex`, `pending` the length
      of `pending_q`. */
  datatype Meta = Meta(first: nat, locked: nat, maxRange: nat, value: nat, pending: nat)

  function Contended(m: Meta): nat {
    m.locked + 1
  }

  function Unlockable(m: Meta): nat {
    m.locked + 2
  }

  datatype LockOutcome = Acquired | MustWait(expected: nat) | Refused

  /** The version the lock is taken with: a valid larger range enlarges it. */
  function LockedAfter(m: Meta, range: int): nat {
    if range <= 0 || range > m.maxRange || range + m.first <= m.locked then m.locked else m.first + range
  }

  /** One pass of the loop of bthread_id_lock_and_reset_range_verbose, under the mutex. */
  function LockPass(m: Meta, ever: bool, range: int): (Meta, LockOutcome) {
    if m.value == m.first then
      var m2 := m.(locked := LockedAfter(m, range));
      (m2.(value := if ever then Contended(m2) else m2.locked), Acquired)
    else if m.value != Unlockable(m) then
      (m.(value := Contended(m)), MustWait(Contended(m)))
    else
      (m, Refused)
  }

  datatype UnlockOutcome = NotLocked | RunOnError | Released(wake: bool)

  /** bthread_id_unlock under the mutex; with a pending error the callback runs and the lock stays. */
  function UnlockPass(m: Meta): (Meta, UnlockOutcome) {
    if m.value == m.first then (m, NotLocked)
    else if m.pending > 0 then (m.(pending := m.pending - 1), RunOnError)
    else (m.(value := m.first), Released(m.value == Contended(m)))
  }

  /** Whoever holds the lock will wake somebody when it releases it. */
  predicate OwesWake(m: Meta) {
    m.value == Contended(m)
  }

  /** Releasing undoes taking, but for an enlarged range, and wakes somebody exactly if the taker has waited
      before or somebody came to wait in between. */
  lemma LockUnlockRoundTrip(m: Meta, ever: bool, range: int, ever2: bool, range2: int)
    requires m.value == m.first < m.locked && m.pending == 0
    ensures var (held, outcome) := LockPass(m, ever, range);
            var (held2, outcome2) := LockPass(held, ever2, range2);
            && outcome == Acquired && outcome2 == MustWait(held2.value)
            && UnlockPass(held) == (m.(locked := held.locked), Released(ever))
            && UnlockPass(held2) == (m.(locked := held.locked), Released(true))
  {}

  /** The object itself: each method is the region its source function runs under `mutex`. */
  class Id {
    const first: nat
    const maxRange: nat
    var locked: nat
    var butex: nat
    var pending: nat

    constructor (first: nat, range: nat, maxRange: nat)
      requires 0 < range <= maxRange
      ensures Snapshot() == Meta(first, first + range, maxRange, first, 0)
    {
      this.first, this.maxRange := first, maxRange;
      locked, butex, pending := first + range, first, 0;
    }

    function Snapshot(): Meta
      reads this
    {
      Meta(first, locked, maxRange, butex, pending)
    }

    /** Taken exactly if it was free; then it stays so marked that an unlock wakes somebody exactly if the
        caller has waited before. A range from 1 to the maximum makes `locked` the larger of itself and the
        end of that range, any other range leaves it alone. Who must wait leaves an owner that will wake,
        and waits for any change. */
    method LockSection(ever: bool, range: int) returns (outcome: LockOutcome)
      modifies this
      ensures (Snapshot(), outcome) == LockPass(old(Snapshot()), ever, range)
      ensures outcome == Acquired <==> old(butex) == first
      ensures outcome == Refused <==> old(butex) != first && old(butex) == old(locked) + 2
      ensures outcome == Acquired && 0 < range <= maxRange ==>
                locked == if old(locked) < first + range then first + range else old(locked)
      ensures outcome != Acquired || range <= 0 || range > maxRange ==> locked == old(locked)
      ensures outcome == Acquired ==> butex == if ever then locked + 1 else locked
      ensures outcome == Acquired && pending == 0 && first < old(locked) ==> UnlockPass(Snapshot()).1 == Released(ever)
      ensures outcome.MustWait? ==> butex == outcome.expected && OwesWake(Snapshot())
      ensures outcome == Refused ==> butex == old(butex)
      ensures pending == old(pending)
    {
      if butex == first {
        if range == 0 {
        } else if range < 0 || range > maxRange || range + first <= locked {
        } else {
          locked := first + range;
        }
        butex := if ever then locked + 1 else locked;
        outcome := Acquired;
      } else if butex != locked + 2 {
        butex := locked + 1;
        outcome := MustWait(butex);
      } else {
        outcome := Refused;
      }
    }

    /** The lock is free afterwards unless an error is pending, and a wake is owed exactly if the lock was
        contended. */
    method UnlockSection() returns (outcome: UnlockOutcome)
      modifies this
      ensures (Snapshot(), outcome) == UnlockPass(old(Snapshot()))
      ensures outcome == RunOnError <==> old(butex) != first && old(pending) > 0
      ensures outcome == RunOnError ==> butex == old(butex) && pending == old(pending) - 1
      ensures outcome != RunOnError ==> forall ever, range :: LockPass(Snapshot(), ever, range).1 == Acquired
      ensures outcome.Released? ==> (outcome.wake <==> old(OwesWake(Snapshot()))) && pending == 0
      ensures locked == old(locked)
    {
      if butex == first {
        return NotLocked;
      }
      if pending > 0 {
        pending := pending - 1;
        outcome := RunOnError;
      } else {
        var contended := butex == locked + 1;
        butex := first;
        outcome := Released(contended);
      }
    }
  }

  // ---------- the protocol ----------

  /** Where a thread stands. `Arriving` is about to take the mutex; `Checking` and `Suspending` are
      inside butex_wait before and after its first look at the value; `Queueing` holds the butex
      lock after the second look; `WakeDue` has released and owes a butex_wake. */
  datatype Pc =
    | Outside
    | Arriving(ever: bool, range: int)
    | Checking(expected: nat, range: int)
    | Suspending(expected: nat, range: int)
    | Queueing(expected: nat, range: int)
    | Queued(range: int)
    | Holding
    | WakeDue

  datatype State = State(meta: Meta, pcs: map<ThreadId, Pc>, queue: seq<ThreadId>, listHolder: Option<ThreadId>)

  datatype Event =
    | Call(t: ThreadId, range: int)
    | Lock(t: ThreadId)
    | FirstLook(t: ThreadId)
    | SecondLook(t: ThreadId)
    | Enqueue(t: ThreadId)
    | Interrupt(t: ThreadId)
    | Unlock(t: ThreadId)
    | Wake(t: ThreadId)
    | ReportError

  function Move(s: State, t: ThreadId, pc: Pc): State {
    s.(pcs := s.pcs[t := pc])
  }

  function Without(q: seq<ThreadId>, t: ThreadId): seq<ThreadId> {
    if q == [] then [] else if q[0] == t then q[1..] else [q[0]] + Without(q[1..], t)
  }

  predicate Enabled(s: State, e: Event) {
    if e.ReportError? then s.meta.value != s.meta.first
    else
      e.t in s.pcs &&
      var pc := s.pcs[e.t];
      match e
      case Call(t, range) => pc == Outside
      case Lock(t) => pc.Arriving?
      case FirstLook(t) => pc.Checking?
      case SecondLook(t) => pc.Suspending? && s.listHolder == None
      case Enqueue(t) => pc.Queueing?
      case Interrupt(t) => pc.Suspending? || (pc.Queued? && s.listHolder == None)
      case Unlock(t) => pc == Holding
      case Wake(t) => pc == WakeDue && s.listHolder == None &&
                      (s.queue != [] ==> s.queue[0] in s.pcs && s.pcs[s.queue[0]].Queued?)
  }

  function Step(s: State, e: Event): State
    requires Enabled(s, e)
  {
    match e
    case Call(t, range) => Move(s, t, Arriving(false, range))
    case Lock(t) =>
      var pc := s.pcs[t];
      var (m2, outcome) := LockPass(s.meta, pc.ever, pc.range);
      Move(s.(meta := m2), t,
           match outcome
           case Acquired => Holding
           case MustWait(expected) => Checking(expected, pc.range)
           case Refused => Outside)
    case FirstLook(t) =>
      var pc := s.pcs[t];
      Move(s, t, if s.meta.value != pc.expected then Arriving(true, pc.range) else Suspending(pc.expected, pc.range))
    case SecondLook(t) =>
      var pc := s.pcs[t];
      if s.meta.value != pc.expected then Move(s, t, Arriving(true, pc.range))
      else Move(s.(listHolder := Some(t)), t, Queueing(pc.expected, pc.range))
    case Enqueue(t) => Move(s.(queue := s.queue + [t], listHolder := None), t, Queued(s.pcs[t].range))
    case Interrupt(t) => Move(s.(queue := Without(s.queue, t)), t, Arriving(true, s.pcs[t].range))
    case Unlock(t) =>
      var (m2, outcome) := UnlockPass(s.meta);
      Move(s.(meta := m2), t,
           match outcome
           case NotLocked => Outside
           case RunOnError => Holding
           case Released(wake) => if wake then WakeDue else Outside)
    case Wake(t) =>
      var s1 := Move(s, t, Outside);
      if s.queue == [] then s1
      else Move(s1.(queue := s.queue[1..]), s.queue[0], Arriving(true, s.pcs[s.queue[0]].range))
    case ReportError => s.(meta := s.meta.(pending := s.meta.pending + 1))
  }

  /** Inside butex_wait with an expected value, not yet in the list. */
  predicate InFlight(pc: Pc) {
    pc.Checking? || pc.Suspending? || pc.Queueing?
  }

  predicate Executable(s: State, es: seq<Event>)
    decreases |es|
  {
    es != [] ==> Enabled(s, es[0]) && Executable(Step(s, es[0]), es[1..])
  }

  function After(s: State, es: seq<Event>): State
    requires Executable(s, es)
    decreases |es|
  {
    if es == [] then s else After(Step(s, es[0]), es[1..])
  }

  predicate Init(s: State) {
    && s.meta.first < s.meta.locked && s.meta.value == s.meta.first && s.queue == [] && s.listHolder == None
    && forall t :: t in s.pcs ==> s.pcs[t] == Outside
  }

  // ---------- the invariant of all runs ----------

  /** `t` is in the list, or holds its lock, exactly if its place says so. */
  ghost predicate ThreadOk(s: State, t: ThreadId)
    requires t in s.pcs
  {
    var pc := s.pcs[t];
    && (InFlight(pc) ==> s.meta.first < pc.expected)
    && (pc.Queued? <==> t in s.queue)
    && (pc.Queueing? <==> s.listHolder == Some(t))
  }

  ghost predicate NoDuplicates(q: seq<ThreadId>) {
    forall i, j :: 0 <= i < j < |q| ==> q[i] != q[j]
  }

  ghost predicate SomeHolder(s: State) {
    exists t :: t in s.pcs && s.pcs[t] == Holding
  }

  /** The value says whether the lock is taken, and at most one thread has it. */
  ghost predicate MutexOk(s: State) {
    && s.meta.first < s.meta.locked
    && (s.meta.value == s.meta.first || s.meta.value == s.meta.locked || s.meta.value == Contended(s.meta))
    && (forall t, u {:trigger s.pcs[t], s.pcs[u]} ::
          t in s.pcs && u in s.pcs && s.pcs[t] == Holding && s.pcs[u] == Holding ==> t == u)
    && (s.meta.value != s.meta.first <==> SomeHolder(s))
  }

  ghost predicate Inv(s: State) {
    && MutexOk(s) && NoDuplicates(s.queue)
    && (forall t :: t in s.queue ==> t in s.pcs)
    && (s.listHolder.Some? ==> s.listHolder.value in s.pcs)
    && (forall t {:trigger ThreadOk(s, t)} :: t in s.pcs ==> ThreadOk(s, t))
  }

  lemma InitInv(s: State)
    requires Init(s)
    ensures Inv(s)
  {
    forall t | t in s.pcs ensures ThreadOk(s, t) {}
  }

  lemma {:induction false} WithoutFacts(q: seq<ThreadId>, t: ThreadId)
    requires NoDuplicates(q)
    ensures NoDuplicates(Without(q, t))
    ensures forall u :: u in Without(q, t) <==> u in q && u != t
  {
    if q != [] {
      assert forall u :: u in q <==> u == q[0] || u in q[1..];
      if q[0] != t {
        WithoutFacts(q[1..], t);
        assert q[0] !in Without(q[1..], t);
      }
    }
  }

  /** A step of `t` that neither takes nor releases the lock. */
  lemma SameMutex(s: State, s': State, t: ThreadId)
    requires MutexOk(s) && t in s.pcs && t in s'.pcs && s'.pcs == s.pcs[t := s'.pcs[t]]
    requires s'.meta == s.meta.(value := s'.meta.value, pending := s'.meta.pending)
    requires s'.meta.value == s.meta.value || (s.meta.value != s.meta.first && s'.meta.value == Contended(s.meta))
    requires s.pcs[t] == Holding <==> s'.pcs[t] == Holding
    ensures MutexOk(s')
  {
    if SomeHolder(s) {
      var u :| u in s.pcs && s.pcs[u] == Holding;
      assert u in s'.pcs && s'.pcs[u] == Holding;
    }
    if SomeHolder(s') {
      var u :| u in s'.pcs && s'.pcs[u] == Holding;
      assert u in s.pcs && s.pcs[u] == Holding;
    }
  }

  lemma LockInv(s: State, t: ThreadId)
    requires Inv(s) && Enabled(s, Lock(t))
    ensures Inv(Step(s, Lock(t)))
  {
    var s' := Step(s, Lock(t));
    assert t in s'.pcs && s'.pcs == s.pcs[t := s'.pcs[t]];
    assert ThreadOk(s, t);
    if s.meta.value == s.meta.first {
      assert s'.pcs[t] == Holding;
      assert MutexOk(s') by {
        assert !SomeHolder(s);
        assert SomeHolder(s');
      }
    } else {
      SameMutex(s, s', t);
    }
    forall u | u in s'.pcs ensures ThreadOk(s', u) { assert ThreadOk(s, u); }
  }

  lemma UnlockInv(s: State, t: ThreadId)
    requires Inv(s) && Enabled(s, Unlock(t))
    ensures Inv(Step(s, Unlock(t)))
  {
    var s' := Step(s, Unlock(t));
    assert ThreadOk(s, t);
    assert SomeHolder(s);
    if s.meta.pending > 0 {
      SameMutex(s, s', t);
    } else {
      forall u | u in s'.pcs ensures s'.pcs[u] != Holding { assert u == t || s'.pcs[u] == s.pcs[u]; }
    }
    forall u | u in s'.pcs ensures ThreadOk(s', u) { assert ThreadOk(s, u); }
  }

  lemma WakeInv(s: State, t: ThreadId)
    requires Inv(s) && Enabled(s, Wake(t))
    ensures Inv(Step(s, Wake(t)))
  {
    var s' := Step(s, Wake(t));
    assert ThreadOk(s, t);
    if s.queue == [] {
      SameMutex(s, s', t);
    } else {
      var f := s.queue[0];
      var s1 := Move(s, t, Outside);
      assert ThreadOk(s, f);
      SameMutex(s, s1, t);
      SameMutex(s1, s', f);
      assert forall u :: u in s.queue <==> u == f || u in s.queue[1..];
    }
    forall u | u in s'.pcs ensures ThreadOk(s', u) { assert ThreadOk(s, u); }
  }

  /** The steps that neither lock, unlock nor wake. */
  lemma OtherInv(s: State, e: Event)
    requires Inv(s) && Enabled(s, e) && !e.Lock? && !e.Unlock? && !e.Wake? && !e.ReportError?
    ensures Inv(Step(s, e))
  {
    var s' := Step(s, e);
    assert ThreadOk(s, e.t);
    SameMutex(s, s', e.t);
    WithoutFacts(s.queue, e.t);
    forall u | u in s'.pcs ensures ThreadOk(s', u) { assert ThreadOk(s, u); }
  }

  lemma StepInv(s: State, e: Event)
    requires Inv(s) && Enabled(s, e)
    ensures Inv(Step(s, e))
  {
    match e {
      case Lock(t) => LockInv(s, t);
      case Unlock(t) => UnlockInv(s, t);
      case Wake(t) => WakeInv(s, t);
      case ReportError =>
        var s' := Step(s, e);
        assert SomeHolder(s) <==> SomeHolder(s');
        forall t | t in s'.pcs ensures ThreadOk(s', t) { assert ThreadOk(s, t); }
      case _ => OtherInv(s, e);
    }
  }

  lemma {:induction false} RunInv(s: State, es: seq<Event>)
    requires Inv(s) && Executable(s, es)
    ensures Inv(After(s, es))
    decreases |es|
  {
    if es != [] {
      StepInv(s, es[0]);
      RunInv(Step(s, es[0]), es[1..]);
    }
  }

  ghost predicate Reachable(z: State) {
    exists s, es :: Init(s) && Executable(s, es) && After(s, es) == z
  }

  lemma ReachableInv(z: State)
    requires Reachable(z)
    ensures Inv(z)
  {
    var s, es :| Init(s) && Executable(s, es) && After(s, es) == z;
    InitInv(s);
    RunInv(s, es);
  }

  /** At most one thread is between a successful lock and its unlock, the value tells whether there is
      one, and its unlock never finds the id unlocked. */
  lemma MutualExclusion(z: State)
    requires Reachable(z)
    ensures forall t, u :: t in z.pcs && u in z.pcs && z.pcs[t] == Holding && z.pcs[u] == Holding ==> t == u
    ensures z.meta.value == z.meta.first <==> !SomeHolder(z)
    ensures forall t :: t in z.pcs && z.pcs[t] == Holding ==> UnlockPass(z.meta).1 != NotLocked
  {
    ReachableInv(z);
  }
}
