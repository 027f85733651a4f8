/** A join comes to its end: when it returns, when it sleeps, and that it can always return. */
module JoinProgress {
  import opened Tids
  import opened Join

  /** The task that `j` joins has ended, and the version has not come round since. */
  predicate HasEnded(s: State, j: nat)
    requires j in s.joiners
  {
    s.joiners[j].task < s.ends
  }

  /** As many tasks of the slot as it takes to come back to a version have not ended meanwhile. */
  predicate Recent(s: State, j: nat)
    requires j in s.joiners
  {
    s.ends - s.joiners[j].task < MAX32 - 1
  }

  /** How often the slot ended a task since the joined one began; it is at least 0. */
  function Gap(s: State, j: nat): int
    requires j in s.joiners
  {
    s.ends - s.joiners[j].task
  }

  lemma VersionTells(s: State, j: nat)
    requires Inv(s) && j in s.joiners
    ensures 0 <= Gap(s, j)
    ensures Version(s) == s.joiners[j].expected <==> Gap(s, j) % (MAX32 - 1) == 0
    ensures Recent(s, j) ==> (Version(s) == s.joiners[j].expected <==> !HasEnded(s, j))
  {
    assert JoinerOk(s, j);
    VersionRecurs(s.joiners[j].task, s.ends);
    SmallGap(s.ends - s.joiners[j].task);
  }

  /** A join of oneself is refused, and no other of a tid that was given out; a refused one never returns 0. */
  lemma RefusedIffSelf(s: State, j: nat, task: nat, tid: nat, self: bool)
    requires Enabled(s, BeginJoin(j, task, tid, self))
    ensures var z := Step(s, BeginJoin(j, task, tid, self));
            && j in z.joiners && z.joiners[j].task == task
            && z.joiners[j].pc == (if self then Invalid else Testing)
            && z.joiners[j].expected == VersionAfter(1, task)
  {}

  lemma {:induction false} RefusedStays(s: State, es: seq<Event>, j: nat)
    requires Executable(s, es) && j in s.joiners && s.joiners[j].pc.Invalid? && j !in s.queue
    ensures j in After(s, es).joiners && After(s, es).joiners[j].pc.Invalid?
    decreases |es|
  {
    if es != [] {
      RefusedStep(s, es[0], j);
      RefusedStays(Step(s, es[0]), es[1..], j);
    }
  }

  lemma RefusedStep(s: State, e: Event, j: nat)
    requires Enabled(s, e) && j in s.joiners && s.joiners[j].pc.Invalid? && j !in s.queue
    ensures var z := Step(s, e); j in z.joiners && z.joiners[j].pc.Invalid? && j !in z.queue
  {
    if e.Interrupted? { DropMembers(s.queue, e.j, j); }
    if e.WakeJoiners? { ZeroExcludesNobody(s.joiners, s.queue); }
  }

  /** The test lets join return 0 exactly if the number of ends since is not a multiple of 2^32 - 1: that is, if
      the task has ended, unless the versions have come round. */
  lemma JoinedIffEnded(s: State, j: nat)
    requires Reachable(s) && Enabled(s, TestVersion(j))
    ensures Step(s, TestVersion(j)).joiners[j].pc == if Gap(s, j) % (MAX32 - 1) == 0 then Waiting else Joined
    ensures Recent(s, j) ==> (Step(s, TestVersion(j)).joiners[j].pc.Joined? <==> HasEnded(s, j))
  {
    ReachableInv(s);
    VersionTells(s, j);
  }

  /** A joiner goes to sleep, last in the queue, exactly as long as its task has not ended. */
  lemma SleepsIffAlive(s: State, j: nat)
    requires Reachable(s) && Enabled(s, EnterWait(j)) && Recent(s, j)
    ensures var z := Step(s, EnterWait(j));
            if HasEnded(s, j) then z.joiners[j].pc.Testing? && z.queue == s.queue
            else z.joiners[j].pc.Queued? && z.queue == s.queue + [j]
  {
    ReachableInv(s);
    VersionTells(s, j);
  }

  // ---------- every join can return ----------

  /** What the thread in the slot does next. */
  function NextOfRunner(s: State): Event {
    match s.runner
    case Vacant => Start
    case Running => ReturnFn
    case FnReturned => ReturnKeys
    case KeysReturned => BumpVersion
    case Bumped => WakeJoiners
    case Woke => Release
  }

  function StepsToBump(r: Runner): nat {
    match r
    case KeysReturned => 1
    case FnReturned => 2
    case Running => 3
    case Vacant => 4
    case Woke => 5
    case Bumped => 6
  }

  /** How far joiner `j` is from its return: its task is to end, its wake to come, and its test to pass. */
  function Distance(s: State, j: nat): nat
    requires j in s.joiners
  {
    if s.joiners[j].pc.Joined? then 0
    else if !HasEnded(s, j) then 10 + StepsToBump(s.runner)
    else if s.joiners[j].pc.Queued? then 3
    else if s.joiners[j].pc.Waiting? then 2
    else 1
  }

  /** The next event on the way there. */
  function NextFor(s: State, j: nat): Event
    requires j in s.joiners
  {
    if !HasEnded(s, j) then NextOfRunner(s)
    else if s.joiners[j].pc.Queued? then WakeJoiners
    else if s.joiners[j].pc.Waiting? then EnterWait(j)
    else TestVersion(j)
  }

  lemma RunnerCloser(s: State, j: nat)
    requires Inv(s) && j in s.joiners && !HasEnded(s, j) && !s.joiners[j].pc.Invalid? && !s.joiners[j].pc.Joined?
    ensures Enabled(s, NextOfRunner(s))
    ensures var z := Step(s, NextOfRunner(s));
            && j in z.joiners && z.joiners[j].task == s.joiners[j].task && !z.joiners[j].pc.Invalid?
            && Recent(z, j) && Distance(z, j) < Distance(s, j)
  {
    assert JoinerOk(s, j);
  }

  lemma EndedCloser(s: State, j: nat)
    requires Inv(s) && j in s.joiners && HasEnded(s, j) && Recent(s, j)
    requires !s.joiners[j].pc.Invalid? && !s.joiners[j].pc.Joined?
    ensures Enabled(s, NextFor(s, j))
    ensures var z := Step(s, NextFor(s, j));
            && j in z.joiners && z.joiners[j].task == s.joiners[j].task && !z.joiners[j].pc.Invalid?
            && Recent(z, j) && Distance(z, j) < Distance(s, j)
  {
    assert JoinerOk(s, j);
    VersionTells(s, j);
    ZeroExcludesNobody(s.joiners, s.queue);
  }

  lemma {:induction false} JoinerReturns(s: State, j: nat) returns (es: seq<Event>)
    requires Inv(s) && j in s.joiners && Recent(s, j) && !s.joiners[j].pc.Invalid?
    ensures Executable(s, es) && j in After(s, es).joiners && After(s, es).joiners[j].pc.Joined?
    ensures forall e :: e in es ==> !e.BeginJoin? && !e.Interrupted?
    decreases Distance(s, j)
  {
    es := [];
    if !s.joiners[j].pc.Joined? {
      var e := NextFor(s, j);
      if HasEnded(s, j) { EndedCloser(s, j); } else { RunnerCloser(s, j); }
      StepInv(s, e);
      var fs := JoinerReturns(Step(s, e), j);
      es := [e] + fs;
      assert es[1..] == fs;
    }
  }

  /** From every reachable state a joiner that was not refused can return 0 without being interrupted: the task
      goes through its end, wakes it if it sleeps, and its next test passes. */
  lemma JoinCanReturn(s: State, j: nat) returns (es: seq<Event>)
    requires Reachable(s) && j in s.joiners && Recent(s, j) && !s.joiners[j].pc.Invalid?
    ensures Executable(s, es) && j in After(s, es).joiners && After(s, es).joiners[j].pc.Joined?
    ensures forall e :: e in es ==> !e.BeginJoin? && !e.Interrupted?
  {
    ReachableInv(s);
    es := JoinerReturns(s, j);
  }
}
