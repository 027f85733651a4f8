/** A worker without a task: it comes to the end of its search, and finds a task if there is one. */
module ParkingLooking {
  import opened StealScan
  import opened Parking
  import opened ParkingCover
  import opened ParkingTasks

  // ---------- a worker that looks for work comes to an end ----------

  /** What worker `w` does next while it has no task. */
  function NextLook(s: State, w: nat): Event
    requires w < |s.workers|
  {
    match s.workers[w].pc
    case Busy => Finish(w)
    case PopOwn => TryOwn(w)
    case PopRemote => TryRemote(w)
    case Save => SaveState(w)
    case ScanRq(i) => if i == |s.workers| then EndScan(w) else ScanOne(w)
    case ScanRemote(_) => ScanOne(w)
    case Idle => Settle(w)
    case Wait => EnterWait(w)
    case Blocked => Spurious(w)
  }

  predicate Looking(pc: Pc) {
    !pc.Busy? && !pc.Blocked?
  }

  /** The steps until a worker without a task blocks, if it finds nothing and is not signalled. */
  function LooksLeft(n: nat, pc: Pc): int {
    match pc
    case PopOwn => 2 * n + 6
    case PopRemote => 2 * n + 5
    case Save => 2 * n + 4
    case ScanRq(i) => 2 * (n - i) + 3
    case ScanRemote(i) => 2 * (n - i) + 2
    case Idle => 2
    case Wait => 1
    case Busy => 0
    case Blocked => 0
  }

  /** A worker that looks for work can always go on by itself, and then gets a task, comes closer to its
      wait, blocks there, or turns back from it because its lot was signalled since it saved the state. */
  lemma LookingEnds(s: State, w: nat)
    requires Shape(s) && w < |s.workers| && Looking(s.workers[w].pc)
    ensures Enabled(s, NextLook(s, w))
    ensures var pc, pc' := s.workers[w].pc, Step(s, NextLook(s, w)).workers[w].pc;
            && 0 < LooksLeft(|s.workers|, pc) <= 2 * |s.workers| + 6
            && (LooksLeft(|s.workers|, pc') < LooksLeft(|s.workers|, pc) ||
                (pc.Wait? && pc'.PopRemote? && s.workers[w].saved < s.lots[s.workers[w].lot]))
            && (pc'.Busy? <==> Handed(s, NextLook(s, w)).Some?)
            && (pc'.Blocked? ==> pc.Wait?)
  {
    assert WorkerOk(s, w);
  }
  // ---------- a worker that looks for work finds it ----------

  /** Worker `w` has still to look at queue `q`, with a scan that looks at every group. */
  ghost predicate WillLook(s: State, w: nat, q: Queue)
    requires |s.workers| > 0
  {
    && w < |s.workers|
    && var r := s.workers[w];
       if r.pc.PopOwn? || r.pc.PopRemote? || r.pc.Save? then
         CoversAll(r.seed, r.offset, |s.workers|)
       else ToVisit(|s.workers|, r, q)
  }

  lemma SaveLooks(s: State, w: nat, q: Queue)
    requires Shape(s) && CanSaveState(s, w) && WillLook(s, w, q) && q in s.queues
    ensures WillLook(StepSaveState(s, w), w, q)
  {
    var n, r := |s.workers|, s.workers[w];
    assert IsHit(r.seed, r.offset, n, q.g);
    var j: nat :| j < n && Hits(r.seed, r.offset, n, j, q.g);
    assert LooksLater(n, StepSaveState(s, w).workers[w], q, j);
  }

  lemma ScanLooks(s: State, w: nat, q: Queue)
    requires Shape(s) && CanScanOne(s, w) && WillLook(s, w, q) && q in s.queues && s.queues[q] != []
    requires s.queues[Target(|s.workers|, s.workers[w])] == []
    ensures WillLook(StepScanOne(s, w), w, q)
  {
    var n, r := |s.workers|, s.workers[w];
    var j: nat :| LooksLater(n, r, q, j);
    assert LooksLater(n, StepScanOne(s, w).workers[w], q, j);
  }

  /** Each step of such a worker hands it a task, or leaves it closer to the queue. */
  lemma LookStep(s: State, w: nat, q: Queue)
    requires Shape(s) && WillLook(s, w, q) && q in s.queues && s.queues[q] != [] && Looking(s.workers[w].pc)
    ensures Enabled(s, NextLook(s, w))
    ensures var z := Step(s, NextLook(s, w));
            && |z.workers| == |s.workers|
            && (z.workers[w].pc.Busy? ||
                (z.queues == s.queues && WillLook(z, w, q) && Looking(z.workers[w].pc) &&
                 LooksLeft(|s.workers|, z.workers[w].pc) < LooksLeft(|s.workers|, s.workers[w].pc)))
  {
    assert WorkerOk(s, w);
    LookingEnds(s, w);
    match s.workers[w].pc {
      case Save => SaveLooks(s, w, q);
      case ScanRq(_) => if s.queues[Target(|s.workers|, s.workers[w])] == [] { ScanLooks(s, w, q); }
      case ScanRemote(_) => if s.queues[Target(|s.workers|, s.workers[w])] == [] { ScanLooks(s, w, q); }
      case _ =>
    }
  }

  lemma {:induction false} LookerRuns(s: State, w: nat, q: Queue) returns (es: seq<Event>)
    requires Shape(s) && WillLook(s, w, q) && q in s.queues && s.queues[q] != [] && Looking(s.workers[w].pc)
    ensures Executable(s, es) && (forall e :: e in es ==> WorkerEvent(e) && e.w == w)
    ensures w < |After(s, es).workers| && After(s, es).workers[w].pc.Busy?
    decreases LooksLeft(|s.workers|, s.workers[w].pc)
  {
    var e := NextLook(s, w);
    LookStep(s, w, q);
    ShapeStep(s, e);
    var fs := [];
    if !Step(s, e).workers[w].pc.Busy? { fs := LookerRuns(Step(s, e), w, q); }
    es := [e] + fs;
    assert es[1..] == fs;
  }

  /** If some queue holds a task, a worker that looks for one, and whose scan covers all groups, gets one by
      its own steps: from its own queues, or by stealing. */
  lemma LookerGetsTask(s0: State, ds: seq<Event>, w: nat, q: Queue) returns (es: seq<Event>)
    requires Init(s0) && Executable(s0, ds)
    requires var s := After(s0, ds);
             w < |s.workers| && q in s.queues && s.queues[q] != [] && Searches(s, w)
    ensures Executable(After(s0, ds), es) && (forall e :: e in es ==> WorkerEvent(e) && e.w == w)
    ensures var z := After(After(s0, ds), es); w < |z.workers| && z.workers[w].pc.Busy?
  {
    InitInv(s0);
    ShapeRun(s0, ds);
    es := LookerRuns(After(s0, ds), w, q);
  }

  /** Worker `w` has begun to look, not yet to scan, and its scan will look at every group. */
  ghost predicate Searches(s: State, w: nat)
    requires w < |s.workers|
  {
    var r := s.workers[w];
    (r.pc.PopOwn? || r.pc.PopRemote? || r.pc.Save?) && CoversAll(r.seed, r.offset, |s.workers|)
  }

  lemma {:induction false} ShapeRun(s: State, es: seq<Event>)
    requires Shape(s) && Executable(s, es)
    ensures Shape(After(s, es))
    decreases |es|
  {
    if es != [] {
      ShapeStep(s, es[0]);
      ShapeRun(Step(s, es[0]), es[1..]);
    }
  }
}
