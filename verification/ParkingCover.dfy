/** Every queue that holds a task has somebody who will see it. */
module ParkingCover {
  import opened Arithmetic
  import opened StealScan
  import opened Parking

  // ---------- shape ----------

  ghost predicate WorkerOk(s: State, w: nat)
    requires w < |s.workers|
  {
    var r := s.workers[w];
    && r.lot < |s.lots| && r.saved <= s.lots[r.lot]
    && (r.pc.ScanRq? ==> r.pc.i <= |s.workers|) && (r.pc.ScanRemote? ==> r.pc.i < |s.workers|)
  }

  predicate CallOk(call: Call) {
    0 < call.left && call.start < PARKING_LOT_NUM && call.tried < PARKING_LOT_NUM
  }

  ghost predicate Shape(s: State) {
    && |s.workers| > 0 && |s.lots| == PARKING_LOT_NUM
    && (forall w: nat {:trigger WorkerOk(s, w)} :: w < |s.workers| ==> WorkerOk(s, w))
    && (forall q {:trigger q in s.queues} {:trigger q in s.quiet} ::
          (q in s.queues <==> q.g < |s.workers|) && (q in s.quiet <==> q.g < |s.workers|))
    && (forall c {:trigger s.calls[c]} :: c in s.calls ==> CallOk(s.calls[c]))
  }

  // ---------- who will see a queue ----------

  /** The scan of worker `r` has still to look at queue `q`. */
  ghost predicate ToVisit(n: nat, r: Worker, q: Queue)
    requires n > 0
  {
    exists j: nat :: LooksLater(n, r, q, j)
  }

  ghost predicate LooksLater(n: nat, r: Worker, q: Queue, j: nat)
    requires n > 0
  {
    && Scanning(r.pc) && j < n && Hits(r.seed, r.offset, n, j, q.g)
    && (r.pc.i < j || (r.pc.i == j && (r.pc.ScanRq? || q.Remote?)))
  }

  /** Worker `w` looks at queue `q` before it can block. */
  ghost predicate Alert(s: State, w: nat, q: Queue) {
    && w < |s.workers| && s.workers[w].lot < |s.lots|
    && var r := s.workers[w];
       match r.pc
       case Blocked => false
       case Busy => true
       case PopOwn => true
       case PopRemote => true
       case Save => true
       case _ => s.lots[r.lot] != r.saved || ToVisit(|s.workers|, r, q)
  }

  /** Lot number `k` of the call is still to be signalled. */
  predicate LotAhead(call: Call, k: nat) {
    k < PARKING_LOT_NUM && (call.tried < k || (call.tried == k && !call.bumped))
  }

  /** Call `c` has still to signal the lot of worker `w`, at its turn `k`, or to wake somebody there. */
  ghost predicate WillSignal(s: State, c: nat, w: nat, k: nat) {
    && c in s.calls && w < |s.workers| && k < PARKING_LOT_NUM && LotAt(s.calls[c], k) == s.workers[w].lot
    && (LotAhead(s.calls[c], k) || (k == s.calls[c].tried && s.workers[w].pc.Blocked?))
  }

  ghost predicate SomeCall(s: State, w: nat) {
    exists c: nat, k: nat :: WillSignal(s, c, w, k)
  }

  ghost predicate Covered(s: State, w: nat, q: Queue) {
    Alert(s, w, q) || SomeCall(s, w) || (q in s.quiet && s.quiet[q] > 0)
  }

  /** A worker that will save the state of its lot and scan all queues before it can block. */
  predicate Awake(pc: Pc) {
    pc.Busy? || pc.PopOwn? || pc.PopRemote? || pc.Save?
  }

  ghost predicate SomeAwake(s: State) {
    exists w: nat :: w < |s.workers| && Awake(s.workers[w].pc)
  }

  // ---------- how often a lot can be signalled while nobody takes a task ----------

  /** All tasks queued in groups below `n`. */
  function Queued(queues: map<Queue, seq<Task>>, n: nat): nat {
    if n == 0 then 0 else
      Queued(queues, n - 1) + (if Rq(n - 1) in queues then |queues[Rq(n - 1)]| else 0)
      + (if Remote(n - 1) in queues then |queues[Remote(n - 1)]| else 0)
  }

  /** The queues of groups below `n` that owe a signal for quiet pushes. */
  function Owing(quiet: map<Queue, nat>, n: nat): nat {
    if n == 0 then 0 else
      Owing(quiet, n - 1) + (if Rq(n - 1) in quiet && quiet[Rq(n - 1)] > 0 then 1 else 0)
      + (if Remote(n - 1) in quiet && quiet[Remote(n - 1)] > 0 then 1 else 0)
  }

  /** The calls that have still to increase the counter of `lot`. */
  ghost function Pending(calls: map<nat, Call>, lot: nat): set<nat> {
    set c | c in calls &&
            exists k: nat {:trigger LotAhead(calls[c], k)} :: LotAhead(calls[c], k) && LotAt(calls[c], k) == lot
  }

  /** The worker that saved the state of its lot last, and how many signals to the lot were possible then
      without a further push. */
  datatype Watch = Watch(last: nat, base: nat)

  function NextWatch(s: State, h: Watch, e: Event): Watch {
    if e.SaveState? then Watch(e.w, |s.calls| + 2 * |s.workers|) else h
  }

  /** Every signal since then comes from a call or a quiet push of that moment, or from a task queued since. */
  ghost predicate Counted(s: State, h: Watch)
    requires h.last < |s.workers| && s.workers[h.last].lot < |s.lots|
  {
    var r := s.workers[h.last];
    s.lots[r.lot] - r.saved + |Pending(s.calls, r.lot)| + Owing(s.quiet, |s.workers|)
      <= h.base + Queued(s.queues, |s.workers|)
  }

  ghost predicate LastCovers(s: State, h: Watch) {
    && (forall q {:trigger Covered(s, h.last, q)} :: q in s.queues && s.queues[q] != [] ==> Covered(s, h.last, q))
    && h.last < |s.workers| && s.workers[h.last].lot < |s.lots| && Counted(s, h)
  }

  /** Somebody is awake, or the worker that saved its state last sees to every queue that holds a task. */
  ghost predicate Inv(s: State, h: Watch) {
    Shape(s) && h.base < MANY && (SomeAwake(s) || LastCovers(s, h))
  }

  // ---------- conditions on a run ----------

  /** Half of the signals after which a counter repeats. */
  const MANY := 0x4000_0000

  /** A worker that is about to scan will look at every group. */
  ghost predicate CalmWorker(s: State, w: nat)
    requires w < |s.workers|
  {
    var r := s.workers[w];
    r.pc.Save? ==> Gcd(r.offset, |s.workers|) == 1 && WrapHarmless(r.seed, r.offset, |s.workers|)
  }

  /** Also, far fewer tasks are queued, and signal calls running, than it takes to wrap a counter. */
  ghost predicate Calm(s: State) {
    && (forall w: nat {:trigger CalmWorker(s, w)} :: w < |s.workers| ==> CalmWorker(s, w))
    && Queued(s.queues, |s.workers|) < MANY && |s.calls| + 2 * |s.workers| < MANY
  }

  ghost predicate CalmRun(s: State, es: seq<Event>)
    requires Executable(s, es)
    decreases |es|
  {
    Calm(s) && (es != [] ==> CalmRun(Step(s, es[0]), es[1..]))
  }

  // ---------- counting ----------

  lemma {:induction false} QueuedAfter(queues: map<Queue, seq<Task>>, n: nat, q: Queue, tasks: seq<Task>)
    requires q in queues
    ensures Queued(queues[q := tasks], n) == Queued(queues, n) + if q.g < n then |tasks| - |queues[q]| else 0
  {
    if n > 0 {
      QueuedAfter(queues, n - 1, q, tasks);
    }
  }

  lemma {:induction false} OwingAfter(quiet: map<Queue, nat>, n: nat, q: Queue, k: nat)
    requires q in quiet
    ensures Owing(quiet[q := k], n) == Owing(quiet, n) +
                                       if q.g >= n || (k > 0 <==> quiet[q] > 0) then 0 else if k > 0 then 1 else -1
  {
    if n > 0 {
      OwingAfter(quiet, n - 1, q, k);
    }
  }

  lemma {:induction false} OwingAtMost(quiet: map<Queue, nat>, n: nat)
    ensures Owing(quiet, n) <= 2 * n
  {
    if n > 0 {
      OwingAtMost(quiet, n - 1);
    }
  }

  lemma {:induction false} NothingQueued(s: State, n: nat)
    requires Init(s)
    ensures Owing(s.quiet, n) == 0
  {
    if n > 0 {
      NothingQueued(s, n - 1);
    }
  }

  /** A set with at most one more element. */
  lemma OneMore(a: set<nat>, b: set<nat>, c: nat)
    requires b <= a + {c}
    ensures |b| <= |a| + 1
  {
    if b != a + {c} {
      SubsetSmaller(b, a + {c});
    }
  }

  lemma PendingAtMost(calls: map<nat, Call>, lot: nat)
    ensures |Pending(calls, lot)| <= |calls|
  {
    SubsetAtMost(Pending(calls, lot), calls.Keys);
  }

  lemma InitInv(s: State)
    requires Init(s)
    ensures Inv(s, Watch(0, 0))
  {
    forall w: nat | w < |s.workers| ensures WorkerOk(s, w) {
      assert StartOk(s.workers[w]);
    }
    NothingQueued(s, |s.workers|);
    assert Pending(s.calls, s.workers[0].lot) == {};
  }

  // ---------- the worker's steps ----------

  /** A worker wakes up or stays awake. */
  lemma AwakeInv(s: State, h: Watch, s': State, w: nat)
    requires Shape(s) && h.base < MANY && w < |s.workers| == |s'.workers| && s'.workers == s.workers[w := s'.workers[w]]
    requires s'.lots == s.lots && s'.quiet.Keys == s.quiet.Keys && s'.queues.Keys == s.queues.Keys
    requires forall c {:trigger s'.calls[c]} :: c in s'.calls ==> CallOk(s'.calls[c])
    requires Awake(s'.workers[w].pc)
    requires s'.workers[w].lot == s.workers[w].lot && s'.workers[w].saved == s.workers[w].saved
    ensures Inv(s', h)
  {
    assert WorkerOk(s, w);
    forall v: nat | v < |s'.workers| ensures WorkerOk(s', v) { assert WorkerOk(s, v); }
  }

  /** A worker that was not awake moves on and takes nothing. */
  lemma MoveInv(s: State, h: Watch, s': State, w: nat)
    requires Inv(s, h) && w < |s.workers| == |s'.workers| && WorkerOk(s', w)
    requires s' == s.(workers := s.workers[w := s'.workers[w]])
    requires !Awake(s.workers[w].pc)
    requires s'.workers[w].lot == s.workers[w].lot && s'.workers[w].saved == s.workers[w].saved
    requires s.workers[w].pc.Blocked? ==> s'.workers[w].pc.Blocked?
    requires w == h.last && !SomeAwake(s) ==>
      forall q {:trigger Alert(s', w, q)} :: q in s.queues && s.queues[q] != [] && Alert(s, w, q) ==> Alert(s', w, q)
    ensures Inv(s', h)
  {
    forall v: nat | v < |s'.workers| ensures WorkerOk(s', v) { assert WorkerOk(s, v); }
    if SomeAwake(s) {
      var v: nat :| v < |s.workers| && Awake(s.workers[v].pc);
      assert Awake(s'.workers[v].pc);
    } else {
      forall q | q in s.queues && s.queues[q] != [] ensures Covered(s', h.last, q) {
        assert Covered(s, h.last, q);
        assert w != h.last && Alert(s, h.last, q) ==> Alert(s', h.last, q);
        if SomeCall(s, h.last) {
          var c: nat, k: nat :| WillSignal(s, c, h.last, k);
          assert WillSignal(s', c, h.last, k);
        }
      }
    }
  }

  /** The worker that saves its state has all queues before it. */
  lemma SaveStateInv(s: State, h: Watch, w: nat)
    requires Inv(s, h) && CanSaveState(s, w) && CalmWorker(s, w) && |s.calls| + 2 * |s.workers| < MANY
    ensures Inv(StepSaveState(s, w), NextWatch(s, h, SaveState(w)))
  {
    var s' := StepSaveState(s, w);
    var r, r' := s.workers[w], s'.workers[w];
    var n := |s.workers|;
    assert WorkerOk(s, w);
    ScanCoversIffCoprime(r.seed, r.offset, n);
    forall v: nat | v < n ensures WorkerOk(s', v) { assert WorkerOk(s, v); }
    forall q | q in s'.queues && s'.queues[q] != [] ensures Alert(s', w, q) {
      assert IsHit(r.seed, r.offset, n, q.g);
      var j: nat :| j < n && Hits(r.seed, r.offset, n, j, q.g);
      assert LooksLater(n, r', q, j);
    }
    PendingAtMost(s.calls, r.lot);
    OwingAtMost(s.quiet, n);
  }

  lemma ScanOneInv(s: State, h: Watch, w: nat)
    requires Inv(s, h) && CanScanOne(s, w)
    ensures Inv(StepScanOne(s, w), h)
  {
    var s' := StepScanOne(s, w);
    var n, r := |s.workers|, s.workers[w];
    assert WorkerOk(s, w);
    if s.queues[Target(n, r)] == [] {
      forall q | q in s'.queues && s'.queues[q] != [] && Alert(s, w, q) ensures Alert(s', w, q) {
        ScanPast(s, w, q);
      }
      MoveInv(s, h, s', w);
    } else {
      AwakeInv(s, h, s', w);
    }
  }

  lemma ScanPast(s: State, w: nat, q: Queue)
    requires CanScanOne(s, w) && q in s.queues && s.queues[q] != [] && Alert(s, w, q)
    requires s.queues[Target(|s.workers|, s.workers[w])] == []
    ensures Alert(StepScanOne(s, w), w, q)
  {
    var n, r := |s.workers|, s.workers[w];
    if s.lots[r.lot] == r.saved {
      var j: nat :| LooksLater(n, r, q, j);
      assert LooksLater(n, StepScanOne(s, w).workers[w], q, j);
    }
  }

  lemma RestInv(s: State, h: Watch, e: Event)
    requires Inv(s, h) && Enabled(s, e) && (e.EndScan? || e.Settle?)
    ensures Inv(Step(s, e), h)
  {
    assert WorkerOk(s, e.w);
    MoveInv(s, h, Step(s, e), e.w);
  }

  /** The worker that saved its state last blocks only if its lot was not signalled since: as nobody took a
      task meanwhile, there were too few signals for the counter to repeat. */
  lemma EnterWaitInv(s: State, h: Watch, w: nat)
    requires Inv(s, h) && CanEnterWait(s, w) && Queued(s.queues, |s.workers|) < MANY
    ensures Inv(StepEnterWait(s, w), h)
  {
    assert WorkerOk(s, w);
    if LooksUnchanged(s, w) {
      if w == h.last && !SomeAwake(s) {
        SameCount(s.workers[w].saved, s.lots[s.workers[w].lot]);
      }
      MoveInv(s, h, StepEnterWait(s, w), w);
    } else {
      AwakeInv(s, h, StepEnterWait(s, w), w);
    }
  }

  lemma SameCount(saved: nat, now: nat)
    requires saved <= now < saved + SIGNAL_MODULUS && now % SIGNAL_MODULUS == saved % SIGNAL_MODULUS
    ensures now == saved
  {
    var a, b := saved / SIGNAL_MODULUS, now / SIGNAL_MODULUS;
    assert now - saved == (b - a) * SIGNAL_MODULUS;
  }

  lemma LookInv(s: State, h: Watch, e: Event)
    requires Inv(s, h) && Enabled(s, e) && (e.Finish? || e.TryOwn? || e.TryRemote? || e.Spurious?)
    ensures Inv(Step(s, e), h)
  {
    AwakeInv(s, h, Step(s, e), e.w);
  }

  // ---------- pushes and flushes ----------

  /** A new call has all four lots before it, so it will signal every worker. */
  lemma NewCallSignals(s: State, c: nat, w: nat)
    requires Shape(s) && c in s.calls && s.calls[c].tried == 0 && !s.calls[c].bumped && w < |s.workers|
    ensures SomeCall(s, w)
  {
    var lot := s.workers[w].lot;
    assert WorkerOk(s, w) && CallOk(s.calls[c]);
    var k := (lot + PARKING_LOT_NUM - s.calls[c].start) % PARKING_LOT_NUM;
    assert LotAt(s.calls[c], k) == lot;
    assert WillSignal(s, c, w, k);
  }

  /** The workers and lots stay as they are. */
  lemma SameWorkers(s: State, s': State)
    requires Shape(s) && s'.workers == s.workers && s'.lots == s.lots
    requires s'.queues.Keys == s.queues.Keys && s'.quiet.Keys == s.quiet.Keys
    requires forall c {:trigger s'.calls[c]} :: c in s'.calls ==> CallOk(s'.calls[c])
    ensures Shape(s') && (SomeAwake(s) ==> SomeAwake(s'))
  {
    forall v: nat | v < |s'.workers| ensures WorkerOk(s', v) { assert WorkerOk(s, v); }
    if SomeAwake(s) {
      var v: nat :| v < |s.workers| && Awake(s.workers[v].pc);
      assert Awake(s'.workers[v].pc);
    }
  }

  lemma PushSignalInv(s: State, h: Watch, q: Queue, task: Task, c: nat, start: nat)
    requires Inv(s, h) && CanPush(s, q) && CanCall(s, c, start)
    ensures Inv(StepPushSignal(s, q, task, c, start), h)
  {
    var s' := StepPushSignal(s, q, task, c, start);
    SameWorkers(s, s');
    if !SomeAwake(s) {
      NewCallSignals(s', c, h.last);
      QueuedAfter(s.queues, |s.workers|, q, s.queues[q] + [task]);
      OwingAfter(s.quiet, |s.workers|, q, 0);
      OneMore(Pending(s.calls, s.workers[h.last].lot), Pending(s'.calls, s.workers[h.last].lot), c);
    }
  }

  lemma FlushInv(s: State, h: Watch, q: Queue, c: nat, start: nat)
    requires Inv(s, h) && CanPush(s, q) && CanCall(s, c, start) && s.quiet[q] > 0
    ensures Inv(StepFlush(s, q, c, start), h)
  {
    var s' := StepFlush(s, q, c, start);
    SameWorkers(s, s');
    if !SomeAwake(s) {
      NewCallSignals(s', c, h.last);
      OwingAfter(s.quiet, |s.workers|, q, 0);
      OneMore(Pending(s.calls, s.workers[h.last].lot), Pending(s'.calls, s.workers[h.last].lot), c);
    }
  }

  lemma PushNoSignalInv(s: State, h: Watch, q: Queue, task: Task)
    requires Inv(s, h) && CanPush(s, q)
    ensures Inv(StepPushNoSignal(s, q, task), h)
  {
    var s' := StepPushNoSignal(s, q, task);
    SameWorkers(s, s');
    if !SomeAwake(s) {
      QueuedAfter(s.queues, |s.workers|, q, s.queues[q] + [task]);
      OwingAfter(s.quiet, |s.workers|, q, s.quiet[q] + 1);
      forall p | p in s'.queues && s'.queues[p] != [] ensures Covered(s', h.last, p) {
        if p != q {
          assert Covered(s, h.last, p);
          StillCovered(s, s', h.last, p);
        }
      }
    }
  }

  lemma StillCovered(s: State, s': State, w: nat, p: Queue)
    requires Covered(s, w, p) && s'.workers == s.workers && s'.lots == s.lots && s'.calls == s.calls
    requires p in s.quiet ==> p in s'.quiet && s'.quiet[p] >= s.quiet[p]
    ensures Covered(s', w, p)
  {
    assert Alert(s, w, p) ==> Alert(s', w, p);
    if SomeCall(s, w) {
      var c: nat, k: nat :| WillSignal(s, c, w, k);
      assert WillSignal(s', c, w, k);
    }
  }

  /** A task that is pushed without a signal has its pusher awake. */
  lemma PushIgnoreSignalInv(s: State, h: Watch, q: Queue, task: Task)
    requires Inv(s, h) && CanPushIgnoreSignal(s, q)
    ensures Inv(StepPushIgnoreSignal(s, q, task), h)
  {
    assert Awake(s.workers[q.g].pc);
    SameWorkers(s, StepPushIgnoreSignal(s, q, task));
  }

  // ---------- signals ----------

  /** Increasing the counter of its lot makes a worker alert that is not blocked. */
  lemma BumpCovers(s: State, c: nat, w: nat, q: Queue)
    requires Shape(s) && CanBump(s, c) && w < |s.workers| && Covered(s, w, q)
    ensures Covered(StepBump(s, c), w, q)
  {
    var s' := StepBump(s, c);
    assert WorkerOk(s, w);
    assert Alert(s, w, q) ==> Alert(s', w, q);
    if SomeCall(s, w) {
      var d: nat, k: nat :| WillSignal(s, d, w, k);
      if d == c && k == s.calls[c].tried && !s.workers[w].pc.Blocked? {
        assert Alert(s', w, q);
      } else {
        assert WillSignal(s', d, w, k);
      }
    }
  }

  lemma BumpPends(s: State, c: nat, lot: nat)
    requires CanBump(s, c)
    ensures Pending(StepBump(s, c).calls, lot) <= Pending(s.calls, lot)
  {
    var calls := StepBump(s, c).calls;
    forall d | d in Pending(calls, lot) ensures d in Pending(s.calls, lot) {
      var k: nat :| LotAhead(calls[d], k) && LotAt(calls[d], k) == lot;
      assert LotAhead(s.calls[d], k);
    }
  }

  lemma BumpCounts(s: State, c: nat, lot: nat)
    requires CanBump(s, c) && CallOk(s.calls[c]) && lot < PARKING_LOT_NUM
    ensures var b := if lot == LotAt(s.calls[c], s.calls[c].tried) then 1 else 0;
            |Pending(StepBump(s, c).calls, lot)| + b <= |Pending(s.calls, lot)|
  {
    var a, b := Pending(s.calls, lot), Pending(StepBump(s, c).calls, lot);
    BumpPends(s, c, lot);
    if lot == LotAt(s.calls[c], s.calls[c].tried) {
      assert LotAhead(s.calls[c], s.calls[c].tried);
      assert c in a && c !in b;
      SubsetSmaller(b, a);
    } else {
      SubsetAtMost(b, a);
    }
  }

  lemma BumpInv(s: State, h: Watch, c: nat)
    requires Inv(s, h) && CanBump(s, c)
    ensures Inv(StepBump(s, c), h)
  {
    var s' := StepBump(s, c);
    assert CallOk(s.calls[c]);
    forall v: nat | v < |s'.workers| ensures WorkerOk(s', v) { assert WorkerOk(s, v); }
    if SomeAwake(s) {
      var v: nat :| v < |s.workers| && Awake(s.workers[v].pc);
      assert Awake(s'.workers[v].pc);
    } else {
      assert WorkerOk(s, h.last);
      BumpCounts(s, c, s.workers[h.last].lot);
      forall q | q in s'.queues && s'.queues[q] != [] ensures Covered(s', h.last, q) {
        assert Covered(s, h.last, q);
        BumpCovers(s, c, h.last, q);
      }
    }
  }

  lemma WakeOneInv(s: State, h: Watch, c: nat, w: nat)
    requires Inv(s, h) && CanWakeOne(s, c, w)
    ensures Inv(StepWakeOne(s, c, w), h)
  {
    assert CallOk(s.calls[c]);
    AwakeInv(s, h, StepWakeOne(s, c, w), w);
  }

  /** A lot where nobody is blocked had its workers made alert when its counter was increased. */
  lemma WakeNoneInv(s: State, h: Watch, c: nat)
    requires Inv(s, h) && CanWakeNone(s, c)
    ensures Inv(StepWakeNone(s, c), h)
  {
    var s' := StepWakeNone(s, c);
    assert CallOk(s.calls[c]);
    SameWorkers(s, s');
    if !SomeAwake(s) {
      forall q | q in s'.queues && s'.queues[q] != [] ensures Covered(s', h.last, q) {
        assert Covered(s, h.last, q);
        assert Alert(s, h.last, q) ==> Alert(s', h.last, q);
        if SomeCall(s, h.last) {
          WakeNoneCall(s, c, h.last);
        }
      }
      WakeNoneCounts(s, c, s.workers[h.last].lot);
    }
  }

  lemma WakeNoneCall(s: State, c: nat, w: nat)
    requires CanWakeNone(s, c) && CallOk(s.calls[c]) && SomeCall(s, w)
    ensures SomeCall(StepWakeNone(s, c), w)
  {
    var s' := StepWakeNone(s, c);
    var d: nat, k: nat :| WillSignal(s, d, w, k);
    if d == c {
      assert !SleepsIn(s, w, LotAt(s.calls[c], s.calls[c].tried));
    }
    assert WillSignal(s', d, w, k);
  }

  lemma WakeNoneCounts(s: State, c: nat, lot: nat)
    requires CanWakeNone(s, c)
    ensures |Pending(StepWakeNone(s, c).calls, lot)| <= |Pending(s.calls, lot)|
  {
    var a, b := Pending(s.calls, lot), Pending(StepWakeNone(s, c).calls, lot);
    forall d | d in b ensures d in a {
      var k: nat :| LotAhead(StepWakeNone(s, c).calls[d], k) && LotAt(StepWakeNone(s, c).calls[d], k) == lot;
      assert LotAhead(s.calls[d], k);
    }
    SubsetAtMost(b, a);
  }

  // ---------- all steps ----------

  lemma StepInv(s: State, h: Watch, e: Event)
    requires Inv(s, h) && Calm(s) && Enabled(s, e)
    ensures Inv(Step(s, e), NextWatch(s, h, e))
  {
    match e {
      case SaveState(w) => assert CalmWorker(s, w); SaveStateInv(s, h, w);
      case ScanOne(w) => ScanOneInv(s, h, w);
      case EndScan(w) => RestInv(s, h, e);
      case Settle(w) => RestInv(s, h, e);
      case EnterWait(w) => EnterWaitInv(s, h, w);
      case PushSignal(q, task, c, start) => PushSignalInv(s, h, q, task, c, start);
      case PushNoSignal(q, task) => PushNoSignalInv(s, h, q, task);
      case PushIgnoreSignal(q, task) => PushIgnoreSignalInv(s, h, q, task);
      case Flush(q, c, start) => FlushInv(s, h, q, c, start);
      case Bump(c) => BumpInv(s, h, c);
      case WakeOne(c, w) => WakeOneInv(s, h, c, w);
      case WakeNone(c) => WakeNoneInv(s, h, c);
      case _ => LookInv(s, h, e);
    }
  }

  lemma {:induction false} RunInv(s: State, h: Watch, es: seq<Event>) returns (h': Watch)
    requires Inv(s, h) && Executable(s, es) && CalmRun(s, es)
    ensures Inv(After(s, es), h')
    decreases |es|
  {
    if es == [] {
      h' := h;
    } else {
      StepInv(s, h, es[0]);
      h' := RunInv(Step(s, es[0]), NextWatch(s, h, es[0]), es[1..]);
    }
  }

  // ---------- no stranded work ----------

  /** Everybody sleeps, nobody is about to signal, and no push is waiting to be signalled. */
  ghost predicate AllAsleep(s: State) {
    && (forall w :: 0 <= w < |s.workers| ==> s.workers[w].pc.Blocked?)
    && s.calls == map[] && (forall q {:trigger s.quiet[q]} :: q in s.quiet ==> s.quiet[q] == 0)
  }

  lemma AsleepUncovered(s: State, w: nat, q: Queue)
    requires AllAsleep(s)
    ensures !Covered(s, w, q) && !SomeAwake(s)
  {
    assert forall c: nat, k: nat :: WillSignal(s, c, w, k) ==> c in s.calls;
  }

  /** With scans that look at every group: when every worker is blocked in its parking lot, no signal_task
      call is running and no nosignal push is unflushed, all queues are empty, even if the counters of the
      lots wrap. */
  lemma NoStrandedWork(s0: State, es: seq<Event>, q: Queue)
    requires Init(s0) && Executable(s0, es) && CalmRun(s0, es)
    requires AllAsleep(After(s0, es)) && q in After(s0, es).queues
    ensures After(s0, es).queues[q] == []
  {
    InitInv(s0);
    var h := RunInv(s0, Watch(0, 0), es);
    AsleepUncovered(After(s0, es), h.last, q);
  }
}
