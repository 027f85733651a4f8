/** Where a thread goes that leaves its processor, and who runs in its place. */
module SchedDestinations {
  import opened Wrappers
  import opened Sched
  import opened SchedInvariant
  import opened SchedSteps
  import opened SchedTheorems

  // ---------- leaving ----------

  /** The current task of group `g` leaves its processor. */
  predicate Suspends(e: Event, g: nat) {
    match e
    case Yield(h) => h == g
    case WaitOn(h, _) => h == g
    case SleepOn(h) => h == g
    case End(h) => h == g
    case StartForeground(h, _, _) => h == g
    case Exchange(h, _, _) => h == g
    case _ => false
  }

  /** Where it belongs: who sleeps, with the timers unless no timer could be scheduled; who waits, in the
      list of the butex unless its value had changed; who has ended, nowhere; everybody else, and who
      cannot sleep or wait, in the run queue of the group. */
  function Destination(e: Event, g: nat, ready: bool): Place
    requires Suspends(e, g)
  {
    match e
    case SleepOn(_) => if ready then In(Rq(g)) else In(Timers)
    case WaitOn(_, b) => if ready then In(Rq(g)) else In(Butex(b))
    case End(_) => Free
    case _ => In(Rq(g))
  }

  /** What the callback of the group will do to its task. */
  function CallbackPlace(g: nat, c: Remained, ready: bool): Place {
    match c
    case NoCallback => Home(g)
    case ReadyToRun(_) => In(Rq(g))
    case WaitForButex(_, b) => if ready then In(Rq(g)) else In(Butex(b))
    case AddSleepEvent(_) => if ready then In(Rq(g)) else In(Timers)
    case ReleaseLastContext(_) => Free
  }

  /** Group `g` is between the suspension of `t` and the callback that deals with it. */
  predicate Underway(s: State, g: nat, t: Tid, c: Remained) {
    && g < |s.groups| && !s.groups[g].phase.Running? && s.groups[g].remained == c && Subject(c) == Some(t)
  }

  predicate Lands(e: Event, g: nat) {
    e.Land? && e.g == g
  }

  lemma SuspensionStarts(s: State, e: Event, g: nat, ready: bool)
    requires Enabled(s, e) && Suspends(e, g)
    ensures g < |s.groups|
    ensures var c := Step(s, e).groups[g].remained;
            Underway(Step(s, e), g, s.groups[g].cur, c) && CallbackPlace(g, c, ready) == Destination(e, g, ready)
  {}

  /** No event of this or another group changes what is left to do, until the callback runs. */
  lemma UnderwayStays(s: State, e: Event, g: nat, t: Tid, c: Remained)
    requires Underway(s, g, t, c) && Enabled(s, e) && !Lands(e, g)
    ensures Underway(Step(s, e), g, t, c)
  {}

  lemma {:induction false} UnderwayRun(s: State, es: seq<Event>, g: nat, t: Tid, c: Remained)
    requires Underway(s, g, t, c) && Executable(s, es) && forall e :: e in es ==> !Lands(e, g)
    ensures Underway(After(s, es), g, t, c)
    decreases |es|
  {
    if es != [] {
      UnderwayStays(s, es[0], g, t, c);
      UnderwayRun(Step(s, es[0]), es[1..], g, t, c);
    }
  }

  /** Task `t` is at `p`: at the end of the list if that is one. */
  predicate Arrived(z: State, t: Tid, p: Place) {
    && t in z.tasks && z.tasks[t].place == p
    && (p.In? ==> p.box in z.boxes && z.boxes[p.box] != [] && z.boxes[p.box][|z.boxes[p.box]| - 1] == t)
  }

  lemma CallbackDelivers(s: State, g: nat, t: Tid, c: Remained, ready: bool)
    requires Underway(s, g, t, c) && CanLand(s, g, ready)
    ensures Arrived(StepLand(s, g, ready), t, CallbackPlace(g, c, ready))
  {}

  /** Whatever happens between the suspension of a task and the next callback of its group, that callback
      brings the task to where it belongs, and the group runs again. */
  lemma SuspendedGoesTo(s: State, e: Event, g: nat, es: seq<Event>, ready: bool)
    requires Enabled(s, e) && Suspends(e, g) && Executable(Step(s, e), es)
    requires (forall d :: d in es ==> !Lands(d, g)) && Enabled(After(Step(s, e), es), Land(g, ready))
    ensures var z := Step(After(Step(s, e), es), Land(g, ready));
            && g < |s.groups| && Arrived(z, s.groups[g].cur, Destination(e, g, ready))
            && g < |z.groups| && z.groups[g].phase.Running?
  {
    SuspensionStarts(s, e, g, ready);
    var s1 := Step(s, e);
    UnderwayRun(s1, es, g, s.groups[g].cur, s1.groups[g].remained);
    CallbackDelivers(After(s1, es), g, s.groups[g].cur, s1.groups[g].remained, ready);
  }

  lemma UnderwayPlace(z: State, g: nat, t: Tid, c: Remained, box: Box)
    requires Inv(z) && Underway(z, g, t, c)
    ensures t in z.tasks && (z.tasks[t].place == Cur(g) || z.tasks[t].place == Left(g))
    ensures box in z.boxes ==> t !in z.boxes[box]
  {
    assert GroupOk(z, g);
    assert PlaceOk(z, t, Cur(g)) && PlaceOk(z, t, Left(g)) && PlaceOk(z, t, In(box));
  }

  /** Until then it is in no list, so nobody can wake it or run it elsewhere. */
  lemma InNoListMeanwhile(s: State, e: Event, g: nat, es: seq<Event>, box: Box)
    requires Reachable(s) && Enabled(s, e) && Suspends(e, g) && Executable(Step(s, e), es)
    requires forall d :: d in es ==> !Lands(d, g)
    ensures var z := After(Step(s, e), es);
            && g < |s.groups| && s.groups[g].cur in z.tasks
            && (z.tasks[s.groups[g].cur].place == Cur(g) || z.tasks[s.groups[g].cur].place == Left(g))
            && (box in z.boxes ==> s.groups[g].cur !in z.boxes[box])
  {
    var s1, t := Step(s, e), s.groups[g].cur;
    ReachableInv(s);
    StepInv(s, e);
    SuspensionStarts(s, e, g, false);
    UnderwayRun(s1, es, g, t, s1.groups[g].remained);
    RunInv(s1, es);
    UnderwayPlace(After(s1, es), g, t, s1.groups[g].remained, box);
  }

  // ---------- who runs next ----------

  /** The task that group `g` goes on with by event `e`: one taken from a queue, the main task, a new one, or
      one that the caller of exchange holds. */
  function Chosen(s: State, e: Event, g: nat): Option<Tid>
    requires Enabled(s, e)
  {
    match e
    case Pick(h, box, i) => if h == g then Some(s.boxes[box][i]) else None
    case PickMain(h) => if h == g then Some(s.groups[g].mainTid) else None
    case StartForeground(h, t, _) => if h == g then Some(t) else None
    case Exchange(h, a, i) => if h == g then Some(s.boxes[Hand(a)][i]) else None
    case _ => None
  }

  predicate GoesOnWith(s: State, g: nat, t: Tid) {
    && g < |s.groups|
    && match s.groups[g].phase
       case Picked(next, _) => next == t
       case Landing => s.groups[g].cur == t
       case _ => false
  }

  lemma ChoiceStarts(s: State, e: Event, g: nat)
    requires Enabled(s, e) && Chosen(s, e, g).Some?
    ensures GoesOnWith(Step(s, e), g, Chosen(s, e, g).value)
  {}

  lemma ChoiceStays(s: State, e: Event, g: nat, t: Tid)
    requires GoesOnWith(s, g, t) && Enabled(s, e) && !Lands(e, g)
    ensures GoesOnWith(Step(s, e), g, t)
  {}

  lemma {:induction false} ChoiceRun(s: State, es: seq<Event>, g: nat, t: Tid)
    requires GoesOnWith(s, g, t) && Executable(s, es) && forall e :: e in es ==> !Lands(e, g)
    ensures GoesOnWith(After(s, es), g, t)
    decreases |es|
  {
    if es != [] {
      ChoiceStays(s, es[0], g, t);
      ChoiceRun(Step(s, es[0]), es[1..], g, t);
    }
  }

  /** The task that a group chose is the one it runs after its next callback. */
  lemma ChosenRuns(s: State, e: Event, g: nat, es: seq<Event>, ready: bool)
    requires Enabled(s, e) && Chosen(s, e, g).Some? && Executable(Step(s, e), es)
    requires (forall d :: d in es ==> !Lands(d, g)) && Enabled(After(Step(s, e), es), Land(g, ready))
    ensures var z := Step(After(Step(s, e), es), Land(g, ready));
            && g < |z.groups| && z.groups[g].phase.Running? && z.groups[g].cur == Chosen(s, e, g).value
  {
    ChoiceStarts(s, e, g);
    ChoiceRun(Step(s, e), es, g, Chosen(s, e, g).value);
  }

  /** A task that was given a stack runs on it, and one that has none on the stack of the task that ended
      before it, if that is of its type. Otherwise it runs on the main stack exactly if no stack can be had. */
  lemma MainStackOnlyIfNoOther(z: State, g: nat, x: Option<Stack>)
    requires Reachable(z) && Enabled(z, Switch(g, x))
    ensures var r := z.groups[g];
            var m, exec := z.tasks[r.phase.next], Step(z, Switch(g, x)).groups[g].exec;
            && (m.stack.Some? ==> exec == m.stack.value)
            && (m.stack == None && r.phase.ending && m.kind == z.tasks[r.cur].kind ==> exec == r.exec)
            && (m.stack == None && m.kind.Pooled? ==>
                  (exec == r.mainStack <==> x == None && !(r.phase.ending && m.kind == z.tasks[r.cur].kind)))
  {
    ReachableInv(z);
    var r := z.groups[g];
    assert GroupOk(z, g) && TaskOk(z, r.cur);
  }

  // ---------- a suspension comes to its end ----------

  ghost predicate ListsExist(s: State) {
    Timers in s.boxes && forall g: nat {:trigger Rq(g)} :: g < |s.groups| ==> Rq(g) in s.boxes
  }

  function NextOf(s: State, g: nat): Event
    requires g < |s.groups|
  {
    match s.groups[g].phase
    case Leaving(_) => PickMain(g)
    case Picked(_, _) => Switch(g, None)
    case _ => Land(g, true)
  }

  function PhaseRank(p: Phase): nat {
    match p
    case Running => 0
    case Landing => 1
    case Picked(_, _) => 2
    case Leaving(_) => 3
  }

  lemma NextIsEnabled(z: State, g: nat)
    requires Inv(z) && ListsExist(z) && g < |z.groups| && !z.groups[g].phase.Running?
    ensures Enabled(z, NextOf(z, g))
    ensures var z' := Step(z, NextOf(z, g));
            g < |z'.groups| && PhaseRank(z'.groups[g].phase) < PhaseRank(z.groups[g].phase)
  {
    var r := z.groups[g];
    assert GroupOk(z, g);
    if r.phase.Picked? { assert PlaceOk(z, r.phase.next, Next(g)); }
    if r.phase.Landing? && Subject(r.remained).Some? { assert PlaceOk(z, Subject(r.remained).value, Left(g)); }
  }

  /** A group that has begun to leave a task is never stuck: if it finds no other task it goes on with its
      main task, and without a stack to spare the next task runs on the main stack. */
  lemma SwitchGoesOn(z: State, g: nat)
    requires Reachable(z) && ListsExist(z) && g < |z.groups| && !z.groups[g].phase.Running?
    ensures Enabled(z, NextOf(z, g))
    ensures var z' := Step(z, NextOf(z, g));
            g < |z'.groups| && PhaseRank(z'.groups[g].phase) < PhaseRank(z.groups[g].phase)
  {
    ReachableInv(z);
    NextIsEnabled(z, g);
  }

  // ---------- every queued task can run ----------

  predicate QueuedAt(s: State, box: Box, i: nat, t: Tid) {
    (box.Rq? || box.Remote?) && box in s.boxes && i < |s.boxes[box]| && s.boxes[box][i] == t
  }

  /** The group has chosen `t`; its switch and its callback follow. */
  lemma {:induction false} ChosenComesToRun(s: State, g: nat, t: Tid) returns (es: seq<Event>)
    requires Inv(s) && ListsExist(s) && GoesOnWith(s, g, t)
    ensures Executable(s, es)
    ensures g < |After(s, es).groups| && After(s, es).groups[g].phase.Running? && After(s, es).groups[g].cur == t
    decreases PhaseRank(s.groups[g].phase)
  {
    var e := NextOf(s, g);
    NextIsEnabled(s, g);
    StepInv(s, e);
    var fs := [];
    if e.Switch? {
      ChoiceStays(s, e, g, t);
      ListsStay(s, e);
      fs := ChosenComesToRun(Step(s, e), g, t);
    }
    es := [e] + fs;
    assert es[1..] == fs;
  }

  lemma ListsStay(s: State, e: Event)
    requires ListsExist(s) && Enabled(s, e) && (e.Switch? || e.Land? || e.Pick? || e.End?)
    ensures ListsExist(Step(s, e))
  {}

  lemma PicksAndRuns(s: State, g: nat, box: Box, i: nat, t: Tid) returns (es: seq<Event>)
    requires Inv(s) && ListsExist(s) && CanPick(s, g, box, i) && s.boxes[box][i] == t
    ensures Executable(s, es)
    ensures g < |After(s, es).groups| && After(s, es).groups[g].phase.Running? && After(s, es).groups[g].cur == t
  {
    var e := Pick(g, box, i);
    StepInv(s, e);
    ListsStay(s, e);
    ChoiceStarts(s, e, g);
    var fs := ChosenComesToRun(Step(s, e), g, t);
    es := [e] + fs;
    assert es[1..] == fs;
  }

  /** One event brings the group closer to a pick, and leaves the task where it is queued. */
  function TowardsPick(s: State, g: nat): Event
    requires g < |s.groups|
  {
    if s.groups[g].phase.Running? then End(g) else NextOf(s, g)
  }

  lemma QueueStays(s: State, e: Event, g: nat, box: Box, i: nat, t: Tid)
    requires g < |s.groups| && Enabled(s, e) && (e == End(g) || e == Land(g, true) || e == Switch(g, None))
    requires QueuedAt(s, box, i, t)
    ensures QueuedAt(Step(s, e), box, i, t) && |Step(s, e).groups| == |s.groups|
  {}

  predicate MayPick(s: State, g: nat)
    requires g < |s.groups|
  {
    var r := s.groups[g];
    r.phase.Leaving? || (r.phase.Running? && r.cur == r.mainTid)
  }

  /** The phases until the group may pick: the end of the current task is the last of them. */
  function PickRank(s: State, g: nat): nat
    requires g < |s.groups|
  {
    if MayPick(s, g) then 0 else 1 + PhaseRank(s.groups[g].phase)
  }

  lemma TowardsPickStep(s: State, g: nat)
    requires Inv(s) && ListsExist(s) && g < |s.groups| && !MayPick(s, g)
    ensures var e := TowardsPick(s, g);
            && Enabled(s, e) && (e == End(g) || e == Land(g, true) || e == Switch(g, None))
            && |Step(s, e).groups| == |s.groups| && PickRank(Step(s, e), g) < PickRank(s, g)
  {
    assert GroupOk(s, g);
    if !s.groups[g].phase.Running? { NextIsEnabled(s, g); }
  }

  lemma {:induction false} QueuedRuns(s: State, g: nat, box: Box, i: nat, t: Tid) returns (es: seq<Event>)
    requires Inv(s) && ListsExist(s) && g < |s.groups| && QueuedAt(s, box, i, t)
    ensures Executable(s, es)
    ensures g < |After(s, es).groups| && After(s, es).groups[g].phase.Running? && After(s, es).groups[g].cur == t
    decreases PickRank(s, g)
  {
    if MayPick(s, g) {
      assert PlaceOk(s, t, In(box));
      es := PicksAndRuns(s, g, box, i, t);
    } else {
      var e := TowardsPick(s, g);
      TowardsPickStep(s, g);
      StepInv(s, e);
      ListsStay(s, e);
      QueueStays(s, e, g, box, i, t);
      var fs := QueuedRuns(Step(s, e), g, box, i, t);
      es := [e] + fs;
      assert es[1..] == fs;
    }
  }

  /** From every reachable state each task in a run queue or a remote queue can come to run on each group,
      wherever that group is between two tasks. */
  lemma QueuedTaskCanRun(z: State, g: nat, box: Box, t: Tid) returns (es: seq<Event>)
    requires Reachable(z) && ListsExist(z) && g < |z.groups|
    requires (box.Rq? || box.Remote?) && box in z.boxes && t in z.boxes[box]
    ensures Executable(z, es)
    ensures g < |After(z, es).groups| && After(z, es).groups[g].phase.Running? && After(z, es).groups[g].cur == t
  {
    ReachableInv(z);
    var i: nat :| i < |z.boxes[box]| && z.boxes[box][i] == t;
    es := QueuedRuns(z, g, box, i, t);
  }

  // ---------- new and moved tasks ----------

  /** A new task is at the end of the queue it was created for, and a task that a waker, timer or requeuer
      moves at the end of the list it is moved to. */
  lemma ArrivesAtEnd(s: State, e: Event)
    requires Enabled(s, e)
    ensures e.CreateLocal? ==> Arrived(Step(s, e), e.t, In(Rq(e.g)))
    ensures e.CreateRemote? ==> Arrived(Step(s, e), e.t, In(Remote(e.h)))
    ensures e.Move? ==> Arrived(Step(s, e), s.boxes[e.from][e.i], In(e.to))
  {}

  /** The stack type that event `e` gives to task `t`, if it creates it. */
  function Given(e: Event, t: Tid): Option<StackType> {
    if (e.CreateLocal? || e.CreateRemote? || e.StartForeground?) && e.t == t then Some(e.kind) else None
  }

  /** Event `e` makes `t` run on the main stack because no other can be had. */
  predicate Degrades(s: State, e: Event, t: Tid)
    requires Enabled(s, e)
  {
    && e.Switch? && s.groups[e.g].phase.next == t && s.tasks[t].stack == None && e.x == None
    && !(s.groups[e.g].phase.ending && s.tasks[t].kind == s.tasks[s.groups[e.g].cur].kind)
  }

  /** A task has the stack type it was created with, until it has to run on the main stack: that makes it a
      pthread task for the rest of its life. */
  lemma KindIsGiven(s: State, e: Event, t: Tid)
    requires Enabled(s, e) && t in s.tasks
    ensures t in Step(s, e).tasks
    ensures Step(s, e).tasks[t].kind ==
            if Given(e, t).Some? then Given(e, t).value else if Degrades(s, e, t) then Pthread else s.tasks[t].kind
  {}
}
