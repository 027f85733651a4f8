/** Every step of the scheduler keeps the invariant. */
module SchedSteps {
  import opened Wrappers
  import opened Sched
  import opened SchedInvariant

  /** Tasks keep their kinds and stacks; groups and stacks are as before. */
  ghost predicate SameStacks(s: State, s': State) {
    && s'.stacks == s.stacks && s'.tasks.Keys == s.tasks.Keys
    && (forall t {:trigger s'.tasks[t]} :: t in s.tasks ==>
          s'.tasks[t].kind == s.tasks[t].kind && s'.tasks[t].stack == s.tasks[t].stack)
  }

  lemma SameStacksGroup(s: State, s': State, g: nat)
    requires g < |s.groups| == |s'.groups| && s'.groups[g] == s.groups[g] && SameStacks(s, s') && GroupOk(s, g)
    ensures GroupOk(s', g)
  {}

  lemma SameStacksStack(s: State, s': State, x: Stack)
    requires x in s.stacks && SameStacks(s, s') && StackOk(s, x) && |s'.groups| == |s.groups|
    requires forall g :: 0 <= g < |s.groups| ==> s'.groups[g].mainStack == s.groups[g].mainStack
    ensures StackOk(s', x)
  {}

  // ---------- Move ----------

  lemma MovePlace(s: State, from: Box, i: nat, to: Box, t: Tid, p: Place)
    requires CanMove(s, from, i, to) && NoDuplicates(s.boxes[from]) && PlaceOk(s, t, p)
    requires PlaceOk(s, s.boxes[from][i], In(from)) && PlaceOk(s, s.boxes[from][i], In(to))
    ensures PlaceOk(StepMove(s, from, i, to), t, p)
  {
    WithoutMembers(s.boxes[from], i);
  }

  lemma MoveInv(s: State, from: Box, i: nat, to: Box)
    requires Inv(s) && CanMove(s, from, i, to)
    ensures Inv(StepMove(s, from, i, to))
  {
    var s' := StepMove(s, from, i, to);
    var m := s.boxes[from][i];
    assert PlaceOk(s, m, In(from)) && PlaceOk(s, m, In(to));
    forall t, p ensures PlaceOk(s', t, p) {
      assert PlaceOk(s, t, p);
      MovePlace(s, from, i, to, t, p);
    }
    assert TaskOk(s, m);
    forall t | t in s'.tasks ensures TaskOk(s', t) {
      assert TaskOk(s, t);
    }
    forall g: nat | g < |s'.groups| ensures GroupOk(s', g) {
      assert GroupOk(s, g);
      SameStacksGroup(s, s', g);
    }
    forall x | x in s'.stacks ensures StackOk(s', x) {
      assert StackOk(s, x);
      SameStacksStack(s, s', x);
    }
    WithoutMembers(s.boxes[from], i);
  }

  // ---------- taking the next task ----------

  lemma PickPlace(s: State, g: nat, box: Box, i: nat, c: Remained, ending: bool, t: Tid, p: Place)
    requires g < |s.groups| && Has(s, box, i) && !s.groups[g].phase.Picked? && !s.groups[g].phase.Landing?
    requires NoDuplicates(s.boxes[box]) && PlaceOk(s, t, p) && PlaceOk(s, s.boxes[box][i], In(box))
    requires PlaceOk(s, s.boxes[box][i], Home(g)) && PlaceOk(s, s.boxes[box][i], p)
    ensures PlaceOk(Taken(s, g, box, i, c, ending), t, p)
  {
    WithoutMembers(s.boxes[box], i);
  }

  /** Group `g` takes a task out of a list to run it next. */
  function Taken(s: State, g: nat, box: Box, i: nat, c: Remained, ending: bool): State
    requires g < |s.groups| && Has(s, box, i)
  {
    SetGroup(TakeOut(s, box, i, Next(g)), g,
             s.groups[g].(phase := Picked(s.boxes[box][i], ending), remained := c))
  }

  lemma TakenInv(s: State, g: nat, box: Box, i: nat, c: Remained, ending: bool)
    requires Inv(s) && g < |s.groups| && Has(s, box, i) && !s.groups[g].phase.Picked? && !s.groups[g].phase.Landing?
    requires KeepsStack(s, c) && (ending <==> c.ReleaseLastContext?)
    requires var r := s.groups[g]; if r.cur == r.mainTid then c.NoCallback? else Subject(c) == Some(r.cur)
    ensures Inv(Taken(s, g, box, i, c, ending))
  {
    var s' := Taken(s, g, box, i, c, ending);
    var m := s.boxes[box][i];
    assert PlaceOk(s, m, In(box)) && PlaceOk(s, m, Home(g)) && PlaceOk(s, m, Cur(g));
    forall t, p ensures PlaceOk(s', t, p) {
      assert PlaceOk(s, t, p) && PlaceOk(s, m, p);
      PickPlace(s, g, box, i, c, ending, t, p);
    }
    assert TaskOk(s, m);
    forall t | t in s'.tasks ensures TaskOk(s', t) {
      assert TaskOk(s, t);
    }
    forall h: nat | h < |s'.groups| ensures GroupOk(s', h) {
      assert GroupOk(s, h);
      if h != g { SameStacksGroup(s, s', h); }
    }
    forall x | x in s'.stacks ensures StackOk(s', x) {
      assert StackOk(s, x);
      SameStacksStack(s, s', x);
    }
    WithoutMembers(s.boxes[box], i);
  }

  lemma PickInv(s: State, g: nat, box: Box, i: nat)
    requires Inv(s) && CanPick(s, g, box, i)
    ensures Inv(StepPick(s, g, box, i))
  {
    var r := s.groups[g];
    assert GroupOk(s, g);
    var ending := r.phase.Leaving? && r.phase.ending;
    assert StepPick(s, g, box, i) == Taken(s, g, box, i, r.remained, ending);
    TakenInv(s, g, box, i, r.remained, ending);
  }

  /** A task that may suspend has a stack of its own. */
  lemma SuspendKeeps(s: State, g: nat)
    requires Inv(s) && CanSuspend(s, g)
    ensures s.groups[g].cur != s.groups[g].mainTid
    ensures s.tasks[s.groups[g].cur].kind.Pooled? && s.tasks[s.groups[g].cur].stack.Some?
  {
    assert GroupOk(s, g) && TaskOk(s, s.groups[g].cur);
    assert PlaceOk(s, s.groups[g].cur, Cur(g));
  }

  lemma ExchangeInv(s: State, g: nat, a: nat, i: nat)
    requires Inv(s) && CanExchange(s, g, a, i)
    ensures Inv(StepExchange(s, g, a, i))
  {
    SuspendKeeps(s, g);
    assert StepExchange(s, g, a, i) == Taken(s, g, Hand(a), i, ReadyToRun(s.groups[g].cur), false);
    TakenInv(s, g, Hand(a), i, ReadyToRun(s.groups[g].cur), false);
  }

  lemma PickMainInv(s: State, g: nat)
    requires Inv(s) && CanPickMain(s, g)
    ensures Inv(StepPickMain(s, g))
  {
    var s' := StepPickMain(s, g);
    var m := s.groups[g].mainTid;
    assert GroupOk(s, g) && PlaceOk(s, m, Home(g));
    forall t, p ensures PlaceOk(s', t, p) {
      assert PlaceOk(s, t, p) && PlaceOk(s, m, p);
    }
    forall t | t in s'.tasks ensures TaskOk(s', t) {
      assert TaskOk(s, t);
    }
    forall h: nat | h < |s'.groups| ensures GroupOk(s', h) {
      assert GroupOk(s, h);
      if h != g { SameStacksGroup(s, s', h); }
    }
    forall x | x in s'.stacks ensures StackOk(s', x) {
      assert StackOk(s, x);
      SameStacksStack(s, s', x);
    }
  }

  // ---------- leaving ----------

  lemma LeaveInv(s: State, g: nat, c: Remained, ending: bool)
    requires Inv(s) && g < |s.groups| && s.groups[g].phase.Running? && s.groups[g].cur != s.groups[g].mainTid
    requires Subject(c) == Some(s.groups[g].cur) && KeepsStack(s, c) && (ending <==> c.ReleaseLastContext?)
    ensures Inv(StepLeave(s, g, c, ending))
  {
    var s' := StepLeave(s, g, c, ending);
    assert GroupOk(s, g);
    forall t, p ensures PlaceOk(s', t, p) {
      assert PlaceOk(s, t, p);
    }
    forall t | t in s'.tasks ensures TaskOk(s', t) {
      assert TaskOk(s, t);
    }
    forall h: nat | h < |s'.groups| ensures GroupOk(s', h) {
      assert GroupOk(s, h);
    }
    forall x | x in s'.stacks ensures StackOk(s', x) {
      assert StackOk(s, x);
    }
  }

  lemma SuspendInv(s: State, g: nat, c: Remained)
    requires Inv(s) && CanSuspend(s, g) && Subject(c) == Some(s.groups[g].cur) && !c.ReleaseLastContext?
    ensures Inv(StepLeave(s, g, c, false))
  {
    SuspendKeeps(s, g);
    LeaveInv(s, g, c, false);
  }

  lemma EndInv(s: State, g: nat)
    requires Inv(s) && CanEnd(s, g)
    ensures Inv(StepLeave(s, g, ReleaseLastContext(s.groups[g].cur), true))
  {
    LeaveInv(s, g, ReleaseLastContext(s.groups[g].cur), true);
  }

  // ---------- starting tasks ----------

  /** Group `h` does not know a free task. */
  lemma FreshGroupOk(s: State, s': State, t: Tid, kind: StackType, h: nat)
    requires CanCreate(s, t, kind) && TaskOk(s, t)
    requires h < |s.groups| == |s'.groups| && GroupOk(s, h) && s'.groups[h] == s.groups[h]
    requires s'.stacks == s.stacks && t in s'.tasks && s'.tasks == s.tasks[t := s'.tasks[t]]
    ensures GroupOk(s', h)
  {}

  lemma CreateInv(s: State, t: Tid, kind: StackType, box: Box)
    requires Inv(s) && CanCreateIn(s, t, kind, box)
    ensures Inv(StepCreate(s, t, kind, box))
  {
    var s' := StepCreate(s, t, kind, box);
    assert TaskOk(s, t) && PlaceOk(s, t, In(box));
    forall u, p ensures PlaceOk(s', u, p) {
      assert PlaceOk(s, u, p) && PlaceOk(s, t, p);
    }
    forall u | u in s'.tasks ensures TaskOk(s', u) {
      assert TaskOk(s, u);
    }
    forall h: nat | h < |s'.groups| ensures GroupOk(s', h) {
      assert GroupOk(s, h);
      FreshGroupOk(s, s', t, kind, h);
    }
    forall x | x in s'.stacks ensures StackOk(s', x) {
      assert StackOk(s, x);
    }
  }

  lemma StartForegroundInv(s: State, g: nat, t: Tid, kind: StackType)
    requires Inv(s) && CanStartForeground(s, g, t, kind)
    ensures Inv(StepStartForeground(s, g, t, kind))
  {
    var s' := StepStartForeground(s, g, t, kind);
    SuspendKeeps(s, g);
    assert TaskOk(s, t) && PlaceOk(s, t, Cur(g));
    forall u, p ensures PlaceOk(s', u, p) {
      assert PlaceOk(s, u, p) && PlaceOk(s, t, p);
      StartPlace(s, g, t, kind, u, p);
    }
    forall u | u in s'.tasks ensures TaskOk(s', u) {
      assert TaskOk(s, u);
    }
    forall h: nat | h < |s'.groups| ensures GroupOk(s', h) {
      assert GroupOk(s, h);
      if h != g { FreshGroupOk(s, s', t, kind, h); }
    }
    forall x | x in s'.stacks ensures StackOk(s', x) {
      assert StackOk(s, x);
    }
  }

  lemma StartPlace(s: State, g: nat, t: Tid, kind: StackType, u: Tid, p: Place)
    requires CanStartForeground(s, g, t, kind) && GroupOk(s, g) && TaskOk(s, t) && PlaceOk(s, u, p) && PlaceOk(s, t, p)
    ensures PlaceOk(StepStartForeground(s, g, t, kind), u, p)
  {}

  // ---------- the switch ----------

  lemma SwitchPlace(s: State, g: nat, x: Option<Stack>, t: Tid, p: Place)
    requires CanSwitch(s, g, x) && GroupOk(s, g) && PlaceOk(s, t, p)
    requires PlaceOk(s, s.groups[g].cur, Cur(g)) && PlaceOk(s, s.groups[g].phase.next, Next(g))
    requires PlaceOk(s, s.groups[g].cur, p) && PlaceOk(s, s.groups[g].phase.next, p)
    requires s.groups[g].cur != s.groups[g].mainTid ==> PlaceOk(s, s.groups[g].mainTid, Home(g))
    ensures PlaceOk(StepSwitch(s, g, x), t, p)
  {}

  /** What the switch knows about its two tasks. */
  ghost predicate SwitchPair(s: State, g: nat, x: Option<Stack>) {
    && CanSwitch(s, g, x) && GroupOk(s, g)
    && s.tasks[s.groups[g].cur].place == Cur(g) && s.tasks[s.groups[g].phase.next].place == Next(g)
    && TaskOk(s, s.groups[g].cur) && TaskOk(s, s.groups[g].phase.next)
    && s.groups[g].cur != s.groups[g].phase.next
  }

  lemma SwitchFacts(s: State, g: nat, x: Option<Stack>)
    requires Inv(s) && CanSwitch(s, g, x)
    ensures SwitchPair(s, g, x)
  {
    assert GroupOk(s, g) && TaskOk(s, s.groups[g].cur) && TaskOk(s, s.groups[g].phase.next);
    assert PlaceOk(s, s.groups[g].cur, Cur(g)) && PlaceOk(s, s.groups[g].phase.next, Next(g));
  }

  lemma SwitchTask(s: State, g: nat, x: Option<Stack>, t: Tid)
    requires SwitchPair(s, g, x) && t in s.tasks && TaskOk(s, t)
    ensures t in StepSwitch(s, g, x).tasks && TaskOk(StepSwitch(s, g, x), t)
  {}

  lemma SwitchStack(s: State, g: nat, x: Option<Stack>, y: Stack)
    requires SwitchPair(s, g, x) && y in StepSwitch(s, g, x).stacks && (y in s.stacks ==> StackOk(s, y))
    ensures StackOk(StepSwitch(s, g, x), y)
  {}

  lemma SwitchOwn(s: State, g: nat, x: Option<Stack>)
    requires SwitchPair(s, g, x)
    ensures GroupOk(StepSwitch(s, g, x), g)
  {}

  lemma SwitchOther(s: State, g: nat, x: Option<Stack>, h: nat)
    requires SwitchPair(s, g, x) && h < |s.groups| && h != g && GroupOk(s, h)
    requires s.groups[h].cur != s.groups[g].cur && s.groups[h].cur != s.groups[g].phase.next
    requires s.groups[h].mainTid != s.groups[g].cur && s.groups[h].mainTid != s.groups[g].phase.next
    requires Subject(s.groups[h].remained) != Some(s.groups[g].cur)
    requires Subject(s.groups[h].remained) != Some(s.groups[g].phase.next)
    ensures GroupOk(StepSwitch(s, g, x), h)
  {}

  /** The tasks of another group are not the two of the switch. */
  lemma OtherTasks(s: State, g: nat, h: nat, t: Tid)
    requires Inv(s) && g < |s.groups| && h < |s.groups| && h != g && t in s.tasks
    requires s.tasks[t].place == Cur(g) || s.tasks[t].place == Next(g) || s.tasks[t].place == Left(g)
    ensures s.groups[h].cur != t && s.groups[h].mainTid != t && Subject(s.groups[h].remained) != Some(t)
  {
    assert GroupOk(s, h) && TaskOk(s, t);
    assert PlaceOk(s, t, Cur(h)) && PlaceOk(s, t, Left(h)) && PlaceOk(s, t, Next(h)) && PlaceOk(s, t, Home(h));
  }

  lemma SwitchInv(s: State, g: nat, x: Option<Stack>)
    requires Inv(s) && CanSwitch(s, g, x)
    ensures Inv(StepSwitch(s, g, x))
  {
    SwitchFacts(s, g, x);
    var s' := StepSwitch(s, g, x);
    var cur, next := s.groups[g].cur, s.groups[g].phase.next;
    assert PlaceOk(s, cur, Cur(g)) && PlaceOk(s, next, Next(g)) && PlaceOk(s, s.groups[g].mainTid, Home(g));
    forall t, p ensures PlaceOk(s', t, p) {
      assert PlaceOk(s, t, p) && PlaceOk(s, cur, p) && PlaceOk(s, next, p);
      SwitchPlace(s, g, x, t, p);
    }
    forall t | t in s'.tasks ensures TaskOk(s', t) {
      assert TaskOk(s, t);
      SwitchTask(s, g, x, t);
    }
    forall h: nat | h < |s'.groups| ensures GroupOk(s', h) {
      assert GroupOk(s, h);
      if h == g {
        SwitchOwn(s, g, x);
      } else {
        OtherTasks(s, g, h, cur);
        OtherTasks(s, g, h, next);
        SwitchOther(s, g, x, h);
      }
    }
    forall y | y in s'.stacks ensures StackOk(s', y) {
      assert y in s.stacks ==> StackOk(s, y);
      SwitchStack(s, g, x, y);
    }
  }

  // ---------- the callback ----------

  lemma LandNone(s: State, g: nat, ready: bool)
    requires Inv(s) && CanLand(s, g, ready) && s.groups[g].remained.NoCallback?
    ensures Inv(StepLand(s, g, ready))
  {
    var s' := StepLand(s, g, ready);
    forall t, p ensures PlaceOk(s', t, p) { assert PlaceOk(s, t, p); }
    forall t | t in s'.tasks ensures TaskOk(s', t) { assert TaskOk(s, t); }
    forall h: nat | h < |s'.groups| ensures GroupOk(s', h) { assert GroupOk(s, h); }
    forall x | x in s'.stacks ensures StackOk(s', x) { assert StackOk(s, x); }
  }

  /** The callback puts its task into list `box`. */
  function LandIn(s: State, g: nat, t: Tid, box: Box): State
    requires g < |s.groups| && t in s.tasks && box in s.boxes
  {
    Put(SetGroup(s, g, s.groups[g].(phase := Running, remained := NoCallback)), t, box)
  }

  lemma LandPlace(s: State, g: nat, t: Tid, box: Box, u: Tid, p: Place)
    requires g < |s.groups| && t in s.tasks && box in s.boxes
    requires s.groups[g].phase.Landing? && Subject(s.groups[g].remained) == Some(t) && s.tasks[t].place == Left(g)
    requires PlaceOk(s, u, p) && PlaceOk(s, t, p) && PlaceOk(s, u, Left(g))
    ensures PlaceOk(LandIn(s, g, t, box), u, p)
  {}

  lemma LandInInv(s: State, g: nat, t: Tid, box: Box)
    requires Inv(s) && g < |s.groups| && t in s.tasks && box in s.boxes && s.groups[g].phase.Landing?
    requires Subject(s.groups[g].remained) == Some(t) && !s.groups[g].remained.ReleaseLastContext?
    ensures Inv(LandIn(s, g, t, box))
  {
    var s' := LandIn(s, g, t, box);
    assert GroupOk(s, g) && PlaceOk(s, t, Left(g)) && PlaceOk(s, t, In(box));
    assert TaskOk(s, t);
    forall u, p ensures PlaceOk(s', u, p) {
      assert PlaceOk(s, u, p) && PlaceOk(s, t, p) && PlaceOk(s, u, Left(g));
      LandPlace(s, g, t, box, u, p);
    }
    forall u | u in s'.tasks ensures TaskOk(s', u) { assert TaskOk(s, u); }
    forall h: nat | h < |s'.groups| ensures GroupOk(s', h) {
      assert GroupOk(s, h);
      if h != g { SameStacksGroup(s, s', h); }
    }
    forall x | x in s'.stacks ensures StackOk(s', x) {
      assert StackOk(s, x);
      SameStacksStack(s, s', x);
    }
  }

  /** return_stack never gives back the stack that the worker runs on, nor that of another task. */
  lemma ReleaseStack(s: State, g: nat, t: Tid, u: Tid)
    requires g < |s.groups| && t in s.tasks && u in s.tasks && u != t && s.tasks[t].place == Left(g)
    requires TaskOk(s, t) && TaskOk(s, u) && GroupOk(s, g)
    requires s.tasks[u].kind.Main? ==> s.tasks[u].place.g < |s.groups| && GroupOk(s, s.tasks[u].place.g)
    requires s.tasks[u].kind.Pthread? && s.tasks[u].stack.Some? ==> GroupOk(s, s.tasks[u].place.g)
    ensures s.tasks[t].kind.Pooled? && s.tasks[t].stack.Some? ==> s.tasks[u].stack != s.tasks[t].stack
  {}

  lemma ReleaseInv(s: State, g: nat, ready: bool)
    requires Inv(s) && CanLand(s, g, ready) && s.groups[g].remained.ReleaseLastContext?
    ensures Inv(StepLand(s, g, ready))
  {
    var s' := StepLand(s, g, ready);
    var t := s.groups[g].remained.t;
    assert GroupOk(s, g) && PlaceOk(s, t, Left(g)) && TaskOk(s, t);
    forall u, p ensures PlaceOk(s', u, p) {
      assert PlaceOk(s, u, p) && PlaceOk(s, t, p) && PlaceOk(s, u, Left(g));
    }
    forall u | u in s'.tasks ensures TaskOk(s', u) {
      assert TaskOk(s, u);
      if s.tasks[u].kind.Main? { assert GroupOk(s, s.tasks[u].place.g); }
      if s.tasks[u].kind.Pthread? && s.tasks[u].stack.Some? { assert GroupOk(s, s.tasks[u].place.g); }
      if u != t { ReleaseStack(s, g, t, u); }
    }
    forall h: nat | h < |s'.groups| ensures GroupOk(s', h) {
      assert GroupOk(s, h);
      if h != g { OtherTasks(s, g, h, t); }
    }
    forall x | x in s'.stacks ensures StackOk(s', x) {
      assert StackOk(s, x);
    }
  }

  lemma LandInv(s: State, g: nat, ready: bool)
    requires Inv(s) && CanLand(s, g, ready)
    ensures Inv(StepLand(s, g, ready))
  {
    match s.groups[g].remained {
      case NoCallback => LandNone(s, g, ready);
      case ReadyToRun(t) => LandInInv(s, g, t, Rq(g));
      case WaitForButex(t, b) => LandInInv(s, g, t, if ready then Rq(g) else Butex(b));
      case AddSleepEvent(t) => LandInInv(s, g, t, if ready then Rq(g) else Timers);
      case ReleaseLastContext(_) => ReleaseInv(s, g, ready);
    }
  }

  // ---------- all steps ----------

  lemma StepInv(s: State, e: Event)
    requires Inv(s) && Enabled(s, e)
    ensures Inv(Step(s, e))
  {
    match e {
      case CreateLocal(g, t, kind) => CreateInv(s, t, kind, Rq(g));
      case CreateRemote(h, t, kind) => CreateInv(s, t, kind, Remote(h));
      case StartForeground(g, t, kind) => StartForegroundInv(s, g, t, kind);
      case Yield(g) => SuspendInv(s, g, ReadyToRun(s.groups[g].cur));
      case WaitOn(g, b) => SuspendInv(s, g, WaitForButex(s.groups[g].cur, b));
      case SleepOn(g) => SuspendInv(s, g, AddSleepEvent(s.groups[g].cur));
      case End(g) => EndInv(s, g);
      case Exchange(g, a, i) => ExchangeInv(s, g, a, i);
      case Pick(g, box, i) => PickInv(s, g, box, i);
      case PickMain(g) => PickMainInv(s, g);
      case Switch(g, x) => SwitchInv(s, g, x);
      case Land(g, ready) => LandInv(s, g, ready);
      case Move(from, i, to) => MoveInv(s, from, i, to);
    }
  }
}
