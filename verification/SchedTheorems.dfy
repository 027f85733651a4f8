/** What the scheduler guarantees over every run. */
module SchedTheorems {
  import opened Wrappers
  import opened Sched
  import opened SchedInvariant
  import opened SchedSteps

  ghost predicate Reachable(s: State) {
    exists s0, es :: Init(s0) && Executable(s0, es) && After(s0, es) == s
  }

  lemma {:induction false} RunInv(s: State, es: seq<Event>)
    requires Inv(s) && Executable(s, es)
    ensures Inv(After(s, es))
    decreases |es|
  {
    if es != [] {
      StepInv(s, es[0]);
      RunInv(Step(s, es[0]), es[1..]);
    }
  }

  lemma ReachableInv(s: State)
    requires Reachable(s)
    ensures Inv(s)
  {
    var s0, es :| Init(s0) && Executable(s0, es) && After(s0, es) == s;
    InitInv(s0);
    RunInv(s0, es);
  }

  /** A live task is in exactly one place, and only once in its list; a free slot is nowhere. */
  lemma OnePlace(s: State, t: Tid, p: Place)
    requires Reachable(s) && t in s.tasks && !s.tasks[t].place.Free?
    ensures IsIn(s, t, s.tasks[t].place)
    ensures IsIn(s, t, p) ==> p == s.tasks[t].place
    ensures p.In? && p.box in s.boxes ==> NoDuplicates(s.boxes[p.box])
  {
    ReachableInv(s);
    assert PlaceOk(s, t, s.tasks[t].place) && PlaceOk(s, t, p);
  }

  lemma FreeIsNowhere(s: State, t: Tid, p: Place)
    requires Reachable(s) && (t in s.tasks ==> s.tasks[t].place.Free?)
    ensures !IsIn(s, t, p)
    ensures t in s.tasks ==> s.tasks[t].stack == None
  {
    ReachableInv(s);
    assert PlaceOk(s, t, p);
    assert t in s.tasks ==> TaskOk(s, t);
  }

  /** No task runs on two workers, and no two workers run on the same stack. */
  lemma OneWorkerPerTask(s: State, g: nat, h: nat)
    requires Reachable(s) && g < |s.groups| && h < |s.groups| && g != h
    ensures s.groups[g].cur != s.groups[h].cur
    ensures s.groups[g].exec != s.groups[h].exec
  {
    ReachableInv(s);
    var t, u := s.groups[g].cur, s.groups[h].cur;
    assert GroupOk(s, g) && GroupOk(s, h);
    assert PlaceOk(s, t, Cur(g)) && PlaceOk(s, u, Cur(h));
    assert TaskOk(s, t) && TaskOk(s, u);
  }

  /** A main task is never in a list, never left to a callback, and runs in its own group only. */
  lemma MainStaysHome(s: State, g: nat, p: Place)
    requires Reachable(s) && g < |s.groups| && IsIn(s, s.groups[g].mainTid, p)
    ensures p == Home(g) || p == Cur(g) || p == Next(g)
  {
    ReachableInv(s);
    var m := s.groups[g].mainTid;
    assert GroupOk(s, g) && TaskOk(s, m) && PlaceOk(s, m, p);
    assert GroupOk(s, s.tasks[m].place.g);
  }

  /** Every stack other than a main stack belongs to at most one task, and to one while it is given out. */
  lemma OneOwner(s: State, t: Tid, u: Tid, x: Stack)
    requires Reachable(s) && t in s.tasks && u in s.tasks && s.tasks[t].stack == Some(x) && s.tasks[u].stack == Some(x)
    ensures t == u || (x in s.stacks && s.stacks[x].MainOf?)
    ensures x in s.stacks && !s.stacks[x].InPool?
  {
    ReachableInv(s);
    StackKnown(s, t);
    StackKnown(s, u);
  }

  lemma StackKnown(s: State, t: Tid)
    requires Inv(s) && t in s.tasks && s.tasks[t].stack.Some?
    ensures s.tasks[t].stack.value in s.stacks
    ensures s.stacks[s.tasks[t].stack.value] == GivenTo(t) || s.stacks[s.tasks[t].stack.value].MainOf?
  {
    assert TaskOk(s, t);
    if !s.tasks[t].kind.Pooled? { assert GroupOk(s, s.tasks[t].place.g); }
  }

  lemma NoStackLost(s: State, x: Stack)
    requires Reachable(s) && x in s.stacks && s.stacks[x].GivenTo?
    ensures s.stacks[x].t in s.tasks && s.tasks[s.stacks[x].t].stack == Some(x)
  {
    ReachableInv(s);
    assert StackOk(s, x);
  }

  /** set_remained never overwrites a callback that has not run: whenever code of a task runs, the slot
      is empty. */
  lemma SlotIsFree(s: State, g: nat)
    requires Reachable(s) && g < |s.groups| && s.groups[g].phase.Running?
    ensures s.groups[g].remained.NoCallback?
  {
    ReachableInv(s);
    assert GroupOk(s, g);
  }

  /** When the callback runs, its task is off the processor of every worker: nobody runs it, nobody runs
      on its own stack, and nobody else can reach it. */
  lemma CallbackAfterSwitch(s: State, g: nat, h: nat)
    requires Reachable(s) && g < |s.groups| && h < |s.groups| && s.groups[g].phase.Landing?
    requires Subject(s.groups[g].remained).Some?
    ensures var t := Subject(s.groups[g].remained).value;
            && t in s.tasks && s.tasks[t].place == Left(g) && s.groups[h].cur != t
            && (s.tasks[t].kind.Pooled? ==> s.tasks[t].stack != Some(s.groups[h].exec))
  {
    ReachableInv(s);
    var t := Subject(s.groups[g].remained).value;
    assert PlaceOk(s, t, Left(g)) && PlaceOk(s, t, Cur(h)) && GroupOk(s, h);
    var u := s.groups[h].cur;
    assert TaskOk(s, t);
    StackKnown(s, u);
  }

  /** _release_last_context gives back a stack that no task has and no worker runs on. */
  lemma ReturnedStackUnused(s: State, g: nat, ready: bool, x: Stack, h: nat, u: Tid)
    requires Reachable(s) && CanLand(s, g, ready) && x in s.stacks && !s.stacks[x].InPool?
    requires var s' := StepLand(s, g, ready); s'.stacks[x].InPool? && h < |s'.groups| && u in s'.tasks
    ensures var s' := StepLand(s, g, ready); s'.groups[h].exec != x && s'.tasks[u].stack != Some(x)
  {
    ReachableInv(s);
    LandInv(s, g, ready);
    var s' := StepLand(s, g, ready);
    assert GroupOk(s', h);
    if s'.tasks[u].stack == Some(x) { StackKnown(s', u); }
    if s'.groups[h].exec == x { StackKnown(s', s'.groups[h].cur); }
  }

  /** Two tasks that follow each other without a jump are on the main stack of the group, except when
      ending_sched passed the stack on. */
  lemma SameStackIsMain(s: State, g: nat, x: Option<Stack>)
    requires Reachable(s) && CanSwitch(s, g, x) && !Transfers(s, g, x)
    ensures Equipped(s, g, x).stack == s.tasks[s.groups[g].cur].stack ==>
              s.tasks[s.groups[g].cur].stack == Some(s.groups[g].mainStack)
  {
    ReachableInv(s);
    SwitchFacts(s, g, x);
    SwitchInv(s, g, x);
    var cur, next := s.groups[g].cur, s.groups[g].phase.next;
    StackKnown(s, cur);
    if s.tasks[next].stack.Some? { StackKnown(s, next); }
    assert s.tasks[cur].stack.value in s.stacks ==> StackOk(s, s.tasks[cur].stack.value);
    SameStack(s, g, x);
  }

  lemma SameStack(s: State, g: nat, x: Option<Stack>)
    requires SwitchPair(s, g, x) && !Transfers(s, g, x) && s.tasks[s.groups[g].cur].stack.value in s.stacks
    requires var x := s.tasks[s.groups[g].cur].stack.value;
             s.stacks[x] == GivenTo(s.groups[g].cur) || s.stacks[x].MainOf?
    ensures Equipped(s, g, x).stack == s.tasks[s.groups[g].cur].stack ==>
              s.tasks[s.groups[g].cur].stack == Some(s.groups[g].mainStack)
  {}

  /** `CHECK(m->stack == NULL)`: a new task has no stack of an earlier life of its slot. */
  lemma NewTaskHasNoStack(s: State, t: Tid, kind: StackType)
    requires Reachable(s) && CanCreate(s, t, kind)
    ensures s.tasks[t].stack == None
  {
    ReachableInv(s);
    assert TaskOk(s, t);
  }

  /** A suspended task keeps its own stack, or was never started; only a started one has a stack. */
  lemma QueuedTaskReady(s: State, t: Tid, box: Box)
    requires Reachable(s) && box in s.boxes && t in s.boxes[box]
    ensures t in s.tasks && !s.tasks[t].kind.Main?
    ensures s.tasks[t].stack.Some? ==>
              s.tasks[t].stack.value in s.stacks && s.stacks[s.tasks[t].stack.value] == GivenTo(t)
  {
    ReachableInv(s);
    assert PlaceOk(s, t, In(box));
    assert TaskOk(s, t);
  }
}
