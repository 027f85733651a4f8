/** Every task is in one place, and every stack but a main stack belongs to one task. */
module SchedInvariant {
  import opened Wrappers
  import opened Sched

  ghost predicate NoDuplicates(q: seq<Tid>) {
    forall i, j :: 0 <= i < j < |q| ==> q[i] != q[j]
  }

  /** The task that the callback of a group is about. */
  function Subject(c: Remained): Option<Tid> {
    match c
    case NoCallback => None
    case ReadyToRun(t) => Some(t)
    case WaitForButex(t, _) => Some(t)
    case AddSleepEvent(t) => Some(t)
    case ReleaseLastContext(t) => Some(t)
  }

  /** What the fields of the groups and the lists say about where task `t` is. */
  ghost predicate IsIn(s: State, t: Tid, p: Place) {
    match p
    case Free => false
    case Home(g) =>
      && g < |s.groups| && s.groups[g].mainTid == t && s.groups[g].cur != t
      && !(s.groups[g].phase.Picked? && s.groups[g].phase.next == t)
    case Cur(g) => g < |s.groups| && s.groups[g].cur == t
    case Next(g) => g < |s.groups| && s.groups[g].phase.Picked? && s.groups[g].phase.next == t
    case Left(g) => g < |s.groups| && s.groups[g].phase.Landing? && Subject(s.groups[g].remained) == Some(t)
    case In(box) => box in s.boxes && t in s.boxes[box]
  }

  ghost predicate PlaceOk(s: State, t: Tid, p: Place) {
    !p.Free? ==> (IsIn(s, t, p) <==> t in s.tasks && s.tasks[t].place == p)
  }

  /** Which stack task `t` may have, and what it may be doing without one. */
  ghost predicate StackHeld(s: State, t: Tid)
    requires t in s.tasks
  {
    var m := s.tasks[t];
    match m.kind
    case Main =>
      && (m.place.Home? || m.place.Cur? || m.place.Next?) && m.place.g < |s.groups|
      && s.groups[m.place.g].mainTid == t && m.stack == Some(s.groups[m.place.g].mainStack)
    case Pthread =>
      && !m.place.Home?
      && (m.stack.Some? ==>
            && (m.place.Cur? || m.place.Left?) && m.place.g < |s.groups|
            && m.stack.value == s.groups[m.place.g].mainStack)
    case Pooled(_) =>
      && !m.place.Home?
      && (m.stack.Some? ==> m.stack.value in s.stacks && s.stacks[m.stack.value] == GivenTo(t))
  }

  ghost predicate TaskOk(s: State, t: Tid)
    requires t in s.tasks
  {
    StackHeld(s, t) && (s.tasks[t].place.Free? ==> s.tasks[t].stack == None)
  }

  /** A callback other than ReleaseLastContext is about a task that keeps its own stack. */
  ghost predicate KeepsStack(s: State, c: Remained) {
    Subject(c).Some? && !c.ReleaseLastContext? ==>
      Subject(c).value in s.tasks && s.tasks[Subject(c).value].kind.Pooled? && s.tasks[Subject(c).value].stack.Some?
  }

  ghost predicate PhaseOk(s: State, r: Group) {
    match r.phase
    case Running => r.remained.NoCallback?
    case Leaving(ending) =>
      Subject(r.remained) == Some(r.cur) && r.cur != r.mainTid && (ending <==> r.remained.ReleaseLastContext?)
    case Picked(next, ending) =>
      && next != r.cur && (ending <==> r.remained.ReleaseLastContext?)
      && (if r.cur == r.mainTid then r.remained.NoCallback? else Subject(r.remained) == Some(r.cur))
    case Landing => Subject(r.remained) != Some(r.cur) && Subject(r.remained) != Some(r.mainTid)
  }

  ghost predicate GroupOk(s: State, g: nat)
    requires g < |s.groups|
  {
    var r := s.groups[g];
    && r.cur in s.tasks && s.tasks[r.cur].stack == Some(r.exec)
    && r.mainTid in s.tasks && s.tasks[r.mainTid].kind.Main? && s.tasks[r.mainTid].stack == Some(r.mainStack)
    && r.mainStack in s.stacks && s.stacks[r.mainStack] == MainOf(g)
    && PhaseOk(s, r) && KeepsStack(s, r.remained)
  }

  /** No stack is lost. */
  ghost predicate StackOk(s: State, x: Stack)
    requires x in s.stacks
  {
    match s.stacks[x]
    case InPool => true
    case GivenTo(t) => t in s.tasks && s.tasks[t].kind.Pooled? && s.tasks[t].stack == Some(x)
    case MainOf(g) => g < |s.groups| && s.groups[g].mainStack == x
  }

  ghost predicate Inv(s: State) {
    && (forall t, p {:trigger PlaceOk(s, t, p)} :: PlaceOk(s, t, p))
    && (forall t {:trigger TaskOk(s, t)} :: t in s.tasks ==> TaskOk(s, t))
    && (forall g: nat {:trigger GroupOk(s, g)} :: g < |s.groups| ==> GroupOk(s, g))
    && (forall x {:trigger StackOk(s, x)} :: x in s.stacks ==> StackOk(s, x))
    && (forall box {:trigger s.boxes[box]} :: box in s.boxes ==> NoDuplicates(s.boxes[box]))
  }

  lemma InitInv(s: State)
    requires Init(s)
    ensures Inv(s)
  {
    forall t, p ensures PlaceOk(s, t, p) {
      if IsIn(s, t, p) && p.Cur? { assert FreshGroup(s, p.g); }
      if p.Cur? && p.g < |s.groups| { assert FreshGroup(s, p.g); }
      if t in s.tasks && s.tasks[t].place.Cur? { assert FreshGroup(s, s.tasks[t].place.g); }
      if p.Home? && p.g < |s.groups| { assert FreshGroup(s, p.g); }
      if p.Next? && p.g < |s.groups| { assert FreshGroup(s, p.g); }
      if p.Left? && p.g < |s.groups| { assert FreshGroup(s, p.g); }
    }
    forall t | t in s.tasks ensures TaskOk(s, t) {
      if s.tasks[t].place.Cur? { assert FreshGroup(s, s.tasks[t].place.g); }
    }
    forall g: nat | g < |s.groups| ensures GroupOk(s, g) {
      assert FreshGroup(s, g);
    }
  }

  // ---------- moving tasks between lists ----------

  lemma WithoutMembers(q: seq<Tid>, i: nat)
    requires NoDuplicates(q) && i < |q|
    ensures NoDuplicates(Without(q, i))
    ensures forall t :: t in Without(q, i) <==> t in q && t != q[i]
  {
    var r := Without(q, i);
    forall t ensures t in r <==> t in q && t != q[i] {
      if t in q && t != q[i] {
        var k :| 0 <= k < |q| && q[k] == t;
        assert r[if k < i then k else k - 1] == t;
      }
      if t in r {
        var k :| 0 <= k < |r| && r[k] == t;
        assert q[if k < i then k else k + 1] == t;
      }
    }
  }
}
