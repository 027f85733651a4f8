/** Scans of the array of task groups without the lock, beside the two stores of every registration and
    every removal. */
module GroupReaders {
  import opened Wrappers
  import opened GroupArray

  /** The one holder of `_modify_group_mutex`, between its store to a slot and its store to `_ngroup`. */
  datatype Writer = Idle | Removing(slot: nat) | Adding(g: Group)

  /** A scan that loaded `_ngroup` as `n`; `seen` are the groups it found so far. History: `owed` are the
      groups registered at the load and ever since, `hit` those of which an addition overwrote a copy in a
      slot that the scan had still to visit. */
  datatype Reader =
    | NoReader
    | Scanning(n: nat, visited: set<nat>, seen: set<Group>, owed: set<Group>, hit: set<Group>)

  /** `members`, what is registered, is history. `countFirst` is false in the code; it is true of the variant
      in which a removal stores `_ngroup` before the slot. */
  datatype State = State(
    all: seq<Option<Group>>,
    ngroup: nat,
    writer: Writer,
    members: set<Group>,
    reader: Reader,
    countFirst: bool)

  datatype Event =
    | Remove(g: Group)
    | FinishRemove
    | Add(g: Group)
    | FinishAdd
    | Load
    | Visit(p: nat)

  predicate ToVisit(r: Reader, p: nat) {
    r.Scanning? && p < r.n && p !in r.visited
  }

  ghost predicate Done(r: Reader) {
    r.Scanning? && forall p: nat {:trigger ToVisit(r, p)} :: !ToVisit(r, p)
  }

  ghost predicate Enabled(s: State, e: Event) {
    match e
    case Remove(g) => s.writer == Idle && s.ngroup <= |s.all| && Some(g) in s.all[..s.ngroup]
    case FinishRemove =>
      s.writer.Removing? && s.writer.slot < |s.all| && if s.countFirst then s.ngroup < |s.all| else 0 < s.ngroup
    case Add(g) => s.writer == Idle && s.ngroup < |s.all| && g !in s.members
    case FinishAdd => s.writer.Adding?
    case Load => s.reader.NoReader? || Done(s.reader)
    case Visit(p) => ToVisit(s.reader, p) && p < |s.all|
  }

  function Forget(r: Reader, g: Group): Reader {
    if r.Scanning? then r.(owed := r.owed - {g}) else r
  }

  /** An addition stores to slot `i`, which holds `was`. */
  function Overwrite(r: Reader, i: nat, was: Option<Group>): Reader {
    if ToVisit(r, i) && was.Some? then r.(hit := r.hit + {was.value}) else r
  }

  function See(r: Reader, p: nat, found: Option<Group>): Reader
    requires r.Scanning?
  {
    r.(visited := r.visited + {p}, seen := if found.Some? then r.seen + {found.value} else r.seen)
  }

  function Step(s: State, e: Event): State
    requires Enabled(s, e)
  {
    match e
    case Remove(g) =>
      var i := IndexOf(s.all[..s.ngroup], Some(g));
      var s1 := s.(writer := Removing(i), members := s.members - {g}, reader := Forget(s.reader, g));
      if s.countFirst then s1.(ngroup := s.ngroup - 1) else s1.(all := s.all[i := s.all[s.ngroup - 1]])
    case FinishRemove =>
      var s1 := s.(writer := Idle);
      if s.countFirst then s1.(all := s.all[s.writer.slot := s.all[s.ngroup]]) else s1.(ngroup := s.ngroup - 1)
    case Add(g) =>
      s.(all := s.all[s.ngroup := Some(g)], writer := Adding(g),
         reader := Overwrite(s.reader, s.ngroup, s.all[s.ngroup]))
    case FinishAdd => s.(ngroup := s.ngroup + 1, writer := Idle, members := s.members + {s.writer.g})
    case Load => s.(reader := Scanning(s.ngroup, {}, {}, s.members, {}))
    case Visit(p) => s.(reader := See(s.reader, p, s.all[p]))
  }

  /** An array with nothing registered, nobody writing and nobody reading. */
  predicate Init(s: State) {
    s.ngroup == 0 && s.writer == Idle && s.members == {} && s.reader == NoReader
  }

  ghost predicate Executable(s: State, es: seq<Event>)
    decreases |es|
  {
    es != [] ==> Enabled(s, es[0]) && Executable(Step(s, es[0]), es[1..])
  }

  ghost function After(s: State, es: seq<Event>): State
    requires Executable(s, es)
    decreases |es|
  {
    if es == [] then s else After(Step(s, es[0]), es[1..])
  }

  // ---------- invariant ----------

  /** The slots that stay registered once the writer is done, or that already are. */
  function Settled(s: State): (q: seq<Option<Group>>)
    requires s.ngroup <= |s.all|
  {
    s.all[..if s.writer.Removing? && s.ngroup > 0 then s.ngroup - 1 else s.ngroup]
  }

  ghost predicate MembersOk(s: State) {
    && s.ngroup <= |s.all|
    && NoDuplicates(Settled(s)) && None !in Settled(s)
    && forall g {:trigger Some(g) in Settled(s)} {:trigger g in s.members} :: g in s.members <==> Some(g) in Settled(s)
  }

  ghost predicate WriterOk(s: State)
    requires s.ngroup <= |s.all|
  {
    match s.writer
    case Idle => true
    case Removing(i) =>
      && i < s.ngroup <= |s.all|
      && if i < s.ngroup - 1 then s.all[i] == s.all[s.ngroup - 1] else s.all[i] !in Settled(s)
    case Adding(g) => s.ngroup < |s.all| && s.all[s.ngroup] == Some(g) && g !in s.members
  }

  /** Slot `p` is still to be visited and holds `g`. */
  predicate Ahead(s: State, p: nat, g: Group) {
    ToVisit(s.reader, p) && p < |s.all| && s.all[p] == Some(g)
  }

  /** The scan cannot find `g` any more unless it is copied once more. */
  ghost predicate Hidden(s: State, g: Group) {
    s.reader.Scanning? && g !in s.reader.seen && forall p {:trigger Ahead(s, p, g)} :: !Ahead(s, p, g)
  }

  ghost predicate ReaderOk(s: State) {
    s.reader.Scanning? ==>
      && s.reader.n <= |s.all| && s.reader.owed <= s.members
      && forall g :: g in s.reader.owed && Hidden(s, g) ==> g in s.reader.hit
  }

  ghost predicate Inv(s: State) {
    !s.countFirst && MembersOk(s) && WriterOk(s) && ReaderOk(s)
  }

  // ---------- every step keeps it ----------

  lemma RemoveInv(s: State, g: Group)
    requires Inv(s) && Enabled(s, Remove(g))
    ensures Inv(Step(s, Remove(g)))
    ensures Settled(Step(s, Remove(g))) == Removed(s.all[..s.ngroup], Some(g))
  {
    var s' := Step(s, Remove(g));
    var i := IndexOf(s.all[..s.ngroup], Some(g));
    assert i < s.ngroup by {
      assert s.all[..s.ngroup][..s.ngroup] == s.all[..s.ngroup];
    }
    assert Settled(s') == Removed(Settled(s), Some(g));
    RemovedMembers(Settled(s), Some(g));
    forall h | s.reader.Scanning? && h in s'.reader.owed && Hidden(s', h) ensures h in s'.reader.hit {
      forall p | Ahead(s, p, h) ensures false { assert Ahead(s', p, h); }
    }
  }

  lemma FinishRemoveInv(s: State)
    requires Inv(s) && Enabled(s, FinishRemove)
    ensures Inv(Step(s, FinishRemove)) && Settled(Step(s, FinishRemove)) == Settled(s)
  {
    SameSlots(s, Step(s, FinishRemove));
  }

  /** A step that changes neither a slot nor the reader hides nothing. */
  lemma SameSlots(s: State, s': State)
    requires ReaderOk(s) && s'.all == s.all && s'.reader == s.reader && s.members <= s'.members
    ensures ReaderOk(s')
  {
    forall h | s.reader.Scanning? && h in s'.reader.owed && Hidden(s', h) ensures h in s'.reader.hit {
      forall p | Ahead(s, p, h) ensures false { assert Ahead(s', p, h); }
    }
  }

  lemma AddInv(s: State, g: Group)
    requires Inv(s) && Enabled(s, Add(g))
    ensures Inv(Step(s, Add(g)))
  {
    var s' := Step(s, Add(g));
    assert Settled(s') == Settled(s);
    forall h | s.reader.Scanning? && h in s'.reader.owed && Hidden(s', h) ensures h in s'.reader.hit {
      if !Hidden(s, h) {
        var p :| Ahead(s, p, h);
        assert p == s.ngroup by { assert !Ahead(s', p, h); }
      }
    }
  }

  lemma FinishAddInv(s: State)
    requires Inv(s) && Enabled(s, FinishAdd)
    ensures Inv(Step(s, FinishAdd))
    ensures Settled(Step(s, FinishAdd)) == Added(Settled(s), Some(s.writer.g), |s.all|)
  {
    var s' := Step(s, FinishAdd);
    assert Settled(s') == Settled(s) + [Some(s.writer.g)];
    SameSlots(s, s');
  }

  lemma LoadInv(s: State)
    requires Inv(s) && Enabled(s, Load)
    ensures Inv(Step(s, Load))
  {
    var s' := Step(s, Load);
    forall h | h in s'.reader.owed ensures !Hidden(s', h) {
      assert Some(h) in Settled(s);
      var p :| 0 <= p < |Settled(s)| && Settled(s)[p] == Some(h);
      assert Ahead(s', p, h);
    }
  }

  lemma VisitInv(s: State, p: nat)
    requires Inv(s) && Enabled(s, Visit(p))
    ensures Inv(Step(s, Visit(p)))
  {
    var s' := Step(s, Visit(p));
    forall h | h in s'.reader.owed && Hidden(s', h) ensures h in s'.reader.hit {
      forall k | Ahead(s, k, h) ensures false { assert k != p; assert Ahead(s', k, h); }
    }
  }

  lemma StepInv(s: State, e: Event)
    requires Inv(s) && Enabled(s, e)
    ensures Inv(Step(s, e))
  {
    match e {
      case Remove(g) => RemoveInv(s, g);
      case FinishRemove => FinishRemoveInv(s);
      case Add(g) => AddInv(s, g);
      case FinishAdd => FinishAddInv(s);
      case Load => LoadInv(s);
      case Visit(p) => VisitInv(s, p);
    }
  }

  lemma {:induction false} RunInv(s: State, es: seq<Event>)
    requires Inv(s) && Executable(s, es)
    ensures Inv(After(s, es))
    decreases |es|
  {
    if es != [] {
      StepInv(s, es[0]);
      RunInv(Step(s, es[0]), es[1..]);
    }
  }

  /** `z` ends a run from an empty array, with the stores of a removal in either order. */
  ghost predicate Occurs(z: State) {
    exists s, es :: Init(s) && Executable(s, es) && After(s, es) == z
  }

  /** `z` ends a run of the code. */
  ghost predicate Reachable(z: State) {
    Occurs(z) && !z.countFirst
  }

  lemma {:induction false} OrderKept(s: State, es: seq<Event>)
    requires Executable(s, es)
    ensures After(s, es).countFirst == s.countFirst
    decreases |es|
  {
    if es != [] {
      OrderKept(Step(s, es[0]), es[1..]);
    }
  }

  lemma ReachableInv(z: State)
    requires Reachable(z)
    ensures Inv(z)
  {
    var s, es :| Init(s) && Executable(s, es) && After(s, es) == z;
    OrderKept(s, es);
    assert Settled(s) == [];
    RunInv(s, es);
  }

  // ---------- what every scan finds ----------

  /** A scan that is through has seen every group that was registered all the time, wherever between the
      stores of the writers its load and its visits fell and in whatever order it visited the slots, unless
      an addition overwrote a copy of the group that it had still to visit. */
  lemma ReaderSeesSurvivors(z: State, g: Group)
    requires Reachable(z) && Done(z.reader) && g in z.reader.owed && g !in z.reader.hit
    ensures g in z.reader.seen
  {
    ReachableInv(z);
    forall p ensures !Ahead(z, p, g) {}
  }

  /** At any moment the counted slots hold everything that is registered, and one group twice exactly while a
      removal has overwritten a slot other than the last and not yet stored `_ngroup`. */
  lemma CountedSlots(z: State)
    requires Reachable(z)
    ensures z.ngroup <= |z.all| && forall g :: g in z.members ==> Some(g) in z.all[..z.ngroup]
    ensures !NoDuplicates(z.all[..z.ngroup]) <==> z.writer.Removing? && z.writer.slot < z.ngroup - 1
  {
    ReachableInv(z);
    var q := z.all[..z.ngroup];
    forall g | g in z.members ensures Some(g) in q {
      assert Some(g) in Settled(z);
      assert Settled(z) <= q;
    }
    if z.writer.Removing? {
      assert Settled(z) == q[..z.ngroup - 1];
    } else {
      assert Settled(z) == q;
    }
  }

  /** The slot that an addition is about to overwrite holds the only copy of `g` that the scan, which has not
      seen `g`, has still to visit. */
  ghost predicate OverwritesLastCopy(s: State, g: Group) {
    && s.reader.Scanning? && g !in s.reader.seen && Ahead(s, s.ngroup, g)
    && forall p: nat {:trigger Ahead(s, p, g)} :: Ahead(s, p, g) ==> p == s.ngroup
  }

  /** Exactly an addition can hide a registered group from a scan, and exactly when it overwrites the only
      copy that the scan had still to visit. */
  lemma HiddenByAdditionIff(z: State, e: Event, g: Group)
    requires Reachable(z) && Enabled(z, e) && z.reader.Scanning? && !e.Load? && !Hidden(z, g)
    requires g in z.members && e != Remove(g)
    ensures Hidden(Step(z, e), g) <==> e.Add? && OverwritesLastCopy(z, g)
  {
    ReachableInv(z);
    var s' := Step(z, e);
    if g !in z.reader.seen && Hidden(s', g) {
      var p :| Ahead(z, p, g);
      assert !Ahead(s', p, g);
      forall k | Ahead(z, k, g) ensures e.Add? && k == z.ngroup { assert !Ahead(s', k, g); }
    }
    if e.Add? && Ahead(z, z.ngroup, g) {
      assert e.g != g;
      forall k ensures Ahead(s', k, g) ==> Ahead(z, k, g) && k != z.ngroup {}
    }
  }

  // ---------- what is hidden is missed ----------

  /** The scan visits the slots of `ps` with nobody writing in between. */
  function Visits(ps: seq<nat>): seq<Event> {
    if ps == [] then [] else [Visit(ps[0])] + Visits(ps[1..])
  }

  /** The slots from `p` on that are still to be visited. */
  function Rest(r: Reader, p: nat): (ps: seq<nat>)
    requires r.Scanning? && p <= r.n
    decreases r.n - p
  {
    if p == r.n then [] else if p in r.visited then Rest(r, p + 1) else [p] + Rest(r, p + 1)
  }

  lemma {:induction false} RestOfVisited(r: Reader, r': Reader, p: nat)
    requires r.Scanning? && r'.Scanning? && r.n == r'.n && p <= r.n
    requires forall k :: p <= k < r.n ==> (k in r.visited <==> k in r'.visited)
    ensures Rest(r, p) == Rest(r', p)
    decreases r.n - p
  {
    if p < r.n {
      RestOfVisited(r, r', p + 1);
    }
  }

  /** If nobody writes until the scan is through, it misses exactly the groups that are hidden now. */
  lemma {:induction false} HiddenIsMissed(s: State, p: nat, g: Group)
    requires s.reader.Scanning? && p <= s.reader.n <= |s.all|
    requires forall k :: 0 <= k < p ==> k in s.reader.visited
    ensures var es := Visits(Rest(s.reader, p));
            && Executable(s, es) && Done(After(s, es).reader)
            && (g !in After(s, es).reader.seen <==> Hidden(s, g))
    decreases s.reader.n - p
  {
    if p == s.reader.n {
      forall k ensures !Ahead(s, k, g) {}
    } else if p in s.reader.visited {
      HiddenIsMissed(s, p + 1, g);
    } else {
      var s' := Step(s, Visit(p));
      assert Hidden(s, g) ==> !Ahead(s, p, g);
      forall k ensures Ahead(s', k, g) <==> Ahead(s, k, g) && k != p {}
      RestOfVisited(s.reader, s'.reader, p + 1);
      HiddenIsMissed(s', p + 1, g);
      assert Visits([p] + Rest(s'.reader, p + 1))[1..] == Visits(Rest(s'.reader, p + 1));
    }
  }

  /** An addition during a scan makes it miss a group that it would have seen exactly if the slot it
      overwrites holds the last copy that the scan had still to visit. */
  lemma AdditionHidesIff(z: State, h: Group, g: Group)
    requires Reachable(z) && Enabled(z, Add(h)) && z.reader.Scanning? && g in z.members && !Hidden(z, g)
    ensures var s' := Step(z, Add(h));
            var es := Visits(Rest(s'.reader, 0));
            && Executable(s', es) && Done(After(s', es).reader)
            && (g !in After(s', es).reader.seen <==> OverwritesLastCopy(z, g))
  {
    ReachableInv(z);
    HiddenByAdditionIff(z, Add(h), g);
    StepInv(z, Add(h));
    HiddenIsMissed(Step(z, Add(h)), 0, g);
  }

  // ---------- two scans that miss a registered group ----------

  ghost predicate Path(s: State, es: seq<Event>, z: State) {
    Executable(s, es) && After(s, es) == z
  }

  lemma Then(s: State, e: Event, es: seq<Event>, z: State)
    requires Enabled(s, e) && Path(Step(s, e), es, z)
    ensures Path(s, [e] + es, z)
  {
    assert ([e] + es)[1..] == es;
  }

  function Empty(countFirst: bool): State {
    State([None, None], 0, Idle, {}, NoReader, countFirst)
  }

  function Both(countFirst: bool): State {
    State([Some(7), Some(8)], 2, Idle, {7, 8}, NoReader, countFirst)
  }

  /** Groups 7 and 8 are registered. */
  lemma Registered(countFirst: bool, es: seq<Event>, z: State)
    requires Path(Both(countFirst), es, z)
    ensures Occurs(z)
  {
    var s0 := Empty(countFirst);
    var s1 := Step(s0, Add(7));
    var s2 := Step(s1, FinishAdd);
    var s3 := Step(s2, Add(8));
    assert Step(s3, FinishAdd) == Both(countFirst);
    Then(s3, FinishAdd, es, z);
    Then(s2, Add(8), [FinishAdd] + es, z);
    Then(s1, FinishAdd, [Add(8)] + ([FinishAdd] + es), z);
    Then(s0, Add(7), [FinishAdd] + ([Add(8)] + ([FinishAdd] + es)), z);
    assert Init(s0);
  }

  /** The scan has visited slot 0, and group 8 has just been copied there from slot 1. */
  function Copied(): State {
    State([Some(8), Some(8)], 2, Removing(0), {8}, Scanning(2, {0}, {7}, {8}, {}), false)
  }

  lemma ToCopied(es: seq<Event>, z: State)
    requires Path(Copied(), es, z)
    ensures Occurs(z)
  {
    var s0 := Both(false);
    var s1 := Step(s0, Load);
    var s2 := Step(s1, Visit(0));
    assert s2.all[..2][0] == Some(7);
    assert IndexOf(s2.all[..2], Some(7)) == 0;
    assert Step(s2, Remove(7)) == Copied() by { assert [Some(7), Some(8)][0 := Some(8)] == [Some(8), Some(8)]; }
    Then(s2, Remove(7), es, z);
    Then(s1, Visit(0), [Remove(7)] + es, z);
    Then(s0, Load, [Visit(0)] + ([Remove(7)] + es), z);
    Registered(false, [Load] + ([Visit(0)] + ([Remove(7)] + es)), z);
  }

  /** An addition can hide a group: the scan visits slot 0 before group 7 is removed from it, and slot 1
      after group 9 was stored there, and misses group 8, which is registered all the time. */
  lemma AdditionCanHideGroup() returns (z: State)
    ensures Reachable(z) && Done(z.reader) && 8 in z.reader.owed && 8 !in z.reader.seen
  {
    var s1 := Step(Copied(), FinishRemove);
    var s2 := Step(s1, Add(9));
    var s3 := Step(s2, FinishAdd);
    z := Step(s3, Visit(1));
    Then(s3, Visit(1), [], z);
    Then(s2, FinishAdd, [Visit(1)] + [], z);
    Then(s1, Add(9), [FinishAdd] + ([Visit(1)] + []), z);
    Then(Copied(), FinishRemove, [Add(9)] + ([FinishAdd] + ([Visit(1)] + [])), z);
    ToCopied([FinishRemove] + ([Add(9)] + ([FinishAdd] + ([Visit(1)] + []))), z);
  }

  /** The order of the two stores of a removal matters: with `_ngroup` stored first, a scan that loads it in
      between misses the group that is about to be copied, although nothing was added. */
  lemma CountFirstLosesGroup() returns (z: State)
    ensures Occurs(z) && z.countFirst && Done(z.reader)
    ensures 8 in z.reader.owed && 8 !in z.reader.hit && 8 !in z.reader.seen
  {
    var s0 := Both(true);
    assert s0.all[..2][0] == Some(7);
    assert IndexOf(s0.all[..2], Some(7)) == 0;
    var s1 := Step(s0, Remove(7));
    var s2 := Step(s1, Load);
    z := Step(s2, Visit(0));
    Then(s2, Visit(0), [], z);
    Then(s1, Load, [Visit(0)] + [], z);
    Then(s0, Remove(7), [Load] + ([Visit(0)] + []), z);
    Registered(true, [Remove(7)] + ([Load] + ([Visit(0)] + [])), z);
  }
}
