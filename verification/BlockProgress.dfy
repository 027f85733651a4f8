/** When a call of add_block gets a block and when it fails. */
module BlockProgress {
  import opened BlockAlloc

  // ---------- the outcome of each access ----------

  /** A call tries the last group exactly if there is one. */
  lemma LoadFindsLastGroup(s: State, t: Thread)
    requires Enabled(s, DoLoad(t))
    ensures s.groups != [] <==> Step(s, DoLoad(t)).pcs[t] == FetchAdd(s.pcs[t].b, |s.groups|)
    ensures s.groups == [] <==> Step(s, DoLoad(t)).pcs[t] == AddGroup(s.pcs[t].b, 0)
  {}

  /** Its fetch_add wins the next slot exactly if the group has a slot that nobody has won; otherwise the call
      is about to take its count back, and wins nothing. */
  lemma WinsIffRoom(s: State, t: Thread)
    requires Reachable(s) && Enabled(s, DoFetchAdd(t))
    ensures var b, k := s.pcs[t].b, s.pcs[t].ngroup - 1;
            var won, z := |s.groups[k].winners|, Step(s, DoFetchAdd(t));
            if won < s.limits.groupNblock then
              z.pcs[t] == Store(b, k + 1, won) && z.groups[k].winners == s.groups[k].winners + [b]
            else z.pcs[t] == FetchSub(b, k + 1) && z.groups[k].winners == s.groups[k].winners
  {
    ReachableInv(s);
    RoomMeansNoFailure(s, t);
    assert GroupOk(s, s.pcs[t].ngroup - 1);
  }

  predicate Fails(s: State, e: Event)
    requires Enabled(s, e)
  {
    e.t in s.pcs && !s.pcs[e.t].Failed? && e.t in Step(s, e).pcs && Step(s, e).pcs[e.t].Failed?
  }

  /** A call fails exactly if there is no memory for its block, or if nobody has added a group since it looked
      and no group can be added: there are as many as there may be, or there is no memory for one. */
  lemma FailsIff(s: State, e: Event)
    requires Enabled(s, e)
    ensures Fails(s, e) <==>
            || (e.Begin? && !e.memory)
            || (e.DoAddGroup? && s.pcs[e.t].ngroup == |s.groups| && (|s.groups| >= s.limits.maxNgroup || !e.memory))
  {}

  // ---------- a call comes to its end ----------

  ghost predicate LastHasRoom(s: State) {
    s.groups != [] && |s.groups[|s.groups| - 1].winners| < s.limits.groupNblock
  }

  /** A block can still be added. */
  ghost predicate Room(s: State) {
    s.limits.groupNblock > 0 && (LastHasRoom(s) || |s.groups| < s.limits.maxNgroup)
  }

  /** Slots are won in order, so this is the index of the next one. */
  ghost function NextIndex(s: State): nat {
    if LastHasRoom(s) then
      (|s.groups| - 1) * s.limits.groupNblock + |s.groups[|s.groups| - 1].winners|
    else |s.groups| * s.limits.groupNblock
  }

  predicate OnlyBy(es: seq<Event>, t: Thread) {
    forall e :: e in es ==> e.t == t && !e.Begin? && !e.Finish? && (e.DoAddGroup? ==> e.memory)
  }

  ghost predicate Ends(s: State, es: seq<Event>, t: Thread, pc: Pc) {
    OnlyBy(es, t) && Executable(s, es) && t in After(s, es).pcs && After(s, es).pcs[t] == pc
  }

  lemma Prepend(s: State, e: Event, es: seq<Event>, t: Thread, pc: Pc)
    requires Enabled(s, e) && OnlyBy([e], t) && Ends(Step(s, e), es, t, pc)
    ensures Ends(s, [e] + es, t, pc)
  {
    assert e in [e] && ([e] + es)[1..] == es;
  }

  lemma NoMore(s: State, t: Thread)
    requires t in s.pcs
    ensures Ends(s, [], t, s.pcs[t])
  {}

  /** The call has won slot `slot` of group `k`. */
  lemma StoresIt(s: State, t: Thread) returns (es: seq<Event>)
    requires Inv(s) && t in s.pcs && s.pcs[t].Store?
    ensures var Store(b, ngroup, slot) := s.pcs[t];
            0 < ngroup && Ends(s, es, t, Got(b, (ngroup - 1) * s.limits.groupNblock + slot))
  {
    assert PcOk(s, t);
    var s1 := Step(s, DoStore(t));
    NoMore(s1, t);
    Prepend(s, DoStore(t), [], t, s1.pcs[t]);
    es := [DoStore(t)] + [];
  }

  /** The call is at a group that has room. */
  lemma WinsSlot(s: State, t: Thread) returns (es: seq<Event>)
    requires Inv(s) && t in s.pcs && s.pcs[t].FetchAdd? && HasGroup(s, s.pcs[t].ngroup)
    requires |s.groups[s.pcs[t].ngroup - 1].winners| < s.limits.groupNblock
    ensures var k := s.pcs[t].ngroup - 1;
            Ends(s, es, t, Got(s.pcs[t].b, k * s.limits.groupNblock + |s.groups[k].winners|))
  {
    RoomMeansNoFailure(s, t);
    assert GroupOk(s, s.pcs[t].ngroup - 1);
    StepInv(s, DoFetchAdd(t));
    var s1 := Step(s, DoFetchAdd(t));
    var fs := StoresIt(s1, t);
    Prepend(s, DoFetchAdd(t), fs, t, After(s1, fs).pcs[t]);
    es := [DoFetchAdd(t)] + fs;
  }

  /** The call has just begun, or begins again, while the last group has room. */
  lemma LoadWins(s: State, t: Thread) returns (es: seq<Event>)
    requires Inv(s) && t in s.pcs && s.pcs[t].LoadNgroup? && LastHasRoom(s)
    ensures Ends(s, es, t, Got(s.pcs[t].b, NextIndex(s)))
  {
    StepInv(s, DoLoad(t));
    var s1 := Step(s, DoLoad(t));
    var fs := WinsSlot(s1, t);
    Prepend(s, DoLoad(t), fs, t, After(s1, fs).pcs[t]);
    es := [DoLoad(t)] + fs;
  }

  /** The call found no room in the last of the groups. */
  lemma AddsGroup(s: State, t: Thread) returns (es: seq<Event>)
    requires Inv(s) && t in s.pcs && s.pcs[t].AddGroup? && s.pcs[t].ngroup == |s.groups|
    ensures |s.groups| >= s.limits.maxNgroup ==> Ends(s, es, t, Failed)
    ensures |s.groups| < s.limits.maxNgroup && s.limits.groupNblock > 0 ==>
              Ends(s, es, t, Got(s.pcs[t].b, |s.groups| * s.limits.groupNblock))
  {
    var e := DoAddGroup(t, true);
    StepInv(s, e);
    var s1 := Step(s, e);
    var fs := [];
    if |s.groups| < s.limits.maxNgroup && s.limits.groupNblock > 0 {
      fs := LoadWins(s1, t);
    }
    NoMore(s1, t);
    es := [e] + fs;
    Prepend(s, e, fs, t, After(s1, fs).pcs[t]);
  }

  /** The call is at the last group, which is full. */
  lemma PassesFullGroup(s: State, t: Thread) returns (es: seq<Event>)
    requires Inv(s) && t in s.pcs && s.pcs[t].FetchAdd? && s.pcs[t].ngroup == |s.groups| > 0 && !LastHasRoom(s)
    ensures |s.groups| >= s.limits.maxNgroup ==> Ends(s, es, t, Failed)
    ensures |s.groups| < s.limits.maxNgroup && s.limits.groupNblock > 0 ==>
              Ends(s, es, t, Got(s.pcs[t].b, |s.groups| * s.limits.groupNblock))
  {
    assert GroupOk(s, |s.groups| - 1);
    StepInv(s, DoFetchAdd(t));
    var s1 := Step(s, DoFetchAdd(t));
    StepInv(s1, DoFetchSub(t));
    var s2 := Step(s1, DoFetchSub(t));
    var fs := AddsGroup(s2, t);
    es := [DoFetchAdd(t)] + ([DoFetchSub(t)] + fs);
    if |s.groups| >= s.limits.maxNgroup || s.limits.groupNblock > 0 {
      var pc := After(s2, fs).pcs[t];
      Prepend(s1, DoFetchSub(t), fs, t, pc);
      Prepend(s, DoFetchAdd(t), [DoFetchSub(t)] + fs, t, pc);
    }
  }

  lemma LoadFindsNoRoom(s: State, t: Thread) returns (es: seq<Event>)
    requires Inv(s) && t in s.pcs && s.pcs[t].LoadNgroup? && !LastHasRoom(s) && s.limits.groupNblock > 0
    ensures |s.groups| >= s.limits.maxNgroup ==> Ends(s, es, t, Failed)
    ensures |s.groups| < s.limits.maxNgroup ==> Ends(s, es, t, Got(s.pcs[t].b, |s.groups| * s.limits.groupNblock))
  {
    StepInv(s, DoLoad(t));
    var s1 := Step(s, DoLoad(t));
    var fs;
    if s.groups == [] { fs := AddsGroup(s1, t); } else { fs := PassesFullGroup(s1, t); }
    es := [DoLoad(t)] + fs;
    Prepend(s, DoLoad(t), fs, t, After(s1, fs).pcs[t]);
  }

  /** A call that has just looked at the groups, and has memory, comes to its end by itself: with the next index
      if there is room, in the last group or for one more, and without one if there is none. */
  lemma AddBlockSucceedsIffRoom(s: State, t: Thread) returns (es: seq<Event>)
    requires Reachable(s) && t in s.pcs && s.pcs[t].LoadNgroup? && s.limits.groupNblock > 0
    ensures Ends(s, es, t, if Room(s) then Got(s.pcs[t].b, NextIndex(s)) else Failed)
  {
    ReachableInv(s);
    if LastHasRoom(s) { es := LoadWins(s, t); } else { es := LoadFindsNoRoom(s, t); }
  }

  /** The call has its block, or found as many groups as there may be. */
  ghost predicate Finishes(s: State, es: seq<Event>, t: Thread) {
    && OnlyBy(es, t) && Executable(s, es) && t in After(s, es).pcs
    && (After(s, es).pcs[t].Got? || (After(s, es).pcs[t].Failed? && |After(s, es).groups| >= s.limits.maxNgroup))
  }

  lemma FinishesAfter(s: State, e: Event, es: seq<Event>, t: Thread)
    requires Enabled(s, e) && OnlyBy([e], t) && Finishes(Step(s, e), es, t)
    ensures Finishes(s, [e] + es, t)
  {
    assert e in [e] && ([e] + es)[1..] == es;
  }

  lemma {:induction false} GroupsStay(s: State, es: seq<Event>)
    requires Executable(s, es)
    ensures |s.groups| <= |After(s, es).groups| && After(s, es).limits == s.limits
    decreases |es|
  {
    if es != [] { GroupsStay(Step(s, es[0]), es[1..]); }
  }

  lemma LoadFinishes(s: State, t: Thread) returns (es: seq<Event>)
    requires Inv(s) && t in s.pcs && s.pcs[t].LoadNgroup? && s.limits.groupNblock > 0
    ensures Finishes(s, es, t)
  {
    if LastHasRoom(s) { es := LoadWins(s, t); } else { es := LoadFindsNoRoom(s, t); }
    GroupsStay(s, es);
  }

  lemma AddGroupFinishes(s: State, t: Thread) returns (es: seq<Event>)
    requires Inv(s) && t in s.pcs && s.pcs[t].AddGroup? && s.limits.groupNblock > 0
    ensures Finishes(s, es, t)
  {
    if s.pcs[t].ngroup == |s.groups| {
      es := AddsGroup(s, t);
      GroupsStay(s, es);
    } else {
      var e := DoAddGroup(t, true);
      StepInv(s, e);
      var fs := LoadFinishes(Step(s, e), t);
      FinishesAfter(s, e, fs, t);
      es := [e] + fs;
    }
  }

  lemma FetchSubFinishes(s: State, t: Thread) returns (es: seq<Event>)
    requires Inv(s) && t in s.pcs && s.pcs[t].FetchSub? && s.limits.groupNblock > 0
    ensures Finishes(s, es, t)
  {
    assert PcOk(s, t) && GroupOk(s, s.pcs[t].ngroup - 1);
    assert s.groups[s.pcs[t].ngroup - 1].failing != {};
    StepInv(s, DoFetchSub(t));
    var fs := AddGroupFinishes(Step(s, DoFetchSub(t)), t);
    FinishesAfter(s, DoFetchSub(t), fs, t);
    es := [DoFetchSub(t)] + fs;
  }

  lemma FetchAddFinishes(s: State, t: Thread) returns (es: seq<Event>)
    requires Inv(s) && t in s.pcs && s.pcs[t].FetchAdd? && s.limits.groupNblock > 0
    ensures Finishes(s, es, t)
  {
    assert PcOk(s, t);
    if |s.groups[s.pcs[t].ngroup - 1].winners| < s.limits.groupNblock {
      es := WinsSlot(s, t);
    } else {
      RoomMeansNoFailure(s, t);
      assert GroupOk(s, s.pcs[t].ngroup - 1);
      StepInv(s, DoFetchAdd(t));
      var fs := FetchSubFinishes(Step(s, DoFetchAdd(t)), t);
      FinishesAfter(s, DoFetchAdd(t), fs, t);
      es := [DoFetchAdd(t)] + fs;
    }
  }

  /** However the calls interleave, each of them can come to its end by itself from wherever it stands, and
      with memory for a group it has its block then, unless there are as many groups as there may be. */
  lemma EveryCallEnds(s: State, t: Thread) returns (es: seq<Event>)
    requires Reachable(s) && t in s.pcs && Working(s.pcs[t]) && s.limits.groupNblock > 0
    ensures Finishes(s, es, t)
  {
    ReachableInv(s);
    match s.pcs[t] {
      case LoadNgroup(_) => es := LoadFinishes(s, t);
      case FetchAdd(_, _) => es := FetchAddFinishes(s, t);
      case Store(_, _, _) => es := StoresIt(s, t);
      case FetchSub(_, _) => es := FetchSubFinishes(s, t);
      case AddGroup(_, _) => es := AddGroupFinishes(s, t);
      case Got(_, _) => es := []; NoMore(s, t);
    }
  }
}
