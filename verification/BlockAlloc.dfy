/** ResourcePool::add_block and add_block_group, called by any number of threads at a time. */
module BlockAlloc {
  import opened Arithmetic

  type Thread = nat

  /** RP_GROUP_NBLOCK and RP_MAX_BLOCK_NGROUP. */
  datatype Limits = Limits(groupNblock: nat, maxNgroup: nat)

  /** `blocks` are the slots stored so far. History: `winners` are the blocks that got a slot, in the order
      of their fetch_add, `failing` the threads that are about to take their fetch_add back. */
  datatype BlockGroup = BlockGroup(nblock: nat, blocks: map<nat, nat>, winners: seq<nat>, failing: set<Thread>)

  /** `b` is the new Block of this call, `ngroup` the value that it loaded. */
  datatype Pc =
    | Idle
    | LoadNgroup(b: nat)
    | FetchAdd(b: nat, ngroup: nat)
    | Store(b: nat, ngroup: nat, slot: nat)
    | FetchSub(b: nat, ngroup: nat)
    | AddGroup(b: nat, ngroup: nat)
    | Got(b: nat, index: nat)
    | Failed

  /** Blocks are numbered as they are allocated; `given` (history) is the index that each call returned. */
  datatype State = State(
    limits: Limits,
    groups: seq<BlockGroup>,
    pcs: map<Thread, Pc>,
    made: nat,
    given: map<nat, nat>)

  datatype Event =
    | Begin(t: Thread, memory: bool)
    | DoLoad(t: Thread)
    | DoFetchAdd(t: Thread)
    | DoStore(t: Thread)
    | DoFetchSub(t: Thread)
    | DoAddGroup(t: Thread, memory: bool)
    | Finish(t: Thread)

  function SetPc(s: State, t: Thread, pc: Pc): State {
    s.(pcs := s.pcs[t := pc])
  }

  predicate HasGroup(s: State, ngroup: nat) {
    0 < ngroup <= |s.groups|
  }

  predicate Enabled(s: State, e: Event) {
    match e
    case Begin(t, memory) => t in s.pcs && s.pcs[t].Idle?
    case DoLoad(t) => t in s.pcs && s.pcs[t].LoadNgroup?
    case DoFetchAdd(t) => t in s.pcs && s.pcs[t].FetchAdd? && HasGroup(s, s.pcs[t].ngroup)
    case DoStore(t) => t in s.pcs && s.pcs[t].Store? && HasGroup(s, s.pcs[t].ngroup)
    case DoFetchSub(t) =>
      && t in s.pcs && s.pcs[t].FetchSub? && HasGroup(s, s.pcs[t].ngroup)
      && s.groups[s.pcs[t].ngroup - 1].nblock > 0
    case DoAddGroup(t, memory) => t in s.pcs && s.pcs[t].AddGroup?
    case Finish(t) => t in s.pcs && (s.pcs[t].Got? || s.pcs[t].Failed?)
  }

  /** `new(std::nothrow) Block`. */
  function StepBegin(s: State, t: Thread, memory: bool): State {
    if memory then SetPc(s, t, LoadNgroup(s.made)).(made := s.made + 1) else SetPc(s, t, Failed)
  }

  function StepLoad(s: State, t: Thread): State
    requires Enabled(s, DoLoad(t))
  {
    var n := |s.groups|;
    SetPc(s, t, if n >= 1 then FetchAdd(s.pcs[t].b, n) else AddGroup(s.pcs[t].b, n))
  }

  function StepFetchAdd(s: State, t: Thread): State
    requires Enabled(s, DoFetchAdd(t))
  {
    var FetchAdd(b, ngroup) := s.pcs[t];
    var g := s.groups[ngroup - 1];
    if g.nblock < s.limits.groupNblock then
      SetPc(s, t, Store(b, ngroup, g.nblock))
        .(groups := s.groups[ngroup - 1 := g.(nblock := g.nblock + 1, winners := g.winners + [b])])
    else
      SetPc(s, t, FetchSub(b, ngroup))
        .(groups := s.groups[ngroup - 1 := g.(nblock := g.nblock + 1, failing := g.failing + {t})])
  }

  function StepStore(s: State, t: Thread): State
    requires Enabled(s, DoStore(t))
  {
    var Store(b, ngroup, slot) := s.pcs[t];
    var g := s.groups[ngroup - 1];
    var index := (ngroup - 1) * s.limits.groupNblock + slot;
    SetPc(s, t, Got(b, index))
      .(groups := s.groups[ngroup - 1 := g.(blocks := g.blocks[slot := b])], given := s.given[b := index])
  }

  function StepFetchSub(s: State, t: Thread): State
    requires Enabled(s, DoFetchSub(t))
  {
    var FetchSub(b, ngroup) := s.pcs[t];
    var g := s.groups[ngroup - 1];
    SetPc(s, t, AddGroup(b, ngroup))
      .(groups := s.groups[ngroup - 1 := g.(nblock := g.nblock - 1, failing := g.failing - {t})])
  }

  /** add_block_group runs under its mutex; on success add_block tries again. */
  function StepAddGroup(s: State, t: Thread, memory: bool): State
    requires Enabled(s, DoAddGroup(t, memory))
  {
    var AddGroup(b, ngroup) := s.pcs[t];
    if |s.groups| != ngroup then SetPc(s, t, LoadNgroup(b))
    else if |s.groups| < s.limits.maxNgroup && memory then
      SetPc(s, t, LoadNgroup(b)).(groups := s.groups + [BlockGroup(0, map[], [], {})])
    else SetPc(s, t, Failed)
  }

  function Step(s: State, e: Event): State
    requires Enabled(s, e)
  {
    match e
    case Begin(t, memory) => StepBegin(s, t, memory)
    case DoLoad(t) => StepLoad(s, t)
    case DoFetchAdd(t) => StepFetchAdd(s, t)
    case DoStore(t) => StepStore(s, t)
    case DoFetchSub(t) => StepFetchSub(s, t)
    case DoAddGroup(t, memory) => StepAddGroup(s, t, memory)
    case Finish(t) => SetPc(s, t, Idle)
  }

  ghost predicate Init(s: State) {
    && s.groups == [] && s.given == map[] && s.made == 0
    && (forall t {:trigger s.pcs[t]} :: t in s.pcs ==> s.pcs[t].Idle?)
  }

  // ---------- the invariant ----------

  predicate Working(pc: Pc) {
    !pc.Idle? && !pc.Failed?
  }

  /** `nblock` counts the winners and the failures in flight, and there are failures only when the group is full. */
  ghost predicate GroupOk(s: State, k: nat)
    requires k < |s.groups|
  {
    var g := s.groups[k];
    && g.nblock == |g.winners| + |g.failing| && |g.winners| <= s.limits.groupNblock
    && (g.failing != {} ==> |g.winners| == s.limits.groupNblock)
  }

  ghost predicate Wins(s: State, b: nat, k: nat, slot: nat) {
    k < |s.groups| && slot < |s.groups[k].winners| && s.groups[k].winners[slot] == b
  }

  /** The winner of slot `slot` is a block that was allocated, and no other slot's. */
  ghost predicate WinnerOk(s: State, k: nat, slot: nat)
    requires k < |s.groups| && slot < |s.groups[k].winners|
  {
    s.groups[k].winners[slot] < s.made
  }

  ghost predicate StoredOk(s: State, k: nat, slot: nat)
    requires k < |s.groups| && slot in s.groups[k].blocks
  {
    slot < |s.groups[k].winners| && s.groups[k].winners[slot] == s.groups[k].blocks[slot]
  }

  ghost predicate PcOk(s: State, t: Thread)
    requires t in s.pcs
  {
    match s.pcs[t]
    case Idle => true
    case Failed => true
    case LoadNgroup(b) => b < s.made && b !in s.given
    case FetchAdd(b, ngroup) => b < s.made && b !in s.given && HasGroup(s, ngroup)
    case Store(b, ngroup, slot) => b < s.made && b !in s.given && 0 < ngroup && Wins(s, b, ngroup - 1, slot)
    case FetchSub(b, ngroup) => b < s.made && b !in s.given && HasGroup(s, ngroup) && t in s.groups[ngroup - 1].failing
    case AddGroup(b, ngroup) => b < s.made && b !in s.given
    case Got(b, index) => b < s.made && b in s.given && s.given[b] == index
  }

  ghost predicate FailingOk(s: State, k: nat, t: Thread)
    requires k < |s.groups|
  {
    t in s.groups[k].failing ==> t in s.pcs && s.pcs[t].FetchSub? && s.pcs[t].ngroup == k + 1
  }

  ghost predicate IndexOf(s: State, index: nat, k: nat, slot: nat) {
    index == k * s.limits.groupNblock + slot && slot < s.limits.groupNblock
  }

  /** A call that returned `index` won the slot of that number, and its block is stored there. */
  ghost predicate GivenAt(s: State, b: nat, k: nat, slot: nat) {
    && b in s.given && IndexOf(s, s.given[b], k, slot) && Wins(s, b, k, slot)
    && slot in s.groups[k].blocks && s.groups[k].blocks[slot] == b
  }

  ghost predicate GivenOk(s: State, b: nat) {
    b < s.made && exists k: nat, slot: nat :: GivenAt(s, b, k, slot)
  }

  ghost predicate DifferentBlocks(s: State, t: Thread, u: Thread)
    requires t in s.pcs && u in s.pcs
  {
    t != u && Working(s.pcs[t]) && Working(s.pcs[u]) ==> s.pcs[t].b != s.pcs[u].b
  }

  ghost predicate Inv(s: State) {
    && (forall k: nat {:trigger GroupOk(s, k)} :: k < |s.groups| ==> GroupOk(s, k))
    && (forall t {:trigger PcOk(s, t)} :: t in s.pcs ==> PcOk(s, t))
    && (forall b {:trigger GivenOk(s, b)} :: b in s.given ==> GivenOk(s, b))
    && (forall t, u {:trigger DifferentBlocks(s, t, u)} :: t in s.pcs && u in s.pcs ==> DifferentBlocks(s, t, u))
    && (forall k: nat, t {:trigger FailingOk(s, k, t)} :: k < |s.groups| ==> FailingOk(s, k, t))
    && (forall k: nat, slot: nat {:trigger WinnerOk(s, k, slot)} ::
          k < |s.groups| && slot < |s.groups[k].winners| ==> WinnerOk(s, k, slot))
    && (forall k: nat, slot: nat {:trigger StoredOk(s, k, slot)} ::
          k < |s.groups| && slot in s.groups[k].blocks ==> StoredOk(s, k, slot))
  }

  lemma InitInv(s: State)
    requires Init(s)
    ensures Inv(s)
  {}

  /** Slots are only added, and stored slots keep their blocks. */
  ghost predicate GroupGrows(g: BlockGroup, g': BlockGroup) {
    && g.winners <= g'.winners
    && (forall slot {:trigger g'.blocks[slot]} {:trigger slot in g.blocks} ::
          slot in g.blocks ==> slot in g'.blocks && g'.blocks[slot] == g.blocks[slot])
  }

  ghost predicate Grows(s: State, s': State) {
    && s'.limits == s.limits && |s.groups| <= |s'.groups|
    && (forall k: nat {:trigger s'.groups[k]} :: k < |s.groups| ==> GroupGrows(s.groups[k], s'.groups[k]))
  }

  lemma GivenKept(s: State, s': State, b: nat)
    requires Grows(s, s') && b in s.given && GivenOk(s, b) && s.made <= s'.made
    requires b in s'.given && s'.given[b] == s.given[b]
    ensures GivenOk(s', b)
  {
    var k: nat, slot: nat :| GivenAt(s, b, k, slot);
    assert GroupGrows(s.groups[k], s'.groups[k]);
    assert slot in s.groups[k].blocks;
    assert s'.groups[k].winners[slot] == b;
    assert GivenAt(s', b, k, slot);
  }

  lemma PcKept(s: State, s': State, t: Thread, u: Thread)
    requires u in s.pcs && PcOk(s, u) && u != t && u in s'.pcs && s'.pcs[u] == s.pcs[u]
    requires Grows(s, s') && s.made <= s'.made
    requires forall k: nat {:trigger s'.groups[k]} ::
               k < |s.groups| && u in s.groups[k].failing ==> u in s'.groups[k].failing
    requires Working(s.pcs[u]) ==> (s.pcs[u].b in s'.given <==> s.pcs[u].b in s.given)
    requires s.pcs[u].Got? && s.pcs[u].b in s.given ==> s'.given[s.pcs[u].b] == s.given[s.pcs[u].b]
    ensures PcOk(s', u)
  {}

  /** A step of thread `t` that touches no group. */
  lemma QuietInv(s: State, s': State, t: Thread)
    requires Inv(s) && t in s.pcs && t in s'.pcs && s'.pcs == s.pcs[t := s'.pcs[t]] && PcOk(s', t)
    requires s'.groups == s.groups && s'.limits == s.limits && s'.given == s.given && s.made <= s'.made
    requires !s.pcs[t].FetchSub?
    requires Working(s'.pcs[t]) ==> s'.pcs[t].b == s.made || (Working(s.pcs[t]) && s'.pcs[t].b == s.pcs[t].b)
    ensures Inv(s')
  {
    forall k: nat | k < |s'.groups| ensures GroupOk(s', k) { assert GroupOk(s, k); }
    forall u | u in s'.pcs ensures PcOk(s', u) {
      assert PcOk(s, u);
      if u != t { PcKept(s, s', t, u); }
    }
    forall b | b in s'.given ensures GivenOk(s', b) {
      assert GivenOk(s, b);
      GivenKept(s, s', b);
    }
    forall u, v | u in s'.pcs && v in s'.pcs ensures DifferentBlocks(s', u, v) {
      assert DifferentBlocks(s, u, v) && PcOk(s, u) && PcOk(s, v);
    }
    forall k: nat, u | k < |s'.groups| ensures FailingOk(s', k, u) { assert FailingOk(s, k, u); }
    forall k: nat, slot: nat | k < |s'.groups| && slot < |s'.groups[k].winners| ensures WinnerOk(s', k, slot) {
      assert WinnerOk(s, k, slot);
    }
    forall k: nat, slot: nat | k < |s'.groups| && slot in s'.groups[k].blocks ensures StoredOk(s', k, slot) {
      assert StoredOk(s, k, slot);
    }
  }

  /** While a group has room nobody is failing in it. */
  lemma RoomMeansNoFailure(s: State, t: Thread)
    requires Inv(s) && Enabled(s, DoFetchAdd(t))
    ensures var g := s.groups[s.pcs[t].ngroup - 1];
            g.nblock < s.limits.groupNblock ==> g.failing == {} && g.nblock == |g.winners|
  {
    assert GroupOk(s, s.pcs[t].ngroup - 1);
  }

  /** A step of thread `t` that changes group `k` and no given index. */
  lemma GroupInv(s: State, s': State, t: Thread, k: nat)
    requires Inv(s) && t in s.pcs && t in s'.pcs && s'.pcs == s.pcs[t := s'.pcs[t]] && PcOk(s', t)
    requires k < |s.groups| == |s'.groups| && s'.groups == s.groups[k := s'.groups[k]] && GroupOk(s', k) && Grows(s, s')
    requires s'.given == s.given && s'.made == s.made && s'.groups[k].blocks == s.groups[k].blocks
    requires (s.pcs[t].FetchAdd? || s.pcs[t].FetchSub?) && Working(s'.pcs[t]) && s'.pcs[t].b == s.pcs[t].b
    requires s.groups[k].failing - {t} <= s'.groups[k].failing <= s.groups[k].failing + {t}
    requires t in s'.groups[k].failing <==> s'.pcs[t].FetchSub?
    requires s.pcs[t].ngroup == k + 1 && (s'.pcs[t].FetchSub? ==> s'.pcs[t].ngroup == k + 1)
    requires forall slot: nat :: slot < |s'.groups[k].winners| ==> s'.groups[k].winners[slot] < s.made
    ensures Inv(s')
  {
    forall j: nat | j < |s'.groups| ensures GroupOk(s', j) { assert GroupOk(s, j); }
    forall u | u in s'.pcs ensures PcOk(s', u) {
      assert PcOk(s, u);
      if u != t { PcKept(s, s', t, u); }
    }
    forall b | b in s'.given ensures GivenOk(s', b) {
      assert GivenOk(s, b);
      GivenKept(s, s', b);
    }
    forall u, v | u in s'.pcs && v in s'.pcs ensures DifferentBlocks(s', u, v) {
      assert DifferentBlocks(s, u, v);
    }
    forall j: nat, u | j < |s'.groups| ensures FailingOk(s', j, u) { assert FailingOk(s, j, u); }
    forall j: nat, slot: nat | j < |s'.groups| && slot < |s'.groups[j].winners| ensures WinnerOk(s', j, slot) {
      if j != k { assert WinnerOk(s, j, slot); }
    }
    forall j: nat, slot: nat | j < |s'.groups| && slot in s'.groups[j].blocks ensures StoredOk(s', j, slot) {
      assert StoredOk(s, j, slot);
    }
  }

  lemma FetchAddGroup(s: State, t: Thread)
    requires Enabled(s, DoFetchAdd(t)) && GroupOk(s, s.pcs[t].ngroup - 1) && FailingOk(s, s.pcs[t].ngroup - 1, t)
    ensures GroupOk(StepFetchAdd(s, t), s.pcs[t].ngroup - 1)
  {
    var k := s.pcs[t].ngroup - 1;
    assert |s.groups[k].failing + {t}| == |s.groups[k].failing| + 1;
    assert s.groups[k].failing == {} ==> |s.groups[k].failing| == 0;
  }

  lemma FetchAddWinner(s: State, t: Thread, slot: nat)
    requires Inv(s) && Enabled(s, DoFetchAdd(t)) && slot < |StepFetchAdd(s, t).groups[s.pcs[t].ngroup - 1].winners|
    ensures StepFetchAdd(s, t).groups[s.pcs[t].ngroup - 1].winners[slot] < s.made
  {
    var k := s.pcs[t].ngroup - 1;
    assert PcOk(s, t);
    if slot < |s.groups[k].winners| { assert WinnerOk(s, k, slot); }
  }

  lemma FetchAddInv(s: State, t: Thread)
    requires Inv(s) && Enabled(s, DoFetchAdd(t))
    ensures Inv(StepFetchAdd(s, t))
  {
    var s' := StepFetchAdd(s, t);
    var k := s.pcs[t].ngroup - 1;
    assert PcOk(s, t) && GroupOk(s, k) && FailingOk(s, k, t);
    RoomMeansNoFailure(s, t);
    FetchAddGroup(s, t);
    forall slot: nat | slot < |s'.groups[k].winners| ensures s'.groups[k].winners[slot] < s.made {
      FetchAddWinner(s, t, slot);
    }
    GroupInv(s, s', t, k);
  }

  lemma FetchSubInv(s: State, t: Thread)
    requires Inv(s) && Enabled(s, DoFetchSub(t))
    ensures Inv(StepFetchSub(s, t))
  {
    var k := s.pcs[t].ngroup - 1;
    assert PcOk(s, t) && GroupOk(s, k);
    forall slot: nat | slot < |s.groups[k].winners| ensures s.groups[k].winners[slot] < s.made {
      assert WinnerOk(s, k, slot);
    }
    GroupInv(s, StepFetchSub(s, t), t, k);
  }

  lemma StoreInv(s: State, t: Thread)
    requires Inv(s) && Enabled(s, DoStore(t))
    ensures Inv(StepStore(s, t))
  {
    var s' := StepStore(s, t);
    var Store(b, ngroup, slot) := s.pcs[t];
    var k := ngroup - 1;
    assert PcOk(s, t) && GroupOk(s, k);
    StoreGrows(s, t);
    forall j: nat | j < |s'.groups| ensures GroupOk(s', j) { assert GroupOk(s, j); }
    forall u | u in s'.pcs ensures PcOk(s', u) {
      assert PcOk(s, u) && DifferentBlocks(s, t, u);
      if u != t { PcKept(s, s', t, u); }
    }
    assert GivenAt(s', b, k, slot);
    forall c | c in s'.given ensures GivenOk(s', c) {
      if c != b {
        assert GivenOk(s, c);
        GivenKept(s, s', c);
      }
    }
    forall u, v | u in s'.pcs && v in s'.pcs ensures DifferentBlocks(s', u, v) { assert DifferentBlocks(s, u, v); }
    forall j: nat, u | j < |s'.groups| ensures FailingOk(s', j, u) { assert FailingOk(s, j, u); }
    forall j: nat, i: nat | j < |s'.groups| && i < |s'.groups[j].winners| ensures WinnerOk(s', j, i) {
      assert WinnerOk(s, j, i);
    }
    forall j: nat, i: nat | j < |s'.groups| && i in s'.groups[j].blocks ensures StoredOk(s', j, i) {
      if j != k || i != slot { assert StoredOk(s, j, i); }
    }
  }

  /** A slot is stored once, by the call that won it. */
  lemma StoreGrows(s: State, t: Thread)
    requires Inv(s) && Enabled(s, DoStore(t))
    ensures Grows(s, StepStore(s, t))
  {
    var Store(b, ngroup, slot) := s.pcs[t];
    assert PcOk(s, t);
    var g := s.groups[ngroup - 1];
    assert slot in g.blocks ==> StoredOk(s, ngroup - 1, slot);
  }

  lemma AddGroupInv(s: State, t: Thread, memory: bool)
    requires Inv(s) && Enabled(s, DoAddGroup(t, memory))
    ensures Inv(StepAddGroup(s, t, memory))
  {
    var s' := StepAddGroup(s, t, memory);
    assert PcOk(s, t);
    if |s'.groups| == |s.groups| {
      QuietInv(s, s', t);
    } else {
      forall j: nat | j < |s'.groups| ensures GroupOk(s', j) { if j < |s.groups| { assert GroupOk(s, j); } }
      forall u | u in s'.pcs ensures PcOk(s', u) {
        assert PcOk(s, u);
        if u != t { PcKept(s, s', t, u); }
      }
      forall c | c in s'.given ensures GivenOk(s', c) {
        assert GivenOk(s, c);
        GivenKept(s, s', c);
      }
      forall u, v | u in s'.pcs && v in s'.pcs ensures DifferentBlocks(s', u, v) { assert DifferentBlocks(s, u, v); }
      forall j: nat, u | j < |s'.groups| ensures FailingOk(s', j, u) {
        if j < |s.groups| { assert FailingOk(s, j, u); }
      }
      forall j: nat, i: nat | j < |s'.groups| && i < |s'.groups[j].winners| ensures WinnerOk(s', j, i) {
        if j < |s.groups| { assert WinnerOk(s, j, i); }
      }
      forall j: nat, i: nat | j < |s'.groups| && i in s'.groups[j].blocks ensures StoredOk(s', j, i) {
        if j < |s.groups| { assert StoredOk(s, j, i); }
      }
    }
  }

  lemma StepInv(s: State, e: Event)
    requires Inv(s) && Enabled(s, e)
    ensures Inv(Step(s, e))
  {
    assert PcOk(s, e.t);
    match e {
      case Begin(t, memory) => assert s.made in s.given ==> GivenOk(s, s.made); QuietInv(s, Step(s, e), t);
      case DoLoad(t) => QuietInv(s, Step(s, e), t);
      case DoFetchAdd(t) => FetchAddInv(s, t);
      case DoStore(t) => StoreInv(s, t);
      case DoFetchSub(t) => FetchSubInv(s, t);
      case DoAddGroup(t, memory) => AddGroupInv(s, t, memory);
      case Finish(t) => QuietInv(s, Step(s, e), t);
    }
  }

  // ---------- runs ----------

  predicate Executable(s: State, es: seq<Event>)
    decreases |es|
  {
    es != [] ==> Enabled(s, es[0]) && Executable(Step(s, es[0]), es[1..])
  }

  function After(s: State, es: seq<Event>): State
    requires Executable(s, es)
    decreases |es|
  {
    if es == [] then s else After(Step(s, es[0]), es[1..])
  }

  lemma {:induction false} RunInv(s: State, es: seq<Event>)
    requires Inv(s) && Executable(s, es)
    ensures Inv(After(s, es))
    decreases |es|
  {
    if es != [] {
      StepInv(s, es[0]);
      RunInv(Step(s, es[0]), es[1..]);
    }
  }

  ghost predicate Reachable(s: State) {
    exists s0, es :: Init(s0) && Executable(s0, es) && After(s0, es) == s
  }

  lemma ReachableInv(s: State)
    requires Reachable(s)
    ensures Inv(s)
  {
    var s0, es :| Init(s0) && Executable(s0, es) && After(s0, es) == s;
    InitInv(s0);
    RunInv(s0, es);
  }

  // ---------- what add_block promises ----------

  /** However fetch_add and fetch_sub interleave: while the group has room, fetch_add returns the number of
      slots already won, and nobody is about to take one back. */
  lemma FetchAddWins(s: State, t: Thread)
    requires Reachable(s) && Enabled(s, DoFetchAdd(t))
    ensures var g := s.groups[s.pcs[t].ngroup - 1];
            g.nblock < s.limits.groupNblock <==> |g.winners| < s.limits.groupNblock
    ensures var g := s.groups[s.pcs[t].ngroup - 1];
            g.nblock < s.limits.groupNblock ==> g.failing == {} && g.nblock == |g.winners|
  {
    ReachableInv(s);
    RoomMeansNoFailure(s, t);
    assert GroupOk(s, s.pcs[t].ngroup - 1);
  }

  /** The block of `b` is in the slot that its index names. */
  ghost predicate StoredAtIndex(s: State, b: nat)
    requires b in s.given && s.limits.groupNblock > 0
  {
    var k, slot := s.given[b] / s.limits.groupNblock, s.given[b] % s.limits.groupNblock;
    k < |s.groups| && slot in s.groups[k].blocks && s.groups[k].blocks[slot] == b
  }

  lemma GivenIsStored(s: State, b: nat)
    requires Inv(s) && b in s.given
    ensures s.limits.groupNblock > 0 && StoredAtIndex(s, b)
  {
    assert GivenOk(s, b);
    var k: nat, slot: nat :| GivenAt(s, b, k, slot);
    SplitIndex(s.limits.groupNblock, k, slot);
  }

  lemma GivenUnique(s: State, b: nat, c: nat)
    requires Inv(s) && b in s.given && c in s.given && s.given[b] == s.given[c]
    ensures b == c
  {
    GivenIsStored(s, b);
    GivenIsStored(s, c);
  }

  /** No step changes an index that was given. */
  lemma GivenStays(s: State, e: Event)
    requires Inv(s) && Enabled(s, e)
    ensures s.given.Keys <= Step(s, e).given.Keys
    ensures forall b {:trigger Step(s, e).given[b]} :: b in s.given ==> Step(s, e).given[b] == s.given[b]
    ensures Step(s, e).pcs.Keys == s.pcs.Keys
    ensures forall u {:trigger Step(s, e).pcs[u]} :: u in s.pcs && u != e.t ==> Step(s, e).pcs[u] == s.pcs[u]
  {
    assert PcOk(s, e.t);
  }

  lemma {:induction false} GivenForEver(s: State, es: seq<Event>, b: nat)
    requires Inv(s) && Executable(s, es) && b in s.given
    ensures b in After(s, es).given && After(s, es).given[b] == s.given[b]
    decreases |es|
  {
    if es != [] {
      StepInv(s, es[0]);
      GivenStays(s, es[0]);
      GivenForEver(Step(s, es[0]), es[1..], b);
    }
  }

  /** The index that a call returned names the slot where its block is, then and however the run goes on... */
  lemma BlockAtIndex(s: State, es: seq<Event>, b: nat)
    requires Reachable(s) && b in s.given && Executable(s, es)
    ensures var z := After(s, es);
            b in z.given && z.given[b] == s.given[b] && z.limits.groupNblock > 0 && StoredAtIndex(z, b)
  {
    ReachableInv(s);
    RunInv(s, es);
    GivenForEver(s, es, b);
    GivenIsStored(After(s, es), b);
  }

  /** ...so no two calls ever return the same index. */
  lemma IndexGivenOnce(s: State, b: nat, c: nat)
    requires Reachable(s) && b in s.given && c in s.given && s.given[b] == s.given[c]
    ensures b == c
  {
    ReachableInv(s);
    GivenUnique(s, b, c);
  }
}
