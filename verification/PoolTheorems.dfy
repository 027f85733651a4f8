/** Every resource id ever created is live or in one free list, and no two objects share an id. */
module PoolTheorems {
  import opened Arithmetic
  import opened Bits
  import opened PoolAddress
  import opened Pool

  /** Free lists, live ids and takers are as before. */
  ghost predicate SameIds(s: State, s': State) {
    && s'.sizes == s.sizes && s'.chunks == s.chunks && s'.live == s.live && s'.place == s.place
    && s'.locals.Keys == s.locals.Keys && s'.pcs.Keys == s.pcs.Keys
    && (forall t {:trigger s'.locals[t]} :: t in s.locals ==> s'.locals[t].free == s.locals[t].free)
  }

  lemma SameIdsPlace(s: State, s': State, id: Id, p: Place)
    requires SameIds(s, s') && PlaceOk(s, id, p)
    ensures PlaceOk(s', id, p)
  {}

  lemma SameIdsPlaces(s: State, s': State)
    requires SameIds(s, s')
    requires forall id, p {:trigger PlaceOk(s, id, p)} :: PlaceOk(s, id, p)
    requires forall k: nat {:trigger ChunkOk(s, k)} :: k < |s.chunks| ==> ChunkOk(s, k)
    ensures forall id, p {:trigger PlaceOk(s', id, p)} :: PlaceOk(s', id, p)
    ensures forall k: nat {:trigger ChunkOk(s', k)} :: k < |s'.chunks| ==> ChunkOk(s', k)
  {
    forall id, p ensures PlaceOk(s', id, p) {
      assert PlaceOk(s, id, p);
      SameIdsPlace(s, s', id, p);
    }
    forall k: nat | k < |s'.chunks| ensures ChunkOk(s', k) { assert ChunkOk(s, k); }
  }

  lemma MissInv(s: State, t: Thread)
    requires Inv(s) && CanMiss(s, t)
    ensures Inv(Step(s, Miss(t)))
  {
    var s' := Step(s, Miss(t));
    forall id, p ensures PlaceOk(s', id, p) { assert PlaceOk(s, id, p); }
    forall u | u in s'.locals ensures LocalOk(s', u) { assert LocalOk(s, u); }
    forall id | id in s'.place ensures CreatedOk(s', id) { assert CreatedOk(s, id); }
    TakersKept(s, s');
    forall u | u in s'.alloc.pcs ensures GotOk(s', u) { assert GotOk(s, u); }
  }

  lemma TakersKept(s: State, s': State)
    requires s'.taker == s.taker && s.alloc.given.Keys <= s'.alloc.given.Keys
    requires forall b {:trigger s'.alloc.given[b]} :: b in s.alloc.given ==> s'.alloc.given[b] == s.alloc.given[b]
    requires forall index {:trigger TakenOk(s, index)} :: index in s.taker ==> TakenOk(s, index)
    ensures forall index {:trigger TakenOk(s', index)} :: index in s'.taker ==> TakenOk(s', index)
  {
    forall index | index in s'.taker ensures TakenOk(s', index) {
      assert TakenOk(s, index);
      var b: nat :| GivenBy(s, index, b);
      assert GivenBy(s', index, b);
    }
  }

  // ---------- creating ids ----------

  /** The next item of a block is a new id, and its index and offset can be read off it. */
  lemma NextIdIsNew(s: State, t: Thread)
    requires Inv(s) && CanCreate(s, t)
    ensures var Block(index, used) := s.locals[t].block.value;
            var id := IdOf(index, used, s.sizes.blockNitem);
            id / s.sizes.blockNitem == index && id % s.sizes.blockNitem == used && id !in s.place
  {
    var Block(index, used) := s.locals[t].block.value;
    SplitIndex(s.sizes.blockNitem, index, used);
    assert LocalOk(s, t);
    var id := IdOf(index, used, s.sizes.blockNitem);
    assert id in s.place ==> CreatedOk(s, id);
  }

  lemma CreateInv(s: State, t: Thread, valid: bool)
    requires Inv(s) && CanCreate(s, t)
    ensures Inv(StepCreate(s, t, valid))
  {
    var s' := StepCreate(s, t, valid);
    NextIdIsNew(s, t);
    var Block(index, used) := s.locals[t].block.value;
    var id := IdOf(index, used, s.sizes.blockNitem);
    assert LocalOk(s, t);
    forall i, p ensures PlaceOk(s', i, p) { assert PlaceOk(s, i, p); }
    forall u | u in s'.locals ensures LocalOk(s', u) { assert LocalOk(s, u); }
    forall k: nat | k < |s'.chunks| ensures ChunkOk(s', k) { assert ChunkOk(s, k); }
    forall i | i in s'.place ensures CreatedOk(s', i) {
      if i != id { assert CreatedOk(s, i); }
    }
    TakersKept(s, s');
    forall u | u in s'.alloc.pcs ensures GotOk(s', u) { assert GotOk(s, u); }
  }

  // ---------- add_block ----------

  /** The index that a call is about to return was taken by nobody. */
  lemma NewIndexUntaken(s: State, e: A.Event)
    requires Inv(s) && A.Enabled(s.alloc, e) && e.DoStore?
    ensures A.Step(s.alloc, e).pcs[e.t].index !in s.taker
  {
    var a' := A.Step(s.alloc, e);
    var b := s.alloc.pcs[e.t].b;
    var index := a'.pcs[e.t].index;
    A.StepInv(s.alloc, e);
    assert A.PcOk(s.alloc, e.t);
    if index in s.taker {
      assert TakenOk(s, index);
      var c: nat :| GivenBy(s, index, c);
      A.GivenStays(s.alloc, e);
      A.GivenUnique(a', b, c);
    }
  }

  lemma SameTakersCreated(s: State, s': State)
    requires s.sizes.blockNitem > 0 && s'.place == s.place
    requires s'.sizes == s.sizes && s'.locals == s.locals && s'.taker == s.taker
    requires forall u {:trigger LocalOk(s, u)} :: u in s.locals ==> LocalOk(s, u)
    requires forall id {:trigger CreatedOk(s, id)} :: id in s.place ==> CreatedOk(s, id)
    ensures forall u {:trigger LocalOk(s', u)} :: u in s'.locals ==> LocalOk(s', u)
    ensures forall id {:trigger CreatedOk(s', id)} :: id in s'.place ==> CreatedOk(s', id)
  {
    forall u | u in s'.locals ensures LocalOk(s', u) { assert LocalOk(s, u); }
    forall id | id in s'.place ensures CreatedOk(s', id) { assert CreatedOk(s, id); }
  }

  lemma AllocGot(s: State, s': State, e: A.Event, u: Thread)
    requires A.Enabled(s.alloc, e) && s'.alloc == A.Step(s.alloc, e) && !e.Finish? && s'.taker == s.taker
    requires e.t in s'.pcs && s'.pcs[e.t].Adding? && u in s.alloc.pcs && u in s.pcs && u in s'.pcs && GotOk(s, u)
    requires (u != e.t ==> s'.pcs[u] == s.pcs[u]) && (e.DoStore? ==> s'.alloc.pcs[e.t].index !in s.taker)
    ensures u in s'.alloc.pcs && GotOk(s', u)
  {}

  lemma AllocInv(s: State, s': State, e: A.Event)
    requires Inv(s) && A.Enabled(s.alloc, e) && SameIds(s, s') && s'.locals == s.locals && s'.taker == s.taker
    requires s'.alloc == A.Step(s.alloc, e) && !e.Finish? && e.t in s.pcs && s'.pcs[e.t].Adding?
    requires forall u {:trigger s'.pcs[u]} :: u in s.pcs && u != e.t ==> s'.pcs[u] == s.pcs[u]
    ensures Inv(s')
  {
    A.StepInv(s.alloc, e);
    A.GivenStays(s.alloc, e);
    SameIdsPlaces(s, s');
    SameTakersCreated(s, s');
    TakersKept(s, s');
    if e.DoStore? { NewIndexUntaken(s, e); }
    forall u | u in s'.alloc.pcs ensures GotOk(s', u) {
      assert GotOk(s, u);
      AllocGot(s, s', e, u);
    }
  }

  lemma FinishedGot(s: State, t: Thread, u: Thread)
    requires Inv(s) && CanInstall(s, t) && u in s.alloc.pcs && u != t
    ensures s.alloc.pcs[u].Got? ==> s.alloc.pcs[u].index != s.alloc.pcs[t].index
  {
    assert A.PcOk(s.alloc, t) && A.PcOk(s.alloc, u) && A.DifferentBlocks(s.alloc, t, u);
    if s.alloc.pcs[u].Got? && s.alloc.pcs[u].index == s.alloc.pcs[t].index {
      A.GivenUnique(s.alloc, s.alloc.pcs[t].b, s.alloc.pcs[u].b);
    }
  }

  lemma InstallTaken(s: State, t: Thread, i: nat)
    requires CanInstall(s, t) && A.PcOk(s.alloc, t) && (i in s.taker ==> TakenOk(s, i))
    requires i in StepInstall(s, t).taker
    ensures TakenOk(StepInstall(s, t), i)
  {
    var s' := StepInstall(s, t);
    if i == s.alloc.pcs[t].index {
      assert GivenBy(s', i, s.alloc.pcs[t].b);
    } else {
      var b: nat :| GivenBy(s, i, b);
      assert GivenBy(s', i, b);
    }
  }

  lemma InstallGot(s: State, t: Thread, u: Thread)
    requires Inv(s) && CanInstall(s, t) && u in s.alloc.pcs
    ensures GotOk(StepInstall(s, t), u)
  {
    assert GotOk(s, u);
    if u != t { FinishedGot(s, t, u); }
  }

  lemma InstallLocal(s: State, t: Thread, u: Thread)
    requires CanInstall(s, t) && u in s.locals && LocalOk(s, u) && s.alloc.pcs[t].index !in s.taker
    ensures LocalOk(StepInstall(s, t), u)
  {}

  lemma InstallCreated(s: State, t: Thread, id: Id)
    requires CanInstall(s, t) && s.sizes.blockNitem > 0 && CreatedOk(s, id) && s.alloc.pcs[t].index !in s.taker
    ensures CreatedOk(StepInstall(s, t), id)
  {}

  lemma InstallInv(s: State, t: Thread)
    requires Inv(s) && CanInstall(s, t)
    ensures Inv(StepInstall(s, t))
  {
    var s' := StepInstall(s, t);
    assert GotOk(s, t) && A.PcOk(s.alloc, t);
    A.StepInv(s.alloc, A.Finish(t));
    SameIdsPlaces(s, s');
    forall u | u in s'.locals ensures LocalOk(s', u) { assert LocalOk(s, u); InstallLocal(s, t, u); }
    forall id | id in s'.place ensures CreatedOk(s', id) {
      assert CreatedOk(s, id);
      InstallCreated(s, t, id);
    }
    forall i | i in s'.taker ensures TakenOk(s', i) {
      assert i in s.taker ==> TakenOk(s, i);
      InstallTaken(s, t, i);
    }
    forall u | u in s'.alloc.pcs ensures GotOk(s', u) { InstallGot(s, t, u); }
  }

  lemma AddFailsInv(s: State, t: Thread)
    requires Inv(s) && CanAddFails(s, t)
    ensures Inv(StepAddFails(s, t))
  {
    var s' := StepAddFails(s, t);
    A.StepInv(s.alloc, A.Finish(t));
    SameIdsPlaces(s, s');
    forall u | u in s'.locals ensures LocalOk(s', u) { assert LocalOk(s, u); }
    forall id | id in s'.place ensures CreatedOk(s', id) { assert CreatedOk(s, id); }
    TakersKept(s, s');
    forall u | u in s'.alloc.pcs ensures GotOk(s', u) { assert GotOk(s, u); }
  }

  // ---------- all steps ----------

  lemma StepInv(s: State, e: Event)
    requires Inv(s) && Enabled(s, e)
    ensures Inv(Step(s, e))
  {
    match e {
      case GetLocal(t) => GetLocalInv(s, t);
      case GetChunk(t) => GetChunkInv(s, t);
      case Miss(t) => MissInv(s, t);
      case Create(t, valid) => CreateInv(s, t, valid);
      case BeginAdd(t, memory) => AllocInv(s, Step(s, e), A.Begin(t, memory));
      case StepAdd(t, f) => AllocInv(s, Step(s, e), f);
      case Install(t) => InstallInv(s, t);
      case AddFails(t) => AddFailsInv(s, t);
      case Return(t, id, memory) => ReturnInv(s, t, id, memory);
    }
  }

  lemma {:induction false} RunInv(s: State, es: seq<Event>)
    requires Inv(s) && Executable(s, es)
    ensures Inv(After(s, es))
    decreases |es|
  {
    if es != [] {
      StepInv(s, es[0]);
      RunInv(Step(s, es[0]), es[1..]);
    }
  }

  ghost predicate Reachable(s: State) {
    exists s0, es :: Init(s0) && Executable(s0, es) && After(s0, es) == s
  }

  lemma ReachableInv(s: State)
    requires Reachable(s)
    ensures Inv(s)
  {
    var s0, es :| Init(s0) && Executable(s0, es) && After(s0, es) == s;
    InitInv(s0);
    RunInv(s0, es);
  }

  // ---------- what the pool promises ----------

  /** An id that was ever created is live, or once in one free list, and never both. */
  lemma OnePlacePerId(s: State, id: Id, p: Place)
    requires Reachable(s) && id in s.place
    ensures IsIn(s, id, s.place[id])
    ensures IsIn(s, id, p) ==> p == s.place[id]
    ensures p.InLocal? && p.t in s.locals ==> NoDuplicates(s.locals[p.t].free)
    ensures p.InChunk? && p.k < |s.chunks| ==> NoDuplicates(s.chunks[p.k])
  {
    ReachableInv(s);
    assert PlaceOk(s, id, s.place[id]) && PlaceOk(s, id, p);
    assert p.InLocal? && p.t in s.locals ==> LocalOk(s, p.t);
    assert p.InChunk? && p.k < |s.chunks| ==> ChunkOk(s, p.k);
  }

  lemma {:induction false} PlaceKept(s: State, es: seq<Event>, id: Id)
    requires Inv(s) && Executable(s, es) && id in s.place
    ensures id in After(s, es).place && IsIn(After(s, es), id, After(s, es).place[id])
    decreases |es|
  {
    if es == [] {
      assert PlaceOk(s, id, s.place[id]);
    } else {
      StepInv(s, es[0]);
      PlaceKept(Step(s, es[0]), es[1..], id);
    }
  }

  /** No id is lost: once created it stays live or free, however the run goes on. */
  lemma NoIdLost(s: State, es: seq<Event>, id: Id)
    requires Reachable(s) && Executable(s, es) && id in s.place
    ensures id in After(s, es).place && IsIn(After(s, es), id, After(s, es).place[id])
  {
    ReachableInv(s);
    PlaceKept(s, es, id);
  }

  /** get_resource never hands out an id that is live. */
  lemma GetIsFresh(s: State, e: Event, id: Id)
    requires Reachable(s) && Enabled(s, e) && id in Step(s, e).live && id !in s.live
    ensures e.GetLocal? || e.GetChunk? || e.Create?
    ensures Step(s, e).live == s.live + {id}
    ensures e.Create? <==> id !in s.place
  {
    ReachableInv(s);
    if e.Create? { NextIdIsNew(s, e.t); }
    if e.GetLocal? {
      var q := s.locals[e.t].free;
      assert PlaceOk(s, q[|q| - 1], InLocal(e.t));
    }
    if e.GetChunk? {
      var q := s.chunks[|s.chunks| - 1];
      assert PlaceOk(s, q[|q| - 1], InChunk(|s.chunks| - 1));
    }
  }

  /** A chunk is never empty, so pop_free_chunk can always take the last id of the one it got. */
  lemma ChunksAreFull(s: State, t: Thread)
    requires Reachable(s) && At(s, t, Ready) && s.locals[t].free == []
    ensures CanGetChunk(s, t) <==> s.chunks != []
  {
    ReachableInv(s);
    if s.chunks != [] { assert ChunkOk(s, |s.chunks| - 1); }
  }

  /** unsafe_address_resource finds the block that was added for the id, and an item handed out there. */
  lemma AddressOfCreated(s: State, id: Id, nbit: nat)
    requires Reachable(s) && id in s.place && s.alloc.limits.groupNblock == Pow2(nbit)
    ensures s.sizes.blockNitem > 0
    ensures var a := AddressOf(id, s.sizes.blockNitem, nbit);
            a.group < |s.alloc.groups| && a.slot in s.alloc.groups[a.group].blocks && a.item < s.sizes.blockNitem
  {
    ReachableInv(s);
    assert CreatedOk(s, id);
    var index := id / s.sizes.blockNitem;
    assert TakenOk(s, index);
    var b: nat :| GivenBy(s, index, b);
    A.GivenIsStored(s.alloc, b);
    ShiftAndMask(index, nbit);
    SplitIndex(Pow2(nbit), ShiftRight(index, nbit), LowBits(index, nbit));
    ItemOf(id, s.sizes.blockNitem);
  }
}
