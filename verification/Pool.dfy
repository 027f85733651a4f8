/** ResourcePool::get_resource and return_resource over any interleaving of threads. */
module Pool {
  import opened Wrappers
  import opened PoolAddress
  import A = BlockAlloc

  type Thread = A.Thread
  type Id = nat

  /** The current block of a thread and how many of its items it has handed out. */
  datatype Block = Block(index: nat, used: nat)

  /** A thread's LocalPool: `_cur_free` and `_cur_block`. */
  datatype Local = Local(free: seq<Id>, block: Option<Block>)

  /** Inside get_resource a thread may have found no free id, or be in add_block. */
  datatype Pc = Ready | Missed | Adding

  /** History: where an id is. */
  datatype Place = Live | InLocal(t: Thread) | InChunk(k: nat)

  /** BLOCK_NITEM and free_chunk_nitem(). */
  datatype Sizes = Sizes(blockNitem: nat, chunkNitem: nat)

  /** `live` are the ids that get_resource returned and return_resource did not take back. History: `place`
      has every id ever created, `taker` the thread that got the block of an index. */
  datatype State = State(
    sizes: Sizes,
    alloc: A.State,
    locals: map<Thread, Local>,
    pcs: map<Thread, Pc>,
    chunks: seq<seq<Id>>,
    live: set<Id>,
    place: map<Id, Place>,
    taker: map<nat, Thread>)

  datatype Event =
    | GetLocal(t: Thread)
    | GetChunk(t: Thread)
    | Miss(t: Thread)
    | Create(t: Thread, valid: bool)
    | BeginAdd(t: Thread, memory: bool)
    | StepAdd(t: Thread, e: A.Event)
    | Install(t: Thread)
    | AddFails(t: Thread)
    | Return(t: Thread, id: Id, memory: bool)

  predicate At(s: State, t: Thread, pc: Pc) {
    t in s.locals && t in s.pcs && s.pcs[t] == pc
  }

  function SetLocal(s: State, t: Thread, l: Local, pc: Pc): State {
    s.(locals := s.locals[t := l], pcs := s.pcs[t := pc])
  }

  function GoLive(s: State, id: Id): State {
    s.(live := s.live + {id}, place := s.place[id := Live])
  }

  /** The local free list gives its last id. */
  predicate CanGetLocal(s: State, t: Thread) {
    At(s, t, Ready) && s.locals[t].free != []
  }

  function StepGetLocal(s: State, t: Thread): State
    requires CanGetLocal(s, t)
  {
    var q := s.locals[t].free;
    GoLive(SetLocal(s, t, s.locals[t].(free := q[..|q| - 1]), Ready), q[|q| - 1])
  }

  /** pop_free_chunk fills the empty local list with the last chunk, which gives its last id. */
  predicate CanGetChunk(s: State, t: Thread) {
    && At(s, t, Ready) && s.locals[t].free == [] && s.chunks != []
    && s.chunks[|s.chunks| - 1] != []
  }

  function StepGetChunk(s: State, t: Thread): State
    requires CanGetChunk(s, t)
  {
    var k := |s.chunks| - 1;
    var q := s.chunks[k];
    var id := q[|q| - 1];
    var s1 := GoLive(SetLocal(s, t, s.locals[t].(free := q[..|q| - 1]), Ready), id);
    s1.(chunks := s.chunks[..k],
        place := map i | i in s1.place :: if i in q && i != id then InLocal(t) else s1.place[i])
  }

  predicate CanMiss(s: State, t: Thread) {
    At(s, t, Ready) && s.locals[t].free == [] && s.chunks == []
  }

  predicate HasRoom(s: State, t: Thread)
    requires t in s.locals
  {
    s.locals[t].block.Some? && s.locals[t].block.value.used < s.sizes.blockNitem
  }

  /** A new item of the current block; the validator may reject it, and then the item is not used up. */
  predicate CanCreate(s: State, t: Thread) {
    At(s, t, Missed) && HasRoom(s, t)
  }

  function StepCreate(s: State, t: Thread, valid: bool): State
    requires CanCreate(s, t)
  {
    var Block(index, used) := s.locals[t].block.value;
    if valid then
      GoLive(SetLocal(s, t, s.locals[t].(block := Some(Block(index, used + 1))), Ready),
             IdOf(index, used, s.sizes.blockNitem))
    else s.(pcs := s.pcs[t := Ready])
  }

  predicate CanBeginAdd(s: State, t: Thread, memory: bool) {
    At(s, t, Missed) && !HasRoom(s, t) && A.Enabled(s.alloc, A.Begin(t, memory))
  }

  function StepBeginAdd(s: State, t: Thread, memory: bool): State
    requires CanBeginAdd(s, t, memory)
  {
    s.(pcs := s.pcs[t := Adding], alloc := A.Step(s.alloc, A.Begin(t, memory)))
  }

  predicate CanStepAdd(s: State, t: Thread, e: A.Event) {
    At(s, t, Adding) && e.t == t && !e.Begin? && !e.Finish? && A.Enabled(s.alloc, e)
  }

  function StepStepAdd(s: State, t: Thread, e: A.Event): State
    requires CanStepAdd(s, t, e)
  {
    s.(alloc := A.Step(s.alloc, e))
  }

  /** add_block returned a block; its first item is created next. */
  predicate CanInstall(s: State, t: Thread) {
    At(s, t, Adding) && t in s.alloc.pcs && s.alloc.pcs[t].Got?
  }

  function StepInstall(s: State, t: Thread): State
    requires CanInstall(s, t)
  {
    var index := s.alloc.pcs[t].index;
    SetLocal(s, t, s.locals[t].(block := Some(Block(index, 0))), Missed)
      .(alloc := A.Step(s.alloc, A.Finish(t)), taker := s.taker[index := t])
  }

  /** add_block returned NULL, and so does get_resource. */
  predicate CanAddFails(s: State, t: Thread) {
    At(s, t, Adding) && t in s.alloc.pcs && s.alloc.pcs[t].Failed?
  }

  function StepAddFails(s: State, t: Thread): State
    requires CanAddFails(s, t)
  {
    SetLocal(s, t, s.locals[t].(block := None), Ready).(alloc := A.Step(s.alloc, A.Finish(t)))
  }

  predicate CanReturn(s: State, t: Thread, id: Id) {
    At(s, t, Ready) && id in s.live
  }

  /** A full local list becomes a chunk; without memory for that, return_resource fails and does nothing. */
  function StepReturn(s: State, t: Thread, id: Id, memory: bool): State
    requires CanReturn(s, t, id)
  {
    var l := s.locals[t];
    if |l.free| < s.sizes.chunkNitem then
      SetLocal(s, t, l.(free := l.free + [id]), Ready).(live := s.live - {id}, place := s.place[id := InLocal(t)])
    else if memory then
      SetLocal(s, t, l.(free := [id]), Ready)
        .(live := s.live - {id}, chunks := s.chunks + [l.free],
          place := (map i | i in s.place :: if i in l.free then InChunk(|s.chunks|) else s.place[i])[id := InLocal(t)])
    else s
  }

  predicate Enabled(s: State, e: Event) {
    match e
    case GetLocal(t) => CanGetLocal(s, t)
    case GetChunk(t) => CanGetChunk(s, t)
    case Miss(t) => CanMiss(s, t)
    case Create(t, valid) => CanCreate(s, t)
    case BeginAdd(t, memory) => CanBeginAdd(s, t, memory)
    case StepAdd(t, e) => CanStepAdd(s, t, e)
    case Install(t) => CanInstall(s, t)
    case AddFails(t) => CanAddFails(s, t)
    case Return(t, id, memory) => CanReturn(s, t, id)
  }

  function Step(s: State, e: Event): State
    requires Enabled(s, e)
  {
    match e
    case GetLocal(t) => StepGetLocal(s, t)
    case GetChunk(t) => StepGetChunk(s, t)
    case Miss(t) => s.(pcs := s.pcs[t := Missed])
    case Create(t, valid) => StepCreate(s, t, valid)
    case BeginAdd(t, memory) => StepBeginAdd(s, t, memory)
    case StepAdd(t, e) => StepStepAdd(s, t, e)
    case Install(t) => StepInstall(s, t)
    case AddFails(t) => StepAddFails(s, t)
    case Return(t, id, memory) => StepReturn(s, t, id, memory)
  }

  predicate Executable(s: State, es: seq<Event>)
    decreases |es|
  {
    es != [] ==> Enabled(s, es[0]) && Executable(Step(s, es[0]), es[1..])
  }

  function After(s: State, es: seq<Event>): State
    requires Executable(s, es)
    decreases |es|
  {
    if es == [] then s else After(Step(s, es[0]), es[1..])
  }

  ghost predicate Init(s: State) {
    && s.sizes.blockNitem > 0 && s.sizes.chunkNitem > 0 && A.Init(s.alloc)
    && s.alloc.pcs.Keys == s.locals.Keys == s.pcs.Keys
    && (forall t {:trigger s.locals[t]} :: t in s.locals ==> s.locals[t] == Local([], None))
    && (forall t {:trigger s.pcs[t]} :: t in s.pcs ==> s.pcs[t].Ready?)
    && s.chunks == [] && s.live == {} && s.place == map[] && s.taker == map[]
  }

  // ---------- the invariant ----------

  ghost predicate NoDuplicates(q: seq<Id>) {
    forall i, j :: 0 <= i < j < |q| ==> q[i] != q[j]
  }

  /** What the lists say about where `id` is. */
  ghost predicate IsIn(s: State, id: Id, p: Place) {
    match p
    case Live => id in s.live
    case InLocal(t) => t in s.locals && id in s.locals[t].free
    case InChunk(k) => k < |s.chunks| && id in s.chunks[k]
  }

  ghost predicate PlaceOk(s: State, id: Id, p: Place) {
    IsIn(s, id, p) <==> id in s.place && s.place[id] == p
  }

  ghost predicate LocalOk(s: State, t: Thread)
    requires t in s.locals
  {
    var l := s.locals[t];
    && NoDuplicates(l.free) && |l.free| <= s.sizes.chunkNitem
    && (l.block.Some? ==>
          var Block(index, used) := l.block.value;
          index in s.taker && s.taker[index] == t && used <= s.sizes.blockNitem)
  }

  ghost predicate ChunkOk(s: State, k: nat)
    requires k < |s.chunks|
  {
    NoDuplicates(s.chunks[k]) && |s.chunks[k]| == s.sizes.chunkNitem
  }

  /** An id lies in a block that some thread took, and before the items not yet handed out. */
  ghost predicate CreatedOk(s: State, id: Id)
    requires s.sizes.blockNitem > 0
  {
    var index := id / s.sizes.blockNitem;
    && index in s.taker
    && (s.taker[index] in s.locals && s.locals[s.taker[index]].block.Some?
        && s.locals[s.taker[index]].block.value.index == index ==>
          id % s.sizes.blockNitem < s.locals[s.taker[index]].block.value.used)
  }

  ghost predicate GivenBy(s: State, index: nat, b: nat) {
    b in s.alloc.given && s.alloc.given[b] == index
  }

  /** A block that was taken had been returned by add_block, and no other call of it is returning it. */
  ghost predicate TakenOk(s: State, index: nat) {
    exists b: nat :: GivenBy(s, index, b)
  }

  ghost predicate GotOk(s: State, t: Thread)
    requires t in s.alloc.pcs
  {
    && (t in s.pcs && !s.pcs[t].Adding? ==> s.alloc.pcs[t].Idle?)
    && (s.alloc.pcs[t].Got? ==> s.alloc.pcs[t].index !in s.taker)
  }

  ghost predicate Inv(s: State) {
    && s.sizes.blockNitem > 0 && s.sizes.chunkNitem > 0 && A.Inv(s.alloc)
    && s.alloc.pcs.Keys == s.locals.Keys == s.pcs.Keys
    && (forall id, p {:trigger PlaceOk(s, id, p)} :: PlaceOk(s, id, p))
    && (forall t {:trigger LocalOk(s, t)} :: t in s.locals ==> LocalOk(s, t))
    && (forall k: nat {:trigger ChunkOk(s, k)} :: k < |s.chunks| ==> ChunkOk(s, k))
    && (forall id {:trigger CreatedOk(s, id)} :: id in s.place ==> CreatedOk(s, id))
    && (forall index {:trigger TakenOk(s, index)} :: index in s.taker ==> TakenOk(s, index))
    && (forall t {:trigger GotOk(s, t)} :: t in s.alloc.pcs ==> GotOk(s, t))
  }

  lemma InitInv(s: State)
    requires Init(s)
    ensures Inv(s)
  {
    A.InitInv(s.alloc);
  }

  // ---------- moving ids ----------

  /** Only ids move: blocks, program counters of add_block and takers are as before. */
  ghost predicate SameBlocks(s: State, s': State) {
    && s'.sizes == s.sizes && s'.alloc == s.alloc && s'.taker == s.taker
    && s'.locals.Keys == s.locals.Keys && s'.pcs == s.pcs && s'.place.Keys == s.place.Keys
    && (forall t {:trigger s'.locals[t]} :: t in s.locals ==> s'.locals[t].block == s.locals[t].block)
  }

  lemma SameBlocksInv(s: State, s': State)
    requires Inv(s) && SameBlocks(s, s')
    requires forall id, p {:trigger PlaceOk(s', id, p)} :: PlaceOk(s', id, p)
    requires forall t {:trigger s'.locals[t]} :: t in s'.locals ==>
               NoDuplicates(s'.locals[t].free) && |s'.locals[t].free| <= s.sizes.chunkNitem
    requires forall k: nat {:trigger ChunkOk(s', k)} :: k < |s'.chunks| ==> ChunkOk(s', k)
    ensures Inv(s')
  {
    forall t | t in s'.locals ensures LocalOk(s', t) { assert LocalOk(s, t); }
    forall id | id in s'.place ensures CreatedOk(s', id) { assert CreatedOk(s, id); }
    forall index | index in s'.taker ensures TakenOk(s', index) {
      assert TakenOk(s, index);
      var b: nat :| GivenBy(s, index, b);
      assert GivenBy(s', index, b);
    }
    forall t | t in s'.alloc.pcs ensures GotOk(s', t) { assert GotOk(s, t); }
  }

  lemma DropLastMembers(q: seq<Id>)
    requires NoDuplicates(q) && q != []
    ensures NoDuplicates(q[..|q| - 1])
    ensures forall id :: id in q[..|q| - 1] <==> id in q && id != q[|q| - 1]
  {
    assert q == q[..|q| - 1] + [q[|q| - 1]];
  }

  lemma GetLocalInv(s: State, t: Thread)
    requires Inv(s) && CanGetLocal(s, t)
    ensures Inv(StepGetLocal(s, t))
  {
    var s' := StepGetLocal(s, t);
    var q := s.locals[t].free;
    var id := q[|q| - 1];
    assert LocalOk(s, t) && PlaceOk(s, id, InLocal(t)) && PlaceOk(s, id, Live);
    DropLastMembers(q);
    forall i, p ensures PlaceOk(s', i, p) {
      assert PlaceOk(s, i, p) && PlaceOk(s, id, p);
    }
    forall u | u in s'.locals ensures NoDuplicates(s'.locals[u].free) && |s'.locals[u].free| <= s.sizes.chunkNitem {
      assert LocalOk(s, u);
    }
    forall k: nat | k < |s'.chunks| ensures ChunkOk(s', k) { assert ChunkOk(s, k); }
    SameBlocksInv(s, s');
  }

  lemma GetChunkPlace(s: State, t: Thread, i: Id, p: Place)
    requires CanGetChunk(s, t) && PlaceOk(s, i, p)
    requires var k := |s.chunks| - 1; NoDuplicates(s.chunks[k]) && PlaceOk(s, i, InChunk(k))
    requires var q := s.chunks[|s.chunks| - 1];
             PlaceOk(s, q[|q| - 1], InChunk(|s.chunks| - 1)) && PlaceOk(s, q[|q| - 1], p)
    ensures PlaceOk(StepGetChunk(s, t), i, p)
  {
    DropLastMembers(s.chunks[|s.chunks| - 1]);
  }

  lemma GetChunkInv(s: State, t: Thread)
    requires Inv(s) && CanGetChunk(s, t)
    ensures Inv(StepGetChunk(s, t))
  {
    var s' := StepGetChunk(s, t);
    var k := |s.chunks| - 1;
    var q := s.chunks[k];
    var id := q[|q| - 1];
    assert ChunkOk(s, k) && PlaceOk(s, id, InChunk(k));
    DropLastMembers(q);
    forall i, p ensures PlaceOk(s', i, p) {
      assert PlaceOk(s, i, p) && PlaceOk(s, i, InChunk(k)) && PlaceOk(s, id, p);
      GetChunkPlace(s, t, i, p);
    }
    forall u | u in s'.locals ensures NoDuplicates(s'.locals[u].free) && |s'.locals[u].free| <= s.sizes.chunkNitem {
      assert LocalOk(s, u);
    }
    forall j: nat | j < |s'.chunks| ensures ChunkOk(s', j) { assert ChunkOk(s, j); }
    SameBlocksInv(s, s');
  }

  lemma ReturnPlace(s: State, t: Thread, id: Id, memory: bool, i: Id, p: Place)
    requires CanReturn(s, t, id) && PlaceOk(s, i, p) && PlaceOk(s, i, InLocal(t))
    requires PlaceOk(s, id, Live) && PlaceOk(s, id, p)
    ensures PlaceOk(StepReturn(s, t, id, memory), i, p)
  {}

  lemma ReturnInv(s: State, t: Thread, id: Id, memory: bool)
    requires Inv(s) && CanReturn(s, t, id)
    ensures Inv(StepReturn(s, t, id, memory))
  {
    var s' := StepReturn(s, t, id, memory);
    assert PlaceOk(s, id, Live) && PlaceOk(s, id, InLocal(t)) && LocalOk(s, t);
    forall i, p ensures PlaceOk(s', i, p) {
      assert PlaceOk(s, i, p) && PlaceOk(s, id, p) && PlaceOk(s, i, InLocal(t));
      ReturnPlace(s, t, id, memory, i, p);
    }
    forall u | u in s'.locals ensures NoDuplicates(s'.locals[u].free) && |s'.locals[u].free| <= s.sizes.chunkNitem {
      assert LocalOk(s, u);
    }
    forall j: nat | j < |s'.chunks| ensures ChunkOk(s', j) { if j < |s.chunks| { assert ChunkOk(s, j); } }
    SameBlocksInv(s, s');
  }
}
