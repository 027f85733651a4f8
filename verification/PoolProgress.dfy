/** What get_resource and return_resource hand over, and that get_resource finds an id if there is one. */
module PoolProgress {
  import opened Wrappers
  import opened PoolAddress
  import opened Pool
  import opened PoolTheorems
  import P = BlockProgress

  // ---------- each call hands over one id ----------

  /** The id that event `e` returns from get_resource: the last of the local free list, the last of the last
      chunk, or the next item of the thread's block. */
  function Handed(s: State, e: Event): Option<Id>
    requires Enabled(s, e)
  {
    match e
    case GetLocal(t) => Some(s.locals[t].free[|s.locals[t].free| - 1])
    case GetChunk(t) => var q := s.chunks[|s.chunks| - 1]; Some(q[|q| - 1])
    case Create(t, valid) =>
      if valid then Some(IdOf(s.locals[t].block.value.index, s.locals[t].block.value.used, s.sizes.blockNitem))
      else None
    case _ => None
  }

  /** The id that event `e` takes back: return_resource fails only with a full list and no memory for a chunk. */
  function TakenBack(s: State, e: Event): Option<Id>
    requires Enabled(s, e)
  {
    match e
    case Return(t, id, memory) => if |s.locals[t].free| < s.sizes.chunkNitem || memory then Some(id) else None
    case _ => None
  }

  lemma HandedIsNew(s: State, e: Event)
    requires Inv(s) && Enabled(s, e) && Handed(s, e).Some?
    ensures Handed(s, e).value !in s.live && Step(s, e).live == s.live + {Handed(s, e).value}
  {
    match e {
      case GetLocal(t) =>
        assert PlaceOk(s, Handed(s, e).value, InLocal(t)) && PlaceOk(s, Handed(s, e).value, Live);
      case GetChunk(t) =>
        var k := |s.chunks| - 1;
        assert s.chunks[k][|s.chunks[k]| - 1] in s.chunks[k];
        assert PlaceOk(s, Handed(s, e).value, InChunk(k)) && PlaceOk(s, Handed(s, e).value, Live);
      case Create(t, _) =>
        NextIdIsNew(s, t);
        assert PlaceOk(s, Handed(s, e).value, Live);
    }
  }

  lemma OthersKeepLive(s: State, e: Event)
    requires Enabled(s, e) && Handed(s, e) == None
    ensures Step(s, e).live == if TakenBack(s, e).Some? then s.live - {TakenBack(s, e).value} else s.live
    ensures TakenBack(s, e).Some? ==> TakenBack(s, e).value in s.live
  {}

  /** A get makes exactly the id that it returns live, which nobody had; a return that does not fail takes
      exactly its id out; nothing else changes who has what. */
  lemma HandsOverOne(s: State, e: Event)
    requires Reachable(s) && Enabled(s, e)
    ensures match Handed(s, e)
            case Some(id) => id !in s.live && Step(s, e).live == s.live + {id}
            case None =>
              match TakenBack(s, e)
              case Some(id) => id in s.live && Step(s, e).live == s.live - {id}
              case None => Step(s, e).live == s.live
  {
    ReachableInv(s);
    if Handed(s, e).Some? { HandedIsNew(s, e); } else { OthersKeepLive(s, e); }
  }

  function Gets(s: State, es: seq<Event>): nat
    requires Executable(s, es)
    decreases |es|
  {
    if es == [] then 0 else (if Handed(s, es[0]).Some? then 1 else 0) + Gets(Step(s, es[0]), es[1..])
  }

  function Returns(s: State, es: seq<Event>): nat
    requires Executable(s, es)
    decreases |es|
  {
    if es == [] then 0 else (if TakenBack(s, es[0]).Some? then 1 else 0) + Returns(Step(s, es[0]), es[1..])
  }

  lemma StepCounts(s: State, e: Event)
    requires Inv(s) && Enabled(s, e)
    ensures |Step(s, e).live| ==
            |s.live| + (if Handed(s, e).Some? then 1 else 0) - (if TakenBack(s, e).Some? then 1 else 0)
  {
    if Handed(s, e).Some? { HandedIsNew(s, e); } else { OthersKeepLive(s, e); }
  }

  lemma {:induction false} LiveCount(s: State, es: seq<Event>)
    requires Inv(s) && Executable(s, es)
    ensures |After(s, es).live| + Returns(s, es) == |s.live| + Gets(s, es)
    decreases |es|
  {
    if es != [] {
      StepCounts(s, es[0]);
      StepInv(s, es[0]);
      LiveCount(Step(s, es[0]), es[1..]);
    }
  }

  /** In every run the ids handed out are those taken back and those still live. */
  lemma GetsAreReturnsAndLive(s: State, es: seq<Event>)
    requires Init(s) && Executable(s, es)
    ensures Gets(s, es) == Returns(s, es) + |After(s, es).live|
  {
    InitInv(s);
    LiveCount(s, es);
  }

  /** An item that the validator rejects is not used up: it is the next one again. */
  lemma RejectedIsNextAgain(s: State, t: Thread)
    requires Reachable(s) && CanCreate(s, t)
    ensures var z := Step(s, Create(t, false));
            z.locals == s.locals && z.live == s.live && z.place == s.place && z.chunks == s.chunks && At(z, t, Ready)
    ensures var id := IdOf(s.locals[t].block.value.index, s.locals[t].block.value.used, s.sizes.blockNitem);
            id !in s.place && Handed(s, Create(t, true)) == Some(id)
  {
    ReachableInv(s);
    NextIdIsNew(s, t);
  }

  // ---------- a get finds an id if there is one ----------

  /** get_resource looks for a free id first in the local list and then in the chunks, and has exactly one
      way to go on. */
  lemma LooksForFreeFirst(s: State, t: Thread)
    requires Reachable(s) && At(s, t, Ready)
    ensures CanGetLocal(s, t) <==> s.locals[t].free != []
    ensures CanGetChunk(s, t) <==> s.locals[t].free == [] && s.chunks != []
    ensures CanMiss(s, t) <==> s.locals[t].free == [] && s.chunks == []
  {
    ReachableInv(s);
    if s.chunks != [] { assert ChunkOk(s, |s.chunks| - 1); }
  }

  /** The steps of add_block as steps of get_resource. */
  function Lifted(t: Thread, es: seq<A.Event>): seq<Event> {
    if es == [] then [] else [StepAdd(t, es[0])] + Lifted(t, es[1..])
  }

  lemma {:induction false} LiftedRun(s: State, t: Thread, es: seq<A.Event>)
    requires At(s, t, Adding) && P.OnlyBy(es, t) && A.Executable(s.alloc, es)
    ensures Executable(s, Lifted(t, es)) && After(s, Lifted(t, es)) == s.(alloc := A.After(s.alloc, es))
    decreases |es|
  {
    if es != [] {
      assert es[0] in es && forall e :: e in es[1..] ==> e in es;
      var s1 := Step(s, StepAdd(t, es[0]));
      LiftedRun(s1, t, es[1..]);
      assert Lifted(t, es)[1..] == Lifted(t, es[1..]);
    }
  }

  lemma {:induction false} RunJoin(s: State, es: seq<Event>, fs: seq<Event>)
    requires Executable(s, es) && Executable(After(s, es), fs)
    ensures Executable(s, es + fs) && After(s, es + fs) == After(After(s, es), fs)
    decreases |es|
  {
    if es == [] {
      assert es + fs == fs;
    } else {
      RunJoin(Step(s, es[0]), es[1..], fs);
      assert (es + fs)[1..] == es[1..] + fs;
    }
  }

  lemma OneEvent(s: State, e: Event)
    requires Enabled(s, e)
    ensures Executable(s, [e]) && After(s, [e]) == Step(s, e)
  {
    assert [e][1..] == [];
  }

  /** `es` hands out one id and takes none back. */
  ghost predicate GetsOne(s: State, es: seq<Event>) {
    Executable(s, es) && exists id :: id !in s.live && After(s, es).live == s.live + {id}
  }

  lemma GetOne(s: State, e: Event)
    requires Inv(s) && Enabled(s, e) && Handed(s, e).Some?
    ensures GetsOne(s, [e])
  {
    OneEvent(s, e);
    HandedIsNew(s, e);
  }

  /** First some events that leave `live` alone. */
  lemma GetLater(s: State, es: seq<Event>, fs: seq<Event>)
    requires Executable(s, es) && After(s, es).live == s.live && GetsOne(After(s, es), fs)
    ensures GetsOne(s, es + fs)
  {
    RunJoin(s, es, fs);
  }

  /** The block that add_block returned gives the id. */
  lemma InstallAndCreate(s: State, t: Thread) returns (es: seq<Event>)
    requires Inv(s) && CanInstall(s, t)
    ensures GetsOne(s, es)
  {
    InstallInv(s, t);
    OneEvent(s, Install(t));
    GetOne(Step(s, Install(t)), Create(t, true));
    GetLater(s, [Install(t)], [Create(t, true)]);
    es := [Install(t)] + [Create(t, true)];
  }

  lemma AddAndCreate(s: State, t: Thread) returns (es: seq<Event>)
    requires Inv(s) && At(s, t, Adding) && t in s.alloc.pcs && s.alloc.pcs[t].LoadNgroup? && P.Room(s.alloc)
    ensures GetsOne(s, es)
  {
    var ds;
    if P.LastHasRoom(s.alloc) { ds := P.LoadWins(s.alloc, t); } else { ds := P.LoadFindsNoRoom(s.alloc, t); }
    LiftedRun(s, t, ds);
    RunInv(s, Lifted(t, ds));
    var fs := InstallAndCreate(After(s, Lifted(t, ds)), t);
    GetLater(s, Lifted(t, ds), fs);
    es := Lifted(t, ds) + fs;
  }

  /** After a miss: from the thread's block if that has room, and otherwise from a new block. */
  lemma MissedGets(s: State, t: Thread) returns (es: seq<Event>)
    requires Inv(s) && At(s, t, Missed) && (HasRoom(s, t) || P.Room(s.alloc))
    ensures GetsOne(s, es)
  {
    if HasRoom(s, t) {
      es := [Create(t, true)];
      GetOne(s, Create(t, true));
    } else {
      assert GotOk(s, t);
      var e := BeginAdd(t, true);
      StepInv(s, e);
      OneEvent(s, e);
      var fs := AddAndCreate(Step(s, e), t);
      GetLater(s, [e], fs);
      es := [e] + fs;
    }
  }

  /** From every reachable state, with memory and items that the validator accepts, get_resource returns an id
      if there is a free one in the local list or a chunk, room in the block of the thread, or room for
      another block. */
  lemma GetCanSucceed(s: State, t: Thread) returns (es: seq<Event>)
    requires Reachable(s) && At(s, t, Ready)
    requires s.locals[t].free != [] || s.chunks != [] || HasRoom(s, t) || P.Room(s.alloc)
    ensures GetsOne(s, es)
  {
    ReachableInv(s);
    LooksForFreeFirst(s, t);
    if CanGetLocal(s, t) {
      es := [GetLocal(t)];
      GetOne(s, GetLocal(t));
    } else if CanGetChunk(s, t) {
      es := [GetChunk(t)];
      GetOne(s, GetChunk(t));
    } else {
      StepInv(s, Miss(t));
      OneEvent(s, Miss(t));
      var fs := MissedGets(Step(s, Miss(t)), t);
      GetLater(s, [Miss(t)], fs);
      es := [Miss(t)] + fs;
    }
  }
}
