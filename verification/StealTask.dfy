/** TaskControl::steal_task: the strided scan over the queues of all groups. */
module StealTask {
  import opened Arithmetic
  import opened Wrappers
  import opened StealScan

  type Tid = nat

  /** The queues of one TaskGroup: `_rq`, from which others steal the oldest task, and `_remote_rq`. */
  class Group {
    var rq: seq<Tid>
    var remote: seq<Tid>

    constructor ()
      ensures rq == [] && remote == []
    {
      rq, remote := [], [];
    }

    ghost predicate Empty()
      reads this
    {
      rq == [] && remote == []
    }

    /** `_rq.steal(tid)`, then `_remote_rq.pop(tid)`. */
    method TakeOldest() returns (tid: Option<Tid>)
      modifies this
      ensures tid.None? <==> old(Empty())
      ensures tid.None? ==> rq == old(rq) && remote == old(remote)
      ensures tid.Some? ==> Lost(old(rq), old(remote), rq, remote, tid.value)
    {
      if rq != [] {
        tid := Some(rq[0]);
        rq := rq[1..];
      } else if remote != [] {
        tid := Some(remote[0]);
        remote := remote[1..];
      } else {
        tid := None;
      }
    }
  }

  /** Just `tid` was taken: the oldest of the run queue, or if that is empty of the remote queue. */
  ghost predicate Lost(rq: seq<Tid>, remote: seq<Tid>, rq': seq<Tid>, remote': seq<Tid>, tid: Tid) {
    if rq != [] then rq == [tid] + rq' && remote' == remote
    else rq' == rq && remote == [tid] + remote'
  }

  ghost function Members(groups: seq<Group?>): set<Group> {
    set i | 0 <= i < |groups| && groups[i] != null :: groups[i]
  }

  /** Slot `k` offers no task. */
  ghost predicate Barren(groups: seq<Group?>, k: nat)
    requires k < |groups|
    reads Members(groups)
  {
    groups[k] == null || groups[k].Empty()
  }

  /** Slots may be NULL, and two may hold one group, because of concurrent additions and removals; the queues
      themselves do not change meanwhile. */
  method Steal(groups: seq<Group?>, seed: nat, offset: nat) returns (tid: Option<Tid>, newSeed: nat, ghost tries: nat)
    requires seed < SIZE_MODULUS
    modifies Members(groups)
    ensures tries <= |groups| && newSeed == SeedAfter(seed, offset, tries)
    ensures forall i: nat :: i < tries ==> old(Barren(groups, Visited(seed, offset, i, |groups|)))
    ensures tid.None? <==> tries == |groups|
    ensures tid.None? ==> forall g :: g in Members(groups) ==> g.rq == old(g.rq) && g.remote == old(g.remote)
    ensures tid.Some? ==>
      var h := groups[Visited(seed, offset, tries, |groups|)];
      && h != null && Lost(old(h.rq), old(h.remote), h.rq, h.remote, tid.value)
      && forall g :: g in Members(groups) && g != h ==> g.rq == old(g.rq) && g.remote == old(g.remote)
  {
    var ngroup := |groups|;
    tid, newSeed, tries := None, seed, 0;
    assert SeedAfter(seed, offset, 0) == seed;
    var i := 0;
    while i < ngroup
      invariant 0 <= i <= ngroup && tries == i && newSeed == SeedAfter(seed, offset, i) && tid == None
      invariant forall g :: g in Members(groups) ==> g.rq == old(g.rq) && g.remote == old(g.remote)
      invariant forall j: nat :: j < i ==> old(Barren(groups, Visited(seed, offset, j, ngroup)))
    {
      var g := groups[newSeed % ngroup];
      if g != null {
        assert g in Members(groups);
        tid := g.TakeOldest();
        if tid.Some? {
          return;
        }
      }
      SeedStep(seed, offset, i);
      i := i + 1;
      tries := tries + 1;
      newSeed := (newSeed + offset) % SIZE_MODULUS;
    }
  }

  /** The additions of the loop, each modulo the size of `size_t`, add up. */
  lemma SeedStep(seed: nat, offset: nat, i: nat)
    ensures SeedAfter(seed, offset, i + 1) == (SeedAfter(seed, offset, i) + offset) % SIZE_MODULUS
  {
    assert seed + (i + 1) * offset == (seed + i * offset) + offset;
  }

  /** When the offset is coprime to the number of groups and the seed does not wrap at a bad moment, a scan
      that finds nothing has looked everywhere. */
  lemma FailureMeansAllEmpty(groups: seq<Group?>, seed: nat, offset: nat)
    requires |groups| > 0 && Gcd(offset, |groups|) == 1 && WrapHarmless(seed, offset, |groups|)
    requires forall i: nat :: i < |groups| ==> Barren(groups, Visited(seed, offset, i, |groups|))
    ensures forall k: nat :: k < |groups| ==> Barren(groups, k)
  {
    ScanCoversIffCoprime(seed, offset, |groups|);
    forall k: nat | k < |groups| ensures Barren(groups, k) {
      assert IsHit(seed, offset, |groups|, k);
      var i: nat :| i < |groups| && Hits(seed, offset, |groups|, i, k);
      assert Barren(groups, Visited(seed, offset, i, |groups|));
    }
  }

  /** Group `h` lost the task `tid`, and no other group lost any. */
  twostate predicate OnlyLoser(groups: seq<Group?>, h: Group, tid: Tid)
    reads Members(groups), h
  {
    && Lost(old(h.rq), old(h.remote), h.rq, h.remote, tid)
    && (forall g :: g in Members(groups) && g != h ==> g.rq == old(g.rq) && g.remote == old(g.remote))
  }

  /** steal_task returns false exactly when every queue is empty, and otherwise takes one task. */
  method StealCoprime(groups: seq<Group?>, seed: nat, offset: nat) returns (tid: Option<Tid>, newSeed: nat)
    requires seed < SIZE_MODULUS
    requires |groups| > 0 && Gcd(offset, |groups|) == 1 && WrapHarmless(seed, offset, |groups|)
    modifies Members(groups)
    ensures tid.None? <==> old(forall k: nat :: k < |groups| ==> Barren(groups, k))
    ensures tid.None? ==> forall g :: g in Members(groups) ==> g.rq == old(g.rq) && g.remote == old(g.remote)
    ensures tid.Some? ==> exists h :: h in Members(groups) && OnlyLoser(groups, h, tid.value)
  {
    ghost var tries;
    tid, newSeed, tries := Steal(groups, seed, offset);
    if tid.None? {
      forall i: nat | i < |groups| ensures Barren(groups, Visited(seed, offset, i, |groups|)) {
        assert old(Barren(groups, Visited(seed, offset, i, |groups|)));
      }
      FailureMeansAllEmpty(groups, seed, offset);
      forall k: nat | k < |groups| ensures old(Barren(groups, k)) {
        assert Barren(groups, k);
        if groups[k] != null { assert groups[k] in Members(groups); }
      }
    } else {
      assert old(!Barren(groups, Visited(seed, offset, tries, |groups|)));
      assert OnlyLoser(groups, groups[Visited(seed, offset, tries, |groups|)], tid.value);
    }
  }
}
