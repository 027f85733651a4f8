/** The array of task groups of TaskControl: registration, and removal by swapping. */
module GroupArray {
  import opened Wrappers

  type Group = nat

  ghost predicate NoDuplicates<T>(q: seq<T>) {
    forall i, j :: 0 <= i < j < |q| ==> q[i] != q[j]
  }

  // ---------- what the writers do to the registered prefix ----------

  /** A new group goes to the end, if there is room. */
  function Added<T>(q: seq<T>, g: T, max: nat): seq<T> {
    if |q| < max then q + [g] else q
  }

  function IndexOf<T(==)>(q: seq<T>, g: T): (i: nat)
    ensures i <= |q| && g !in q[..i] && (i < |q| ==> q[i] == g)
  {
    if q == [] || q[0] == g then 0
    else
      var i := 1 + IndexOf(q[1..], g);
      assert q[..i] == [q[0]] + q[1..][..i - 1];
      i
  }

  /** The last group takes the place of the one that is removed. */
  function Removed<T(==)>(q: seq<T>, g: T): seq<T> {
    var i := IndexOf(q, g);
    if i < |q| then q[i := q[|q| - 1]][..|q| - 1] else q
  }

  /** Adding a new group keeps the others where they are, and is silently skipped when the array is full. */
  lemma AddedMembers<T>(q: seq<T>, g: T, max: nat)
    requires NoDuplicates(q) && g !in q
    ensures NoDuplicates(Added(q, g, max)) && q <= Added(q, g, max)
    ensures g in Added(q, g, max) <==> |q| < max
  {}

  /** Removing takes out just that group. */
  lemma RemovedMembers<T>(q: seq<T>, g: T)
    requires NoDuplicates(q)
    ensures NoDuplicates(Removed(q, g)) && g !in Removed(q, g)
    ensures forall h :: h in Removed(q, g) <==> h in q && h != g
    ensures |Removed(q, g)| == |q| - (if g in q then 1 else 0)
  {
    var i := IndexOf(q, g);
    var r := Removed(q, g);
    if i < |q| {
      forall k | 0 <= k < |r| ensures r[k] != g && r[k] in q { }
      forall h | h in q && h != g ensures h in r {
        var k :| 0 <= k < |q| && q[k] == h;
        assert r[if k < |q| - 1 then k else i] == h;
      }
    } else {
      assert q[..i] == q;
    }
  }

  // ---------- the array ----------

  class Registry {
    const slots: array<Option<Group>>
    var ngroup: nat
    var stop: bool

    ghost predicate Valid()
      reads this, slots
    {
      && ngroup <= slots.Length
      && (forall k :: 0 <= k < ngroup ==> slots[k].Some?)
    }

    /** The registered prefix. */
    ghost function Registered(): (q: seq<Group>)
      requires Valid()
      reads this, slots
      ensures |q| == ngroup
    {
      seq(ngroup, k requires 0 <= k < ngroup && Valid() reads this, slots => slots[k].value)
    }

    constructor (max: nat)
      ensures Valid() && Registered() == [] && !stop && slots.Length == max && fresh(slots)
    {
      slots := new Option<Group>[max](k => None);
      ngroup, stop := 0, false;
    }

    /** _add_group: 0 also when the array is full and the group was not registered. */
    method Add(g: Option<Group>) returns (rc: int)
      requires Valid()
      modifies this`ngroup, slots
      ensures Valid()
      ensures rc == (if g.Some? && !stop then 0 else -1)
      ensures Registered() == if rc == 0 then Added(old(Registered()), g.value, slots.Length) else old(Registered())
    {
      if g.None? || stop {
        return -1;
      }
      if ngroup < slots.Length {
        slots[ngroup] := g;
        ngroup := ngroup + 1;
      }
      return 0;
    }

    /** _delete_group, the part under the mutex: only slot `i` and `_ngroup` are written. */
    method Delete(g: Group) returns (erased: bool)
      requires Valid()
      modifies this`ngroup, slots
      ensures Valid()
      ensures erased <==> g in old(Registered())
      ensures Registered() == Removed(old(Registered()), g)
      ensures forall k :: 0 <= k < slots.Length && k != IndexOf(old(Registered()), g) ==> slots[k] == old(slots[k])
    {
      ghost var before := Registered();
      erased := false;
      var i := 0;
      while i < ngroup
        invariant 0 <= i <= ngroup == |before| && Valid() && Registered() == before
        invariant forall k :: 0 <= k < slots.Length ==> slots[k] == old(slots[k])
        invariant g !in before[..i]
      {
        if slots[i] == Some(g) {
          IndexIs(before, g, i);
          slots[i] := slots[ngroup - 1];
          ngroup := ngroup - 1;
          return true;
        }
        i := i + 1;
      }
      assert before[..i] == before;
    }
  }

  lemma IndexIs<T>(q: seq<T>, g: T, i: nat)
    requires i < |q| && q[i] == g && g !in q[..i]
    ensures IndexOf(q, g) == i
  {
    var k := IndexOf(q, g);
    assert forall j :: 0 <= j < i ==> q[..i][j] == q[j];
    assert forall j :: 0 <= j < k ==> q[..k][j] == q[j];
  }
}
