/** The intrusive, circular, doubly linked lists of butex waiters, and the loops under the waiter locks
    that move waiters between them. */
module WaiterList {
  import opened Wrappers

  /** A ButexWaiter: its links, `tid` (0 for a pthread), and the butex named by `container`. */
  class Waiter {
    var prev: Waiter
    var next: Waiter
    const tid: nat
    var container: Option<nat>

    /** A node in no list points to itself. */
    constructor (tid: nat)
      ensures this.tid == tid && container == None && prev == this && next == this
    {
      this.tid := tid;
      container := None;
      prev := this;
      next := this;
    }
  }

  ghost function Elements(q: seq<Waiter>): set<Waiter> {
    set w | w in q
  }

  ghost predicate NoDuplicates(q: seq<Waiter>) {
    forall i, j :: 0 <= i < j < |q| ==> q[i] != q[j]
  }

  /** Members of the ring: the root stands before the first node and after the last. */
  ghost function At(root: Waiter, q: seq<Waiter>, i: int): Waiter {
    if 0 <= i < |q| then q[i] else root
  }

  /** Positions of the ring: the root, and then the nodes. */
  ghost predicate Here(q: seq<Waiter>, i: int) {
    -1 <= i < |q|
  }

  ghost predicate Linked(root: Waiter, q: seq<Waiter>, i: int)
    reads root, Elements(q)
  {
    At(root, q, i).next == At(root, q, i + 1) && At(root, q, i + 1).prev == At(root, q, i)
  }

  /** The ring through `root` holds the waiters `q`, in this order. */
  ghost predicate Ring(root: Waiter, q: seq<Waiter>)
    reads root, Elements(q)
  {
    && root !in q && NoDuplicates(q)
    && (forall i {:trigger Here(q, i)} :: Here(q, i) ==> Linked(root, q, i))
  }

  /** LinkedList. */
  class List {
    const root: Waiter
    ghost var q: seq<Waiter>

    ghost predicate Valid()
      reads this, root, Elements(q)
    {
      Ring(root, q)
    }

    /** Everything that belongs to the list. */
    ghost function Repr(): set<object>
      reads this
    {
      {this, root} + Elements(q)
    }

    constructor ()
      ensures Valid() && q == [] && fresh(Repr())
    {
      root := new Waiter(0);
      q := [];
    }

    predicate Empty()
      requires Valid()
      reads this, root, Elements(q)
      ensures Empty() <==> q == []
    {
      assert Here(q, -1);
      root.next == root
    }

    function Head(): (w: Waiter)
      requires Valid() && q != []
      reads this, root, Elements(q)
      ensures w == q[0]
    {
      assert Here(q, -1);
      root.next
    }

    function Tail(): (w: Waiter)
      requires Valid() && q != []
      reads this, root, Elements(q)
      ensures w == q[|q| - 1]
    {
      assert Here(q, |q| - 1);
      root.prev
    }

    /** Insert before the root. */
    method Append(w: Waiter)
      requires Valid() && w !in q && w != root
      modifies this, root, Elements(q), w
      ensures Valid() && q == old(q) + [w]
      ensures forall x :: x in q ==> x.container == old(x.container)
    {
      ghost var before := q;
      assert Here(q, |q| - 1);
      var last := root.prev;
      w.prev := last;
      w.next := root;
      last.next := w;
      root.prev := w;
      q := q + [w];
      forall i | Here(q, i) ensures Linked(root, q, i) {
        assert i < |before| ==> Here(before, i);
      }
    }

    /** RemoveFromList: the neighbours are joined, and the node points to itself again. */
    method Remove(w: Waiter, ghost k: nat)
      requires Valid() && k < |q| && q[k] == w
      modifies this, root, Elements(q)
      ensures Valid() && q == old(q)[..k] + old(q)[k + 1..]
      ensures w.prev == w && w.next == w && w !in q
      ensures forall x :: x in old(q) ==> x.container == old(x.container)
    {
      ghost var before := q;
      assert Here(q, k - 1) && Here(q, k);
      w.prev.next := w.next;
      w.next.prev := w.prev;
      w.next := w;
      w.prev := w;
      q := q[..k] + q[k + 1..];
      forall i | Here(q, i) ensures Linked(root, q, i) {
        assert Here(before, i) && Here(before, i + 1);
      }
    }
  }

  /** The first waiter of one list goes to the end of another, and its container is stored. */
  method MoveFirst(from: List, to: List, c: Option<nat>) returns (w: Waiter)
    requires from.Valid() && to.Valid() && from.Repr() !! to.Repr() && from.q != []
    modifies from, from.root, Elements(from.q), to, to.root, Elements(to.q)
    ensures from.Valid() && to.Valid() && from.Repr() !! to.Repr()
    ensures w == old(from.q)[0] && from.q == old(from.q)[1..] && to.q == old(to.q) + [w]
    ensures w.container == c
    ensures forall x :: x in old(from.q) + old(to.q) && x != w ==> x.container == old(x.container)
  {
    w := from.Head();
    assert w in Elements(from.q);
    from.Remove(w, 0);
    w.container := c;
    to.Append(w);
  }
}
