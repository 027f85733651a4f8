/** The loops of Socket::IsWriteComplete and Socket::KeepWrite over the linked write requests, in place,
    while no other request arrives. */
module WriteChain {
  type Byte = x: int | 0 <= x < 256

  /** The field `next` of a request: UNCONNECTED, or a request or NULL. */
  datatype Next = Unconnected | To(r: WriteRequest?)

  class WriteRequest {
    var data: seq<Byte>
    var next: Next

    constructor (data: seq<Byte>)
      ensures this.data == data && next == Unconnected
    {
      this.data := data;
      next := Unconnected;
    }
  }

  ghost function Elements(q: seq<WriteRequest>): set<WriteRequest> {
    set r | r in q
  }

  ghost predicate NoDuplicates(q: seq<WriteRequest>) {
    forall i, j :: 0 <= i < j < |q| ==> q[i] != q[j]
  }

  predicate Here(q: seq<WriteRequest>, i: int) {
    0 <= i < |q|
  }

  function At(q: seq<WriteRequest>, i: int, end: WriteRequest?): WriteRequest? {
    if 0 <= i < |q| then q[i] else end
  }

  /** Each request of `q` points to the one after it, the last to `end`. */
  ghost predicate Chained(q: seq<WriteRequest>, end: WriteRequest?)
    reads Elements(q)
  {
    forall i {:trigger Here(q, i)} :: Here(q, i) ==> q[i].next == To(At(q, i + 1, end))
  }

  function Reversed(q: seq<WriteRequest>): (r: seq<WriteRequest>)
    ensures |r| == |q|
    ensures forall i :: 0 <= i < |q| ==> r[i] == q[|q| - 1 - i]
  {
    if q == [] then [] else Reversed(q[1..]) + [q[0]]
  }

  class Socket {
    var head: WriteRequest?
    /** The requests on which Setup was called, and those that went back to the pool. */
    var setups: seq<WriteRequest>
    var returned: seq<WriteRequest>

    constructor ()
      ensures head == null && setups == [] && returned == []
    {
      head := null;
      setups, returned := [], [];
    }

    /** The start of StartWrite: the exchange on `_write_head`, and the link to what it held. */
    method Push(req: WriteRequest, ghost oldHead: WriteRequest?, ghost newer: seq<WriteRequest>) returns (owner: bool)
      requires req !in newer && req != oldHead && Chained(newer, oldHead) && head == At(newer, 0, oldHead)
      modifies this`head, req`next
      ensures owner <==> old(head) == null
      ensures head == req && Chained([req] + newer, oldHead)
    {
      var prev := head;
      head := req;
      owner := prev == null;
      if owner { req.next := To(null); } else { req.next := To(prev); }
      forall i | Here([req] + newer, i) ensures ([req] + newer)[i].next == To(At([req] + newer, i + 1, oldHead)) {
        assert i > 0 ==> Here(newer, i - 1);
      }
    }

    /** `owned` is the chain that ends with `oldHead`, `newer` the later requests from the newest back. */
    method IsWriteComplete(oldHead: WriteRequest, singular: bool,
                           ghost owned: seq<WriteRequest>, ghost newer: seq<WriteRequest>)
      returns (complete: bool, newTail: WriteRequest)
      requires owned != [] && owned[|owned| - 1] == oldHead && Chained(owned, null) && (singular <==> |owned| == 1)
      requires NoDuplicates(owned + newer) && Chained(newer, oldHead)
      requires head == (if newer == [] then oldHead else newer[0])
      modifies this`head, this`setups, oldHead`next, Elements(newer)
      ensures forall r :: r in newer ==> r.data == old(r.data)
      ensures complete <==> newer == [] && oldHead.data == [] && |owned| == 1
      ensures head == (if complete then null else old(head))
      ensures Chained(owned + Reversed(newer), null)
      ensures newTail == (if newer == [] then oldHead else newer[0])
      ensures setups == old(setups) + Reversed(newer)
    {
      var desired: WriteRequest? := null;
      var returnWhenNoMore := true;
      if oldHead.data != [] || !singular {
        desired := oldHead;
        returnWhenNoMore := false;
      }
      LaterDiffers(owned, newer);
      if head == oldHead {
        head := desired;
        assert owned + Reversed(newer) == owned;
        return returnWhenNoMore, oldHead;
      }
      var newHead := head;
      var tail := ReverseNewer(newHead, oldHead, newer);
      oldHead.next := To(tail);
      JoinChains(owned, Reversed(newer));
      SetupFrom(tail, Reversed(newer));
      return false, newHead;
    }

    /** The loop that calls Setup from the oldest request to the newest. */
    method SetupFrom(tail: WriteRequest, ghost list: seq<WriteRequest>)
      requires list != [] && list[0] == tail && Chained(list, null)
      modifies this`setups
      ensures setups == old(setups) + list
    {
      var q: WriteRequest? := tail;
      ghost var n := 0;
      while q != null
        invariant n <= |list| && q == (if n < |list| then list[n] else null)
        invariant setups == old(setups) + list[..n]
        decreases |list| - n
      {
        assert Here(list, n);
        setups := setups + [q];
        assert list[..n + 1] == list[..n] + [list[n]];
        n := n + 1;
        q := q.next.r;
      }
      assert list[..n] == list;
    }

    /** The release loop of KeepWrite. */
    method ReleaseWritten(first: WriteRequest, ghost list: seq<WriteRequest>) returns (req: WriteRequest)
      requires list != [] && list[0] == first && Chained(list, null)
      modifies this`returned
      ensures old(returned) <= returned && ReleasedUpTo(list, req, returned[|old(returned)|..])
    {
      req := first;
      ghost var n := 0;
      assert Here(list, 0);
      while req.next.r != null && req.data == []
        invariant n < |list| && Here(list, n) && req == list[n] && returned == old(returned) + list[..n]
        invariant forall i :: 0 <= i < n ==> list[i].data == []
        decreases |list| - n
      {
        var saved := req;
        req := req.next.r;
        returned := returned + [saved];
        n := n + 1;
        assert Here(list, n);
      }
      assert returned[|old(returned)|..] == list[..n];
    }
  }

  /** The requests released are the written ones before `req`, which is the last or not written. */
  ghost predicate ReleasedUpTo(list: seq<WriteRequest>, req: WriteRequest, released: seq<WriteRequest>)
    reads Elements(list)
  {
    && |released| < |list| && released == list[..|released|] && req == list[|released|]
    && (forall i :: 0 <= i < |released| ==> list[i].data == [])
    && (|released| + 1 < |list| ==> list[|released|].data != [])
  }

  /** With a newer request the head is not the old one. */
  lemma LaterDiffers(owned: seq<WriteRequest>, newer: seq<WriteRequest>)
    requires owned != [] && NoDuplicates(owned + newer)
    ensures newer != [] ==> newer[0] != owned[|owned| - 1]
    ensures forall i, j :: 0 <= i < |owned| && 0 <= j < |newer| ==> owned[i] != newer[j]
    ensures NoDuplicates(newer) && NoDuplicates(owned)
  {
    forall i, j | 0 <= i < |owned| && 0 <= j < |newer| ensures owned[i] != newer[j] {
      assert (owned + newer)[i] == owned[i] && (owned + newer)[|owned| + j] == newer[j];
    }
    forall i, j | 0 <= i < j < |newer| ensures newer[i] != newer[j] {
      assert (owned + newer)[|owned| + i] == newer[i] && (owned + newer)[|owned| + j] == newer[j];
    }
    forall i, j | 0 <= i < j < |owned| ensures owned[i] != owned[j] {
      assert (owned + newer)[i] == owned[i] && (owned + newer)[j] == owned[j];
    }
  }

  /** The loop that reverses the requests from `newHead` back to, and without, `oldHead`. */
  method ReverseNewer(newHead: WriteRequest, oldHead: WriteRequest, ghost newer: seq<WriteRequest>)
    returns (tail: WriteRequest)
    requires newer != [] && newer[0] == newHead && NoDuplicates(newer) && oldHead !in newer && Chained(newer, oldHead)
    modifies Elements(newer)
    ensures forall r :: r in newer ==> r.data == old(r.data)
    ensures Chained(Reversed(newer), null) && Reversed(newer)[0] == tail
  {
    var last: WriteRequest? := null;
    var p := newHead;
    ghost var n := 0;
    assert Here(newer, 0);
    while true
      invariant n < |newer| && Here(newer, n) && p == newer[n] && last == At(newer, n - 1, null)
      invariant forall i {:trigger Here(newer, i)} ::
                  Here(newer, i) && i < n ==> newer[i].next == To(At(newer, i - 1, null))
      invariant forall i {:trigger Here(newer, i)} ::
                  Here(newer, i) && n <= i ==> newer[i].next == To(At(newer, i + 1, oldHead))
      invariant forall r :: r in newer ==> r.data == old(r.data)
      decreases |newer| - n
    {
      var saved := p.next.r;
      p.next := To(last);
      last := p;
      if saved == oldHead {
        break;
      }
      n := n + 1;
      assert Here(newer, n);
      p := saved;
    }
    tail := last;
    assert n == |newer| - 1;
    forall i | Here(Reversed(newer), i) ensures Reversed(newer)[i].next == To(At(Reversed(newer), i + 1, null)) {
      assert Here(newer, |newer| - 1 - i);
    }
  }

  /** `old_head->next = tail` makes one chain of two. */
  lemma JoinChains(a: seq<WriteRequest>, b: seq<WriteRequest>)
    requires a != [] && b != [] && Chained(b, null) && a[|a| - 1].next == To(b[0])
    requires forall i {:trigger Here(a, i)} :: Here(a, i) && i < |a| - 1 ==> a[i].next == To(At(a, i + 1, null))
    ensures Chained(a + b, null)
  {
    forall i | Here(a + b, i) ensures (a + b)[i].next == To(At(a + b, i + 1, null)) {
      assert Here(a, i) || Here(b, i - |a|);
    }
  }
}
