/** The parts of butex_wake, butex_wake_all, butex_wake_except, butex_requeue and erase_from_butex that
    move waiters between lists in place, and the order in which the waiters taken are woken. */
module ButexLists {
  import opened Wrappers
  import opened WaiterList

  // ---------- what the loops compute ----------

  function Bthreads(q: seq<Waiter>): seq<Waiter> {
    if q == [] then [] else if q[0].tid != 0 then [q[0]] + Bthreads(q[1..]) else Bthreads(q[1..])
  }

  function Pthreads(q: seq<Waiter>): seq<Waiter> {
    if q == [] then [] else if q[0].tid == 0 then [q[0]] + Pthreads(q[1..]) else Pthreads(q[1..])
  }

  /** The waiters that wake_except puts back. A pthread has tid 0 and is never among them. */
  function Excluded(q: seq<Waiter>, excluded: nat): seq<Waiter> {
    if q == [] then []
    else if q[0].tid != 0 && q[0].tid == excluded then [q[0]] + Excluded(q[1..], excluded)
    else Excluded(q[1..], excluded)
  }

  function Others(q: seq<Waiter>, excluded: nat): seq<Waiter> {
    if q == [] then []
    else if q[0].tid != 0 && q[0].tid == excluded then Others(q[1..], excluded)
    else [q[0]] + Others(q[1..], excluded)
  }

  function Reversed(q: seq<Waiter>): seq<Waiter> {
    if q == [] then [] else Reversed(q[1..]) + [q[0]]
  }

  /** Waking everybody takes every waiter once, as a bthread or as a pthread. */
  lemma {:induction false} SplitIsPermutation(q: seq<Waiter>)
    ensures multiset(Bthreads(q)) + multiset(Pthreads(q)) == multiset(q)
    ensures forall w :: w in Bthreads(q) ==> w.tid != 0
    ensures forall w :: w in Pthreads(q) ==> w.tid == 0
  {
    if q != [] {
      SplitIsPermutation(q[1..]);
      assert q == [q[0]] + q[1..];
    }
  }

  /** wake_except keeps one part of the waiters and takes the other. */
  lemma {:induction false} ExceptIsPermutation(q: seq<Waiter>, excluded: nat)
    ensures multiset(Excluded(q, excluded)) + multiset(Others(q, excluded)) == multiset(q)
  {
    if q != [] {
      ExceptIsPermutation(q[1..], excluded);
      assert q == [q[0]] + q[1..];
    }
  }

  /** It keeps just those with the excluded tid, and nobody when that is 0. */
  lemma {:induction false} ExcludedAre(q: seq<Waiter>, excluded: nat, w: Waiter)
    ensures w in Excluded(q, excluded) <==> w in q && w.tid == excluded != 0
    ensures excluded == 0 ==> Excluded(q, excluded) == [] && Others(q, excluded) == q
  {
    if q != [] {
      ExcludedAre(q[1..], excluded, w);
      assert q == [q[0]] + q[1..];
    }
  }

  /** What was moved so far, followed by what the rest `q` of the list will give. */
  ghost predicate ByKind(all: seq<Waiter>, q: seq<Waiter>, bs: seq<Waiter>, ps: seq<Waiter>) {
    bs + Bthreads(q) == Bthreads(all) && ps + Pthreads(q) == Pthreads(all)
  }

  lemma ByKindStep(all: seq<Waiter>, q: seq<Waiter>, bs: seq<Waiter>, ps: seq<Waiter>)
    requires q != [] && ByKind(all, q, bs, ps)
    ensures if q[0].tid != 0 then ByKind(all, q[1..], bs + [q[0]], ps) else ByKind(all, q[1..], bs, ps + [q[0]])
  {
    assert bs + ([q[0]] + Bthreads(q[1..])) == (bs + [q[0]]) + Bthreads(q[1..]);
    assert ps + ([q[0]] + Pthreads(q[1..])) == (ps + [q[0]]) + Pthreads(q[1..]);
  }

  lemma ElementsFirst(q: seq<Waiter>)
    requires q != []
    ensures Elements(q) == {q[0]} + Elements(q[1..])
  {
    assert q == [q[0]] + q[1..];
  }

  lemma ElementsLast(q: seq<Waiter>, w: Waiter)
    ensures Elements(q + [w]) == Elements(q) + {w}
  {}

  /** The first waiter goes to the list of its kind. */
  method MoveByKind(waiters: List, bthreads: List, pthreads: List)
    requires waiters.Valid() && bthreads.Valid() && pthreads.Valid() && waiters.q != []
    requires waiters.Repr() !! bthreads.Repr() !! pthreads.Repr()
    modifies waiters, waiters.root, Elements(waiters.q), bthreads, bthreads.root, Elements(bthreads.q)
    modifies pthreads, pthreads.root, Elements(pthreads.q)
    ensures waiters.Valid() && bthreads.Valid() && pthreads.Valid()
    ensures waiters.Repr() !! bthreads.Repr() !! pthreads.Repr() && waiters.q == old(waiters.q)[1..]
    ensures var w := old(waiters.q)[0];
            && bthreads.q == (if w.tid != 0 then old(bthreads.q) + [w] else old(bthreads.q))
            && pthreads.q == (if w.tid == 0 then old(pthreads.q) + [w] else old(pthreads.q))
            && w.container == None
    ensures forall x :: x in waiters.q || x in old(bthreads.q) || x in old(pthreads.q) ==>
              x.container == old(x.container)
  {
    var w := waiters.Head();
    if w.tid != 0 {
      w := MoveFirst(waiters, bthreads, None);
    } else {
      w := MoveFirst(waiters, pthreads, None);
    }
  }

  /** The loop of butex_wake_all. */
  method Separate(waiters: List, bthreads: List, pthreads: List)
    requires waiters.Valid() && bthreads.Valid() && pthreads.Valid() && bthreads.q == pthreads.q == []
    requires waiters.Repr() !! bthreads.Repr() !! pthreads.Repr()
    modifies waiters, waiters.root, Elements(waiters.q), bthreads, bthreads.root, pthreads, pthreads.root
    ensures waiters.Valid() && bthreads.Valid() && pthreads.Valid() && bthreads.Repr() !! pthreads.Repr()
    ensures waiters.q == [] && bthreads.q == Bthreads(old(waiters.q)) && pthreads.q == Pthreads(old(waiters.q))
    ensures Elements(bthreads.q) <= old(Elements(waiters.q)) && Elements(pthreads.q) <= old(Elements(waiters.q))
    ensures forall w :: w in bthreads.q + pthreads.q ==> w.container == None
  {
    ghost var all := waiters.q;
    while !waiters.Empty()
      invariant waiters.Valid() && bthreads.Valid() && pthreads.Valid()
      invariant waiters.Repr() !! bthreads.Repr() !! pthreads.Repr()
      invariant Elements(waiters.q) <= Elements(all)
      invariant Elements(bthreads.q) <= Elements(all) && Elements(pthreads.q) <= Elements(all)
      invariant ByKind(all, waiters.q, bthreads.q, pthreads.q)
      invariant forall w :: w in bthreads.q ==> w.container == None
      invariant forall w :: w in pthreads.q ==> w.container == None
      decreases |waiters.q|
    {
      TurnByKind(waiters, bthreads, pthreads, all);
    }
  }

  /** One turn of that loop keeps the order of either kind. */
  method TurnByKind(waiters: List, bthreads: List, pthreads: List, ghost all: seq<Waiter>)
    requires waiters.Valid() && bthreads.Valid() && pthreads.Valid() && waiters.q != []
    requires waiters.Repr() !! bthreads.Repr() !! pthreads.Repr()
    requires Elements(waiters.q) <= Elements(all)
    requires Elements(bthreads.q) <= Elements(all) && Elements(pthreads.q) <= Elements(all)
    requires ByKind(all, waiters.q, bthreads.q, pthreads.q)
    requires forall w :: w in bthreads.q ==> w.container == None
    requires forall w :: w in pthreads.q ==> w.container == None
    modifies waiters, waiters.root, Elements(waiters.q), bthreads, bthreads.root, Elements(bthreads.q)
    modifies pthreads, pthreads.root, Elements(pthreads.q)
    ensures waiters.Valid() && bthreads.Valid() && pthreads.Valid()
    ensures waiters.Repr() !! bthreads.Repr() !! pthreads.Repr() && waiters.q == old(waiters.q)[1..]
    ensures Elements(waiters.q) <= Elements(all)
    ensures Elements(bthreads.q) <= Elements(all) && Elements(pthreads.q) <= Elements(all)
    ensures ByKind(all, waiters.q, bthreads.q, pthreads.q)
    ensures forall w :: w in bthreads.q ==> w.container == None
    ensures forall w :: w in pthreads.q ==> w.container == None
  {
    ghost var q, bs, ps := waiters.q, bthreads.q, pthreads.q;
    ElementsFirst(q);
    ElementsLast(bs, q[0]);
    ElementsLast(ps, q[0]);
    MoveByKind(waiters, bthreads, pthreads);
    ByKindStep(all, q, bs, ps);
  }

  /** The loop of butex_wake_except on the list of butex `id`; the waiter it leaves out is in no list. */
  method SeparateExcept(waiters: List, bthreads: List, pthreads: List, excluded: nat, ghost id: nat)
    returns (kept: Option<Waiter>)
    requires waiters.Valid() && bthreads.Valid() && pthreads.Valid() && bthreads.q == pthreads.q == []
    requires waiters.Repr() !! bthreads.Repr() !! pthreads.Repr()
    requires |Excluded(waiters.q, excluded)| <= 1 && forall w :: w in waiters.q ==> w.container == Some(id)
    modifies waiters, waiters.root, Elements(waiters.q), bthreads, bthreads.root, pthreads, pthreads.root
    ensures waiters.Valid() && waiters.q == [] && waiters.Repr() !! bthreads.Repr() !! pthreads.Repr()
    ensures bthreads.Valid() && bthreads.q == Bthreads(Others(old(waiters.q), excluded))
    ensures pthreads.Valid() && pthreads.q == Pthreads(Others(old(waiters.q), excluded))
    ensures Elements(bthreads.q) + Elements(pthreads.q) <= old(Elements(waiters.q))
    ensures Excluded(old(waiters.q), excluded) == (if kept.Some? then [kept.value] else [])
    ensures kept.Some? ==> kept.value in old(waiters.q) && kept.value !in bthreads.q + pthreads.q
    ensures kept.Some? ==> kept.value.container == Some(id)
    ensures forall w :: w in bthreads.q + pthreads.q ==> w.container == None
  {
    ghost var all := waiters.q;
    kept := None;
    while !waiters.Empty()
      invariant waiters.Valid() && bthreads.Valid() && pthreads.Valid()
      invariant waiters.Repr() !! bthreads.Repr() !! pthreads.Repr()
      invariant Elements(waiters.q) <= Elements(all)
      invariant Elements(bthreads.q) <= Elements(all) && Elements(pthreads.q) <= Elements(all)
      invariant Progress(all, waiters.q, bthreads.q, pthreads.q, kept, excluded)
      invariant LeftOut(waiters.q, bthreads.q, pthreads.q, all, kept, id)
      invariant Labelled(waiters.q, bthreads.q, pthreads.q, id)
      decreases |waiters.q|
    {
      kept := TurnExcept(waiters, bthreads, pthreads, all, excluded, id, kept);
    }
  }

  /** One turn of that loop keeps the order of either kind, and the waiter left out. */
  method TurnExcept(waiters: List, bthreads: List, pthreads: List, ghost all: seq<Waiter>, excluded: nat, ghost id: nat,
                    kept: Option<Waiter>)
    returns (kept': Option<Waiter>)
    requires waiters.Valid() && bthreads.Valid() && pthreads.Valid() && waiters.q != []
    requires waiters.Repr() !! bthreads.Repr() !! pthreads.Repr()
    requires Elements(waiters.q) <= Elements(all)
    requires Elements(bthreads.q) <= Elements(all) && Elements(pthreads.q) <= Elements(all)
    requires Progress(all, waiters.q, bthreads.q, pthreads.q, kept, excluded) && |Excluded(all, excluded)| <= 1
    requires waiters.root !in all && bthreads.root !in all && pthreads.root !in all
    requires LeftOut(waiters.q, bthreads.q, pthreads.q, all, kept, id)
    requires Labelled(waiters.q, bthreads.q, pthreads.q, id)
    modifies waiters, waiters.root, Elements(waiters.q), bthreads, bthreads.root, Elements(bthreads.q)
    modifies pthreads, pthreads.root, Elements(pthreads.q)
    ensures waiters.Valid() && bthreads.Valid() && pthreads.Valid()
    ensures waiters.Repr() !! bthreads.Repr() !! pthreads.Repr() && waiters.q == old(waiters.q)[1..]
    ensures Elements(waiters.q) <= Elements(all)
    ensures Elements(bthreads.q) <= Elements(all) && Elements(pthreads.q) <= Elements(all)
    ensures Progress(all, waiters.q, bthreads.q, pthreads.q, kept', excluded)
    ensures LeftOut(waiters.q, bthreads.q, pthreads.q, all, kept', id)
    ensures Labelled(waiters.q, bthreads.q, pthreads.q, id)
  {
    ghost var q, bs, ps := waiters.q, bthreads.q, pthreads.q;
    ElementsFirst(q);
    ElementsLast(bs, q[0]);
    ElementsLast(ps, q[0]);
    assert q[0] !in q[1..];
    ProgressStep(all, q, bs, ps, kept, excluded);
    kept' := StepExcept(waiters, bthreads, pthreads, excluded, id, kept);
  }

  /** The waiter left out is in no list and still names the butex. */
  ghost predicate LeftOut(q: seq<Waiter>, bs: seq<Waiter>, ps: seq<Waiter>, all: seq<Waiter>,
                          kept: Option<Waiter>, id: nat)
    reads if kept.Some? then {kept.value} else {}
  {
    kept.Some? ==>
      && kept.value in all && kept.value !in q && kept.value !in bs && kept.value !in ps
      && kept.value.container == Some(id)
  }

  /** Waiters not yet moved name the butex, the others name none. */
  ghost predicate Labelled(q: seq<Waiter>, bs: seq<Waiter>, ps: seq<Waiter>, id: nat)
    reads Elements(q), Elements(bs), Elements(ps)
  {
    && (forall w :: w in q ==> w.container == Some(id))
    && (forall w :: w in bs ==> w.container == None) && (forall w :: w in ps ==> w.container == None)
  }

  /** What was moved so far, followed by what the rest `q` of the list will give. */
  ghost predicate Progress(all: seq<Waiter>, q: seq<Waiter>, bs: seq<Waiter>, ps: seq<Waiter>,
                           kept: Option<Waiter>, excluded: nat)
  {
    && bs + Bthreads(Others(q, excluded)) == Bthreads(Others(all, excluded))
    && ps + Pthreads(Others(q, excluded)) == Pthreads(Others(all, excluded))
    && (if kept.Some? then [kept.value] else []) + Excluded(q, excluded) == Excluded(all, excluded)
  }

  lemma ProgressStep(all: seq<Waiter>, q: seq<Waiter>, bs: seq<Waiter>, ps: seq<Waiter>,
                     kept: Option<Waiter>, excluded: nat)
    requires q != [] && Progress(all, q, bs, ps, kept, excluded) && |Excluded(all, excluded)| <= 1
    ensures var w := q[0];
            var out := w.tid != 0 && w.tid == excluded;
            && (out ==> kept == None)
            && Progress(all, q[1..],
                        bs + (if w.tid != 0 && !out then [w] else []), ps + (if w.tid == 0 then [w] else []),
                        if out then Some(w) else kept, excluded)
  {
    var w := q[0];
    var rest := Others(q[1..], excluded);
    assert bs + ([w] + Bthreads(rest)) == (bs + [w]) + Bthreads(rest);
    assert ps + ([w] + Pthreads(rest)) == (ps + [w]) + Pthreads(rest);
    assert bs + [] == bs && ps + [] == ps;
    assert ([w] + rest)[1..] == rest;
  }

  /** One turn of that loop. */
  method StepExcept(waiters: List, bthreads: List, pthreads: List, excluded: nat, ghost id: nat, kept: Option<Waiter>)
    returns (kept': Option<Waiter>)
    requires waiters.Valid() && bthreads.Valid() && pthreads.Valid() && waiters.q != []
    requires waiters.Repr() !! bthreads.Repr() !! pthreads.Repr()
    modifies waiters, waiters.root, Elements(waiters.q), bthreads, bthreads.root, Elements(bthreads.q)
    modifies pthreads, pthreads.root, Elements(pthreads.q)
    ensures waiters.Valid() && bthreads.Valid() && pthreads.Valid()
    ensures waiters.Repr() !! bthreads.Repr() !! pthreads.Repr() && waiters.q == old(waiters.q)[1..]
    ensures var w := old(waiters.q)[0];
            var out := w.tid != 0 && w.tid == excluded;
            && kept' == (if out then Some(w) else kept)
            && bthreads.q == old(bthreads.q) + (if w.tid != 0 && !out then [w] else [])
            && pthreads.q == old(pthreads.q) + (if w.tid == 0 then [w] else [])
            && w.container == (if out then old(w.container) else None)
    ensures forall x :: x in waiters.q || x in old(bthreads.q) || x in old(pthreads.q) ==>
              x.container == old(x.container)
  {
    var w := waiters.Head();
    kept' := kept;
    if w.tid == 0 {
      w := MoveFirst(waiters, pthreads, None);
    } else if w.tid != excluded {
      w := MoveFirst(waiters, bthreads, None);
    } else {
      waiters.Remove(w, 0);
      kept' := Some(w);
    }
  }

  /** The loop of butex_requeue: the waiters of one list follow those of another, and name butex `id`. */
  method MoveRest(from: List, to: List, id: nat)
    requires from.Valid() && to.Valid() && from.Repr() !! to.Repr()
    requires forall w :: w in to.q ==> w.container == Some(id)
    modifies from, from.root, Elements(from.q), to, to.root, Elements(to.q)
    ensures from.Valid() && to.Valid() && from.q == [] && to.q == old(to.q) + old(from.q)
    ensures forall w :: w in to.q ==> w.container == Some(id)
  {
    ghost var all, before := from.q, to.q;
    ghost var n := 0;
    assert all[..0] == [];
    while !from.Empty()
      invariant n <= |all| && from.q == all[n..] && to.q == before + all[..n]
      invariant from.Valid() && to.Valid() && from.Repr() !! to.Repr()
      invariant Elements(to.q) <= Elements(before) + Elements(all)
      invariant forall w :: w in to.q ==> w.container == Some(id)
      decreases |from.q|
    {
      var _ := MoveFirst(from, to, Some(id));
      assert all[..n + 1] == all[..n] + [all[n]];
      n := n + 1;
    }
    assert all[..n] == all;
  }

  lemma WithoutOne(q: seq<Waiter>, k: nat)
    requires k < |q|
    ensures multiset(q[..k] + q[k + 1..]) == multiset(q) - multiset([q[k]])
    ensures forall w :: w in q[..k] + q[k + 1..] ==> w in q
  {
    assert q == q[..k] + [q[k]] + q[k + 1..];
  }

  // ---------- a butex ----------

  class Butex {
    const id: nat
    const waiters: List

    constructor (id: nat)
      ensures this.id == id && waiters.Valid() && waiters.q == [] && fresh(waiters.Repr())
    {
      this.id := id;
      waiters := new List();
    }

    /** A waiter that the list holds names this butex. */
    ghost predicate Valid()
      reads this, waiters, waiters.root, Elements(waiters.q)
    {
      waiters.Valid() && forall w :: w in waiters.q ==> w.container == Some(id)
    }

    /** The queueing half of wait_for_butex and of wait_pthread. */
    method Enqueue(w: Waiter)
      requires Valid() && w !in waiters.q && w != waiters.root
      modifies waiters, waiters.root, Elements(waiters.q), w
      ensures Valid() && waiters.q == old(waiters.q) + [w]
    {
      waiters.Append(w);
      w.container := Some(id);
    }

    /** butex_wake takes the waiter that came first. */
    method TakeFirst() returns (front: Option<Waiter>)
      requires Valid()
      modifies waiters, waiters.root, Elements(waiters.q)
      ensures Valid()
      ensures front == (if old(waiters.q) == [] then None else Some(old(waiters.q)[0]))
      ensures waiters.q == (if front.None? then [] else old(waiters.q)[1..])
      ensures front.Some? ==> front.value.container == None && front.value !in waiters.q
    {
      if waiters.Empty() {
        return None;
      }
      var w := waiters.Head();
      waiters.Remove(w, 0);
      w.container := None;
      front := Some(w);
    }

    /** erase_from_butex: nothing happens unless the container, read under the lock, is this butex. */
    method Erase(w: Waiter) returns (erased: bool)
      requires Valid() && (w.container == Some(id) ==> w in waiters.q)
      modifies waiters, waiters.root, Elements(waiters.q)
      ensures Valid() && (erased <==> old(w.container) == Some(id)) && (erased <==> w in old(waiters.q))
      ensures w !in waiters.q && (erased ==> w.container == None)
      ensures multiset(waiters.q) == multiset(old(waiters.q)) - multiset(if erased then [w] else [])
    {
      erased := w.container == Some(id);
      if erased {
        ghost var k :| 0 <= k < |waiters.q| && waiters.q[k] == w;
        WithoutOne(waiters.q, k);
        waiters.Remove(w, k);
        w.container := None;
      }
    }

    /** The locked part of butex_wake_all. */
    method TakeAll() returns (bthreads: List, pthreads: List)
      requires Valid()
      modifies waiters, waiters.root, Elements(waiters.q)
      ensures Valid() && waiters.q == [] && bthreads.Repr() !! pthreads.Repr()
      ensures bthreads.Valid() && bthreads.q == Bthreads(old(waiters.q))
      ensures pthreads.Valid() && pthreads.q == Pthreads(old(waiters.q))
      ensures forall w :: w in bthreads.q + pthreads.q ==> w.container == None
    {
      bthreads := new List();
      pthreads := new List();
      Separate(waiters, bthreads, pthreads);
    }

    /** The locked part of butex_wake_except. A bthread waits once, so one waiter at most has the excluded tid. */
    method TakeExcept(excluded: nat) returns (bthreads: List, pthreads: List)
      requires Valid() && |Excluded(waiters.q, excluded)| <= 1
      modifies waiters, waiters.root, Elements(waiters.q)
      ensures Valid() && waiters.q == Excluded(old(waiters.q), excluded)
      ensures bthreads.Valid() && bthreads.q == Bthreads(Others(old(waiters.q), excluded))
      ensures pthreads.Valid() && pthreads.q == Pthreads(Others(old(waiters.q), excluded))
      ensures bthreads.Repr() !! pthreads.Repr()
      ensures forall w :: w in bthreads.q + pthreads.q ==> w.container == None
    {
      bthreads := new List();
      pthreads := new List();
      var kept := SeparateExcept(waiters, bthreads, pthreads, excluded, id);
      PutBack(kept);
    }

    /** The excluded waiter is queued again. */
    method PutBack(kept: Option<Waiter>)
      requires Valid() && waiters.q == []
      requires kept.Some? ==> kept.value != waiters.root && kept.value.container == Some(id)
      modifies waiters, waiters.root, if kept.Some? then {kept.value} else {}
      ensures Valid() && waiters.q == if kept.Some? then [kept.value] else []
    {
      if kept.Some? {
        waiters.Append(kept.value);
      }
    }

    /** The loop of butex_requeue; both locks are held. */
    method Requeue(m: Butex) returns (front: Option<Waiter>)
      requires Valid() && m.Valid() && waiters.Repr() !! m.waiters.Repr()
      modifies waiters, waiters.root, Elements(waiters.q), m.waiters, m.waiters.root, Elements(m.waiters.q)
      ensures Valid() && m.Valid() && waiters.q == []
      ensures front == (if old(waiters.q) == [] then None else Some(old(waiters.q)[0]))
      ensures m.waiters.q == old(m.waiters.q) + (if front.None? then [] else old(waiters.q)[1..])
      ensures front.Some? ==> front.value.container == None && front.value !in m.waiters.q
    {
      assert Elements(waiters.q) !! Elements(m.waiters.q);
      front := TakeFirst();
      if front.Some? {
        assert front.value in Elements(old(waiters.q));
        MoveRest(waiters, m.waiters, m.id);
      }
    }
  }

  // ---------- the wake-ups after the lock was released ----------

  /** The pthreads are woken in the order of their list. */
  method WakePthreads(pthreads: List) returns (order: seq<Waiter>)
    requires pthreads.Valid()
    modifies pthreads, pthreads.root, Elements(pthreads.q)
    ensures pthreads.Valid() && pthreads.q == [] && order == old(pthreads.q)
  {
    order := [];
    while !pthreads.Empty()
      invariant pthreads.Valid()
      invariant Elements(pthreads.q) <= old(Elements(pthreads.q)) && order + pthreads.q == old(pthreads.q)
      decreases |pthreads.q|
    {
      var w := pthreads.Head();
      pthreads.Remove(w, 0);
      order := order + [w];
    }
  }

  /** The bthreads are pushed to the run queue from the last to the first. */
  method WakeFromTail(bthreads: List) returns (order: seq<Waiter>)
    requires bthreads.Valid()
    modifies bthreads, bthreads.root, Elements(bthreads.q)
    ensures bthreads.Valid() && bthreads.q == [] && order == Reversed(old(bthreads.q))
  {
    order := [];
    while !bthreads.Empty()
      invariant bthreads.Valid()
      invariant Elements(bthreads.q) <= old(Elements(bthreads.q))
      invariant order + Reversed(bthreads.q) == Reversed(old(bthreads.q))
      decreases |bthreads.q|
    {
      ghost var q := bthreads.q;
      var w := bthreads.Tail();
      ReversedLast(q);
      bthreads.Remove(w, |bthreads.q| - 1);
      assert bthreads.q == q[..|q| - 1];
      assert order + Reversed(q) == (order + [w]) + Reversed(bthreads.q);
      order := order + [w];
    }
  }

  /** butex_wake_all wakes the pthreads, then the bthreads from the last to the second, and switches to the
      first at the end. */
  method WakeOrder(bthreads: List, pthreads: List) returns (order: seq<Waiter>)
    requires bthreads.Valid() && pthreads.Valid() && bthreads.Repr() !! pthreads.Repr()
    modifies bthreads, bthreads.root, Elements(bthreads.q), pthreads, pthreads.root, Elements(pthreads.q)
    ensures var bs := old(bthreads.q);
            order == old(pthreads.q) + (if bs == [] then [] else Reversed(bs[1..]) + [bs[0]])
  {
    order := WakePthreads(pthreads);
    if !bthreads.Empty() {
      var next := bthreads.Head();
      bthreads.Remove(next, 0);
      assert bthreads.q == old(bthreads.q)[1..];
      var rest := WakeFromTail(bthreads);
      order := order + rest + [next];
    }
  }

  /** butex_wake_except wakes the pthreads, then all bthreads from the last to the first, and switches to none. */
  method WakeExceptOrder(bthreads: List, pthreads: List) returns (order: seq<Waiter>)
    requires bthreads.Valid() && pthreads.Valid() && bthreads.Repr() !! pthreads.Repr()
    modifies bthreads, bthreads.root, Elements(bthreads.q), pthreads, pthreads.root, Elements(pthreads.q)
    ensures order == old(pthreads.q) + Reversed(old(bthreads.q))
  {
    order := WakePthreads(pthreads);
    var rest := WakeFromTail(bthreads);
    order := order + rest;
  }

  lemma {:induction false} ReversedLast(q: seq<Waiter>)
    requires q != []
    ensures Reversed(q) == [q[|q| - 1]] + Reversed(q[..|q| - 1])
  {
    if |q| > 1 {
      ReversedLast(q[1..]);
      assert q[1..][..|q| - 2] == q[..|q| - 1][1..];
    }
  }
}
