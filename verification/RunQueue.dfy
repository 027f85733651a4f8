/** The run queues of a TaskGroup with their signal counters: ready_to_run, push_rq and the flushes, and
    the same for the remote queue. */
module RunQueue {
  type Tid = nat

  /** `_rq`, `_num_nosignal` and `_nsignaled`; or `_remote_rq`, `_remote_num_nosignal` and `_remote_nsignaled`. */
  datatype View = View(q: seq<Tid>, capacity: nat, quiet: nat, signaled: nat)

  /** What happens to a queue without interruption: by its owner alone, or under the mutex. An attempt to
      push onto a full queue flushes instead. */
  datatype Op =
    | Push(tid: Tid, nosignal: bool)
    | PushIgnoreSignal(tid: Tid)
    | Flush
    | TakeOldest
    | TakeNewest

  predicate Full(v: View) {
    |v.q| >= v.capacity
  }

  function Flushed(v: View): View {
    v.(quiet := 0, signaled := v.signaled + v.quiet)
  }

  function Apply(v: View, op: Op): View {
    match op
    case Push(tid, nosignal) =>
      if Full(v) then Flushed(v)
      else if nosignal then v.(q := v.q + [tid], quiet := v.quiet + 1)
      else v.(q := v.q + [tid], quiet := 0, signaled := v.signaled + 1 + v.quiet)
    case PushIgnoreSignal(tid) => if Full(v) then Flushed(v) else v.(q := v.q + [tid])
    case Flush => Flushed(v)
    case TakeOldest => if v.q == [] then v else v.(q := v.q[1..])
    case TakeNewest => if v.q == [] then v else v.(q := v.q[..|v.q| - 1])
  }

  /** The number that the operation passes to signal_task; 0 stands for no call. */
  function Signals(v: View, op: Op): nat {
    match op
    case Push(tid, nosignal) => if Full(v) then v.quiet else if nosignal then 0 else 1 + v.quiet
    case PushIgnoreSignal(tid) => if Full(v) then v.quiet else 0
    case Flush => v.quiet
    case _ => 0
  }

  function ApplyAll(v: View, ops: seq<Op>): View
    decreases |ops|
  {
    if ops == [] then v else ApplyAll(Apply(v, ops[0]), ops[1..])
  }

  function AllSignals(v: View, ops: seq<Op>): nat
    decreases |ops|
  {
    if ops == [] then 0 else Signals(v, ops[0]) + AllSignals(Apply(v, ops[0]), ops[1..])
  }

  /** The successful pushes through ready_to_run. */
  function Pushes(v: View, ops: seq<Op>): nat
    decreases |ops|
  {
    if ops == [] then 0
    else (if ops[0].Push? && !Full(v) then 1 else 0) + Pushes(Apply(v, ops[0]), ops[1..])
  }

  /** The task that the operation pushes, with or without regard to signals. */
  function Pushed(v: View, op: Op): multiset<Tid> {
    if (op.Push? || op.PushIgnoreSignal?) && !Full(v) then multiset{op.tid} else multiset{}
  }

  function PushedTasks(v: View, ops: seq<Op>): multiset<Tid>
    decreases |ops|
  {
    if ops == [] then multiset{} else Pushed(v, ops[0]) + PushedTasks(Apply(v, ops[0]), ops[1..])
  }

  /** The task that the operation takes out and hands on. */
  function Taken(v: View, op: Op): multiset<Tid> {
    if v.q == [] then multiset{}
    else if op.TakeOldest? then multiset{v.q[0]}
    else if op.TakeNewest? then multiset{v.q[|v.q| - 1]}
    else multiset{}
  }

  function TakenTasks(v: View, ops: seq<Op>): multiset<Tid>
    decreases |ops|
  {
    if ops == [] then multiset{} else Taken(v, ops[0]) + TakenTasks(Apply(v, ops[0]), ops[1..])
  }

  /** Over any run every push through ready_to_run is in one of the two counters, what signal_task was told
      is what the signaled counter counted, and pushes that ignore signals are in neither. */
  lemma {:induction false} SignalsConserved(v: View, ops: seq<Op>)
    ensures var w := ApplyAll(v, ops);
            && w.signaled + w.quiet == v.signaled + v.quiet + Pushes(v, ops)
            && w.signaled == v.signaled + AllSignals(v, ops)
    decreases |ops|
  {
    if ops != [] { SignalsConserved(Apply(v, ops[0]), ops[1..]); }
  }

  lemma FirstAndRest(q: seq<Tid>)
    requires q != []
    ensures multiset(q[1..]) + multiset{q[0]} == multiset(q)
  {
    assert q == [q[0]] + q[1..];
  }

  lemma FrontAndLast(q: seq<Tid>)
    requires q != []
    ensures multiset(q[..|q| - 1]) + multiset{q[|q| - 1]} == multiset(q)
  {
    assert q == q[..|q| - 1] + [q[|q| - 1]];
  }

  lemma OpConserves(v: View, op: Op)
    ensures multiset(Apply(v, op).q) + Taken(v, op) == multiset(v.q) + Pushed(v, op)
  {
    if op.TakeOldest? && v.q != [] {
      FirstAndRest(v.q);
    } else if op.TakeNewest? && v.q != [] {
      FrontAndLast(v.q);
    } else if (op.Push? || op.PushIgnoreSignal?) && !Full(v) {
      assert Apply(v, op).q == v.q + [op.tid];
    }
  }

  lemma Exchange(a: multiset<Tid>, b: multiset<Tid>, c: multiset<Tid>,
                 t: multiset<Tid>, u: multiset<Tid>, p: multiset<Tid>, q: multiset<Tid>)
    requires b + t == a + p && c + u == b + q
    ensures c + (t + u) == a + (p + q)
  {
    forall x: Tid ensures (c + (t + u))[x] == (a + (p + q))[x] {
      assert (b + t)[x] == (a + p)[x] && (c + u)[x] == (b + q)[x];
    }
  }

  lemma {:induction false} CapacityKept(v: View, ops: seq<Op>)
    requires |v.q| <= v.capacity
    ensures |ApplyAll(v, ops).q| <= v.capacity
    decreases |ops|
  {
    if ops != [] {
      assert Apply(v, ops[0]).capacity == v.capacity;
      CapacityKept(Apply(v, ops[0]), ops[1..]);
    }
  }

  /** No task is lost or doubled: what was taken and what is still queued is what was queued and pushed. */
  lemma {:induction false} TasksConserved(v: View, ops: seq<Op>)
    ensures multiset(ApplyAll(v, ops).q) + TakenTasks(v, ops) == multiset(v.q) + PushedTasks(v, ops)
    ensures |v.q| <= v.capacity ==> |ApplyAll(v, ops).q| <= v.capacity
    decreases |ops|
  {
    if ops != [] {
      var v1 := Apply(v, ops[0]);
      OpConserves(v, ops[0]);
      TasksConserved(v1, ops[1..]);
      Exchange(multiset(v.q), multiset(v1.q), multiset(ApplyAll(v1, ops[1..]).q),
               Taken(v, ops[0]), TakenTasks(v1, ops[1..]), Pushed(v, ops[0]), PushedTasks(v1, ops[1..]));
    }
    if |v.q| <= v.capacity { CapacityKept(v, ops); }
  }

  lemma {:induction false} ApplyConcat(v: View, a: seq<Op>, b: seq<Op>)
    ensures ApplyAll(v, a + b) == ApplyAll(ApplyAll(v, a), b)
    ensures AllSignals(v, a + b) == AllSignals(v, a) + AllSignals(ApplyAll(v, a), b)
    decreases |a|
  {
    if a == [] {
      assert a + b == b;
    } else {
      ApplyConcat(Apply(v, a[0]), a[1..], b);
      assert (a + b)[1..] == a[1..] + b;
    }
  }

  /** One failed attempt per element of `others`, which is what happens during the sleep that follows it. */
  function Attempts(op: Op, others: seq<seq<Op>>): seq<Op> {
    if others == [] then [] else [op] + others[0] + Attempts(op, others[1..])
  }

  lemma {:induction false} AttemptsLast(op: Op, others: seq<seq<Op>>, last: seq<Op>)
    ensures Attempts(op, others + [last]) == Attempts(op, others) + ([op] + last)
  {
    if others == [] {
      assert others + [last] == [last];
    } else {
      AttemptsLast(op, others[1..], last);
      assert (others + [last])[1..] == others[1..] + [last];
      assert [op] + others[0] + (Attempts(op, others[1..]) + ([op] + last))
          == ([op] + others[0] + Attempts(op, others[1..])) + ([op] + last);
    }
  }

  lemma OneOp(v: View, op: Op)
    ensures ApplyAll(v, [op]) == Apply(v, op) && AllSignals(v, [op]) == Signals(v, op)
  {
    assert [op][1..] == [];
  }

  lemma OneMore(v: View, ops: seq<Op>, op: Op)
    ensures ApplyAll(v, ops + [op]) == Apply(ApplyAll(v, ops), op)
    ensures AllSignals(v, ops + [op]) == AllSignals(v, ops) + Signals(ApplyAll(v, ops), op)
  {
    ApplyConcat(v, ops, [op]);
    OneOp(ApplyAll(v, ops), op);
  }

  /** A failed attempt, the sleep after it, and the next attempt. */
  lemma NextAttempt(v: View, op: Op, others: seq<seq<Op>>, k: nat)
    requires k < |others|
    ensures var tried, more := Attempts(op, others[..k]) + [op], Attempts(op, others[..k + 1]);
            && ApplyAll(v, more) == ApplyAll(ApplyAll(v, tried), others[k])
            && AllSignals(v, more) == AllSignals(v, tried) + AllSignals(ApplyAll(v, tried), others[k])
            && ApplyAll(v, more + [op]) == Apply(ApplyAll(v, more), op)
            && AllSignals(v, more + [op]) == AllSignals(v, more) + Signals(ApplyAll(v, more), op)
  {
    var tried, more := Attempts(op, others[..k]) + [op], Attempts(op, others[..k + 1]);
    AttemptsLast(op, others[..k], others[k]);
    assert others[..k + 1] == others[..k] + [others[k]];
    assert more == tried + others[k];
    ApplyConcat(v, tried, others[k]);
    OneMore(v, more, op);
  }

  class CountedQueue {
    var q: seq<Tid>
    var quiet: nat
    var signaled: nat
    const capacity: nat
    /** The sum of the numbers passed to signal_task. */
    var told: nat

    ghost function Now(): View
      reads this
    {
      View(q, capacity, quiet, signaled)
    }

    /** The queue as one more attempt finds it after failed ones with these sleeps. */
    ghost function AfterSleeps(op: Op, others: seq<seq<Op>>): View
      reads this
    {
      ApplyAll(Now(), Attempts(op, others))
    }

    constructor (capacity: nat)
      ensures Now() == View([], capacity, 0, 0) && told == 0
    {
      this.capacity := capacity;
      q, quiet, signaled, told := [], 0, 0, 0;
    }

    method SignalTask(num: nat)
      modifies this`told
      ensures told == old(told) + num
    {
      told := told + num;
    }

    /** No push stays quiet, the pushes counted stay the same, and signal_task is told what is counted as
        signaled. */
    method FlushNosignalTasks()
      modifies this
      ensures Now() == Apply(old(Now()), Flush) && told == old(told) + Signals(old(Now()), Flush)
      ensures quiet == 0 && signaled == old(quiet + signaled) && told - signaled == old(told - signaled)
      ensures q == old(q)
    {
      var val := quiet;
      if val != 0 {
        quiet := 0;
        signaled := signaled + val;
        SignalTask(val);
      }
    }

    method PushOnce(tid: Tid) returns (ok: bool)
      modifies this
      ensures ok <==> !old(Full(Now()))
      ensures Now() == (if ok then old(Now()).(q := old(q) + [tid]) else old(Now())) && told == old(told)
    {
      ok := |q| < capacity;
      if ok {
        q := q + [tid];
      }
    }

    /** One turn of the loop of ready_to_run: push and count, or flush. Every push is counted once, only a
        nosignal push may stay quiet, and a failed one leaves none quiet. */
    method Attempt(tid: Tid, nosignal: bool) returns (ok: bool)
      modifies this
      ensures ok <==> !old(Full(Now()))
      ensures Now() == Apply(old(Now()), Push(tid, nosignal))
      ensures told == old(told) + Signals(old(Now()), Push(tid, nosignal))
      ensures quiet + signaled == old(quiet + signaled) + (if ok then 1 else 0)
      ensures told - signaled == old(told - signaled)
      ensures ok && nosignal ==> told == old(told)
      ensures !ok || !nosignal ==> quiet == 0
      ensures q == if ok then old(q) + [tid] else old(q)
    {
      ok := PushOnce(tid);
      if !ok {
        FlushNosignalTasks();
      } else if nosignal {
        quiet := quiet + 1;
      } else {
        var additional := quiet;
        quiet := 0;
        signaled := signaled + (1 + additional);
        SignalTask(1 + additional);
      }
    }

    /** What other threads do to the queue. */
    method Others(ops: seq<Op>)
      modifies this
      ensures Now() == ApplyAll(old(Now()), ops) && told == old(told) + AllSignals(old(Now()), ops)
    {
      var i := 0;
      assert ops[..0] == [];
      while i < |ops|
        invariant 0 <= i <= |ops|
        invariant Now() == ApplyAll(old(Now()), ops[..i]) && told == old(told) + AllSignals(old(Now()), ops[..i])
      {
        ghost var before := Now();
        match ops[i] {
          case Push(tid, nosignal) => var _ := Attempt(tid, nosignal);
          case PushIgnoreSignal(tid) =>
            var ok := PushOnce(tid);
            if !ok { FlushNosignalTasks(); }
          case Flush => FlushNosignalTasks();
          case TakeOldest => if q != [] { q := q[1..]; }
          case TakeNewest => if q != [] { q := q[..|q| - 1]; }
        }
        assert Now() == Apply(before, ops[i]);
        assert ops[..i + 1] == ops[..i] + [ops[i]];
        ApplyConcat(old(Now()), ops[..i], [ops[i]]);
        OneOp(before, ops[i]);
        i := i + 1;
      }
      assert ops[..i] == ops;
    }

    /** ready_to_run and ready_to_run_remote: attempts, with `others[k]` happening during the sleep after the
        failed attempt `k`. The caller bounds the number of sleeps by the length of `others`; the attempts go on
        exactly until one finds room, and `ok` tells whether one did. */
    method ReadyToRun(tid: Tid, nosignal: bool, others: seq<seq<Op>>) returns (sleeps: nat, ok: bool)
      modifies this
      ensures sleeps <= |others|
      ensures forall k :: 0 <= k < sleeps ==> old(Full(AfterSleeps(Push(tid, nosignal), others[..k])))
      ensures ok <==> !old(Full(AfterSleeps(Push(tid, nosignal), others[..sleeps])))
      ensures !ok ==> sleeps == |others|
      ensures var ops := Attempts(Push(tid, nosignal), others[..sleeps]) + [Push(tid, nosignal)];
              Now() == ApplyAll(old(Now()), ops) && told == old(told) + AllSignals(old(Now()), ops)
    {
      ghost var op := Push(tid, nosignal);
      sleeps := 0;
      assert others[..0] == [];
      ghost var before := Now();
      ok := Attempt(tid, nosignal);
      OneOp(before, op);
      assert Attempts(op, others[..0]) + [op] == [op];
      while !ok && sleeps < |others|
        invariant sleeps <= |others|
        invariant before == ApplyAll(old(Now()), Attempts(op, others[..sleeps]))
        invariant ok <==> !Full(before)
        invariant forall k :: 0 <= k < sleeps ==> old(Full(AfterSleeps(op, others[..k])))
        invariant Now() == ApplyAll(old(Now()), Attempts(op, others[..sleeps]) + [op])
        invariant told == old(told) + AllSignals(old(Now()), Attempts(op, others[..sleeps]) + [op])
        decreases |others| - sleeps
      {
        NextAttempt(old(Now()), op, others, sleeps);
        assert old(Full(AfterSleeps(op, others[..sleeps])));
        Others(others[sleeps]);
        sleeps := sleeps + 1;
        before := Now();
        ok := Attempt(tid, nosignal);
      }
    }
  }
}
