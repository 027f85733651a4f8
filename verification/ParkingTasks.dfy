/** What the parking protocol does with the tasks: none is lost, none runs twice, and the order of a
    queue decides who gets which. */
module ParkingTasks {
  import opened Wrappers
  import opened Arithmetic
  import opened Parking
  import opened ParkingCover

  // ---------- every run keeps its shape ----------

  predicate WorkerEvent(e: Event) {
    e.Finish? || e.TryOwn? || e.TryRemote? || e.SaveState? || e.ScanOne? || e.EndScan? || e.Settle? ||
    e.EnterWait? || e.Spurious?
  }

  predicate PushEvent(e: Event) {
    e.PushSignal? || e.PushNoSignal? || e.PushIgnoreSignal?
  }

  lemma WorkerEventShape(s: State, e: Event, v: nat, q: Queue)
    requires Shape(s) && Enabled(s, e) && v < |s.workers| && WorkerEvent(e)
    ensures |Step(s, e).workers| == |s.workers| && WorkerOk(Step(s, e), v)
    ensures q in Step(s, e).queues <==> q in s.queues
    ensures Step(s, e).quiet == s.quiet && Step(s, e).calls == s.calls && Step(s, e).lots == s.lots
  {
    WorkerEventRest(s, e, q);
    WorkerEventWorker(s, e, v);
  }

  lemma WorkerEventWorker(s: State, e: Event, v: nat)
    requires Shape(s) && Enabled(s, e) && v < |s.workers| && WorkerEvent(e)
    ensures |Step(s, e).workers| == |s.workers| && WorkerOk(Step(s, e), v)
  {
    assert WorkerOk(s, v);
  }

  lemma WorkerEventRest(s: State, e: Event, q: Queue)
    requires Enabled(s, e) && WorkerEvent(e)
    ensures q in Step(s, e).queues <==> q in s.queues
    ensures Step(s, e).quiet == s.quiet && Step(s, e).calls == s.calls && Step(s, e).lots == s.lots
  {}

  lemma PushEventShape(s: State, e: Event, v: nat, q: Queue)
    requires Shape(s) && Enabled(s, e) && v < |s.workers| && PushEvent(e)
    ensures Step(s, e).workers == s.workers && WorkerOk(Step(s, e), v)
    ensures (q in Step(s, e).queues <==> q in s.queues) && (q in Step(s, e).quiet <==> q in s.quiet)
    ensures |Step(s, e).lots| == |s.lots|
  {
    assert WorkerOk(s, v);
  }

  lemma SignalEventShape(s: State, e: Event, v: nat, q: Queue)
    requires Shape(s) && Enabled(s, e) && v < |s.workers| && !WorkerEvent(e) && !PushEvent(e)
    ensures |Step(s, e).workers| == |s.workers| && WorkerOk(Step(s, e), v)
    ensures Step(s, e).queues == s.queues && (q in Step(s, e).quiet <==> q in s.quiet)
    ensures |Step(s, e).lots| == |s.lots|
  {
    assert WorkerOk(s, v);
  }

  lemma CallOkStep(s: State, e: Event, c: nat)
    requires Shape(s) && Enabled(s, e) && !WorkerEvent(e) && c in Step(s, e).calls
    ensures CallOk(Step(s, e).calls[c])
  {}

  lemma EventShape(s: State, e: Event, v: nat, q: Queue)
    requires Shape(s) && Enabled(s, e) && v < |s.workers|
    ensures |Step(s, e).workers| == |s.workers| && WorkerOk(Step(s, e), v)
    ensures (q in Step(s, e).queues <==> q in s.queues) && (q in Step(s, e).quiet <==> q in s.quiet)
    ensures |Step(s, e).lots| == |s.lots|
    ensures WorkerEvent(e) ==> Step(s, e).calls == s.calls
  {
    if WorkerEvent(e) { WorkerEventShape(s, e, v, q); }
    else if PushEvent(e) { PushEventShape(s, e, v, q); }
    else { SignalEventShape(s, e, v, q); }
  }

  lemma ShapeStep(s: State, e: Event)
    requires Shape(s) && Enabled(s, e)
    ensures Shape(Step(s, e)) && |Step(s, e).workers| == |s.workers|
  {
    var s' := Step(s, e);
    EventShape(s, e, 0, Rq(0));
    forall v: nat | v < |s.workers| ensures WorkerOk(s', v) { EventShape(s, e, v, Rq(0)); }
    forall q ensures (q in s'.queues <==> q.g < |s.workers|) && (q in s'.quiet <==> q.g < |s.workers|) {
      EventShape(s, e, 0, q);
    }
    forall c | c in s'.calls && !WorkerEvent(e) ensures CallOk(s'.calls[c]) { CallOkStep(s, e, c); }
  }

  // ---------- what an event moves ----------

  /** The queue a worker takes from in event `e`. */
  function Looked(s: State, e: Event): Option<Queue>
    requires Shape(s)
  {
    match e
    case TryOwn(w) => Some(Rq(w))
    case TryRemote(w) => Some(Remote(w))
    case ScanOne(w) =>
      if CanScanOne(s, w) then Some(Target(|s.workers|, s.workers[w])) else None
    case _ => None
  }

  /** The owner gets the newest task of its run queue; whoever takes from another queue, the oldest. */
  function Handed(s: State, e: Event): Option<Task>
    requires Shape(s)
  {
    var from := Looked(s, e);
    if from == None || from.value !in s.queues || s.queues[from.value] == [] then None
    else if e.TryOwn? then Some(s.queues[from.value][|s.queues[from.value]| - 1])
    else Some(s.queues[from.value][0])
  }

  function PushedTo(e: Event, q: Queue): seq<Task> {
    if PushEvent(e) && e.q == q then [e.task] else []
  }

  function Pushed(e: Event): seq<Task> {
    if PushEvent(e) then [e.task] else []
  }

  /** A worker that looks at a queue takes exactly the task it is handed and runs it; it goes on without
      one exactly if the queue is empty. */
  lemma LookTakesOne(s: State, e: Event)
    requires Shape(s) && Enabled(s, e) && Looked(s, e).Some?
    ensures var q, s' := Looked(s, e).value, Step(s, e);
            && q in s.queues && q in s'.queues && e.w < |s'.workers|
            && (s'.workers[e.w].pc.Busy? <==> s.queues[q] != [])
            && match Handed(s, e)
               case None => s'.queues == s.queues && s.queues[q] == []
               case Some(x) =>
                 && s'.queues == s.queues[q := s'.queues[q]]
                 && s.queues[q] == if e.TryOwn? then s'.queues[q] + [x] else [x] + s'.queues[q]
  {}

  /** Pushes go to the end of their queue, and nothing else touches a queue. */
  lemma OthersKeepQueues(s: State, e: Event, q: Queue)
    requires Shape(s) && Enabled(s, e) && Looked(s, e) == None && q in s.queues
    ensures q in Step(s, e).queues && Step(s, e).queues[q] == s.queues[q] + PushedTo(e, q)
  {
    if WorkerEvent(e) { RestKeepsQueues(s, e); }
    else if !PushEvent(e) { SignalEventShape(s, e, 0, q); }
  }

  lemma RestKeepsQueues(s: State, e: Event)
    requires Shape(s) && Enabled(s, e) && Looked(s, e) == None && WorkerEvent(e)
    ensures Step(s, e).queues == s.queues
  {}

  // ---------- conservation ----------

  function Times(x: Task, q: seq<Task>): nat {
    multiset(q)[x]
  }

  function TimesIn(queues: map<Queue, seq<Task>>, q: Queue, x: Task): nat {
    if q in queues then Times(x, queues[q]) else 0
  }

  /** How often task `x` is in the queues of the first `n` groups. */
  function TimesQueued(queues: map<Queue, seq<Task>>, n: nat, x: Task): nat {
    if n == 0 then 0
    else TimesQueued(queues, n - 1, x) + TimesIn(queues, Rq(n - 1), x) + TimesIn(queues, Remote(n - 1), x)
  }

  lemma {:induction false} TimesQueuedAfter(queues: map<Queue, seq<Task>>, n: nat, q: Queue, tasks: seq<Task>, x: Task)
    requires q in queues
    ensures q.g >= n ==> TimesQueued(queues[q := tasks], n, x) == TimesQueued(queues, n, x)
    ensures q.g < n ==>
              TimesQueued(queues[q := tasks], n, x) + Times(x, queues[q]) ==
              TimesQueued(queues, n, x) + Times(x, tasks)
  {
    if n > 0 {
      TimesQueuedAfter(queues, n - 1, q, tasks, x);
    }
  }

  lemma {:induction false} NoTasks(queues: map<Queue, seq<Task>>, n: nat, x: Task)
    requires forall q :: q in queues ==> queues[q] == []
    ensures TimesQueued(queues, n, x) == 0
  {
    if n > 0 { NoTasks(queues, n - 1, x); }
  }

  function AllQueued(s: State, x: Task): nat {
    TimesQueued(s.queues, |s.workers|, x)
  }

  function TaskOf(x: Option<Task>): seq<Task> {
    if x.Some? then [x.value] else []
  }

  lemma TimesJoin(x: Task, a: seq<Task>, b: seq<Task>)
    ensures Times(x, a + b) == Times(x, a) + Times(x, b)
  {}

  lemma StepConserves(s: State, e: Event, x: Task)
    requires Shape(s) && Enabled(s, e)
    ensures AllQueued(Step(s, e), x) + Times(x, TaskOf(Handed(s, e))) == AllQueued(s, x) + Times(x, Pushed(e))
  {
    ShapeStep(s, e);
    if Looked(s, e).Some? {
      LookConserves(s, e, x);
    } else {
      PushConserves(s, e, x);
    }
  }

  lemma LookConserves(s: State, e: Event, x: Task)
    requires Shape(s) && Enabled(s, e) && Looked(s, e).Some? && |Step(s, e).workers| == |s.workers|
    ensures AllQueued(Step(s, e), x) + Times(x, TaskOf(Handed(s, e))) == AllQueued(s, x)
  {
    var q, s' := Looked(s, e).value, Step(s, e);
    LookTakesOne(s, e);
    if Handed(s, e).Some? {
      TimesQueuedAfter(s.queues, |s.workers|, q, s'.queues[q], x);
      if e.TryOwn? { TimesJoin(x, s'.queues[q], [Handed(s, e).value]); }
      else { TimesJoin(x, [Handed(s, e).value], s'.queues[q]); }
    }
  }

  lemma PushConserves(s: State, e: Event, x: Task)
    requires Shape(s) && Enabled(s, e) && Looked(s, e) == None && |Step(s, e).workers| == |s.workers|
    ensures AllQueued(Step(s, e), x) == AllQueued(s, x) + Times(x, Pushed(e))
  {
    if PushEvent(e) {
      TimesQueuedAfter(s.queues, |s.workers|, e.q, s.queues[e.q] + [e.task], x);
      TimesJoin(x, s.queues[e.q], [e.task]);
    } else if WorkerEvent(e) {
      RestKeepsQueues(s, e);
    } else {
      SignalEventShape(s, e, 0, Rq(0));
    }
  }

  /** History: who got which task from which queue. */
  datatype Delivery = Delivery(w: nat, from: Queue, task: Task)

  function Delivered(s: State, e: Event): seq<Delivery>
    requires Shape(s)
  {
    if Handed(s, e).Some? then [Delivery(e.w, Looked(s, e).value, Handed(s, e).value)] else []
  }

  ghost function Deliveries(s: State, es: seq<Event>): seq<Delivery>
    requires Shape(s) && Executable(s, es)
    decreases |es|
  {
    if es == [] then [] else
      ShapeStep(s, es[0]);
      Delivered(s, es[0]) + Deliveries(Step(s, es[0]), es[1..])
  }

  function Tasks(ds: seq<Delivery>): seq<Task> {
    if ds == [] then [] else [ds[0].task] + Tasks(ds[1..])
  }

  function DeliveredTo(ds: seq<Delivery>, w: nat): nat {
    if ds == [] then 0 else (if ds[0].w == w then 1 else 0) + DeliveredTo(ds[1..], w)
  }

  function DeliveredFrom(ds: seq<Delivery>, q: Queue): seq<Task> {
    if ds == [] then [] else (if ds[0].from == q then [ds[0].task] else []) + DeliveredFrom(ds[1..], q)
  }

  lemma {:induction false} TasksJoin(ds: seq<Delivery>, ds2: seq<Delivery>)
    ensures Tasks(ds + ds2) == Tasks(ds) + Tasks(ds2)
  {
    if ds == [] {
      assert ds + ds2 == ds2;
    } else {
      assert (ds + ds2)[0] == ds[0] && (ds + ds2)[1..] == ds[1..] + ds2;
      TasksJoin(ds[1..], ds2);
      AppendAssoc([ds[0].task], Tasks(ds[1..]), Tasks(ds2));
    }
  }

  lemma {:induction false} DeliveredToJoin(ds: seq<Delivery>, ds2: seq<Delivery>, w: nat)
    ensures DeliveredTo(ds + ds2, w) == DeliveredTo(ds, w) + DeliveredTo(ds2, w)
  {
    if ds == [] {
      assert ds + ds2 == ds2;
    } else {
      assert (ds + ds2)[0] == ds[0] && (ds + ds2)[1..] == ds[1..] + ds2;
      DeliveredToJoin(ds[1..], ds2, w);
    }
  }

  lemma AppendAssoc<T>(a: seq<T>, b: seq<T>, c: seq<T>)
    ensures a + (b + c) == (a + b) + c
  {}

  lemma {:induction false} DeliveredFromJoin(ds: seq<Delivery>, ds2: seq<Delivery>, q: Queue)
    ensures DeliveredFrom(ds + ds2, q) == DeliveredFrom(ds, q) + DeliveredFrom(ds2, q)
  {
    if ds == [] {
      assert ds + ds2 == ds2;
    } else {
      assert (ds + ds2)[0] == ds[0] && (ds + ds2)[1..] == ds[1..] + ds2;
      DeliveredFromJoin(ds[1..], ds2, q);
      AppendAssoc(if ds[0].from == q then [ds[0].task] else [], DeliveredFrom(ds[1..], q), DeliveredFrom(ds2, q));
    }
  }

  lemma OneDelivered(s: State, e: Event, w: nat, q: Queue)
    requires Shape(s)
    ensures Tasks(Delivered(s, e)) == TaskOf(Handed(s, e))
    ensures DeliveredTo(Delivered(s, e), w) == if Handed(s, e).Some? && e.w == w then 1 else 0
    ensures DeliveredFrom(Delivered(s, e), q) == if Looked(s, e) == Some(q) then TaskOf(Handed(s, e)) else []
  {}

  lemma FirstDelivery(s: State, es: seq<Event>, w: nat, q: Queue)
    requires Shape(s) && Executable(s, es) && es != []
    ensures Shape(Step(s, es[0])) && |Step(s, es[0]).workers| == |s.workers|
    ensures var ds := Deliveries(Step(s, es[0]), es[1..]);
            && Tasks(Deliveries(s, es)) == TaskOf(Handed(s, es[0])) + Tasks(ds)
            && DeliveredTo(Deliveries(s, es), w) == DeliveredTo(Delivered(s, es[0]), w) + DeliveredTo(ds, w)
            && DeliveredFrom(Deliveries(s, es), q) == DeliveredFrom(Delivered(s, es[0]), q) + DeliveredFrom(ds, q)
  {
    ShapeStep(s, es[0]);
    OneDelivered(s, es[0], w, q);
    var ds := Deliveries(Step(s, es[0]), es[1..]);
    TasksJoin(Delivered(s, es[0]), ds);
    DeliveredToJoin(Delivered(s, es[0]), ds, w);
    DeliveredFromJoin(Delivered(s, es[0]), ds, q);
  }

  function AllPushed(es: seq<Event>): seq<Task> {
    if es == [] then [] else Pushed(es[0]) + AllPushed(es[1..])
  }

  lemma {:induction false} RunConserves(s: State, es: seq<Event>, x: Task)
    requires Shape(s) && Executable(s, es)
    ensures AllQueued(s, x) + Times(x, AllPushed(es)) ==
            Times(x, Tasks(Deliveries(s, es))) + AllQueued(After(s, es), x)
    decreases |es|
  {
    if es != [] {
      StepConserves(s, es[0], x);
      FirstDelivery(s, es, 0, Rq(0));
      RunConserves(Step(s, es[0]), es[1..], x);
      TimesJoin(x, TaskOf(Handed(s, es[0])), Tasks(Deliveries(Step(s, es[0]), es[1..])));
      TimesJoin(x, Pushed(es[0]), AllPushed(es[1..]));
    }
  }

  /** In every run the tasks pushed are those handed to workers and those still queued, each as often. */
  lemma TasksConserved(s: State, es: seq<Event>, x: Task)
    requires Init(s) && Executable(s, es)
    ensures Shape(s)
    ensures Times(x, AllPushed(es)) == Times(x, Tasks(Deliveries(s, es))) + AllQueued(After(s, es), x)
  {
    InitInv(s);
    RunConserves(s, es, x);
    NoTasks(s.queues, |s.workers|, x);
  }

  // ---------- one task at a time ----------

  function Finished(es: seq<Event>, w: nat): nat {
    if es == [] then 0 else (if es[0] == Finish(w) then 1 else 0) + Finished(es[1..], w)
  }

  function Running(s: State, w: nat): nat {
    if w < |s.workers| && s.workers[w].pc.Busy? then 1 else 0
  }

  lemma StepRuns(s: State, e: Event, w: nat)
    requires Shape(s) && Enabled(s, e) && w < |s.workers|
    ensures Running(s, w) + DeliveredTo(Delivered(s, e), w) ==
            Running(Step(s, e), w) + Finished([e], w)
  {
    OneDelivered(s, e, w, Rq(0));
    if Looked(s, e).Some? { LookTakesOne(s, e); }
  }

  lemma {:induction false} RunRuns(s: State, es: seq<Event>, w: nat)
    requires Shape(s) && Executable(s, es) && w < |s.workers|
    ensures Running(s, w) + DeliveredTo(Deliveries(s, es), w) == Running(After(s, es), w) + Finished(es, w)
    decreases |es|
  {
    if es != [] {
      StepRuns(s, es[0], w);
      FirstDelivery(s, es, w, Rq(0));
      RunRuns(Step(s, es[0]), es[1..], w);
    }
  }

  /** A worker runs what it was handed, one task after the other: it has finished every task it was handed
      but the one it is running. */
  lemma OneTaskAtATime(s: State, es: seq<Event>, w: nat)
    requires Init(s) && Executable(s, es) && w < |s.workers|
    ensures Shape(s)
    ensures DeliveredTo(Deliveries(s, es), w) == Finished(es, w) + Running(After(s, es), w)
  {
    InitInv(s);
    RunRuns(s, es, w);
    assert StartOk(s.workers[w]);
  }

  // ---------- the order of a queue ----------

  function AllPushedTo(es: seq<Event>, q: Queue): seq<Task> {
    if es == [] then [] else PushedTo(es[0], q) + AllPushedTo(es[1..], q)
  }

  /** What a look at queue `from` does to the remote queue of group `g`. */
  lemma RemoteLook(s: State, e: Event, g: nat)
    requires Shape(s) && Enabled(s, e) && Looked(s, e).Some? && g < |s.workers|
    ensures Remote(g) in s.queues && Remote(g) in Step(s, e).queues
    ensures s.queues[Remote(g)] ==
            (if Looked(s, e) == Some(Remote(g)) then TaskOf(Handed(s, e)) else []) + Step(s, e).queues[Remote(g)]
  {
    LookTakesOne(s, e);
  }

  lemma RemoteStep(s: State, e: Event, g: nat)
    requires Shape(s) && Enabled(s, e) && g < |s.workers|
    ensures Remote(g) in s.queues && Remote(g) in Step(s, e).queues
    ensures s.queues[Remote(g)] + PushedTo(e, Remote(g)) ==
            DeliveredFrom(Delivered(s, e), Remote(g)) + Step(s, e).queues[Remote(g)]
  {
    OneDelivered(s, e, 0, Remote(g));
    if Looked(s, e).Some? {
      RemoteLook(s, e, g);
      assert PushedTo(e, Remote(g)) == [];
    } else {
      OthersKeepQueues(s, e, Remote(g));
    }
  }

  lemma {:induction false} RemoteRun(s: State, es: seq<Event>, g: nat)
    requires Shape(s) && Executable(s, es) && g < |s.workers|
    ensures Remote(g) in s.queues && Remote(g) in After(s, es).queues
    ensures s.queues[Remote(g)] + AllPushedTo(es, Remote(g)) ==
            DeliveredFrom(Deliveries(s, es), Remote(g)) + After(s, es).queues[Remote(g)]
    decreases |es|
  {
    if es != [] {
      var q, s1 := Remote(g), Step(s, es[0]);
      RemoteStep(s, es[0], g);
      FirstDelivery(s, es, 0, q);
      RemoteRun(s1, es[1..], g);
      AppendMiddle(s.queues[q], PushedTo(es[0], q), AllPushedTo(es[1..], q),
                   DeliveredFrom(Delivered(s, es[0]), q), s1.queues[q],
                   DeliveredFrom(Deliveries(s1, es[1..]), q), After(s, es).queues[q]);
    }
  }

  lemma AppendMiddle<T>(q: seq<T>, p: seq<T>, p': seq<T>, d: seq<T>, q1: seq<T>, d': seq<T>, q2: seq<T>)
    requires q + p == d + q1 && q1 + p' == d' + q2
    ensures q + (p + p') == (d + d') + q2
  {
    assert q + (p + p') == (q + p) + p';
    assert (d + q1) + p' == d + (q1 + p');
    assert d + (d' + q2) == (d + d') + q2;
  }

  /** A remote queue is first in, first out along every run, whoever takes from it. */
  lemma RemoteIsFifo(s: State, es: seq<Event>, g: nat)
    requires Init(s) && Executable(s, es) && g < |s.workers|
    ensures Shape(s) && Remote(g) in After(s, es).queues
    ensures AllPushedTo(es, Remote(g)) ==
            DeliveredFrom(Deliveries(s, es), Remote(g)) + After(s, es).queues[Remote(g)]
  {
    InitInv(s);
    RemoteRun(s, es, g);
  }

  // ---------- blocking and signalling ----------

  /** Event `e` increases the counter of the lot of worker `w`. */
  predicate Signals(s: State, e: Event, w: nat) {
    && e.Bump? && e.c in s.calls && w < |s.workers|
    && LotAt(s.calls[e.c], s.calls[e.c].tried) == s.workers[w].lot
  }

  /** How often the lot of worker `w` was signalled since `w` saved its state last, if that was `n` times
      before the run. */
  ghost function SinceSave(s: State, es: seq<Event>, w: nat, n: nat): nat
    requires Executable(s, es)
    decreases |es|
  {
    if es == [] then n else
      SinceSave(Step(s, es[0]), es[1..], w,
                if es[0] == SaveState(w) then 0 else if Signals(s, es[0], w) then n + 1 else n)
  }

  function Unseen(s: State, w: nat): int
    requires w < |s.workers| && s.workers[w].lot < |s.lots|
  {
    s.lots[s.workers[w].lot] - s.workers[w].saved
  }

  lemma WorkerSees(s: State, e: Event, w: nat)
    requires Shape(s) && Enabled(s, e) && w < |s.workers| && WorkerEvent(e)
    requires |Step(s, e).workers| == |s.workers| && WorkerOk(s, w) && WorkerOk(Step(s, e), w)
    ensures Unseen(Step(s, e), w) == if e == SaveState(w) then 0 else Unseen(s, w)
  {
    WorkerEventShape(s, e, w, Rq(0));
  }

  lemma OthersSee(s: State, e: Event, w: nat)
    requires Shape(s) && Enabled(s, e) && w < |s.workers| && !WorkerEvent(e)
    requires |Step(s, e).workers| == |s.workers| && WorkerOk(s, w) && WorkerOk(Step(s, e), w)
    ensures Unseen(Step(s, e), w) == Unseen(s, w) + if Signals(s, e, w) then 1 else 0
  {}

  lemma {:induction false} SavedCountsSignals(s: State, es: seq<Event>, w: nat, n: nat)
    requires Shape(s) && Executable(s, es) && w < |s.workers| && WorkerOk(s, w) && Unseen(s, w) == n
    ensures w < |After(s, es).workers| && WorkerOk(After(s, es), w)
    ensures Unseen(After(s, es), w) == SinceSave(s, es, w, n)
    decreases |es|
  {
    if es != [] {
      var e, s1 := es[0], Step(s, es[0]);
      ShapeStep(s, e);
      assert WorkerOk(s1, w);
      if WorkerEvent(e) { WorkerSees(s, e, w); } else { OthersSee(s, e, w); }
      SavedCountsSignals(s1, es[1..], w, Unseen(s1, w));
    }
  }

  lemma BlocksIfDivides(s: State, w: nat)
    requires w < |s.workers| && WorkerOk(s, w) && Enabled(s, EnterWait(w))
    ensures Step(s, EnterWait(w)).workers[w].pc == if Divides(SIGNAL_MODULUS, Unseen(s, w)) then Blocked else PopRemote
  {
    SameModDivides(SIGNAL_MODULUS, s.workers[w].saved, s.lots[s.workers[w].lot]);
  }

  /** In every run a worker that enters its wait blocks exactly if the signals to its lot since it saved
      the state are a multiple of the number after which the counter repeats, as when there were none. */
  lemma BlocksIffUnsignalled(s: State, es: seq<Event>, w: nat)
    requires Init(s) && Executable(s, es) && Enabled(After(s, es), EnterWait(w))
    ensures Step(After(s, es), EnterWait(w)).workers[w].pc ==
            if Divides(SIGNAL_MODULUS, SinceSave(s, es, w, 0)) then Blocked else PopRemote
  {
    InitInv(s);
    WorkersStay(s, es);
    assert WorkerOk(s, w) && StartOk(s.workers[w]);
    SavedCountsSignals(s, es, w, 0);
    BlocksIfDivides(After(s, es), w);
  }

  lemma {:induction false} WorkersStay(s: State, es: seq<Event>)
    requires Shape(s) && Executable(s, es)
    ensures |After(s, es).workers| == |s.workers|
    decreases |es|
  {
    if es != [] {
      ShapeStep(s, es[0]);
      WorkersStay(Step(s, es[0]), es[1..]);
    }
  }

  predicate Starts(e: Event, c: nat) {
    (e.PushSignal? || e.Flush?) && e.c == c
  }

  function Woken(es: seq<Event>, c: nat): nat {
    if es == [] then 0 else (if es[0].WakeOne? && es[0].c == c then 1 else 0) + Woken(es[1..], c)
  }

  /** The lots in which call `c` found nobody. */
  function Missed(es: seq<Event>, c: nat): nat {
    if es == [] then 0 else (if es[0] == WakeNone(c) then 1 else 0) + Missed(es[1..], c)
  }

  lemma CallStep(s: State, e: Event, c: nat)
    requires Shape(s) && Enabled(s, e) && !Starts(e, c) && c in s.calls
    ensures var s' := Step(s, e);
            var hit, miss := Woken([e], c), Missed([e], c);
            && s.calls[c].left >= hit
            && (c in s'.calls <==> s.calls[c].left > hit && s.calls[c].tried + hit + miss < PARKING_LOT_NUM)
            && (c in s'.calls ==>
                  && s'.calls[c].start == s.calls[c].start && s'.calls[c].left == s.calls[c].left - hit
                  && s'.calls[c].tried == s.calls[c].tried + hit + miss)
  {
    assert CallOk(s.calls[c]);
    if WorkerEvent(e) { WorkerEventShape(s, e, 0, Rq(0)); }
  }

  /** A call that signals `n` pushes wants to wake as many workers, but at most two. */
  lemma CallBegins(s: State, e: Event)
    requires Shape(s) && Enabled(s, e) && (e.PushSignal? || e.Flush?)
    ensures var n := s.quiet[e.q] + |Pushed(e)|;
            && e.c in Step(s, e).calls && Step(s, e).quiet[e.q] == 0
            && Step(s, e).calls[e.c] == Call(if n > 2 then 2 else n, e.start, 0, false)
  {}

  lemma CallGone(s: State, e: Event, c: nat)
    requires Shape(s) && Enabled(s, e) && !Starts(e, c) && c !in s.calls
    ensures c !in Step(s, e).calls && Woken([e], c) == 0 && Missed([e], c) == 0
  {}

  lemma {:induction false} GoneRun(s: State, es: seq<Event>, c: nat)
    requires Shape(s) && Executable(s, es) && (forall e :: e in es ==> !Starts(e, c)) && c !in s.calls
    ensures c !in After(s, es).calls && Woken(es, c) == 0 && Missed(es, c) == 0
    decreases |es|
  {
    if es != [] {
      CallGone(s, es[0], c);
      ShapeStep(s, es[0]);
      GoneRun(Step(s, es[0]), es[1..], c);
    }
  }

  /** A signal_task call ends exactly when it woke as many workers as were wanted or went through all four
      lots, waking one worker of a lot unless nobody sleeps there. */
  lemma {:induction false} CallServes(s: State, es: seq<Event>, c: nat)
    requires Shape(s) && Executable(s, es) && (forall e :: e in es ==> !Starts(e, c)) && c in s.calls
    ensures Woken(es, c) <= s.calls[c].left && s.calls[c].tried + Woken(es, c) + Missed(es, c) <= PARKING_LOT_NUM
    ensures c !in After(s, es).calls <==>
            Woken(es, c) == s.calls[c].left || s.calls[c].tried + Woken(es, c) + Missed(es, c) == PARKING_LOT_NUM
    decreases |es|
  {
    assert CallOk(s.calls[c]);
    if es != [] {
      CallStep(s, es[0], c);
      ShapeStep(s, es[0]);
      if c in Step(s, es[0]).calls {
        CallServes(Step(s, es[0]), es[1..], c);
      } else {
        GoneRun(Step(s, es[0]), es[1..], c);
      }
    }
  }
}
