/** Socket::StartWrite, KeepWrite and IsWriteComplete on the success path: an exchange-based
    multi-producer queue whose write right is handed to one KeepWrite thread. */
module WriteQueue {
  import opened Wrappers

  type Byte = x: int | 0 <= x < 256

  /** A WriteRequest; the thread that called StartWrite with it, and the KeepWrite thread it may
      spawn, go by the same name. */
  type Req = nat

  datatype Link = Unconnected | Null | To(r: Req)

  /** What the holder of the write right does next. `keep` tells KeepWrite from StartWrite; `h`, `j`,
      `x` and `i` are history: positions in the exchange order. */
  datatype Stage =
    | AtClearNext
    | AtFirstSetup
    | AtFirstWrite
    | AtCas(oldHead: Req, singular: bool, keep: bool)
    | AtReverse(oldHead: Req, newHead: Req, p: Req, tail: Link, keep: bool, h: nat, j: nat)
    | AtJoin(oldHead: Req, newHead: Req, tail: Link, keep: bool, h: nat)
    | AtSetup(q: Link, newHead: Req, keep: bool, x: nat)
    | AtHandoff
    | AtSkip
    | AtWrite
    | AtRelease
    | AtFindTail(cur: Req, i: nat)

  /** `Own` has the write right; `req` and `curTail` are its local variables. */
  datatype Pc =
    | Linking(prev: Req)
    | Own(stage: Stage, req: Req, curTail: Option<Req>)
    | Returning(req: Req)
    | Done

  /** `order` is the order of the exchanges on `head`, `setups` and `returned` the calls made so far;
      `base` and `mid` delimit the requests of `order` that the owner has linked forward; `owner`
      names the thread in an Own state, `returner` the thread whose compare-and-swap completed a request. */
  datatype State = State(
    head: Option<Req>,
    data: map<Req, seq<Byte>>,
    left: map<Req, seq<Byte>>,
    next: map<Req, Link>,
    pcs: map<Req, Pc>,
    order: seq<Req>,
    written: seq<Byte>,
    setups: seq<Req>,
    returned: seq<Req>,
    base: nat,
    mid: nat,
    owner: Option<Req>,
    returner: map<Req, Req>)

  /** Every event but the first names its thread. FirstSetup also says whether the caller leaves the
      first write to KeepWrite; the two writes say how many bytes the kernel accepted. */
  datatype Event =
    | Exchange(r: Req, bytes: seq<Byte>)
    | StoreLink(t: Req)
    | ClearNext(t: Req)
    | FirstSetup(t: Req, background: bool)
    | FirstWrite(t: Req, n: nat)
    | Cas(t: Req)
    | Reverse(t: Req)
    | Join(t: Req)
    | Setup(t: Req)
    | Handoff(t: Req)
    | Skip(t: Req)
    | Write(t: Req, n: nat)
    | Release(t: Req)
    | FindTail(t: Req)
    | Return(t: Req)

  function Get(m: map<Req, seq<Byte>>, r: Req): seq<Byte> {
    if r in m then m[r] else []
  }

  function Concat(m: map<Req, seq<Byte>>, rs: seq<Req>): seq<Byte> {
    if rs == [] then [] else Get(m, rs[0]) + Concat(m, rs[1..])
  }

  /** Cutting `n` bytes off the front of a chain. */
  function Consume(left: map<Req, seq<Byte>>, chain: seq<Req>, n: nat): map<Req, seq<Byte>> {
    if chain == [] || chain[0] !in left then left
    else
      var have := left[chain[0]];
      if n <= |have| then left[chain[0] := have[n..]]
      else Consume(left[chain[0] := []], chain[1..], n - |have|)
  }

  /** The requests reachable from `r` through `next`, at most `fuel` of them. */
  function Follow(next: map<Req, Link>, r: Req, fuel: nat): seq<Req>
    decreases fuel
  {
    if fuel == 0 then []
    else if r in next && next[r].To? then [r] + Follow(next, next[r].r, fuel - 1)
    else [r]
  }

  function SetPc(s: State, t: Req, pc: Pc): State {
    s.(pcs := s.pcs[t := pc])
  }

  // ---------- producers ----------

  predicate CanExchange(s: State, r: Req) {
    r !in s.pcs && r !in s.data
  }

  /** `_write_head.exchange(req)`. */
  function StepExchange(s: State, r: Req, bytes: seq<Byte>): State {
    var s1 := s.(data := s.data[r := bytes], left := s.left[r := bytes], next := s.next[r := Unconnected],
                 head := Some(r), order := s.order + [r]);
    if s.head.Some? then SetPc(s1, r, Linking(s.head.value))
    else SetPc(s1.(owner := Some(r), mid := s.mid + 1), r, Own(AtClearNext, r, None))
  }

  predicate CanStoreLink(s: State, t: Req) {
    t in s.pcs && s.pcs[t].Linking? && t in s.next
  }

  function StepStoreLink(s: State, t: Req): State
    requires CanStoreLink(s, t)
  {
    SetPc(s.(next := s.next[t := To(s.pcs[t].prev)]), t, Done)
  }

  predicate CanReturn(s: State, t: Req) {
    t in s.pcs && s.pcs[t].Returning?
  }

  function StepReturn(s: State, t: Req): State
    requires CanReturn(s, t)
  {
    SetPc(s.(returned := s.returned + [s.pcs[t].req]), t, Done)
  }

  // ---------- the owner ----------

  predicate Known(s: State, r: Req) {
    r in s.data && r in s.left && r in s.next
  }

  predicate Holds(s: State, t: Req) {
    t in s.pcs && s.pcs[t].Own? && Known(s, s.pcs[t].req)
  }

  /** The owner goes on at `stage` with the same local variables. */
  function Go(s: State, t: Req, stage: Stage): State
    requires Holds(s, t)
  {
    SetPc(s, t, s.pcs[t].(stage := stage))
  }

  predicate CanClearNext(s: State, t: Req) {
    Holds(s, t) && s.pcs[t].stage.AtClearNext?
  }

  function StepClearNext(s: State, t: Req): State
    requires CanClearNext(s, t)
  {
    Go(s, t, AtFirstSetup).(next := s.next[s.pcs[t].req := Null])
  }

  predicate CanFirstSetup(s: State, t: Req) {
    Holds(s, t) && s.pcs[t].stage.AtFirstSetup?
  }

  function StepFirstSetup(s: State, t: Req, background: bool): State
    requires CanFirstSetup(s, t)
  {
    Go(s, t, if background then AtHandoff else AtFirstWrite).(setups := s.setups + [s.pcs[t].req])
  }

  predicate CanFirstWrite(s: State, t: Req, n: nat) {
    Holds(s, t) && s.pcs[t].stage.AtFirstWrite? && n <= |s.left[s.pcs[t].req]|
  }

  function StepFirstWrite(s: State, t: Req, n: nat): State
    requires CanFirstWrite(s, t, n)
  {
    var req := s.pcs[t].req;
    Go(s, t, AtCas(req, true, false)).(written := s.written + s.left[req][..n],
                                       left := s.left[req := s.left[req][n..]])
  }

  predicate CanCas(s: State, t: Req) {
    Holds(s, t) && s.pcs[t].stage.AtCas? && Known(s, s.pcs[t].stage.oldHead) && s.head.Some?
  }

  /** IsWriteComplete returned false: StartWrite hands over, KeepWrite goes round with its new tail. */
  function Incomplete(s: State, t: Req, tail: Req, keep: bool): State
    requires Holds(s, t)
  {
    SetPc(s, t, if keep then Own(AtSkip, s.pcs[t].req, Some(tail)) else Own(AtHandoff, s.pcs[t].req, None))
  }

  /** compare_exchange_strong(new_head, desired). */
  function StepCas(s: State, t: Req): State
    requires CanCas(s, t)
  {
    var AtCas(oldHead, singular, keep) := s.pcs[t].stage;
    if s.head == Some(oldHead) then
      if s.left[oldHead] == [] && singular then
        SetPc(s.(head := None, owner := None, base := s.mid, returner := s.returner[s.pcs[t].req := t]),
              t, Returning(s.pcs[t].req))
      else Incomplete(s, t, oldHead, keep)
    else
      var newHead := s.head.value;
      var last := if s.order == [] then 0 else |s.order| - 1;
      Go(s, t, AtReverse(oldHead, newHead, newHead, Null, keep, last, last))
  }

  /** The loop spins until `p` has been linked. */
  predicate CanReverse(s: State, t: Req) {
    Holds(s, t) && s.pcs[t].stage.AtReverse? && s.pcs[t].stage.p in s.next && s.next[s.pcs[t].stage.p].To?
  }

  /** One iteration of the reversal loop. */
  function StepReverse(s: State, t: Req): State
    requires CanReverse(s, t)
  {
    var AtReverse(oldHead, newHead, p, tail, keep, h, j) := s.pcs[t].stage;
    var saved := s.next[p].r;
    Go(s, t, if saved == oldHead then AtJoin(oldHead, newHead, To(p), keep, h)
             else AtReverse(oldHead, newHead, saved, To(p), keep, h, if j > 0 then j - 1 else 0))
      .(next := s.next[p := tail])
  }

  predicate CanJoin(s: State, t: Req) {
    Holds(s, t) && s.pcs[t].stage.AtJoin? && s.pcs[t].stage.oldHead in s.next
  }

  /** `old_head->next = tail`. */
  function StepJoin(s: State, t: Req): State
    requires CanJoin(s, t)
  {
    var AtJoin(oldHead, newHead, tail, keep, h) := s.pcs[t].stage;
    Go(s, t, AtSetup(tail, newHead, keep, s.mid)).(next := s.next[oldHead := tail], mid := h + 1)
  }

  predicate CanSetup(s: State, t: Req) {
    && Holds(s, t) && s.pcs[t].stage.AtSetup?
    && (s.pcs[t].stage.q.Null? || (s.pcs[t].stage.q.To? && s.pcs[t].stage.q.r in s.next))
  }

  /** One test, and one call if it passes, of the Setup loop. */
  function StepSetup(s: State, t: Req): State
    requires CanSetup(s, t)
  {
    var AtSetup(q, newHead, keep, x) := s.pcs[t].stage;
    if q.Null? then Incomplete(s, t, newHead, keep)
    else Go(s, t, AtSetup(s.next[q.r], newHead, keep, x + 1)).(setups := s.setups + [q.r])
  }

  predicate CanHandoff(s: State, t: Req) {
    Holds(s, t) && s.pcs[t].stage.AtHandoff?
  }

  /** KeepWrite starts with cur_tail NULL. */
  function StepHandoff(s: State, t: Req): State
    requires CanHandoff(s, t)
  {
    SetPc(s, t, Own(AtSkip, s.pcs[t].req, None))
  }

  /** req->next != NULL && req->data.empty(). */
  predicate FirstDone(s: State, t: Req)
    requires Holds(s, t)
  {
    s.next[s.pcs[t].req].To? && s.left[s.pcs[t].req] == []
  }

  /** req = req->next and ReturnSuccessfulWriteRequest(saved_req). */
  function DropFirst(s: State, t: Req, stage: Stage): State
    requires Holds(s, t) && FirstDone(s, t)
  {
    var pc := s.pcs[t];
    SetPc(s.(returned := s.returned + [pc.req], base := s.base + 1), t, Own(stage, s.next[pc.req].r, pc.curTail))
  }

  predicate CanSkip(s: State, t: Req) {
    Holds(s, t) && s.pcs[t].stage.AtSkip?
  }

  /** At most one request is skipped before DoWrite. */
  function StepSkip(s: State, t: Req): State
    requires CanSkip(s, t)
  {
    if FirstDone(s, t) then DropFirst(s, t, AtWrite) else Go(s, t, AtWrite)
  }

  predicate CanWrite(s: State, t: Req, n: nat) {
    && Holds(s, t) && s.pcs[t].stage.AtWrite?
    && n <= |Concat(s.left, Follow(s.next, s.pcs[t].req, |s.order|))|
  }

  /** DoWrite(req) writes any number of bytes of the chain that starts at req. */
  function StepWrite(s: State, t: Req, n: nat): State
    requires CanWrite(s, t, n)
  {
    var chain := Follow(s.next, s.pcs[t].req, |s.order|);
    Go(s, t, AtRelease).(written := s.written + Concat(s.left, chain)[..n], left := Consume(s.left, chain, n))
  }

  predicate CanRelease(s: State, t: Req) {
    Holds(s, t) && s.pcs[t].stage.AtRelease?
  }

  /** One test of the release loop; after its last, cur_tail is used if it is known. */
  function StepRelease(s: State, t: Req): State
    requires CanRelease(s, t)
  {
    var Own(_, req, curTail) := s.pcs[t];
    if FirstDone(s, t) then DropFirst(s, t, AtRelease)
    else if curTail.Some? then Go(s, t, AtCas(curTail.value, req == curTail.value, true))
    else Go(s, t, AtFindTail(req, s.base))
  }

  predicate CanFindTail(s: State, t: Req) {
    && Holds(s, t) && s.pcs[t].stage.AtFindTail?
    && s.pcs[t].stage.cur in s.next && !s.next[s.pcs[t].stage.cur].Unconnected?
  }

  /** One step of the walk that finds cur_tail. */
  function StepFindTail(s: State, t: Req): State
    requires CanFindTail(s, t)
  {
    var AtFindTail(cur, i) := s.pcs[t].stage;
    var req := s.pcs[t].req;
    if s.next[cur].To? then Go(s, t, AtFindTail(s.next[cur].r, i + 1))
    else SetPc(s, t, Own(AtCas(cur, req == cur, true), req, Some(cur)))
  }

  // ---------- runs ----------

  predicate Enabled(s: State, e: Event) {
    match e
    case Exchange(r, bytes) => CanExchange(s, r)
    case StoreLink(t) => CanStoreLink(s, t)
    case ClearNext(t) => CanClearNext(s, t)
    case FirstSetup(t, background) => CanFirstSetup(s, t)
    case FirstWrite(t, n) => CanFirstWrite(s, t, n)
    case Cas(t) => CanCas(s, t)
    case Reverse(t) => CanReverse(s, t)
    case Join(t) => CanJoin(s, t)
    case Setup(t) => CanSetup(s, t)
    case Handoff(t) => CanHandoff(s, t)
    case Skip(t) => CanSkip(s, t)
    case Write(t, n) => CanWrite(s, t, n)
    case Release(t) => CanRelease(s, t)
    case FindTail(t) => CanFindTail(s, t)
    case Return(t) => CanReturn(s, t)
  }

  function Step(s: State, e: Event): State
    requires Enabled(s, e)
  {
    match e
    case Exchange(r, bytes) => StepExchange(s, r, bytes)
    case StoreLink(t) => StepStoreLink(s, t)
    case ClearNext(t) => StepClearNext(s, t)
    case FirstSetup(t, background) => StepFirstSetup(s, t, background)
    case FirstWrite(t, n) => StepFirstWrite(s, t, n)
    case Cas(t) => StepCas(s, t)
    case Reverse(t) => StepReverse(s, t)
    case Join(t) => StepJoin(s, t)
    case Setup(t) => StepSetup(s, t)
    case Handoff(t) => StepHandoff(s, t)
    case Skip(t) => StepSkip(s, t)
    case Write(t, n) => StepWrite(s, t, n)
    case Release(t) => StepRelease(s, t)
    case FindTail(t) => StepFindTail(s, t)
    case Return(t) => StepReturn(s, t)
  }

  predicate Executable(s: State, es: seq<Event>)
    decreases |es|
  {
    es != [] ==> Enabled(s, es[0]) && Executable(Step(s, es[0]), es[1..])
  }

  function After(s: State, es: seq<Event>): State
    requires Executable(s, es)
    decreases |es|
  {
    if es == [] then s else After(Step(s, es[0]), es[1..])
  }

  function Init(): State {
    State(None, map[], map[], map[], map[], [], [], [], [], 0, 0, None, map[])
  }
}
