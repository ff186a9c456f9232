/**
 * Asynchronous requests: a slot shared by its worker thread and the calls that hold the global lock.
 * The worker's flag load and outcome write are steps of their own, and so are a take and what follows it.
 */
module AsyncRequests {
  import opened Xids
  import opened IdAllocator

  datatype QueryResult = Rows(data: Bytes) | Fault(text: string)

  datatype Outcome = Pending | Ready(result: QueryResult) | Cancelled | Consumed

  datatype Worker =
    | Running
    | Computed(result: QueryResult)
    | Loaded(result: QueryResult, flag: bool)
    | Written(result: QueryResult, flag: bool)

  datatype Slot = Slot(conn: U32, cancelled: bool, outcome: Outcome, worker: Worker)

  const CANCELLED_TEXT := "Async request cancelled"
  const CONSUMED_TEXT := "Async request result already consumed"

  function NewSlot(conn: U32): (s: Slot) { Slot(conn, false, Pending, Running) }

  function CancelSlot(s: Slot): (r: Slot) {
    s.(cancelled := true, outcome := if s.outcome.Pending? then Cancelled else s.outcome)
  }

  /** A pending slot is left alone; any other answers once and is then consumed. */
  function TakeSlot(s: Slot): (r: (Slot, Option<QueryResult>)) {
    match s.outcome
    case Pending => (s, None)
    case Ready(result) => (s.(outcome := Consumed), Some(result))
    case Cancelled => (s.(outcome := Consumed), Some(Fault(CANCELLED_TEXT)))
    case Consumed => (s, Some(Fault(CONSUMED_TEXT)))
  }

  /** The status code that fetching into a buffer of this size would answer. */
  function GetCode(s: Slot, buf: nat): (code: int) {
    match TakeSlot(s).1
    case Some(Rows(data)) => if |data| > buf then -2 else 0
    case _ => -1
  }

  function RestoreSlot(s: Slot, result: QueryResult): (r: Slot) { s.(outcome := Ready(result)) }

  // ---------------------------------------------------------------------
  // The manager over a run
  // ---------------------------------------------------------------------

  /** A call between its take and its answer, still holding the global lock. */
  datatype Hand = Hand(serial: nat, result: QueryResult, buf: nat)

  datatype Delivery = Delivery(serial: nat, data: Bytes)

  /** Slots are numbered as they are made: a worker keeps its own after the request is freed. */
  datatype Manager = Manager(
    next: U32,
    requests: map<U32, nat>,
    slots: seq<Slot>,
    hand: Option<Hand>,
    delivered: seq<Delivery>)

  function Init(): (m: Manager) { Manager(1, map[], [], None, []) }

  datatype Event =
    | Start(conn: U32, spawned: bool)
    | Compute(serial: nat, result: QueryResult)
    | Load(serial: nat)
    | Write(serial: nat)
    | Cancel(id: U32)
    | Take(id: U32, buf: nat)
    | Settle
    | Free(id: U32)
    | FreeConnection(conn: U32)

  function StartStep(m: Manager, conn: U32, spawned: bool): (r: Manager) {
    if |m.requests| >= MAX_ASYNC_REQUESTS then m
    else
      var (id, next) := Probe(m.next, m.requests.Keys, MAX_ID_ALLOC_ATTEMPTS);
      if id.None? || !spawned then m.(next := next) else Entered(m.(next := next), id.value, conn)
  }

  function Entered(m: Manager, id: U32, conn: U32): (r: Manager) {
    m.(requests := m.requests[id := |m.slots|], slots := m.slots + [NewSlot(conn)])
  }

  predicate Names(m: Manager, id: U32) { id in m.requests && m.requests[id] < |m.slots| }

  /** The three moves of a worker thread, in program order. */
  function WorkerStep(m: Manager, e: Event): (r: Manager)
    requires e.Compute? || e.Load? || e.Write?
  {
    if e.serial >= |m.slots| then m
    else
      var s := m.slots[e.serial];
      match e
      case Compute(i, result) =>
        if s.worker.Running? then m.(slots := m.slots[i := s.(worker := Computed(result))]) else m
      case Load(i) =>
        if s.worker.Computed? then m.(slots := m.slots[i := s.(worker := Loaded(s.worker.result, s.cancelled))]) else m
      case Write(i) =>
        if s.worker.Loaded? then m.(slots := m.slots[i := WriteSlot(s)]) else m
  }

  function WriteSlot(s: Slot): (r: Slot)
    requires s.worker.Loaded?
  {
    s.(worker := Written(s.worker.result, s.worker.flag),
       outcome := if s.worker.flag then Cancelled else Ready(s.worker.result))
  }

  function TakeStep(m: Manager, id: U32, buf: nat): (r: Manager) {
    if !Names(m, id) then m
    else
      var i := m.requests[id];
      var (s, result) := TakeSlot(m.slots[i]);
      m.(slots := m.slots[i := s], hand := if result.Some? then Some(Hand(i, result.value, buf)) else None)
  }

  /** Too small a buffer puts the payload back; a payload that fits, or an error, is answered. */
  function SettleStep(m: Manager): (r: Manager) {
    if m.hand.None? || m.hand.value.serial >= |m.slots| then m
    else
      var h := m.hand.value;
      if h.result.Fault? then m.(hand := None)
      else if |h.result.data| > h.buf then
        m.(hand := None, slots := m.slots[h.serial := RestoreSlot(m.slots[h.serial], h.result)])
      else m.(hand := None, delivered := m.delivered + [Delivery(h.serial, h.result.data)])
  }

  function FreeConnectionStep(m: Manager, conn: U32): (r: Manager) {
    m.(requests := map id | id in m.requests && !(Names(m, id) && m.slots[m.requests[id]].conn == conn)
                   :: m.requests[id])
  }

  /** While a call is between take and answer, the lock keeps every other call out; workers go on. */
  function Step(m: Manager, e: Event): (r: Manager) {
    if e.Compute? || e.Load? || e.Write? then WorkerStep(m, e)
    else if e.Settle? then SettleStep(m)
    else if m.hand.Some? then m
    else match e
      case Start(conn, spawned) => StartStep(m, conn, spawned)
      case Cancel(id) =>
        if Names(m, id) then m.(slots := m.slots[m.requests[id] := CancelSlot(m.slots[m.requests[id]])]) else m
      case Take(id, buf) => TakeStep(m, id, buf)
      case Free(id) => m.(requests := m.requests - {id})
      case FreeConnection(conn) => FreeConnectionStep(m, conn)
  }

  function Run(m: Manager, es: seq<Event>): (r: Manager)
    decreases |es|
  {
    if es == [] then m else Run(Step(m, es[0]), es[1..])
  }

  // ---------------------------------------------------------------------
  // Accounting for payloads
  // ---------------------------------------------------------------------

  /** How often a request's payload was returned with status 0. */
  function Count(ds: seq<Delivery>, i: nat): (n: nat) {
    if ds == [] then 0
    else Count(ds[..|ds| - 1], i) + if ds[|ds| - 1].serial == i then 1 else 0
  }

  /** The worker wrote a payload, having seen no cancel. */
  predicate Paid(s: Slot) { s.worker.Written? && !s.worker.flag && s.worker.result.Rows? }

  function InSlot(s: Slot): (n: nat) { if s.outcome.Ready? && s.outcome.result.Rows? then 1 else 0 }

  function InHand(h: Option<Hand>, i: nat): (n: nat) {
    if h.Some? && h.value.serial == i && h.value.result.Rows? then 1 else 0
  }

  /** A payload that exists is in exactly one place: with the caller, in its slot or in a call's hand. */
  predicate Balanced(m: Manager, i: nat)
    requires i < |m.slots|
  {
    Count(m.delivered, i) + InSlot(m.slots[i]) + InHand(m.hand, i) == if Paid(m.slots[i]) then 1 else 0
  }

  /** Wherever it is, it is the worker's result. */
  predicate SlotOk(s: Slot) {
    && (s.outcome.Ready? ==> s.worker == Written(s.outcome.result, false))
    && (s.worker.Loaded? && s.worker.flag ==> s.cancelled)
    && (s.worker.Written? && s.worker.flag ==> s.cancelled)
  }

  predicate HandOk(m: Manager) {
    m.hand.Some? ==>
      && m.hand.value.serial < |m.slots|
      && (m.hand.value.result.Rows? ==>
            m.slots[m.hand.value.serial].worker == Written(m.hand.value.result, false)
            && m.slots[m.hand.value.serial].outcome.Consumed?)
  }

  predicate DeliveriesOk(m: Manager) {
    forall k :: 0 <= k < |m.delivered| ==>
      && m.delivered[k].serial < |m.slots|
      && m.slots[m.delivered[k].serial].worker == Written(Rows(m.delivered[k].data), false)
  }

  predicate SlotsOk(m: Manager) { forall i :: 0 <= i < |m.slots| ==> SlotOk(m.slots[i]) && Balanced(m, i) }

  predicate IdsOk(m: Manager) {
    && 0 !in m.requests && |m.requests| <= MAX_ASYNC_REQUESTS
    && (forall id :: id in m.requests ==> m.requests[id] < |m.slots|)
    && (forall a, b :: a in m.requests && b in m.requests && m.requests[a] == m.requests[b] ==> a == b)
  }

  predicate Inv(m: Manager) { SlotsOk(m) && HandOk(m) && DeliveriesOk(m) }

  lemma CountNone(ds: seq<Delivery>, i: nat)
    requires forall k :: 0 <= k < |ds| ==> ds[k].serial != i
    ensures Count(ds, i) == 0
  {
  }

  lemma StartInv(m: Manager, conn: U32, spawned: bool)
    requires Inv(m)
    ensures Inv(StartStep(m, conn, spawned))
  {
    var m' := StartStep(m, conn, spawned);
    if m'.slots != m.slots {
      CountNone(m.delivered, |m.slots|);
      forall i | 0 <= i < |m'.slots|
        ensures SlotOk(m'.slots[i]) && Balanced(m', i)
      {
        assert i < |m.slots| ==> Balanced(m, i);
      }
    }
  }

  lemma WorkerInv(m: Manager, e: Event)
    requires Inv(m) && (e.Compute? || e.Load? || e.Write?)
    ensures Inv(WorkerStep(m, e))
  {
    var m' := WorkerStep(m, e);
    if m' != m {
      assert SlotOk(m.slots[e.serial]) && Balanced(m, e.serial);
      forall i | 0 <= i < |m'.slots|
        ensures SlotOk(m'.slots[i]) && Balanced(m', i)
      {
        assert Balanced(m, i);
      }
    }
  }

  lemma CancelInv(m: Manager, id: U32)
    requires Inv(m) && m.hand.None? && Names(m, id)
    ensures Inv(m.(slots := m.slots[m.requests[id] := CancelSlot(m.slots[m.requests[id]])]))
  {
  }

  lemma TakeInv(m: Manager, id: U32, buf: nat)
    requires Inv(m) && m.hand.None?
    ensures Inv(TakeStep(m, id, buf))
  {
  }

  lemma SettleDelivers(m: Manager)
    requires Inv(m) && m.hand.Some? && m.hand.value.result.Rows? && |m.hand.value.result.data| <= m.hand.value.buf
    ensures SlotsOk(SettleStep(m))
  {
  }

  lemma SettleRestores(m: Manager)
    requires Inv(m) && m.hand.Some? && m.hand.value.result.Rows? && |m.hand.value.result.data| > m.hand.value.buf
    ensures SlotsOk(SettleStep(m))
  {
  }

  lemma SettleRefuses(m: Manager)
    requires Inv(m) && m.hand.Some? && m.hand.value.result.Fault?
    ensures SlotsOk(SettleStep(m))
  {
  }

  lemma SettleInv(m: Manager)
    requires Inv(m)
    ensures Inv(SettleStep(m))
  {
    if m.hand.Some? {
      if m.hand.value.result.Fault? {
        SettleRefuses(m);
      } else if |m.hand.value.result.data| > m.hand.value.buf {
        SettleRestores(m);
      } else {
        SettleDelivers(m);
      }
    }
  }

  lemma StepInv(m: Manager, e: Event)
    requires Inv(m)
    ensures Inv(Step(m, e))
  {
    if e.Compute? || e.Load? || e.Write? {
      WorkerInv(m, e);
    } else if e.Settle? {
      SettleInv(m);
    } else if m.hand.None? {
      if e.Start? {
        StartInv(m, e.conn, e.spawned);
      } else if e.Take? {
        TakeInv(m, e.id, e.buf);
      } else if e.Cancel? && Names(m, e.id) {
        CancelInv(m, e.id);
      } else {
        var m' := Step(m, e);
        assert m'.slots == m.slots && m'.hand == m.hand && m'.delivered == m.delivered;
        forall i | 0 <= i < |m'.slots|
          ensures SlotOk(m'.slots[i]) && Balanced(m', i)
        {
          assert Balanced(m, i);
        }
      }
    }
  }

  lemma {:induction false} InvRun(m: Manager, es: seq<Event>)
    requires Inv(m)
    ensures Inv(Run(m, es))
    decreases |es|
  {
    if es != [] {
      StepInv(m, es[0]);
      InvRun(Step(m, es[0]), es[1..]);
    }
  }

  /**
   * Under every interleaving each request's payload is returned with status 0 at most once, it is the
   * worker's result, and until then a payload written without a cancel is still there to be taken.
   */
  lemma DeliveredOnce(es: seq<Event>, i: nat)
    requires i < |Run(Init(), es).slots|
    ensures var m := Run(Init(), es);
            && Count(m.delivered, i) <= 1
            && (forall k :: 0 <= k < |m.delivered| && m.delivered[k].serial == i ==>
                  m.slots[i].worker == Written(Rows(m.delivered[k].data), false))
            && (Paid(m.slots[i]) && Count(m.delivered, i) == 0 && m.hand.None? ==>
                  m.slots[i].outcome == Ready(m.slots[i].worker.result))
  {
    InvRun(Init(), es);
    assert Balanced(Run(Init(), es), i);
  }

  // ---------------------------------------------------------------------
  // Cancellation
  // ---------------------------------------------------------------------

  /** A request whose cancel came before the worker read the flag. */
  predicate Doomed(s: Slot) {
    && s.cancelled && !Paid(s)
    && (s.worker.Loaded? || s.worker.Written? ==> s.worker.flag)
  }

  lemma DoomedStep(m: Manager, e: Event, i: nat)
    requires i < |m.slots| && Doomed(m.slots[i])
    ensures i < |Step(m, e).slots| && Doomed(Step(m, e).slots[i])
  {
    if e.Compute? || e.Load? || e.Write? {
      DoomedWorker(m, e, i);
    }
  }

  lemma DoomedWorker(m: Manager, e: Event, i: nat)
    requires i < |m.slots| && Doomed(m.slots[i]) && (e.Compute? || e.Load? || e.Write?)
    ensures i < |WorkerStep(m, e).slots| && Doomed(WorkerStep(m, e).slots[i])
  {
  }

  lemma {:induction false} DoomedRun(m: Manager, es: seq<Event>, i: nat)
    requires i < |m.slots| && Doomed(m.slots[i])
    ensures i < |Run(m, es).slots| && Doomed(Run(m, es).slots[i])
    decreases |es|
  {
    if es != [] {
      DoomedStep(m, es[0], i);
      DoomedRun(Step(m, es[0]), es[1..], i);
    }
  }

  /** If the cancel precedes the worker's flag load, no payload is ever returned, before or after. */
  lemma CancelBeforeLoad(before: seq<Event>, id: U32, after: seq<Event>)
    requires var m := Run(Init(), before);
             && Names(m, id) && m.hand.None?
             && (m.slots[m.requests[id]].worker.Running? || m.slots[m.requests[id]].worker.Computed?)
    ensures var m := Run(Init(), before);
            Count(Run(Step(m, Cancel(id)), after).delivered, m.requests[id]) == 0
  {
    var m := Run(Init(), before);
    var i := m.requests[id];
    InvRun(Init(), before);
    StepInv(m, Cancel(id));
    InvRun(Step(m, Cancel(id)), after);
    DoomedRun(Step(m, Cancel(id)), after, i);
    assert Balanced(Run(Step(m, Cancel(id)), after), i);
  }

  /**
   * A cancel that comes after the load loses: whatever the slot says meanwhile, even cancelled or
   * consumed, the worker's write replaces it and the next take yields the payload.
   */
  lemma CancelAfterLoad(m: Manager, id: U32, result: QueryResult)
    requires Names(m, id) && m.hand.None? && m.slots[m.requests[id]].worker == Loaded(result, false)
    ensures var c := Step(m, Cancel(id));
            var w := Step(c, Write(m.requests[id]));
            && c.slots[m.requests[id]].cancelled
            && w.slots[m.requests[id]].outcome == Ready(result)
            && forall buf: nat :: Step(w, Take(id, buf)).hand == Some(Hand(m.requests[id], result, buf))
  {
  }

  /** A start makes a request that is pending and not cancelled, under an id of its own, exactly when a
      thread could be had and fewer than 64 are live; no other request changes. */
  lemma StartMakes(m: Manager, conn: U32, spawned: bool)
    requires m.hand.None?
    ensures var m' := Step(m, Start(conn, spawned));
            if spawned && |m.requests| < MAX_ASYNC_REQUESTS
            then exists id: U32 :: && id != 0 && id !in m.requests && m'.requests == m.requests[id := |m.slots|]
                              && m'.slots == m.slots + [Slot(conn, false, Pending, Running)]
            else m'.requests == m.requests && m'.slots == m.slots
  {
    assert |m.requests.Keys| == |m.requests|;
    if spawned && |m.requests| < MAX_ASYNC_REQUESTS {
      ProbeSucceedsBelow(m.next, m.requests.Keys, MAX_ID_ALLOC_ATTEMPTS);
      ProbeFresh(m.next, m.requests.Keys, MAX_ID_ALLOC_ATTEMPTS);
      var id := Probe(m.next, m.requests.Keys, MAX_ID_ALLOC_ATTEMPTS).0.value;
      assert Step(m, Start(conn, spawned)).requests == m.requests[id := |m.slots|];
    }
  }

  /** A worker that computes, loads and writes leaves its result in the slot, or the cancel if it saw one,
      whatever the slot said before. */
  lemma WorkerLife(m: Manager, i: nat, result: QueryResult)
    requires i < |m.slots| && m.slots[i].worker.Running?
    ensures var s := m.slots[i];
            Step(Step(Step(m, Compute(i, result)), Load(i)), Write(i)) ==
              m.(slots := m.slots[i := s.(worker := Written(result, s.cancelled),
                                          outcome := if s.cancelled then Cancelled else Ready(result))])
  {
    var s := m.slots[i];
    var m1 := Step(m, Compute(i, result));
    assert m1 == m.(slots := m.slots[i := s.(worker := Computed(result))]);
    var m2 := Step(m1, Load(i));
    assert m2.slots == m.slots[i := s.(worker := Loaded(result, s.cancelled))];
  }

  /** What a fetch answers, by its code, and what it leaves behind: 0 hands the payload over and the next
      fetch finds it consumed, -2 leaves everything as it was, -1 is all else. */
  lemma FetchAnswers(m: Manager, id: U32, buf: nat)
    requires Names(m, id) && m.hand.None?
    ensures var i := m.requests[id]; var s := m.slots[i]; var m' := Step(Step(m, Take(id, buf)), Settle);
            && (GetCode(s, buf) == 0 <==> s.outcome.Ready? && s.outcome.result.Rows? && |s.outcome.result.data| <= buf)
            && (GetCode(s, buf) == -2 <==> s.outcome.Ready? && s.outcome.result.Rows? && |s.outcome.result.data| > buf)
            && (GetCode(s, buf) == 0 || GetCode(s, buf) == -2 || GetCode(s, buf) == -1)
            && m'.delivered == m.delivered + (if GetCode(s, buf) == 0 then [Delivery(i, s.outcome.result.data)] else [])
            && (GetCode(s, buf) == -2 || s.outcome.Pending? ==> m' == m)
            && (GetCode(s, buf) != -2 && !s.outcome.Pending? ==>
                  TakeSlot(m'.slots[i]).1 == Some(Fault(CONSUMED_TEXT)) && PollCode(m'.slots[i]) == -1)
  {
  }

  /** Freeing a request, or all of a connection, takes away exactly those ids; the slots stay with their
      workers. */
  lemma FreeExact(m: Manager, id: U32, conn: U32, k: U32)
    requires m.hand.None? && IdsOk(m)
    ensures Step(m, Free(id)) == m.(requests := m.requests - {id})
    ensures var m' := Step(m, FreeConnection(conn));
            && m' == m.(requests := m'.requests)
            && (k in m'.requests <==> k in m.requests && m.slots[m.requests[k]].conn != conn)
            && (k in m'.requests ==> m'.requests[k] == m.requests[k])
  {
  }

  /** A cancel is seen at once: the flag is up for the worker, and a request that was pending answers
      the cancel when it is polled or fetched; one that was not answers what it would have. */
  lemma CancelSeen(m: Manager, id: U32, buf: nat)
    requires Names(m, id) && m.hand.None?
    ensures var before, after := m.slots[m.requests[id]], Step(m, Cancel(id)).slots[m.requests[id]];
            && after.cancelled && after.worker == before.worker && after.conn == before.conn
            && TakeSlot(after).1 ==
                 (if before.outcome.Pending? then Some(Fault(CANCELLED_TEXT)) else TakeSlot(before).1)
            && PollCode(after) == (if before.outcome.Pending? then -2 else PollCode(before))
  {
  }

  /** The status code of a poll. */
  function PollCode(s: Slot): (code: int)
    ensures code == 0 <==> TakeSlot(s) == (s, None)
    ensures code == 1 <==> TakeSlot(s).1.Some? && TakeSlot(s).1.value.Rows?
    ensures code == -2 <==> s.outcome.Cancelled?
  {
    match s.outcome
    case Pending => 0
    case Ready(Rows(_)) => 1
    case Ready(Fault(_)) => -1
    case Cancelled => -2
    case Consumed => -1
  }

  // ---------------------------------------------------------------------
  // Retries
  // ---------------------------------------------------------------------

  /** Fetching with too small a buffer changes nothing. */
  lemma TooSmallChangesNothing(m: Manager, id: U32, buf: nat)
    requires Inv(m) && m.hand.None? && Names(m, id)
    requires m.slots[m.requests[id]].outcome.Ready? && m.slots[m.requests[id]].outcome.result.Rows?
    requires |m.slots[m.requests[id]].outcome.result.data| > buf
    ensures Step(Step(m, Take(id, buf)), Settle) == m
  {
  }

  /** Any number of too-small attempts, then a buffer that fits: exactly the worker's bytes. */
  lemma {:induction false} RetryDelivers(m: Manager, id: U32, small: seq<nat>, buf: nat, data: Bytes)
    requires Inv(m) && m.hand.None? && Names(m, id) && m.slots[m.requests[id]].outcome == Ready(Rows(data))
    requires (forall k :: 0 <= k < |small| ==> small[k] < |data|) && |data| <= buf
    ensures Run(m, Attempts(id, small + [buf])).delivered == m.delivered + [Delivery(m.requests[id], data)]
    decreases |small|
  {
    var all := small + [buf];
    var es := Attempts(id, all);
    assert es[1..][1..] == Attempts(id, all[1..]);
    var m1 := Step(Step(m, es[0]), es[1]);
    assert Run(m, es) == Run(Step(m, es[0]), es[1..]) == Run(m1, es[1..][1..]);
    if small == [] {
      assert all[1..] == [];
    } else {
      assert all[1..] == small[1..] + [buf];
      TooSmallChangesNothing(m, id, small[0]);
      RetryDelivers(m, id, small[1..], buf, data);
    }
  }

  function Attempts(id: U32, bufs: seq<nat>): (es: seq<Event>) {
    if bufs == [] then [] else [Take(id, bufs[0]), Settle] + Attempts(id, bufs[1..])
  }

  // ---------------------------------------------------------------------
  // Ids
  // ---------------------------------------------------------------------

  lemma IdsStart(m: Manager, conn: U32, spawned: bool)
    requires IdsOk(m)
    ensures IdsOk(StartStep(m, conn, spawned))
  {
    var m' := StartStep(m, conn, spawned);
    ProbeFresh(m.next, m.requests.Keys, MAX_ID_ALLOC_ATTEMPTS);
    if m.requests != m'.requests {
      Grow(m.requests, Probe(m.next, m.requests.Keys, MAX_ID_ALLOC_ATTEMPTS).0.value, |m.slots|);
    }
  }

  /** No request gained, none renamed. */
  predicate Narrower(m': Manager, m: Manager) {
    && |m'.slots| == |m.slots|
    && forall id :: id in m'.requests ==> id in m.requests && m'.requests[id] == m.requests[id]
  }

  lemma OnlyStartAdds(m: Manager, e: Event)
    requires !(e.Start? && m.hand.None?)
    ensures Narrower(Step(m, e), m)
  {
  }

  lemma IdsKept(m: Manager, m': Manager)
    requires IdsOk(m) && Narrower(m', m)
    ensures IdsOk(m')
  {
    assert m'.requests.Keys <= m.requests.Keys;
    Shrink(m.requests, m'.requests);
  }

  lemma IdsStep(m: Manager, e: Event)
    requires IdsOk(m)
    ensures IdsOk(Step(m, e))
  {
    if e.Start? && m.hand.None? {
      IdsStart(m, e.conn, e.spawned);
    } else {
      OnlyStartAdds(m, e);
      IdsKept(m, Step(m, e));
    }
  }

  lemma Grow(r: map<U32, nat>, id: U32, v: nat)
    requires id !in r
    ensures |r[id := v]| == |r| + 1
  {
  }

  lemma Shrink(r: map<U32, nat>, r': map<U32, nat>)
    ensures r'.Keys <= r.Keys ==> |r'| <= |r|
  {
    if r'.Keys <= r.Keys {
      SubsetSize(r'.Keys, r.Keys);
      assert |r'.Keys| == |r'| && |r.Keys| == |r|;
    }
  }

  /** At most 64 requests are live, each under a non-zero id of its own. */
  lemma {:induction false} IdsRun(m: Manager, es: seq<Event>)
    requires IdsOk(m)
    ensures IdsOk(Run(m, es))
    decreases |es|
  {
    if es != [] {
      IdsStep(m, es[0]);
      IdsRun(Step(m, es[0]), es[1..]);
    }
  }

  // ---------------------------------------------------------------------
  // The objects
  // ---------------------------------------------------------------------

  class AsyncRequestSlot {
    const conn: U32
    var cancelled: bool
    var outcome: Outcome
    ghost var worker: Worker

    ghost function View(): (s: Slot)
      reads this
    {
      Slot(conn, cancelled, outcome, worker)
    }

    constructor (connId: U32)
      ensures View() == NewSlot(connId)
    {
      conn, cancelled, outcome, worker := connId, false, Pending, Running;
    }

    /** 1 promises a payload whatever the buffer, 0 that a fetch would change nothing, and a negative
        code that it would answer an error. */
    method PollStatus() returns (status: int)
      ensures -2 <= status <= 1 && status == PollCode(View())
      ensures forall buf: nat :: status == 1 <==> GetCode(View(), buf) == 0 || GetCode(View(), buf) == -2
      ensures status == 0 <==> TakeSlot(View()) == (View(), None)
      ensures status < 0 <==> TakeSlot(View()).1.Some? && TakeSlot(View()).1.value.Fault?
      ensures status == -2 <==> !outcome.Ready? && TakeSlot(View()).1 == Some(Fault(CANCELLED_TEXT))
    {
      match outcome
      case Pending => return 0;
      case Ready(Rows(_)) => return 1;
      case Ready(Fault(_)) => return -1;
      case Cancelled => return -2;
      case Consumed => return -1;
    }
  }

  lemma SameSize<V>(a: map<U32, nat>, b: map<U32, V>)
    requires a.Keys == b.Keys
    ensures |a| == |b|
  {
    assert |a.Keys| == |a| && |b.Keys| == |b|;
  }

  /** A take and its answer together. */
  function Fetched(m: Manager, id: U32, buf: nat): (r: Manager)
    requires Names(m, id)
  {
    var i := m.requests[id];
    var (s, result) := TakeSlot(m.slots[i]);
    var m' := m.(slots := m.slots[i := s]);
    if result.None? || result.value.Fault? then m'
    else if |result.value.data| > buf then m'.(slots := m'.slots[i := RestoreSlot(s, result.value)])
    else m'.(delivered := m.delivered + [Delivery(i, result.value.data)])
  }

  lemma FetchedIs(m: Manager, id: U32, buf: nat)
    requires m.hand.None?
    ensures Step(Step(m, Take(id, buf)), Settle) == if Names(m, id) then Fetched(m, id, buf) else m
  {
  }

  lemma StartIs(m: Manager, conn: U32, spawned: bool)
    requires m.hand.None?
    ensures |m.requests| >= MAX_ASYNC_REQUESTS ==> Step(m, Start(conn, spawned)) == m
    ensures |m.requests| < MAX_ASYNC_REQUESTS ==>
              var a := Probe(m.next, m.requests.Keys, MAX_ID_ALLOC_ATTEMPTS);
              && a.0.Some?
              && Step(m, Start(conn, spawned)) ==
                   if spawned then Entered(m.(next := a.1), a.0.value, conn) else m.(next := a.1)
  {
    assert |m.requests.Keys| == |m.requests|;
    if |m.requests| < MAX_ASYNC_REQUESTS {
      ProbeSucceedsBelow(m.next, m.requests.Keys, MAX_ID_ALLOC_ATTEMPTS);
    }
  }

  lemma RemovedOne(m: map<U32, nat>, ids: set<U32>, todo: set<U32>, id: U32)
    requires id in todo && todo <= ids
    ensures m - (ids - todo) - {id} == m - (ids - (todo - {id}))
  {
    assert ids - (todo - {id}) == (ids - todo) + {id};
  }

  lemma FreedIs(m: Manager, ids: set<U32>, conn: U32)
    requires m.hand.None? && forall id :: id in m.requests ==> m.requests[id] < |m.slots|
    requires ids == set id | id in m.requests && m.slots[m.requests[id]].conn == conn
    ensures Step(m, FreeConnection(conn)) == m.(requests := m.requests - ids)
  {
  }

  ghost function Views(all: seq<AsyncRequestSlot>): (vs: seq<Slot>)
    reads all
    ensures |vs| == |all| && forall i :: 0 <= i < |all| ==> vs[i] == all[i].View()
  {
    seq(|all|, i requires 0 <= i < |all| reads all => all[i].View())
  }

  class AsyncRequestManager {
    var next: U32
    var requests: map<U32, AsyncRequestSlot>
    ghost var all: seq<AsyncRequestSlot>
    ghost var serials: map<U32, nat>
    ghost var delivered: seq<Delivery>

    /** Slots are distinct objects, and each request's is the one its number says. */
    ghost predicate Valid()
      reads this
    {
      && (forall i, j :: 0 <= i < j < |all| ==> all[i] != all[j])
      && requests.Keys == serials.Keys
      && (forall id :: id in requests ==> serials[id] < |all| && requests[id] == all[serials[id]])
    }

    ghost function View(): (m: Manager)
      reads this, all
    {
      Manager(next, serials, Views(all), None, delivered)
    }

    constructor ()
      ensures Valid() && View() == Init()
    {
      next, requests, all, serials, delivered := 1, map[], [], map[], [];
    }

    method AllocateRequest() returns (id: Option<U32>)
      modifies this`next
      ensures id.None? <==> |requests| >= MAX_ASYNC_REQUESTS
      ensures id.Some? ==> id.value != 0 && id.value !in requests
      ensures if id.None? then next == old(next)
              else (id, next) == Probe(old(next), requests.Keys, MAX_ID_ALLOC_ATTEMPTS)
    {
      assert |requests.Keys| == |requests|;
      id, next := AllocateRequestId(next, requests.Keys);
    }

    /** Without a thread for it, a request uses up its id and is not entered. */
    method StartRequest(conn: U32, spawned: bool) returns (id: Option<U32>)
      requires Valid()
      modifies this
      ensures Valid() && View() == Step(old(View()), Start(conn, spawned))
      ensures id.Some? <==> spawned && |old(requests)| < MAX_ASYNC_REQUESTS
      ensures id.Some? ==> id.value !in old(requests) && requests.Keys == old(requests).Keys + {id.value}
    {
      SameSize(serials, requests);
      StartIs(View(), conn, spawned);
      id := AllocateRequest();
      assert View() == old(View()).(next := next);
      if id.None? || !spawned {
        return None;
      }
      Enter(id.value, conn);
    }

    method Enter(id: U32, conn: U32)
      requires Valid() && id !in requests
      modifies this`requests, this`all, this`serials
      ensures Valid() && requests.Keys == old(requests).Keys + {id}
      ensures View() == Entered(old(View()), id, conn)
    {
      var slot := new AsyncRequestSlot(conn);
      serials := serials[id := |all|];
      all := all + [slot];
      requests := requests[id := slot];
      assert Views(all) == old(Views(all)) + [slot.View()];
    }

    method Cancel(id: U32) returns (known: bool)
      requires Valid()
      modifies all
      ensures Valid() && (known <==> id in requests) && View() == Step(old(View()), Event.Cancel(id))
    {
      if id !in requests {
        return false;
      }
      var slot := requests[id];
      slot.cancelled := true;
      if slot.outcome.Pending? {
        slot.outcome := Cancelled;
      }
      assert Views(all) == old(Views(all))[serials[id] := CancelSlot(old(Views(all))[serials[id]])];
      return true;
    }

    method TakeResult(id: U32) returns (result: Option<QueryResult>)
      requires Valid()
      modifies all
      ensures id !in requests ==> result.None? && Views(all) == old(Views(all))
      ensures id in requests ==>
                var t := TakeSlot(old(Views(all))[serials[id]]);
                result == t.1 && Views(all) == old(Views(all))[serials[id] := t.0]
    {
      if id !in requests {
        return None;
      }
      var slot := requests[id];
      var current := slot.outcome;
      slot.outcome := Consumed;
      result := None;
      match current {
        case Ready(r) => result := Some(r);
        case Cancelled => result := Some(Fault(CANCELLED_TEXT));
        case Pending => slot.outcome := Pending;
        case Consumed => result := Some(Fault(CONSUMED_TEXT));
      }
      assert Views(all) == old(Views(all))[serials[id] := TakeSlot(old(Views(all))[serials[id]]).0];
    }

    method RestoreResult(id: U32, result: QueryResult)
      requires Valid() && id in requests
      modifies all
      ensures Views(all) == old(Views(all))[serials[id] := RestoreSlot(old(Views(all))[serials[id]], result)]
    {
      requests[id].outcome := Ready(result);
      assert Views(all) == old(Views(all))[serials[id] := RestoreSlot(old(Views(all))[serials[id]], result)];
    }

    /** A take and its answer. Status 0 delivers the payload, -2 leaves the slot as it was, -1 is
        everything else. */
    method GetResult(id: U32, buf: nat) returns (code: int, written: Bytes)
      requires Valid()
      modifies this`delivered, all
      ensures Valid() && View() == Step(Step(old(View()), Take(id, buf)), Settle)
      ensures code == if id in requests then GetCode(old(Views(all))[serials[id]], buf) else -1
      ensures code == 0 <==> |delivered| > |old(delivered)|
      ensures code == 0 ==> id in requests && delivered == old(delivered) + [Delivery(serials[id], written)]
    {
      FetchedIs(View(), id, buf);
      written := [];
      var result := TakeResult(id);
      if result.None? {
        return -1, [];
      }
      match result.value
      case Rows(data) =>
        if |data| > buf {
          RestoreResult(id, Rows(data));
          return -2, [];
        }
        delivered := delivered + [Delivery(serials[id], data)];
        return 0, data;
      case Fault(_) =>
        return -1, [];
    }

    method FreeRequest(id: U32) returns (known: bool)
      requires Valid()
      modifies this`requests, this`serials
      ensures Valid() && serials == old(serials) - {id}
      ensures (known <==> id in old(requests)) && View() == Step(old(View()), Free(id))
    {
      known := id in requests;
      requests := requests - {id};
      serials := serials - {id};
    }

    /** Collects the connection's requests, then frees them one by one. */
    method FreeForConnection(conn: U32)
      requires Valid()
      modifies this`requests, this`serials
      ensures Valid() && View() == Step(old(View()), FreeConnection(conn))
    {
      var ids := set id | id in requests && requests[id].conn == conn;
      FreedIs(View(), ids, conn);
      FreeAll(ids);
    }

    method FreeAll(ids: set<U32>)
      requires Valid()
      modifies this`requests, this`serials
      ensures Valid() && serials == old(serials) - ids
    {
      var todo := ids;
      while todo != {}
        invariant Valid() && todo <= ids && serials == old(serials) - (ids - todo)
      {
        var id :| id in todo;
        RemovedOne(old(serials), ids, todo, id);
        var _ := FreeRequest(id);
        todo := todo - {id};
      }
      assert ids - {} == ids;
    }
  }
}
