/**
 * Transactions behind ids, over whole runs: what the driver sees of each one, and when a connection
 * is in autocommit. The global lock is let go between the check and the begin of a transaction,
 * between its begin and its table entry, and between its removal from the table and its driver calls;
 * the calls of one body or one drop are made under the connection's own lock. Distributed branches
 * switch the mode of the same connections, without looking at the transactions.
 */
module TransactionRuns {
  import opened Xids
  import opened Transactions

  datatype Call = Call(tx: Option<nat>, conn: nat, what: DriverCall, ok: bool)

  /** The calls so far, latest first. */
  datatype Log = Nothing | Then(call: Call, before: Log)

  /** Where a transaction value is: with the thread that began it, in the table, taken out to be
      committed or rolled back, waiting for its drop, or gone. */
  datatype Stage = InHand | Tabled | Taken(op: Op) | Spent | Gone

  datatype Tx = Tx(conn: nat, state: TxState, stage: Stage)

  /** A distributed branch on a connection, `live` until its one attempt to restore the mode. */
  datatype Branch = Branch(conn: nat, live: bool)

  /** A disconnect under way: it holds the global lock and has taken these transactions. */
  datatype Closing = Closing(conn: nat, taken: set<nat>)

  /** `listed` is the table the calls look in, `registered` the one the transactions look in.
      Connection numbers are not used twice. */
  datatype World = World(
    listed: set<nat>,
    registered: set<nat>,
    nextConn: nat,
    admitted: map<nat, nat>,
    txs: seq<Tx>,
    branches: seq<Branch>,
    closing: Option<Closing>,
    log: Log)

  datatype Event =
    | Connect
    | Admit(call: nat, conn: nat)
    | Start(call: nat, setUp: bool, off: bool)
    | Enter(tx: nat, found: bool)
    | Execute(tx: nat, ok: bool)
    | Take(tx: nat, op: Op)
    | Body(tx: nat, ok: bool, restored: bool)
    | Drop(tx: nat, ok: bool, restored: bool)
    | StartDisconnect(conn: nat)
    | TakeToDisconnect(tx: nat)
    | EndDisconnect
    | XaStart(conn: nat, off: bool, started: bool)
    | XaRestore(branch: nat, ok: bool)

  const INIT := World({}, {}, 0, map[], [], [], None, Nothing)

  predicate Is(w: World, t: nat, stage: Stage) { t < |w.txs| && w.txs[t].stage == stage }

  predicate HasTabled(w: World, conn: nat) {
    exists t :: 0 <= t < |w.txs| && w.txs[t].stage.Tabled? && w.txs[t].conn == conn
  }

  /** A sequence of driver calls with their answers. */
  function Tell(log: Log, tx: Option<nat>, conn: nat, calls: seq<DriverCall>, ok: bool, restored: bool): (r: Log)
    decreases |calls|
  {
    if calls == [] then log
    else
      var answer := if calls[0].AutocommitOn? then restored else ok;
      Tell(Then(Call(tx, conn, calls[0], answer), log), tx, conn, calls[1..], ok, restored)
  }

  function Move(w: World, t: nat, stage: Stage): (r: World)
    requires t < |w.txs|
  {
    w.(txs := w.txs[t := w.txs[t].(stage := stage)])
  }

  /** The driver's part of a begin; a refusal on the way leaves no transaction. */
  function StartStep(w: World, call: nat, setUp: bool, off: bool): (r: World) {
    if call !in w.admitted then w
    else
      var c, w1 := w.admitted[call], w.(admitted := w.admitted - {call});
      if c !in w.registered then w1
      else if !setUp then w1.(log := Tell(w.log, None, c, BeginCalls(false), false, false))
      else if !off then
        w1.(log := Then(Call(None, c, AutocommitOff, false), Then(Call(None, c, SetUp, true), w.log)))
      else
        w1.(log := Tell(w.log, Some(|w.txs|), c, BeginCalls(true), true, true),
            txs := w.txs + [Tx(c, Active, InHand)])
  }

  /** What the commit and rollback methods do, and what the drop after them does. */
  function BodyStep(w: World, t: nat, ok: bool, restored: bool): (r: World)
    requires t < |w.txs| && w.txs[t].stage.Taken?
  {
    var x := w.txs[t];
    var here := x.conn in w.registered;
    w.(log := Tell(w.log, Some(t), x.conn, BodyCalls(x.stage.op, x.state, here), ok, restored),
       txs := w.txs[t := Tx(x.conn, BodyState(x.stage.op, x.state, here, ok), Spent)])
  }

  function DropStep(w: World, t: nat, ok: bool, restored: bool): (r: World)
    requires t < |w.txs|
  {
    var x := w.txs[t];
    w.(log := Tell(w.log, Some(t), x.conn, DropCalls(x.state, x.conn in w.registered), ok, restored),
       txs := w.txs[t := x.(stage := Gone)])
  }

  /** Rolling back the transactions of a connection before it goes, all under the global lock. */
  function DisconnectStep(w: World, e: Event): (r: World)
    requires e.StartDisconnect? || e.TakeToDisconnect? || e.EndDisconnect?
  {
    match e
    case StartDisconnect(c) =>
      if w.closing.None? && c in w.listed then w.(listed := w.listed - {c}, closing := Some(Closing(c, {}))) else w
    case TakeToDisconnect(t) =>
      if w.closing.Some? && Is(w, t, Tabled) && w.txs[t].conn == w.closing.value.conn
      then Move(w, t, Taken(DoRollback)).(closing := Some(w.closing.value.(taken := w.closing.value.taken + {t})))
      else w
    case EndDisconnect =>
      if w.closing.Some? && !HasTabled(w, w.closing.value.conn)
         && forall t :: t in w.closing.value.taken ==> Is(w, t, Gone)
      then w.(registered := w.registered - {w.closing.value.conn}, closing := None)
      else w
  }

  function WorkStep(w: World, t: nat, ok: bool): (r: World)
    requires t < |w.txs|
  {
    w.(log := Then(Call(Some(t), w.txs[t].conn, Statement, ok), w.log))
  }

  /** Autocommit off, then the start statement; if that fails nothing switches the mode back. */
  function XaStartStep(w: World, c: nat, off: bool, started: bool): (r: World) {
    if w.closing.Some? || c !in w.listed then w
    else if !off then w.(log := Then(Call(None, c, AutocommitOff, false), w.log))
    else
      w.(log := Then(Call(None, c, Statement, started), Then(Call(None, c, AutocommitOff, true), w.log)),
         branches := if started then w.branches + [Branch(c, true)] else w.branches)
  }

  /** A prepare, a one-phase commit, a rollback or a drop restores the mode, once. */
  function XaRestoreStep(w: World, b: nat, ok: bool): (r: World) {
    if b >= |w.branches| || !w.branches[b].live then w
    else
      var c, w1 := w.branches[b].conn, w.(branches := w.branches[b := w.branches[b].(live := false)]);
      if c !in w.registered then w1 else w1.(log := Then(Call(None, c, AutocommitOn, ok), w.log))
  }

  function Step(w: World, e: Event): (r: World) {
    match e
    case Connect =>
      if w.closing.Some? then w
      else w.(listed := w.listed + {w.nextConn}, registered := w.registered + {w.nextConn}, nextConn := w.nextConn + 1)
    case Admit(call, c) =>
      if w.closing.None? && c in w.listed && !HasTabled(w, c) && call !in w.admitted
      then w.(admitted := w.admitted[call := c]) else w
    case Start(call, setUp, off) => StartStep(w, call, setUp, off)
    case Enter(t, found) =>
      if w.closing.None? && Is(w, t, InHand) then Move(w, t, if found then Tabled else Spent) else w
    case Execute(t, ok) =>
      if (Is(w, t, Tabled) || Is(w, t, InHand)) && w.txs[t].conn in w.registered
      then WorkStep(w, t, ok) else w
    case Take(t, op) =>
      if (w.closing.None? && Is(w, t, Tabled)) || Is(w, t, InHand) then Move(w, t, Taken(op)) else w
    case Body(t, ok, restored) =>
      if t < |w.txs| && w.txs[t].stage.Taken? then BodyStep(w, t, ok, restored) else w
    case Drop(t, ok, restored) => if Is(w, t, Spent) then DropStep(w, t, ok, restored) else w
    case XaStart(c, off, started) => XaStartStep(w, c, off, started)
    case XaRestore(b, ok) => XaRestoreStep(w, b, ok)
    case _ => DisconnectStep(w, e)
  }

  function Run(w: World, es: seq<Event>): (r: World)
    decreases |es|
  {
    if es == [] then w else Run(Step(w, es[0]), es[1..])
  }

  // ---------------------------------------------------------------------
  // Each transaction's calls
  // ---------------------------------------------------------------------

  /** The only acceptable order: off, work, one completion, on. */
  datatype Phase = Unseen | Opened | Completed(commit: bool, ok: bool) | Restored(commit: bool, ok: bool) | Wrong

  function Advance(p: Phase, k: DriverCall, ok: bool): (r: Phase) {
    match k
    case SetUp => if p.Unseen? then Unseen else Wrong
    case AutocommitOff => if p.Unseen? then Opened else Wrong
    case Statement => if p.Opened? then Opened else Wrong
    case Commit => if p.Opened? then Completed(true, ok) else Wrong
    case Rollback => if p.Opened? then Completed(false, ok) else Wrong
    case AutocommitOn => if p.Completed? then Restored(p.commit, p.ok) else Wrong
  }

  function PhaseOf(log: Log, t: nat): (p: Phase) {
    if log.Nothing? then Unseen
    else if log.call.tx == Some(t) then Advance(PhaseOf(log.before, t), log.call.what, log.call.ok)
    else PhaseOf(log.before, t)
  }

  /** Begun and not yet settled with the driver. */
  predicate Open(x: Tx) { x.state.Active? && !x.stage.Gone? }

  /** Settled by its body, or left to the drop; one that is gone unsettled had lost its connection. */
  predicate TxOk(w: World, t: nat)
    requires t < |w.txs|
  {
    var x, p := w.txs[t], PhaseOf(w.log, t);
    && (x.state.Committed? <==> p == Restored(true, true))
    && (if Open(x) then p.Opened?
        else if x.state.Active? then (p.Restored? && !p.commit) || (p.Opened? && x.conn !in w.registered)
        else p.Restored? && (x.stage.Spent? || x.stage.Gone?))
  }

  ghost predicate Orderly(w: World) {
    && (forall t :: 0 <= t < |w.txs| ==> TxOk(w, t))
    && (forall t: nat :: t >= |w.txs| ==> PhaseOf(w.log, t) == Unseen)
  }

  /** Connections are numbered as they come. */
  ghost predicate Numbered(w: World) {
    && w.listed <= w.registered && (forall c :: c in w.registered ==> c < w.nextConn)
    && (forall t :: 0 <= t < |w.txs| ==> w.txs[t].conn < w.nextConn)
    && (forall k :: k in w.admitted ==> w.admitted[k] < w.nextConn)
    && (forall b :: 0 <= b < |w.branches| ==> w.branches[b].conn < w.nextConn)
    && (w.closing.Some? ==> w.closing.value.conn in w.registered && w.closing.value.conn !in w.listed)
    && Below(w.log, w.nextConn)
  }

  predicate Below(log: Log, n: nat) { log.Then? ==> log.call.conn < n && Below(log.before, n) }

  lemma BelowMore(log: Log, n: nat)
    requires Below(log, n)
    ensures Below(log, n + 1)
  {
    if log.Then? {
      BelowMore(log.before, n);
    }
  }

  /** The calls of a pair, on their own transaction and on others. */
  lemma TellPair(log: Log, t: nat, c: nat, a: DriverCall, b: DriverCall, ok: bool, restored: bool, u: nat)
    requires !a.AutocommitOn?
    ensures var l := Tell(log, Some(t), c, [a, b], ok, restored);
            && l == Then(Call(Some(t), c, b, if b.AutocommitOn? then restored else ok),
                         Then(Call(Some(t), c, a, ok), log))
            && (u != t ==> PhaseOf(l, u) == PhaseOf(log, u))
            && PhaseOf(l, t) == Advance(Advance(PhaseOf(log, t), a, ok), b, if b.AutocommitOn? then restored else ok)
  {
    assert [a, b][1..] == [b] && [b][1..] == [];
    var l1 := Then(Call(Some(t), c, a, ok), log);
    var l2 := Then(Call(Some(t), c, b, if b.AutocommitOn? then restored else ok), l1);
    assert Tell(l1, Some(t), c, [b], ok, restored) == Tell(l2, Some(t), c, [], ok, restored);
    assert PhaseOf(l1, u) == if u == t then Advance(PhaseOf(log, u), a, ok) else PhaseOf(log, u);
    assert PhaseOf(l1, t) == Advance(PhaseOf(log, t), a, ok);
  }

  lemma BodyOrderly(w: World, t: nat, ok: bool, restored: bool)
    requires Orderly(w) && t < |w.txs| && w.txs[t].stage.Taken?
    ensures Orderly(BodyStep(w, t, ok, restored))
  {
    var x, w' := w.txs[t], BodyStep(w, t, ok, restored);
    assert TxOk(w, t);
    forall u: nat
      ensures u != t ==> PhaseOf(w'.log, u) == PhaseOf(w.log, u)
      ensures u < |w.txs| ==> TxOk(w', u)
    {
      assert u < |w.txs| ==> TxOk(w, u);
      TellPair(w.log, t, x.conn, if x.stage.op.DoCommit? then Commit else Rollback, AutocommitOn, ok, restored, u);
    }
  }

  lemma DropOrderly(w: World, t: nat, ok: bool, restored: bool)
    requires Orderly(w) && Is(w, t, Spent)
    ensures Orderly(DropStep(w, t, ok, restored))
  {
    var x, w' := w.txs[t], DropStep(w, t, ok, restored);
    assert TxOk(w, t);
    forall u: nat
      ensures u != t ==> PhaseOf(w'.log, u) == PhaseOf(w.log, u)
      ensures u < |w.txs| ==> TxOk(w', u)
    {
      assert u < |w.txs| ==> TxOk(w, u);
      TellPair(w.log, t, x.conn, Rollback, AutocommitOn, ok, restored, u);
    }
  }

  lemma StartOrderly(w: World, call: nat, setUp: bool, off: bool)
    requires Orderly(w)
    ensures Orderly(StartStep(w, call, setUp, off))
  {
    var w' := StartStep(w, call, setUp, off);
    var n := |w.txs|;
    forall u: nat
      ensures u != n || n == |w'.txs| ==> PhaseOf(w'.log, u) == PhaseOf(w.log, u)
      ensures n < |w'.txs| ==> PhaseOf(w'.log, n) == Opened
    {
      assert PhaseOf(w.log, n) == Unseen;
      if n < |w'.txs| {
        TellPair(w.log, n, w.admitted[call], SetUp, AutocommitOff, true, true, u);
      } else if call in w.admitted {
        assert [SetUp][1..] == [];
        RefusedStart(w.log, w.admitted[call], u);
      }
    }
    forall u | 0 <= u < |w'.txs|
      ensures TxOk(w', u)
    {
      assert u < n ==> TxOk(w, u) && w'.txs[u] == w.txs[u];
    }
  }

  lemma RefusedStart(log: Log, c: nat, u: nat)
    ensures var l := Then(Call(None, c, SetUp, true), log);
            && PhaseOf(Then(Call(None, c, AutocommitOff, false), l), u) == PhaseOf(log, u)
            && Tell(log, None, c, BeginCalls(false), false, false) == Then(Call(None, c, SetUp, false), log)
            && PhaseOf(Then(Call(None, c, SetUp, false), log), u) == PhaseOf(log, u)
  {
    assert [SetUp][1..] == [];
    assert PhaseOf(Then(Call(None, c, SetUp, true), log), u) == PhaseOf(log, u);
  }

  lemma WorkOrderly(w: World, t: nat, ok: bool)
    requires Orderly(w) && (Is(w, t, Tabled) || Is(w, t, InHand))
    ensures Orderly(WorkStep(w, t, ok))
  {
    var w' := WorkStep(w, t, ok);
    assert TxOk(w, t);
    forall u | 0 <= u < |w.txs|
      ensures TxOk(w', u)
    {
      assert TxOk(w, u);
    }
  }

  lemma MoveOrderly(w: World, t: nat, stage: Stage)
    requires Orderly(w) && (Is(w, t, Tabled) || Is(w, t, InHand)) && !stage.Gone?
    ensures Orderly(Move(w, t, stage))
  {
    assert TxOk(w, t);
    forall u | 0 <= u < |w.txs|
      ensures TxOk(Move(w, t, stage), u)
    {
      assert TxOk(w, u);
    }
  }

  lemma QuietOrderly(w: World, w': World)
    requires Orderly(w) && Numbered(w) && w'.txs == w.txs && w'.log == w.log
    requires forall c :: c in w'.registered && c < w.nextConn ==> c in w.registered
    ensures Orderly(w')
  {
    forall u | 0 <= u < |w.txs|
      ensures TxOk(w', u)
    {
      assert TxOk(w, u);
    }
  }

  /** The calls of a branch are no transaction's. */
  lemma XaOrderly(w: World, w': World)
    requires Orderly(w) && w'.txs == w.txs && w'.registered == w.registered
    requires forall t: nat :: PhaseOf(w'.log, t) == PhaseOf(w.log, t)
    ensures Orderly(w')
  {
    forall u | 0 <= u < |w.txs|
      ensures TxOk(w', u)
    {
      assert TxOk(w, u);
    }
  }

  lemma XaSilent(w: World, e: Event, t: nat)
    requires e.XaStart? || e.XaRestore?
    ensures PhaseOf(Step(w, e).log, t) == PhaseOf(w.log, t)
  {
    if e.XaStart? {
      assert PhaseOf(Then(Call(None, e.conn, AutocommitOff, true), w.log), t) == PhaseOf(w.log, t);
    }
  }

  lemma OrderlyStep(w: World, e: Event)
    requires Orderly(w) && Numbered(w)
    ensures Orderly(Step(w, e))
  {
    var w' := Step(w, e);
    if w' != w {
      match e
      case Start(call, setUp, off) => StartOrderly(w, call, setUp, off);
      case Enter(t, found) => MoveOrderly(w, t, if found then Tabled else Spent);
      case Execute(t, ok) => WorkOrderly(w, t, ok);
      case Take(t, op) => MoveOrderly(w, t, Taken(op));
      case Body(t, ok, restored) => BodyOrderly(w, t, ok, restored);
      case Drop(t, ok, restored) => DropOrderly(w, t, ok, restored);
      case TakeToDisconnect(t) =>
        MoveOrderly(w, t, Taken(DoRollback));
        SameWorld(Move(w, t, Taken(DoRollback)), w');
      case XaStart(_, _, _) =>
        forall t: nat { XaSilent(w, e, t); }
        XaOrderly(w, w');
      case XaRestore(_, _) =>
        forall t: nat { XaSilent(w, e, t); }
        XaOrderly(w, w');
      case _ => QuietOrderly(w, w');
    }
  }

  lemma SameWorld(w: World, w': World)
    requires Orderly(w) && w'.txs == w.txs && w'.log == w.log && w'.registered == w.registered
    ensures Orderly(w')
  {
    forall u | 0 <= u < |w.txs|
      ensures TxOk(w', u)
    {
      assert TxOk(w, u);
    }
  }

  lemma TellBelow(log: Log, tx: Option<nat>, c: nat, calls: seq<DriverCall>, ok: bool, restored: bool, n: nat)
    requires Below(log, n) && c < n
    ensures Below(Tell(log, tx, c, calls, ok, restored), n)
    decreases |calls|
  {
    if calls != [] {
      var answer := if calls[0].AutocommitOn? then restored else ok;
      TellBelow(Then(Call(tx, c, calls[0], answer), log), tx, c, calls[1..], ok, restored, n);
    }
  }

  lemma NumberedStart(w: World, call: nat, setUp: bool, off: bool)
    requires Numbered(w)
    ensures Numbered(StartStep(w, call, setUp, off))
  {
    if call in w.admitted {
      TellBelow(w.log, Some(|w.txs|), w.admitted[call], BeginCalls(true), true, true, w.nextConn);
      TellBelow(w.log, None, w.admitted[call], BeginCalls(false), false, false, w.nextConn);
    }
  }

  lemma NumberedXa(w: World, c: nat, off: bool, started: bool)
    requires Numbered(w)
    ensures Numbered(XaStartStep(w, c, off, started))
  {
    if w.closing.None? && c in w.listed {
      assert Below(Then(Call(None, c, AutocommitOff, off), w.log), w.nextConn);
    }
  }

  lemma NumberedStep(w: World, e: Event)
    requires Numbered(w)
    ensures Numbered(Step(w, e))
  {
    match e
    case Connect => BelowMore(w.log, w.nextConn);
    case XaStart(c, off, started) => NumberedXa(w, c, off, started);
    case Start(call, setUp, off) => NumberedStart(w, call, setUp, off);
    case Body(t, ok, restored) =>
      if t < |w.txs| && w.txs[t].stage.Taken? {
        var x := w.txs[t];
        var calls := BodyCalls(x.stage.op, x.state, x.conn in w.registered);
        TellBelow(w.log, Some(t), x.conn, calls, ok, restored, w.nextConn);
      }
    case Drop(t, ok, restored) =>
      if t < |w.txs| {
        var x := w.txs[t];
        TellBelow(w.log, Some(t), x.conn, DropCalls(x.state, x.conn in w.registered), ok, restored, w.nextConn);
      }
    case _ =>
  }

  lemma {:induction false} OrderlyRun(w: World, es: seq<Event>)
    requires Orderly(w) && Numbered(w)
    ensures Orderly(Run(w, es)) && Numbered(Run(w, es))
    decreases |es|
  {
    if es != [] {
      OrderlyStep(w, es[0]);
      NumberedStep(w, es[0]);
      OrderlyRun(Step(w, es[0]), es[1..]);
    }
  }

  /**
   * In every run, of every transaction, the driver sees autocommit go off, then work, then at most
   * one commit or rollback directly followed by exactly one restore; a value that is gone while its
   * connection is registered has made them; and it is committed exactly when the driver accepted its
   * commit.
   */
  lemma DriverSeesOneCompletion(es: seq<Event>, t: nat)
    requires t < |Run(INIT, es).txs|
    ensures var w := Run(INIT, es);
            && (PhaseOf(w.log, t).Opened? || PhaseOf(w.log, t).Restored?)
            && (w.txs[t].stage.Gone? && w.txs[t].conn in w.registered ==> PhaseOf(w.log, t).Restored?)
            && (w.txs[t].state.Committed? <==> PhaseOf(w.log, t) == Restored(true, true))
  {
    OrderlyRun(INIT, es);
    assert TxOk(Run(INIT, es), t);
  }

  // ---------------------------------------------------------------------
  // Disconnecting
  // ---------------------------------------------------------------------

  /** In the table or taken by the disconnect while it runs, or settled. */
  predicate Cared(w: World, t: nat) {
    t < |w.txs| &&
    (PhaseOf(w.log, t).Restored?
     || (w.closing.Some? && w.closing.value.conn == w.txs[t].conn && w.txs[t].conn in w.registered
         && (w.txs[t].stage.Tabled? || (t in w.closing.value.taken && !w.txs[t].stage.InHand?))))
  }

  lemma CaredStep(w: World, e: Event, t: nat)
    requires Orderly(w) && Numbered(w) && Cared(w, t)
    ensures Cared(Step(w, e), t)
  {
    OrderlyStep(w, e);
    assert TxOk(w, t) && TxOk(Step(w, e), t);
    if PhaseOf(w.log, t).Restored? {
      RestoredStays(w, e, t);
    }
  }

  /** Nothing more is said of a transaction that is settled. */
  lemma RestoredStays(w: World, e: Event, t: nat)
    requires Orderly(w) && t < |w.txs| && PhaseOf(w.log, t).Restored?
    ensures t < |Step(w, e).txs| && PhaseOf(Step(w, e).log, t) == PhaseOf(w.log, t)
  {
    assert TxOk(w, t);
    match e
    case Body(u, ok, restored) =>
      if u < |w.txs| && w.txs[u].stage.Taken? {
        var x := w.txs[u];
        TellPair(w.log, u, x.conn, if x.stage.op.DoCommit? then Commit else Rollback, AutocommitOn, ok, restored, t);
      }
    case Drop(u, ok, restored) =>
      if u < |w.txs| { TellPair(w.log, u, w.txs[u].conn, Rollback, AutocommitOn, ok, restored, t); }
    case Start(call, setUp, off) =>
      if call in w.admitted {
        TellPair(w.log, |w.txs|, w.admitted[call], SetUp, AutocommitOff, true, true, t);
        RefusedStart(w.log, w.admitted[call], t);
      }
    case _ => if e.XaStart? || e.XaRestore? { XaSilent(w, e, t); }
  }

  /** A transaction in the table when a disconnect begins is rolled back before its connection goes. */
  lemma {:induction false} DisconnectRollsBack(w: World, es: seq<Event>, t: nat)
    requires Orderly(w) && Numbered(w) && Cared(w, t)
    ensures var w' := Run(w, es);
            Cared(w', t) && (w'.txs[t].conn in w'.registered || PhaseOf(w'.log, t).Restored?)
    decreases |es|
  {
    if es != [] {
      CaredStep(w, es[0], t);
      OrderlyStep(w, es[0]);
      NumberedStep(w, es[0]);
      DisconnectRollsBack(Step(w, es[0]), es[1..], t);
    }
  }

  lemma DisconnectFromStart(before: seq<Event>, conn: nat, after: seq<Event>, t: nat)
    requires var w := Run(INIT, before);
             Is(w, t, Tabled) && w.txs[t].conn == conn && conn in w.listed && w.closing.None?
    ensures var w := Run(Step(Run(INIT, before), StartDisconnect(conn)), after);
            t < |w.txs| && (conn in w.registered || PhaseOf(w.log, t).Restored?)
  {
    var w := Run(INIT, before);
    OrderlyRun(INIT, before);
    OrderlyStep(w, StartDisconnect(conn));
    NumberedStep(w, StartDisconnect(conn));
    var w1 := Step(w, StartDisconnect(conn));
    assert TxOk(w1, t);
    DisconnectRollsBack(w1, after, t);
    ConnStays(w1, after, t);
  }

  lemma {:induction false} ConnStays(w: World, es: seq<Event>, t: nat)
    requires t < |w.txs|
    ensures t < |Run(w, es).txs| && Run(w, es).txs[t].conn == w.txs[t].conn
    decreases |es|
  {
    if es != [] {
      ConnStays(Step(w, es[0]), es[1..], t);
    }
  }

  // ---------------------------------------------------------------------
  // Autocommit
  // ---------------------------------------------------------------------

  /** The mode a connection is in, by the last change the driver accepted. */
  function Autocommit(log: Log, conn: nat): (on: bool) {
    if log.Nothing? then true
    else if log.call.conn == conn && log.call.ok && log.call.what.AutocommitOff? then false
    else if log.call.conn == conn && log.call.ok && log.call.what.AutocommitOn? then true
    else Autocommit(log.before, conn)
  }

  /** The driver refused a restore of this connection, or a branch failed to start after the mode was
      switched off. */
  predicate LeftOff(log: Log, conn: nat) {
    log.Then? && ((log.call.conn == conn && Leaves(log.call)) || LeftOff(log.before, conn))
  }

  predicate Leaves(c: Call) { !c.ok && (c.what.AutocommitOn? || (c.what.Statement? && c.tx.None?)) }

  predicate OpenOn(w: World, conn: nat) { exists t :: 0 <= t < |w.txs| && Open(w.txs[t]) && w.txs[t].conn == conn }

  predicate XaOn(w: World, conn: nat) {
    exists b :: 0 <= b < |w.branches| && w.branches[b].live && w.branches[b].conn == conn
  }

  /** A transaction or a branch needs the mode off. */
  predicate InUse(w: World, conn: nat) { OpenOn(w, conn) || XaOn(w, conn) }

  predicate AdmittedOn(w: World, conn: nat) { exists k :: k in w.admitted && w.admitted[k] == conn }

  /**
   * No check of a begin is made on a connection while another call there is between its check and its
   * begin, its begin and its table entry, or its removal from the table and its driver calls, nor
   * while a branch is live there; and no branch starts there while a transaction is open or being
   * begun, or another branch is live.
   */
  predicate Apart(w: World, e: Event, conn: nat) {
    && (e.Admit? && e.conn == conn ==>
          && !AdmittedOn(w, conn) && !XaOn(w, conn)
          && (forall t :: 0 <= t < |w.txs| && Open(w.txs[t]) && w.txs[t].conn == conn ==> w.txs[t].stage.Tabled?))
    && (e.XaStart? && e.conn == conn && e.off && e.started ==> !AdmittedOn(w, conn) && !InUse(w, conn))
  }

  predicate AllApart(w: World, es: seq<Event>, conn: nat)
    decreases |es|
  {
    es != [] ==> Apart(w, es[0], conn) && AllApart(Step(w, es[0]), es[1..], conn)
  }

  /** At most one call, transaction or branch at a time, and the mode is off exactly while it is one of
      the last two. */
  predicate Solo(w: World, conn: nat) {
    conn in w.registered ==>
      && (forall a, b :: 0 <= a < b < |w.txs| && Open(w.txs[a]) && Open(w.txs[b]) && w.txs[a].conn == conn
            ==> w.txs[b].conn != conn)
      && (AdmittedOn(w, conn) ==> !InUse(w, conn)) && (XaOn(w, conn) ==> !OpenOn(w, conn))
      && (forall a, b :: 0 <= a < b < |w.branches| && w.branches[a].live && w.branches[b].live ==>
            w.branches[a].conn != conn || w.branches[b].conn != conn)
      && (forall j, k :: j in w.admitted && k in w.admitted && j != k && w.admitted[j] == conn
            ==> w.admitted[k] != conn)
      && ModeOk(w, conn)
  }

  predicate ModeOk(w: World, conn: nat) {
    if InUse(w, conn) then !Autocommit(w.log, conn) else Autocommit(w.log, conn) || LeftOff(w.log, conn)
  }

  lemma FreshMode(log: Log, conn: nat)
    requires Below(log, conn)
    ensures Autocommit(log, conn)
  {
  }

  /** What a pair of calls on `c` does to the mode of `conn`. */
  lemma TellMode(log: Log, t: nat, c: nat, a: DriverCall, b: DriverCall, ok: bool, restored: bool, conn: nat)
    requires !a.AutocommitOn? && !a.AutocommitOff?
    ensures var l := Tell(log, Some(t), c, [a, b], ok, restored);
            && (c != conn ==> Autocommit(l, conn) == Autocommit(log, conn))
            && (LeftOff(log, conn) ==> LeftOff(l, conn))
            && (c == conn && b.AutocommitOn? ==> if restored then Autocommit(l, conn) else LeftOff(l, conn))
            && (c == conn && b.AutocommitOff? && ok ==> !Autocommit(l, conn))
  {
    TellPair(log, t, c, a, b, ok, restored, t);
    var l1 := Then(Call(Some(t), c, a, ok), log);
    assert Autocommit(l1, conn) == Autocommit(log, conn) && (LeftOff(log, conn) ==> LeftOff(l1, conn));
  }

  lemma SoloSettle(w: World, w': World, t: nat, conn: nat)
    requires Solo(w, conn) && t < |w.txs| && Open(w.txs[t]) && w'.registered == w.registered
    requires w'.admitted == w.admitted && w'.branches == w.branches
    requires |w'.txs| == |w.txs| && w'.txs == w.txs[t := w'.txs[t]]
    requires w'.txs[t].conn == w.txs[t].conn && !Open(w'.txs[t])
    requires w.txs[t].conn != conn ==>
               Autocommit(w'.log, conn) == Autocommit(w.log, conn)
               && (LeftOff(w.log, conn) ==> LeftOff(w'.log, conn))
    requires w.txs[t].conn == conn && conn in w.registered ==>
               Autocommit(w'.log, conn) || LeftOff(w'.log, conn)
    ensures Solo(w', conn)
  {
    if conn in w.registered {
      if w.txs[t].conn == conn {
        assert OpenOn(w, conn) && !OpenOn(w', conn);
      } else {
        SameOpen(w, w', conn);
      }
    }
  }

  lemma SameOpen(w: World, w': World, conn: nat)
    requires |w'.txs| == |w.txs|
    requires forall u :: 0 <= u < |w.txs| && (w.txs[u].conn == conn || w'.txs[u].conn == conn) ==>
               w'.txs[u].conn == w.txs[u].conn && Open(w'.txs[u]) == Open(w.txs[u])
    ensures OpenOn(w', conn) <==> OpenOn(w, conn)
  {
  }

  lemma SoloBody(w: World, t: nat, ok: bool, restored: bool, conn: nat)
    requires Orderly(w) && Solo(w, conn) && t < |w.txs| && w.txs[t].stage.Taken?
    ensures Solo(BodyStep(w, t, ok, restored), conn)
  {
    var x, w' := w.txs[t], BodyStep(w, t, ok, restored);
    assert TxOk(w, t) && Open(x);
    TellMode(w.log, t, x.conn, if x.stage.op.DoCommit? then Commit else Rollback, AutocommitOn, ok, restored, conn);
    if x.conn in w.registered {
      SoloSettle(w, w', t, conn);
    } else {
      SoloKept(w, w', conn);
    }
  }

  lemma SoloDrop(w: World, t: nat, ok: bool, restored: bool, conn: nat)
    requires Orderly(w) && Solo(w, conn) && Is(w, t, Spent)
    ensures Solo(DropStep(w, t, ok, restored), conn)
  {
    var x, w' := w.txs[t], DropStep(w, t, ok, restored);
    TellMode(w.log, t, x.conn, Rollback, AutocommitOn, ok, restored, conn);
    if Open(x) {
      SoloSettle(w, w', t, conn);
    } else {
      SoloKept(w, w', conn);
    }
  }

  /** Nothing that matters to `conn` changes. */
  lemma SoloKept(w: World, w': World, conn: nat)
    requires Solo(w, conn) && |w'.txs| == |w.txs| && w'.admitted == w.admitted && w'.branches == w.branches
    requires conn in w'.registered ==> conn in w.registered
    requires forall u :: 0 <= u < |w.txs| ==>
               && w'.txs[u].conn == w.txs[u].conn
               && (Open(w'.txs[u]) == Open(w.txs[u]) || (w.txs[u].conn != conn && !Open(w'.txs[u])))
    requires conn in w'.registered ==> Autocommit(w'.log, conn) == Autocommit(w.log, conn)
    requires LeftOff(w.log, conn) ==> LeftOff(w'.log, conn)
    ensures Solo(w', conn)
  {
    if conn in w'.registered {
      SameOpen(w, w', conn);
    }
  }

  lemma SoloStart(w: World, call: nat, setUp: bool, off: bool, conn: nat)
    requires Solo(w, conn)
    ensures Solo(StartStep(w, call, setUp, off), conn)
  {
    if call in w.admitted && conn in w.registered {
      var c, w' := w.admitted[call], StartStep(w, call, setUp, off);
      if c in w.registered && setUp && off {
        TellMode(w.log, |w.txs|, c, SetUp, AutocommitOff, true, true, conn);
        assert w'.txs[|w.txs|] == Tx(c, Active, InHand);
        assert c == conn ==> OpenOn(w', conn);
        assert forall u :: 0 <= u < |w.txs| ==> w'.txs[u] == w.txs[u];
      } else {
        RefusedMode(w.log, c, conn);
        assert OpenOn(w', conn) <==> OpenOn(w, conn);
      }
    }
  }

  lemma RefusedMode(log: Log, c: nat, conn: nat)
    ensures var l := Then(Call(None, c, AutocommitOff, false), Then(Call(None, c, SetUp, true), log));
            Autocommit(l, conn) == Autocommit(log, conn) && (LeftOff(log, conn) ==> LeftOff(l, conn))
    ensures var l := Tell(log, None, c, BeginCalls(false), false, false);
            Autocommit(l, conn) == Autocommit(log, conn) && (LeftOff(log, conn) ==> LeftOff(l, conn))
  {
    RefusedStart(log, c, 0);
    var l := Then(Call(None, c, SetUp, true), log);
    assert Autocommit(l, conn) == Autocommit(log, conn) && (LeftOff(log, conn) ==> LeftOff(l, conn));
  }

  lemma SoloConnect(w: World, conn: nat)
    requires Solo(w, conn) && Numbered(w)
    ensures Solo(Step(w, Connect), conn)
  {
    var w' := Step(w, Connect);
    if conn == w.nextConn {
      FreshMode(w.log, conn);
    }
    assert OpenOn(w', conn) <==> OpenOn(w, conn);
  }

  lemma SoloAdmit(w: World, call: nat, c: nat, conn: nat)
    requires Solo(w, conn) && Apart(w, Admit(call, c), conn)
    ensures Solo(Step(w, Admit(call, c)), conn)
  {
    assert OpenOn(Step(w, Admit(call, c)), conn) <==> OpenOn(w, conn);
  }

  lemma SoloXaStart(w: World, c: nat, off: bool, started: bool, conn: nat)
    requires Solo(w, conn) && Apart(w, XaStart(c, off, started), conn)
    ensures Solo(XaStartStep(w, c, off, started), conn)
  {
    var w' := XaStartStep(w, c, off, started);
    XaMode(w.log, c, off, started, conn);
    assert OpenOn(w', conn) <==> OpenOn(w, conn);
    assert AdmittedOn(w', conn) <==> AdmittedOn(w, conn);
    if |w'.branches| > |w.branches| {
      assert w'.branches[|w.branches|] == Branch(c, true);
      assert c == conn ==> XaOn(w', conn);
      assert forall b :: 0 <= b < |w.branches| ==> w'.branches[b] == w.branches[b];
      assert c != conn ==> (XaOn(w', conn) <==> XaOn(w, conn));
    } else {
      assert XaOn(w', conn) <==> XaOn(w, conn);
    }
  }

  lemma XaMode(log: Log, c: nat, off: bool, started: bool, conn: nat)
    ensures var l1 := Then(Call(None, c, AutocommitOff, off), log);
            var l := Then(Call(None, c, Statement, started), l1);
            && (LeftOff(log, conn) ==> LeftOff(l1, conn) && LeftOff(l, conn))
            && (if c == conn && off then !Autocommit(l, conn) && (!started ==> LeftOff(l, conn))
                else Autocommit(l, conn) == Autocommit(l1, conn) == Autocommit(log, conn))
  {
    var l1 := Then(Call(None, c, AutocommitOff, off), log);
    assert LeftOff(log, conn) ==> LeftOff(l1, conn);
    assert Autocommit(l1, conn) == if c == conn && off then false else Autocommit(log, conn);
  }

  lemma SoloXaRestore(w: World, b: nat, ok: bool, conn: nat)
    requires Solo(w, conn)
    ensures Solo(XaRestoreStep(w, b, ok), conn)
  {
    if b < |w.branches| && w.branches[b].live && conn in w.registered {
      var c, w' := w.branches[b].conn, XaRestoreStep(w, b, ok);
      assert OpenOn(w', conn) <==> OpenOn(w, conn);
      assert AdmittedOn(w', conn) <==> AdmittedOn(w, conn);
      if c == conn {
        assert XaOn(w, conn) && !XaOn(w', conn);
      } else {
        assert forall a :: 0 <= a < |w.branches| && w.branches[a].conn == conn ==> w'.branches[a] == w.branches[a];
        assert XaOn(w', conn) <==> XaOn(w, conn);
      }
    }
  }

  lemma SoloStep(w: World, e: Event, conn: nat)
    requires Orderly(w) && Numbered(w) && Solo(w, conn) && Apart(w, e, conn)
    ensures Solo(Step(w, e), conn)
  {
    if e.Body? {
      if e.tx < |w.txs| && w.txs[e.tx].stage.Taken? { SoloBody(w, e.tx, e.ok, e.restored, conn); }
    } else if e.Drop? {
      if Is(w, e.tx, Spent) { SoloDrop(w, e.tx, e.ok, e.restored, conn); }
    } else if e.Start? {
      SoloStart(w, e.call, e.setUp, e.off, conn);
    } else if e.Connect? {
      SoloConnect(w, conn);
    } else if e.Admit? {
      SoloAdmit(w, e.call, e.conn, conn);
    } else if e.XaStart? {
      SoloXaStart(w, e.conn, e.off, e.started, conn);
    } else if e.XaRestore? {
      SoloXaRestore(w, e.branch, e.ok, conn);
    } else {
      SoloKept(w, Step(w, e), conn);
    }
  }

  /**
   * While begins and branches on a connection keep apart, the connection, as long as it lasts, has at
   * most one open transaction or live branch and is out of autocommit exactly while it has one, but
   * for refused restores and branches that failed to start.
   */
  lemma {:induction false} AutocommitFollowsTransaction(w: World, es: seq<Event>, conn: nat)
    requires Orderly(w) && Numbered(w) && Solo(w, conn) && AllApart(w, es, conn)
    ensures Solo(Run(w, es), conn)
    decreases |es|
  {
    if es != [] {
      SoloStep(w, es[0], conn);
      OrderlyStep(w, es[0]);
      NumberedStep(w, es[0]);
      AutocommitFollowsTransaction(Step(w, es[0]), es[1..], conn);
    }
  }

  lemma AutocommitFromStart(es: seq<Event>, conn: nat)
    requires AllApart(INIT, es, conn) && conn in Run(INIT, es).registered
    ensures var w := Run(INIT, es);
            if InUse(w, conn) then !Autocommit(w.log, conn) else Autocommit(w.log, conn) || LeftOff(w.log, conn)
  {
    AutocommitFollowsTransaction(INIT, es, conn);
  }

  // ---------------------------------------------------------------------
  // The condition is needed
  // ---------------------------------------------------------------------

  lemma RunOne(w: World, e: Event, rest: seq<Event>)
    ensures Run(w, [e] + rest) == Run(Step(w, e), rest)
  {
    assert ([e] + rest)[1..] == rest;
  }

  /** The calls of the open transaction `t`, once another has begun, put its connection in autocommit. */
  lemma Settles(w: World, t: nat, n: nat, c: nat) returns (es: seq<Event>)
    requires Orderly(w) && t < |w.txs| && n < |w.txs| && t != n && Open(w.txs[t]) && !w.txs[t].stage.Tabled?
    requires w.txs[t].conn == c && c in w.registered && Open(w.txs[n]) && w.txs[n].conn == c
    ensures var w' := Run(w, es); OpenOn(w', c) && Autocommit(w'.log, c)
    decreases w.txs[t].stage.InHand?
  {
    if w.txs[t].stage.InHand? {
      var w1 := Step(w, Take(t, DoCommit));
      MoveOrderly(w, t, Taken(DoCommit));
      var rest := Settles(w1, t, n, c);
      es := [Take(t, DoCommit)] + rest;
      RunOne(w, Take(t, DoCommit), rest);
    } else {
      var e := if w.txs[t].stage.Taken? then Body(t, true, true) else Drop(t, true, true);
      var first := if w.txs[t].stage.Taken? && w.txs[t].stage.op.DoCommit? then Commit else Rollback;
      TellMode(w.log, t, c, first, AutocommitOn, true, true, c);
      es := [e];
      RunOne(w, e, []);
      assert [e] + [] == es;
      var w' := Step(w, e);
      assert w'.txs[n] == w.txs[n];
    }
  }

  /** A begin admitted beside an open transaction that is out of the table. */
  lemma BeginsBeside(w: World, call: nat, c: nat, t: nat) returns (es: seq<Event>)
    requires Orderly(w) && call in w.admitted && w.admitted[call] == c && c in w.registered
    requires t < |w.txs| && Open(w.txs[t]) && w.txs[t].conn == c && !w.txs[t].stage.Tabled?
    ensures var w' := Run(w, es); OpenOn(w', c) && Autocommit(w'.log, c)
  {
    var e := Start(call, true, true);
    StartOrderly(w, call, true, true);
    var rest := Settles(Step(w, e), t, |w.txs|, c);
    es := [e] + rest;
    RunOne(w, e, rest);
  }

  /** The restore of branch `b` puts the connection in autocommit, whoever else uses it. */
  lemma RestoreUnder(w: World, b: nat, c: nat)
    requires b < |w.branches| && w.branches[b] == Branch(c, true) && c in w.registered
    requires OpenOn(w, c) || exists a :: 0 <= a < |w.branches| && a != b && w.branches[a] == Branch(c, true)
    ensures var w' := Run(w, [XaRestore(b, true)]); InUse(w', c) && Autocommit(w'.log, c)
  {
    RunOne(w, XaRestore(b, true), []);
    assert [XaRestore(b, true)] + [] == [XaRestore(b, true)];
    var w' := Step(w, XaRestore(b, true));
    if t :| 0 <= t < |w.txs| && Open(w.txs[t]) && w.txs[t].conn == c {
      assert w'.txs[t] == w.txs[t];
    } else {
      var a :| 0 <= a < |w.branches| && a != b && w.branches[a] == Branch(c, true);
      assert w'.branches[a] == w.branches[a];
    }
  }

  /** An admitted begin beside a live branch. */
  lemma BeginsBesideBranch(w: World, call: nat, b: nat, c: nat) returns (es: seq<Event>)
    requires call in w.admitted && w.admitted[call] == c && c in w.registered
    requires b < |w.branches| && w.branches[b] == Branch(c, true)
    ensures var w' := Run(w, es); InUse(w', c) && Autocommit(w'.log, c)
  {
    var e := Start(call, true, true);
    var w1 := Step(w, e);
    assert Open(w1.txs[|w.txs|]) && w1.txs[|w.txs|].conn == c;
    RestoreUnder(w1, b, c);
    es := [e] + [XaRestore(b, true)];
    RunOne(w, e, [XaRestore(b, true)]);
  }

  lemma AdmitIsNeeded(w: World, call: nat, c: nat) returns (es: seq<Event>)
    requires Orderly(w) && Numbered(w) && Step(w, Admit(call, c)) != w && !Apart(w, Admit(call, c), c)
    ensures var w' := Run(Step(w, Admit(call, c)), es); InUse(w', c) && Autocommit(w'.log, c)
  {
    var w1 := Step(w, Admit(call, c));
    OrderlyStep(w, Admit(call, c));
    if k :| k in w.admitted && w.admitted[k] == c {
      var e := Start(k, true, true);
      StartOrderly(w1, k, true, true);
      var rest := BeginsBeside(Step(w1, e), call, c, |w1.txs|);
      es := [e] + rest;
      RunOne(w1, e, rest);
    } else if b :| 0 <= b < |w.branches| && w.branches[b].live && w.branches[b].conn == c {
      es := BeginsBesideBranch(w1, call, b, c);
    } else {
      var t :| 0 <= t < |w.txs| && Open(w.txs[t]) && w.txs[t].conn == c && !w.txs[t].stage.Tabled?;
      es := BeginsBeside(w1, call, c, t);
    }
  }

  lemma XaIsNeeded(w: World, c: nat) returns (es: seq<Event>)
    requires Numbered(w) && Step(w, XaStart(c, true, true)) != w && !Apart(w, XaStart(c, true, true), c)
    ensures var w' := Run(Step(w, XaStart(c, true, true)), es); InUse(w', c) && Autocommit(w'.log, c)
  {
    var w1, n := Step(w, XaStart(c, true, true)), |w.branches|;
    assert w1.branches[n] == Branch(c, true);
    if k :| k in w.admitted && w.admitted[k] == c {
      es := BeginsBesideBranch(w1, k, n, c);
    } else if t :| 0 <= t < |w.txs| && Open(w.txs[t]) && w.txs[t].conn == c {
      assert w1.txs[t] == w.txs[t];
      RestoreUnder(w1, n, c);
      es := [XaRestore(n, true)];
    } else {
      var b :| 0 <= b < |w.branches| && w.branches[b].live && w.branches[b].conn == c;
      assert w1.branches[b] == Branch(c, true);
      RestoreUnder(w1, b, c);
      es := [XaRestore(b, true)];
    }
  }

  /**
   * Exactly this condition: from every state of every run, a check that is accepted, or a branch that
   * starts, without it can be followed by calls that leave a transaction open or a branch live on the
   * connection with autocommit on.
   */
  lemma ApartIsNeeded(w: World, e: Event, c: nat) returns (es: seq<Event>)
    requires Orderly(w) && Numbered(w) && Step(w, e) != w && !Apart(w, e, c)
    ensures var w' := Run(w, [e] + es); InUse(w', c) && Autocommit(w'.log, c)
  {
    if e.Admit? {
      es := AdmitIsNeeded(w, e.call, c);
    } else {
      es := XaIsNeeded(w, c);
    }
    RunOne(w, e, es);
  }

  /** Connect, begin and take out the first transaction. */
  lemma FirstHalf()
    ensures var w := Run(INIT, [Connect, Admit(0, 0), Start(0, true, true), Enter(0, true), Take(0, DoCommit)]);
            && w.txs == [Tx(0, Active, Taken(DoCommit))] && w.admitted == map[] && w.closing.None?
            && w.listed == {0} && w.registered == {0}
  {
    var a, b, c, d, e := Connect, Admit(0, 0), Start(0, true, true), Enter(0, true), Take(0, DoCommit);
    var w1 := Step(INIT, a);
    var w2 := Step(w1, b);
    assert w2.admitted == map[0 := 0];
    var w3 := Step(w2, c);
    assert w3.txs == [Tx(0, Active, InHand)] && w3.admitted == map[];
    var w4 := Step(w3, d);
    assert w4.txs == [Tx(0, Active, Tabled)];
    RunFour(w1, b, c, d, e);
    RunOne(INIT, a, [b, c, d, e]);
    assert [a] + [b, c, d, e] == [a, b, c, d, e];
  }

  lemma RunFour(w: World, a: Event, b: Event, c: Event, d: Event)
    ensures Run(w, [a, b, c, d]) == Step(Step(Step(Step(w, a), b), c), d)
  {
    RunOne(w, a, [b, c, d]);
    RunOne(Step(w, a), b, [c, d]);
    RunOne(Step(Step(w, a), b), c, [d]);
    RunOne(Step(Step(Step(w, a), b), c), d, []);
    assert [a] + [b, c, d] == [a, b, c, d] && [b] + [c, d] == [b, c, d] && [c] + [d] == [c, d] && [d] + [] == [d];
  }

  lemma SecondBegin(w: World)
    requires w.txs == [Tx(0, Active, Taken(DoCommit))] && w.admitted == map[] && w.closing.None?
    requires w.listed == {0} && w.registered == {0}
    ensures var w' := Step(Step(Step(w, Admit(1, 0)), Start(1, true, true)), Enter(1, true));
            w'.txs == [Tx(0, Active, Taken(DoCommit)), Tx(0, Active, Tabled)]
  {
    var w1 := Step(w, Admit(1, 0));
    assert w1.admitted == map[1 := 0];
    var w2 := Step(w1, Start(1, true, true));
    assert w2.txs == [Tx(0, Active, Taken(DoCommit)), Tx(0, Active, InHand)];
  }

  /** One such run: a commit under way when a second begin checks, with no two begins overlapping. */
  lemma LateCommit()
    ensures var w := Run(Run(INIT, [Connect, Admit(0, 0), Start(0, true, true), Enter(0, true), Take(0, DoCommit)]),
                         [Admit(1, 0), Start(1, true, true), Enter(1, true), Body(0, true, true)]);
            Is(w, 1, Tabled) && Open(w.txs[1]) && w.txs[0].state.Committed? && Autocommit(w.log, 0)
  {
    FirstHalf();
    var w5 := Run(INIT, [Connect, Admit(0, 0), Start(0, true, true), Enter(0, true), Take(0, DoCommit)]);
    SecondBegin(w5);
    var w8 := Step(Step(Step(w5, Admit(1, 0)), Start(1, true, true)), Enter(1, true));
    TellMode(w8.log, 0, 0, Commit, AutocommitOn, true, true, 0);
    RunFour(w5, Admit(1, 0), Start(1, true, true), Enter(1, true), Body(0, true, true));
  }

  /** Another: with every begin apart, a branch prepared while a transaction is open on its connection. */
  lemma BranchOverTransaction()
    ensures var w := Run(Run(INIT, [Connect, Admit(0, 0), Start(0, true, true), Enter(0, true)]),
                         [XaStart(0, true, true), XaRestore(0, true)]);
            Is(w, 0, Tabled) && Open(w.txs[0]) && Autocommit(w.log, 0)
  {
    var a, b, c, d := Connect, Admit(0, 0), Start(0, true, true), Enter(0, true);
    RunFour(INIT, a, b, c, d);
    var w2 := Step(Step(INIT, a), b);
    assert w2.admitted == map[0 := 0];
    var w4 := Step(Step(w2, c), d);
    assert w4.txs == [Tx(0, Active, Tabled)] && w4.listed == {0} && w4.registered == {0} && w4.branches == [];
    var w5 := Step(w4, XaStart(0, true, true));
    assert w5.branches == [Branch(0, true)];
    RunOne(w4, XaStart(0, true, true), [XaRestore(0, true)]);
    RunOne(w5, XaRestore(0, true), []);
    assert [XaStart(0, true, true)] + [XaRestore(0, true)] == [XaStart(0, true, true), XaRestore(0, true)];
    assert [XaRestore(0, true)] + [] == [XaRestore(0, true)];
  }
}
