/** What the driver sees of each call, whole lives of a transaction, and that a disconnect gets through. */
module TransactionLives {
  import opened Xids
  import opened Transactions
  import opened TransactionRuns

  // ---------------------------------------------------------------------
  // Single calls
  // ---------------------------------------------------------------------

  /** What a begin asks of the driver, and what comes of it: nothing over a connection that is gone, a
      transaction exactly when the driver accepted both the settings and the mode. */
  lemma BeginSeen(w: World, call: nat, setUp: bool, off: bool)
    requires call in w.admitted
    ensures var c, t := w.admitted[call], Some(|w.txs|);
            Step(w, Start(call, setUp, off)) ==
              w.(admitted := w.admitted - {call},
                 txs := if c in w.registered && setUp && off then w.txs + [Tx(c, Active, InHand)] else w.txs,
                 log := if c !in w.registered then w.log
                        else if !setUp then Then(Call(None, c, SetUp, false), w.log)
                        else if !off
                        then Then(Call(None, c, AutocommitOff, false), Then(Call(None, c, SetUp, true), w.log))
                        else Then(Call(t, c, AutocommitOff, true), Then(Call(t, c, SetUp, true), w.log)))
  {
    var c := w.admitted[call];
    RefusedStart(w.log, c, 0);
    TellPair(w.log, |w.txs|, c, SetUp, AutocommitOff, true, true, 0);
  }

  /** A statement reaches the driver exactly through a transaction that is begun and not taken out, over
      a registered connection. */
  lemma StatementSeen(w: World, t: nat, ok: bool)
    ensures Step(w, Execute(t, ok)) ==
              if t < |w.txs| && (w.txs[t].stage.InHand? || w.txs[t].stage.Tabled?) && w.txs[t].conn in w.registered
              then w.(log := Then(Call(Some(t), w.txs[t].conn, Statement, ok), w.log)) else w
  {
  }

  /** A branch start that the driver does not let out of autocommit leaves only that call behind, and a
      restore over a connection that is gone not even that. */
  lemma BranchSeen(w: World, c: nat, started: bool, b: nat, ok: bool)
    requires w.closing.None? && c in w.listed && b < |w.branches| && w.branches[b].live
    ensures Step(w, XaStart(c, false, started)) == w.(log := Then(Call(None, c, AutocommitOff, false), w.log))
    ensures w.branches[b].conn !in w.registered ==> Step(w, XaRestore(b, ok)).log == w.log
    ensures !Step(w, XaRestore(b, ok)).branches[b].live
  {
  }

  /** The later log has only calls on these connections on top. */
  predicate Adds(log: Log, later: Log, conns: set<nat>) {
    later == log || (later.Then? && later.call.conn in conns && Adds(log, later.before, conns))
  }

  /** In every reachable state the driver is spoken to only over registered connections. */
  lemma OnlyRegistered(w: World, e: Event)
    requires Numbered(w)
    ensures Adds(w.log, Step(w, e).log, w.registered)
  {
    match e
    case Start(call, setUp, off) => if call in w.admitted { BeginSeen(w, call, setUp, off); }
    case Body(t, ok, restored) =>
      if t < |w.txs| && w.txs[t].stage.Taken? {
        BodyPair(w, t, w.txs[t].stage.op, ok, restored);
      }
    case Drop(t, ok, restored) => if Is(w, t, Spent) { BodyPair(w, t, DoRollback, ok, restored); }
    case _ =>
  }

  lemma BodyPair(w: World, t: nat, op: Op, ok: bool, restored: bool)
    requires t < |w.txs|
    ensures var c, done := w.txs[t].conn, if op.DoCommit? then Commit else Rollback;
            Tell(w.log, Some(t), c, [done, AutocommitOn], ok, restored)
            == Then(Call(Some(t), c, AutocommitOn, restored), Then(Call(Some(t), c, done, ok), w.log))
  {
    TellPair(w.log, t, w.txs[t].conn, if op.DoCommit? then Commit else Rollback, AutocommitOn, ok, restored, t);
  }

  /** While a disconnect holds the global lock, every call that needs it waits. */
  lemma LockedOut(w: World, e: Event)
    requires w.closing.Some?
    requires || e.Connect? || e.Admit? || e.Enter? || e.StartDisconnect? || e.XaStart?
             || (e.Take? && !Is(w, e.tx, InHand))
    ensures Step(w, e) == w
  {
  }

  // ---------------------------------------------------------------------
  // Whole lives
  // ---------------------------------------------------------------------

  function Grown(w: World, x: Tx, log: Log): (r: World) { w.(txs := w.txs + [x], log := log) }

  function BegunLog(w: World, c: nat): (log: Log) {
    var t := Some(|w.txs|);
    Then(Call(t, c, Statement, true), Then(Call(t, c, AutocommitOff, true), Then(Call(t, c, SetUp, true), w.log)))
  }

  /** Checked, begun, entered in the table, and one statement. */
  lemma Begins(w: World, call: nat, c: nat)
    requires w.closing.None? && c in w.listed && c in w.registered && !HasTabled(w, c) && call !in w.admitted
    ensures var t := |w.txs|;
            Step(Step(Step(Step(w, Admit(call, c)), Start(call, true, true)), Enter(t, true)), Execute(t, true))
            == Grown(w, Tx(c, Active, Tabled), BegunLog(w, c))
  {
    var t := |w.txs|;
    var w1 := Step(w, Admit(call, c));
    BeginSeen(w1, call, true, true);
    assert w1.admitted - {call} == w.admitted;
    var w2 := Step(w1, Start(call, true, true));
    assert w2.txs[t := Tx(c, Active, Tabled)] == w.txs + [Tx(c, Active, Tabled)];
    StatementSeen(Step(w2, Enter(t, true)), t, true);
  }

  lemma Ends(w: World, c: nat, log: Log, op: Op, ok: bool, restored: bool)
    requires w.closing.None? && c in w.registered
    ensures var t, done := |w.txs|, if op.DoCommit? then Commit else Rollback;
            var g := Grown(w, Tx(c, Active, Tabled), log);
            Step(Step(Step(g, Take(t, op)), Body(t, ok, restored)), Drop(t, true, true))
            == Grown(w, Tx(c, if op.DoCommit? && ok then Committed else RolledBack, Gone),
                     Then(Call(Some(t), c, AutocommitOn, restored), Then(Call(Some(t), c, done, ok), log)))
  {
    var t := |w.txs|;
    var g := Grown(w, Tx(c, Active, Tabled), log);
    var w1 := Step(g, Take(t, op));
    assert w1.txs == w.txs + [Tx(c, Active, Taken(op))];
    BodyPair(w1, t, op, ok, restored);
    var w2 := Step(w1, Body(t, ok, restored));
    assert w2.txs == w.txs + [Tx(c, if op.DoCommit? && ok then Committed else RolledBack, Spent)];
    var w3 := Step(w2, Drop(t, true, true));
    assert w3.txs == w.txs + [Tx(c, if op.DoCommit? && ok then Committed else RolledBack, Gone)];
  }

  /** From every state in which a begin is allowed: begin, a statement, then a commit or a rollback, with
      whatever answer, leaves exactly these calls behind and nothing else. */
  lemma WholeLife(w: World, call: nat, c: nat, op: Op, ok: bool, restored: bool)
    requires w.closing.None? && c in w.listed && c in w.registered && !HasTabled(w, c) && call !in w.admitted
    ensures var t, done := |w.txs|, if op.DoCommit? then Commit else Rollback;
            var a := Step(Step(w, Admit(call, c)), Start(call, true, true));
            var b := Step(Step(a, Enter(t, true)), Execute(t, true));
            Step(Step(Step(b, Take(t, op)), Body(t, ok, restored)), Drop(t, true, true))
            == Grown(w, Tx(c, if op.DoCommit? && ok then Committed else RolledBack, Gone),
                     Then(Call(Some(t), c, AutocommitOn, restored), Then(Call(Some(t), c, done, ok), BegunLog(w, c))))
  {
    Begins(w, call, c);
    Ends(w, c, BegunLog(w, c), op, ok, restored);
  }

  // ---------------------------------------------------------------------
  // Disconnecting
  // ---------------------------------------------------------------------

  function TabledOn(w: World, conn: nat): (s: set<nat>) {
    set t | 0 <= t < |w.txs| && w.txs[t].stage.Tabled? && w.txs[t].conn == conn
  }

  /** A disconnect of `conn` is under way and done with what it has taken. */
  predicate UnderWay(w: World, conn: nat) {
    && w.closing.Some? && w.closing.value.conn == conn && conn in w.registered
    && forall t :: t in w.closing.value.taken ==> Is(w, t, Gone)
  }

  /** It takes one more transaction out, rolls it back and drops it. */
  lemma TakesOne(w: World, conn: nat, t: nat)
    requires UnderWay(w, conn) && t in TabledOn(w, conn)
    ensures var w' := Step(Step(Step(w, TakeToDisconnect(t)), Body(t, true, true)), Drop(t, true, true));
            UnderWay(w', conn) && TabledOn(w', conn) == TabledOn(w, conn) - {t}
  {
    var x := w.txs[t];
    var w1 := Step(w, TakeToDisconnect(t));
    assert w1.txs == w.txs[t := Tx(conn, x.state, Taken(DoRollback))];
    var w2 := Step(w1, Body(t, true, true));
    assert w2.txs[t].stage.Spent? && forall u :: 0 <= u < |w.txs| && u != t ==> w2.txs[u] == w.txs[u];
    var w3 := Step(w2, Drop(t, true, true));
    assert w3.txs[t].stage.Gone? && forall u :: 0 <= u < |w.txs| && u != t ==> w3.txs[u] == w.txs[u];
  }

  /** From every reachable state a disconnect gets through: every transaction of the connection that is in
      the table is rolled back, and the connection is no longer registered. */
  lemma {:induction false} DisconnectEnds(w: World, conn: nat) returns (es: seq<Event>)
    requires UnderWay(w, conn)
    ensures var w' := Run(w, es); conn !in w'.registered && w'.closing.None? && TabledOn(w', conn) == {}
    decreases |TabledOn(w, conn)|
  {
    if TabledOn(w, conn) == {} {
      forall t | 0 <= t < |w.txs| && w.txs[t].stage.Tabled?
        ensures w.txs[t].conn != conn
      {
        assert t !in TabledOn(w, conn);
      }
      var w' := Step(w, EndDisconnect);
      assert w'.txs == w.txs && TabledOn(w', conn) == TabledOn(w, conn);
      es := [EndDisconnect];
      RunOne(w, EndDisconnect, []);
      assert [EndDisconnect] + [] == es;
    } else {
      var t :| t in TabledOn(w, conn);
      TakesOne(w, conn, t);
      var a, b, c := TakeToDisconnect(t), Body(t, true, true), Drop(t, true, true);
      var rest := DisconnectEnds(Step(Step(Step(w, a), b), c), conn);
      RunOne(w, a, [b] + ([c] + rest));
      RunOne(Step(w, a), b, [c] + rest);
      RunOne(Step(Step(w, a), b), c, rest);
      es := [a] + ([b] + ([c] + rest));
    }
  }

  /** And any connection that is listed can start one. */
  lemma DisconnectStarts(w: World, conn: nat)
    requires Numbered(w) && w.closing.None? && conn in w.listed
    ensures UnderWay(Step(w, StartDisconnect(conn)), conn)
    ensures conn !in Step(w, StartDisconnect(conn)).listed
  {
  }
}
