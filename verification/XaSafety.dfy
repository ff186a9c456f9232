/** Safety of two-phase commit over every run: prepared branches survive anything but a decision,
    and what a handle reports is what the resource manager did. */
module XaSafety {
  import opened Xids
  import opened IdAllocator
  import opened ResourceManager
  import opened XaWorld
  import opened XaTables

  predicate Named(e: Engine) { e.MySqlFamily? || e.Oracle? }

  predicate Supported(e: Engine) { e.Postgres? || Named(e) }

  predicate Unprepared(h: Handle) { h.state == Active || h.state == Idle }

  predicate Reaches(w: World, h: Handle) { Unprepared(h) && h.conn in w.conns }

  /** The phase the resource manager must have for an unprepared handle. */
  function PhaseFor(h: Handle): (p: Phase) {
    if h.state == Active then S1Active(h.conn) else S2Idle(h.conn)
  }

  predicate Holds(w: World, h: Handle) {
    var n := NameOf(w.engine, h.xid);
    n in w.rm.branches && w.rm.branches[n].phase == PhaseFor(h)
  }

  predicate Names(w: World, h: Handle, x: Xid) { Reaches(w, h) && h.xid == x }

  /** On engines with named branches, an unprepared handle for `x` whose connection lives has its
      branch at the same stage at the resource manager, and there is at most one such handle. */
  ghost predicate InStep(w: World, x: Xid) {
    Named(w.engine) ==>
      && (forall id :: id in w.handles && Names(w, w.handles[id], x) ==> Holds(w, w.handles[id]))
      && (forall i, j :: i in w.handles && j in w.handles && i != j && Names(w, w.handles[i], x)
            ==> !Names(w, w.handles[j], x))
  }

  ghost predicate ConnsFresh(w: World) {
    && (forall c :: c in w.conns ==> c < w.nextConn)
    && (forall id :: id in w.handles ==> w.handles[id].conn < w.nextConn)
  }

  ghost predicate Kept(w: World, x: Xid) { Staged(w) && x.Valid() && InStep(w, x) }

  /** What every run keeps, whatever happens in it. */
  ghost predicate Inv(w: World) { TablesInv(w) && RmValid(w.rm) && ConnsFresh(w) }

  // ---------------------------------------------------------------------
  // One action
  // ---------------------------------------------------------------------

  predicate SameAt(rm: Rm, rm': Rm, n: BranchName) {
    (n in rm'.branches <==> n in rm.branches) && (n in rm.branches ==> rm'.branches[n] == rm.branches[n])
  }

  lemma TableFrame(rm: Rm, c: nat, op: XaOp, m: BranchName, f: Fate, n: BranchName)
    requires n != m
    ensures SameAt(rm, Table(rm, c, op, m, f).0, n)
  {
  }

  /** An action touches only the branch its handle names. */
  lemma CallFrame(w: World, h: Handle, a: Action, f: Fate, n: BranchName)
    requires Named(w.engine) && n != NameOf(w.engine, h.xid)
    ensures SameAt(w.rm, Call(w, h, a, f).0.rm, n)
  {
    var m := NameOf(w.engine, h.xid);
    TableFrame(w.rm, h.conn, OpOf(a), m, f, n);
    if w.engine.Oracle? && a.DoRollback? {
      TableFrame(w.rm, h.conn, OpEnd, m, f, n);
      TableFrame(Table(w.rm, h.conn, OpEnd, m, f).0, h.conn, OpRollback, m, f, n);
    }
  }

  /** The resource manager's books stay in order under any action. */
  lemma CallValid(w: World, h: Handle, a: Action, f: Fate)
    requires RmValid(w.rm)
    ensures RmValid(Call(w, h, a, f).0.rm) && OutcomesKept(w.rm, Call(w, h, a, f).0.rm)
  {
    var m := Emit(w.engine, a, h.xid);
    if h.conn in w.conns && m.Send? {
      DeliverValid(w.rm, h.conn, m.s, f);
    }
  }

  /** Only a start makes a branch. */
  lemma CallMakesNone(w: World, h: Handle, a: Action, f: Fate)
    requires !a.DoStart?
    ensures Call(w, h, a, f).0.rm.nextSerial == w.rm.nextSerial
  {
    var m := Emit(w.engine, a, h.xid);
    if h.conn in w.conns && m.Send? {
      DeliverMakesNone(w.rm, h.conn, m.s, f);
    }
  }

  lemma DeliverMakesNone(rm: Rm, c: nat, s: Statement, f: Fate)
    requires !s.PgBegin? && (s.XaCall? ==> !s.op.OpStart?)
    ensures Deliver(rm, c, s, f).0.nextSerial == rm.nextSerial
  {
    if s.XaCall? {
      TableMakesNone(rm, c, s.op, s.name, f);
    } else if s.EndThenRollback? {
      TableMakesNone(rm, c, OpEnd, s.name, f);
      TableMakesNone(Table(rm, c, OpEnd, s.name, f).0, c, OpRollback, s.name, f);
    }
  }

  lemma TableMakesNone(rm: Rm, c: nat, op: XaOp, n: BranchName, f: Fate)
    requires !op.OpStart?
    ensures Table(rm, c, op, n, f).0.nextSerial == rm.nextSerial
  {
  }

  predicate PreparedAt(rm: Rm, n: BranchName) { n in rm.branches && rm.branches[n].phase.S3Prepared? }

  lemma TableKeepsPrepared(rm: Rm, c: nat, op: XaOp, m: BranchName, f: Fate, n: BranchName)
    requires PreparedAt(rm, n) && !op.OpCommit? && (op.OpRollback? ==> m != n)
    ensures SameAt(rm, Table(rm, c, op, m, f).0, n)
  {
  }

  lemma PostgresKeepsPrepared(rm: Rm, c: nat, s: Statement, f: Fate, n: BranchName)
    requires PreparedAt(rm, n) && n.Gid?
    requires s.PgBegin? || s.PgCommit? || s.PgRollback? || s.PgPrepare?
    ensures SameAt(rm, Postgresql(rm, c, s, f).0, n)
  {
  }

  /** Only phase-two actions, and a rollback by name, can move a prepared branch. */
  lemma CallKeepsPrepared(w: World, h: Handle, a: Action, f: Fate, n: BranchName)
    requires PreparedAt(w.rm, n) && !n.Session? && (w.engine.Postgres? ==> n.Gid?)
    requires !a.DoCommit? && !a.DoRollbackPrepared?
    requires w.engine.MySqlFamily? && a.DoRollback? && h.conn in w.conns ==> n != NameOf(w.engine, h.xid)
    ensures SameAt(w.rm, Call(w, h, a, f).0.rm, n)
  {
    if h.conn in w.conns {
      match w.engine
      case Postgres => PostgresCallKeeps(w, h, a, f, n);
      case MySqlFamily => TableKeepsPrepared(w.rm, h.conn, OpOf(a), NameOf(w.engine, h.xid), f, n);
      case Oracle => OracleKeepsPrepared(w, h, a, f, n);
      case _ =>
    }
  }

  lemma PostgresCallKeeps(w: World, h: Handle, a: Action, f: Fate, n: BranchName)
    requires w.engine.Postgres? && PreparedAt(w.rm, n) && n.Gid? && !a.DoCommit? && !a.DoRollbackPrepared?
    ensures SameAt(w.rm, Call(w, h, a, f).0.rm, n)
  {
    var e := Emit(w.engine, a, h.xid);
    if e.Send? { PostgresKeepsPrepared(w.rm, h.conn, e.s, f, n); }
  }

  lemma OracleKeepsPrepared(w: World, h: Handle, a: Action, f: Fate, n: BranchName)
    requires w.engine.Oracle? && h.conn in w.conns && PreparedAt(w.rm, n)
    requires !a.DoCommit? && !a.DoRollbackPrepared?
    ensures SameAt(w.rm, Call(w, h, a, f).0.rm, n)
  {
    var m := NameOf(w.engine, h.xid);
    if a.DoRollback? {
      TableKeepsPrepared(w.rm, h.conn, OpEnd, m, f, n);
      if m != n {
        TableKeepsPrepared(Table(w.rm, h.conn, OpEnd, m, f).0, h.conn, OpRollback, m, f, n);
      }
    } else {
      TableKeepsPrepared(w.rm, h.conn, OpOf(a), m, f, n);
    }
  }

  // ---------------------------------------------------------------------
  // Handles and branches in step
  // ---------------------------------------------------------------------

  /** A phase-two rollback that gets through, by a handle for `x`, while another handle on the same
      connection still holds `x` idle. Nothing in the engine forbids it, and it pulls that branch away. */
  ghost predicate Stray(w: World, ev: Event, x: Xid) {
    ev.EvRollbackPrepared? && Has(w, ev.id, Prepared) && w.handles[ev.id].xid == x
    && w.handles[ev.id].conn in w.conns && !ev.f.a.Refuse?
    && exists k :: k in w.handles && w.handles[k].state == Idle
                   && w.handles[k].xid == x && w.handles[k].conn == w.handles[ev.id].conn
  }

  /** A call for another identifier leaves the branch of `x` alone. */
  lemma CallAway(w: World, h: Handle, a: Action, f: Fate, x: Xid)
    requires Named(w.engine) && h.xid.Valid() && x.Valid() && h.xid != x
    ensures SameAt(w.rm, Call(w, h, a, f).0.rm, NameOf(w.engine, x))
  {
    if NameOf(w.engine, h.xid) == NameOf(w.engine, x) {
      NameInjective(w.engine, h.xid, x);
    } else {
      CallFrame(w, h, a, f, NameOf(w.engine, x));
    }
  }

  lemma DiscardAway(w: World, h: Handle, f: Fates, x: Xid)
    requires Named(w.engine) && h.xid.Valid() && x.Valid() && h.xid != x
    ensures SameAt(w.rm, Discard(w, h, f).rm, NameOf(w.engine, x))
  {
    CallAway(w, h, DoEnd, f.b, x);
    CallAway(Call(w, h, DoEnd, f.b).0, h, DoRollback, f.c, x);
  }

  /** Up to two actions and a drop, all for another identifier. */
  lemma CallsAway(w: World, h: Handle, a: Action, b: Action, f: Fates, x: Xid)
    requires Named(w.engine) && h.xid.Valid() && x.Valid() && h.xid != x
    ensures var n, w1 := NameOf(w.engine, x), Call(w, h, a, f.a).0;
            && SameAt(w.rm, w1.rm, n)
            && SameAt(w.rm, Call(w1, h, b, f.b).0.rm, n)
            && SameAt(w.rm, Discard(w1, h, f).rm, n)
  {
    CallAway(w, h, a, f.a, x);
    var w1 := Call(w, h, a, f.a).0;
    CallAway(w1, h, b, f.b, x);
    DiscardAway(w1, h, f, x);
  }

  /** Handles for `x` that reach their branch stay in step if neither they nor the branch change. */
  lemma Untouched(w: World, w': World, x: Xid)
    requires Kept(w, x) && w'.engine == w.engine && SameAt(w.rm, w'.rm, NameOf(w.engine, x))
    requires forall k :: k in w'.handles && Names(w', w'.handles[k], x)
               ==> k in w.handles && w.handles[k] == w'.handles[k] && Names(w, w.handles[k], x)
    ensures InStep(w', x)
  {
  }

  /** A handle that leaves, or is prepared, cannot put the others out of step. */
  lemma Leaves(w: World, w': World, id: U32, x: Xid)
    requires Kept(w, x) && id in w.handles && Unprepared(w.handles[id])
    requires w'.engine == w.engine && w'.conns.Keys == w.conns.Keys
    requires forall k :: k in w'.handles && Unprepared(w'.handles[k])
               ==> k != id && k in w.handles && w'.handles[k] == w.handles[k]
    requires Named(w.engine) && w.handles[id].xid != x ==> SameAt(w.rm, w'.rm, NameOf(w.engine, x))
    requires w.handles[id].conn !in w.conns ==> w'.rm == w.rm
    ensures InStep(w', x)
  {
    if Named(w.engine) && !Names(w, w.handles[id], x) {
      Untouched(w, w', x);
    }
  }

  lemma InStepEnd(w: World, id: U32, f: Fates, x: Xid)
    requires Kept(w, x) && Has(w, id, Active) && Named(w.engine)
    ensures InStep(End(w, id, f), x)
  {
    var h := w.handles[id];
    var (w1, ok) := Call(Take(w, id), h, DoEnd, f.a);
    if h.xid != x {
      CallsAway(Take(w, id), h, DoEnd, DoEnd, f, x);
    }
    if !ok {
      Leaves(w, End(w, id, f), id, x);
    } else if h.xid != x {
      Untouched(w, End(w, id, f), x);
    } else {
      EndsOwn(w, id, f, x);
    }
  }

  lemma EndsOwn(w: World, id: U32, f: Fates, x: Xid)
    requires Kept(w, x) && Has(w, id, Active) && Named(w.engine) && w.handles[id].xid == x
    requires Call(Take(w, id), w.handles[id], DoEnd, f.a).1
    ensures InStep(End(w, id, f), x)
  {
    var h, w' := w.handles[id], End(w, id, f);
    assert Names(w, h, x) && Holds(w, h);
    assert Holds(w', h.(state := Idle));
    forall k | k in w'.handles && Names(w', w'.handles[k], x) ensures k == id {
      assert k != id ==> Names(w, w.handles[k], x);
    }
  }

  lemma InStepPrepare(w: World, id: U32, f: Fates, x: Xid)
    requires Kept(w, x) && Has(w, id, Idle) && Named(w.engine)
    ensures InStep(Prepare(w, id, f), x)
  {
    if w.handles[id].xid != x {
      CallAway(Take(w, id), w.handles[id], DoPrepare, f.a, x);
    }
    Leaves(w, Prepare(w, id, f), id, x);
  }

  lemma InStepOnePhase(w: World, id: U32, f: Fates, x: Xid)
    requires Kept(w, x) && Has(w, id, Active) && Named(w.engine)
    ensures InStep(CommitOnePhase(w, id, f), x)
  {
    if w.handles[id].xid != x {
      CallsAway(Take(w, id), w.handles[id], DoEnd, DoCommitOnePhase, f, x);
    }
    Leaves(w, CommitOnePhase(w, id, f), id, x);
  }

  lemma InStepRollbackActive(w: World, id: U32, f: Fates, x: Xid)
    requires Kept(w, x) && Has(w, id, Active) && Named(w.engine)
    ensures InStep(RollbackActive(w, id, f), x)
  {
    if w.handles[id].xid != x {
      CallsAway(Take(w, id), w.handles[id], DoEnd, DoRollback, f, x);
    }
    Leaves(w, RollbackActive(w, id, f), id, x);
  }

  lemma InStepRollbackIdle(w: World, id: U32, f: Fates, x: Xid)
    requires Kept(w, x) && Has(w, id, Idle) && Named(w.engine)
    ensures InStep(RollbackIdle(w, id, f), x)
  {
    if w.handles[id].xid != x {
      CallAway(Take(w, id), w.handles[id], DoRollback, f.a, x);
    }
    Leaves(w, RollbackIdle(w, id, f), id, x);
  }

  lemma InStepDrop(w: World, id: U32, f: Fates, x: Xid)
    requires Kept(w, x) && id in w.handles && Named(w.engine)
    ensures InStep(DropHandle(w, id, f), x)
  {
    if !Unprepared(w.handles[id]) {
      Untouched(w, DropHandle(w, id, f), x);
    } else {
      if w.handles[id].xid != x {
        DiscardAway(Take(w, id), w.handles[id], f, x);
      }
      Leaves(w, DropHandle(w, id, f), id, x);
    }
  }

  /** A start that is heard to succeed made a branch where there was none. */
  lemma StartCall(w: World, h: Handle, f: Fate)
    requires Named(w.engine) && h.conn in w.conns && h.state == Active
    ensures var (w1, ok) := Call(w, h, DoStart, f); var n := NameOf(w.engine, h.xid);
            && (ok ==> n !in w.rm.branches && Holds(w1, h))
            && (n in w.rm.branches ==> w1.rm == w.rm)
  {
  }

  lemma NobodyNames(w: World, x: Xid)
    requires Kept(w, x) && Named(w.engine) && NameOf(w.engine, x) !in w.rm.branches
    ensures forall k :: k in w.handles ==> !Names(w, w.handles[k], x)
  {
    forall k | k in w.handles ensures !Names(w, w.handles[k], x) {
      assert Names(w, w.handles[k], x) ==> Holds(w, w.handles[k]);
    }
  }

  /** Registering a branch just started, when no handle names its identifier yet. */
  lemma InStepAdmit(w: World, id: Option<U32>, h: Handle, f: Fates, x: Xid)
    requires Named(w.engine) && h.xid == x && h.state == Active && Holds(w, h)
    requires forall k :: k in w.handles ==> !Names(w, w.handles[k], x)
    requires id.Some? ==> id.value !in w.handles
    ensures InStep(Admit(w, id, h, f), x)
  {
    var w' := Admit(w, id, h, f);
    assert forall k :: k in w'.handles && k in w.handles ==> w'.handles[k] == w.handles[k];
  }

  lemma InStepStartOwn(w: World, c: nat, x: Xid, f: Fates)
    requires Kept(w, x) && Named(w.engine) && c in w.conns
    ensures InStep(Start(w, c, x, true, f), x)
  {
    var h, w0 := Handle(w.nextOcc, true, c, x, Active), w.(conns := w.conns[c := false]);
    var (w1, ok) := Call(w0, h, DoStart, f.a);
    StartCall(w0, h, f.a);
    if NameOf(w.engine, x) !in w.rm.branches {
      NobodyNames(w, x);
    }
    if ok {
      var a := Probe(w1.nextXaId, w1.handles.Keys, MAX_ID_ALLOC_ATTEMPTS);
      ProbeFresh(w1.nextXaId, w1.handles.Keys, MAX_ID_ALLOC_ATTEMPTS);
      InStepAdmit(Counted(w1, a.1, h), a.0, h, f, x);
    } else if NameOf(w.engine, x) in w.rm.branches {
      Untouched(w, w1, x);
    }
  }

  /** Starting another identifier leaves the branch of `x` alone. */
  lemma StartAway(w: World, c: nat, y: Xid, off: bool, f: Fates, x: Xid)
    requires Named(w.engine) && x.Valid() && y.Valid() && x != y
    ensures SameAt(w.rm, Start(w, c, y, off, f).rm, NameOf(w.engine, x))
  {
    if c in w.conns && off {
      var h, w0 := Handle(w.nextOcc, true, c, y, Active), w.(conns := w.conns[c := false]);
      var (w1, ok) := Call(w0, h, DoStart, f.a);
      CallAway(w0, h, DoStart, f.a, x);
      if ok {
        var a := Probe(w1.nextXaId, w1.handles.Keys, MAX_ID_ALLOC_ATTEMPTS);
        DiscardAway(Counted(w1, a.1, h), h, f, x);
      }
    }
  }

  lemma InStepStart(w: World, c: nat, y: Xid, off: bool, f: Fates, x: Xid)
    requires Kept(w, x) && Named(w.engine) && y.Valid()
    ensures InStep(Start(w, c, y, off, f), x)
  {
    if c in w.conns && off && y == x {
      InStepStartOwn(w, c, x, f);
    } else if y != x {
      StartAway(w, c, y, off, f, x);
      var m := ClassifyStart(w, c, y, off, f);
      StartsOther(w, Start(w, c, y, off, f), m, x);
    }
  }

  lemma StartsOther(w: World, w': World, m: Move, x: Xid)
    requires Kept(w, x) && Frame(w, w') && SameAt(w.rm, w'.rm, NameOf(w.engine, x)) && IsMove(w, w', m)
    requires m.Stay? || m.Stillborn? || (m.Enter? && (m.h.xid == x ==> m.h.state == Prepared))
    ensures InStep(w', x)
  {
    forall k | k in w'.handles && Names(w', w'.handles[k], x)
      ensures k in w.handles && w.handles[k] == w'.handles[k] && Names(w, w.handles[k], x)
    {
      assert w'.handles[k].conn in w'.conns.Keys;
    }
    Untouched(w, w', x);
  }

  lemma InStepResume(w: World, c: nat, y: Xid, x: Xid)
    requires Kept(w, x) && y.Valid()
    ensures InStep(Resume(w, c, y), x)
  {
    var m := ClassifyResume(w, c, y);
    StartsOther(w, Resume(w, c, y), m, x);
  }

  lemma DecideSpares(w: World, h: Handle, a: Action, f: Fate)
    requires Named(w.engine) && (a.DoCommit? || a.DoRollbackPrepared?)
    requires var n := NameOf(w.engine, h.xid);
             n in w.rm.branches && (h.conn !in w.conns || f.Refuse? || w.rm.branches[n].phase.S1Active?
               || (w.rm.branches[n].phase.S2Idle? && (a.DoCommit? || w.rm.branches[n].phase.conn != h.conn)))
    ensures Call(w, h, a, f).0.rm == w.rm
  {
  }

  /** A decision reaches only a prepared branch, unless it is a stray rollback. */
  lemma InStepDecide(w: World, ev: Event, x: Xid)
    requires Kept(w, x) && (ev.EvCommitPrepared? || ev.EvRollbackPrepared?) && Has(w, ev.id, Prepared)
    requires !Stray(w, ev, x)
    ensures InStep(Step(w, ev), x)
  {
    if Named(w.engine) && exists k :: k in w.handles && Names(w, w.handles[k], x) {
      var h, w0 := w.handles[ev.id], Take(w, ev.id);
      var a := if ev.EvCommitPrepared? then DoCommit else DoRollbackPrepared;
      if h.xid != x {
        CallAway(w0, h, a, ev.f.a, x);
      } else {
        var k :| k in w.handles && Names(w, w.handles[k], x);
        assert Holds(w, w.handles[k]);
        DecideSpares(w0, h, a, ev.f.a);
      }
      Decided(w, ev, a, x);
    }
  }

  lemma Decided(w: World, ev: Event, a: Action, x: Xid)
    requires Kept(w, x) && (ev.EvCommitPrepared? || ev.EvRollbackPrepared?) && Has(w, ev.id, Prepared)
    requires a == if ev.EvCommitPrepared? then DoCommit else DoRollbackPrepared
    requires SameAt(w.rm, Call(Take(w, ev.id), w.handles[ev.id], a, ev.f.a).0.rm, NameOf(w.engine, x))
    ensures InStep(Step(w, ev), x)
  {
    Untouched(w, Step(w, ev), x);
  }

  lemma InStepLose(w: World, w': World, cs: set<nat>, x: Xid)
    requires Kept(w, x) && w'.engine == w.engine && w'.rm == Disconnected(w.rm, cs)
    requires w'.conns.Keys == w.conns.Keys - cs
    requires forall k :: k in w'.handles ==> k in w.handles && w'.handles[k] == w.handles[k]
    ensures InStep(w', x)
  {
    if Named(w.engine) {
      forall k | k in w'.handles && Names(w', w'.handles[k], x) ensures Holds(w', w'.handles[k]) {
        assert w'.handles[k].conn in w'.conns.Keys;
        assert Names(w, w.handles[k], x) && Holds(w, w.handles[k]);
      }
    }
  }

  lemma InStepAccident(w: World, ev: Event, x: Xid)
    requires Kept(w, x) && ConnsFresh(w) && (ev.EvConnect? || ev.EvLose? || ev.EvCrash?)
    ensures InStep(Step(w, ev), x)
  {
    if ev.EvConnect? {
      Untouched(w, Step(w, ev), x);
    } else {
      InStepLose(w, Step(w, ev), if ev.EvLose? then {ev.conn} else w.conns.Keys, x);
    }
  }

  lemma InStepWorking(w: World, ev: Event, x: Xid)
    requires Kept(w, x) && Named(w.engine)
    requires ev.EvEnd? || ev.EvPrepare? || ev.EvCommitOnePhase? || ev.EvRollbackActive? || ev.EvRollbackIdle?
    ensures InStep(Step(w, ev), x)
  {
    if ev.EvEnd? {
      if Has(w, ev.id, Active) { InStepEnd(w, ev.id, ev.f, x); }
    } else if ev.EvPrepare? {
      if Has(w, ev.id, Idle) { InStepPrepare(w, ev.id, ev.f, x); }
    } else if ev.EvCommitOnePhase? {
      if Has(w, ev.id, Active) { InStepOnePhase(w, ev.id, ev.f, x); }
    } else if ev.EvRollbackActive? {
      if Has(w, ev.id, Active) { InStepRollbackActive(w, ev.id, ev.f, x); }
    } else if Has(w, ev.id, Idle) {
      InStepRollbackIdle(w, ev.id, ev.f, x);
    }
  }

  /** Any step but a stray rollback of `x` keeps the handles for `x` in step with its branch. */
  lemma InStepStep(w: World, ev: Event, x: Xid)
    requires Kept(w, x) && ConnsFresh(w) && !Stray(w, ev, x)
    ensures InStep(Step(w, ev), x)
  {
    if Named(w.engine) {
      if ev.EvConnect? || ev.EvLose? || ev.EvCrash? {
        InStepAccident(w, ev, x);
      } else if ev.EvStart? {
        if ev.xid.Valid() { InStepStart(w, ev.conn, ev.xid, ev.autocommitOff, ev.f, x); }
      } else if ev.EvResume? {
        if ev.xid.Valid() { InStepResume(w, ev.conn, ev.xid, x); }
      } else if ev.EvDrop? {
        if ev.id in w.handles { InStepDrop(w, ev.id, ev.f, x); }
      } else if ev.EvCommitPrepared? || ev.EvRollbackPrepared? {
        if Has(w, ev.id, Prepared) { InStepDecide(w, ev, x); }
      } else {
        InStepWorking(w, ev, x);
      }
    }
  }

  // ---------------------------------------------------------------------
  // The resource manager's books
  // ---------------------------------------------------------------------

  /** The books are in order, nothing in them was revised, and no branch was made. */
  ghost predicate Sound(rm: Rm, rm': Rm) {
    RmValid(rm') && OutcomesKept(rm, rm') && rm'.nextSerial == rm.nextSerial
  }

  lemma CallSound(w: World, h: Handle, a: Action, f: Fate)
    requires RmValid(w.rm) && !a.DoStart?
    ensures Sound(w.rm, Call(w, h, a, f).0.rm)
  {
    CallValid(w, h, a, f);
    CallMakesNone(w, h, a, f);
  }

  lemma SoundTwice(a: Rm, b: Rm, c: Rm)
    requires Sound(a, b) && Sound(b, c)
    ensures Sound(a, c)
  {
  }

  lemma DiscardSound(w: World, h: Handle, f: Fates)
    requires RmValid(w.rm)
    ensures Sound(w.rm, Discard(w, h, f).rm)
  {
    var w1 := Call(w, h, DoEnd, f.b).0;
    CallSound(w, h, DoEnd, f.b);
    CallSound(w1, h, DoRollback, f.c);
    SoundTwice(w.rm, w1.rm, Call(w1, h, DoRollback, f.c).0.rm);
  }

  lemma CallsSound(w: World, h: Handle, a: Action, b: Action, f: Fates)
    requires RmValid(w.rm) && !a.DoStart? && !b.DoStart?
    ensures var w1 := Call(w, h, a, f.a).0;
            Sound(w.rm, w1.rm) && Sound(w.rm, Call(w1, h, b, f.b).0.rm) && Sound(w.rm, Discard(w1, h, f).rm)
  {
    var w1 := Call(w, h, a, f.a).0;
    CallSound(w, h, a, f.a);
    CallSound(w1, h, b, f.b);
    SoundTwice(w.rm, w1.rm, Call(w1, h, b, f.b).0.rm);
    DiscardSound(w1, h, f);
    SoundTwice(w.rm, w1.rm, Discard(w1, h, f).rm);
  }

  lemma EndSound(w: World, id: U32, f: Fates)
    requires RmValid(w.rm)
    ensures Sound(w.rm, End(w, id, f).rm)
  {
    if Has(w, id, Active) { CallsSound(Take(w, id), w.handles[id], DoEnd, DoEnd, f); }
  }

  lemma PrepareSound(w: World, id: U32, f: Fates)
    requires RmValid(w.rm)
    ensures Sound(w.rm, Prepare(w, id, f).rm)
  {
    if Has(w, id, Idle) { CallsSound(Take(w, id), w.handles[id], DoPrepare, DoEnd, f); }
  }

  lemma OnePhaseSound(w: World, id: U32, f: Fates)
    requires RmValid(w.rm)
    ensures Sound(w.rm, CommitOnePhase(w, id, f).rm)
  {
    if Has(w, id, Active) { CallsSound(Take(w, id), w.handles[id], DoEnd, DoCommitOnePhase, f); }
  }

  lemma RollbackActiveSound(w: World, id: U32, f: Fates)
    requires RmValid(w.rm)
    ensures Sound(w.rm, RollbackActive(w, id, f).rm)
  {
    if Has(w, id, Active) { CallsSound(Take(w, id), w.handles[id], DoEnd, DoRollback, f); }
  }

  lemma SingleSound(w: World, id: U32, f: Fates)
    requires RmValid(w.rm)
    ensures Sound(w.rm, RollbackIdle(w, id, f).rm) && Sound(w.rm, CommitPrepared(w, id, f).rm)
    ensures Sound(w.rm, RollbackPrepared(w, id, f).rm)
  {
    if id in w.handles {
      CallSound(Take(w, id), w.handles[id], DoRollback, f.a);
      CallSound(Take(w, id), w.handles[id], DoCommit, f.a);
      CallSound(Take(w, id), w.handles[id], DoRollbackPrepared, f.a);
    }
  }

  lemma DropSound(w: World, id: U32, f: Fates)
    requires RmValid(w.rm)
    ensures Sound(w.rm, DropHandle(w, id, f).rm)
  {
    if id in w.handles { DiscardSound(Take(w, id), w.handles[id], f); }
  }

  lemma StartValid(w: World, c: nat, x: Xid, off: bool, f: Fates)
    requires RmValid(w.rm)
    ensures RmValid(Start(w, c, x, off, f).rm) && OutcomesKept(w.rm, Start(w, c, x, off, f).rm)
  {
    if c in w.conns && off {
      var h, w0 := Handle(w.nextOcc, true, c, x, Active), w.(conns := w.conns[c := false]);
      var w1 := Call(w0, h, DoStart, f.a).0;
      CallValid(w0, h, DoStart, f.a);
      var a := Probe(w1.nextXaId, w1.handles.Keys, MAX_ID_ALLOC_ATTEMPTS);
      DiscardSound(Counted(w1, a.1, h), h, f);
    }
  }

  lemma CallStepSound(w: World, ev: Event)
    requires RmValid(w.rm) && !ev.EvStart? && !ev.EvResume? && !ev.EvConnect? && !ev.EvLose? && !ev.EvCrash?
    ensures Sound(w.rm, Step(w, ev).rm)
  {
    if ev.EvEnd? {
      EndSound(w, ev.id, ev.f);
    } else if ev.EvPrepare? {
      PrepareSound(w, ev.id, ev.f);
    } else if ev.EvCommitOnePhase? {
      OnePhaseSound(w, ev.id, ev.f);
    } else if ev.EvRollbackActive? {
      RollbackActiveSound(w, ev.id, ev.f);
    } else if ev.EvDrop? {
      DropSound(w, ev.id, ev.f);
    } else {
      SingleSound(w, ev.id, ev.f);
    }
  }

  /** The resource manager's books stay in order over any step: outcomes and names stay, and only a
      start makes a branch. */
  lemma BooksStep(w: World, ev: Event)
    requires RmValid(w.rm)
    ensures RmValid(Step(w, ev).rm) && OutcomesKept(w.rm, Step(w, ev).rm)
    ensures !ev.EvStart? ==> Sound(w.rm, Step(w, ev).rm)
  {
    if ev.EvStart? {
      if ev.xid.Valid() { StartValid(w, ev.conn, ev.xid, ev.autocommitOff, ev.f); }
    } else if ev.EvLose? || ev.EvCrash? {
      DisconnectedValid(w.rm, if ev.EvLose? then {ev.conn} else w.conns.Keys);
    } else if !ev.EvResume? && !ev.EvConnect? {
      CallStepSound(w, ev);
    }
  }

  lemma FreshMove(w: World, w': World, m: Move)
    requires ConnsFresh(w) && IsMove(w, w', m)
    requires w'.nextConn >= w.nextConn && forall c :: c in w'.conns ==> c < w'.nextConn
    ensures ConnsFresh(w')
  {
  }

  lemma FreshStep(w: World, ev: Event)
    requires TablesInv(w) && ConnsFresh(w)
    ensures ConnsFresh(Step(w, ev))
  {
    var m := Classify(w, ev);
    var w' := Step(w, ev);
    if !ev.EvConnect? && !ev.EvLose? && !ev.EvCrash? {
      assert Frame(w, w');
      assert forall c :: c in w'.conns ==> c in w'.conns.Keys;
    }
    FreshMove(w, w', m);
  }

  lemma InvStep(w: World, ev: Event)
    requires Inv(w)
    ensures Inv(Step(w, ev))
  {
    TablesStep(w, ev);
    BooksStep(w, ev);
    FreshStep(w, ev);
  }

  /** Tables, books and connection numbers stay in order in every run. */
  lemma {:induction false} InvRun(w: World, evs: seq<Event>)
    requires Inv(w)
    ensures Inv(Run(w, evs))
    decreases |evs|
  {
    if evs != [] {
      InvStep(w, evs[0]);
      InvRun(Step(w, evs[0]), evs[1..]);
    }
  }

  ghost predicate NoStray(w: World, evs: seq<Event>, x: Xid)
    decreases |evs|
  {
    evs == [] || (!Stray(w, evs[0], x) && NoStray(Step(w, evs[0]), evs[1..], x))
  }

  /** In every run without a stray rollback of `x`, handles for `x` and its branch stay in step. */
  lemma {:induction false} InStepRun(w: World, evs: seq<Event>, x: Xid)
    requires Inv(w) && x.Valid() && InStep(w, x) && NoStray(w, evs, x)
    ensures InStep(Run(w, evs), x)
    decreases |evs|
  {
    if evs != [] {
      InvStep(w, evs[0]);
      InStepStep(w, evs[0], x);
      InStepRun(Step(w, evs[0]), evs[1..], x);
    }
  }

  lemma InitInv(e: Engine, x: Xid)
    ensures Inv(Init(e)) && InStep(Init(e), x)
  {
  }
}
