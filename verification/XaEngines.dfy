/** What each supported engine does when its statements are obeyed: whole lives of a branch. */
module XaEngines {
  import opened Xids
  import opened IdAllocator
  import opened ResourceManager
  import opened XaWorld
  import opened XaSafety

  const OBEYED := Fates(Obey, Obey, Obey, true)

  /** The table id that the next handle gets. */
  function NextId(w: World): (id: Option<U32>) { Probe(w.nextXaId, w.handles.Keys, MAX_ID_ALLOC_ATTEMPTS).0 }

  /** A branch of `x` can be begun on `c`, and its handle will get the identifier `k`. */
  predicate Free(w: World, c: nat, x: Xid, k: U32) {
    && Supported(w.engine) && x.Valid() && c in w.conns && NextId(w) == Some(k)
    && NameOf(w.engine, x) !in w.rm.branches && (w.engine.Postgres? ==> Session(c) !in w.rm.branches)
  }

  function PhaseAt(e: Engine, c: nat, st: XaState): (p: Phase) {
    if st == Prepared then S3Prepared else if st == Idle && !e.Postgres? then S2Idle(c) else S1Active(c)
  }

  /** One more handle, which has brought its branch of `x` to stage `st`: autocommit is off until it is
      prepared, and nothing else has changed. */
  function Begun(w: World, c: nat, x: Xid, k: U32, st: XaState): (r: World) {
    var h := Handle(w.nextOcc, true, c, x, st);
    Counts(w, c, x, k, st == Prepared).(
      rm := Serial(w, c, x).(branches := w.rm.branches[NameNow(w.engine, h) :=
                                           Branch(w.rm.nextSerial, PhaseAt(w.engine, c, st))]),
      handles := w.handles[k := h])
  }

  /** The same after the handle has ended from stage `was`, with what it reports and what happened. */
  function Over(w: World, c: nat, x: Xid, k: U32, was: XaState, last: XaState, o: Outcome): (r: World) {
    Counts(w, c, x, k, true).(
      rm := Serial(w, c, x).(outcome := w.rm.outcome[w.rm.nextSerial := o]),
      ended := w.ended[w.nextOcc := Ended(Handle(w.nextOcc, true, c, x, last), was, Some(w.rm.nextSerial))])
  }

  /** The counters after a start, and the mode of the connection. */
  function Counts(w: World, c: nat, x: Xid, k: U32, restored: bool): (r: World) {
    w.(conns := w.conns[c := restored], nextXaId := WrappingNext(k), nextOcc := w.nextOcc + 1,
       restores := if restored then w.restores + multiset{w.nextOcc} else w.restores,
       origins := w.origins[w.nextOcc := w.rm.nextSerial])
  }

  function Serial(w: World, c: nat, x: Xid): (rm: Rm) {
    w.rm.(nextSerial := w.rm.nextSerial + 1,
          named := w.rm.named[w.rm.nextSerial := NameNow(w.engine, Handle(w.nextOcc, true, c, x, Active))])
  }

  // ---------------------------------------------------------------------
  // Single statements
  // ---------------------------------------------------------------------

  lemma ObeyedStart(w: World, h: Handle)
    requires Supported(w.engine) && h.conn in w.conns && h.state == Active && NameNow(w.engine, h) !in w.rm.branches
    ensures Call(w, h, DoStart, Obey) == (w.(rm := Create(w.rm, NameNow(w.engine, h), h.conn)), true)
  {
  }

  lemma ObeyedEnd(w: World, h: Handle)
    requires Supported(w.engine) && h.conn in w.conns && h.state == Active && NameNow(w.engine, h) in w.rm.branches
    requires w.rm.branches[NameNow(w.engine, h)].phase == S1Active(h.conn)
    ensures Call(w, h, DoEnd, Obey) ==
              (w.(rm := SetPhase(w.rm, NameNow(w.engine, h), PhaseAt(w.engine, h.conn, Idle))), true)
  {
    if w.engine.Postgres? {
      assert SetPhase(w.rm, Session(h.conn), S1Active(h.conn)) == w.rm;
    }
  }

  lemma PostgresPrepare(w: World, h: Handle, f: Fate)
    requires w.engine.Postgres? && h.conn in w.conns && Session(h.conn) in w.rm.branches
    requires NameOf(w.engine, h.xid) !in w.rm.branches
    ensures var (w', ok) := Call(w, h, DoPrepare, f);
            && w'.rm == (if f.Refuse? then w.rm
                         else if f.RmAborts? then Finish(w.rm, Session(h.conn), DidRollback)
                         else Rename(w.rm, h.conn, NameOf(w.engine, h.xid)))
            && (ok <==> !f.Refuse? && !f.LoseReply?)
  {
  }

  lemma TablePrepare(rm: Rm, c: nat, n: BranchName, f: Fate)
    requires n in rm.branches && rm.branches[n].phase == S2Idle(c)
    ensures Table(rm, c, OpPrepare, n, f) ==
              if f.Refuse? then (rm, XaerRmFail)
              else if f.RmAborts? then (Finish(rm, n, DidRollback), XaRolledBack)
              else if f.ReadOnly? then (Finish(rm, n, DidReadOnly), XaRdOnly)
              else (SetPhase(rm, n, S3Prepared), XaOk)
  {
  }

  lemma ObeyedPrepare(w: World, h: Handle)
    requires Supported(w.engine) && h.conn in w.conns && h.state == Idle && NameNow(w.engine, h) in w.rm.branches
    requires w.rm.branches[NameNow(w.engine, h)].phase == PhaseAt(w.engine, h.conn, Idle)
    requires w.engine.Postgres? ==> NameOf(w.engine, h.xid) !in w.rm.branches
    ensures Call(w, h, DoPrepare, Obey) ==
              (w.(rm := if w.engine.Postgres? then Rename(w.rm, h.conn, NameOf(w.engine, h.xid))
                        else SetPhase(w.rm, NameOf(w.engine, h.xid), S3Prepared)), true)
  {
    if w.engine.Postgres? {
      PostgresPrepare(w, h, Obey);
    } else {
      TablePrepare(w.rm, h.conn, NameOf(w.engine, h.xid), Obey);
    }
  }

  lemma ObeyedDecision(w: World, h: Handle)
    requires Supported(w.engine) && h.conn in w.conns && PreparedAt(w.rm, NameOf(w.engine, h.xid))
    ensures Call(w, h, DoCommit, Obey) == (w.(rm := Finish(w.rm, NameOf(w.engine, h.xid), DidCommit)), true)
    ensures Call(w, h, DoRollbackPrepared, Obey) ==
              (w.(rm := Finish(w.rm, NameOf(w.engine, h.xid), DidRollback)), true)
  {
    if w.engine.Postgres? {
      PostgresDecision(w, h);
    } else {
      TableDecision(w.rm, h.conn, NameOf(w.engine, h.xid));
    }
  }

  lemma PostgresDecision(w: World, h: Handle)
    requires w.engine.Postgres? && h.conn in w.conns && PreparedAt(w.rm, NameOf(w.engine, h.xid))
    ensures Call(w, h, DoCommit, Obey) == (w.(rm := Finish(w.rm, NameOf(w.engine, h.xid), DidCommit)), true)
    ensures Call(w, h, DoRollbackPrepared, Obey) ==
              (w.(rm := Finish(w.rm, NameOf(w.engine, h.xid), DidRollback)), true)
  {
  }

  lemma TableDecision(rm: Rm, c: nat, n: BranchName)
    requires PreparedAt(rm, n)
    ensures Table(rm, c, OpCommit, n, Obey) == (Finish(rm, n, DidCommit), XaOk)
    ensures Table(rm, c, OpRollback, n, Obey) == (Finish(rm, n, DidRollback), XaOk)
  {
  }

  /** Work that was ended and not prepared; Oracle's rollback block would end it once more. */
  lemma ObeyedFinish(w: World, h: Handle)
    requires Supported(w.engine) && h.conn in w.conns && Unprepared(h) && NameNow(w.engine, h) in w.rm.branches
    requires w.rm.branches[NameNow(w.engine, h)].phase == PhaseAt(w.engine, h.conn, Idle)
    ensures Call(w, h, DoCommitOnePhase, Obey) == (w.(rm := Finish(w.rm, NameNow(w.engine, h), DidCommit)), true)
    ensures !w.engine.Oracle? ==>
              Call(w, h, DoRollback, Obey) == (w.(rm := Finish(w.rm, NameNow(w.engine, h), DidRollback)), true)
  {
  }

  /** What becomes of a prepare, whatever befalls it: obeyed, the branch is prepared under its name; a
      branch rolled back instead passes for prepared on PostgreSQL, a read-only one on Oracle. */
  lemma PrepareOutcome(w: World, h: Handle, f: Fate)
    requires Supported(w.engine) && h.conn in w.conns && h.state == Idle && NameNow(w.engine, h) in w.rm.branches
    requires w.rm.branches[NameNow(w.engine, h)].phase == PhaseAt(w.engine, h.conn, Idle)
    requires w.engine.Postgres? ==> NameOf(w.engine, h.xid) !in w.rm.branches
    ensures var s, n := w.rm.branches[NameNow(w.engine, h)].serial, NameOf(w.engine, h.xid);
            var (w', ok) := Call(w, h, DoPrepare, f);
            match f
            case Refuse => w' == w && !ok
            case RmAborts => w'.rm == Finish(w.rm, NameNow(w.engine, h), DidRollback) && (ok <==> w.engine.Postgres?)
            case ReadOnly =>
              if w.engine.Postgres? then PreparedAt(w'.rm, n) && w'.rm.branches[n].serial == s && ok
              else w'.rm == Finish(w.rm, n, DidReadOnly) && (ok <==> w.engine.Oracle?)
            case _ => PreparedAt(w'.rm, n) && w'.rm.branches[n].serial == s && (ok <==> f.Obey?)
  {
    if w.engine.Postgres? {
      PostgresPrepare(w, h, f);
    } else {
      TablePrepare(w.rm, h.conn, NameOf(w.engine, h.xid), f);
    }
  }

  // ---------------------------------------------------------------------
  // Calls
  // ---------------------------------------------------------------------

  lemma Started(w: World, c: nat, x: Xid, k: U32)
    requires Free(w, c, x, k)
    ensures Step(w, EvStart(c, x, true, OBEYED)) == Begun(w, c, x, k, Active)
  {
    ProbeFresh(w.nextXaId, w.handles.Keys, MAX_ID_ALLOC_ATTEMPTS);
    var h, w0 := Handle(w.nextOcc, true, c, x, Active), w.(conns := w.conns[c := false]);
    ObeyedStart(w0, h);
  }

  lemma EndedNow(w: World, c: nat, x: Xid, k: U32)
    requires Free(w, c, x, k)
    ensures Step(Begun(w, c, x, k, Active), EvEnd(k, OBEYED)) == Begun(w, c, x, k, Idle)
  {
    var b := Begun(w, c, x, k, Active);
    ObeyedEnd(Take(b, k), b.handles[k]);
    EndedIs(w, c, x, k);
  }

  lemma EndedIs(w: World, c: nat, x: Xid, k: U32)
    ensures var b, h := Begun(w, c, x, k, Active), Handle(w.nextOcc, true, c, x, Idle);
            Put(Take(b, k), k, h).(rm := SetPhase(b.rm, NameNow(w.engine, h), PhaseAt(w.engine, c, Idle)))
            == Begun(w, c, x, k, Idle)
  {
    var b, h := Begun(w, c, x, k, Active), Handle(w.nextOcc, true, c, x, Idle);
    assert (b.handles - {k})[k := h] == w.handles[k := h];
  }

  lemma PreparedNow(w: World, c: nat, x: Xid, k: U32)
    requires Free(w, c, x, k)
    ensures Step(Begun(w, c, x, k, Idle), EvPrepare(k, OBEYED)) == Begun(w, c, x, k, Prepared)
  {
    var b := Begun(w, c, x, k, Idle);
    ObeyedPrepare(Take(b, k), b.handles[k]);
    PreparedRm(w, c, x, k);
    RestoredNow(w, c, x, k);
  }

  lemma PreparedRm(w: World, c: nat, x: Xid, k: U32)
    requires Free(w, c, x, k)
    ensures var b, n := Begun(w, c, x, k, Idle), NameOf(w.engine, x);
            Begun(w, c, x, k, Prepared).rm ==
              if w.engine.Postgres? then Rename(b.rm, c, n) else SetPhase(b.rm, n, S3Prepared)
  {
    var b, n := Begun(w, c, x, k, Idle), NameOf(w.engine, x);
    if w.engine.Postgres? {
      assert b.rm.branches - {Session(c)} == w.rm.branches;
    }
  }

  lemma RestoredNow(w: World, c: nat, x: Xid, k: U32)
    requires c in w.conns
    ensures var b := Begun(w, c, x, k, Idle); var h := b.handles[k].(state := Prepared);
            Put(Restore(Take(b, k), h, true), k, h) == Begun(w, c, x, k, Prepared).(rm := b.rm)
  {
    var b := Begun(w, c, x, k, Idle);
    var h := b.handles[k].(state := Prepared);
    assert (b.handles - {k})[k := h] == w.handles[k := h] && b.conns[c := true] == w.conns[c := true];
  }

  /** Start, end and prepare in a row. */
  lemma PreparedInARow(w: World, c: nat, x: Xid, k: U32)
    requires Free(w, c, x, k)
    ensures Step(Step(Step(w, EvStart(c, x, true, OBEYED)), EvEnd(k, OBEYED)), EvPrepare(k, OBEYED))
            == Begun(w, c, x, k, Prepared)
  {
    Started(w, c, x, k);
    EndedNow(w, c, x, k);
    PreparedNow(w, c, x, k);
  }

  // ---------------------------------------------------------------------
  // Whole lives
  // ---------------------------------------------------------------------

  /** On every supported engine a branch that is started, ended, prepared and decided, every statement
      obeyed, ends as it was asked to, its handle says so, autocommit is back and nothing else moved. */
  lemma DecidedLife(w: World, c: nat, x: Xid, k: U32)
    requires Free(w, c, x, k)
    ensures var p := Step(Step(Step(w, EvStart(c, x, true, OBEYED)), EvEnd(k, OBEYED)), EvPrepare(k, OBEYED));
            && Step(p, EvCommitPrepared(k, OBEYED)) == Over(w, c, x, k, Prepared, Committed, DidCommit)
            && Step(p, EvRollbackPrepared(k, OBEYED)) == Over(w, c, x, k, Prepared, RolledBack, DidRollback)
  {
    PreparedInARow(w, c, x, k);
    CommittedNow(w, c, x, k);
    RolledBackNow(w, c, x, k);
  }

  lemma CommittedNow(w: World, c: nat, x: Xid, k: U32)
    requires Free(w, c, x, k)
    ensures Step(Begun(w, c, x, k, Prepared), EvCommitPrepared(k, OBEYED))
            == Over(w, c, x, k, Prepared, Committed, DidCommit)
  {
    var p := Begun(w, c, x, k, Prepared);
    ObeyedDecision(Take(p, k), p.handles[k]);
    DecisionOver(w, c, x, k, Committed, DidCommit);
  }

  lemma RolledBackNow(w: World, c: nat, x: Xid, k: U32)
    requires Free(w, c, x, k)
    ensures Step(Begun(w, c, x, k, Prepared), EvRollbackPrepared(k, OBEYED))
            == Over(w, c, x, k, Prepared, RolledBack, DidRollback)
  {
    var p := Begun(w, c, x, k, Prepared);
    ObeyedDecision(Take(p, k), p.handles[k]);
    DecisionOver(w, c, x, k, RolledBack, DidRollback);
  }

  lemma DecisionOver(w: World, c: nat, x: Xid, k: U32, last: XaState, o: Outcome)
    requires Free(w, c, x, k)
    ensures var p := Begun(w, c, x, k, Prepared);
            && Target(p, p.handles[k]) == Some(w.rm.nextSerial)
            && Retire(Take(p, k).(rm := Finish(p.rm, NameOf(w.engine, x), o)), p.handles[k], last,
                      Some(w.rm.nextSerial))
               == Over(w, c, x, k, Prepared, last, o)
  {
    var p := Begun(w, c, x, k, Prepared);
    ProbeFresh(w.nextXaId, w.handles.Keys, MAX_ID_ALLOC_ATTEMPTS);
    assert p.handles - {k} == w.handles;
    assert p.rm.branches - {NameOf(w.engine, x)} == w.rm.branches;
  }

  /** So does one that is committed in one phase or, but for Oracle, rolled back while active. */
  lemma ShortLife(w: World, c: nat, x: Xid, k: U32)
    requires Free(w, c, x, k)
    ensures var p := Step(w, EvStart(c, x, true, OBEYED));
            && Step(p, EvCommitOnePhase(k, OBEYED)) == Over(w, c, x, k, Active, Committed, DidCommit)
            && (!w.engine.Oracle? ==>
                  Step(p, EvRollbackActive(k, OBEYED)) == Over(w, c, x, k, Active, RolledBack, DidRollback))
  {
    Started(w, c, x, k);
    CommittedAtOnce(w, c, x, k);
    if !w.engine.Oracle? {
      UndoneAtOnce(w, c, x, k);
    }
  }

  lemma CommittedAtOnce(w: World, c: nat, x: Xid, k: U32)
    requires Free(w, c, x, k)
    ensures Step(Begun(w, c, x, k, Active), EvCommitOnePhase(k, OBEYED))
            == Over(w, c, x, k, Active, Committed, DidCommit)
  {
    var p := Begun(w, c, x, k, Active);
    ObeyedEnd(Take(p, k), p.handles[k]);
    ObeyedFinish(Call(Take(p, k), p.handles[k], DoEnd, Obey).0, p.handles[k]);
    WorkOver(w, c, x, k, Committed, DidCommit);
  }

  lemma UndoneAtOnce(w: World, c: nat, x: Xid, k: U32)
    requires Free(w, c, x, k) && !w.engine.Oracle?
    ensures Step(Begun(w, c, x, k, Active), EvRollbackActive(k, OBEYED))
            == Over(w, c, x, k, Active, RolledBack, DidRollback)
  {
    var p := Begun(w, c, x, k, Active);
    ObeyedEnd(Take(p, k), p.handles[k]);
    ObeyedFinish(Call(Take(p, k), p.handles[k], DoEnd, Obey).0, p.handles[k]);
    WorkOver(w, c, x, k, RolledBack, DidRollback);
  }

  lemma WorkOver(w: World, c: nat, x: Xid, k: U32, last: XaState, o: Outcome)
    requires Free(w, c, x, k)
    ensures var p := Begun(w, c, x, k, Active); var h, n := p.handles[k], NameNow(w.engine, p.handles[k]);
            var rm := Finish(SetPhase(p.rm, n, PhaseAt(w.engine, c, Idle)), n, o);
            && Target(p, h) == Some(w.rm.nextSerial)
            && Retire(Restore(Take(p, k).(rm := rm), h, true), h, last, Some(w.rm.nextSerial))
               == Over(w, c, x, k, Active, last, o)
  {
    var p := Begun(w, c, x, k, Active);
    var n := NameNow(w.engine, p.handles[k]);
    ProbeFresh(w.nextXaId, w.handles.Keys, MAX_ID_ALLOC_ATTEMPTS);
    assert p.handles - {k} == w.handles && p.conns[c := true] == w.conns[c := true];
    assert SetPhase(p.rm, n, PhaseAt(w.engine, c, Idle)).branches - {n} == w.rm.branches;
  }

  // ---------------------------------------------------------------------
  // The connection's mode
  // ---------------------------------------------------------------------

  predicate Working(w: World, id: U32) { id in w.handles && Unprepared(w.handles[id]) }

  /** Autocommit is switched back on exactly in the call in which a handle stops being active or idle, if
      its connection lives and the driver accepts; no other call on a handle touches any mode. */
  lemma ModeRestored(w: World, ev: Event)
    requires !ev.EvConnect? && !ev.EvLose? && !ev.EvCrash? && !ev.EvStart? && !ev.EvResume?
    ensures Step(w, ev).conns ==
              if Working(w, ev.id) && !Working(Step(w, ev), ev.id)
                 && w.handles[ev.id].conn in w.conns && ev.f.autocommit
              then w.conns[w.handles[ev.id].conn := true] else w.conns
  {
    match ev
    case EvEnd(id, f) => ModeEnd(w, id, f);
    case EvPrepare(id, f) => ModePrepare(w, id, f);
    case EvCommitOnePhase(id, f) => ModeOnePhase(w, id, f);
    case EvDrop(id, f) =>
    case _ =>
  }

  /** A new connection is in autocommit, and a start that gets going takes it out. */
  lemma ModeFresh(w: World, c: nat, x: Xid, k: U32)
    requires Free(w, c, x, k)
    ensures Step(w, EvConnect).conns == w.conns[w.nextConn := true]
    ensures Step(w, EvStart(c, x, true, OBEYED)).conns == w.conns[c := false]
    ensures Step(w, EvStart(c, x, false, OBEYED)) == w
  {
    Started(w, c, x, k);
  }

  lemma ModeEnd(w: World, id: U32, f: Fates)
    ensures End(w, id, f).conns ==
              if Working(w, id) && !Working(End(w, id, f), id) && w.handles[id].conn in w.conns && f.autocommit
              then w.conns[w.handles[id].conn := true] else w.conns
  {
  }

  lemma ModePrepare(w: World, id: U32, f: Fates)
    ensures Prepare(w, id, f).conns ==
              if Working(w, id) && !Working(Prepare(w, id, f), id) && w.handles[id].conn in w.conns && f.autocommit
              then w.conns[w.handles[id].conn := true] else w.conns
  {
  }

  lemma ModeOnePhase(w: World, id: U32, f: Fates)
    ensures CommitOnePhase(w, id, f).conns ==
              if Working(w, id) && !Working(CommitOnePhase(w, id, f), id)
                 && w.handles[id].conn in w.conns && f.autocommit
              then w.conns[w.handles[id].conn := true] else w.conns
  {
  }
}
