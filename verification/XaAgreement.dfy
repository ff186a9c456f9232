/** What a finished handle reports against what the resource manager did. */
module XaAgreement {
  import opened Xids
  import opened IdAllocator
  import opened ResourceManager
  import opened XaWorld
  import opened XaTables
  import opened XaSafety

  predicate Settled(rm: Rm, t: Option<nat>, o: Outcome) { t.Some? && t.value in rm.outcome && rm.outcome[t.value] == o }

  /** Where success can also mean that there was nothing to do: Oracle's phase two takes an unknown
      branch for a finished one, PostgreSQL ends a session's work that is not there with a warning. */
  predicate Lenient(e: Engine, was: XaState) { if was == Prepared then e.Oracle? else e.Postgres? }

  predicate Reported(engine: Engine, rm: Rm, e: Ended) {
    && (e.h.state == Committed ==>
          Settled(rm, e.target, DidCommit) || (Lenient(engine, e.was) && e.target.None?))
    && (e.h.state == RolledBack ==>
          Settled(rm, e.target, DidRollback) || (Lenient(engine, e.was) && e.target.None?))
  }

  /** Every report is true of the branch the handle's name stood for when its last call began. */
  ghost predicate Truthful(w: World) {
    forall o :: o in w.ended ==> Reported(w.engine, w.rm, w.ended[o])
  }

  /** The stage a finishing action is for. */
  predicate Fits(h: Handle, a: Action) {
    && (a.DoCommit? || a.DoRollbackPrepared? ==> h.state == Prepared)
    && (a.DoCommitOnePhase? || a.DoRollback? ==> Unprepared(h))
  }

  /** PostgreSQL answers COMMIT in a failed transaction with success, and rolls back. */
  predicate FailedCommit(e: Engine, a: Action, f: Fate) { e.Postgres? && a.DoCommitOnePhase? && f.RmAborts? }

  function Asked(a: Action): (o: Outcome) { if a.DoCommit? || a.DoCommitOnePhase? then DidCommit else DidRollback }

  predicate Deciding(a: Action) { a.DoCommit? || a.DoCommitOnePhase? || a.DoRollback? || a.DoRollbackPrepared? }

  /** On every engine a success that is heard fixes the outcome that was asked for, of the branch that
      the handle's name stood for, unless there was none and the engine is lenient about that. */
  lemma HeardSuccess(w: World, h: Handle, a: Action, f: Fate)
    requires Deciding(a) && Fits(h, a) && !FailedCommit(w.engine, a, f) && Call(w, h, a, f).1
    ensures Settled(Call(w, h, a, f).0.rm, Target(w, h), Asked(a))
            || (Lenient(w.engine, h.state) && Target(w, h).None? && Call(w, h, a, f).0.rm == w.rm)
  {
    match w.engine
    case Postgres => HeardPostgres(w, h, a, f);
    case Oracle => HeardOracle(w, h, a, f);
    case MySqlFamily =>
    case _ =>
  }

  lemma HeardPostgres(w: World, h: Handle, a: Action, f: Fate)
    requires w.engine.Postgres? && Deciding(a) && Fits(h, a) && !FailedCommit(w.engine, a, f) && Call(w, h, a, f).1
    ensures Settled(Call(w, h, a, f).0.rm, Target(w, h), Asked(a))
            || (Unprepared(h) && Target(w, h).None? && Call(w, h, a, f).0.rm == w.rm)
  {
    if a.DoCommit? || a.DoRollbackPrepared? {
      HeardPrepared(w, h, a, f);
    } else {
      HeardSession(w, h, a, f);
    }
  }

  lemma HeardPrepared(w: World, h: Handle, a: Action, f: Fate)
    requires w.engine.Postgres? && (a.DoCommit? || a.DoRollbackPrepared?) && h.state == Prepared && Call(w, h, a, f).1
    ensures Settled(Call(w, h, a, f).0.rm, Target(w, h), Asked(a))
  {
  }

  lemma HeardSession(w: World, h: Handle, a: Action, f: Fate)
    requires w.engine.Postgres? && (a.DoCommitOnePhase? || a.DoRollback?) && Unprepared(h)
    requires !FailedCommit(w.engine, a, f) && Call(w, h, a, f).1
    ensures Settled(Call(w, h, a, f).0.rm, Target(w, h), Asked(a))
            || (Target(w, h).None? && Call(w, h, a, f).0.rm == w.rm)
  {
  }

  lemma HeardOracle(w: World, h: Handle, a: Action, f: Fate)
    requires w.engine.Oracle? && Deciding(a) && Fits(h, a) && Call(w, h, a, f).1
    ensures Settled(Call(w, h, a, f).0.rm, Target(w, h), Asked(a))
            || (h.state == Prepared && Target(w, h).None? && Call(w, h, a, f).0.rm == w.rm)
  {
    if a.DoRollback? {
      HeardBlock(w, h, f);
    }
  }

  lemma HeardBlock(w: World, h: Handle, f: Fate)
    requires w.engine.Oracle? && Call(w, h, DoRollback, f).1
    ensures Settled(Call(w, h, DoRollback, f).0.rm, Target(w, h), DidRollback)
  {
  }

  /** Exactly a failed transaction makes PostgreSQL's one-phase commit report what did not happen. */
  lemma FailedCommitIff(w: World, h: Handle, f: Fate)
    requires w.engine.Postgres? && Unprepared(h) && RmValid(w.rm) && Target(w, h).Some?
    requires Call(w, h, DoCommitOnePhase, f).1
    ensures Settled(Call(w, h, DoCommitOnePhase, f).0.rm, Target(w, h), DidCommit) <==> !f.RmAborts?
    ensures f.RmAborts? ==> Settled(Call(w, h, DoCommitOnePhase, f).0.rm, Target(w, h), DidRollback)
  {
  }

  /** Ending a branch does not change which branch a name stands for. */
  lemma EndKeepsTarget(w: World, h: Handle, f: Fate)
    ensures Target(Call(w, h, DoEnd, f).0, h) == Target(w, h)
  {
  }

  lemma TruthfulRetire(w: World, w': World, o: nat, e: Ended)
    requires Truthful(w) && OutcomesKept(w.rm, w'.rm) && w'.engine == w.engine
    requires w'.ended == w.ended || (w'.ended == w.ended[o := e] && Reported(w'.engine, w'.rm, e))
    ensures Truthful(w')
  {
  }

  lemma TruthfulOne(w: World, id: U32, a: Action, f: Fates, good: XaState)
    requires Truthful(w) && RmValid(w.rm) && id in w.handles && Fits(w.handles[id], a)
    requires (a.DoCommit? && good == Committed) || ((a.DoRollback? || a.DoRollbackPrepared?) && good == RolledBack)
    ensures var h := w.handles[id]; var (w1, done) := Call(Take(w, id), h, a, f.a);
            Reported(w.engine, w1.rm, Ended(h.(state := Verdict(done, good)), h.state, Target(w, h)))
  {
    var h := w.handles[id];
    if Call(Take(w, id), h, a, f.a).1 {
      HeardSuccess(Take(w, id), h, a, f.a);
    }
  }

  lemma TruthfulTwo(w: World, id: U32, b: Action, f: Fates, good: XaState)
    requires Truthful(w) && RmValid(w.rm) && id in w.handles && Fits(w.handles[id], b)
    requires (b.DoCommitOnePhase? && good == Committed) || (b.DoRollback? && good == RolledBack)
    requires !FailedCommit(w.engine, b, f.b)
    ensures var h := w.handles[id]; var w1 := Call(Take(w, id), h, DoEnd, f.a).0; var (w2, done) := Call(w1, h, b, f.b);
            Reported(w.engine, w2.rm, Ended(h.(state := Verdict(done, good)), h.state, Target(w, h)))
  {
    var h := w.handles[id];
    var w1 := Call(Take(w, id), h, DoEnd, f.a).0;
    EndKeepsTarget(Take(w, id), h, f.a);
    if Call(w1, h, b, f.b).1 {
      HeardSuccess(w1, h, b, f.b);
    }
  }

  /** The record a finishing call leaves, and the world it leaves it in. */
  ghost predicate LeavesReport(w: World, ev: Event, id: U32) {
    id in w.handles && w.handles[id].occ in Step(w, ev).ended
    && Step(w, ev).ended == w.ended[w.handles[id].occ := Step(w, ev).ended[w.handles[id].occ]]
    && Reported(w.engine, Step(w, ev).rm, Step(w, ev).ended[w.handles[id].occ])
  }

  lemma ReportsDecision(w: World, ev: Event)
    requires Truthful(w) && RmValid(w.rm)
    requires ev.EvCommitPrepared? || ev.EvRollbackPrepared?
    requires Has(w, ev.id, Prepared)
    ensures LeavesReport(w, ev, ev.id)
  {
    if ev.EvCommitPrepared? {
      TruthfulOne(w, ev.id, DoCommit, ev.f, Committed);
    } else {
      TruthfulOne(w, ev.id, DoRollbackPrepared, ev.f, RolledBack);
    }
  }

  lemma ReportsRollback(w: World, ev: Event)
    requires Truthful(w) && RmValid(w.rm)
    requires (ev.EvRollbackIdle? && Has(w, ev.id, Idle)) || (ev.EvRollbackActive? && Has(w, ev.id, Active))
    ensures LeavesReport(w, ev, ev.id)
  {
    if ev.EvRollbackIdle? {
      TruthfulOne(w, ev.id, DoRollback, ev.f, RolledBack);
    } else {
      TruthfulTwo(w, ev.id, DoRollback, ev.f, RolledBack);
    }
  }

  lemma ReportsOnePhase(w: World, ev: Event)
    requires Truthful(w) && RmValid(w.rm) && Sincere(w.engine, ev)
    requires ev.EvCommitOnePhase? && Has(w, ev.id, Active)
    ensures LeavesReport(w, ev, ev.id)
  {
    TruthfulTwo(w, ev.id, DoCommitOnePhase, ev.f, Committed);
  }

  /** No one-phase commit meets a failed PostgreSQL transaction. */
  predicate Sincere(e: Engine, ev: Event) { ev.EvCommitOnePhase? ==> !FailedCommit(e, DoCommitOnePhase, ev.f.b) }

  ghost predicate AllSincere(e: Engine, evs: seq<Event>) {
    e.Postgres? ==> forall i :: 0 <= i < |evs| ==> Sincere(e, evs[i])
  }

  predicate Finishing(ev: Event) {
    ev.EvCommitPrepared? || ev.EvRollbackPrepared? || ev.EvRollbackIdle? || ev.EvRollbackActive? || ev.EvCommitOnePhase?
  }

  lemma TruthfulReport(w: World, ev: Event, id: U32)
    requires Truthful(w) && OutcomesKept(w.rm, Step(w, ev).rm) && LeavesReport(w, ev, id)
    ensures Truthful(Step(w, ev))
  {
  }

  lemma TruthfulStep(w: World, ev: Event)
    requires Truthful(w) && RmValid(w.rm) && Staged(w) && Sincere(w.engine, ev)
    ensures Truthful(Step(w, ev))
  {
    BooksStep(w, ev);
    if !Finishing(ev) {
      TruthfulQuiet(w, ev);
    } else if ev.id in w.handles {
      if (ev.EvCommitPrepared? || ev.EvRollbackPrepared?) && Has(w, ev.id, Prepared) {
        ReportsDecision(w, ev);
        TruthfulReport(w, ev, ev.id);
      } else if (ev.EvRollbackIdle? && Has(w, ev.id, Idle)) || (ev.EvRollbackActive? && Has(w, ev.id, Active)) {
        ReportsRollback(w, ev);
        TruthfulReport(w, ev, ev.id);
      } else if ev.EvCommitOnePhase? && Has(w, ev.id, Active) {
        ReportsOnePhase(w, ev);
        TruthfulReport(w, ev, ev.id);
      }
    }
  }

  lemma TruthfulQuiet(w: World, ev: Event)
    requires Truthful(w) && OutcomesKept(w.rm, Step(w, ev).rm) && Staged(w)
    requires !Finishing(ev)
    ensures Truthful(Step(w, ev))
  {
    var m := Classify(w, ev);
    var w' := Step(w, ev);
    if m.Leave? {
      var h := w.handles[m.id];
      TruthfulRetire(w, w', h.occ, Ended(h.(state := m.last), h.state, m.target));
    } else if m.Stillborn? {
      TruthfulRetire(w, w', m.h.occ, Ended(m.h, m.h.state, None));
    } else {
      TruthfulRetire(w, w', 0, Ended(Handle(0, true, 0, Xid(0, [], []), Failed), Failed, None));
    }
  }

  /** On every engine, in every run, lost replies included, what a handle reports is what happened to
      the branch its name stood for, and no later step revises it. */
  lemma {:induction false} TruthfulRun(w: World, evs: seq<Event>)
    requires Truthful(w) && RmValid(w.rm) && TablesInv(w) && AllSincere(w.engine, evs)
    ensures Truthful(Run(w, evs)) && OutcomesKept(w.rm, Run(w, evs).rm)
    decreases |evs|
  {
    if evs != [] {
      SincereRest(w.engine, evs);
      TruthfulStep(w, evs[0]);
      BooksStep(w, evs[0]);
      TablesStep(w, evs[0]);
      TruthfulRun(Step(w, evs[0]), evs[1..]);
    }
  }

  lemma SincereRest(e: Engine, evs: seq<Event>)
    requires evs != [] && AllSincere(e, evs)
    ensures Sincere(e, evs[0]) && AllSincere(e, evs[1..])
  {
    assert forall i :: 0 <= i < |evs[1..]| ==> evs[1..][i] == evs[i + 1];
  }

  // ---------------------------------------------------------------------
  // Reliable replies
  // ---------------------------------------------------------------------

  predicate Heard(f: Fates) { !f.a.LoseReply? && !f.b.LoseReply? && !f.c.LoseReply? }

  predicate Reliable(ev: Event) {
    match ev
    case EvConnect => true
    case EvLose(_) => true
    case EvResume(_, _) => true
    case EvCrash => true
    case _ => Heard(ev.f)
  }

  ghost predicate CommitsKept(rm: Rm, rm': Rm, plus: Option<nat>) {
    forall s :: s in rm'.outcome && rm'.outcome[s] == DidCommit ==>
      (s in rm.outcome && rm.outcome[s] == DidCommit) || plus == Some(s)
  }

  function SerialAt(rm: Rm, n: BranchName): (t: Option<nat>) {
    if n in rm.branches then Some(rm.branches[n].serial) else None
  }

  lemma TableCommits(rm: Rm, c: nat, op: XaOp, n: BranchName, f: Fate)
    ensures var (rm', rc) := Table(rm, c, op, n, f);
            CommitsKept(rm, rm', if (op.OpCommit? || op.OpCommitOnePhase?) && rc == XaOk then SerialAt(rm, n) else None)
  {
  }

  lemma PgCommits(rm: Rm, c: nat, s: Statement, f: Fate)
    requires !s.XaCall? && !s.EndThenRollback?
    ensures var (rm', ok) := Postgresql(rm, c, s, f);
            CommitsKept(rm, rm', if s.PgCommit? && ok then SerialAt(rm, Session(c))
                                 else if s.PgCommitPrepared? && ok then SerialAt(rm, Gid(s.gid)) else None)
  {
  }

  /** The branch that an action commits, if it does. */
  function CommitsNow(w: World, h: Handle, a: Action, f: Fate): (t: Option<nat>) {
    if (a.DoCommit? || a.DoCommitOnePhase?) && Call(w, h, a, f).1 then Target(w, h) else None
  }

  /** With the reply heard, an action commits a branch only if it is a commit that reports success,
      and then only the branch it names. */
  lemma CallCommits(w: World, h: Handle, a: Action, f: Fate)
    requires !f.LoseReply? && (a.DoCommit? || a.DoCommitOnePhase? ==> Fits(h, a))
    ensures CommitsKept(w.rm, Call(w, h, a, f).0.rm, CommitsNow(w, h, a, f))
  {
    if h.conn in w.conns {
      match w.engine
      case Postgres => PostgresCommits(w, h, a, f);
      case Oracle => OracleCommits(w, h, a, f);
      case MySqlFamily => TableCommits(w.rm, h.conn, OpOf(a), NameOf(w.engine, h.xid), f);
      case _ =>
    }
  }

  lemma PostgresCommits(w: World, h: Handle, a: Action, f: Fate)
    requires w.engine.Postgres? && h.conn in w.conns && !f.LoseReply?
    requires a.DoCommit? || a.DoCommitOnePhase? ==> Fits(h, a)
    ensures CommitsKept(w.rm, Call(w, h, a, f).0.rm, CommitsNow(w, h, a, f))
  {
    var m := Emit(w.engine, a, h.xid);
    if m.Send? {
      PgCommits(w.rm, h.conn, m.s, f);
    }
  }

  lemma OracleCommits(w: World, h: Handle, a: Action, f: Fate)
    requires w.engine.Oracle? && h.conn in w.conns && !f.LoseReply?
    ensures CommitsKept(w.rm, Call(w, h, a, f).0.rm, CommitsNow(w, h, a, f))
  {
    if a.DoRollback? {
      BlockCommits(w, h, f);
    } else {
      TableCommits(w.rm, h.conn, OpOf(a), NameOf(w.engine, h.xid), f);
    }
  }

  lemma BlockCommits(w: World, h: Handle, f: Fate)
    requires w.engine.Oracle? && h.conn in w.conns
    ensures CommitsKept(w.rm, Call(w, h, DoRollback, f).0.rm, None)
  {
    var n := NameOf(w.engine, h.xid);
    TableCommits(w.rm, h.conn, OpEnd, n, f);
    TableCommits(Table(w.rm, h.conn, OpEnd, n, f).0, h.conn, OpRollback, n, f);
  }

  /** Every commit at the resource manager has exactly one handle that reports it. */
  ghost predicate Accounted(w: World) {
    && (forall s :: s in w.rm.outcome && w.rm.outcome[s] == DidCommit ==>
          exists o :: o in w.ended && w.ended[o].h.state == Committed && w.ended[o].target == Some(s))
    && (forall o, p :: o in w.ended && p in w.ended && o != p
          && w.ended[o].h.state == Committed && w.ended[p].h.state == Committed && w.ended[o].target.Some?
          ==> w.ended[o].target != w.ended[p].target)
  }

  lemma AccountedLeave(w: World, w': World, o: nat, e: Ended)
    requires Accounted(w) && Truthful(w) && o !in w.ended && w'.ended == w.ended[o := e]
    requires e.h.state == Committed && e.target.Some? ==> e.target.value !in w.rm.outcome
    requires CommitsKept(w.rm, w'.rm, if e.h.state == Committed then e.target else None)
    ensures Accounted(w')
  {
    forall s | s in w'.rm.outcome && w'.rm.outcome[s] == DidCommit
      ensures exists k :: k in w'.ended && w'.ended[k].h.state == Committed && w'.ended[k].target == Some(s)
    {
      if s in w.rm.outcome && w.rm.outcome[s] == DidCommit {
        var k :| k in w.ended && w.ended[k].h.state == Committed && w.ended[k].target == Some(s);
        assert w'.ended[k].target == Some(s);
      } else {
        assert w'.ended[o].target == Some(s);
      }
    }
  }

  lemma AccountedSame(w: World, w': World)
    requires Accounted(w) && w'.ended == w.ended && CommitsKept(w.rm, w'.rm, None)
    ensures Accounted(w')
  {
  }

  lemma DiscardCommits(w: World, h: Handle, f: Fates)
    requires Heard(f)
    ensures CommitsKept(w.rm, Discard(w, h, f).rm, None)
  {
    CallCommits(w, h, DoEnd, f.b);
    CallCommits(Call(w, h, DoEnd, f.b).0, h, DoRollback, f.c);
  }

  /** The commits a step adds: none, or the one its handle goes on to report. */
  lemma StepCommits(w: World, ev: Event)
    requires Reliable(ev) && Staged(w) && Numbered(w)
    requires !ev.EvCommitPrepared? && !ev.EvCommitOnePhase?
    ensures CommitsKept(w.rm, Step(w, ev).rm, None)
  {
    match ev
    case EvConnect =>
    case EvLose(_) =>
    case EvCrash =>
    case EvResume(_, _) =>
    case EvStart(c, x, off, f) => if x.Valid() { StartCommits(w, c, x, off, f); }
    case EvEnd(id, f) => if Has(w, id, Active) { TwoCommits(w, id, DoEnd, DoEnd, f); }
    case EvPrepare(id, f) => if Has(w, id, Idle) { TwoCommits(w, id, DoPrepare, DoEnd, f); }
    case EvDrop(id, f) => if id in w.handles { DiscardCommits(Take(w, id), w.handles[id], f); }
    case _ => UndoCommits(w, ev);
  }

  lemma UndoCommits(w: World, ev: Event)
    requires Reliable(ev)
    requires ev.EvRollbackActive? || ev.EvRollbackIdle? || ev.EvRollbackPrepared?
    ensures CommitsKept(w.rm, Step(w, ev).rm, None)
  {
    match ev
    case EvRollbackActive(id, f) => if Has(w, id, Active) { TwoCommits(w, id, DoEnd, DoRollback, f); }
    case EvRollbackIdle(id, f) => if Has(w, id, Idle) { TwoCommits(w, id, DoRollback, DoEnd, f); }
    case EvRollbackPrepared(id, f) => if Has(w, id, Prepared) { TwoCommits(w, id, DoRollbackPrepared, DoEnd, f); }
  }

  lemma StartCommits(w: World, c: nat, x: Xid, off: bool, f: Fates)
    requires Heard(f)
    ensures CommitsKept(w.rm, Start(w, c, x, off, f).rm, None)
  {
    var h := Handle(w.nextOcc, true, c, x, Active);
    var w0 := w.(conns := w.conns[c := false]);
    CallCommits(w0, h, DoStart, f.a);
    var w1 := Call(w0, h, DoStart, f.a).0;
    var counter := Probe(w1.nextXaId, w1.handles.Keys, MAX_ID_ALLOC_ATTEMPTS).1;
    DiscardCommits(Counted(w1, counter, h), h, f);
  }

  lemma TwoCommits(w: World, id: U32, a: Action, b: Action, f: Fates)
    requires Heard(f) && id in w.handles
    requires !a.DoCommit? && !a.DoCommitOnePhase? && !b.DoCommit? && !b.DoCommitOnePhase?
    ensures var h := w.handles[id]; var w1 := Call(Take(w, id), h, a, f.a).0;
            && CommitsKept(w.rm, w1.rm, None)
            && CommitsKept(w.rm, Call(w1, h, b, f.b).0.rm, None)
            && CommitsKept(w.rm, Discard(w1, h, f).rm, None)
  {
    var h := w.handles[id];
    var w1 := Call(Take(w, id), h, a, f.a).0;
    CallCommits(Take(w, id), h, a, f.a);
    CallCommits(w1, h, b, f.b);
    DiscardCommits(w1, h, f);
  }

  /** A branch that a name stands for is alive, so not yet accounted for. */
  lemma LiveIsNew(w: World, h: Handle)
    requires RmValid(w.rm)
    ensures Target(w, h).Some? ==> Target(w, h).value !in w.rm.outcome
  {
  }

  lemma AccountedCommitPrepared(w: World, id: U32, f: Fates)
    requires Heard(f) && Inv(w) && Truthful(w) && Accounted(w) && Has(w, id, Prepared)
    ensures Accounted(CommitPrepared(w, id, f))
  {
    var h := w.handles[id];
    var (w1, done) := Call(Take(w, id), h, DoCommit, f.a);
    CallCommits(Take(w, id), h, DoCommit, f.a);
    LiveIsNew(Take(w, id), h);
    AccountedLeave(w, CommitPrepared(w, id, f), h.occ,
                   Ended(h.(state := Verdict(done, Committed)), h.state, Target(w, h)));
  }

  lemma AccountedCommitOnePhase(w: World, id: U32, f: Fates)
    requires Heard(f) && Inv(w) && Truthful(w) && Accounted(w) && Has(w, id, Active)
    ensures Accounted(CommitOnePhase(w, id, f))
  {
    var h := w.handles[id];
    var (w1, ok) := Call(Take(w, id), h, DoEnd, f.a);
    CallCommits(Take(w, id), h, DoEnd, f.a);
    if !ok {
      DiscardCommits(w1, h, f);
      AccountedLeave(w, Discard(w1, h, f), h.occ, Ended(h, h.state, None));
    } else {
      EndKeepsTarget(Take(w, id), h, f.a);
      CallValid(Take(w, id), h, DoEnd, f.a);
      CallCommits(w1, h, DoCommitOnePhase, f.b);
      var done := Call(w1, h, DoCommitOnePhase, f.b).1;
      LiveIsNew(w1, h);
      AccountedLeave(w, CommitOnePhase(w, id, f), h.occ,
                     Ended(h.(state := Verdict(done, Committed)), h.state, Target(w, h)));
    }
  }

  lemma AccountedStep(w: World, ev: Event)
    requires Reliable(ev) && Inv(w) && Truthful(w) && Accounted(w)
    ensures Accounted(Step(w, ev))
  {
    if ev.EvCommitPrepared? && Has(w, ev.id, Prepared) {
      AccountedCommitPrepared(w, ev.id, ev.f);
    } else if ev.EvCommitOnePhase? && Has(w, ev.id, Active) {
      AccountedCommitOnePhase(w, ev.id, ev.f);
    } else if !ev.EvCommitPrepared? && !ev.EvCommitOnePhase? {
      StepCommits(w, ev);
      AccountedQuiet(w, ev);
    }
  }

  lemma AccountedQuiet(w: World, ev: Event)
    requires Inv(w) && Truthful(w) && Accounted(w) && CommitsKept(w.rm, Step(w, ev).rm, None)
    requires !ev.EvCommitPrepared? && !ev.EvCommitOnePhase?
    ensures Accounted(Step(w, ev))
  {
    var m := Classify(w, ev);
    if m.Leave? {
      var h := w.handles[m.id];
      AccountedLeave(w, Step(w, ev), h.occ, Ended(h.(state := m.last), h.state, m.target));
    } else if m.Stillborn? {
      AccountedLeave(w, Step(w, ev), m.h.occ, Ended(m.h, m.h.state, None));
    } else {
      AccountedSame(w, Step(w, ev));
    }
  }

  ghost predicate AllReliable(evs: seq<Event>) { forall i :: 0 <= i < |evs| ==> Reliable(evs[i]) }

  /** When no reply is lost, commits at the resource manager and handles that report a commit
      correspond one to one, in every run. */
  lemma {:induction false} AgreementRun(w: World, evs: seq<Event>)
    requires Inv(w) && Truthful(w) && Accounted(w)
    requires AllReliable(evs) && AllSincere(w.engine, evs)
    ensures Truthful(Run(w, evs)) && Accounted(Run(w, evs))
    decreases |evs|
  {
    if evs != [] {
      SincereRest(w.engine, evs);
      AccountedStep(w, evs[0]);
      TruthfulStep(w, evs[0]);
      InvStep(w, evs[0]);
      assert forall i :: 0 <= i < |evs[1..]| ==> evs[1..][i] == evs[i + 1];
      AgreementRun(Step(w, evs[0]), evs[1..]);
    }
  }

  /** From the first call on: reports are true in every run, and complete when no reply is lost. */
  lemma AgreementFromStart(e: Engine, evs: seq<Event>)
    requires AllSincere(e, evs)
    ensures Truthful(Run(Init(e), evs))
    ensures AllReliable(evs) ==> Accounted(Run(Init(e), evs))
  {
    TruthfulRun(Init(e), evs);
    if AllReliable(evs) {
      AgreementRun(Init(e), evs);
    }
  }
}
