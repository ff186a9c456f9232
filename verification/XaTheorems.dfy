/** The main results about two-phase commit. */
module XaTheorems {
  import opened Xids
  import opened IdAllocator
  import opened ResourceManager
  import opened XaWorld
  import opened XaTables
  import opened XaSafety

  /** Where a rollback of unprepared work can reach a prepared branch, the handles for `x` must be
      in step with it: only the MySQL family rolls both back by the same statement. */
  ghost predicate Guarded(w: World, x: Xid) {
    Staged(w) && x.Valid() && (w.engine.MySqlFamily? ==> InStep(w, x))
  }

  // ---------------------------------------------------------------------
  // Prepared branches survive
  // ---------------------------------------------------------------------

  /** An explicit phase-two call through a handle that names the branch. */
  predicate Decides(w: World, ev: Event, x: Xid) {
    (ev.EvCommitPrepared? || ev.EvRollbackPrepared?) && Has(w, ev.id, Prepared) && w.handles[ev.id].xid == x
  }

  lemma UnpreparedElsewhere(w: World, h: Handle, x: Xid)
    requires Guarded(w, x) && PreparedAt(w.rm, NameOf(w.engine, x))
    requires w.engine.MySqlFamily? && h in w.handles.Values && Reaches(w, h)
    ensures NameOf(w.engine, h.xid) != NameOf(w.engine, x)
  {
    if NameOf(w.engine, h.xid) == NameOf(w.engine, x) {
      NameInjective(w.engine, h.xid, x);
      InStepExcludes(w, h, x);
    }
  }

  lemma InStepExcludes(w: World, h: Handle, x: Xid)
    requires Guarded(w, x) && PreparedAt(w.rm, NameOf(w.engine, x))
    requires w.engine.MySqlFamily? && h in w.handles.Values && Reaches(w, h)
    ensures h.xid != x
  {
  }

  lemma DiscardKeepsPrepared(w: World, h: Handle, f: Fates, x: Xid)
    requires x.Valid() && PreparedAt(w.rm, NameOf(w.engine, x))
    requires w.engine.MySqlFamily? && h.conn in w.conns ==> NameOf(w.engine, h.xid) != NameOf(w.engine, x)
    ensures SameAt(w.rm, Discard(w, h, f).rm, NameOf(w.engine, x))
  {
    var n := NameOf(w.engine, x);
    CallKeepsPrepared(w, h, DoEnd, f.b, n);
    CallKeepsPrepared(Call(w, h, DoEnd, f.b).0, h, DoRollback, f.c, n);
  }

  /** A call on an unprepared handle: up to two actions and a drop, none of them a decision. */
  lemma CallsKeepPrepared(w: World, id: U32, a: Action, b: Action, f: Fates, x: Xid)
    requires Guarded(w, x) && PreparedAt(w.rm, NameOf(w.engine, x))
    requires id in w.handles && Unprepared(w.handles[id])
    requires !a.DoCommit? && !a.DoRollbackPrepared? && !b.DoCommit? && !b.DoRollbackPrepared?
    ensures var n, h := NameOf(w.engine, x), w.handles[id];
            var w1 := Call(Take(w, id), h, a, f.a).0;
            && SameAt(w.rm, w1.rm, n)
            && SameAt(w.rm, Call(w1, h, b, f.b).0.rm, n)
            && SameAt(w.rm, Discard(w1, h, f).rm, n)
  {
    var n, h := NameOf(w.engine, x), w.handles[id];
    if w.engine.MySqlFamily? && h.conn in w.conns {
      UnpreparedElsewhere(w, h, x);
    }
    CallKeepsPrepared(Take(w, id), h, a, f.a, n);
    var w1 := Call(Take(w, id), h, a, f.a).0;
    CallKeepsPrepared(w1, h, b, f.b, n);
    DiscardKeepsPrepared(w1, h, f, x);
  }

  lemma RegisterKeepsPrepared(w: World, h: Handle, f: Fates, x: Xid)
    requires x.Valid() && PreparedAt(w.rm, NameOf(w.engine, x))
    requires w.engine.MySqlFamily? ==> NameOf(w.engine, h.xid) != NameOf(w.engine, x)
    ensures SameAt(w.rm, Register(w, h, f).rm, NameOf(w.engine, x))
  {
    var counter := Probe(w.nextXaId, w.handles.Keys, MAX_ID_ALLOC_ATTEMPTS).1;
    DiscardKeepsPrepared(Counted(w, counter, h), h, f, x);
  }

  lemma StartKeepsPrepared(w: World, c: nat, y: Xid, off: bool, f: Fates, x: Xid)
    requires Guarded(w, x) && y.Valid() && PreparedAt(w.rm, NameOf(w.engine, x))
    ensures SameAt(w.rm, Start(w, c, y, off, f).rm, NameOf(w.engine, x))
  {
    var n := NameOf(w.engine, x);
    if c in w.conns && off {
      var h := Handle(w.nextOcc, true, c, y, Active);
      var w0 := w.(conns := w.conns[c := false]);
      CallKeepsPrepared(w0, h, DoStart, f.a, n);
      var (w1, ok) := Call(w0, h, DoStart, f.a);
      if ok {
        if Named(w.engine) { StartCall(w0, h, f.a); }
        RegisterKeepsPrepared(w1, h, f, x);
      }
    }
  }

  lemma DecideFrame(w: World, h: Handle, a: Action, f: Fate, n: BranchName)
    requires (a.DoCommit? || a.DoRollbackPrepared?) && NameOf(w.engine, h.xid) != n
    ensures SameAt(w.rm, Call(w, h, a, f).0.rm, n)
  {
    if Named(w.engine) {
      CallFrame(w, h, a, f, n);
    } else if w.engine.Postgres? && h.conn in w.conns {
      var m := Emit(w.engine, a, h.xid);
      assert SameAt(w.rm, Postgresql(w.rm, h.conn, m.s, f).0, n);
    }
  }

  lemma DecisionElsewhere(w: World, ev: Event, x: Xid)
    requires Guarded(w, x)
    requires (ev.EvCommitPrepared? || ev.EvRollbackPrepared?) && Has(w, ev.id, Prepared)
    requires w.handles[ev.id].xid != x
    ensures SameAt(w.rm, Step(w, ev).rm, NameOf(w.engine, x))
  {
    var n, h := NameOf(w.engine, x), w.handles[ev.id];
    if NameOf(w.engine, h.xid) == n {
      NameInjective(w.engine, h.xid, x);
    }
    DecideFrame(Take(w, ev.id), h, if ev.EvCommitPrepared? then DoCommit else DoRollbackPrepared, ev.f.a, n);
  }

  lemma PreparedSurvivesPrepare(w: World, id: U32, f: Fates, x: Xid)
    requires Guarded(w, x) && PreparedAt(w.rm, NameOf(w.engine, x))
    requires id in w.handles && Unprepared(w.handles[id])
    ensures SameAt(w.rm, Prepare(w, id, f).rm, NameOf(w.engine, x))
  {
    CallsKeepPrepared(w, id, DoPrepare, DoEnd, f, x);
  }

  lemma PreparedSurvivesOnePhase(w: World, id: U32, f: Fates, x: Xid)
    requires Guarded(w, x) && PreparedAt(w.rm, NameOf(w.engine, x))
    requires id in w.handles && Unprepared(w.handles[id])
    ensures SameAt(w.rm, CommitOnePhase(w, id, f).rm, NameOf(w.engine, x))
  {
    CallsKeepPrepared(w, id, DoEnd, DoCommitOnePhase, f, x);
  }

  lemma PreparedSurvivesWorking(w: World, ev: Event, x: Xid)
    requires Guarded(w, x) && PreparedAt(w.rm, NameOf(w.engine, x))
    requires ev.EvEnd? || ev.EvPrepare? || ev.EvCommitOnePhase?
    requires ev.id in w.handles && Unprepared(w.handles[ev.id])
    ensures SameAt(w.rm, Step(w, ev).rm, NameOf(w.engine, x))
  {
    if ev.EvEnd? {
      CallsKeepPrepared(w, ev.id, DoEnd, DoEnd, ev.f, x);
    } else if ev.EvPrepare? {
      PreparedSurvivesPrepare(w, ev.id, ev.f, x);
    } else {
      PreparedSurvivesOnePhase(w, ev.id, ev.f, x);
    }
  }

  lemma PreparedSurvivesUndoing(w: World, ev: Event, x: Xid)
    requires Guarded(w, x) && PreparedAt(w.rm, NameOf(w.engine, x))
    requires ev.EvRollbackActive? || ev.EvRollbackIdle?
    requires ev.id in w.handles && Unprepared(w.handles[ev.id])
    ensures SameAt(w.rm, Step(w, ev).rm, NameOf(w.engine, x))
  {
    match ev
    case EvRollbackActive(id, f) => CallsKeepPrepared(w, id, DoEnd, DoRollback, f, x);
    case EvRollbackIdle(id, f) => CallsKeepPrepared(w, id, DoRollback, DoEnd, f, x);
  }

  lemma PreparedSurvivesDrop(w: World, ev: Event, x: Xid)
    requires Guarded(w, x) && PreparedAt(w.rm, NameOf(w.engine, x)) && ev.EvDrop?
    ensures SameAt(w.rm, Step(w, ev).rm, NameOf(w.engine, x))
  {
    if ev.id in w.handles && Unprepared(w.handles[ev.id]) {
      var h := w.handles[ev.id];
      if w.engine.MySqlFamily? && h.conn in w.conns { UnpreparedElsewhere(w, h, x); }
      DiscardKeepsPrepared(Take(w, ev.id), h, ev.f, x);
    }
  }

  lemma PreparedSurvivesElsewhere(w: World, ev: Event, x: Xid)
    requires Guarded(w, x) && PreparedAt(w.rm, NameOf(w.engine, x))
    requires ev.EvConnect? || ev.EvResume? || ev.EvLose? || ev.EvCrash? || ev.EvStart?
    ensures SameAt(w.rm, Step(w, ev).rm, NameOf(w.engine, x))
  {
    if ev.EvStart? && ev.xid.Valid() {
      StartKeepsPrepared(w, ev.conn, ev.xid, ev.autocommitOff, ev.f, x);
    }
  }

  lemma PreparedSurvivesStep(w: World, ev: Event, x: Xid)
    requires Guarded(w, x) && PreparedAt(w.rm, NameOf(w.engine, x)) && !Decides(w, ev, x)
    ensures SameAt(w.rm, Step(w, ev).rm, NameOf(w.engine, x))
  {
    if ev.EvConnect? || ev.EvResume? || ev.EvLose? || ev.EvCrash? || ev.EvStart? {
      PreparedSurvivesElsewhere(w, ev, x);
    } else if ev.EvDrop? {
      PreparedSurvivesDrop(w, ev, x);
    } else if ev.id in w.handles {
      if ev.EvCommitPrepared? || ev.EvRollbackPrepared? {
        if Has(w, ev.id, Prepared) { DecisionElsewhere(w, ev, x); }
      } else if Unprepared(w.handles[ev.id]) {
        if ev.EvRollbackActive? || ev.EvRollbackIdle? {
          PreparedSurvivesUndoing(w, ev, x);
        } else {
          PreparedSurvivesWorking(w, ev, x);
        }
      }
    }
  }

  ghost predicate Undecided(w: World, evs: seq<Event>, x: Xid)
    decreases |evs|
  {
    evs == [] || (!Decides(w, evs[0], x) && Undecided(Step(w, evs[0]), evs[1..], x))
  }

  /** In every run, with replies lost, handles dropped, connections lost and the process crashing
      at any point, a branch whose prepare took effect stays prepared, the very same branch, until
      a phase-two call names it; on the MySQL family, unless a rollback of `x` itself was stray. */
  lemma {:induction false} PreparedSurvives(w: World, evs: seq<Event>, x: Xid)
    requires Inv(w) && x.Valid() && Undecided(w, evs, x) && PreparedAt(w.rm, NameOf(w.engine, x))
    requires w.engine.MySqlFamily? ==> InStep(w, x) && NoStray(w, evs, x)
    ensures var n := NameOf(w.engine, x); var w' := Run(w, evs);
            w'.engine == w.engine && PreparedAt(w'.rm, n) && w'.rm.branches[n] == w.rm.branches[n]
    decreases |evs|
  {
    if evs != [] {
      PreparedSurvivesStep(w, evs[0], x);
      InvStep(w, evs[0]);
      if w.engine.MySqlFamily? {
        InStepStep(w, evs[0], x);
      }
      PreparedSurvives(Step(w, evs[0]), evs[1..], x);
    }
  }

  lemma {:induction false} EngineRun(w: World, evs: seq<Event>)
    ensures Run(w, evs).engine == w.engine
    decreases |evs|
  {
    if evs != [] {
      EngineRun(Step(w, evs[0]), evs[1..]);
    }
  }

  /** The same from the first call on: once a prepare has taken effect, whatever came before it. On
      PostgreSQL and Oracle there is no condition at all. */
  lemma PreparedSurvivesFromStart(e: Engine, before: seq<Event>, after: seq<Event>, x: Xid)
    requires x.Valid() && PreparedAt(Run(Init(e), before).rm, NameOf(e, x))
    requires Undecided(Run(Init(e), before), after, x)
    requires e.MySqlFamily? ==> NoStray(Init(e), before, x) && NoStray(Run(Init(e), before), after, x)
    ensures var w := Run(Init(e), before); var w' := Run(w, after); var n := NameOf(e, x);
            PreparedAt(w'.rm, n) && w'.rm.branches[n] == w.rm.branches[n]
  {
    InitInv(e, x);
    InvRun(Init(e), before);
    EngineRun(Init(e), before);
    if e.MySqlFamily? {
      InStepRun(Init(e), before, x);
    }
    PreparedSurvives(Run(Init(e), before), after, x);
  }

  /** Exactly when dropping an unprepared handle moves a prepared branch: on the MySQL family, over a
      live connection, for the same identifier, if the rollback is not refused. */
  lemma DropMovesPreparedIff(w: World, id: U32, f: Fates, x: Xid)
    requires Staged(w) && x.Valid() && PreparedAt(w.rm, NameOf(w.engine, x))
    requires id in w.handles && Unprepared(w.handles[id])
    ensures !SameAt(w.rm, DropHandle(w, id, f).rm, NameOf(w.engine, x)) <==>
              w.engine.MySqlFamily? && w.handles[id].xid == x && w.handles[id].conn in w.conns && !f.c.Refuse?
  {
    var h, w0 := w.handles[id], Take(w, id);
    if w.engine.MySqlFamily? && h.conn in w.conns {
      if h.xid == x {
        DropOverPrepared(w0, h, f);
      } else if NameOf(w.engine, h.xid) == NameOf(w.engine, x) {
        NameInjective(w.engine, h.xid, x);
      } else {
        DiscardKeepsPrepared(w0, h, f, x);
      }
    } else {
      DiscardKeepsPrepared(w0, h, f, x);
    }
  }

  lemma DropOverPrepared(w: World, h: Handle, f: Fates)
    requires w.engine.MySqlFamily? && h.conn in w.conns && PreparedAt(w.rm, NameOf(w.engine, h.xid))
    ensures !SameAt(w.rm, Discard(w, h, f).rm, NameOf(w.engine, h.xid)) <==> !f.c.Refuse?
  {
    CallKeepsPrepared(w, h, DoEnd, f.b, NameOf(w.engine, h.xid));
  }
}
