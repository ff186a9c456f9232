/** Whether a handle's report is about its own branch: the one it began, or was resumed onto. */
module XaOwnership {
  import opened Xids
  import opened IdAllocator
  import opened ResourceManager
  import opened XaWorld
  import opened XaTables
  import opened XaSafety
  import opened XaTheorems
  import opened XaAgreement

  function Origin(w: World, o: nat): (s: Option<nat>) { if o in w.origins then Some(w.origins[o]) else None }

  /** A handle's own branch was made under the handle's name. */
  ghost predicate Tied(w: World) {
    && (forall o :: o in w.origins ==> o < w.nextOcc)
    && (forall id :: id in w.handles && w.handles[id].occ in w.origins ==>
          && w.origins[w.handles[id].occ] in w.rm.named
          && w.rm.named[w.origins[w.handles[id].occ]] == NameOf(w.engine, w.handles[id].xid))
  }

  /** So the name stands for it exactly as long as it has no outcome. */
  lemma OwnBranchIff(w: World, id: U32)
    requires w.engine.MySqlFamily? && RmValid(w.rm) && Tied(w) && id in w.handles && w.handles[id].occ in w.origins
    ensures var s := w.origins[w.handles[id].occ];
            Target(w, w.handles[id]) == Some(s) <==> s !in w.rm.outcome
  {
  }

  // ---------------------------------------------------------------------
  // Origins over a run
  // ---------------------------------------------------------------------

  /** The new handle's own branch is `s`, and `s` bears its name if the handle began it. */
  ghost predicate Begets(w: World, w': World, h: Handle, s: nat) {
    var n := NameOf(w.engine, h.xid);
    && w'.origins == w.origins[h.occ := s] && s in w'.rm.named && w'.rm.named[s] == n
    && (h.started && h.occ in Occs(w') ==> n in w'.rm.branches && w'.rm.branches[n].serial == s)
  }

  ghost function Occs(w: World): (s: set<nat>) { set id | id in w.handles :: w.handles[id].occ }

  /** A step gives at most the new handle an origin: the branch that bears its name afterwards. */
  ghost predicate OriginMove(w: World, w': World, m: Move) {
    w'.origins == w.origins || ((m.Enter? || m.Stillborn?) && exists s: nat :: Begets(w, w', m.h, s))
  }

  lemma CountedOrigin(w: World, counter: U32, h: Handle)
    requires w.engine.MySqlFamily? && RmValid(w.rm)
    ensures var w' := Counted(w, counter, h); var n := NameOf(w.engine, h.xid);
            if n in w.rm.branches
            then w'.origins == w.origins[h.occ := w.rm.branches[n].serial] && w.rm.branches[n].serial in w.rm.named
                 && w.rm.named[w.rm.branches[n].serial] == n
            else w'.origins == w.origins
  {
  }

  lemma AdmitOrigin(w: World, id: Option<U32>, h: Handle, f: Fates, s: nat)
    requires RmValid(w.rm) && s in w.rm.named && w.rm.named[s] == NameOf(w.engine, h.xid)
    ensures var w' := Admit(w, id, h, f);
            && w'.origins == w.origins && (id.Some? ==> w'.rm == w.rm)
            && s in w'.rm.named && w'.rm.named[s] == NameOf(w.engine, h.xid)
            && (id.None? ==> w'.handles == w.handles)
  {
    DiscardSound(w, h, f);
  }

  lemma StartedOrigin(w: World, c: nat, x: Xid, f: Fates)
    requires w.engine.MySqlFamily? && RmValid(w.rm) && Numbered(w) && c in w.conns
    requires var h, w0 := Handle(w.nextOcc, true, c, x, Active), w.(conns := w.conns[c := false]);
             Call(w0, h, DoStart, f.a).1
    ensures exists s: nat :: Begets(w, Start(w, c, x, true, f), Handle(w.nextOcc, true, c, x, Active), s)
  {
    var h, w0 := Handle(w.nextOcc, true, c, x, Active), w.(conns := w.conns[c := false]);
    var w1 := Call(w0, h, DoStart, f.a).0;
    StartCall(w0, h, f.a);
    CallValid(w0, h, DoStart, f.a);
    var a := Probe(w1.nextXaId, w1.handles.Keys, MAX_ID_ALLOC_ATTEMPTS);
    CountedOrigin(w1, a.1, h);
    var s := w1.rm.branches[NameOf(w.engine, x)].serial;
    AdmitOrigin(Counted(w1, a.1, h), a.0, h, f, s);
    assert w.nextOcc !in Occs(w);
    assert Begets(w, Start(w, c, x, true, f), h, s);
  }

  lemma StartOrigin(w: World, c: nat, x: Xid, off: bool, f: Fates) returns (m: Move)
    requires w.engine.MySqlFamily? && RmValid(w.rm) && Numbered(w) && x.Valid()
    ensures IsMove(w, Start(w, c, x, off, f), m) && OriginMove(w, Start(w, c, x, off, f), m)
    ensures m.Enter? ==> m.h.occ in Start(w, c, x, off, f).origins
  {
    m := ClassifyStart(w, c, x, off, f);
    if !m.Stay? {
      StartedOrigin(w, c, x, f);
    }
  }

  lemma ResumeOrigin(w: World, c: nat, x: Xid) returns (m: Move)
    requires w.engine.MySqlFamily? && RmValid(w.rm) && x.Valid()
    ensures IsMove(w, Resume(w, c, x), m) && OriginMove(w, Resume(w, c, x), m) && (m.Enter? ==> !m.h.started)
  {
    m := ClassifyResume(w, c, x);
    if !m.Stay? {
      var h, n := Handle(w.nextOcc, false, c, x, Prepared), NameOf(w.engine, x);
      CountedOrigin(w, Probe(w.nextXaId, w.handles.Keys, MAX_ID_ALLOC_ATTEMPTS).1, h);
      if n in w.rm.branches {
        assert Begets(w, Resume(w, c, x), h, w.rm.branches[n].serial);
      }
    }
  }

  lemma OtherOrigin(w: World, ev: Event)
    requires !ev.EvStart? && !ev.EvResume?
    ensures Step(w, ev).origins == w.origins && Step(w, ev).nextOcc == w.nextOcc
  {
  }

  lemma StepOrigin(w: World, ev: Event) returns (m: Move)
    requires w.engine.MySqlFamily? && RmValid(w.rm) && Staged(w) && Numbered(w)
    ensures IsMove(w, Step(w, ev), m) && OriginMove(w, Step(w, ev), m)
    ensures m.Enter? && m.h.started ==> m.h.occ in Step(w, ev).origins
  {
    if ev.EvStart? && ev.xid.Valid() {
      m := StartOrigin(w, ev.conn, ev.xid, ev.autocommitOff, ev.f);
    } else if ev.EvResume? && ev.xid.Valid() {
      m := ResumeOrigin(w, ev.conn, ev.xid);
    } else if ev.EvStart? || ev.EvResume? {
      m := Stay;
    } else {
      OtherOrigin(w, ev);
      m := Classify(w, ev);
    }
  }

  lemma TiedMove(w: World, w': World, m: Move)
    requires Tied(w) && Numbered(w) && w'.engine == w.engine && OutcomesKept(w.rm, w'.rm)
    requires IsMove(w, w', m) && OriginMove(w, w', m)
    ensures Tied(w')
  {
  }

  lemma TiedStep(w: World, ev: Event)
    requires w.engine.MySqlFamily? && Inv(w) && Tied(w)
    ensures Tied(Step(w, ev))
  {
    var m := StepOrigin(w, ev);
    BooksStep(w, ev);
    TiedMove(w, Step(w, ev), m);
  }

  /** Origins are never revised. */
  lemma {:induction false} OriginsRun(w: World, evs: seq<Event>, o: nat)
    requires w.engine.MySqlFamily? && Inv(w) && Tied(w) && o < w.nextOcc
    ensures Tied(Run(w, evs)) && Origin(Run(w, evs), o) == Origin(w, o)
    decreases |evs|
  {
    if evs != [] {
      var m := StepOrigin(w, evs[0]);
      assert m.Enter? || m.Stillborn? ==> m.h.occ == w.nextOcc;
      TiedStep(w, evs[0]);
      InvStep(w, evs[0]);
      OriginsRun(Step(w, evs[0]), evs[1..], o);
    }
  }

  // ---------------------------------------------------------------------
  // Unprepared handles
  // ---------------------------------------------------------------------

  /** A name that stands for a branch before and after a step stands for the same branch. */
  lemma NameKeepsSerial(w: World, ev: Event, x: Xid)
    requires w.engine.MySqlFamily? && RmValid(w.rm) && x.Valid()
    requires NameOf(w.engine, x) in w.rm.branches && NameOf(w.engine, x) in Step(w, ev).rm.branches
    ensures Step(w, ev).rm.branches[NameOf(w.engine, x)].serial == w.rm.branches[NameOf(w.engine, x)].serial
  {
    if ev.EvStart? {
      if ev.xid.Valid() && ev.xid == x {
        StartOverBranch(w, ev.conn, x, ev.autocommitOff, ev.f);
      } else if ev.xid.Valid() {
        StartAway(w, ev.conn, ev.xid, ev.autocommitOff, ev.f, x);
      }
    } else {
      BooksStep(w, ev);
      SameSerial(w.rm, Step(w, ev).rm, NameOf(w.engine, x));
    }
  }

  lemma StartOverBranch(w: World, c: nat, x: Xid, off: bool, f: Fates)
    requires w.engine.MySqlFamily? && NameOf(w.engine, x) in w.rm.branches
    ensures Start(w, c, x, off, f).rm == w.rm
  {
    if c in w.conns && off {
      StartCall(w.(conns := w.conns[c := false]), Handle(w.nextOcc, true, c, x, Active), f.a);
    }
  }

  lemma SameSerial(rm: Rm, rm': Rm, n: BranchName)
    requires RmValid(rm) && RmValid(rm') && OutcomesKept(rm, rm') && rm'.nextSerial == rm.nextSerial
    requires n in rm.branches && n in rm'.branches && n.SqlXid?
    ensures rm'.branches[n].serial == rm.branches[n].serial
  {
    assert rm'.branches[n].serial in rm.named;
  }

  /** An unprepared handle that reaches its branch reaches its own. */
  ghost predicate Bound(w: World, x: Xid) {
    forall id :: id in w.handles && Names(w, w.handles[id], x) ==>
      w.handles[id].occ in w.origins && w.origins[w.handles[id].occ] !in w.rm.outcome
  }

  lemma BoundOld(w: World, ev: Event, x: Xid, h: Handle, id: U32)
    requires w.engine.MySqlFamily? && Inv(w) && Tied(w) && Bound(w, x) && x.Valid()
    requires id in w.handles && Names(w, w.handles[id], x) && h.occ == w.handles[id].occ && h.xid == x
    requires RmValid(Step(w, ev).rm) && NameOf(w.engine, x) in Step(w, ev).rm.branches
    ensures w.origins[h.occ] !in Step(w, ev).rm.outcome
  {
    OwnBranchIff(w, id);
    NameKeepsSerial(w, ev, x);
  }

  lemma BoundStep(w: World, ev: Event, x: Xid)
    requires w.engine.MySqlFamily? && Inv(w) && Tied(w) && Bound(w, x) && Kept(w, x) && !Stray(w, ev, x)
    ensures Bound(Step(w, ev), x)
  {
    var w' := Step(w, ev);
    var m := StepOrigin(w, ev);
    BooksStep(w, ev);
    InStepStep(w, ev, x);
    forall id | id in w'.handles && Names(w', w'.handles[id], x)
      ensures w'.handles[id].occ in w'.origins && w'.origins[w'.handles[id].occ] !in w'.rm.outcome
    {
      if !(m.Enter? && id == m.id) { BoundKept(w, ev, m, id, x); } else { BoundNew(w, w', m, x); }
    }
  }

  lemma BoundKept(w: World, ev: Event, m: Move, id: U32, x: Xid)
    requires w.engine.MySqlFamily? && Inv(w) && Tied(w) && Bound(w, x) && x.Valid() && RmValid(Step(w, ev).rm)
    requires IsMove(w, Step(w, ev), m) && OriginMove(w, Step(w, ev), m) && InStep(Step(w, ev), x)
    requires id in Step(w, ev).handles && Names(Step(w, ev), Step(w, ev).handles[id], x) && !(m.Enter? && id == m.id)
    ensures var w' := Step(w, ev); var o := w'.handles[id].occ; o in w'.origins && w'.origins[o] !in w'.rm.outcome
  {
    assert Holds(Step(w, ev), Step(w, ev).handles[id]);
    StillNames(w, ev, m, id, x);
    BoundOld(w, ev, x, Step(w, ev).handles[id], id);
  }

  lemma BoundNew(w: World, w': World, m: Move, x: Xid)
    requires w'.engine.MySqlFamily? && Tied(w) && RmValid(w'.rm)
    requires IsMove(w, w', m) && OriginMove(w, w', m) && m.Enter? && Names(w', w'.handles[m.id], x)
    requires m.h.started ==> m.h.occ in w'.origins
    ensures var o := w'.handles[m.id].occ; o in w'.origins && w'.origins[o] !in w'.rm.outcome
  {
    assert w'.handles[m.id].occ in Occs(w');
  }

  lemma StillNames(w: World, ev: Event, m: Move, id: U32, x: Xid)
    requires Inv(w) && Tied(w) && IsMove(w, Step(w, ev), m) && OriginMove(w, Step(w, ev), m)
    requires id in Step(w, ev).handles && Names(Step(w, ev), Step(w, ev).handles[id], x) && !(m.Enter? && id == m.id)
    ensures id in w.handles && Names(w, w.handles[id], x) && w.handles[id].occ == Step(w, ev).handles[id].occ
    ensures Origin(Step(w, ev), w.handles[id].occ) == Origin(w, w.handles[id].occ)
  {
    var h := Step(w, ev).handles[id];
    assert h.conn in Step(w, ev).conns.Keys && h.conn < w.nextConn;
  }

  predicate Decided(s: XaState) { s == Committed || s == RolledBack }

  /** Every report of an unprepared handle for `x` is about the branch it began. */
  ghost predicate OwnReports(w: World, x: Xid) {
    forall o :: o in w.ended && w.ended[o].h.xid == x && w.ended[o].was != Prepared && Decided(w.ended[o].h.state) ==>
      o in w.origins && w.ended[o].target == Some(w.origins[o])
  }

  /** A heard success came over a live connection, from the branch the name stood for. */
  lemma FinishTarget(w: World, ev: Event)
    requires Finishing(ev) && ev.id in w.handles && w.handles[ev.id].occ !in w.ended
    requires w.handles[ev.id].occ in Step(w, ev).ended && Decided(Step(w, ev).ended[w.handles[ev.id].occ].h.state)
    requires !Decided(w.handles[ev.id].state)
    ensures w.handles[ev.id].conn in w.conns
    ensures Step(w, ev).ended[w.handles[ev.id].occ].target == Target(w, w.handles[ev.id])
  {
    if ev.EvCommitOnePhase? {
      OnePhaseTarget(w, ev.id, ev.f);
    } else if ev.EvRollbackActive? {
      RollbackTarget(w, ev.id, ev.f);
    }
  }

  lemma OnePhaseTarget(w: World, id: U32, f: Fates)
    requires id in w.handles && w.handles[id].occ !in w.ended && !Decided(w.handles[id].state)
    requires var e := CommitOnePhase(w, id, f).ended; w.handles[id].occ in e && Decided(e[w.handles[id].occ].h.state)
    ensures w.handles[id].conn in w.conns
    ensures CommitOnePhase(w, id, f).ended[w.handles[id].occ].target == Target(w, w.handles[id])
  {
  }

  lemma RollbackTarget(w: World, id: U32, f: Fates)
    requires id in w.handles && w.handles[id].occ !in w.ended && !Decided(w.handles[id].state)
    requires var e := RollbackActive(w, id, f).ended; w.handles[id].occ in e && Decided(e[w.handles[id].occ].h.state)
    ensures w.handles[id].conn in w.conns
    ensures RollbackActive(w, id, f).ended[w.handles[id].occ].target == Target(w, w.handles[id])
  {
  }

  lemma OwnLeave(w: World, ev: Event, m: Move, x: Xid)
    requires w.engine.MySqlFamily? && Inv(w) && Tied(w) && Bound(w, x)
    requires IsMove(w, Step(w, ev), m) && m.Leave? && Honest(m, ev)
    requires w.handles[m.id].xid == x && w.handles[m.id].state != Prepared && Decided(m.last)
    ensures w.handles[m.id].occ in w.origins && m.target == Some(w.origins[w.handles[m.id].occ])
  {
    FinishTarget(w, ev);
    assert Names(w, w.handles[m.id], x);
    OwnBranchIff(w, m.id);
  }

  lemma OriginsKept(w: World, ev: Event)
    requires w.engine.MySqlFamily? && Inv(w) && Tied(w)
    ensures forall o: nat :: o < w.nextOcc ==> Origin(Step(w, ev), o) == Origin(w, o)
  {
    var _ := StepOrigin(w, ev);
  }

  lemma OwnStep(w: World, ev: Event, x: Xid)
    requires w.engine.MySqlFamily? && Inv(w) && Tied(w) && Bound(w, x) && OwnReports(w, x)
    ensures OwnReports(Step(w, ev), x)
  {
    var w' := Step(w, ev);
    var m := Classify(w, ev);
    OriginsKept(w, ev);
    if m.Leave? && w.handles[m.id].xid == x && w.handles[m.id].state != Prepared && Decided(m.last) {
      OwnLeave(w, ev, m, x);
    }
    OwnKept(w, w', m, x);
  }

  lemma OwnKept(w: World, w': World, m: Move, x: Xid)
    requires Numbered(w) && OwnReports(w, x) && IsMove(w, w', m)
    requires forall o: nat :: o < w.nextOcc ==> Origin(w', o) == Origin(w, o)
    requires m.Leave? && w.handles[m.id].xid == x && w.handles[m.id].state != Prepared && Decided(m.last) ==>
               w.handles[m.id].occ in w.origins && m.target == Some(w.origins[w.handles[m.id].occ])
    ensures OwnReports(w', x)
  {
    forall o | o in w'.ended && w'.ended[o].h.xid == x && w'.ended[o].was != Prepared && Decided(w'.ended[o].h.state)
      ensures o in w'.origins && w'.ended[o].target == Some(w'.origins[o])
    {
      assert o < w.nextOcc ==> Origin(w', o) == Origin(w, o);
    }
  }

  /** In every run without a stray rollback of `x`, lost replies included, a handle for `x` that ends
      from Active or Idle reports the branch it began. */
  lemma {:induction false} OwnRun(w: World, evs: seq<Event>, x: Xid)
    requires w.engine.MySqlFamily? && Inv(w) && Tied(w) && Kept(w, x) && Bound(w, x) && OwnReports(w, x)
    requires NoStray(w, evs, x)
    ensures Tied(Run(w, evs)) && Bound(Run(w, evs), x) && OwnReports(Run(w, evs), x)
    decreases |evs|
  {
    if evs != [] {
      OwnStep(w, evs[0], x);
      BoundStep(w, evs[0], x);
      TiedStep(w, evs[0]);
      InStepStep(w, evs[0], x);
      InvStep(w, evs[0]);
      OwnRun(Step(w, evs[0]), evs[1..], x);
    }
  }

  /** From the first call on: such a handle's Committed means that the branch it began committed, and
      RolledBack that it rolled back. */
  lemma OwnOutcomeFromStart(evs: seq<Event>, x: Xid, o: nat)
    requires x.Valid() && NoStray(Init(MySqlFamily), evs, x)
    requires var w := Run(Init(MySqlFamily), evs);
             o in w.ended && w.ended[o].h.xid == x && w.ended[o].was != Prepared && Decided(w.ended[o].h.state)
    ensures var w := Run(Init(MySqlFamily), evs);
            && o in w.origins && w.origins[o] in w.rm.outcome
            && w.rm.outcome[w.origins[o]] == if w.ended[o].h.state == Committed then DidCommit else DidRollback
  {
    InitInv(MySqlFamily, x);
    OwnRun(Init(MySqlFamily), evs, x);
    AgreementFromStart(MySqlFamily, evs);
    assert Reported(MySqlFamily, Run(Init(MySqlFamily), evs).rm, Run(Init(MySqlFamily), evs).ended[o]);
  }

  // ---------------------------------------------------------------------
  // Prepared handles
  // ---------------------------------------------------------------------

  /** A prepared handle whose own branch is prepared under its name. */
  ghost predicate OwnPrepared(w: World, id: U32) {
    && Has(w, id, Prepared) && w.handles[id].occ in w.origins
    && PreparedAt(w.rm, NameOf(w.engine, w.handles[id].xid))
    && Target(w, w.handles[id]) == Some(w.origins[w.handles[id].occ])
  }

  /** A heard prepare leaves the handle with its own branch. */
  lemma PrepareOwns(w: World, id: U32, f: Fates)
    requires w.engine.MySqlFamily? && Inv(w) && Tied(w) && Has(w, id, Idle)
    requires Kept(w, w.handles[id].xid) && Bound(w, w.handles[id].xid)
    requires Has(Prepare(w, id, f), id, Prepared)
    ensures OwnPrepared(Prepare(w, id, f), id)
  {
    assert w.handles[id].conn in w.conns;
    assert Names(w, w.handles[id], w.handles[id].xid) && Holds(w, w.handles[id]);
    OwnBranchIff(w, id);
  }

  /** It keeps its own branch as long as no phase-two call names the identifier. */
  lemma OwnWhileUndecided(w: World, evs: seq<Event>, id: U32)
    requires w.engine.MySqlFamily? && Inv(w) && Tied(w) && OwnPrepared(w, id)
    requires var x := w.handles[id].xid; InStep(w, x) && NoStray(w, evs, x) && Undecided(w, evs, x)
    requires id in Run(w, evs).handles && Run(w, evs).handles[id] == w.handles[id]
    ensures Tied(Run(w, evs)) && OwnPrepared(Run(w, evs), id)
  {
    PreparedSurvives(w, evs, w.handles[id].xid);
    OriginsRun(w, evs, w.handles[id].occ);
  }

  /**
   * Exactly when a reported decision was about the handle's own branch: when that branch had no
   * outcome yet. And exactly when it is true of it: also when the earlier outcome was the same.
   */
  lemma DecisionOwnIff(w: World, ev: Event)
    requires w.engine.MySqlFamily? && Inv(w) && Tied(w) && (ev.EvCommitPrepared? || ev.EvRollbackPrepared?)
    requires Has(w, ev.id, Prepared) && w.handles[ev.id].occ in w.origins
    requires Decided(Step(w, ev).ended[w.handles[ev.id].occ].h.state)
    ensures var o := w.handles[ev.id].occ; var s := w.origins[o]; var w' := Step(w, ev);
            var done := if ev.EvCommitPrepared? then DidCommit else DidRollback;
            && (w'.ended[o].target == Some(s) <==> s !in w.rm.outcome)
            && s in w'.rm.outcome
            && (w'.rm.outcome[s] == done <==> s !in w.rm.outcome || w.rm.outcome[s] == done)
  {
    var h := w.handles[ev.id];
    FinishTarget(w, ev);
    OwnBranchIff(w, ev.id);
    BooksStep(w, ev);
    DecisionSets(w, ev);
  }

  lemma DecisionSets(w: World, ev: Event)
    requires w.engine.MySqlFamily? && (ev.EvCommitPrepared? || ev.EvRollbackPrepared?) && Has(w, ev.id, Prepared)
    requires Decided(Step(w, ev).ended[w.handles[ev.id].occ].h.state)
    ensures var h := w.handles[ev.id]; var done := if ev.EvCommitPrepared? then DidCommit else DidRollback;
            && Target(w, h).Some? && Target(w, h).value in Step(w, ev).rm.outcome
            && Step(w, ev).rm.outcome[Target(w, h).value] == done
  {
    var a := if ev.EvCommitPrepared? then DoCommit else DoRollbackPrepared;
    HeardSuccess(Take(w, ev.id), w.handles[ev.id], a, ev.f.a);
  }

  lemma OwnDecision(w: World, evs: seq<Event>, id: U32, ev: Event)
    requires w.engine.MySqlFamily? && Inv(w) && Tied(w) && OwnPrepared(w, id)
    requires var x := w.handles[id].xid; InStep(w, x) && NoStray(w, evs, x) && Undecided(w, evs, x)
    requires id in Run(w, evs).handles && Run(w, evs).handles[id] == w.handles[id]
    requires (ev.EvCommitPrepared? || ev.EvRollbackPrepared?) && ev.id == id
    requires Decided(Step(Run(w, evs), ev).ended[w.handles[id].occ].h.state)
    ensures var s := w.origins[w.handles[id].occ]; var w' := Step(Run(w, evs), ev);
            && w'.ended[w.handles[id].occ].target == Some(s) && s in w'.rm.outcome
            && w'.rm.outcome[s] == if ev.EvCommitPrepared? then DidCommit else DidRollback
  {
    OwnWhileUndecided(w, evs, id);
    InvRun(w, evs);
    EngineRun(w, evs);
    OriginsRun(w, evs, w.handles[id].occ);
    OwnBranchIff(Run(w, evs), id);
    DecisionOwnIff(Run(w, evs), ev);
  }

  /** From a heard prepare to a heard decision, with no other phase-two call on the identifier in
      between: the report is true of the branch the handle began. */
  lemma PreparedReportsOwn(w: World, id: U32, f: Fates, evs: seq<Event>, ev: Event)
    requires w.engine.MySqlFamily? && Inv(w) && Tied(w) && Has(w, id, Idle)
    requires Kept(w, w.handles[id].xid) && Bound(w, w.handles[id].xid) && Has(Prepare(w, id, f), id, Prepared)
    requires var w1, x := Prepare(w, id, f), w.handles[id].xid;
             && NoStray(w1, evs, x) && Undecided(w1, evs, x)
             && id in Run(w1, evs).handles && Run(w1, evs).handles[id] == w1.handles[id]
    requires (ev.EvCommitPrepared? || ev.EvRollbackPrepared?) && ev.id == id
    requires Decided(Step(Run(Prepare(w, id, f), evs), ev).ended[w.handles[id].occ].h.state)
    ensures var o := w.handles[id].occ; var w' := Step(Run(Prepare(w, id, f), evs), ev);
            && o in w.origins && w'.ended[o].target == Some(w.origins[o]) && w.origins[o] in w'.rm.outcome
            && w'.rm.outcome[w.origins[o]] == if ev.EvCommitPrepared? then DidCommit else DidRollback
  {
    PrepareOwns(w, id, f);
    PrepareKeeps(w, id, f);
    OwnDecision(Prepare(w, id, f), evs, id, ev);
  }

  lemma PrepareKeeps(w: World, id: U32, f: Fates)
    requires w.engine.MySqlFamily? && Inv(w) && Tied(w) && Has(w, id, Idle) && Kept(w, w.handles[id].xid)
    requires Has(Prepare(w, id, f), id, Prepared)
    ensures var w1 := Prepare(w, id, f);
            && Inv(w1) && Tied(w1) && InStep(w1, w.handles[id].xid) && w1.origins == w.origins
            && w1.engine == w.engine && w1.handles[id] == w.handles[id].(state := Prepared)
  {
    var ev := EvPrepare(id, f);
    assert Prepare(w, id, f) == Step(w, ev);
    InvStep(w, ev);
    TiedStep(w, ev);
    InStepStep(w, ev, w.handles[id].xid);
    OtherOrigin(w, ev);
  }
}
