/** What every run keeps true of the XA handles and their bookkeeping. */
module XaTables {
  import opened Xids
  import opened IdAllocator
  import opened XaWorld

  /** How one step can change the handles and their bookkeeping. */
  datatype Move =
    | Stay
    | Enter(id: U32, h: Handle)
    | Advance(id: U32, next: XaState)
    | Leave(id: U32, last: XaState, target: Option<nat>)
    | Stillborn(h: Handle)
    | Wipe

  function Stage(s: XaState): (n: nat) {
    match s
    case Active => 0
    case Idle => 1
    case Prepared => 2
    case _ => 3
  }

  predicate Newborn(w: World, h: Handle) {
    h.occ == w.nextOcc && h.xid.Valid() && h.conn in w.conns
    && (if h.started then h.state == Active else h.state == Prepared)
  }

  ghost predicate IsMove(w: World, w': World, m: Move) {
    match m
    case Stay =>
      w'.handles == w.handles && w'.nextOcc == w.nextOcc && w'.ended == w.ended && w'.restores == w.restores
    case Enter(id, h) =>
      && id != 0 && id !in w.handles && Newborn(w, h)
      && w'.handles == w.handles[id := h] && w'.nextOcc == w.nextOcc + 1
      && w'.ended == w.ended && w'.restores == w.restores
    case Advance(id, next) =>
      && id in w.handles && w'.handles == w.handles[id := w.handles[id].(state := next)]
      && w'.nextOcc == w.nextOcc && w'.ended == w.ended
      && (if next == Idle
          then w.handles[id].state == Active && w'.restores == w.restores
          else next == Prepared && w.handles[id].state == Idle
               && w'.restores == w.restores + multiset{w.handles[id].occ})
    case Leave(id, last, target) =>
      && id in w.handles && Stage(w.handles[id].state) <= Stage(last)
      && w'.handles == w.handles - {id} && w'.nextOcc == w.nextOcc
      && w'.ended == w.ended[w.handles[id].occ := Ended(w.handles[id].(state := last), w.handles[id].state, target)]
      && w'.restores == (if w.handles[id].state == Prepared then w.restores
                         else w.restores + multiset{w.handles[id].occ})
    case Stillborn(h) =>
      && Newborn(w, h) && w'.handles == w.handles && w'.nextOcc == w.nextOcc + 1
      && w'.ended == w.ended[h.occ := Ended(h, h.state, None)]
      && w'.restores == (if h.started then w.restores + multiset{h.occ} else w.restores)
    case Wipe =>
      w'.handles == map[] && w'.nextOcc == w.nextOcc && w'.ended == w.ended && w'.restores == w.restores
  }

  /** Live handles are at one of the three stages the tables are for. */
  ghost predicate Staged(w: World) {
    forall id :: id in w.handles ==>
      && id != 0 && w.handles[id].xid.Valid()
      && (w.handles[id].state == Prepared
          || (w.handles[id].started && (w.handles[id].state == Active || w.handles[id].state == Idle)))
  }

  lemma ClassifyStart(w: World, c: nat, x: Xid, off: bool, f: Fates) returns (m: Move)
    requires x.Valid()
    ensures IsMove(w, Start(w, c, x, off, f), m) && !m.Leave? && !m.Advance? && !m.Wipe?
    ensures var h := Handle(w.nextOcc, true, c, x, Active);
            if m.Stay? then Start(w, c, x, off, f).origins == w.origins
            else m.h == h && c in w.conns && off && Call(w.(conns := w.conns[c := false]), h, DoStart, f.a).1
  {
    var h := Handle(w.nextOcc, true, c, x, Active);
    if c !in w.conns || !off || !Call(w.(conns := w.conns[c := false]), h, DoStart, f.a).1 {
      m := Stay;
    } else {
      ProbeFresh(w.nextXaId, w.handles.Keys, MAX_ID_ALLOC_ATTEMPTS);
      var id := Probe(w.nextXaId, w.handles.Keys, MAX_ID_ALLOC_ATTEMPTS).0;
      m := if id.None? then Stillborn(h) else Enter(id.value, h);
    }
  }

  lemma ClassifyResume(w: World, c: nat, x: Xid) returns (m: Move)
    requires x.Valid()
    ensures IsMove(w, Resume(w, c, x), m) && !m.Advance? && !m.Leave? && !m.Wipe?
    ensures if m.Stay? then Resume(w, c, x).origins == w.origins
            else m.h == Handle(w.nextOcc, false, c, x, Prepared) && c in w.conns
  {
    var h := Handle(w.nextOcc, false, c, x, Prepared);
    if c !in w.conns {
      m := Stay;
    } else {
      ProbeFresh(w.nextXaId, w.handles.Keys, MAX_ID_ALLOC_ATTEMPTS);
      var id := Probe(w.nextXaId, w.handles.Keys, MAX_ID_ALLOC_ATTEMPTS).0;
      m := if id.None? then Stillborn(h) else Enter(id.value, h);
    }
  }

  lemma ClassifyEnd(w: World, id: U32, f: Fates) returns (m: Move)
    requires Has(w, id, Active)
    ensures IsMove(w, End(w, id, f), m) && (m.Leave? ==> m.last == Active)
  {
    var ok := Call(Take(w, id), w.handles[id], DoEnd, f.a).1;
    m := if ok then Advance(id, Idle) else Leave(id, Active, None);
  }

  lemma ClassifyCommitOnePhase(w: World, id: U32, f: Fates) returns (m: Move)
    requires Has(w, id, Active)
    ensures IsMove(w, CommitOnePhase(w, id, f), m) && m.Leave? && m.id == id && m.last != RolledBack
  {
    var h := w.handles[id];
    var (w1, ok) := Call(Take(w, id), h, DoEnd, f.a);
    m := if !ok then Leave(id, Active, None)
         else Leave(id, Verdict(Call(w1, h, DoCommitOnePhase, f.b).1, Committed), Target(w, h));
  }

  lemma ClassifyRollbackActive(w: World, id: U32, f: Fates) returns (m: Move)
    requires Has(w, id, Active)
    ensures IsMove(w, RollbackActive(w, id, f), m) && m.Leave? && m.id == id && m.last != Committed
  {
    var h := w.handles[id];
    var w1 := Call(Take(w, id), h, DoEnd, f.a).0;
    m := Leave(id, Verdict(Call(w1, h, DoRollback, f.b).1, RolledBack), Target(w, h));
  }

  lemma ClassifyPrepare(w: World, id: U32, f: Fates) returns (m: Move)
    requires Has(w, id, Idle)
    ensures IsMove(w, Prepare(w, id, f), m) && (m.Leave? ==> m.last == Failed)
  {
    var h := w.handles[id];
    var ok := Call(Take(w, id), h, DoPrepare, f.a).1;
    m := if ok then Advance(id, Prepared) else Leave(id, Failed, Target(w, h));
  }

  lemma ClassifyLast(w: World, ev: Event) returns (m: Move)
    requires || (ev.EvRollbackIdle? && Has(w, ev.id, Idle))
             || ((ev.EvCommitPrepared? || ev.EvRollbackPrepared?) && Has(w, ev.id, Prepared))
    ensures IsMove(w, Step(w, ev), m) && m.Leave? && m.id == ev.id
            && (m.last == Committed ==> ev.EvCommitPrepared?) && (m.last == RolledBack ==> !ev.EvCommitPrepared?)
  {
    var h, w0 := w.handles[ev.id], Take(w, ev.id);
    if ev.EvRollbackIdle? {
      m := Leave(ev.id, Verdict(Call(w0, h, DoRollback, ev.f.a).1, RolledBack), Target(w, h));
    } else if ev.EvCommitPrepared? {
      m := Leave(ev.id, Verdict(Call(w0, h, DoCommit, ev.f.a).1, Committed), Target(w, h));
    } else {
      m := Leave(ev.id, Verdict(Call(w0, h, DoRollbackPrepared, ev.f.a).1, RolledBack), Target(w, h));
    }
  }

  lemma ClassifyDrop(w: World, id: U32, f: Fates) returns (m: Move)
    requires Staged(w) && id in w.handles
    ensures IsMove(w, DropHandle(w, id, f), m) && m.Leave? && m.last != Committed && m.last != RolledBack
  {
    m := Leave(id, w.handles[id].state, None);
  }

  /** A handle ends as committed or rolled back only in a call through it that asks for it. */
  predicate Honest(m: Move, ev: Event) {
    m.Leave? ==>
      && (m.last == Committed ==> (ev.EvCommitPrepared? || ev.EvCommitOnePhase?) && ev.id == m.id)
      && (m.last == RolledBack ==>
            (ev.EvRollbackPrepared? || ev.EvRollbackIdle? || ev.EvRollbackActive?) && ev.id == m.id)
  }

  lemma ClassifyWorking(w: World, ev: Event) returns (m: Move)
    requires Staged(w)
    requires ev.EvEnd? || ev.EvCommitOnePhase? || ev.EvRollbackActive? || ev.EvPrepare?
    ensures IsMove(w, Step(w, ev), m) && Honest(m, ev)
  {
    m := Stay;
    if ev.EvEnd? {
      if Has(w, ev.id, Active) { m := ClassifyEnd(w, ev.id, ev.f); }
    } else if ev.EvCommitOnePhase? {
      if Has(w, ev.id, Active) { m := ClassifyCommitOnePhase(w, ev.id, ev.f); }
    } else if ev.EvRollbackActive? {
      if Has(w, ev.id, Active) { m := ClassifyRollbackActive(w, ev.id, ev.f); }
    } else if Has(w, ev.id, Idle) {
      m := ClassifyPrepare(w, ev.id, ev.f);
    }
  }

  lemma ClassifyEnding(w: World, ev: Event) returns (m: Move)
    requires Staged(w)
    requires ev.EvRollbackIdle? || ev.EvCommitPrepared? || ev.EvRollbackPrepared? || ev.EvDrop?
    ensures IsMove(w, Step(w, ev), m) && Honest(m, ev)
  {
    m := Stay;
    match ev
    case EvRollbackIdle(id, _) => if Has(w, id, Idle) { m := ClassifyLast(w, ev); }
    case EvCommitPrepared(id, _) => if Has(w, id, Prepared) { m := ClassifyLast(w, ev); }
    case EvRollbackPrepared(id, _) => if Has(w, id, Prepared) { m := ClassifyLast(w, ev); }
    case EvDrop(id, f) => if id in w.handles { m := ClassifyDrop(w, id, f); }
  }

  /** Every step is one of the moves, and a handle ends as committed or rolled back only in a call
      that asks for it. */
  lemma Classify(w: World, ev: Event) returns (m: Move)
    requires Staged(w)
    ensures IsMove(w, Step(w, ev), m) && Honest(m, ev)
  {
    m := Stay;
    if ev.EvStart? {
      if ev.xid.Valid() { m := ClassifyStart(w, ev.conn, ev.xid, ev.autocommitOff, ev.f); }
    } else if ev.EvResume? {
      if ev.xid.Valid() { m := ClassifyResume(w, ev.conn, ev.xid); }
    } else if ev.EvEnd? || ev.EvCommitOnePhase? || ev.EvRollbackActive? || ev.EvPrepare? {
      m := ClassifyWorking(w, ev);
    } else if ev.EvRollbackIdle? || ev.EvCommitPrepared? || ev.EvRollbackPrepared? || ev.EvDrop? {
      m := ClassifyEnding(w, ev);
    } else if ev.EvCrash? {
      m := Wipe;
    }
  }

  /** Handle numbers are used once: live handles have distinct ones, none recorded as ended. */
  ghost predicate Numbered(w: World) {
    && (forall id :: id in w.handles ==> w.handles[id].occ < w.nextOcc && w.handles[id].occ !in w.ended)
    && (forall i, j :: i in w.handles && j in w.handles && i != j ==> w.handles[i].occ != w.handles[j].occ)
    && (forall o :: o in w.ended ==> o < w.nextOcc && w.ended[o].h.occ == o)
  }

  /** Autocommit bookkeeping: no attempt while the branch is unprepared, exactly one afterwards
      for a handle that started its branch, none for one that resumed it. */
  ghost predicate Restored(w: World) {
    && (forall id :: id in w.handles ==>
          w.restores[w.handles[id].occ] ==
          if w.handles[id].state == Prepared && w.handles[id].started then 1 else 0)
    && (forall o :: o in w.ended ==> w.restores[o] == if w.ended[o].h.started then 1 else 0)
    && (forall o :: o in w.restores ==> o < w.nextOcc)
  }

  lemma StagedMove(w: World, w': World, m: Move)
    requires Staged(w) && IsMove(w, w', m)
    ensures Staged(w')
  {
  }

  lemma NumberedMove(w: World, w': World, m: Move)
    requires Staged(w) && Numbered(w) && IsMove(w, w', m)
    ensures Numbered(w')
  {
  }

  lemma RestoredMove(w: World, w': World, m: Move)
    requires Staged(w) && Numbered(w) && Restored(w) && IsMove(w, w', m)
    ensures Restored(w')
  {
    if m.Leave? {
      RestoredLeave(w, w', m);
    } else if m.Advance? {
      RestoredAdvance(w, w', m);
    }
  }

  lemma RestoredLeave(w: World, w': World, m: Move)
    requires Staged(w) && Numbered(w) && Restored(w) && IsMove(w, w', m) && m.Leave?
    ensures Restored(w')
  {
  }

  lemma RestoredAdvance(w: World, w': World, m: Move)
    requires Staged(w) && Numbered(w) && Restored(w) && IsMove(w, w', m) && m.Advance?
    ensures Restored(w')
  {
  }

  ghost predicate TablesInv(w: World) { Staged(w) && Numbered(w) && Restored(w) }

  lemma TablesStep(w: World, ev: Event)
    requires TablesInv(w)
    ensures TablesInv(Step(w, ev))
  {
    var m := Classify(w, ev);
    StagedMove(w, Step(w, ev), m);
    NumberedMove(w, Step(w, ev), m);
    RestoredMove(w, Step(w, ev), m);
  }

  /** Every run keeps the tables staged, the handle numbers unique and the autocommit count exact. */
  lemma {:induction false} TablesRun(w: World, evs: seq<Event>)
    requires TablesInv(w)
    ensures TablesInv(Run(w, evs))
    decreases |evs|
  {
    if evs != [] {
      TablesStep(w, evs[0]);
      TablesRun(Step(w, evs[0]), evs[1..]);
    }
  }

  predicate SameBranch(h: Handle, h': Handle) {
    h'.occ == h.occ && h'.conn == h.conn && h'.xid == h.xid && h'.started == h.started
    && Stage(h.state) <= Stage(h'.state)
  }

  /** What a later world may make of an earlier one's handles: each keeps its identifier, branch
      and connection and only moves forward, no handle comes back, and no ending is revised. */
  ghost predicate Forward(w: World, w': World) {
    && w.nextOcc <= w'.nextOcc
    && (forall id :: id in w'.handles && w'.handles[id].occ < w.nextOcc ==>
          id in w.handles && SameBranch(w.handles[id], w'.handles[id]))
    && (forall o :: o in w.ended ==> o in w'.ended && w'.ended[o] == w.ended[o])
    && (forall o :: o in w'.ended && o < w.nextOcc && o !in w.ended ==>
          exists id :: id in w.handles && SameBranch(w.handles[id], w'.ended[o].h))
  }

  lemma ForwardMove(w: World, w': World, m: Move)
    requires TablesInv(w) && IsMove(w, w', m)
    ensures Forward(w, w')
  {
    match m
    case Leave(id, last, _) =>
      assert SameBranch(w.handles[id], w'.ended[w.handles[id].occ].h);
    case _ =>
  }

  lemma ForwardTrans(a: World, b: World, c: World)
    requires Forward(a, b) && Forward(b, c) && Numbered(c)
    ensures Forward(a, c)
  {
    forall o | o in c.ended && o < a.nextOcc && o !in a.ended
      ensures exists id :: id in a.handles && SameBranch(a.handles[id], c.ended[o].h)
    {
      assert c.ended[o].h.occ == o;
      var id := EndedBefore(a, b, c, o);
    }
    ForwardHandles(a, b, c);
  }

  lemma ForwardHandles(a: World, b: World, c: World)
    requires Forward(a, b) && Forward(b, c)
    ensures forall id :: id in c.handles && c.handles[id].occ < a.nextOcc ==>
              id in a.handles && SameBranch(a.handles[id], c.handles[id])
  {
  }

  lemma EndedBefore(a: World, b: World, c: World, o: nat) returns (id: U32)
    requires Forward(a, b) && Forward(b, c) && o in c.ended && o < a.nextOcc && o !in a.ended
    requires c.ended[o].h.occ == o
    ensures id in a.handles && SameBranch(a.handles[id], c.ended[o].h)
  {
    if o in b.ended {
      id :| id in a.handles && SameBranch(a.handles[id], b.ended[o].h);
    } else {
      id :| id in b.handles && SameBranch(b.handles[id], c.ended[o].h);
    }
  }

  /** Over any run, an identifier keeps its branch while it moves forward through the tables,
      and a handle that has ended keeps its one ending for good. */
  lemma {:induction false} ForwardRun(w: World, evs: seq<Event>)
    requires TablesInv(w)
    ensures Forward(w, Run(w, evs))
    decreases |evs|
  {
    if evs != [] {
      var w1 := Step(w, evs[0]);
      var m := Classify(w, evs[0]);
      ForwardMove(w, w1, m);
      TablesStep(w, evs[0]);
      ForwardRun(w1, evs[1..]);
      TablesRun(w1, evs[1..]);
      ForwardTrans(w, w1, Run(w, evs));
    }
  }
}
