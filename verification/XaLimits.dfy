/** Where the guarantees stop: natural claims the code does not keep, with the exact conditions. */
module XaLimits {
  import opened Xids
  import opened IdAllocator
  import opened ResourceManager
  import opened XaWorld
  import opened XaTables
  import opened XaSafety
  import opened XaAgreement
  import opened XaEngines

  // ---------------------------------------------------------------------
  // Stray rollbacks on the MySQL family
  // ---------------------------------------------------------------------

  lemma StrayRollsBack(w: World, h: Handle, f: Fate)
    requires w.engine.MySqlFamily? && h.conn in w.conns && !f.Refuse?
    requires var n := NameOf(w.engine, h.xid); n in w.rm.branches && w.rm.branches[n].phase == S2Idle(h.conn)
    ensures NameOf(w.engine, h.xid) !in Call(w, h, DoRollbackPrepared, f).0.rm.branches
  {
  }

  lemma StrayBreaks(w: World, id: U32, f: Fates, k: U32)
    requires w.engine.MySqlFamily? && Has(w, id, Prepared) && w.handles[id].conn in w.conns
    requires Kept(w, w.handles[id].xid) && !f.a.Refuse? && Has(w, k, Idle)
    requires w.handles[k].xid == w.handles[id].xid && w.handles[k].conn == w.handles[id].conn
    ensures var x, w' := w.handles[id].xid, Step(w, EvRollbackPrepared(id, f));
            && !InStep(w', x) && NameOf(w.engine, x) !in w'.rm.branches && w'.conns == w.conns
            && Has(w', k, Idle) && w'.handles[k] == w.handles[k]
  {
    var x := w.handles[id].xid;
    assert Names(w, w.handles[k], x) && Holds(w, w.handles[k]);
    StrayRollsBack(Take(w, id), w.handles[id], f.a);
    var w' := Step(w, EvRollbackPrepared(id, f));
    assert w' == RollbackPrepared(w, id, f);
    assert k in w'.handles && Names(w', w'.handles[k], x);
  }

  /** A phase-two rollback keeps the handles for its identifier in step with the branch exactly when
      it is not stray. */
  lemma StrayIff(w: World, id: U32, f: Fates)
    requires w.engine.MySqlFamily? && Has(w, id, Prepared) && Kept(w, w.handles[id].xid)
    ensures var x := w.handles[id].xid;
            InStep(Step(w, EvRollbackPrepared(id, f)), x) <==> !Stray(w, EvRollbackPrepared(id, f), x)
  {
    var x, ev := w.handles[id].xid, EvRollbackPrepared(id, f);
    if Stray(w, ev, x) {
      var k :| k in w.handles && w.handles[k].state == Idle
               && w.handles[k].xid == x && w.handles[k].conn == w.handles[id].conn;
      StrayBreaks(w, id, f, k);
    } else {
      InStepDecide(w, ev, x);
    }
  }

  lemma {:induction false} RunSnoc(w: World, evs: seq<Event>, ev: Event)
    ensures Run(w, evs + [ev]) == Step(Run(w, evs), ev)
    decreases |evs|
  {
    if evs != [] {
      RunSnoc(Step(w, evs[0]), evs[1..], ev);
      assert (evs + [ev])[1..] == evs[1..] + [ev];
    }
  }

  lemma Resumed(w: World, c: nat, x: Xid, k: U32, s: nat)
    requires x.Valid() && w.engine.MySqlFamily? && c in w.conns && NextId(w) == Some(k)
    requires var n := NameOf(w.engine, x); n in w.rm.branches && w.rm.branches[n].serial == s
    ensures var w' := Step(w, EvResume(c, x));
            && w' == w.(nextXaId := WrappingNext(k), nextOcc := w.nextOcc + 1, origins := w.origins[w.nextOcc := s],
                        handles := w.handles[k := Handle(w.nextOcc, false, c, x, Prepared)])
            && k !in w.handles
  {
    ProbeFresh(w.nextXaId, w.handles.Keys, MAX_ID_ALLOC_ATTEMPTS);
  }

  lemma Undone(w: World, c: nat, x: Xid, k: U32)
    requires w.engine.MySqlFamily? && c in w.conns && Has(w, k, Prepared)
    requires w.handles[k].xid == x && w.handles[k].conn == c && PreparedAt(w.rm, NameOf(w.engine, x))
    ensures var w' := Step(w, EvRollbackPrepared(k, OBEYED));
            && w' == w.(rm := Finish(w.rm, NameOf(w.engine, x), DidRollback), handles := w.handles - {k},
                        ended := w'.ended)
  {
  }

  /** Resuming a prepared branch and rolling it back through the new handle. */
  lemma ResumedAndUndone(w: World, c: nat, x: Xid, k: U32, s: nat)
    requires x.Valid() && w.engine.MySqlFamily? && c in w.conns && NextId(w) == Some(k)
    requires var n := NameOf(w.engine, x); n in w.rm.branches && w.rm.branches[n] == Branch(s, S3Prepared)
    ensures var w' := Step(Step(w, EvResume(c, x)), EvRollbackPrepared(k, OBEYED));
            && Frame(w, w') && c in w'.conns && w'.nextXaId == WrappingNext(k) && w'.nextOcc == w.nextOcc + 1
            && w'.handles == w.handles && w'.rm == Finish(w.rm, NameOf(w.engine, x), DidRollback)
            && w'.origins == w.origins[w.nextOcc := s]
  {
    Resumed(w, c, x, k, s);
    var w1 := Step(w, EvResume(c, x));
    Undone(w1, c, x, k);
    assert w1.handles - {k} == w.handles;
  }

  predicate NoPhaseTwo(evs: seq<Event>) {
    forall i :: 0 <= i < |evs| ==> !evs[i].EvCommitPrepared? && !evs[i].EvRollbackPrepared?
  }

  /** Only a start brings a branch into being. */
  lemma CallAddsNone(w: World, h: Handle, a: Action, f: Fate, n: BranchName)
    requires w.engine.MySqlFamily? && !a.DoStart? && n !in w.rm.branches
    ensures n !in Call(w, h, a, f).0.rm.branches
  {
  }

  lemma DropAddsNone(w: World, j: U32, n: BranchName)
    requires w.engine.MySqlFamily? && j in w.handles && n !in w.rm.branches
    ensures var w' := Step(w, EvDrop(j, OBEYED));
            n !in w'.rm.branches && w'.nextXaId == w.nextXaId && w'.handles == w.handles - {j}
  {
    var h := w.handles[j];
    CallAddsNone(Take(w, j), h, DoEnd, Obey, n);
    CallAddsNone(Call(Take(w, j), h, DoEnd, Obey).0, h, DoRollback, Obey, n);
  }

  /** If need be, dropping one other handle makes room in the tables. */
  lemma RoomMade(w: World, k: U32, n: BranchName) returns (evs: seq<Event>)
    requires w.engine.MySqlFamily? && k in w.handles && n !in w.rm.branches
    ensures var w' := Run(w, evs);
            && NoPhaseTwo(evs) && Frame(w, w') && NextId(w').Some? && n !in w'.rm.branches
            && k in w'.handles && w'.handles[k] == w.handles[k]
  {
    if NextId(w).Some? {
      evs := [];
    } else {
      var j := ProbeMakesRoom(w.nextXaId, w.handles.Keys, k);
      DropAddsNone(w, j, n);
      evs := [EvDrop(j, OBEYED)];
      RunSnoc(w, [], EvDrop(j, OBEYED));
      assert [] + evs == evs && (w.handles - {j}).Keys == w.handles.Keys - {j};
    }
  }

  lemma RunFour(w: World, a: Event, b: Event, c: Event, d: Event)
    ensures Run(w, [a, b, c, d]) == Step(Step(Step(Step(w, a), b), c), d)
  {
    RunSnoc(w, [], a);
    RunSnoc(w, [a], b);
    RunSnoc(w, [a, b], c);
    RunSnoc(w, [a, b, c], d);
    assert [] + [a] == [a] && [a] + [b] == [a, b] && [a, b] + [c] == [a, b, c] && [a, b, c] + [d] == [a, b, c, d];
  }

  /** The name is then prepared afresh on a new connection. */
  function AfreshCalls(w: World, x: Xid, i: U32): (evs: seq<Event>) {
    [EvConnect, EvStart(w.nextConn, x, true, OBEYED), EvEnd(i, OBEYED), EvPrepare(i, OBEYED)]
  }

  lemma PreparedAfresh(w: World, x: Xid, i: U32)
    requires w.engine.MySqlFamily? && Free(Connect(w), w.nextConn, x, i)
    ensures Run(w, AfreshCalls(w, x, i)) == Begun(Connect(w), w.nextConn, x, i, Prepared)
  {
    PreparedInARow(Connect(w), w.nextConn, x, i);
    RunFour(w, EvConnect, EvStart(w.nextConn, x, true, OBEYED), EvEnd(i, OBEYED), EvPrepare(i, OBEYED));
  }

  lemma PreparedAnew(w: World, k: U32, x: Xid) returns (evs: seq<Event>)
    requires x.Valid() && w.engine.MySqlFamily? && k in w.handles && NameOf(w.engine, x) !in w.rm.branches
    ensures var w' := Run(w, evs);
            && NoPhaseTwo(evs) && w'.engine == w.engine && PreparedAt(w'.rm, NameOf(w.engine, x))
            && w.conns.Keys <= w'.conns.Keys && k in w'.handles && w'.handles[k] == w.handles[k]
  {
    var room := RoomMade(w, k, NameOf(w.engine, x));
    var w1 := Run(w, room);
    var i := NextId(w1).value;
    ProbeFresh(w1.nextXaId, w1.handles.Keys, MAX_ID_ALLOC_ATTEMPTS);
    PreparedAfresh(w1, x, i);
    evs := room + AfreshCalls(w1, x, i);
    RunBoth(w, room, AfreshCalls(w1, x, i));
  }

  lemma DropOfStaleHandle(w: World, k: U32)
    requires w.engine.MySqlFamily? && Has(w, k, Idle) && w.handles[k].conn in w.conns
    requires PreparedAt(w.rm, NameOf(w.engine, w.handles[k].xid))
    ensures NameOf(w.engine, w.handles[k].xid) !in Step(w, EvDrop(k, OBEYED)).rm.branches
  {
  }

  /** Whatever the state, a stray rollback of `x` can be followed by calls, no phase-two call among
      them, that prepare `x` anew and then drop a stale handle, and this drop aborts the branch. */
  lemma StrayLosesPrepared(w: World, ev: Event, x: Xid) returns (evs: seq<Event>, k: U32)
    requires w.engine.MySqlFamily? && Kept(w, x) && Stray(w, ev, x)
    ensures var w' := Run(Step(w, ev), evs);
            && NoPhaseTwo(evs) && PreparedAt(w'.rm, NameOf(w.engine, x))
            && NameOf(w.engine, x) !in Step(w', EvDrop(k, OBEYED)).rm.branches
  {
    k :| k in w.handles && w.handles[k].state == Idle
         && w.handles[k].xid == x && w.handles[k].conn == w.handles[ev.id].conn;
    StrayBreaks(w, ev.id, ev.f, k);
    evs := PreparedAnew(Step(w, ev), k, x);
    DropOfStaleHandle(Run(Step(w, ev), evs), k);
  }

  lemma {:induction false} RunBoth(w: World, evs: seq<Event>, more: seq<Event>)
    ensures Run(w, evs + more) == Run(Run(w, evs), more)
    decreases |more|
  {
    if more == [] {
      assert evs + more == evs;
    } else {
      var most, last := more[..|more| - 1], more[|more| - 1];
      assert evs + more == (evs + most) + [last] && more == most + [last];
      RunBoth(w, evs, most);
      RunSnoc(w, evs + most, last);
      RunSnoc(Run(w, evs), most, last);
    }
  }

  lemma FirstIdle(x: Xid) returns (evs: seq<Event>)
    requires x.Valid()
    ensures var w := Run(Init(MySqlFamily), evs);
            && NoStray(Init(MySqlFamily), evs, x) && AllReliable(evs)
            && w.engine.MySqlFamily? && 0 in w.conns && w.nextXaId == 2
            && w.handles == map[1 := Handle(0, true, 0, x, Idle)]
  {
    var w0 := Init(MySqlFamily);
    evs := Extend(w0, [], EvConnect, x);
    var w1 := Step(w0, EvConnect);
    ProbeHead(1, w1.handles.Keys, MAX_ID_ALLOC_ATTEMPTS);
    Started(w1, 0, x, 1);
    EndedNow(w1, 0, x, 1);
    evs := ExtendTwo(w0, evs, EvStart(0, x, true, OBEYED), EvEnd(1, OBEYED), x);
  }

  /** And there are such states: a branch resumed while its first handle still holds it idle. */
  lemma StrayReached(x: Xid) returns (evs: seq<Event>)
    requires x.Valid()
    ensures var w := Run(Init(MySqlFamily), evs);
            && w.engine.MySqlFamily? && Kept(w, x) && Stray(w, EvRollbackPrepared(2, OBEYED), x)
  {
    var w0 := Init(MySqlFamily);
    evs := FirstIdle(x);
    ResumedBeside(Run(w0, evs), x);
    evs := Extend(w0, evs, EvResume(0, x), x);
    KeptFromStart(evs, x);
  }

  lemma KeptFromStart(evs: seq<Event>, x: Xid)
    requires x.Valid() && NoStray(Init(MySqlFamily), evs, x)
    ensures Kept(Run(Init(MySqlFamily), evs), x)
  {
    InitInv(MySqlFamily, x);
    InvRun(Init(MySqlFamily), evs);
    InStepRun(Init(MySqlFamily), evs, x);
  }

  lemma ResumedBeside(w: World, x: Xid)
    requires x.Valid() && 0 in w.conns && w.nextXaId == 2 && w.handles == map[1 := Handle(0, true, 0, x, Idle)]
    ensures var w' := Step(w, EvResume(0, x));
            w'.engine == w.engine && Stray(w', EvRollbackPrepared(2, OBEYED), x)
  {
    ProbeHead(2, w.handles.Keys, MAX_ID_ALLOC_ATTEMPTS);
    var w' := Step(w, EvResume(0, x));
    assert w'.handles == w.handles[2 := Handle(w.nextOcc, false, 0, x, Prepared)];
    assert 1 in w'.handles;
  }

  /** So from an empty state on, a run with one stray rollback can end with a drop that aborts a
      prepared branch. */
  lemma DropAbortsPrepared(x: Xid) returns (evs: seq<Event>, k: U32)
    requires x.Valid()
    ensures PreparedAt(Run(Init(MySqlFamily), evs).rm, NameOf(MySqlFamily, x))
    ensures NameOf(MySqlFamily, x) !in Run(Init(MySqlFamily), evs + [EvDrop(k, OBEYED)]).rm.branches
  {
    var w0, stray := Init(MySqlFamily), EvRollbackPrepared(2, OBEYED);
    var first := StrayReached(x);
    var rest;
    rest, k := StrayLosesPrepared(Run(w0, first), stray, x);
    RunSnoc(w0, first, stray);
    RunBoth(w0, first + [stray], rest);
    evs := first + [stray] + rest;
    RunSnoc(w0, evs, EvDrop(k, OBEYED));
  }

  // ---------------------------------------------------------------------
  // A second branch under one name
  // ---------------------------------------------------------------------

  lemma {:induction false} NoStraySnoc(w: World, evs: seq<Event>, ev: Event, x: Xid)
    requires NoStray(w, evs, x) && !Stray(Run(w, evs), ev, x)
    ensures NoStray(w, evs + [ev], x)
    decreases |evs|
  {
    if evs != [] {
      NoStraySnoc(Step(w, evs[0]), evs[1..], ev, x);
      assert (evs + [ev])[1..] == evs[1..] + [ev];
    } else {
      assert (evs + [ev])[1..] == [];
    }
  }

  lemma Extend(w: World, evs: seq<Event>, ev: Event, x: Xid) returns (more: seq<Event>)
    requires NoStray(w, evs, x) && !Stray(Run(w, evs), ev, x) && AllReliable(evs) && Reliable(ev)
    ensures Run(w, more) == Step(Run(w, evs), ev) && NoStray(w, more, x) && AllReliable(more)
  {
    more := evs + [ev];
    RunSnoc(w, evs, ev);
    NoStraySnoc(w, evs, ev, x);
  }

  lemma ExtendTwo(w: World, evs: seq<Event>, a: Event, b: Event, x: Xid) returns (more: seq<Event>)
    requires NoStray(w, evs, x) && AllReliable(evs) && Reliable(a) && Reliable(b)
    requires !a.EvRollbackPrepared? && !b.EvRollbackPrepared?
    ensures Run(w, more) == Step(Step(Run(w, evs), a), b) && NoStray(w, more, x) && AllReliable(more)
  {
    more := Extend(w, evs, a, x);
    more := Extend(w, more, b, x);
  }

  /** Three calls in a row, none of them a stray rollback. */
  lemma ExtendThree(w: World, evs: seq<Event>, a: Event, b: Event, c: Event, x: Xid) returns (more: seq<Event>)
    requires NoStray(w, evs, x) && AllReliable(evs) && Reliable(a) && Reliable(b) && Reliable(c)
    requires !a.EvRollbackPrepared? && !b.EvRollbackPrepared? && !c.EvRollbackPrepared?
    ensures Run(w, more) == Step(Step(Step(Run(w, evs), a), b), c) && NoStray(w, more, x) && AllReliable(more)
  {
    more := ExtendTwo(w, evs, a, b, x);
    more := Extend(w, more, c, x);
  }

  lemma FirstPrepared(x: Xid) returns (evs: seq<Event>)
    requires x.Valid()
    ensures var w := Run(Init(MySqlFamily), evs); var n := NameOf(MySqlFamily, x);
            && NoStray(Init(MySqlFamily), evs, x) && AllReliable(evs)
            && w.engine.MySqlFamily? && 0 in w.conns && w.nextXaId == 2 && w.nextOcc == 1
            && w.handles == map[1 := Handle(0, true, 0, x, Prepared)] && w.origins == map[0 := 0]
            && n in w.rm.branches && w.rm.branches[n] == Branch(0, S3Prepared)
            && w.rm.outcome == map[] && w.rm.nextSerial == 1
  {
    var w0 := Init(MySqlFamily);
    evs := Extend(w0, [], EvConnect, x);
    var w1 := Step(w0, EvConnect);
    ProbeHead(1, w1.handles.Keys, MAX_ID_ALLOC_ATTEMPTS);
    PreparedInARow(w1, 0, x, 1);
    evs := ExtendThree(w0, evs, EvStart(0, x, true, OBEYED), EvEnd(1, OBEYED), EvPrepare(1, OBEYED), x);
  }

  lemma FirstLife(x: Xid) returns (evs: seq<Event>)
    requires x.Valid()
    ensures var w := Run(Init(MySqlFamily), evs); var n := NameOf(MySqlFamily, x);
            && NoStray(Init(MySqlFamily), evs, x) && AllReliable(evs)
            && w.engine.MySqlFamily? && 0 in w.conns && w.nextXaId == 3 && w.nextOcc == 2
            && w.handles == map[1 := Handle(0, true, 0, x, Prepared)] && w.origins == map[0 := 0, 1 := 0]
            && n !in w.rm.branches && w.rm.outcome == map[0 := DidRollback] && w.rm.nextSerial == 1
  {
    var w0 := Init(MySqlFamily);
    evs := FirstPrepared(x);
    ProbeHead(2, Run(w0, evs).handles.Keys, MAX_ID_ALLOC_ATTEMPTS);
    ResumedAndUndone(Run(w0, evs), 0, x, 2, 0);
    evs := Extend(w0, evs, EvResume(0, x), x);
    evs := Extend(w0, evs, EvRollbackPrepared(2, OBEYED), x);
  }

  /** With every reply heard and nothing stray: a handle reports Committed although the branch it
      began and prepared was rolled back, because another call decided it and the name was reused. */
  lemma SecondLife(x: Xid) returns (evs: seq<Event>)
    requires x.Valid()
    ensures var w := Run(Init(MySqlFamily), evs);
            && NoStray(Init(MySqlFamily), evs, x) && AllReliable(evs)
            && 0 in w.ended && w.ended[0].h.state == Committed && w.ended[0].target == Some(1)
            && 0 in w.origins && w.origins[0] == 0 && w.rm.outcome == map[0 := DidRollback, 1 := DidCommit]
  {
    var w0 := Init(MySqlFamily);
    evs := FirstLife(x);
    ProbeHead(3, Run(w0, evs).handles.Keys, MAX_ID_ALLOC_ATTEMPTS);
    PreparedInARow(Run(w0, evs), 0, x, 3);
    evs := ExtendThree(w0, evs, EvStart(0, x, true, OBEYED), EvEnd(3, OBEYED), EvPrepare(3, OBEYED), x);
    DecidedByOther(Run(w0, evs), x);
    evs := Extend(w0, evs, EvCommitPrepared(1, OBEYED), x);
  }

  lemma DecidedByOther(w: World, x: Xid)
    requires w.engine.MySqlFamily? && 0 in w.conns && Has(w, 1, Prepared)
    requires w.handles[1] == Handle(0, true, 0, x, Prepared) && w.rm.outcome == map[0 := DidRollback]
    requires var n := NameOf(w.engine, x); n in w.rm.branches && w.rm.branches[n] == Branch(1, S3Prepared)
    ensures var w' := Step(w, EvCommitPrepared(1, OBEYED));
            && w'.ended == w.ended[0 := Ended(Handle(0, true, 0, x, Committed), Prepared, Some(1))]
            && w'.origins == w.origins && w'.rm.outcome == map[0 := DidRollback, 1 := DidCommit]
  {
  }

  // ---------------------------------------------------------------------
  // Oracle
  // ---------------------------------------------------------------------

  /** The rollback block ends the branch again before rolling it back, so on an idle branch it
      never works: the call always fails and the branch stays where it was. */
  lemma OracleIdleRollbackFails(w: World, id: U32, f: Fates)
    requires w.engine.Oracle? && Has(w, id, Idle) && Kept(w, w.handles[id].xid)
    ensures var w' := RollbackIdle(w, id, f);
            w'.rm == w.rm && w'.ended[w.handles[id].occ].h.state == Failed
  {
    if w.handles[id].conn in w.conns {
      assert Names(w, w.handles[id], w.handles[id].xid) && Holds(w, w.handles[id]);
    }
  }

  /** Rolling back an active Oracle branch is reported done exactly when the separate end call was
      refused and the block's own end then went through; obeying both makes the rollback fail. */
  lemma OracleActiveRollbackIff(w: World, id: U32, f: Fates)
    requires w.engine.Oracle? && Has(w, id, Active) && w.handles[id].conn in w.conns && Kept(w, w.handles[id].xid)
    ensures RollbackActive(w, id, f).ended[w.handles[id].occ].h.state == RolledBack
            <==> f.a.Refuse? && (f.b.Obey? || f.b.ReadOnly?)
  {
    var h, w0 := w.handles[id], Take(w, id);
    assert Names(w, h, h.xid) && Holds(w, h);
    OracleEnd(w0, h, f.a);
    OracleBlock(Call(w0, h, DoEnd, f.a).0, h, f.b);
  }

  lemma OracleEnd(w: World, h: Handle, f: Fate)
    requires w.engine.Oracle? && h.conn in w.conns && h.state == Active && Holds(w, h)
    ensures var n, rm := NameOf(w.engine, h.xid), Call(w, h, DoEnd, f).0.rm;
            n in rm.branches && (rm.branches[n].phase == S1Active(h.conn) <==> f.Refuse?)
  {
  }

  lemma OracleBlock(w: World, h: Handle, f: Fate)
    requires w.engine.Oracle? && h.conn in w.conns && NameOf(w.engine, h.xid) in w.rm.branches
    ensures Call(w, h, DoRollback, f).1 <==>
              w.rm.branches[NameOf(w.engine, h.xid)].phase == S1Active(h.conn) && (f.Obey? || f.ReadOnly?)
  {
  }

  lemma OracleDiscard(w: World, h: Handle, f: Fates)
    requires w.engine.Oracle? && h.conn in w.conns && Unprepared(h) && Holds(w, h)
    ensures NameOf(w.engine, h.xid) !in Discard(w, h, f).rm.branches
            <==> h.state == Active && f.b.Refuse? && !f.c.Refuse? && !f.c.RmAborts?
  {
    var n := NameOf(w.engine, h.xid);
    var w1 := Call(w, h, DoEnd, f.b).0;
    assert n in w1.rm.branches;
    assert w1.rm.branches[n].phase == S1Active(h.conn) <==> h.state == Active && f.b.Refuse?;
  }

  /** A drop ends twice as well: it gets rid of the branch exactly when the branch is active, the
      first end is refused and the block's own end is not; otherwise the branch is left behind. */
  lemma OracleDropIff(w: World, id: U32, f: Fates)
    requires w.engine.Oracle? && id in w.handles && Unprepared(w.handles[id])
    requires w.handles[id].conn in w.conns && Kept(w, w.handles[id].xid)
    ensures NameOf(w.engine, w.handles[id].xid) !in DropHandle(w, id, f).rm.branches
            <==> w.handles[id].state == Active && f.b.Refuse? && !f.c.Refuse? && !f.c.RmAborts?
  {
    assert Names(w, w.handles[id], w.handles[id].xid) && Holds(w, w.handles[id]);
    OracleDiscard(Take(w, id), w.handles[id], f);
  }

  /** Oracle's phase two takes an unknown branch for a finished one: a heard commit is reported
      exactly when the branch is prepared or not known at all. */
  lemma OracleCommitIff(w: World, id: U32, f: Fates)
    requires Staged(w) && w.engine.Oracle? && Has(w, id, Prepared) && w.handles[id].conn in w.conns && f.a.Obey?
    ensures var n := NameOf(w.engine, w.handles[id].xid);
            CommitPrepared(w, id, f).ended[w.handles[id].occ].h.state == Committed
            <==> n !in w.rm.branches || PreparedAt(w.rm, n)
  {
  }

  /** And so is a heard rollback, or when its own connection has the branch ended but not prepared. */
  lemma OracleRollbackIff(w: World, id: U32, f: Fates)
    requires Staged(w) && w.engine.Oracle? && Has(w, id, Prepared) && w.handles[id].conn in w.conns && f.a.Obey?
    ensures var n, c := NameOf(w.engine, w.handles[id].xid), w.handles[id].conn;
            RollbackPrepared(w, id, f).ended[w.handles[id].occ].h.state == RolledBack
            <==> n !in w.rm.branches || PreparedAt(w.rm, n)
                 || w.rm.branches[n].phase == S2Idle(c) || w.rm.branches[n].phase == S4RollbackOnly(c)
  {
  }

  // ---------------------------------------------------------------------
  // Autocommit
  // ---------------------------------------------------------------------

  /** A start that makes no handle leaves autocommit off exactly when switching it off worked. */
  lemma FailedStartAutocommit(w: World, c: nat, x: Xid, off: bool, f: Fates)
    requires c in w.conns && w.conns[c] && Start(w, c, x, off, f).nextOcc == w.nextOcc
    ensures Start(w, c, x, off, f).conns[c] == !off
  {
  }
}
