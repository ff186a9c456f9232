/** The exported XA calls: three handle tables, updated in place, around one resource manager. */
module XaFfi {
  import opened Xids
  import opened IdAllocator
  import opened ResourceManager
  import opened XaWorld

  type Table = map<U32, Handle>

  ghost predicate Disjoint(a: Table, b: Table, c: Table) {
    a.Keys !! b.Keys && a.Keys !! c.Keys && b.Keys !! c.Keys
  }

  lemma TakeOne(a: Table, b: Table, c: Table, id: U32)
    requires Disjoint(a, b, c)
    ensures id in a ==> (a - {id}) + b + c == (a + b + c) - {id}
    ensures id in b ==> a + (b - {id}) + c == (a + b + c) - {id}
    ensures id in c ==> a + b + (c - {id}) == (a + b + c) - {id}
  {
  }

  lemma PutFirst(a: Table, b: Table, c: Table, id: U32, h: Handle)
    requires Disjoint(a, b, c) && id !in a && id !in b && id !in c
    ensures a[id := h] + b + c == (a + b + c)[id := h]
  {
  }

  lemma PutSecond(a: Table, b: Table, c: Table, id: U32, h: Handle)
    requires Disjoint(a, b, c) && id !in a && id !in b && id !in c
    ensures a + b[id := h] + c == (a + b + c)[id := h]
  {
  }

  lemma PutThird(a: Table, b: Table, c: Table, id: U32, h: Handle)
    requires Disjoint(a, b, c) && id !in a && id !in b && id !in c
    ensures a + b + c[id := h] == (a + b + c)[id := h]
  {
  }

  class XaLayer {
    const engine: Engine
    var rm: Rm
    var conns: map<nat, bool>
    var nextConn: nat
    var active: Table
    var preparing: Table
    var prepared: Table
    var nextXaId: U32
    var nextOcc: nat
    var restores: multiset<nat>
    var origins: map<nat, nat>
    var ended: map<nat, Ended>

    /** The tables share no identifier and each holds handles of its own stage only. */
    ghost predicate Valid()
      reads this
    {
      && Disjoint(active, preparing, prepared)
      && (forall id :: id in active ==> active[id].state == Active)
      && (forall id :: id in preparing ==> preparing[id].state == Idle)
      && (forall id :: id in prepared ==> prepared[id].state == Prepared)
    }

    ghost function View(): (w: World)
      reads this
    {
      World(engine, rm, conns, nextConn, active + preparing + prepared, nextXaId, nextOcc, restores, origins, ended)
    }

    constructor (e: Engine)
      ensures Valid() && View() == Init(e)
    {
      engine := e;
      rm := EMPTY;
      conns, nextConn := map[], 0;
      active, preparing, prepared := map[], map[], map[];
      nextXaId, nextOcc := 1, 0;
      restores, origins, ended := multiset{}, map[], map[];
    }

    method RunOnConn(h: Handle, a: Action, fate: Fate) returns (ok: bool)
      modifies this`rm
      ensures (View(), ok) == Call(old(View()), h, a, fate)
    {
      if h.conn !in conns {
        return false;
      }
      ok := Transmit(h.conn, Emit(engine, a, h.xid), fate);
    }

    method Transmit(conn: nat, m: Emission, fate: Fate) returns (ok: bool)
      modifies this`rm
      ensures (rm, ok) == (match m
                           case Unsupported => (old(rm), false)
                           case Nothing => (old(rm), true)
                           case Send(s) => Deliver(old(rm), conn, s, fate))
    {
      match m
      case Unsupported => return false;
      case Nothing => return true;
      case Send(s) =>
        var r := Deliver(rm, conn, s, fate);
        rm := r.0;
        return r.1;
    }

    method TryRestoreAutocommit(h: Handle, ok: bool)
      modifies this`conns, this`restores
      ensures View() == Restore(old(View()), h, ok)
    {
      restores := restores + multiset{h.occ};
      if h.conn in conns && ok {
        conns := conns[h.conn := true];
      }
    }

    /** The end of an unprepared handle that nobody finished. */
    method DropTransaction(h: Handle, f: Fates)
      modifies this`rm, this`conns, this`restores, this`ended
      ensures View() == Discard(old(View()), h, f)
    {
      var _ := RunOnConn(h, DoEnd, f.b);
      var _ := RunOnConn(h, DoRollback, f.c);
      TryRestoreAutocommit(h, f.autocommit);
      ended := ended[h.occ := Ended(h, h.state, None)];
    }

    method NoteOrigin(h: Handle)
      modifies this`origins
      ensures var t := Target(old(View()), h);
              origins == if t.Some? then old(origins)[h.occ := t.value] else old(origins)
    {
      var t := CurrentBranch(h);
      if t.Some? {
        origins := origins[h.occ := t.value];
      }
    }

    method AllocId() returns (id: Option<U32>)
      requires Valid()
      modifies this`nextXaId
      ensures (id, nextXaId) == Probe(old(nextXaId), old(View()).handles.Keys, MAX_ID_ALLOC_ATTEMPTS)
      ensures id.Some? ==> id.value != 0 && id.value !in active && id.value !in preparing && id.value !in prepared
    {
      var live, counter := active.Keys + preparing.Keys + prepared.Keys, nextXaId;
      assert View().handles.Keys == live;
      ProbeFresh(nextXaId, live, MAX_ID_ALLOC_ATTEMPTS);
      id, counter := AllocateId(nextXaId, live);
      nextXaId := counter;
    }

    /** Starts a branch; zero means no handle was made. */
    method XaStart(conn: nat, formatId: Int32, gtrid: seq<Byte>, bqual: seq<Byte>, off: bool, f: Fates)
      returns (xaId: U32)
      requires Valid()
      modifies this
      ensures Valid()
      ensures var x := Xid(formatId, gtrid, bqual);
              View() == if x.Valid() then Start(old(View()), conn, x, off, f) else old(View())
      ensures if xaId == 0 then active == old(active) else xaId !in old(active) && xaId in active
    {
      var xid := NewXid(formatId, gtrid, bqual);
      if xid.None? {
        return 0;
      }
      if conn !in conns {
        return 0;
      }
      if !off {
        return 0;
      }
      conns := conns[conn := false];
      var h := Handle(nextOcc, true, conn, xid.value, Active);
      var ok := RunOnConn(h, DoStart, f.a);
      if !ok {
        return 0;
      }
      xaId := RegisterBranch(h, f);
    }

    method RegisterBranch(h: Handle, f: Fates) returns (xaId: U32)
      requires Valid() && h.state == Active
      modifies this
      ensures Valid() && View() == Register(old(View()), h, f)
      ensures if xaId == 0 then active == old(active) else xaId !in old(active) && active == old(active)[xaId := h]
    {
      var id := NewHandle(h);
      xaId := AdmitBranch(id, h, f);
    }

    method NewHandle(h: Handle) returns (id: Option<U32>)
      requires Valid()
      modifies this`origins, this`nextXaId, this`nextOcc
      ensures var a := Probe(old(nextXaId), old(View()).handles.Keys, MAX_ID_ALLOC_ATTEMPTS);
              id == a.0 && View() == Counted(old(View()), a.1, h)
      ensures id.Some? ==> id.value != 0 && id.value !in active && id.value !in preparing && id.value !in prepared
    {
      NoteOrigin(h);
      id := AllocId();
      nextOcc := nextOcc + 1;
    }

    method AdmitBranch(id: Option<U32>, h: Handle, f: Fates) returns (xaId: U32)
      requires Valid() && h.state == Active
      requires id.Some? ==> id.value != 0 && id.value !in active && id.value !in preparing && id.value !in prepared
      modifies this
      ensures Valid() && View() == Admit(old(View()), id, h, f)
      ensures if xaId == 0 then active == old(active) else xaId !in old(active) && active == old(active)[xaId := h]
    {
      if id.None? {
        DropTransaction(h, f);
        return 0;
      }
      PutFirst(active, preparing, prepared, id.value, h);
      active := active[id.value := h];
      return id.value;
    }

    method RemoveActive(id: U32) returns (h: Handle)
      requires Valid() && id in active
      modifies this`active
      ensures Valid() && Has(old(View()), id, Active) && h == old(View()).handles[id] && View() == Take(old(View()), id)
      ensures active == old(active) - {id}
    {
      h := active[id];
      TakeOne(active, preparing, prepared, id);
      active := active - {id};
    }

    method RemovePreparing(id: U32) returns (h: Handle)
      requires Valid() && id in preparing
      modifies this`preparing
      ensures Valid() && Has(old(View()), id, Idle) && h == old(View()).handles[id] && View() == Take(old(View()), id)
      ensures preparing == old(preparing) - {id}
    {
      h := preparing[id];
      TakeOne(active, preparing, prepared, id);
      preparing := preparing - {id};
    }

    method RemovePrepared(id: U32) returns (h: Handle)
      requires Valid() && id in prepared
      modifies this`prepared
      ensures Valid() && Has(old(View()), id, Prepared) && h == old(View()).handles[id]
      ensures View() == Take(old(View()), id)
      ensures prepared == old(prepared) - {id}
    {
      h := prepared[id];
      TakeOne(active, preparing, prepared, id);
      prepared := prepared - {id};
    }

    method CurrentBranch(h: Handle) returns (t: Option<nat>)
      ensures t == Target(View(), h)
    {
      var n := NameNow(engine, h);
      if n in rm.branches {
        return Some(rm.branches[n].serial);
      }
      return None;
    }

    method Record(h: Handle, last: XaState, t: Option<nat>)
      modifies this`ended
      ensures View() == Retire(old(View()), h, last, t)
    {
      ended := ended[h.occ := Ended(h.(state := last), h.state, t)];
    }

    method XaEnd(id: U32, f: Fates) returns (code: int)
      requires Valid()
      modifies this
      ensures Valid() && View() == End(old(View()), id, f)
      ensures code == 0 <==> id in old(active) && id in preparing
    {
      if id !in active {
        return 1;
      }
      var h := RemoveActive(id);
      var ok := RunOnConn(h, DoEnd, f.a);
      if ok {
        PutSecond(active, preparing, prepared, id, h.(state := Idle));
        preparing := preparing[id := h.(state := Idle)];
        return 0;
      }
      DropTransaction(h, f);
      return 1;
    }

    method XaPrepare(id: U32, f: Fates) returns (code: int)
      requires Valid()
      modifies this
      ensures Valid() && View() == Prepare(old(View()), id, f)
      ensures code == 0 <==> id in old(preparing) && id in prepared
    {
      if id !in preparing {
        return 1;
      }
      var h := RemovePreparing(id);
      var branch := CurrentBranch(h);
      var ok := RunOnConn(h, DoPrepare, f.a);
      var h' := h.(state := Verdict(ok, Prepared));
      TryRestoreAutocommit(h', f.autocommit);
      if ok {
        KeepPrepared(id, h');
        return 0;
      }
      Record(h, Failed, branch);
      return 1;
    }

    method KeepPrepared(id: U32, h: Handle)
      requires Valid() && h.state == Prepared && id !in active && id !in preparing && id !in prepared
      modifies this`prepared
      ensures Valid() && View() == Put(old(View()), id, h) && id in prepared
    {
      PutThird(active, preparing, prepared, id, h);
      prepared := prepared[id := h];
    }

    method XaCommitOnePhase(id: U32, f: Fates) returns (code: int)
      requires Valid()
      modifies this
      ensures Valid() && View() == CommitOnePhase(old(View()), id, f)
      ensures code == 0 <==> id in old(active) && ended[old(active)[id].occ].h.state == Committed
    {
      if id !in active {
        return 1;
      }
      var h := RemoveActive(id);
      var branch := CurrentBranch(h);
      var ok := EndAndCommit(h, branch, f);
      return if ok then 0 else 1;
    }

    method EndAndCommit(h: Handle, branch: Option<nat>, f: Fates) returns (ok: bool)
      requires h.state == Active
      modifies this`rm, this`conns, this`restores, this`ended
      ensures View() == OnePhase(old(View()), h, branch, f)
      ensures h.occ in ended && (ok <==> ended[h.occ].h.state == Committed)
    {
      var detached := RunOnConn(h, DoEnd, f.a);
      if !detached {
        DropTransaction(h, f);
        return false;
      }
      ok := FinishOnePhase(h, branch, f);
    }

    method FinishOnePhase(h: Handle, branch: Option<nat>, f: Fates) returns (ok: bool)
      modifies this`rm, this`conns, this`restores, this`ended
      ensures var (w, done) := Call(old(View()), h, DoCommitOnePhase, f.b);
              && ok == done
              && View() == Retire(Restore(w, h, f.autocommit), h, Verdict(done, Committed), branch)
    {
      ok := RunOnConn(h, DoCommitOnePhase, f.b);
      TryRestoreAutocommit(h, f.autocommit);
      Record(h, Verdict(ok, Committed), branch);
    }

    method XaRollbackActive(id: U32, f: Fates) returns (code: int)
      requires Valid()
      modifies this
      ensures Valid() && View() == RollbackActive(old(View()), id, f)
      ensures code == 0 <==> id in old(active) && ended[old(active)[id].occ].h.state == RolledBack
    {
      if id !in active {
        return 1;
      }
      var h := RemoveActive(id);
      var branch := CurrentBranch(h);
      var _ := RunOnConn(h, DoEnd, f.a);
      var ok := FinishRollback(h, branch, f.b, f.autocommit);
      return if ok then 0 else 1;
    }

    method FinishRollback(h: Handle, branch: Option<nat>, fate: Fate, autocommit: bool) returns (ok: bool)
      modifies this`rm, this`conns, this`restores, this`ended
      ensures var (w, done) := Call(old(View()), h, DoRollback, fate);
              && ok == done
              && View() == Retire(Restore(w, h, autocommit), h, Verdict(done, RolledBack), branch)
    {
      ok := RunOnConn(h, DoRollback, fate);
      TryRestoreAutocommit(h, autocommit);
      Record(h, Verdict(ok, RolledBack), branch);
    }

    /** Rollback between end and prepare; reachable from Rust callers only. */
    method RollbackPreparing(id: U32, f: Fates) returns (code: int)
      requires Valid()
      modifies this
      ensures Valid() && View() == RollbackIdle(old(View()), id, f)
      ensures code == 0 <==> id in old(preparing) && ended[old(preparing)[id].occ].h.state == RolledBack
    {
      if id !in preparing {
        return 1;
      }
      var h := RemovePreparing(id);
      var branch := CurrentBranch(h);
      var ok := FinishRollback(h, branch, f.a, f.autocommit);
      return if ok then 0 else 1;
    }

    method XaCommitPrepared(id: U32, f: Fates) returns (code: int)
      requires Valid()
      modifies this
      ensures Valid() && View() == CommitPrepared(old(View()), id, f)
      ensures code == 0 <==> id in old(prepared) && ended[old(prepared)[id].occ].h.state == Committed
    {
      if id !in prepared {
        return 1;
      }
      var h := RemovePrepared(id);
      var branch := CurrentBranch(h);
      var ok := RunOnConn(h, DoCommit, f.a);
      Record(h, Verdict(ok, Committed), branch);
      return if ok then 0 else 1;
    }

    method XaRollbackPrepared(id: U32, f: Fates) returns (code: int)
      requires Valid()
      modifies this
      ensures Valid() && View() == RollbackPrepared(old(View()), id, f)
      ensures code == 0 <==> id in old(prepared) && ended[old(prepared)[id].occ].h.state == RolledBack
    {
      if id !in prepared {
        return 1;
      }
      var h := RemovePrepared(id);
      var branch := CurrentBranch(h);
      var ok := RunOnConn(h, DoRollbackPrepared, f.a);
      Record(h, Verdict(ok, RolledBack), branch);
      return if ok then 0 else 1;
    }

    /** A handle straight at the prepared stage, for a branch found by recovery. */
    method XaResumePrepared(conn: nat, formatId: Int32, gtrid: seq<Byte>, bqual: seq<Byte>)
      returns (xaId: U32)
      requires Valid()
      modifies this
      ensures Valid()
      ensures var x := Xid(formatId, gtrid, bqual);
              View() == if x.Valid() then Resume(old(View()), conn, x) else old(View())
      ensures if xaId == 0 then prepared == old(prepared) else xaId !in old(prepared) && xaId in prepared
    {
      var xid := NewXid(formatId, gtrid, bqual);
      if xid.None? {
        return 0;
      }
      if conn !in conns {
        return 0;
      }
      var h := Handle(nextOcc, false, conn, xid.value, Prepared);
      NoteOrigin(h);
      var id := AllocId();
      nextOcc := nextOcc + 1;
      assert View() == Counted(old(View()), nextXaId, h);
      xaId := AdoptBranch(id, h);
    }

    method AdoptBranch(id: Option<U32>, h: Handle) returns (xaId: U32)
      requires Valid() && h.state == Prepared
      requires id.Some? ==> id.value != 0 && id.value !in active && id.value !in preparing && id.value !in prepared
      modifies this
      ensures Valid() && View() == Adopt(old(View()), id, h)
      ensures if xaId == 0 then prepared == old(prepared) else xaId !in old(prepared) && xaId in prepared
    {
      if id.None? {
        Record(h, h.state, None);
        return 0;
      }
      PutThird(active, preparing, prepared, id.value, h);
      prepared := prepared[id.value := h];
      return id.value;
    }
  }
}
