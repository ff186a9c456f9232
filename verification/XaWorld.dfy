/** Two-phase commit as the engine drives it: what every call does to the handle tables,
    to the connections and to the resource manager. */
module XaWorld {
  import opened Xids
  import opened IdAllocator
  import opened ResourceManager

  // ---------------------------------------------------------------------
  // Statements per engine
  // ---------------------------------------------------------------------

  datatype Action =
    | DoStart | DoEnd | DoPrepare | DoCommitOnePhase | DoCommit | DoRollback | DoRollbackPrepared

  datatype Emission = Send(s: Statement) | Nothing | Unsupported

  function OpOf(a: Action): (op: XaOp) {
    match a
    case DoStart => OpStart
    case DoEnd => OpEnd
    case DoPrepare => OpPrepare
    case DoCommitOnePhase => OpCommitOnePhase
    case DoCommit => OpCommit
    case DoRollback => OpRollback
    case DoRollbackPrepared => OpRollback
  }

  /** The statement an engine needs for an action. Oracle forgives a read-only prepare and an
      unknown branch in phase two, and rolls unprepared work back by ending it once more first. */
  function Emit(e: Engine, a: Action, x: Xid): (m: Emission) {
    var n := NameOf(e, x);
    match e
    case Postgres => (
      match a
      case DoStart => Send(PgBegin)
      case DoEnd => Nothing
      case DoPrepare => Send(PgPrepare(n.text))
      case DoCommitOnePhase => Send(PgCommit)
      case DoCommit => Send(PgCommitPrepared(n.text))
      case DoRollback => Send(PgRollback)
      case DoRollbackPrepared => Send(PgRollbackPrepared(n.text)))
    case MySqlFamily => Send(XaCall(OpOf(a), n, {}))
    case Oracle => (
      match a
      case DoPrepare => Send(XaCall(OpPrepare, n, {XaRdOnly}))
      case DoCommit => Send(XaCall(OpCommit, n, {XaerNota}))
      case DoRollback => Send(EndThenRollback(n))
      case DoRollbackPrepared => Send(XaCall(OpRollback, n, {XaerNota}))
      case _ => Send(XaCall(OpOf(a), n, {})))
    case _ => Unsupported
  }

  // ---------------------------------------------------------------------
  // State
  // ---------------------------------------------------------------------

  datatype XaState = Active | Idle | Prepared | Committed | RolledBack | Failed

  /** One branch handle. `occ` numbers the handles ever made; `started` tells a handle that
      began its branch from one that resumed a prepared branch. */
  datatype Handle = Handle(occ: nat, started: bool, conn: nat, xid: Xid, state: XaState)

  /** The record of a handle that is gone: its last state, the state its last call found it in, and
      the branch its name stood for then. */
  datatype Ended = Ended(h: Handle, was: XaState, target: Option<nat>)

  datatype World = World(
    engine: Engine,
    rm: Rm,
    conns: map<nat, bool>,            // live connections, with their autocommit flag
    nextConn: nat,
    handles: map<U32, Handle>,        // live handles; the state says which table holds one
    nextXaId: U32,
    nextOcc: nat,
    restores: multiset<nat>,          // attempts to restore autocommit, by handle number
    origins: map<nat, nat>,           // the branch a handle began, or was resumed onto, by handle number
    ended: map<nat, Ended>)

  /** The fates of up to three statements in one call, and of the autocommit call. */
  datatype Fates = Fates(a: Fate, b: Fate, c: Fate, autocommit: bool)

  function Init(e: Engine): (w: World) {
    World(e, EMPTY, map[], 0, map[], 1, 0, multiset{}, map[], map[])
  }

  // ---------------------------------------------------------------------
  // Pieces of a call
  // ---------------------------------------------------------------------

  /** Runs one action on the handle's connection; a connection that is gone is an error. */
  function Call(w: World, h: Handle, a: Action, fate: Fate): (r: (World, bool))
    ensures r.0 == w.(rm := r.0.rm)
  {
    if h.conn !in w.conns then (w, false)
    else match Emit(w.engine, a, h.xid)
      case Unsupported => (w, false)
      case Nothing => (w, true)
      case Send(s) =>
        var (rm', ok) := Deliver(w.rm, h.conn, s, fate);
        (w.(rm := rm'), ok)
  }

  function Restore(w: World, h: Handle, ok: bool): (r: World)
    ensures r.conns.Keys == w.conns.Keys
  {
    w.(restores := w.restores + multiset{h.occ},
       conns := if h.conn in w.conns && ok then w.conns[h.conn := true] else w.conns)
  }

  /** The name a handle's branch goes by: on PostgreSQL work has only its session until it is prepared. */
  function NameNow(e: Engine, h: Handle): (n: BranchName) {
    if e.Postgres? && (h.state == Active || h.state == Idle) then Session(h.conn) else NameOf(e, h.xid)
  }

  function Target(w: World, h: Handle): (t: Option<nat>) {
    var n := NameNow(w.engine, h);
    if n in w.rm.branches then Some(w.rm.branches[n].serial) else None
  }

  function Retire(w: World, h: Handle, last: XaState, target: Option<nat>): (r: World) {
    w.(ended := w.ended[h.occ := Ended(h.(state := last), h.state, target)])
  }

  /** Dropping an unprepared handle: end, roll back, restore autocommit, ignoring every error. */
  function Discard(w: World, h: Handle, f: Fates): (r: World)
    ensures r.conns.Keys == w.conns.Keys
    ensures r == w.(rm := r.rm, conns := r.conns, restores := w.restores + multiset{h.occ},
                    ended := w.ended[h.occ := Ended(h, h.state, None)])
  {
    var w1 := Call(w, h, DoEnd, f.b).0;
    var w2 := Call(w1, h, DoRollback, f.c).0;
    Retire(Restore(w2, h, f.autocommit), h, h.state, None)
  }

  predicate Has(w: World, id: U32, st: XaState) { id in w.handles && w.handles[id].state == st }

  function Take(w: World, id: U32): (r: World) { w.(handles := w.handles - {id}) }

  function Put(w: World, id: U32, h: Handle): (r: World) { w.(handles := w.handles[id := h]) }

  /** Calls leave the engine and the set of connections alone. */
  predicate Frame(w: World, r: World) {
    r.engine == w.engine && r.conns.Keys == w.conns.Keys && r.nextConn == w.nextConn
  }

  function Verdict(ok: bool, good: XaState): (s: XaState) { if ok then good else Failed }

  // ---------------------------------------------------------------------
  // Calls
  // ---------------------------------------------------------------------

  /** A new handle number, with the branch that bears the handle's name now. */
  function Counted(w: World, counter: U32, h: Handle): (r: World) {
    w.(nextXaId := counter, nextOcc := w.nextOcc + 1,
       origins := if Target(w, h).Some? then w.origins[h.occ := Target(w, h).value] else w.origins)
  }

  /** A table entry for a branch just started, or its drop when no identifier is free. */
  function Admit(w: World, id: Option<U32>, h: Handle, f: Fates): (r: World)
    ensures Frame(w, r)
  {
    if id.None? then Discard(w, h, f) else Put(w, id.value, h)
  }

  function Register(w: World, h: Handle, f: Fates): (r: World)
    ensures Frame(w, r)
  {
    var a := Probe(w.nextXaId, w.handles.Keys, MAX_ID_ALLOC_ATTEMPTS);
    Admit(Counted(w, a.1, h), a.0, h, f)
  }

  function Start(w: World, c: nat, x: Xid, autocommitOff: bool, f: Fates): (r: World)
    ensures Frame(w, r)
  {
    if c !in w.conns || !autocommitOff then w
    else
      var h := Handle(w.nextOcc, true, c, x, Active);
      var (w1, ok) := Call(w.(conns := w.conns[c := false]), h, DoStart, f.a);
      if ok then Register(w1, h, f) else w1
  }

  function End(w: World, id: U32, f: Fates): (r: World)
    ensures Frame(w, r)
  {
    if !Has(w, id, Active) then w
    else
      var h := w.handles[id];
      var (w1, ok) := Call(Take(w, id), h, DoEnd, f.a);
      if ok then Put(w1, id, h.(state := Idle))
      else Discard(w1, h, f)
  }

  function Prepare(w: World, id: U32, f: Fates): (r: World)
    ensures Frame(w, r)
  {
    if !Has(w, id, Idle) then w
    else
      var h := w.handles[id];
      var (w1, ok) := Call(Take(w, id), h, DoPrepare, f.a);
      var h' := h.(state := Verdict(ok, Prepared));
      var w2 := Restore(w1, h', f.autocommit);
      if ok then Put(w2, id, h')
      else Retire(w2, h, Failed, Target(w, h))
  }

  /** End, then commit without preparing; a failed end leaves the handle to its drop. */
  function OnePhase(w: World, h: Handle, target: Option<nat>, f: Fates): (r: World)
    ensures Frame(w, r)
  {
    var (w1, ok) := Call(w, h, DoEnd, f.a);
    if !ok then Discard(w1, h, f)
    else
      var (w2, done) := Call(w1, h, DoCommitOnePhase, f.b);
      Retire(Restore(w2, h, f.autocommit), h, Verdict(done, Committed), target)
  }

  function CommitOnePhase(w: World, id: U32, f: Fates): (r: World)
    ensures Frame(w, r)
  {
    if !Has(w, id, Active) then w
    else
      var h := w.handles[id];
      OnePhase(Take(w, id), h, Target(w, h), f)
  }

  function RollbackActive(w: World, id: U32, f: Fates): (r: World)
    ensures Frame(w, r)
  {
    if !Has(w, id, Active) then w
    else
      var h := w.handles[id];
      var w1 := Call(Take(w, id), h, DoEnd, f.a).0;
      var (w2, done) := Call(w1, h, DoRollback, f.b);
      Retire(Restore(w2, h, f.autocommit), h, Verdict(done, RolledBack), Target(w, h))
  }

  function RollbackIdle(w: World, id: U32, f: Fates): (r: World)
    ensures Frame(w, r)
  {
    if !Has(w, id, Idle) then w
    else
      var h := w.handles[id];
      var (w1, done) := Call(Take(w, id), h, DoRollback, f.a);
      Retire(Restore(w1, h, f.autocommit), h, Verdict(done, RolledBack), Target(w, h))
  }

  function CommitPrepared(w: World, id: U32, f: Fates): (r: World)
    ensures Frame(w, r)
  {
    if !Has(w, id, Prepared) then w
    else
      var h := w.handles[id];
      var (w1, done) := Call(Take(w, id), h, DoCommit, f.a);
      Retire(w1, h, Verdict(done, Committed), Target(w, h))
  }

  function RollbackPrepared(w: World, id: U32, f: Fates): (r: World)
    ensures Frame(w, r)
  {
    if !Has(w, id, Prepared) then w
    else
      var h := w.handles[id];
      var (w1, done) := Call(Take(w, id), h, DoRollbackPrepared, f.a);
      Retire(w1, h, Verdict(done, RolledBack), Target(w, h))
  }

  /** A table entry for a resumed branch, or nothing: there is no work of its own to undo. */
  function Adopt(w: World, id: Option<U32>, h: Handle): (r: World)
    ensures Frame(w, r)
  {
    if id.None? then Retire(w, h, h.state, None) else Put(w, id.value, h)
  }

  /** A fresh handle on a branch that an earlier process prepared. */
  function Resume(w: World, c: nat, x: Xid): (r: World)
    ensures Frame(w, r)
  {
    if c !in w.conns then w
    else
      var h := Handle(w.nextOcc, false, c, x, Prepared);
      var (id, counter) := Probe(w.nextXaId, w.handles.Keys, MAX_ID_ALLOC_ATTEMPTS);
      Adopt(Counted(w, counter, h), id, h)
  }

  /** Any handle may be dropped at any time; only an unprepared one has anything to undo. */
  function DropHandle(w: World, id: U32, f: Fates): (r: World)
    ensures Frame(w, r)
  {
    if id !in w.handles then w
    else
      var h := w.handles[id];
      if h.state == Active || h.state == Idle then Discard(Take(w, id), h, f)
      else Retire(Take(w, id), h, h.state, None)
  }

  function Connect(w: World): (r: World) {
    w.(conns := w.conns[w.nextConn := true], nextConn := w.nextConn + 1)
  }

  function LoseConnection(w: World, c: nat): (r: World) {
    w.(conns := w.conns - {c}, rm := Disconnected(w.rm, {c}))
  }

  /** The process dies: every handle and every session is lost, with no drop code run. */
  function Crash(w: World): (r: World) {
    w.(conns := map[], rm := Disconnected(w.rm, w.conns.Keys), handles := map[])
  }

  datatype Event =
    | EvConnect
    | EvLose(conn: nat)
    | EvStart(conn: nat, xid: Xid, autocommitOff: bool, f: Fates)
    | EvEnd(id: U32, f: Fates)
    | EvPrepare(id: U32, f: Fates)
    | EvCommitOnePhase(id: U32, f: Fates)
    | EvRollbackActive(id: U32, f: Fates)
    | EvRollbackIdle(id: U32, f: Fates)
    | EvCommitPrepared(id: U32, f: Fates)
    | EvRollbackPrepared(id: U32, f: Fates)
    | EvResume(conn: nat, xid: Xid)
    | EvDrop(id: U32, f: Fates)
    | EvCrash

  /** One call, or one accident. Identifiers that the validating constructor refuses do nothing. */
  function Step(w: World, ev: Event): (r: World)
    ensures r.engine == w.engine
    ensures !ev.EvConnect? && !ev.EvLose? && !ev.EvCrash? ==> Frame(w, r)
  {
    match ev
    case EvConnect => Connect(w)
    case EvLose(c) => LoseConnection(w, c)
    case EvStart(c, x, off, f) => if x.Valid() then Start(w, c, x, off, f) else w
    case EvEnd(id, f) => End(w, id, f)
    case EvPrepare(id, f) => Prepare(w, id, f)
    case EvCommitOnePhase(id, f) => CommitOnePhase(w, id, f)
    case EvRollbackActive(id, f) => RollbackActive(w, id, f)
    case EvRollbackIdle(id, f) => RollbackIdle(w, id, f)
    case EvCommitPrepared(id, f) => CommitPrepared(w, id, f)
    case EvRollbackPrepared(id, f) => RollbackPrepared(w, id, f)
    case EvResume(c, x) => if x.Valid() then Resume(w, c, x) else w
    case EvDrop(id, f) => DropHandle(w, id, f)
    case EvCrash => Crash(w)
  }

  function Run(w: World, evs: seq<Event>): (r: World)
    decreases |evs|
  {
    if evs == [] then w else Run(Step(w, evs[0]), evs[1..])
  }
}
