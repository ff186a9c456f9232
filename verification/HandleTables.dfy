/**
 * The tables behind the ids, and who refers to whom. The global lock is let go in the middle of a
 * transaction begin, a stream start, a pool get, a fetch and a query on a pooled connection: what
 * such a call has asked for enters its table, or goes back to it, in a later step.
 */
module HandleTables {
  import opened Xids
  import opened IdAllocator

  const FIRST_POOLED_ID := 1_000_000

  /** Pools, and where each pooled id is; `borrowed` ones are out of their table while a query runs. */
  datatype Pools = Pools(
    pools: set<U32>,
    pooled: map<U32, U32>,
    borrowed: map<U32, U32>,
    free: map<U32, seq<U32>>,
    next: U32,
    nextPool: U32)

  /** A call that has found its connection or pool and has let the lock go. */
  datatype Flight = TxFlight(conn: U32) | StreamFlight(conn: U32) | PoolFlight(pool: U32)

  /** `out` are streams that a fetch has taken out of their table. */
  datatype Tables = Tables(
    connections: set<U32>,
    nextConn: U32,
    statements: map<U32, U32>,
    transactions: map<U32, U32>,
    streams: set<U32>,
    out: set<U32>,
    streamConns: map<U32, U32>,
    chunks: set<U32>,
    requests: map<U32, U32>,
    flights: map<nat, Flight>,
    pool: Pools)

  const INIT :=
    Tables({}, 1, map[], map[], {}, {}, map[], {}, map[], map[], Pools({}, map[], map[], map[], FIRST_POOLED_ID, 1))

  datatype Event =
    | Connect
    | Disconnect(conn: U32)
    | Prepare(conn: U32, id: U32)
    | CloseStatement(id: U32)
    | ClearStatements
    | Ask(call: nat, flight: Flight)
    | EnterTx(call: nat, id: U32, ok: bool)
    | EnterStream(call: nat, id: U32, ok: bool)
    | EnterPool(call: nat, ok: bool)
    | EndTx(id: U32)
    | BeginFetch(id: U32)
    | EndFetch(id: U32)
    | KeepChunk(id: U32)
    | TakeChunk(id: U32)
    | CloseStream(id: U32)
    | StartRequest(conn: U32, id: U32)
    | FreeRequest(id: U32)
    | PoolCreate
    | PoolRelease(conn: U32)
    | Borrow(conn: U32)
    | Return(conn: U32)
    | PoolResize(pool: U32, ok: bool)
    | PoolClose(pool: U32)

  /** The entries that do not belong to `conn`. */
  function Without(m: map<U32, U32>, conn: U32): (r: map<U32, U32>) { map k | k in m && m[k] != conn :: m[k] }

  /** The entries that belong to none of `conns`. */
  function WithoutAll(m: map<U32, U32>, conns: set<U32>): (r: map<U32, U32>) {
    map k | k in m && m[k] !in conns :: m[k]
  }

  function Owned(m: map<U32, U32>, conn: U32): (s: set<U32>) { set k | k in m && m[k] == conn }

  function DisconnectStep(t: Tables, conn: U32): (r: Tables) {
    if conn !in t.connections then t
    else
      t.(connections := t.connections - {conn},
         transactions := Without(t.transactions, conn),
         statements := Without(t.statements, conn),
         streams := t.streams - Owned(t.streamConns, conn),
         streamConns := Without(t.streamConns, conn),
         chunks := t.chunks - Owned(t.streamConns, conn),
         requests := Without(t.requests, conn))
  }

  function FreeIds(p: Pools, pool: U32): (ids: seq<U32>) { if pool in p.free then p.free[pool] else [] }

  /** The last id released to this pool, or a new one from the counter. */
  function Get(p: Pools, pool: U32): (r: Pools) {
    var ids := FreeIds(p, pool);
    if ids != [] then
      p.(free := p.free[pool := ids[..|ids| - 1]], pooled := p.pooled[ids[|ids| - 1] := pool])
    else
      var (id, next) := Probe(p.next, p.pooled.Keys, MAX_ID_ALLOC_ATTEMPTS);
      if id.None? then p.(next := next) else p.(next := next, pooled := p.pooled[id.value := pool])
  }

  function Release(p: Pools, conn: U32): (r: Pools)
    requires conn in p.pooled
  {
    var pool := p.pooled[conn];
    p.(pooled := p.pooled - {conn}, free := p.free[pool := FreeIds(p, pool) + [conn]])
  }

  function CheckedOut(p: Pools, pool: U32): (s: set<U32>) { set c | c in p.pooled && p.pooled[c] == pool }

  function Close(p: Pools, pool: U32): (r: Pools) {
    p.(pooled := Without(p.pooled, pool), free := p.free - {pool}, pools := p.pools - {pool})
  }

  function Lend(p: Pools, e: Event): (r: Pools)
    requires e.Borrow? || e.Return?
  {
    if e.Borrow? && e.conn in p.pooled then
      p.(pooled := p.pooled - {e.conn}, borrowed := p.borrowed[e.conn := p.pooled[e.conn]])
    else if e.Return? && e.conn in p.borrowed then
      p.(borrowed := p.borrowed - {e.conn}, pooled := p.pooled[e.conn := p.borrowed[e.conn]])
    else p
  }

  function PoolReleaseStep(t: Tables, conn: U32): (r: Tables) {
    if conn !in t.pool.pooled then t
    else t.(pool := Release(t.pool, conn), statements := Without(t.statements, conn))
  }

  function PoolCloseStep(t: Tables, pool: U32): (r: Tables) {
    if pool !in t.pool.pools then t
    else t.(pool := Close(t.pool, pool), statements := WithoutAll(t.statements, CheckedOut(t.pool, pool)))
  }

  function CreatePool(p: Pools): (r: Pools) {
    var (id, next) := Probe(p.nextPool, p.pools, MAX_ID_ALLOC_ATTEMPTS);
    p.(nextPool := next, pools := if id.Some? then p.pools + {id.value} else p.pools)
  }

  /** The pool calls that touch nothing else. */
  function PoolOnly(p: Pools, e: Event): (r: Pools)
    requires e.PoolCreate? || e.Borrow? || e.Return? || e.PoolResize?
  {
    match e
    case PoolCreate => CreatePool(p)
    case PoolResize(k, ok) => if k !in p.pools || CheckedOut(p, k) != {} || ok then p else p.(pools := p.pools - {k})
    case _ => Lend(p, e)
  }

  predicate IsPool(e: Event) {
    e.PoolCreate? || e.PoolRelease? || e.Borrow? || e.Return? || e.PoolResize? || e.PoolClose?
  }

  function PoolStep(t: Tables, e: Event): (r: Tables)
    requires IsPool(e)
  {
    if e.PoolRelease? then PoolReleaseStep(t, e.conn)
    else if e.PoolClose? then PoolCloseStep(t, e.pool)
    else t.(pool := PoolOnly(t.pool, e))
  }

  predicate IsStream(e: Event) {
    e.BeginFetch? || e.EndFetch? || e.KeepChunk? || e.TakeChunk? || e.CloseStream?
  }

  function StreamStep(t: Tables, e: Event): (r: Tables)
    requires IsStream(e)
  {
    match e
    case BeginFetch(s) =>
      if s !in t.streams || s in t.chunks then t else t.(streams := t.streams - {s}, out := t.out + {s})
    case EndFetch(s) => if s in t.out then t.(out := t.out - {s}, streams := t.streams + {s}) else t
    case KeepChunk(s) => if s in t.streams then t.(chunks := t.chunks + {s}) else t
    case TakeChunk(s) => t.(chunks := t.chunks - {s})
    case CloseStream(s) =>
      if s !in t.streams then t
      else t.(streams := t.streams - {s}, streamConns := t.streamConns - {s}, chunks := t.chunks - {s})
  }

  /** The connection or pool is there, and for a begin has no transaction in the table. */
  predicate Asks(t: Tables, f: Flight) {
    match f
    case TxFlight(c) => c in t.connections && c !in t.transactions.Values
    case StreamFlight(c) => c in t.connections
    case PoolFlight(k) => k in t.pool.pools
  }

  predicate IsFlight(e: Event) { e.Ask? || e.EnterTx? || e.EnterStream? || e.EnterPool? }

  /** Nobody looks again whether the connection or the pool is still there. */
  function FlightStep(t: Tables, e: Event): (r: Tables)
    requires IsFlight(e)
  {
    if e.Ask? then
      if e.call !in t.flights && Asks(t, e.flight) then t.(flights := t.flights[e.call := e.flight]) else t
    else if e.call !in t.flights then t
    else Landed(t.(flights := t.flights - {e.call}), t.flights[e.call], e)
  }

  function Landed(t: Tables, f: Flight, e: Event): (r: Tables)
    requires e.EnterTx? || e.EnterStream? || e.EnterPool?
  {
    if !e.ok then t
    else match e
      case EnterTx(_, x, _) =>
        if f.TxFlight? && x != 0 && x !in t.transactions then t.(transactions := t.transactions[x := f.conn]) else t
      case EnterStream(_, s, _) =>
        if f.StreamFlight? && s != 0 && s !in t.streams
        then t.(streams := t.streams + {s}, streamConns := t.streamConns[s := f.conn]) else t
      case EnterPool(_, _) => if f.PoolFlight? then t.(pool := Get(t.pool, f.pool)) else t
  }

  function ConnectStep(t: Tables): (r: Tables) {
    var (id, next) := Probe(t.nextConn, t.connections, MAX_ID_ALLOC_ATTEMPTS);
    t.(nextConn := next, connections := if id.Some? then t.connections + {id.value} else t.connections)
  }

  function Step(t: Tables, e: Event): (r: Tables) {
    if IsPool(e) then PoolStep(t, e)
    else if IsStream(e) then StreamStep(t, e)
    else if IsFlight(e) then FlightStep(t, e)
    else match e
      case Connect => ConnectStep(t)
      case Disconnect(c) => DisconnectStep(t, c)
      case Prepare(c, s) =>
        if (c !in t.connections && c !in t.pool.pooled) || s == 0 || s in t.statements then t
        else t.(statements := t.statements[s := c])
      case CloseStatement(s) => t.(statements := t.statements - {s})
      case ClearStatements => t.(statements := map[])
      case EndTx(x) => t.(transactions := t.transactions - {x})
      case StartRequest(c, q) =>
        if c !in t.connections || q == 0 || q in t.requests then t else t.(requests := t.requests[q := c])
      case FreeRequest(q) => t.(requests := t.requests - {q})
  }

  function Run(t: Tables, es: seq<Event>): (r: Tables)
    decreases |es|
  {
    if es == [] then t else Run(Step(t, es[0]), es[1..])
  }

  // ---------------------------------------------------------------------
  // Referential integrity
  // ---------------------------------------------------------------------

  predicate Refers(m: map<U32, U32>, live: set<U32>) { forall k :: k in m ==> m[k] in live }

  function Live(t: Tables): (s: set<U32>) { t.connections + Held(t.pool) }

  function Held(p: Pools): (s: set<U32>) { p.pooled.Keys + p.borrowed.Keys }

  predicate OneEach(m: map<U32, U32>) { forall a, b :: a in m && b in m && m[a] == m[b] ==> a == b }

  predicate Integrity(t: Tables) {
    && Refers(t.statements, Live(t))
    && Refers(t.transactions, t.connections) && OneEach(t.transactions)
    && Refers(t.requests, t.connections)
    && t.streams !! t.out && t.streams + t.out == t.streamConns.Keys && Refers(t.streamConns, t.connections)
    && t.chunks <= t.streams
    && Refers(t.pool.pooled, t.pool.pools) && Refers(t.pool.borrowed, t.pool.pools)
  }

  /** What a call in flight has found is still so, and no two begins are under way on a connection. */
  predicate Airborne(t: Tables) {
    && (forall k :: k in t.flights ==> Asks(t, t.flights[k]))
    && (forall j, k :: j in t.flights && k in t.flights && j != k && t.flights[j].TxFlight? ==>
          t.flights[j] != t.flights[k])
  }

  predicate OnConn(f: Flight, conn: U32) { !f.PoolFlight? && f.conn == conn }

  /**
   * No connection is disconnected while a begin, a stream start or a fetch there is under way, no begin
   * asks while another is, no pool goes while a get from it or a query on one of its connections is
   * under way, and no stream id is given out while its stream is being fetched from.
   */
  predicate Undisturbed(t: Tables, e: Event) {
    && (e.Disconnect? && e.conn in t.connections ==>
          && (forall k :: k in t.flights ==> !OnConn(t.flights[k], e.conn))
          && (forall s :: s in t.out && s in t.streamConns ==> t.streamConns[s] != e.conn))
    && (e.Ask? && e.call !in t.flights && Asks(t, e.flight) && e.flight.TxFlight? ==>
          forall k :: k in t.flights ==> t.flights[k] != e.flight)
    && ((e.PoolClose? || (e.PoolResize? && !e.ok && CheckedOut(t.pool, e.pool) == {})) && e.pool in t.pool.pools ==>
          && (forall k :: k in t.flights ==> t.flights[k] != PoolFlight(e.pool))
          && (forall c :: c in t.pool.borrowed ==> t.pool.borrowed[c] != e.pool))
    && (e.EnterStream? && e.ok && e.call in t.flights && t.flights[e.call].StreamFlight? ==> e.id !in t.out)
  }

  predicate Whole(t: Tables) { Integrity(t) && Airborne(t) }

  lemma WholeDisconnect(t: Tables, conn: U32)
    requires Whole(t) && Undisturbed(t, Disconnect(conn))
    ensures Whole(DisconnectStep(t, conn))
  {
    if conn in t.connections {
      var t' := DisconnectStep(t, conn);
      forall s | s in t.streams + t.out && s !in Owned(t.streamConns, conn)
        ensures s in t'.streamConns
      {
        assert s in t.streamConns;
      }
      assert t'.streams + t'.out == t'.streamConns.Keys;
    }
  }

  lemma WholePool(t: Tables, pool: Pools)
    requires Whole(t) && Held(t.pool) <= Held(pool) && t.pool.pools <= pool.pools
    requires Refers(pool.pooled, pool.pools) && Refers(pool.borrowed, pool.pools)
    ensures Whole(t.(pool := pool))
  {
  }

  lemma WholeRelease(t: Tables, conn: U32)
    requires Whole(t) && conn in t.pool.pooled
    ensures Whole(PoolReleaseStep(t, conn))
  {
    assert Held(t.pool) - {conn} <= Held(Release(t.pool, conn));
  }

  lemma WholePoolClose(t: Tables, pool: U32)
    requires Whole(t) && Undisturbed(t, PoolClose(pool))
    ensures Whole(PoolCloseStep(t, pool))
  {
    forall c | c in Held(t.pool) && c !in CheckedOut(t.pool, pool)
      ensures c in Held(Close(t.pool, pool))
    {
      assert c in t.pool.pooled ==> c in Close(t.pool, pool).pooled;
    }
  }

  lemma WholePoolGone(t: Tables, pool: U32)
    requires Whole(t) && Undisturbed(t, PoolResize(pool, false)) && CheckedOut(t.pool, pool) == {}
    ensures Whole(t.(pool := t.pool.(pools := t.pool.pools - {pool})))
  {
    forall c | c in t.pool.pooled
      ensures t.pool.pooled[c] != pool
    {
      assert c !in CheckedOut(t.pool, pool);
    }
  }

  lemma WholePoolStep(t: Tables, e: Event)
    requires Whole(t) && IsPool(e) && Undisturbed(t, e)
    ensures Whole(PoolStep(t, e))
  {
    if e.PoolRelease? {
      if e.conn in t.pool.pooled { WholeRelease(t, e.conn); }
    } else if e.PoolClose? {
      WholePoolClose(t, e.pool);
    } else if e.PoolResize? && e.pool in t.pool.pools && CheckedOut(t.pool, e.pool) == {} && !e.ok {
      WholePoolGone(t, e.pool);
    } else {
      WholePool(t, PoolOnly(t.pool, e));
    }
  }

  lemma WholeStream(t: Tables, e: Event)
    requires Whole(t) && IsStream(e)
    ensures Whole(StreamStep(t, e))
  {
  }

  lemma WholeEnter(t: Tables, e: Event)
    requires Whole(t) && (e.EnterTx? || e.EnterStream? || e.EnterPool?) && Undisturbed(t, e)
    ensures Whole(FlightStep(t, e))
  {
    if e.call in t.flights {
      var t1, f := t.(flights := t.flights - {e.call}), t.flights[e.call];
      assert Whole(t1) && Asks(t1, f);
      if e.EnterTx? {
        WholeTx(t1, f, e);
      } else if e.EnterStream? {
        WholeStart(t1, f, e);
      } else if e.ok && f.PoolFlight? {
        WholePool(t1, Get(t1.pool, f.pool));
      }
    }
  }

  lemma WholeTx(t: Tables, f: Flight, e: Event)
    requires Whole(t) && Asks(t, f) && e.EnterTx? && (f.TxFlight? ==> f !in t.flights.Values)
    ensures Whole(Landed(t, f, e))
  {
    var t' := Landed(t, f, e);
    if t' != t {
      forall k | k in t.flights ensures Asks(t', t.flights[k]) {
        assert t.flights[k] in t.flights.Values && Asks(t, t.flights[k]);
      }
    }
  }

  lemma WholeStart(t: Tables, f: Flight, e: Event)
    requires Whole(t) && Asks(t, f) && e.EnterStream? && (e.ok && f.StreamFlight? ==> e.id !in t.out)
    ensures Whole(Landed(t, f, e))
  {
  }

  lemma WholePlain(t: Tables, e: Event)
    requires Whole(t) && !IsPool(e) && !IsStream(e) && !IsFlight(e) && !e.Disconnect?
    ensures Whole(Step(t, e))
  {
    assert Live(Step(t, e)) >= Live(t);
  }

  lemma WholeStep(t: Tables, e: Event)
    requires Whole(t) && Undisturbed(t, e)
    ensures Whole(Step(t, e))
  {
    if IsPool(e) {
      WholePoolStep(t, e);
    } else if IsStream(e) {
      WholeStream(t, e);
    } else if e.Ask? {
    } else if IsFlight(e) {
      WholeEnter(t, e);
    } else if e.Disconnect? {
      WholeDisconnect(t, e.conn);
    } else {
      WholePlain(t, e);
    }
  }

  predicate AllUndisturbed(t: Tables, es: seq<Event>)
    decreases |es|
  {
    es != [] ==> Undisturbed(t, es[0]) && AllUndisturbed(Step(t, es[0]), es[1..])
  }

  /**
   * In every run whose calls are not disturbed in flight, every statement, transaction, stream and
   * request names a live connection, a connection has at most one transaction, the stream tables agree,
   * kept chunks belong to live streams and pooled connections to live pools.
   */
  lemma {:induction false} IntegrityRun(t: Tables, es: seq<Event>)
    requires Whole(t) && AllUndisturbed(t, es)
    ensures Whole(Run(t, es))
    decreases |es|
  {
    if es != [] {
      WholeStep(t, es[0]);
      IntegrityRun(Step(t, es[0]), es[1..]);
    }
  }

  lemma IntegrityFromStart(es: seq<Event>)
    requires AllUndisturbed(INIT, es)
    ensures Integrity(Run(INIT, es))
  {
    IntegrityRun(INIT, es);
  }

  // ---------------------------------------------------------------------
  // The condition is needed
  // ---------------------------------------------------------------------

  lemma RunOne(t: Tables, e: Event, rest: seq<Event>)
    ensures Run(t, [e] + rest) == Run(Step(t, e), rest)
  {
    assert ([e] + rest)[1..] == rest;
  }

  lemma RunEvent(t: Tables, e: Event)
    ensures Run(t, [e]) == Step(t, e)
  {
    assert [e][1..] == [];
  }

  /** Ids are left for a transaction or two and a stream. */
  predicate Spare(t: Tables, x: U32, y: U32) {
    x != 0 && y != 0 && x != y && x !in t.transactions && y !in t.transactions && x !in t.streams && x !in t.out
  }

  lemma Enters(t: Tables, k: nat, conn: U32, x: U32)
    requires k in t.flights && t.flights[k] == TxFlight(conn) && x != 0 && x !in t.transactions
    ensures Step(t, EnterTx(k, x, true)) ==
              t.(flights := t.flights - {k}, transactions := t.transactions[x := conn])
  {
  }

  /** A begin whose connection is gone still enters the table. */
  lemma LateTx(t: Tables, k: nat, conn: U32, x: U32)
    requires k in t.flights && t.flights[k] == TxFlight(conn) && conn !in t.connections
    requires x != 0 && x !in t.transactions
    ensures !Integrity(Step(t, EnterTx(k, x, true)))
  {
    Enters(t, k, conn, x);
    var t' := Step(t, EnterTx(k, x, true));
    assert x in t'.transactions && t'.transactions[x] !in t'.connections;
  }

  lemma LateStream(t: Tables, k: nat, conn: U32, x: U32)
    requires k in t.flights && t.flights[k] == StreamFlight(conn) && conn !in t.connections
    requires x != 0 && x !in t.streams
    ensures !Integrity(Step(t, EnterStream(k, x, true)))
  {
    var t' := Step(t, EnterStream(k, x, true));
    assert t'.streamConns == t.streamConns[x := conn] && t'.connections == t.connections;
    assert x in t'.streamConns && t'.streamConns[x] !in t'.connections;
  }

  lemma DisconnectDisturbs(t: Tables, conn: U32, x: U32, y: U32) returns (es: seq<Event>)
    requires Whole(t) && conn in t.connections && !Undisturbed(t, Disconnect(conn)) && Spare(t, x, y)
    ensures !Integrity(Run(DisconnectStep(t, conn), es))
  {
    var t1 := DisconnectStep(t, conn);
    if k :| k in t.flights && OnConn(t.flights[k], conn) {
      if t.flights[k].TxFlight? {
        LateTx(t1, k, conn, x);
        RunEvent(t1, EnterTx(k, x, true));
        es := [EnterTx(k, x, true)];
      } else {
        LateStream(t1, k, conn, x);
        RunEvent(t1, EnterStream(k, x, true));
        es := [EnterStream(k, x, true)];
      }
    } else {
      var s :| s in t.out && s in t.streamConns && t.streamConns[s] == conn;
      es := [];
      assert s in t1.out && s !in t1.streamConns;
    }
  }

  lemma AskDisturbs(t: Tables, call: nat, conn: U32, x: U32, y: U32) returns (es: seq<Event>)
    requires Whole(t) && call !in t.flights && Asks(t, TxFlight(conn)) && Spare(t, x, y)
    requires !Undisturbed(t, Ask(call, TxFlight(conn)))
    ensures !Integrity(Run(Step(t, Ask(call, TxFlight(conn))), es))
  {
    var k :| k in t.flights && t.flights[k] == TxFlight(conn);
    var t1 := Step(t, Ask(call, TxFlight(conn)));
    assert t1 == t.(flights := t.flights[call := TxFlight(conn)]);
    var t2 := Step(t1, EnterTx(k, x, true));
    es := [EnterTx(k, x, true)] + [EnterTx(call, y, true)];
    RunOne(t1, EnterTx(k, x, true), [EnterTx(call, y, true)]);
    RunEvent(t2, EnterTx(call, y, true));
    Enters(t1, k, conn, x);
    Enters(t2, call, conn, y);
    TwoOnOne(Step(t2, EnterTx(call, y, true)), x, y);
  }

  lemma TwoOnOne(t: Tables, x: U32, y: U32)
    requires x in t.transactions && y in t.transactions && x != y && t.transactions[x] == t.transactions[y]
    ensures !Integrity(t)
  {
    assert !OneEach(t.transactions);
  }

  /** A pooled id can be had for the pool, from its free list or from the counter. */
  predicate Obtainable(p: Pools, pool: U32) {
    FreeIds(p, pool) != [] || Probe(p.next, p.pooled.Keys, MAX_ID_ALLOC_ATTEMPTS).0.Some?
  }

  lemma PoolDisturbs(t: Tables, e: Event) returns (es: seq<Event>)
    requires Whole(t) && (e.PoolClose? || (e.PoolResize? && !e.ok && CheckedOut(t.pool, e.pool) == {}))
    requires e.pool in t.pool.pools && !Undisturbed(t, e) && Obtainable(Step(t, e).pool, e.pool)
    ensures !Integrity(Run(Step(t, e), es))
  {
    var t1 := Step(t, e);
    assert e.pool !in t1.pool.pools && t1.flights == t.flights && t1.pool.borrowed == t.pool.borrowed;
    if k :| k in t.flights && t.flights[k] == PoolFlight(e.pool) {
      es := [EnterPool(k, true)];
      RunEvent(t1, EnterPool(k, true));
      var t2 := Step(t1, EnterPool(k, true));
      GetAdds(t1.pool, e.pool);
      assert t2.pool == Get(t1.pool, e.pool);
    } else {
      var c :| c in t.pool.borrowed && t.pool.borrowed[c] == e.pool;
      es := [];
      assert c in t1.pool.borrowed;
    }
  }

  lemma GetAdds(p: Pools, pool: U32)
    requires Obtainable(p, pool)
    ensures (exists c :: c in Get(p, pool).pooled && Get(p, pool).pooled[c] == pool) && Get(p, pool).pools == p.pools
  {
    var id := if FreeIds(p, pool) != [] then FreeIds(p, pool)[|FreeIds(p, pool)| - 1]
              else Probe(p.next, p.pooled.Keys, MAX_ID_ALLOC_ATTEMPTS).0.value;
    assert id in Get(p, pool).pooled && Get(p, pool).pooled[id] == pool;
  }

  /**
   * Exactly this condition: from every state that is whole, an effective step without it breaks the
   * tables, at once or once the call in flight lands, as long as there is an id left for it.
   */
  lemma DisturbanceBreaks(t: Tables, e: Event, x: U32, y: U32) returns (es: seq<Event>)
    requires Whole(t) && Step(t, e) != t && !Undisturbed(t, e) && Spare(t, x, y)
    requires e.PoolClose? || e.PoolResize? ==> Obtainable(Step(t, e).pool, e.pool)
    requires e.EnterStream? ==> e.id !in t.streams && e.id != 0
    ensures !Integrity(Run(t, [e] + es))
  {
    if e.Disconnect? {
      es := DisconnectDisturbs(t, e.conn, x, y);
    } else if e.Ask? {
      es := AskDisturbs(t, e.call, e.flight.conn, x, y);
    } else if e.EnterStream? {
      es := [];
      assert e.id in Step(t, e).streams && e.id in Step(t, e).out;
    } else {
      es := PoolDisturbs(t, e);
    }
    RunOne(t, e, es);
  }

  // ---------------------------------------------------------------------
  // The object
  // ---------------------------------------------------------------------

  class GlobalState {
    var connections: set<U32>
    var statements: map<U32, U32>
    var transactions: map<U32, U32>
    var streams: set<U32>
    ghost var out: set<U32>
    var streamConns: map<U32, U32>
    var chunks: set<U32>
    var requests: map<U32, U32>
    ghost var flights: map<nat, Flight>
    var pools: set<U32>
    var pooled: map<U32, U32>
    var borrowed: map<U32, U32>
    var free: map<U32, seq<U32>>
    var nextConn: U32
    var nextPooled: U32
    var nextPool: U32

    ghost function View(): (t: Tables)
      reads this
    {
      Tables(connections, nextConn, statements, transactions, streams, out, streamConns, chunks, requests, flights,
             Pools(pools, pooled, borrowed, free, nextPooled, nextPool))
    }

    constructor ()
      ensures View() == INIT
    {
      connections, statements, transactions, streams, streamConns := {}, map[], map[], {}, map[];
      chunks, requests, pools, pooled, borrowed, free := {}, map[], {}, map[], map[], map[];
      nextConn, nextPooled, nextPool, out, flights := 1, FIRST_POOLED_ID, 1, {}, map[];
    }

    /** Collects what belongs to the connection, then removes it entry by entry; the code also tells
        whether the connection was still there to be closed. */
    method DisconnectConnection(conn: U32, closed: bool) returns (code: int)
      modifies this`connections, this`transactions, this`statements, this`requests
      modifies this`streams, this`streamConns, this`chunks
      ensures View() == DisconnectStep(old(View()), conn)
      ensures code == if conn in old(connections) && closed then 0 else 1
    {
      if conn !in connections {
        return 1;
      }
      ghost var t := View();
      DropStreamsOf(conn);
      DropOwned(conn);
      connections := connections - {conn};
      assert View().pool == t.pool && View().flights == t.flights;
      return if closed then 0 else 1;
    }

    method DropOwned(conn: U32)
      modifies this`transactions, this`statements, this`requests
      ensures transactions == Without(old(transactions), conn) && statements == Without(old(statements), conn)
      ensures requests == Without(old(requests), conn)
    {
      transactions := RemoveOwned(transactions, conn);
      statements := RemoveOwned(statements, conn);
      requests := RemoveOwned(requests, conn);
    }

    method DropStreamsOf(conn: U32)
      modifies this`streams, this`streamConns, this`chunks
      ensures streams == old(streams) - Owned(old(streamConns), conn)
      ensures streamConns == Without(old(streamConns), conn)
      ensures chunks == old(chunks) - Owned(old(streamConns), conn)
    {
      var ids := set s | s in streamConns && streamConns[s] == conn;
      var todo := ids;
      while todo != {}
        invariant todo <= ids
        invariant streams == old(streams) - (ids - todo)
        invariant streamConns == old(streamConns) - (ids - todo)
        invariant chunks == old(chunks) - (ids - todo)
      {
        var s :| s in todo;
        streams := streams - {s};
        streamConns := streamConns - {s};
        chunks := chunks - {s};
        todo := todo - {s};
      }
    }

    /** Drains the checked-out connections before the pool goes. */
    method ClosePool(pool: U32) returns (code: int)
      modifies this
      ensures View() == PoolCloseStep(old(View()), pool) && (code == 0 <==> pool in old(pools))
    {
      if pool !in pools {
        return 1;
      }
      DrainPool(pool);
      free := free - {pool};
      pools := pools - {pool};
      return 0;
    }

    method DrainPool(pool: U32)
      modifies this`pooled, this`statements
      ensures pooled == Without(old(pooled), pool)
      ensures statements == WithoutAll(old(statements), CheckedOut(old(View()).pool, pool))
    {
      var ids := set c | c in pooled && pooled[c] == pool;
      var todo := ids;
      while todo != {}
        invariant todo <= ids
        invariant pooled == old(pooled) - (ids - todo)
        invariant statements == WithoutAll(old(statements), ids - todo)
      {
        var c :| c in todo;
        statements := RemoveOwned(statements, c);
        pooled := pooled - {c};
        todo := todo - {c};
      }
      assert ids == CheckedOut(old(View()).pool, pool);
    }
  }

  method RemoveOwned(m: map<U32, U32>, conn: U32) returns (r: map<U32, U32>)
    ensures r == Without(m, conn)
  {
    var todo := set k | k in m && m[k] == conn;
    ghost var owned := todo;
    r := m;
    while todo != {}
      invariant todo <= owned && r == m - (owned - todo)
    {
      var k :| k in todo;
      r := r - {k};
      todo := todo - {k};
    }
  }
}
