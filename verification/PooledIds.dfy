/** Where pooled connection ids are, and what becomes of them once a counter has come round. */
module PooledIds {
  import opened Xids
  import opened IdAllocator
  import opened HandleTables

  predicate Minted(id: U32, next: U32) { FIRST_POOLED_ID <= id < next }

  predicate Distinct(s: seq<U32>) { forall i, j :: 0 <= i < j < |s| ==> s[i] != s[j] }

  /** Each id is checked out, borrowed, or once in one free list. */
  predicate Located(p: Pools) {
    && (forall c :: c in p.pooled ==> c !in p.borrowed)
    && (forall k :: k in p.free ==> Distinct(p.free[k]))
    && (forall k, i :: k in p.free && 0 <= i < |p.free[k]| ==>
          p.free[k][i] !in p.pooled && p.free[k][i] !in p.borrowed)
    && ListsApart(p.free)
  }

  /** And each was minted, in order, from the first on. */
  predicate PoolIds(p: Pools) {
    && p.next >= FIRST_POOLED_ID && Located(p)
    && (forall c :: c in Held(p) ==> Minted(c, p.next))
    && (forall k, i :: k in p.free && 0 <= i < |p.free[k]| ==> Minted(p.free[k][i], p.next))
  }

  predicate ListsApart(free: map<U32, seq<U32>>) {
    forall k, l, i :: k in free && l in free && k != l && 0 <= i < |free[k]| ==> free[k][i] !in free[l]
  }

  /** Before the counter wraps, it is the next id. */
  lemma GetMints(p: Pools, pool: U32)
    requires PoolIds(p) && FreeIds(p, pool) == [] && p.next + 1 < U32_LIMIT
    ensures PoolIds(Get(p, pool)) && Get(p, pool).next == p.next + 1
  {
    assert p.next !in Held(p);
    ProbeHead(p.next, p.pooled.Keys, MAX_ID_ALLOC_ATTEMPTS);
    var p' := Get(p, pool);
    assert p' == p.(next := p.next + 1, pooled := p.pooled[p.next := pool]);
  }

  lemma GetReuses(p: Pools, pool: U32)
    requires PoolIds(p) && FreeIds(p, pool) != []
    ensures PoolIds(Get(p, pool)) && Get(p, pool).next == p.next
  {
    ReuseLocated(p, pool);
  }

  lemma ReuseLocated(p: Pools, pool: U32)
    requires Located(p) && FreeIds(p, pool) != []
    ensures Located(Get(p, pool))
  {
    var ids := p.free[pool];
    var id := ids[|ids| - 1];
    var p' := Get(p, pool);
    forall k, i | k in p'.free && 0 <= i < |p'.free[k]|
      ensures p'.free[k][i] != id
    {
      assert p.free[k][i] == p'.free[k][i];
      if k != pool {
        assert p.free[k][i] !in p.free[pool];
      } else {
        assert Distinct(ids);
      }
    }
    Shortened(p.free, pool);
  }

  lemma Shortened(free: map<U32, seq<U32>>, pool: U32)
    requires ListsApart(free) && pool in free && free[pool] != []
    ensures ListsApart(free[pool := free[pool][..|free[pool]| - 1]])
  {
  }

  lemma Lengthened(free: map<U32, seq<U32>>, pool: U32, ids: seq<U32>, conn: U32)
    requires ListsApart(free) && ids == (if pool in free then free[pool] else [])
    requires forall k, i :: k in free && 0 <= i < |free[k]| ==> free[k][i] != conn
    ensures ListsApart(free[pool := ids + [conn]])
  {
  }

  lemma ReleaseKeepsIds(p: Pools, conn: U32)
    requires PoolIds(p) && conn in p.pooled
    ensures PoolIds(Release(p, conn)) && Release(p, conn).next == p.next
  {
    Lengthened(p.free, p.pooled[conn], FreeIds(p, p.pooled[conn]), conn);
  }

  lemma LendingKeepsIds(p: Pools, e: Event)
    requires PoolIds(p) && (e.Borrow? || e.Return?)
    ensures PoolIds(Lend(p, e)) && Lend(p, e).next == p.next
  {
  }

  lemma CloseKeepsIds(p: Pools, pool: U32)
    requires PoolIds(p)
    ensures PoolIds(Close(p, pool)) && Close(p, pool).next == p.next
  {
  }

  lemma PoolIdsOnly(p: Pools, e: Event)
    requires PoolIds(p) && (e.PoolCreate? || e.Borrow? || e.Return? || e.PoolResize?)
    ensures PoolIds(PoolOnly(p, e)) && PoolOnly(p, e).next == p.next
  {
    if e.Borrow? || e.Return? {
      LendingKeepsIds(p, e);
    }
  }

  lemma PoolIdsEnter(t: Tables, e: Event)
    requires PoolIds(t.pool) && e.EnterPool? && t.pool.next + 1 < U32_LIMIT
    ensures PoolIds(FlightStep(t, e).pool) && FlightStep(t, e).pool.next <= t.pool.next + 1
  {
    if e.ok && e.call in t.flights && t.flights[e.call].PoolFlight? {
      var k := t.flights[e.call].pool;
      if FreeIds(t.pool, k) == [] { GetMints(t.pool, k); } else { GetReuses(t.pool, k); }
    }
  }

  lemma PoolIdsPool(t: Tables, e: Event)
    requires PoolIds(t.pool) && IsPool(e)
    ensures PoolIds(PoolStep(t, e).pool) && PoolStep(t, e).pool.next == t.pool.next
  {
    if e.PoolRelease? {
      if e.conn in t.pool.pooled { ReleaseKeepsIds(t.pool, e.conn); }
    } else if e.PoolClose? {
      CloseKeepsIds(t.pool, e.pool);
    } else {
      PoolIdsOnly(t.pool, e);
    }
  }

  lemma PoolUntouched(t: Tables, e: Event)
    requires !IsPool(e) && !e.EnterPool?
    ensures Step(t, e).pool == t.pool
  {
  }

  lemma PoolIdsStep(t: Tables, e: Event)
    requires PoolIds(t.pool) && (e.EnterPool? ==> t.pool.next + 1 < U32_LIMIT)
    ensures PoolIds(Step(t, e).pool) && Step(t, e).pool.next <= t.pool.next + if e.EnterPool? then 1 else 0
  {
    if e.EnterPool? {
      PoolIdsEnter(t, e);
    } else if IsPool(e) {
      PoolIdsPool(t, e);
    } else {
      PoolUntouched(t, e);
    }
  }

  function Gets(es: seq<Event>): (n: nat) {
    if es == [] then 0 else (if es[0].EnterPool? then 1 else 0) + Gets(es[1..])
  }

  /** Until the counter could wrap, checked-out ids and all free lists are duplicate-free and disjoint. */
  lemma {:induction false} PoolIdsRun(t: Tables, es: seq<Event>)
    requires PoolIds(t.pool) && t.pool.next + Gets(es) < U32_LIMIT
    ensures PoolIds(Run(t, es).pool)
    decreases |es|
  {
    if es != [] {
      PoolIdsStep(t, es[0]);
      PoolIdsRun(Step(t, es[0]), es[1..]);
    }
  }

  lemma PoolIdsFromStart(es: seq<Event>)
    requires FIRST_POOLED_ID + Gets(es) < U32_LIMIT
    ensures PoolIds(Run(INIT, es).pool)
  {
    PoolIdsRun(INIT, es);
  }

  // ---------------------------------------------------------------------
  // After the counter has wrapped
  // ---------------------------------------------------------------------

  /** The id that a get would mint, if it comes to that. */
  function Mint(p: Pools): (id: Option<U32>) { Probe(p.next, p.pooled.Keys, MAX_ID_ALLOC_ATTEMPTS).0 }

  predicate Elsewhere(p: Pools, id: U32) {
    id in p.borrowed || exists k :: k in p.free && id in p.free[k]
  }

  /** Exactly when a get puts an id in two places: when it has to mint one that is already somewhere. */
  lemma GetBreaksIff(p: Pools, pool: U32)
    requires Located(p)
    ensures Located(Get(p, pool)) <==>
              FreeIds(p, pool) != [] || Mint(p).None? || !Elsewhere(p, Mint(p).value)
  {
    if FreeIds(p, pool) != [] {
      ReuseLocated(p, pool);
    } else if Mint(p).Some? {
      ProbeFresh(p.next, p.pooled.Keys, MAX_ID_ALLOC_ATTEMPTS);
      MintLocated(p, pool);
    }
  }

  lemma MintLocated(p: Pools, pool: U32)
    requires Located(p) && FreeIds(p, pool) == [] && Mint(p).Some? && Mint(p).value !in p.pooled
    ensures Located(Get(p, pool)) <==> !Elsewhere(p, Mint(p).value)
  {
    var id, p' := Mint(p).value, Get(p, pool);
    assert p' == p.(next := p'.next, pooled := p.pooled[id := pool]);
    if k :| k in p.free && id in p.free[k] {
      var i :| 0 <= i < |p.free[k]| && p.free[k][i] == id;
      assert p'.free[k][i] in p'.pooled;
    }
  }

  lemma GetFirst(p: Pools, a: U32)
    requires FreeIds(p, a) == [] && p.pooled == map[]
    ensures var id := if p.next == 0 then 1 else p.next;
            Get(p, a) == p.(next := if p.next == 0 then 2 else WrappingNext(p.next), pooled := map[id := a])
  {
    assert p.pooled.Keys == {};
    ProbeTwice(p.next);
  }

  lemma CloseOnly(p: Pools, a: U32, id: U32)
    requires p.pooled == map[id := a] && a !in p.free && a in p.pools
    ensures Close(p, a) == p.(pooled := map[], pools := p.pools - {a})
  {
    assert Without(p.pooled, a) == map[];
    assert p.free - {a} == p.free;
  }

  /** The id the next pool gets when only pool 2 is there; zero and two are skipped. */
  lemma PoolProbe(next: U32)
    ensures Probe(next, {2}, MAX_ID_ALLOC_ATTEMPTS) ==
              if next == 0 then (Some(1), 2) else if next == 2 then (Some(3), 4) else (Some(next), WrappingNext(next))
  {
    if next == 0 || next == 2 {
      assert Probe(next, {2}, MAX_ID_ALLOC_ATTEMPTS) == Probe(next + 1, {2}, MAX_ID_ALLOC_ATTEMPTS - 1);
      ProbeHead(next + 1, {2}, MAX_ID_ALLOC_ATTEMPTS - 1);
    } else {
      ProbeHead(next, {2}, MAX_ID_ALLOC_ATTEMPTS);
    }
  }

  function NewPool(next: U32): (id: U32) { if next == 0 then 1 else if next == 2 then 3 else next }

  /** Only pool 2 is there, with ids in its free list; nothing is checked out or under way. */
  predicate Resting(t: Tables) {
    && t.pool.pools == {2} && t.pool.pooled == map[] && t.statements == map[] && t.flights == map[]
    && t.pool.free.Keys == {2}
  }

  /** The calls of a get. */
  function GetCalls(pool: U32): (es: seq<Event>) { [Ask(0, PoolFlight(pool)), EnterPool(0, true)] }

  lemma GetRun(t: Tables, pool: U32)
    requires t.flights == map[] && pool in t.pool.pools
    ensures Run(t, GetCalls(pool)) == t.(pool := Get(t.pool, pool))
  {
    var t1 := Step(t, Ask(0, PoolFlight(pool)));
    assert t1 == t.(flights := map[0 := PoolFlight(pool)]);
    assert GetCalls(pool) == [Ask(0, PoolFlight(pool))] + [EnterPool(0, true)];
    RunOne(t, Ask(0, PoolFlight(pool)), [EnterPool(0, true)]);
    RunEvent(t1, EnterPool(0, true));
    assert t1.flights - {0} == map[];
  }

  lemma PoolMade(t: Tables)
    requires Resting(t)
    ensures var k := NewPool(t.pool.nextPool);
            && k !in t.pool.pools && k !in t.pool.free
            && Step(t, PoolCreate) ==
                 t.(pool := t.pool.(pools := {2, k}, nextPool := Step(t, PoolCreate).pool.nextPool))
  {
    PoolProbe(t.pool.nextPool);
    assert {2} + {NewPool(t.pool.nextPool)} == {2, NewPool(t.pool.nextPool)};
  }

  function RoundCalls(k: U32): (es: seq<Event>) { [PoolCreate] + (GetCalls(k) + [PoolClose(k)]) }

  /** A new pool gets a new id and is closed: only the counters have moved. */
  lemma Round(t: Tables) returns (q: U32)
    requires Resting(t)
    ensures Run(t, RoundCalls(NewPool(t.pool.nextPool))) ==
              Wound(t, if t.pool.next == 0 then 2 else WrappingNext(t.pool.next), q)
  {
    var k := NewPool(t.pool.nextPool);
    PoolMade(t);
    var t1 := Step(t, PoolCreate);
    q := t1.pool.nextPool;
    RunOne(t, PoolCreate, GetCalls(k) + [PoolClose(k)]);
    RunBoth(t1, GetCalls(k), [PoolClose(k)]);
    GetRun(t1, k);
    GetFirst(t1.pool, k);
    var t2 := Run(t1, GetCalls(k));
    RunEvent(t2, PoolClose(k));
    CloseOnly(t2.pool, k, if t.pool.next == 0 then 1 else t.pool.next);
    assert {2, k} - {k} == {2};
  }

  /** Zero is skipped. */
  lemma ProbeTwice(next: U32)
    ensures Probe(next, {}, MAX_ID_ALLOC_ATTEMPTS) ==
              if next == 0 then (Some(1), 2) else (Some(next), WrappingNext(next))
  {
    if next == 0 {
      assert Probe(0, {}, MAX_ID_ALLOC_ATTEMPTS) == Probe(1, {}, MAX_ID_ALLOC_ATTEMPTS - 1);
      ProbeHead(1, {}, MAX_ID_ALLOC_ATTEMPTS - 1);
    } else {
      ProbeHead(next, {}, MAX_ID_ALLOC_ATTEMPTS);
    }
  }

  /** Steps of the counter from `from` until it stands at `to` again, past zero. */
  function ToGo(from: U32, to: U32): (n: nat) { if from <= to then to - from else U32_LIMIT - from + to }

  function Wound(t: Tables, next: U32, nextPool: U32): (r: Tables) {
    t.(pool := t.pool.(next := next, nextPool := nextPool))
  }

  /** Such rounds bring the counter to any value from two on. */
  lemma {:induction false} Rounds(t: Tables, to: U32) returns (es: seq<Event>, q: U32)
    requires Resting(t) && to >= 2
    ensures Run(t, es) == Wound(t, to, q)
    decreases ToGo(t.pool.next, to)
  {
    if t.pool.next == to {
      es, q := [], t.pool.nextPool;
    } else {
      var first := RoundCalls(NewPool(t.pool.nextPool));
      var _ := Round(t);
      var rest;
      rest, q := Rounds(Run(t, first), to);
      es := first + rest;
      RunBoth(t, first, rest);
    }
  }

  lemma {:induction false} RunBoth(t: Tables, es: seq<Event>, more: seq<Event>)
    ensures Run(t, es + more) == Run(Run(t, es), more)
    decreases |es|
  {
    if es == [] {
      assert es + more == more;
    } else {
      RunBoth(Step(t, es[0]), es[1..], more);
      assert (es + more)[1..] == es[1..] + more;
    }
  }

  /** Two pools, the first closed, and one id given back to the second. */
  lemma TwoPools() returns (es: seq<Event>)
    ensures Run(INIT, es) ==
              INIT.(pool := Pools({2}, map[], map[], map[2 := [FIRST_POOLED_ID]], FIRST_POOLED_ID + 1, 3))
  {
    var a, d := [PoolCreate] + ([PoolCreate] + [PoolClose(1)]), PoolRelease(FIRST_POOLED_ID);
    MadeTwo();
    var t3 := Run(INIT, a);
    GetRun(t3, 2);
    GetFirst(t3.pool, 2);
    var t4 := Run(t3, GetCalls(2));
    es := a + (GetCalls(2) + [d]);
    RunBoth(INIT, a, GetCalls(2) + [d]);
    RunBoth(t3, GetCalls(2), [d]);
    RunEvent(t4, d);
    assert FreeIds(t4.pool, 2) == [] && [] + [FIRST_POOLED_ID as U32] == [FIRST_POOLED_ID as U32];
    assert t4.pool.pooled - {FIRST_POOLED_ID} == map[];
  }

  lemma MadeTwo()
    ensures Run(INIT, [PoolCreate] + ([PoolCreate] + [PoolClose(1)])) ==
              INIT.(pool := Pools({2}, map[], map[], map[], FIRST_POOLED_ID, 3))
  {
    ProbeHead(1, {}, MAX_ID_ALLOC_ATTEMPTS);
    ProbeHead(2, {1}, MAX_ID_ALLOC_ATTEMPTS);
    var t1 := Step(INIT, PoolCreate);
    assert t1.pool.pools == {1};
    var t2 := Step(t1, PoolCreate);
    assert t2.pool.pools == {1, 2} && t2.pool.nextPool == 3;
    RunOne(INIT, PoolCreate, [PoolCreate] + [PoolClose(1)]);
    RunOne(t1, PoolCreate, [PoolClose(1)]);
    RunEvent(t2, PoolClose(1));
    assert {1, 2} - {1} == {2};
  }

  /**
   * A run from the start: once the counter has come round, a new pool is given an id that lies in
   * pool 2's free list, and pool 2 then gives it out again.
   */
  lemma WrappedIdTwice() returns (es: seq<Event>, k: U32)
    ensures k != 2 && Run(INIT, es).pool.pooled == map[FIRST_POOLED_ID := k] && !Located(Run(INIT, es).pool)
    ensures Run(Run(INIT, es), GetCalls(2)).pool.pooled == map[FIRST_POOLED_ID := 2]
  {
    var first := TwoPools();
    var t := Run(INIT, first);
    var rounds, q := Rounds(t, FIRST_POOLED_ID);
    RunBoth(INIT, first, rounds);
    k := NewPool(q);
    var last := [PoolCreate] + GetCalls(k);
    es := first + rounds + last;
    RunBoth(INIT, first + rounds, last);
    GivenTwice(Wound(t, FIRST_POOLED_ID, q));
  }

  lemma GivenTwice(t: Tables)
    requires Resting(t) && t.pool.next == FIRST_POOLED_ID && t.pool.free == map[2 := [FIRST_POOLED_ID]]
    ensures var k := NewPool(t.pool.nextPool); var w := Run(t, [PoolCreate] + GetCalls(k));
            && w.pool.pooled == map[FIRST_POOLED_ID := k] && !Located(w.pool)
            && Run(w, GetCalls(2)).pool.pooled == map[FIRST_POOLED_ID := 2]
  {
    var k := NewPool(t.pool.nextPool);
    PoolMade(t);
    var t1 := Step(t, PoolCreate);
    RunOne(t, PoolCreate, GetCalls(k));
    GetRun(t1, k);
    GetFirst(t1.pool, k);
    GivenAgain(Run(t1, GetCalls(k)), k);
  }

  lemma GivenAgain(t: Tables, k: U32)
    requires t.flights == map[] && 2 in t.pool.pools && t.pool.pooled == map[FIRST_POOLED_ID := k]
    requires t.pool.free == map[2 := [FIRST_POOLED_ID]]
    ensures !Located(t.pool) && Run(t, GetCalls(2)).pool.pooled == map[FIRST_POOLED_ID := 2]
  {
    assert t.pool.free[2][0] in t.pool.pooled;
    GetRun(t, 2);
    assert FreeIds(t.pool, 2) == [FIRST_POOLED_ID];
  }

  // ---------------------------------------------------------------------
  // Plain and pooled ids
  // ---------------------------------------------------------------------

  predicate ConnIds(t: Tables) { 1 <= t.nextConn && forall c :: c in t.connections ==> 1 <= c < t.nextConn }

  lemma ConnIdsStep(t: Tables, e: Event)
    requires ConnIds(t) && t.nextConn + 1 < U32_LIMIT
    ensures ConnIds(Step(t, e)) && Step(t, e).nextConn <= t.nextConn + if e.Connect? then 1 else 0
  {
    if e.Connect? {
      ProbeHead(t.nextConn, t.connections, MAX_ID_ALLOC_ATTEMPTS);
    } else {
      OnlyConnectAdds(t, e);
    }
  }

  lemma OnlyConnectAdds(t: Tables, e: Event)
    requires !e.Connect?
    ensures Step(t, e).connections <= t.connections && Step(t, e).nextConn == t.nextConn
  {
  }

  function Connects(es: seq<Event>): (n: nat) {
    if es == [] then 0 else (if es[0].Connect? then 1 else 0) + Connects(es[1..])
  }

  lemma {:induction false} ConnIdsRun(t: Tables, es: seq<Event>)
    requires ConnIds(t) && t.nextConn + Connects(es) + 1 < U32_LIMIT
    ensures ConnIds(Run(t, es)) && Run(t, es).nextConn <= t.nextConn + Connects(es)
    decreases |es|
  {
    if es != [] {
      ConnIdsStep(t, es[0]);
      ConnIdsRun(Step(t, es[0]), es[1..]);
    }
  }

  /**
   * The two kinds of connection share one id space in statements. For the first million connects they
   * cannot meet, so giving back a pooled connection spares every statement of a plain one.
   */
  lemma IdSpacesApart(es: seq<Event>, conn: U32, s: U32)
    requires Connects(es) < FIRST_POOLED_ID && FIRST_POOLED_ID + Gets(es) < U32_LIMIT
    requires s in Run(INIT, es).statements && Run(INIT, es).statements[s] in Run(INIT, es).connections
    ensures Run(INIT, es).connections !! Held(Run(INIT, es).pool)
    ensures s in PoolReleaseStep(Run(INIT, es), conn).statements
  {
    ConnIdsRun(INIT, es);
    PoolIdsFromStart(es);
  }

  function Counted(t: Tables, next: U32): (r: Tables) { t.(nextConn := next) }

  /** Connecting and disconnecting moves only the counter. */
  lemma {:induction false} Reconnects(t: Tables, to: U32) returns (es: seq<Event>)
    requires t == Counted(INIT, t.nextConn) && 1 <= t.nextConn <= to
    ensures Run(t, es) == Counted(t, to)
    decreases ToGo(t.nextConn, to)
  {
    if t.nextConn == to {
      es := [];
    } else {
      var c := t.nextConn;
      ProbeHead(c, {}, MAX_ID_ALLOC_ATTEMPTS);
      var t1 := Step(t, Connect);
      assert t1.connections == {c};
      var t2 := Step(t1, Disconnect(c));
      assert t2 == Counted(t, c + 1);
      var rest := Reconnects(t2, to);
      es := [Connect, Disconnect(c)] + rest;
      assert es[1..] == [Disconnect(c)] + rest && ([Disconnect(c)] + rest)[1..] == rest;
    }
  }

  /**
   * A run from the start where they meet, a million connects on: a plain connection with a statement
   * and a pooled one share an id, and giving back the pooled one drops the plain one's statement.
   */
  lemma SharedIdLosesStatement() returns (es: seq<Event>)
    ensures var t := Run(INIT, es);
            && FIRST_POOLED_ID in t.connections && FIRST_POOLED_ID in t.pool.pooled
            && t.statements == map[1 := FIRST_POOLED_ID]
            && PoolReleaseStep(t, FIRST_POOLED_ID).statements == map[]
            && FIRST_POOLED_ID in PoolReleaseStep(t, FIRST_POOLED_ID).connections
  {
    var n := FIRST_POOLED_ID;
    var first := Reconnects(INIT, n);
    var last := [Connect] + ([Prepare(n, 1)] + ([PoolCreate] + GetCalls(1)));
    Meet(Counted(INIT, n));
    es := first + last;
    RunBoth(INIT, first, last);
  }

  lemma Meet(t: Tables)
    requires t == Counted(INIT, FIRST_POOLED_ID)
    ensures var n := FIRST_POOLED_ID;
            var t' := Run(t, [Connect] + ([Prepare(n, 1)] + ([PoolCreate] + GetCalls(1))));
            t'.connections == {n} && t'.statements == map[1 := n] && t'.pool.pooled == map[n := 1]
  {
    var n := FIRST_POOLED_ID;
    ProbeHead(n, {}, MAX_ID_ALLOC_ATTEMPTS);
    ProbeHead(1, {}, MAX_ID_ALLOC_ATTEMPTS);
    var t1 := Step(t, Connect);
    var t2 := Step(t1, Prepare(n, 1));
    assert t2 == t.(nextConn := n + 1, connections := {n}, statements := map[1 := n]);
    var t3 := Step(t2, PoolCreate);
    assert t3.pool == t.pool.(pools := {1}, nextPool := 2);
    RunOne(t, Connect, [Prepare(n, 1)] + ([PoolCreate] + GetCalls(1)));
    RunOne(t1, Prepare(n, 1), [PoolCreate] + GetCalls(1));
    RunOne(t2, PoolCreate, GetCalls(1));
    GetRun(t3, 1);
    GetFirst(t3.pool, 1);
  }

  /** Where they meet, a release drops exactly that connection's statements, and the connection stays. */
  lemma SharedIdLosesStatements(t: Tables, conn: U32, s: U32)
    requires conn in t.connections && conn in t.pool.pooled && s in t.statements
    ensures s in PoolReleaseStep(t, conn).statements <==> t.statements[s] != conn
    ensures conn in PoolReleaseStep(t, conn).connections
  {
  }
}
