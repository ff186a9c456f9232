/** What each call on the tables does, and that its counterpart undoes it. */
module HandleLives {
  import opened Xids
  import opened IdAllocator
  import opened HandleTables

  // ---------------------------------------------------------------------
  // Connections
  // ---------------------------------------------------------------------

  /** A disconnect takes away exactly what belongs to the connection, entry by entry, and nothing if there
      is no such connection; calls in flight and streams out of their table it does not see. */
  lemma DisconnectExact(t: Tables, conn: U32, k: U32)
    ensures var t' := Step(t, Disconnect(conn));
            if conn !in t.connections then t' == t
            else
              && t'.connections == t.connections - {conn}
              && t' == t.(connections := t'.connections, statements := t'.statements, streams := t'.streams,
                          transactions := t'.transactions, streamConns := t'.streamConns, chunks := t'.chunks,
                          requests := t'.requests)
              && Keeps(t.statements, t'.statements, conn, k) && Keeps(t.transactions, t'.transactions, conn, k)
              && Keeps(t.streamConns, t'.streamConns, conn, k) && Keeps(t.requests, t'.requests, conn, k)
              && (k in t'.streams <==> k in t.streams && !(k in t.streamConns && t.streamConns[k] == conn))
              && (k in t'.chunks <==> k in t.chunks && !(k in t.streamConns && t.streamConns[k] == conn))
  {
  }

  /** The entry stays, as it was, exactly if it is not the connection's. */
  predicate Keeps(before: map<U32, U32>, after: map<U32, U32>, conn: U32, k: U32) {
    && (k in after <==> k in before && before[k] != conn)
    && (k in after ==> after[k] == before[k])
  }

  /** Connecting makes one new connection under an id of its own, and disconnecting it again leaves only
      the counter moved. */
  lemma ConnectThenDisconnect(t: Tables) returns (c: U32)
    requires Integrity(t) && |t.connections| < MAX_ID_ALLOC_ATTEMPTS - 1
    ensures var t1 := Step(t, Connect);
            && c != 0 && c !in t.connections && t1 == t.(connections := t.connections + {c}, nextConn := t1.nextConn)
            && (c !in Held(t.pool) ==> Step(t1, Disconnect(c)) == t.(nextConn := t1.nextConn))
  {
    ProbeSucceedsBelow(t.nextConn, t.connections, MAX_ID_ALLOC_ATTEMPTS);
    ProbeFresh(t.nextConn, t.connections, MAX_ID_ALLOC_ATTEMPTS);
    c := Probe(t.nextConn, t.connections, MAX_ID_ALLOC_ATTEMPTS).0.value;
    var t1 := ConnectStep(t);
    assert t1 == t.(connections := t.connections + {c}, nextConn := t1.nextConn);
    if c !in Held(t.pool) {
      NothingThere(t, c);
      Undone(t.(nextConn := t1.nextConn), c);
    }
  }

  predicate Unused(t: Tables, c: U32) {
    && (forall k :: k in t.statements ==> t.statements[k] != c)
    && (forall k :: k in t.transactions ==> t.transactions[k] != c)
    && (forall k :: k in t.streamConns ==> t.streamConns[k] != c)
    && (forall k :: k in t.requests ==> t.requests[k] != c)
  }

  lemma NothingThere(t: Tables, c: U32)
    requires Integrity(t) && c !in t.connections && c !in Held(t.pool)
    ensures Unused(t, c)
  {
    forall k | k in t.statements
      ensures t.statements[k] != c
    {
      assert t.statements[k] in Live(t);
    }
  }

  lemma Undone(t: Tables, c: U32)
    requires Unused(t, c) && c !in t.connections
    ensures DisconnectStep(t.(connections := t.connections + {c}), c) == t
  {
    NothingOwned(t.statements, c);
    NothingOwned(t.transactions, c);
    NothingOwned(t.streamConns, c);
    NothingOwned(t.requests, c);
    assert t.connections + {c} - {c} == t.connections;
  }

  lemma NothingOwned(m: map<U32, U32>, c: U32)
    ensures (forall k :: k in m ==> m[k] != c) ==> Without(m, c) == m && Owned(m, c) == {}
  {
  }

  // ---------------------------------------------------------------------
  // Statements, requests, transactions
  // ---------------------------------------------------------------------

  /** A statement is prepared on a plain or on a pooled connection, under a free id; closing it undoes that,
      and so does clearing if there was no other. */
  lemma PrepareThenClose(t: Tables, c: U32, s: U32)
    requires s !in t.statements
    ensures var t1 := Step(t, Prepare(c, s));
            && t1 == (if (c in t.connections || c in t.pool.pooled) && s != 0
                      then t.(statements := t.statements[s := c]) else t)
            && Step(t1, CloseStatement(s)) == t && Step(t1, ClearStatements) == t.(statements := map[])
  {
    assert t.statements[s := c] - {s} == t.statements;
    assert t.statements - {s} == t.statements;
  }

  lemma RequestThenFree(t: Tables, c: U32, q: U32)
    requires q !in t.requests
    ensures var t1 := Step(t, StartRequest(c, q));
            && t1 == (if c in t.connections && q != 0 then t.(requests := t.requests[q := c]) else t)
            && Step(t1, FreeRequest(q)) == t
  {
    assert t.requests[q := c] - {q} == t.requests && t.requests - {q} == t.requests;
  }

  /** A begin is in flight from its check to its entry; one that the driver refused leaves no entry, and
      ending the transaction removes it. */
  lemma BeginThenEnd(t: Tables, call: nat, c: U32, x: U32, ok: bool)
    requires call !in t.flights && x !in t.transactions && x != 0
    ensures var t1 := Step(t, Ask(call, TxFlight(c))); var t2 := Step(t1, EnterTx(call, x, ok));
            if c in t.connections && c !in t.transactions.Values
            then && t1 == t.(flights := t.flights[call := TxFlight(c)])
                 && t2 == (if ok then t.(transactions := t.transactions[x := c]) else t)
                 && Step(t2, EndTx(x)) == t
            else t1 == t && t2 == t
  {
    assert t.flights[call := TxFlight(c)] - {call} == t.flights;
    assert t.transactions[x := c] - {x} == t.transactions && t.transactions - {x} == t.transactions;
  }

  // ---------------------------------------------------------------------
  // Streams
  // ---------------------------------------------------------------------

  lemma StreamThenClose(t: Tables, call: nat, c: U32, s: U32, ok: bool)
    requires call !in t.flights && s !in t.streams && s !in t.streamConns && s !in t.chunks && s != 0
    ensures var t1 := Step(t, Ask(call, StreamFlight(c))); var t2 := Step(t1, EnterStream(call, s, ok));
            if c in t.connections
            then && t1 == t.(flights := t.flights[call := StreamFlight(c)])
                 && t2 == (if ok then t.(streams := t.streams + {s}, streamConns := t.streamConns[s := c]) else t)
                 && Step(t2, CloseStream(s)) == t
            else t1 == t && t2 == t
  {
    assert t.flights[call := StreamFlight(c)] - {call} == t.flights;
    assert t.streamConns[s := c] - {s} == t.streamConns && t.streams + {s} - {s} == t.streams;
    assert t.chunks - {s} == t.chunks;
  }

  /** A fetch takes the stream out of its table, unless a chunk is kept for it, and puts it back; a chunk
      that is kept is taken again. */
  lemma FetchThenReturn(t: Tables, s: U32)
    requires s in t.streams && s !in t.out
    ensures var t1 := Step(t, BeginFetch(s));
            && t1 == (if s in t.chunks then t else t.(streams := t.streams - {s}, out := t.out + {s}))
            && Step(t1, EndFetch(s)) == t
    ensures var t1 := Step(t, KeepChunk(s));
            t1 == t.(chunks := t.chunks + {s}) && Step(t1, TakeChunk(s)) == t.(chunks := t.chunks - {s})
  {
    assert t.streams - {s} + {s} == t.streams && t.out + {s} - {s} == t.out;
    assert t.chunks + {s} - {s} == t.chunks - {s};
  }

  // ---------------------------------------------------------------------
  // Pools
  // ---------------------------------------------------------------------

  /** A new pool, under an id of its own; closing it again leaves only the counter moved. */
  lemma CreateThenClose(t: Tables) returns (k: U32)
    requires |t.pool.pools| < MAX_ID_ALLOC_ATTEMPTS - 1 && Refers(t.pool.pooled, t.pool.pools)
    ensures var t1 := Step(t, PoolCreate);
            && k != 0 && k !in t.pool.pools
            && t1 == t.(pool := t.pool.(pools := t.pool.pools + {k}, nextPool := t1.pool.nextPool))
            && (k !in t.pool.free ==> Step(t1, PoolClose(k)) == t.(pool := t.pool.(nextPool := t1.pool.nextPool)))
  {
    k := CreateMakes(t.pool);
    if k !in t.pool.free {
      Closed(t.(pool := t.pool.(nextPool := CreatePool(t.pool).nextPool)), k);
    }
  }

  lemma CreateMakes(p: Pools) returns (k: U32)
    requires |p.pools| < MAX_ID_ALLOC_ATTEMPTS - 1
    ensures k != 0 && k !in p.pools
    ensures CreatePool(p) == p.(pools := p.pools + {k}, nextPool := CreatePool(p).nextPool)
  {
    ProbeSucceedsBelow(p.nextPool, p.pools, MAX_ID_ALLOC_ATTEMPTS);
    ProbeFresh(p.nextPool, p.pools, MAX_ID_ALLOC_ATTEMPTS);
    k := Probe(p.nextPool, p.pools, MAX_ID_ALLOC_ATTEMPTS).0.value;
  }

  lemma Closed(t: Tables, k: U32)
    requires k !in t.pool.pools && k !in t.pool.free && Refers(t.pool.pooled, t.pool.pools)
    ensures PoolCloseStep(t.(pool := t.pool.(pools := t.pool.pools + {k})), k) == t
  {
    NothingOwned(t.pool.pooled, k);
    assert CheckedOut(t.pool, k) == {};
    assert WithoutAll(t.statements, {}) == t.statements;
    assert t.pool.pools + {k} - {k} == t.pool.pools && t.pool.free - {k} == t.pool.free;
  }

  /** Giving a pooled connection back drops its statements and makes its id the next one its pool hands out. */
  lemma ReleaseThenGet(t: Tables, c: U32, call: nat, s: U32)
    requires c in t.pool.pooled && t.pool.pooled[c] in t.pool.pools && call !in t.flights
    ensures var k := t.pool.pooled[c]; var t1 := Step(t, PoolRelease(c));
            var t2 := Step(Step(t1, Ask(call, PoolFlight(k))), EnterPool(call, true));
            && c !in t1.pool.pooled && Keeps(t.statements, t1.statements, c, s)
            && t2 == t1.(pool := t2.pool) && t1 == t.(pool := t1.pool, statements := t1.statements)
            && t2.pool == t.pool.(free := t2.pool.free) && FreeIds(t2.pool, k) == FreeIds(t.pool, k)
  {
    var k, t1 := t.pool.pooled[c], PoolReleaseStep(t, c);
    Regained(t.pool, c);
    assert t1.flights[call := PoolFlight(k)] - {call} == t.flights;
  }

  lemma Regained(p: Pools, c: U32)
    requires c in p.pooled
    ensures var k := p.pooled[c]; var p2 := Get(Release(p, c), k);
            p2 == p.(free := p2.free) && FreeIds(p2, k) == FreeIds(p, k)
  {
    var ids := FreeIds(p, p.pooled[c]) + [c];
    assert ids[|ids| - 1] == c && ids[..|ids| - 1] == FreeIds(p, p.pooled[c]);
    assert (p.pooled - {c})[c := p.pooled[c]] == p.pooled;
  }

  /** A get from a pool that is not there, or that failed to get a connection, takes no id. */
  lemma FailedGet(t: Tables, k: U32, call: nat)
    requires call !in t.flights
    ensures Step(Step(t, Ask(call, PoolFlight(k))), EnterPool(call, false)) == t
    ensures k !in t.pool.pools ==> Step(Step(t, Ask(call, PoolFlight(k))), EnterPool(call, true)) == t
  {
    assert t.flights[call := PoolFlight(k)] - {call} == t.flights;
  }

  /** A get for which no id is free moves only the counter. */
  lemma NoIdLeft(p: Pools, k: U32)
    requires FreeIds(p, k) == [] && Probe(p.next, p.pooled.Keys, MAX_ID_ALLOC_ATTEMPTS).0.None?
    ensures Get(p, k) == p.(next := Probe(p.next, p.pooled.Keys, MAX_ID_ALLOC_ATTEMPTS).1)
  {
  }

  /** A query borrows its pooled connection and returns it. */
  lemma BorrowThenReturn(t: Tables, c: U32)
    requires c in t.pool.pooled && c !in t.pool.borrowed
    ensures var t1 := Step(t, Borrow(c));
            && c !in t1.pool.pooled && c in t1.pool.borrowed && t1.pool.borrowed[c] == t.pool.pooled[c]
            && Step(t1, Return(c)) == t
  {
    assert (t.pool.pooled - {c})[c := t.pool.pooled[c]] == t.pool.pooled;
    assert t.pool.borrowed[c := t.pool.pooled[c]] - {c} == t.pool.borrowed;
  }

  /** Closing a pool drops its free list, the connections checked out of it and their statements, and nothing
      of another pool. */
  lemma CloseExact(t: Tables, k: U32, c: U32, s: U32)
    ensures k !in t.pool.pools ==> Step(t, PoolClose(k)) == t
    ensures var t' := Step(t, PoolClose(k));
            k in t.pool.pools ==>
            && t'.pool == t.pool.(pools := t.pool.pools - {k}, pooled := t'.pool.pooled, free := t.pool.free - {k})
            && Keeps(t.pool.pooled, t'.pool.pooled, k, c)
            && (s in t'.statements <==>
                  s in t.statements && !(t.statements[s] in t.pool.pooled && t.pool.pooled[t.statements[s]] == k))
  {
  }

  /** A resize is refused while any connection is checked out, and one that fails loses the pool. */
  lemma ResizeExact(t: Tables, k: U32, ok: bool)
    ensures Step(t, PoolResize(k, ok)) ==
              if k in t.pool.pools && !ok && (forall d :: d in t.pool.pooled ==> t.pool.pooled[d] != k)
              then t.(pool := t.pool.(pools := t.pool.pools - {k})) else t
  {
    assert CheckedOut(t.pool, k) == {} <==> forall d :: d in t.pool.pooled ==> t.pool.pooled[d] != k by {
      if d :| d in t.pool.pooled && t.pool.pooled[d] == k {
        assert d in CheckedOut(t.pool, k);
      }
    }
  }
}
