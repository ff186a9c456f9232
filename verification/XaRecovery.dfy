/** Crash recovery: reading back the prepared branches, and finishing them. */
module XaRecovery {
  import opened Xids
  import opened XidText
  import opened IdAllocator
  import opened ResourceManager
  import opened XaWorld
  import opened XaSafety
  import opened XaTheorems

  // ---------------------------------------------------------------------
  // Rows
  // ---------------------------------------------------------------------

  /** A row of text columns, as each engine answers the recovery query. */
  datatype Row =
    | GidRow(gid: Option<string>)
    | RecoverRow(formatId: string, gtridLength: string, bqualLength: string, data: string)
    | PendingRow(oraFormatId: string, globalId: string, branchId: string)

  predicate IsSpace(c: char) { c == ' ' || ('\t' <= c <= '\r') }

  function TrimStart(s: string): (r: string) {
    if s != "" && IsSpace(s[0]) then TrimStart(s[1..]) else s
  }

  function TrimEnd(s: string): (r: string) {
    if s != "" && IsSpace(s[|s| - 1]) then TrimEnd(s[..|s| - 1]) else s
  }

  function Trim(s: string): (r: string) { TrimEnd(TrimStart(s)) }

  function OrElse<T>(o: Option<T>, d: T): (r: T) { if o.Some? then o.value else d }

  function DecodeComponents(gtridHex: string, bqualHex: string, formatId: Int32): (r: Option<Xid>) {
    var g, b := Unhex(gtridHex), Unhex(bqualHex);
    if g.None? || b.None? then None else NewXid(formatId, g.value, b.value)
  }

  function RowInt(s: string): (r: Int32) { OrElse(ParseInt32(Trim(s)), 0) }

  function RowLength(s: string): (r: nat) { OrElse(ParseUsize(Trim(s)), 0) }

  /** The data column holds both components, end to end; a row too short for them is skipped. */
  function CutData(data: string, g: nat, b: nat, formatId: Int32): (r: Option<Xid>) {
    if |data| < g + b then None else DecodeComponents(data[..g], data[g..g + b], formatId)
  }

  function DecodeRow(row: Row): (r: Option<Xid>)
    ensures r.Some? ==> r.value.Valid()
  {
    match row
    case GidRow(gid) => if gid.None? then None else DecodePostgres(gid.value)
    case RecoverRow(f, gl, bl, data) =>
      CutData(data, RowLength(gl), RowLength(bl), RowInt(f))
    case PendingRow(f, g, b) => DecodeComponents(g, b, RowInt(f))
  }

  function Somes<T>(os: seq<Option<T>>): (r: seq<T>) {
    if os == [] then []
    else Somes(os[..|os| - 1]) + if os[|os| - 1].Some? then [os[|os| - 1].value] else []
  }

  function Attempts(rows: seq<Row>): (r: seq<Option<Xid>>)
    ensures |r| == |rows| && forall i :: 0 <= i < |rows| ==> r[i] == DecodeRow(rows[i])
  {
    seq(|rows|, i requires 0 <= i < |rows| => DecodeRow(rows[i]))
  }

  function Decoded(rows: seq<Row>): (r: seq<Xid>) { Somes(Attempts(rows)) }

  /** Reads the rows of the recovery query, skipping those this engine did not write. */
  method RecoverPreparedXids(rows: seq<Row>) returns (out: seq<Xid>)
    ensures out == Decoded(rows)
  {
    out := [];
    var all := Attempts(rows);
    for i := 0 to |rows|
      invariant out == Somes(all[..i])
    {
      var x := ReadRow(rows[i]);
      assert all[..i + 1][..i] == all[..i];
      if x.Some? {
        out := out + [x.value];
      }
    }
    assert all[..|rows|] == all;
  }

  method ReadRow(row: Row) returns (x: Option<Xid>)
    ensures x == DecodeRow(row)
  {
    match row
    case GidRow(gid) =>
      if gid.None? {
        return None;
      }
      return DecodePostgres(gid.value);
    case RecoverRow(f, gl, bl, data) =>
      x := ReadData(data, RowLength(gl), RowLength(bl), RowInt(f));
    case PendingRow(f, g, b) =>
      return DecodeComponents(g, b, RowInt(f));
  }

  method ReadData(data: string, gtridLen: nat, bqualLen: nat, formatId: Int32) returns (x: Option<Xid>)
    ensures x == CutData(data, gtridLen, bqualLen, formatId)
  {
    if |data| < gtridLen + bqualLen {
      return None;
    }
    return DecodeComponents(data[..gtridLen], data[gtridLen..gtridLen + bqualLen], formatId);
  }

  /** The row a resource manager answers for a prepared branch. */
  function RowOf(n: BranchName): (r: Row) {
    match n
    case Gid(text) => GidRow(Some(text))
    case SqlXid(g, b, f) => RecoverRow(IntText(f), IntText(|g|), IntText(|b|), g + b)
    case RawXid(f, g, b) => PendingRow(IntText(f), g, b)
    case Session(_) => GidRow(None)
  }

  function RowsOf(names: seq<BranchName>): (r: seq<Row>) {
    seq(|names|, i requires 0 <= i < |names| => RowOf(names[i]))
  }

  lemma NumberIsTrimmed(n: int)
    ensures Trim(IntText(n)) == IntText(n)
  {
  }

  lemma RowIntRoundTrip(n: Int32)
    ensures RowInt(IntText(n)) == n
  {
    NumberIsTrimmed(n);
    IntRoundTrip(n);
  }

  lemma RowLengthRoundTrip(n: nat)
    requires n < USIZE_LIMIT
    ensures RowLength(IntText(n)) == n
  {
    NumberIsTrimmed(n);
    UsizeRoundTrip(n);
  }

  /** White space, as the engine's own trimming understands it. */
  predicate Blank(s: string) {
    forall i :: 0 <= i < |s| ==> s[i] in {' ', '\t', '\n', '\U{0b}', '\U{0c}', '\r'}
  }

  lemma {:induction false} TrimsStart(a: string, s: string)
    requires Blank(a)
    ensures TrimStart(a + s) == TrimStart(s)
  {
    if a == "" {
      assert a + s == s;
    } else {
      assert a[0] in {' ', '\t', '\n', '\U{0b}', '\U{0c}', '\r'};
      assert (a + s)[1..] == a[1..] + s;
      TrimsStart(a[1..], s);
    }
  }

  lemma {:induction false} TrimsEnd(s: string, b: string)
    requires Blank(b)
    ensures TrimEnd(s + b) == TrimEnd(s)
  {
    if b == "" {
      assert s + b == s;
    } else {
      assert b[|b| - 1] in {' ', '\t', '\n', '\U{0b}', '\U{0c}', '\r'};
      assert (s + b)[..|s + b| - 1] == s + b[..|b| - 1];
      TrimsEnd(s, b[..|b| - 1]);
    }
  }

  /** Numbers are read through any padding; what is no number counts as zero. */
  lemma PaddedNumber(n: Int32, a: string, b: string)
    requires Blank(a) && Blank(b)
    ensures RowInt(a + IntText(n) + b) == n && (n >= 0 ==> RowLength(a + IntText(n) + b) == n)
  {
    var t := IntText(n);
    assert a + t + b == a + (t + b);
    TrimsStart(a, t + b);
    StartsBare(t, b, n);
    TrimsEnd(t, b);
    NumberIsTrimmed(n);
    IntRoundTrip(n);
    if n >= 0 {
      UsizeRoundTrip(n);
    }
  }

  lemma StartsBare(t: string, b: string, n: int)
    requires t == IntText(n)
    ensures TrimStart(t + b) == t + b && TrimEnd(t) == t
  {
    NumberIsTrimmed(n);
    assert (t + b)[0] == t[0];
  }

  lemma ComponentsRoundTrip(x: Xid, upper: bool)
    requires x.Valid()
    ensures DecodeComponents(HexOf(x.gtrid, upper), HexOf(x.bqual, upper), x.formatId) == Some(x)
  {
    HexRoundTrip(x.gtrid, upper);
    HexRoundTrip(x.bqual, upper);
  }

  lemma CutJoined(g: string, b: string, formatId: Int32)
    ensures CutData(g + b, |g|, |b|, formatId) == DecodeComponents(g, b, formatId)
  {
    assert (g + b)[..|g|] == g && (g + b)[|g|..|g| + |b|] == b;
  }

  lemma JoinedRow(g: string, b: string, formatId: Int32)
    requires |g| < USIZE_LIMIT && |b| < USIZE_LIMIT
    ensures DecodeRow(RowOf(SqlXid(g, b, formatId))) == DecodeComponents(g, b, formatId)
  {
    var f, gl, bl := IntText(formatId), IntText(|g|), IntText(|b|);
    RowIntRoundTrip(formatId);
    RowLengthRoundTrip(|g|);
    RowLengthRoundTrip(|b|);
    calc {
      DecodeRow(RowOf(SqlXid(g, b, formatId)));
      DecodeRow(RecoverRow(f, gl, bl, g + b));
      CutData(g + b, |g|, |b|, formatId);
      { CutJoined(g, b, formatId); }
      DecodeComponents(g, b, formatId);
    }
  }

  /** Every branch this code named reads back as the identifier it was named for. */
  lemma RowRoundTrip(e: Engine, x: Xid)
    requires x.Valid()
    ensures DecodeRow(RowOf(NameOf(e, x))) == Some(x)
  {
    match e
    case Postgres => PostgresRoundTrip(x);
    case Oracle =>
      RowIntRoundTrip(x.formatId);
      ComponentsRoundTrip(x, true);
    case _ =>
      ComponentsRoundTrip(x, false);
      JoinedRow(HexOf(x.gtrid, false), HexOf(x.bqual, false), x.formatId);
  }

  lemma {:induction false} SomesMember<T>(os: seq<Option<T>>, i: nat)
    requires i < |os| && os[i].Some?
    ensures os[i].value in Somes(os)
  {
    if i < |os| - 1 {
      SomesMember(os[..|os| - 1], i);
    }
  }

  lemma {:induction false} SomesAll<T>(os: seq<Option<T>>, xs: seq<T>)
    requires |os| == |xs| && forall i :: 0 <= i < |os| ==> os[i] == Some(xs[i])
    ensures Somes(os) == xs
  {
    if os != [] {
      var k := |os| - 1;
      SomesAll(os[..k], xs[..k]);
      assert xs == xs[..k] + [xs[k]];
    }
  }

  /** Foreign rows among ours neither hide nor alter an identifier of ours. */
  lemma RecoveryComplete(e: Engine, names: seq<BranchName>, x: Xid)
    requires x.Valid() && NameOf(e, x) in names
    ensures x in Decoded(RowsOf(names))
  {
    RowRoundTrip(e, x);
    var i :| 0 <= i < |names| && names[i] == NameOf(e, x);
    assert RowsOf(names)[i] == RowOf(names[i]);
    SomesMember(Attempts(RowsOf(names)), i);
  }

  /** When every row is ours, recovery lists exactly our identifiers, row by row. */
  lemma RecoveryExact(e: Engine, xs: seq<Xid>, names: seq<BranchName>)
    requires |xs| == |names|
    requires forall i :: 0 <= i < |xs| ==> xs[i].Valid() && names[i] == NameOf(e, xs[i])
    ensures Decoded(RowsOf(names)) == xs
  {
    var rows := RowsOf(names);
    forall i | 0 <= i < |rows| ensures DecodeRow(rows[i]) == Some(xs[i]) {
      RowRoundTrip(e, xs[i]);
    }
    SomesAll(Attempts(rows), xs);
  }

  // ---------------------------------------------------------------------
  // After a crash
  // ---------------------------------------------------------------------

  /** A commit that is obeyed finishes the prepared branch it names and nothing else. */
  lemma CommitObeyed(w: World, h: Handle)
    requires Supported(w.engine) && h.conn in w.conns && PreparedAt(w.rm, NameOf(w.engine, h.xid))
    ensures Call(w, h, DoCommit, Obey) == (w.(rm := Finish(w.rm, NameOf(w.engine, h.xid), DidCommit)), true)
  {
    var n := NameOf(w.engine, h.xid);
    if w.engine.Postgres? {
      assert Emit(w.engine, DoCommit, h.xid) == Send(PgCommitPrepared(n.text));
    } else {
      assert Table(w.rm, h.conn, OpCommit, n, Obey) == (Finish(w.rm, n, DidCommit), XaOk);
    }
  }

  lemma ResumeEnters(w: World, c: nat, x: Xid) returns (id: U32)
    requires c in w.conns && w.handles == map[]
    ensures var w1 := Resume(w, c, x);
            && w1.handles == map[id := Handle(w.nextOcc, false, c, x, Prepared)]
            && w1.rm == w.rm && w1.conns == w.conns && w1.engine == w.engine && w1.ended == w.ended
  {
    ProbeSucceedsBelow(w.nextXaId, {}, MAX_ID_ALLOC_ATTEMPTS);
    assert w.handles.Keys == {};
    id := Probe(w.nextXaId, {}, MAX_ID_ALLOC_ATTEMPTS).0.value;
  }

  /** Resuming a prepared branch on a live connection and committing it, every statement obeyed:
      the branch commits, the handle reports it, and no other branch is touched. */
  lemma ResumeAndCommit(w: World, c: nat, x: Xid) returns (id: U32)
    requires Supported(w.engine) && c in w.conns && w.handles == map[]
    requires PreparedAt(w.rm, NameOf(w.engine, x))
    ensures var n := NameOf(w.engine, x); var s := w.rm.branches[n].serial;
            var w2 := CommitPrepared(Resume(w, c, x), id, Fates(Obey, Obey, Obey, true));
            && w2.rm == Finish(w.rm, n, DidCommit)
            && w2.ended == w.ended[w.nextOcc := Ended(Handle(w.nextOcc, false, c, x, Committed), Prepared, Some(s))]
  {
    id := ResumeEnters(w, c, x);
    var w1 := Resume(w, c, x);
    CommitObeyed(Take(w1, id), w1.handles[id]);
  }

  lemma PreparedAfterCrash(w: World, evs: seq<Event>, x: Xid)
    requires Inv(w) && x.Valid() && Undecided(w, evs, x) && PreparedAt(w.rm, NameOf(w.engine, x))
    requires w.engine.MySqlFamily? ==> InStep(w, x) && NoStray(w, evs, x)
    ensures var n := NameOf(w.engine, x); var w' := Crash(Run(w, evs));
            w'.engine == w.engine && PreparedAt(w'.rm, n) && w'.rm.branches[n] == w.rm.branches[n]
  {
    PreparedSurvives(w, evs, x);
    InvRun(w, evs);
    if w.engine.MySqlFamily? {
      InStepRun(w, evs, x);
    }
    PreparedSurvivesStep(Run(w, evs), EvCrash, x);
  }

  /** Whatever ran before, and then the process died: a branch whose prepare took effect and that
      no call has decided is in the recovered list as the identifier it was started with, and
      resuming and committing it commits that very branch. `names` is whatever list the resource
      manager answers with, foreign branches included, as long as it omits none that is prepared. */
  lemma CrashRecovery(w: World, evs: seq<Event>, x: Xid, names: seq<BranchName>) returns (id: U32)
    requires Supported(w.engine) && Inv(w) && Undecided(w, evs, x)
    requires x.Valid() && PreparedAt(w.rm, NameOf(w.engine, x))
    requires w.engine.MySqlFamily? ==> InStep(w, x) && NoStray(w, evs, x)
    requires forall n :: PreparedAt(Crash(Run(w, evs)).rm, n) ==> n in names
    ensures x in Decoded(RowsOf(names))
    ensures var s := w.rm.branches[NameOf(w.engine, x)].serial;
            var w0 := Connect(Crash(Run(w, evs)));
            var w2 := CommitPrepared(Resume(w0, Crash(Run(w, evs)).nextConn, x), id, Fates(Obey, Obey, Obey, true));
            NameOf(w.engine, x) !in w2.rm.branches && s in w2.rm.outcome && w2.rm.outcome[s] == DidCommit
  {
    PreparedAfterCrash(w, evs, x);
    var n, w' := NameOf(w.engine, x), Crash(Run(w, evs));
    assert PreparedAt(w'.rm, n);
    RecoveryComplete(w.engine, names, x);
    id := ResumeAndCommit(Connect(w'), w'.nextConn, x);
  }
}
