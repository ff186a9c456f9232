/** The OCI path for Oracle: the fixed-size XID structure, and open and close around a branch. */
module OciXa {
  import opened Xids

  const DATA_SIZE := 128

  /** A signed C char. */
  type Int8 = x: int | -128 <= x < 128

  datatype OciXid = OciXid(formatId: Int32, gtridLength: int, bqualLength: int, data: seq<Int8>)

  function AsI8(b: Byte): (c: Int8) { if b < 128 then b else b - 256 }

  function AsU8(c: Int8): (b: Byte)
    ensures AsI8(b) == c
  {
    if c < 0 then c + 256 else c
  }

  function Signed(s: seq<Byte>): (r: seq<Int8>)
    ensures |r| == |s|
  {
    seq(|s|, i requires 0 <= i < |s| => AsI8(s[i]))
  }

  function Unsigned(s: seq<Int8>): (r: seq<Byte>)
    ensures |r| == |s|
  {
    seq(|s|, i requires 0 <= i < |s| => AsU8(s[i]))
  }

  function Zeros(n: nat): (r: seq<Int8>)
    ensures |r| == n
  {
    seq(n, _ => 0)
  }

  /** Global id, then branch qualifier, then zeros. */
  function Packed(x: Xid): (o: OciXid)
    requires x.Valid()
  {
    OciXid(x.formatId, |x.gtrid|, |x.bqual|,
           Signed(x.gtrid) + Signed(x.bqual) + Zeros(DATA_SIZE - |x.gtrid| - |x.bqual|))
  }

  /** One of the two loops: bytes copied in as signed characters from `at` on. */
  method Fill(data: array<Int8>, at: nat, s: seq<Byte>)
    requires at + |s| <= data.Length
    modifies data
    ensures forall k :: 0 <= k < |s| ==> data[at + k] == AsI8(s[k])
    ensures forall k :: 0 <= k < data.Length && !(at <= k < at + |s|) ==> data[k] == old(data[k])
  {
    for i := 0 to |s|
      invariant forall k :: 0 <= k < i ==> data[at + k] == AsI8(s[k])
      invariant forall k :: 0 <= k < data.Length && !(at <= k < at + i) ==> data[k] == old(data[k])
    {
      data[at + i] := AsI8(s[i]);
    }
  }

  /** Fills the 128-byte block in two loops. */
  method FromXid(x: Xid) returns (o: OciXid)
    requires x.Valid()
    ensures o == Packed(x) && |o.data| == DATA_SIZE
  {
    var g, b := x.gtrid, x.bqual;
    var data := new Int8[DATA_SIZE](_ => 0);
    Fill(data, 0, g);
    assert forall k :: 0 <= k < |g| ==> data[0 + k] == AsI8(g[k]);
    Fill(data, |g|, b);
    Laid(data[..], g, b);
    o := OciXid(x.formatId, |g|, |b|, data[..]);
  }

  lemma Laid(data: seq<Int8>, g: seq<Byte>, b: seq<Byte>)
    requires |data| == DATA_SIZE && |g| + |b| <= DATA_SIZE
    requires (forall k :: 0 <= k < |g| ==> data[k] == AsI8(g[k]))
    requires forall k :: 0 <= k < |b| ==> data[|g| + k] == AsI8(b[k])
    requires forall k :: |g| + |b| <= k < DATA_SIZE ==> data[k] == 0
    ensures data == Signed(g) + Signed(b) + Zeros(DATA_SIZE - |g| - |b|)
  {
    var all := Signed(g) + Signed(b) + Zeros(DATA_SIZE - |g| - |b|);
    forall k | 0 <= k < DATA_SIZE
      ensures data[k] == all[k]
    {
      if |g| <= k < |g| + |b| {
        assert data[|g| + (k - |g|)] == AsI8(b[k - |g|]);
      }
    }
  }

  /** A row with impossible lengths, or that is no XID, is skipped. */
  function Unpack(o: OciXid): (r: Option<Xid>)
    requires |o.data| == DATA_SIZE
  {
    var g, b := o.gtridLength, o.bqualLength;
    if g <= 0 || b < 0 || g + b > DATA_SIZE then None
    else NewXid(o.formatId, Unsigned(o.data[..g]), Unsigned(o.data[g..g + b]))
  }

  lemma UnsignedSigned(s: seq<Byte>)
    ensures Unsigned(Signed(s)) == s
  {
  }

  /** Packing any valid XID and unpacking it gives the same XID. */
  lemma PackRoundTrip(x: Xid)
    requires x.Valid()
    ensures Unpack(Packed(x)) == Some(x)
  {
    var o := Packed(x);
    assert o.data[..|x.gtrid|] == Signed(x.gtrid);
    assert o.data[|x.gtrid|..|x.gtrid| + |x.bqual|] == Signed(x.bqual);
    UnsignedSigned(x.gtrid);
    UnsignedSigned(x.bqual);
  }

  /** The XIDs in what `xa_recover` filled in, in order. */
  function Recovered(rows: seq<OciXid>): (r: seq<Xid>)
    requires forall i :: 0 <= i < |rows| ==> |rows[i].data| == DATA_SIZE
  {
    if rows == [] then []
    else
      var last := Unpack(rows[|rows| - 1]);
      Recovered(rows[..|rows| - 1]) + if last.Some? then [last.value] else []
  }

  /** At most `count` of the rows the caller made room for. */
  method RecoverOciXids(buffer: seq<OciXid>, count: nat) returns (out: seq<Xid>)
    requires forall i :: 0 <= i < |buffer| ==> |buffer[i].data| == DATA_SIZE
    ensures out == Recovered(buffer[..if count < |buffer| then count else |buffer|])
  {
    out := [];
    var n := if count < |buffer| then count else |buffer|;
    for i := 0 to n
      invariant out == Recovered(buffer[..i])
    {
      assert buffer[..i + 1][..i] == buffer[..i];
      var x := Unpack(buffer[i]);
      if x.Some? {
        out := out + [x.value];
      }
    }
  }

  function PackAll(xs: seq<Xid>): (rows: seq<OciXid>)
    requires forall i :: 0 <= i < |xs| ==> xs[i].Valid()
    ensures |rows| == |xs| && forall i :: 0 <= i < |rows| ==> |rows[i].data| == DATA_SIZE
  {
    if xs == [] then [] else PackAll(xs[..|xs| - 1]) + [Packed(xs[|xs| - 1])]
  }

  /** A resource manager that lists what was packed gives every XID back, in order. */
  lemma {:induction false} RecoveryRoundTrip(xs: seq<Xid>)
    requires forall i :: 0 <= i < |xs| ==> xs[i].Valid()
    ensures Recovered(PackAll(xs)) == xs
  {
    if xs != [] {
      var rest := xs[..|xs| - 1];
      RecoveryRoundTrip(rest);
      PackRoundTrip(xs[|xs| - 1]);
      assert PackAll(xs)[..|xs| - 1] == PackAll(rest);
      assert xs == rest + [xs[|xs| - 1]];
    }
  }

  // ---------------------------------------------------------------------
  // Open and close
  // ---------------------------------------------------------------------

  /** A call into the library, with its return code. */
  datatype Call = Open(rc: int) | Close(rc: int) | Start(rc: int) | End(rc: int) | PrepareCall(rc: int)
                | CommitCall(rc: int) | RollbackCall(rc: int)

  /** What the library will answer, call by call. */
  datatype Codes = Codes(end: int, verb: int, close: int)

  class OciXaBranch {
    var log: seq<Call>
    var terminated: bool

    constructor (calls: seq<Call>)
      ensures log == calls && !terminated
    {
      log, terminated := calls, false;
    }

    method Prepare(c: Codes) returns (ok: bool)
      requires !terminated
      modifies this
      ensures !terminated && log == old(log) + PrepareTrace(c)
      ensures ok <==> PrepareCall(0) in log[|old(log)|..]
    {
      log := log + [End(c.end)];
      if c.end != 0 {
        return false;
      }
      log := log + [PrepareCall(c.verb)];
      return c.verb == 0;
    }

    method Commit(c: Codes, drop: Codes) returns (ok: bool)
      requires !terminated
      modifies this
      ensures terminated && log == old(log) + EndTrace(Committing(c), drop)
      ensures ok <==> CommitCall(0) in log[|old(log)|..]
    {
      log := log + [CommitCall(c.verb)];
      log := log + [Close(c.close)];
      terminated := true;
      ok := c.verb == 0;
      Drop(drop);
    }

    method Rollback(c: Codes, drop: Codes) returns (ok: bool)
      requires !terminated
      modifies this
      ensures terminated && log == old(log) + EndTrace(RollingBack(c), drop)
      ensures ok <==> RollbackCall(0) in log[|old(log)|..]
    {
      log := log + [RollbackCall(c.verb)];
      log := log + [Close(c.close)];
      terminated := true;
      ok := c.verb == 0;
      Drop(drop);
    }

    /** A failed end leaves the branch to the drop. */
    method CommitOnePhase(c: Codes, drop: Codes) returns (ok: bool)
      requires !terminated
      modifies this
      ensures log == old(log) + EndTrace(OnePhase(c), drop) && (terminated <==> c.end == 0)
      ensures ok <==> CommitCall(0) in log[|old(log)|..]
    {
      log := log + [End(c.end)];
      if c.end != 0 {
        ok := false;
      } else {
        log := log + [CommitCall(c.verb)];
        log := log + [Close(c.close)];
        terminated := true;
        ok := c.verb == 0;
      }
      Drop(drop);
    }

    method Drop(c: Codes)
      modifies this
      ensures log == old(log) + (if old(terminated) then [] else EndTrace(Dropped, c)) && terminated == old(terminated)
    {
      if terminated {
        return;
      }
      log := log + [RollbackCall(c.verb)];
      log := log + [Close(c.close)];
    }
  }

  method BeginOciBranch(open: int, start: int, close: int) returns (branch: OciXaBranch?, log: seq<Call>)
    ensures log == BeginTrace(open, start, close)
    ensures branch != null <==> open == 0 && start == 0
    ensures branch != null ==> fresh(branch) && branch.log == log && !branch.terminated
  {
    log := [Open(open)];
    if open != 0 {
      return null, log;
    }
    log := log + [Start(start)];
    if start != 0 {
      log := log + [Close(close)];
      return null, log;
    }
    branch := new OciXaBranch(log);
  }

  datatype Ending = Committing(c: Codes) | RollingBack(c: Codes) | OnePhase(c: Codes) | Dropped

  function BeginTrace(open: int, start: int, close: int): (t: seq<Call>) {
    if open != 0 then [Open(open)]
    else if start != 0 then [Open(open), Start(start), Close(close)]
    else [Open(open), Start(start)]
  }

  function PrepareTrace(c: Codes): (t: seq<Call>) {
    if c.end != 0 then [End(c.end)] else [End(c.end), PrepareCall(c.verb)]
  }

  function EndTrace(e: Ending, drop: Codes): (t: seq<Call>) {
    match e
    case Committing(c) => [CommitCall(c.verb), Close(c.close)]
    case RollingBack(c) => [RollbackCall(c.verb), Close(c.close)]
    case OnePhase(c) =>
      if c.end != 0 then [End(c.end), RollbackCall(drop.verb), Close(drop.close)]
      else [End(c.end), CommitCall(c.verb), Close(c.close)]
    case Dropped => [RollbackCall(drop.verb), Close(drop.close)]
  }

  /** A whole life: begin, any number of prepares, and one of the ways out. */
  datatype Life = Life(open: int, start: int, close: int, prepares: seq<Codes>, ending: Ending, drop: Codes)

  function Prepares(cs: seq<Codes>): (t: seq<Call>) { if cs == [] then [] else PrepareTrace(cs[0]) + Prepares(cs[1..]) }

  function Trace(l: Life): (t: seq<Call>) {
    BeginTrace(l.open, l.start, l.close)
    + if l.open == 0 && l.start == 0 then Prepares(l.prepares) + EndTrace(l.ending, l.drop) else []
  }

  /** The effect of one call on the number of open sessions; a close without one is an error. */
  function After(c: Call, n: nat): (r: Option<nat>) {
    if c.Open? && c.rc == 0 then Some(n + 1)
    else if c.Close? then (if n == 0 then None else Some(n - 1))
    else Some(n)
  }

  function Sessions(t: seq<Call>, n: nat): (r: Option<nat>) {
    if t == [] then Some(n)
    else if After(t[0], n).None? then None
    else Sessions(t[1..], After(t[0], n).value)
  }

  lemma {:induction false} SessionsAppend(s: seq<Call>, t: seq<Call>, n: nat)
    ensures Sessions(s + t, n) == if Sessions(s, n).None? then None else Sessions(t, Sessions(s, n).value)
    decreases |s|
  {
    if s == [] {
      assert s + t == t;
    } else {
      assert (s + t)[1..] == s[1..] + t;
      if After(s[0], n).Some? {
        SessionsAppend(s[1..], t, After(s[0], n).value);
      }
    }
  }

  lemma One(c: Call, n: nat)
    ensures Sessions([c], n) == After(c, n)
  {
  }

  lemma Two(a: Call, b: Call, n: nat)
    ensures Sessions([a, b], n) == if After(a, n).None? then None else After(b, After(a, n).value)
  {
    assert [a, b][1..] == [b];
    if After(a, n).Some? {
      One(b, After(a, n).value);
    }
  }

  lemma Three(a: Call, b: Call, c: Call, n: nat)
    ensures Sessions([a, b, c], n) == if After(a, n).None? then None else Sessions([b, c], After(a, n).value)
  {
  }

  lemma {:induction false} PreparesKeep(cs: seq<Codes>, n: nat)
    ensures Sessions(Prepares(cs), n) == Some(n)
  {
    if cs != [] {
      SessionsAppend(PrepareTrace(cs[0]), Prepares(cs[1..]), n);
      One(End(cs[0].end), n);
      Two(End(cs[0].end), PrepareCall(cs[0].verb), n);
      PreparesKeep(cs[1..], n);
    }
  }

  lemma EndingCloses(e: Ending, drop: Codes)
    ensures Sessions(EndTrace(e, drop), 1) == Some(0)
  {
    var t := EndTrace(e, drop);
    if |t| == 3 {
      assert t == [t[0], t[1], t[2]];
      Three(t[0], t[1], t[2], 1);
      Two(t[1], t[2], 1);
    } else {
      assert t == [t[0], t[1]];
      Two(t[0], t[1], 1);
    }
  }

  lemma BeginOpens(open: int, start: int, close: int)
    ensures Sessions(BeginTrace(open, start, close), 0) == Some(if open == 0 && start == 0 then 1 else 0)
  {
    One(Open(open), 0);
    Two(Open(open), Start(start), 0);
    Three(Open(open), Start(start), Close(close), 0);
    Two(Start(start), Close(close), 1);
  }

  /** On every path each successful open is matched by exactly one later close, and no other close is made. */
  lemma OpenCloseMatched(l: Life)
    ensures Sessions(Trace(l), 0) == Some(0)
  {
    var b := BeginTrace(l.open, l.start, l.close);
    BeginOpens(l.open, l.start, l.close);
    if l.open == 0 && l.start == 0 {
      SessionsAppend(b, Prepares(l.prepares) + EndTrace(l.ending, l.drop), 0);
      SessionsAppend(Prepares(l.prepares), EndTrace(l.ending, l.drop), 1);
      PreparesKeep(l.prepares, 1);
      EndingCloses(l.ending, l.drop);
    } else {
      assert Trace(l) == b;
    }
  }

  // ---------------------------------------------------------------------
  // Verbs
  // ---------------------------------------------------------------------

  /** The decisions in a trace, in order. */
  function Decisions(t: seq<Call>): (d: seq<Call>) {
    if t == [] then [] else (if Decides(t[0]) then [t[0]] else []) + Decisions(t[1..])
  }

  predicate Decides(c: Call) { c.CommitCall? || c.RollbackCall? }

  lemma {:induction false} Splits(s: seq<Call>, t: seq<Call>)
    ensures Decisions(s + t) == Decisions(s) + Decisions(t)
    decreases |s|
  {
    if s == [] {
      assert s + t == t;
    } else {
      assert (s + t)[1..] == s[1..] + t && (s + t)[0] == s[0];
      Splits(s[1..], t);
      Grouped(if Decides(s[0]) then [s[0]] else [], Decisions(s[1..]), Decisions(t));
    }
  }

  lemma Grouped(a: seq<Call>, b: seq<Call>, c: seq<Call>)
    ensures a + (b + c) == (a + b) + c
  {
  }

  lemma {:induction false} PreparesDecideNothing(cs: seq<Codes>)
    ensures Decisions(Prepares(cs)) == []
  {
    if cs != [] {
      Splits(PrepareTrace(cs[0]), Prepares(cs[1..]));
      PreparesDecideNothing(cs[1..]);
      assert PrepareTrace(cs[0]) == [End(cs[0].end)] + if cs[0].end != 0 then [] else [PrepareCall(cs[0].verb)];
      Splits([End(cs[0].end)], if cs[0].end != 0 then [] else [PrepareCall(cs[0].verb)]);
    }
  }

  predicate Began(l: Life) { l.open == 0 && l.start == 0 }

  lemma EndDecides(e: Ending, drop: Codes)
    ensures var d := Decisions(EndTrace(e, drop));
            && |d| == 1
            && (d[0].CommitCall? <==> e.Committing? || (e.OnePhase? && e.c.end == 0))
            && d[0].rc == (if e.Dropped? || (e.OnePhase? && e.c.end != 0) then drop.verb else e.c.verb)
  {
    var t := EndTrace(e, drop);
    Splits(t[..1], t[1..]);
    assert t == t[..1] + t[1..];
    if |t| == 3 {
      Splits(t[1..][..1], t[1..][1..]);
      assert t[1..] == t[1..][..1] + t[1..][1..];
    }
  }

  /**
   * Over every life exactly one decision is sent, and none if the branch never began: a commit for a
   * commit or a one-phase commit whose end succeeded, with the code it answered; otherwise a rollback.
   */
  lemma OneDecision(l: Life)
    ensures var d := Decisions(Trace(l));
            if !Began(l) then d == []
            else d == [if l.ending.Committing? || (l.ending.OnePhase? && l.ending.c.end == 0)
                       then CommitCall(l.ending.c.verb)
                       else if l.ending.RollingBack? then RollbackCall(l.ending.c.verb)
                       else RollbackCall(l.drop.verb)]
  {
    var b := BeginTrace(l.open, l.start, l.close);
    BeginDecidesNothing(l.open, l.start, l.close);
    if Began(l) {
      Splits(b, Prepares(l.prepares) + EndTrace(l.ending, l.drop));
      Splits(Prepares(l.prepares), EndTrace(l.ending, l.drop));
      PreparesDecideNothing(l.prepares);
      EndDecides(l.ending, l.drop);
    } else {
      assert Trace(l) == b;
    }
  }

  lemma BeginDecidesNothing(open: int, start: int, close: int)
    ensures Decisions(BeginTrace(open, start, close)) == []
  {
    var t := BeginTrace(open, start, close);
    Splits(t[..1], t[1..]);
    assert t == t[..1] + t[1..];
    if |t| == 3 {
      Splits(t[1..][..1], t[1..][1..]);
      assert t[1..] == t[1..][..1] + t[1..][1..];
    }
  }

  // ---------------------------------------------------------------------
  // Order
  // ---------------------------------------------------------------------

  /** Which call may come directly after which. */
  predicate Follows(a: Call, b: Call) {
    match b
    case Open(_) => false
    case Start(_) => a == Open(0)
    case End(_) => a == Start(0) || a.End? || a.PrepareCall?
    case PrepareCall(_) => a == End(0)
    case CommitCall(_) => a == Start(0) || a.End? || a.PrepareCall?
    case RollbackCall(_) => a == Start(0) || a.End? || a.PrepareCall?
    case Close(_) => a.CommitCall? || a.RollbackCall? || (a.Start? && a.rc != 0)
  }

  predicate Chain(t: seq<Call>) { forall i :: 0 <= i < |t| - 1 ==> Follows(t[i], t[i + 1]) }

  lemma Linked(s: seq<Call>, t: seq<Call>)
    requires Chain(s) && Chain(t) && (s != [] && t != [] ==> Follows(s[|s| - 1], t[0]))
    ensures Chain(s + t)
  {
    var u := s + t;
    forall i | 0 <= i < |u| - 1
      ensures Follows(u[i], u[i + 1])
    {
      if i >= |s| {
        assert u[i] == t[i - |s|] && u[i + 1] == t[i - |s| + 1];
      }
    }
  }

  predicate Working(c: Call) { c.End? || c.PrepareCall? }

  lemma {:induction false} PreparesInOrder(cs: seq<Codes>)
    ensures var t := Prepares(cs); Chain(t) && (t != [] ==> t[0].End? && Working(t[|t| - 1]))
  {
    if cs != [] {
      PreparesInOrder(cs[1..]);
      Linked(PrepareTrace(cs[0]), Prepares(cs[1..]));
    }
  }

  /** Over every life the calls come in order: open, start, each prepare right after an end that
      succeeded, the decision, and the close last. */
  lemma CallsInOrder(l: Life)
    ensures var t := Trace(l);
            && t[0] == Open(l.open) && Chain(t) && (l.open == 0 ==> t[|t| - 1].Close?)
            && (Began(l) && l.ending.OnePhase? && l.ending.c.end == 0 ==> |t| >= 3 && t[|t| - 3] == End(0))
  {
    var b := BeginTrace(l.open, l.start, l.close);
    if Began(l) {
      var work, end := Prepares(l.prepares), EndTrace(l.ending, l.drop);
      PreparesInOrder(l.prepares);
      Linked(work, end);
      Linked(b, work + end);
    } else {
      assert Trace(l) == b;
    }
  }

  /** Unlike the SQL path, dropping a branch that was prepared rolls it back. */
  lemma DropRollsBackPrepared(start: Codes, drop: Codes)
    requires start.end == 0 && start.verb == 0
    ensures Trace(Life(0, 0, 0, [start], Dropped, drop)) ==
              [Open(0), Start(0), End(0), PrepareCall(0), RollbackCall(drop.verb), Close(drop.close)]
  {
    assert [start][1..] == [];
    assert Prepares([start]) == PrepareTrace(start);
  }
}
