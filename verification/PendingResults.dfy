/**
 * Results that did not fit the caller's buffer. A call looks for a kept result first; otherwise it
 * executes, with the global lock released, and either answers or keeps what it got.
 */
module PendingResults {
  import opened Xids
  import opened IdAllocator

  type U64 = x: int | 0 <= x < 0x1_0000_0000_0000_0000

  /** Two seconds, in nanoseconds. */
  const PENDING_RESULT_TTL := 2_000_000_000

  /** A query entry point with its arguments. */
  datatype Query =
    | ExecQuery(conn: U32, sql: string)
    | ExecQueryParams(conn: U32, sql: string, params: Bytes)
    | ExecQueryMulti(conn: U32, sql: string)
    | ExecQueryMultiParams(conn: U32, sql: string, params: Bytes)
    | Execute(stmt: U32, params: Bytes, timeout: U32, fetchSize: U32)

  datatype Key =
    | KQuery(conn: U32, sql: U64)
    | KParams(conn: U32, sql: U64, params: U64)
    | KMulti(conn: U32, sql: U64)
    | KExecute(stmt: U32, params: U64, timeout: U32, fetchSize: U32)

  function ParamsHash(hb: Bytes -> U64, p: Bytes): (h: U64) { if p == [] then 0 else hb(p) }

  /** Both parameterised entry points build the same kind of key. */
  function KeyOf(hs: string -> U64, hb: Bytes -> U64, q: Query): (k: Key) {
    match q
    case ExecQuery(c, s) => KQuery(c, hs(s))
    case ExecQueryParams(c, s, p) => KParams(c, hs(s), ParamsHash(hb, p))
    case ExecQueryMulti(c, s) => KMulti(c, hs(s))
    case ExecQueryMultiParams(c, s, p) => KParams(c, hs(s), ParamsHash(hb, p))
    case Execute(st, p, t, f) => KExecute(st, ParamsHash(hb, p), t, f)
  }

  datatype Entry = Entry(data: Bytes, createdAt: nat)

  /** A call that is executing outside the lock. */
  datatype Flight = Flight(key: Key, buf: nat)

  /** The history: what executions produced and what became of each result. */
  datatype Note =
    | Executed(key: Key, data: Bytes)
    | Delivered(key: Key, data: Bytes)
    | Expired(key: Key, data: Bytes)
    | Overwritten(key: Key, data: Bytes)
    | Purged(lost: map<Key, Entry>)

  /** A history in the order it was made, latest first. */
  datatype Log = Start | Then(note: Note, before: Log)

  datatype Store = Store(pending: map<Key, Entry>, flights: map<nat, Flight>, log: Log)

  datatype Event =
    | Begin(call: nat, key: Key, buf: nat, now: nat)
    | Finish(call: nat, result: Option<Bytes>, now: nat)
    | CloseStatement(stmt: U32)
    | ClearStatements
    | Disconnect(conn: U32, stmts: set<U32>)

  datatype Code = Answered(data: Bytes) | TooSmall | Late | Miss

  function Age(e: Entry, now: nat): (n: nat) { if now <= e.createdAt then 0 else now - e.createdAt }

  /** Looking for a kept result: what the map becomes and what the caller is told. */
  function TryWrite(pending: map<Key, Entry>, key: Key, buf: nat, now: nat): (r: (map<Key, Entry>, Code)) {
    if key !in pending then (pending, Miss)
    else
      var e := pending[key];
      if Age(e, now) > PENDING_RESULT_TTL then (pending - {key}, Late)
      else if |e.data| > buf then (pending, TooSmall)
      else (pending - {key}, Answered(e.data))
  }

  function Purge(s: Store, gone: Key -> bool): (r: Store) {
    Note1(s, Purged(map k | k in s.pending && gone(k) :: s.pending[k]))
      .(pending := map k | k in s.pending && !gone(k) :: s.pending[k])
  }

  predicate OfConnection(k: Key, conn: U32, stmts: set<U32>) {
    if k.KExecute? then k.stmt in stmts else k.conn == conn
  }

  function BeginStep(s: Store, call: nat, key: Key, buf: nat, now: nat): (r: Store) {
    if call in s.flights then s
    else
      var (pending, code) := TryWrite(s.pending, key, buf, now);
      match code
      case Miss => s.(flights := s.flights[call := Flight(key, buf)])
      case TooSmall => s
      case Late => Note1(s, Expired(key, s.pending[key].data)).(pending := pending)
      case Answered(d) => Note1(s, Delivered(key, d)).(pending := pending)
  }

  /** The history gains a note. */
  function Note1(s: Store, n: Note): (r: Store) { s.(log := Then(n, s.log)) }

  /** Keeping a result displaces one already kept under its key. */
  function Keep(s: Store, key: Key, d: Bytes, now: nat): (r: Store) {
    var s1 := if key in s.pending then Note1(s, Overwritten(key, s.pending[key].data)) else s;
    Note1(s1, Executed(key, d)).(pending := s.pending[key := Entry(d, now)])
  }

  function FinishStep(s: Store, call: nat, result: Option<Bytes>, now: nat): (r: Store) {
    if call !in s.flights then s
    else
      var f := s.flights[call];
      var s1 := s.(flights := s.flights - {call});
      if result.None? then s1
      else
        var d := result.value;
        if |d| <= f.buf then Note1(Note1(s1, Executed(f.key, d)), Delivered(f.key, d))
        else Keep(s1, f.key, d, now)
  }

  function Step(s: Store, e: Event): (r: Store) {
    match e
    case Begin(call, key, buf, now) => BeginStep(s, call, key, buf, now)
    case Finish(call, result, now) => FinishStep(s, call, result, now)
    case CloseStatement(st) => Purge(s, (k: Key) => k.KExecute? && k.stmt == st)
    case ClearStatements => Purge(s, (k: Key) => k.KExecute?)
    case Disconnect(c, stmts) => Purge(s, (k: Key) => OfConnection(k, c, stmts))
  }

  function Run(s: Store, es: seq<Event>): (r: Store)
    decreases |es|
  {
    if es == [] then s else Run(Step(s, es[0]), es[1..])
  }

  const INIT := Store(map[], map[], Log.Start)

  // ---------------------------------------------------------------------
  // Conservation, key by key
  // ---------------------------------------------------------------------

  /** How often executions of key `k` produced the result `d`. */
  function Produced(log: Log, k: Key, d: Bytes): (n: nat) {
    if log.Start? then 0 else Produced(log.before, k, d) + ProducedBy(log.note, k, d)
  }

  function ProducedBy(note: Note, k: Key, d: Bytes): (n: nat) { if note == Executed(k, d) then 1 else 0 }

  /** How often such a result was handed over, or ended otherwise. */
  function Settled(log: Log, k: Key, d: Bytes): (n: nat) {
    if log.Start? then 0 else Settled(log.before, k, d) + SettledBy(log.note, k, d)
  }

  function SettledBy(note: Note, k: Key, d: Bytes): (n: nat) {
    match note
    case Executed(_, _) => 0
    case Purged(lost) => Kept(lost, k, d)
    case _ => if note.key == k && note.data == d then 1 else 0
  }

  function Kept(pending: map<Key, Entry>, k: Key, d: Bytes): (n: nat) {
    if k in pending && pending[k].data == d then 1 else 0
  }

  /** Every result produced under a key was handed over, expired, was purged or overwritten, or is kept. */
  predicate Balanced(s: Store, k: Key, d: Bytes) {
    Produced(s.log, k, d) == Settled(s.log, k, d) + Kept(s.pending, k, d)
  }

  /** How far the account is off: zero when it balances. */
  function Excess(s: Store, k: Key, d: Bytes): (n: int) {
    Produced(s.log, k, d) - Settled(s.log, k, d) - Kept(s.pending, k, d)
  }

  lemma NoteExcess(s: Store, n: Note, pending: map<Key, Entry>, k: Key, d: Bytes)
    ensures Excess(Note1(s, n).(pending := pending), k, d) ==
              Excess(s, k, d) + ProducedBy(n, k, d) - SettledBy(n, k, d) + Kept(s.pending, k, d) - Kept(pending, k, d)
  {
  }

  lemma BeginBalanced(s: Store, call: nat, key: Key, buf: nat, now: nat, k: Key, d: Bytes)
    requires Excess(s, k, d) == 0
    ensures Excess(BeginStep(s, call, key, buf, now), k, d) == 0
  {
    if key in s.pending {
      NoteExcess(s, Expired(key, s.pending[key].data), s.pending - {key}, k, d);
      NoteExcess(s, Delivered(key, s.pending[key].data), s.pending - {key}, k, d);
    }
  }

  lemma KeepBalanced(s: Store, key: Key, r: Bytes, now: nat, k: Key, d: Bytes)
    requires Excess(s, k, d) == 0
    ensures Excess(Keep(s, key, r, now), k, d) == 0
  {
    var after := s.pending[key := Entry(r, now)];
    if key in s.pending {
      var lost := Overwritten(key, s.pending[key].data);
      NoteExcess(s, lost, s.pending, k, d);
      NoteExcess(Note1(s, lost), Executed(key, r), after, k, d);
    } else {
      NoteExcess(s, Executed(key, r), after, k, d);
    }
  }

  lemma AnswerBalanced(s: Store, key: Key, r: Bytes, k: Key, d: Bytes)
    requires Excess(s, k, d) == 0
    ensures Excess(Note1(Note1(s, Executed(key, r)), Delivered(key, r)), k, d) == 0
  {
    NoteExcess(s, Executed(key, r), s.pending, k, d);
    NoteExcess(Note1(s, Executed(key, r)), Delivered(key, r), s.pending, k, d);
  }

  lemma FinishBalanced(s: Store, call: nat, result: Option<Bytes>, now: nat, k: Key, d: Bytes)
    requires Excess(s, k, d) == 0
    ensures Excess(FinishStep(s, call, result, now), k, d) == 0
  {
    if call in s.flights && result.Some? {
      var s1 := s.(flights := s.flights - {call});
      assert Excess(s1, k, d) == 0;
      AnswerBalanced(s1, s.flights[call].key, result.value, k, d);
      KeepBalanced(s1, s.flights[call].key, result.value, now, k, d);
    }
  }

  lemma PurgeBalanced(s: Store, gone: Key -> bool, k: Key, d: Bytes)
    requires Excess(s, k, d) == 0
    ensures Excess(Purge(s, gone), k, d) == 0
  {
  }

  lemma StepBalanced(s: Store, e: Event, k: Key, d: Bytes)
    requires Excess(s, k, d) == 0
    ensures Excess(Step(s, e), k, d) == 0
  {
    match e
    case Begin(call, key, buf, now) => BeginBalanced(s, call, key, buf, now, k, d);
    case Finish(call, result, now) => FinishBalanced(s, call, result, now, k, d);
    case CloseStatement(st) => PurgeBalanced(s, (j: Key) => j.KExecute? && j.stmt == st, k, d);
    case ClearStatements => PurgeBalanced(s, (j: Key) => j.KExecute?, k, d);
    case Disconnect(c, stmts) => PurgeBalanced(s, (j: Key) => OfConnection(j, c, stmts), k, d);
  }

  /** Over every run, however calls overlap, and for every key. */
  lemma {:induction false} Conservation(s: Store, es: seq<Event>, k: Key, d: Bytes)
    requires Excess(s, k, d) == 0
    ensures Excess(Run(s, es), k, d) == 0
    decreases |es|
  {
    if es != [] {
      StepBalanced(s, es[0], k, d);
      Conservation(Step(s, es[0]), es[1..], k, d);
    }
  }

  lemma ConservationFromStart(es: seq<Event>, k: Key, d: Bytes)
    ensures Balanced(Run(INIT, es), k, d)
  {
    Conservation(INIT, es, k, d);
    assert Excess(Run(INIT, es), k, d) == 0;
  }

  // ---------------------------------------------------------------------
  // Overwriting
  // ---------------------------------------------------------------------

  predicate NoOverwrite(log: Log) { log.Then? ==> !log.note.Overwritten? && NoOverwrite(log.before) }

  /** A key is executing at most once at a time, and then nothing is kept under it. */
  predicate Exclusive(s: Store) {
    forall c :: c in s.flights ==>
      && s.flights[c].key !in s.pending
      && forall d :: d in s.flights && d != c ==> s.flights[d].key != s.flights[c].key
  }

  /** No call starts on a key that is already executing. */
  predicate Sequential(s: Store, es: seq<Event>)
    decreases |es|
  {
    es != [] ==>
      && (es[0].Begin? ==> forall c :: c in s.flights ==> s.flights[c].key != es[0].key)
      && Sequential(Step(s, es[0]), es[1..])
  }

  lemma ExclusiveStep(s: Store, e: Event)
    requires Exclusive(s) && (e.Begin? ==> forall c :: c in s.flights ==> s.flights[c].key != e.key)
    ensures Exclusive(Step(s, e))
  {
  }

  /** Then no result is overwritten: each execution is delivered, expired, purged or still kept. */
  lemma {:induction false} SequentialNeverOverwrites(s: Store, es: seq<Event>)
    requires Exclusive(s) && Sequential(s, es) && NoOverwrite(s.log)
    ensures NoOverwrite(Run(s, es).log)
    decreases |es|
  {
    if es != [] {
      ExclusiveStep(s, es[0]);
      SequentialNeverOverwrites(Step(s, es[0]), es[1..]);
    }
  }

  /**
   * The condition is needed, from every state: a call that starts to execute on a key on which `other`
   * is executing can be followed by two large results, and then the first of them is overwritten.
   */
  lemma OverlapOverwrites(s: Store, other: nat, call: nat, buf: nat, now: nat, a: Bytes, b: Bytes)
    requires other in s.flights && s.flights[other].key !in s.pending && call !in s.flights
    requires |a| > s.flights[other].buf && |b| > buf
    ensures var k := s.flights[other].key;
            var s' := Run(s, [Begin(call, k, buf, now), Finish(other, Some(a), now), Finish(call, Some(b), now)]);
            && s'.pending == s.pending[k := Entry(b, now)] && !NoOverwrite(s'.log)
            && s'.log == Then(Executed(k, b), Then(Overwritten(k, a), Then(Executed(k, a), s.log)))
  {
    var k := s.flights[other].key;
    var e0, e1, e2 := Begin(call, k, buf, now), Finish(other, Some(a), now), Finish(call, Some(b), now);
    var s1 := Step(s, e0);
    assert s1 == s.(flights := s.flights[call := Flight(k, buf)]);
    var s2 := Step(s1, e1);
    assert s2.pending == s.pending[k := Entry(a, now)] && s2.log == Then(Executed(k, a), s.log);
    var s3 := Step(s2, e2);
    assert s3.log.before.note == Overwritten(k, a);
    assert [e0, e1, e2][1..] == [e1, e2] && [e1, e2][1..] == [e2] && [e2][1..] == [];
    assert Run(s2, [e2]) == s3 && Run(s1, [e1, e2]) == Run(s2, [e2]);
  }

  // ---------------------------------------------------------------------
  // Retries
  // ---------------------------------------------------------------------

  /** Events that leave a kept result of `k` alone: too-small or foreign calls and foreign purges. */
  predicate Harmless(e: Event, k: Key, kept: Entry) {
    match e
    case Begin(_, key, buf, now) => key == k ==> |kept.data| > buf && Age(kept, now) <= PENDING_RESULT_TTL
    case Finish(_, _, _) => true
    case CloseStatement(st) => !(k.KExecute? && k.stmt == st)
    case ClearStatements => !k.KExecute?
    case Disconnect(c, stmts) => !OfConnection(k, c, stmts)
  }

  predicate Resting(s: Store, k: Key, kept: Entry) {
    k in s.pending && s.pending[k] == kept && forall c :: c in s.flights ==> s.flights[c].key != k
  }

  /** The same executions, as far as `k` goes. */
  ghost predicate SameProduced(log: Log, log': Log, k: Key) {
    forall d :: Produced(log', k, d) == Produced(log, k, d)
  }

  lemma Foreign(log: Log, n: Note, k: Key)
    requires !(n.Executed? && n.key == k)
    ensures SameProduced(log, Then(n, log), k)
  {
  }

  lemma RestingStep(s: Store, e: Event, k: Key, kept: Entry)
    requires Resting(s, k, kept) && Harmless(e, k, kept)
    ensures Resting(Step(s, e), k, kept) && SameProduced(s.log, Step(s, e).log, k)
  {
    match e
    case Begin(call, key, buf, now) => RestingBegin(s, call, key, buf, now, k, kept);
    case Finish(call, result, now) => RestingFinish(s, call, result, now, k, kept);
    case CloseStatement(st) => RestingPurge(s, (j: Key) => j.KExecute? && j.stmt == st, k, kept);
    case ClearStatements => RestingPurge(s, (j: Key) => j.KExecute?, k, kept);
    case Disconnect(c, stmts) => RestingPurge(s, (j: Key) => OfConnection(j, c, stmts), k, kept);
  }

  lemma RestingBegin(s: Store, call: nat, key: Key, buf: nat, now: nat, k: Key, kept: Entry)
    requires Resting(s, k, kept) && Harmless(Begin(call, key, buf, now), k, kept)
    ensures var s' := BeginStep(s, call, key, buf, now);
            Resting(s', k, kept) && SameProduced(s.log, s'.log, k)
  {
  }

  lemma RestingFinish(s: Store, call: nat, result: Option<Bytes>, now: nat, k: Key, kept: Entry)
    requires Resting(s, k, kept)
    ensures var s' := FinishStep(s, call, result, now);
            Resting(s', k, kept) && SameProduced(s.log, s'.log, k)
  {
  }

  lemma RestingPurge(s: Store, gone: Key -> bool, k: Key, kept: Entry)
    requires Resting(s, k, kept) && !gone(k)
    ensures Resting(Purge(s, gone), k, kept) && SameProduced(s.log, Purge(s, gone).log, k)
  {
  }

  /** Any number of too-small retries, other calls and other purges leave a kept result as it was. */
  lemma {:induction false} RestingRun(s: Store, es: seq<Event>, k: Key, kept: Entry)
    requires Resting(s, k, kept) && forall i :: 0 <= i < |es| ==> Harmless(es[i], k, kept)
    ensures Resting(Run(s, es), k, kept) && SameProduced(s.log, Run(s, es).log, k)
    decreases |es|
  {
    if es != [] {
      RestingStep(s, es[0], k, kept);
      RestingRun(Step(s, es[0]), es[1..], k, kept);
    }
  }

  /** A retry in time then answers exactly the kept bytes, and the query was not executed again. */
  lemma RetryAnswersKept(s: Store, es: seq<Event>, k: Key, kept: Entry, call: nat, buf: nat, now: nat)
    requires Resting(s, k, kept) && forall i :: 0 <= i < |es| ==> Harmless(es[i], k, kept)
    requires |kept.data| <= buf && Age(kept, now) <= PENDING_RESULT_TTL && call !in Run(s, es).flights
    ensures var s1 := Run(s, es); var s' := Step(s1, Begin(call, k, buf, now));
            && s' == s1.(pending := s1.pending - {k}, log := Then(Delivered(k, kept.data), s1.log))
            && SameProduced(s.log, s'.log, k)
  {
    RestingRun(s, es, k, kept);
    Foreign(Run(s, es).log, Delivered(k, kept.data), k);
  }

  /** A call that finds nothing kept executes: a result that fits its buffer is handed over and not
      kept, a larger one is kept under its key, as of now. */
  lemma FirstCall(s: Store, call: nat, k: Key, buf: nat, begun: nat, d: Bytes, now: nat)
    requires k !in s.pending && call !in s.flights
    ensures var s' := Step(Step(s, Begin(call, k, buf, begun)), Finish(call, Some(d), now));
            && s'.flights == s.flights
            && (if |d| <= buf
                then s'.pending == s.pending && s'.log == Then(Delivered(k, d), Then(Executed(k, d), s.log))
                else s'.pending == s.pending[k := Entry(d, now)] && s'.log == Then(Executed(k, d), s.log))
  {
    var s1 := Step(s, Begin(call, k, buf, begun));
    assert s1 == s.(flights := s.flights[call := Flight(k, buf)]);
    assert s1.flights - {call} == s.flights;
  }

  // ---------------------------------------------------------------------
  // Expiry
  // ---------------------------------------------------------------------

  /** A late retry gets no bytes: the result is noted as expired and dropped, and the next call on the
      key executes. */
  lemma LateRetry(s: Store, call: nat, k: Key, buf: nat, now: nat, next: nat, nextBuf: nat, later: nat)
    requires k in s.pending && call !in s.flights && next !in s.flights
    requires now > s.pending[k].createdAt + 2_000_000_000
    ensures var s' := Step(s, Begin(call, k, buf, now));
            && s' == s.(pending := s.pending - {k}, log := Then(Expired(k, s.pending[k].data), s.log))
            && TryWrite(s.pending, k, buf, now).1.Late?
            && Step(s', Begin(next, k, nextBuf, later)) == s'.(flights := s'.flights[next := Flight(k, nextBuf)])
  {
  }

  /** Event `i` of a run kept this entry: it ended an execution of the key with these bytes at that time. */
  ghost predicate KeptBy(es: seq<Event>, i: nat, k: Key, e: Entry) {
    && i < |es| && es[i].Finish? && es[i].result == Some(e.data) && es[i].now == e.createdAt
    && es[i].call in Run(INIT, es[..i]).flights && Run(INIT, es[..i]).flights[es[i].call].key == k
  }

  lemma {:induction false} RunSnoc(s: Store, es: seq<Event>, e: Event)
    ensures Run(s, es + [e]) == Step(Run(s, es), e)
    decreases |es|
  {
    if es == [] {
      assert ([] + [e])[1..] == [];
    } else {
      RunSnoc(Step(s, es[0]), es[1..], e);
      assert (es + [e])[1..] == es[1..] + [e];
    }
  }

  lemma KeptStep(s: Store, e: Event, k: Key)
    requires k in Step(s, e).pending && !(k in s.pending && Step(s, e).pending[k] == s.pending[k])
    ensures e.Finish? && e.call in s.flights && s.flights[e.call].key == k
    ensures e.result == Some(Step(s, e).pending[k].data) && e.now == Step(s, e).pending[k].createdAt
  {
  }

  lemma {:induction false} KeptOnce(es: seq<Event>, k: Key) returns (i: nat)
    requires k in Run(INIT, es).pending
    ensures KeptBy(es, i, k, Run(INIT, es).pending[k])
    decreases |es|
  {
    var most, e := es[..|es| - 1], es[|es| - 1];
    assert es == most + [e];
    RunSnoc(INIT, most, e);
    var s := Run(INIT, most);
    if k in s.pending && Step(s, e).pending[k] == s.pending[k] {
      i := KeptOnce(most, k);
      assert es[..i] == most[..i];
    } else {
      KeptStep(s, e, k);
      i := |most|;
    }
  }

  /** In every run, bytes handed over from the stash came from an execution of that very key that had
      ended at most two seconds before. */
  lemma FreshAnswer(es: seq<Event>, k: Key, buf: nat, now: nat) returns (i: nat)
    requires TryWrite(Run(INIT, es).pending, k, buf, now).1.Answered?
    ensures KeptBy(es, i, k, Run(INIT, es).pending[k])
    ensures es[i].result == Some(TryWrite(Run(INIT, es).pending, k, buf, now).1.data)
    ensures now <= es[i].now + 2_000_000_000
  {
    i := KeptOnce(es, k);
  }

  // ---------------------------------------------------------------------
  // Purges
  // ---------------------------------------------------------------------

  /** Closing a statement, clearing all of them or disconnecting drops exactly their results. */
  lemma PurgeExact(s: Store, e: Event, k: Key)
    requires e.CloseStatement? || e.ClearStatements? || e.Disconnect?
    ensures k in Step(s, e).pending <==>
              k in s.pending && match e
                                case CloseStatement(st) => !(k.KExecute? && k.stmt == st)
                                case ClearStatements => !k.KExecute?
                                case Disconnect(c, stmts) => if k.KExecute? then k.stmt !in stmts else k.conn != c
  {
  }

  // ---------------------------------------------------------------------
  // Keys
  // ---------------------------------------------------------------------

  function SqlOf(q: Query): (s: string) { if q.Execute? then "" else q.sql }

  function ParamsOf(q: Query): (p: Bytes) { if q.ExecQuery? || q.ExecQueryMulti? then [] else q.params }

  /**
   * Unless a hash collides, two calls share a key exactly when they are the same call, or the single-
   * and multi-result forms of one parameterised query: there a retry may get the other form's bytes.
   */
  lemma KeyClash(hs: string -> U64, hb: Bytes -> U64, a: Query, b: Query)
    requires hs(SqlOf(a)) == hs(SqlOf(b)) ==> SqlOf(a) == SqlOf(b)
    requires ParamsHash(hb, ParamsOf(a)) == ParamsHash(hb, ParamsOf(b)) ==> ParamsOf(a) == ParamsOf(b)
    ensures KeyOf(hs, hb, a) == KeyOf(hs, hb, b) <==>
              || a == b
              || (a.ExecQueryParams? && b == ExecQueryMultiParams(a.conn, a.sql, a.params))
              || (b.ExecQueryParams? && a == ExecQueryMultiParams(b.conn, b.sql, b.params))
  {
  }

  /** Parameters go into a key by their hash, and by zero if there are none. */
  lemma ParamsInKey(hs: string -> U64, hb: Bytes -> U64, c: U32, q: string, p: Bytes)
    ensures KeyOf(hs, hb, ExecQueryParams(c, q, [])) == KParams(c, hs(q), 0)
    ensures p != [] ==> KeyOf(hs, hb, ExecQueryParams(c, q, p)) == KParams(c, hs(q), hb(p))
  {
  }

  // ---------------------------------------------------------------------
  // The object
  // ---------------------------------------------------------------------

  class ResultStash {
    var pending: map<Key, Entry>

    constructor ()
      ensures pending == map[]
    {
      pending := map[];
    }

    method TryWritePending(key: Key, buf: nat, now: nat) returns (code: Code)
      modifies this
      ensures (pending, code) == TryWrite(old(pending), key, buf, now)
    {
      if key !in pending {
        return Miss;
      }
      var entry := pending[key];
      pending := pending - {key};
      if Age(entry, now) > PENDING_RESULT_TTL {
        return Late;
      }
      if |entry.data| > buf {
        pending := pending[key := entry];
        assert pending == old(pending);
        return TooSmall;
      }
      return Answered(entry.data);
    }

    method Stash(key: Key, data: Bytes, now: nat)
      modifies this
      ensures pending == old(pending)[key := Entry(data, now)]
    {
      pending := pending[key := Entry(data, now)];
    }
  }
}
