/** The database side of two-phase commit: branches, the statements the engine sends,
    and every way a statement can go wrong. */
module ResourceManager {
  import opened Xids
  import opened XidText

  datatype Engine = Postgres | MySqlFamily | Oracle | SqlServer | OtherEngine

  /** A branch as the resource manager knows it: by the text it was given. */
  datatype BranchName =
    | Gid(text: string)
    | SqlXid(gtridHex: string, bqualHex: string, sqlFormat: Int32)
    | RawXid(oraFormat: Int32, globalHex: string, branchHex: string)
    | Session(conn: nat)  // PostgreSQL: a transaction has no name until it is prepared

  function NameOf(e: Engine, x: Xid): (n: BranchName) {
    match e
    case Postgres => Gid(EncodePostgres(x))
    case Oracle => RawXid(x.formatId, HexOf(x.gtrid, true), HexOf(x.bqual, true))
    case _ => SqlXid(HexOf(x.gtrid, false), HexOf(x.bqual, false), x.formatId)
  }

  /** Two different identifiers never address the same branch. */
  lemma NameInjective(e: Engine, x: Xid, y: Xid)
    requires x.Valid() && y.Valid() && NameOf(e, x) == NameOf(e, y)
    ensures x == y
  {
    match e
    case Postgres =>
      PostgresRoundTrip(x);
      PostgresRoundTrip(y);
    case Oracle =>
      HexRoundTrip(x.gtrid, true);
      HexRoundTrip(x.bqual, true);
      HexRoundTrip(y.gtrid, true);
      HexRoundTrip(y.bqual, true);
    case _ =>
      HexRoundTrip(x.gtrid, false);
      HexRoundTrip(x.bqual, false);
      HexRoundTrip(y.gtrid, false);
      HexRoundTrip(y.bqual, false);
  }

  predicate IsDigitOf(c: char, upper: bool) { '0' <= c <= '9' || (if upper then 'A' <= c <= 'F' else 'a' <= c <= 'f') }

  predicate Spelled(s: string, upper: bool) { forall i :: 0 <= i < |s| ==> IsDigitOf(s[i], upper) }

  lemma LutSpelled(n: int, upper: bool)
    requires 0 <= n < 16
    ensures IsDigitOf(Lut(upper)[n], upper)
  {
  }

  lemma {:induction false} HexSpelled(bytes: seq<Byte>, upper: bool)
    ensures Spelled(HexOf(bytes, upper), upper)
  {
    if bytes != [] {
      var b := bytes[|bytes| - 1];
      HexSpelled(bytes[..|bytes| - 1], upper);
      LutSpelled(b / 16, upper);
      LutSpelled(b % 16, upper);
      assert Spelled(DigitPair(b, upper), upper);
    }
  }

  /** The MySQL family gets the two parts in lower-case hexadecimal, Oracle in upper case; either way they
      say exactly the identifier's bytes, and the format goes along. */
  lemma NameSpelled(x: Xid)
    ensures var n := NameOf(MySqlFamily, x);
            && Spelled(n.gtridHex, false) && Spelled(n.bqualHex, false) && n.sqlFormat == x.formatId
            && Unhex(n.gtridHex) == Some(x.gtrid) && Unhex(n.bqualHex) == Some(x.bqual)
    ensures var n := NameOf(Oracle, x);
            && Spelled(n.globalHex, true) && Spelled(n.branchHex, true) && n.oraFormat == x.formatId
            && Unhex(n.globalHex) == Some(x.gtrid) && Unhex(n.branchHex) == Some(x.bqual)
  {
    HexSpelled(x.gtrid, false);
    HexSpelled(x.bqual, false);
    HexSpelled(x.gtrid, true);
    HexSpelled(x.bqual, true);
    HexRoundTrip(x.gtrid, false);
    HexRoundTrip(x.bqual, false);
    HexRoundTrip(x.gtrid, true);
    HexRoundTrip(x.bqual, true);
  }

  /** Branch states S1 to S4 of the XA state tables; S0 is absence from the map. */
  datatype Phase = S1Active(conn: nat) | S2Idle(conn: nat) | S3Prepared | S4RollbackOnly(conn: nat)

  /** The serial tells apart successive branches that reuse one name. */
  datatype Branch = Branch(serial: nat, phase: Phase)

  datatype Outcome = DidCommit | DidRollback | DidReadOnly

  /** `named` remembers, for good, the name each branch was made under. */
  datatype Rm = Rm(
    branches: map<BranchName, Branch>,
    outcome: map<nat, Outcome>,
    nextSerial: nat,
    named: map<nat, BranchName>)

  const EMPTY := Rm(map[], map[], 0, map[])

  datatype XaOp = OpStart | OpEnd | OpPrepare | OpCommitOnePhase | OpCommit | OpRollback

  datatype Rc = XaOk | XaRdOnly | XaRolledBack | XaerNota | XaerProto | XaerDupId | XaerRmFail

  /** What befalls one statement: obeyed, obeyed but the reply is lost, refused with no effect,
      rolled back by the resource manager, or found to be read-only. */
  datatype Fate = Obey | LoseReply | Refuse | RmAborts | ReadOnly

  datatype Statement =
    | XaCall(op: XaOp, name: BranchName, allow: set<Rc>)
    | EndThenRollback(name: BranchName)
    | PgBegin | PgCommit | PgRollback
    | PgPrepare(gid: string) | PgCommitPrepared(gid: string) | PgRollbackPrepared(gid: string)

  function SetPhase(rm: Rm, n: BranchName, p: Phase): (r: Rm)
    requires n in rm.branches
  {
    rm.(branches := rm.branches[n := rm.branches[n].(phase := p)])
  }

  function Finish(rm: Rm, n: BranchName, o: Outcome): (r: Rm)
    requires n in rm.branches
  {
    rm.(branches := rm.branches - {n}, outcome := rm.outcome[rm.branches[n].serial := o])
  }

  function Create(rm: Rm, n: BranchName, c: nat): (r: Rm)
    requires n !in rm.branches
  {
    rm.(branches := rm.branches[n := Branch(rm.nextSerial, S1Active(c))], nextSerial := rm.nextSerial + 1,
        named := rm.named[rm.nextSerial := n])
  }

  /** Gives the session's unnamed transaction a name that outlives the session. */
  function Rename(rm: Rm, c: nat, n: BranchName): (r: Rm)
    requires Session(c) in rm.branches && n !in rm.branches
  {
    rm.(branches := (rm.branches - {Session(c)})[n := Branch(rm.branches[Session(c)].serial, S3Prepared)])
  }

  /** One cell of the XA state tables: the call `op` on branch `n` from connection `c`. */
  function Table(rm: Rm, c: nat, op: XaOp, n: BranchName, fate: Fate): (r: (Rm, Rc)) {
    if fate.Refuse? then (rm, XaerRmFail)
    else if op.OpStart? then
      if n in rm.branches then (rm, XaerDupId)
      else (Create(rm, n, c), XaOk)
    else if n !in rm.branches then (rm, XaerNota)
    else
      var p := rm.branches[n].phase;
      match op
      case OpEnd =>
        if p != S1Active(c) then (rm, XaerProto)
        else if fate.RmAborts? then (SetPhase(rm, n, S4RollbackOnly(c)), XaRolledBack)
        else (SetPhase(rm, n, S2Idle(c)), XaOk)
      case OpPrepare =>
        if p != S2Idle(c) then (rm, XaerProto)
        else if fate.RmAborts? then (Finish(rm, n, DidRollback), XaRolledBack)
        else if fate.ReadOnly? then (Finish(rm, n, DidReadOnly), XaRdOnly)
        else (SetPhase(rm, n, S3Prepared), XaOk)
      case OpCommitOnePhase =>
        if p != S2Idle(c) then (rm, XaerProto)
        else if fate.RmAborts? then (Finish(rm, n, DidRollback), XaRolledBack)
        else (Finish(rm, n, DidCommit), XaOk)
      case OpCommit =>
        if p != S3Prepared then (rm, XaerProto) else (Finish(rm, n, DidCommit), XaOk)
      case OpRollback =>
        if p == S2Idle(c) || p == S4RollbackOnly(c) || p == S3Prepared
        then (Finish(rm, n, DidRollback), XaOk)
        else (rm, XaerProto)
  }

  /** PostgreSQL: a transaction in a failed state answers COMMIT and PREPARE by rolling back
      without an error, and outside a transaction both succeed with a warning only. */
  function Postgresql(rm: Rm, c: nat, s: Statement, fate: Fate): (r: (Rm, bool))
    requires !s.XaCall? && !s.EndThenRollback?
  {
    var session := Session(c);
    if fate.Refuse? then (rm, false)
    else match s
    case PgBegin =>
      if session in rm.branches then (rm, true) else (Create(rm, session, c), true)
    case PgCommit =>
      if session !in rm.branches then (rm, true)
      else (Finish(rm, session, if fate.RmAborts? then DidRollback else DidCommit), true)
    case PgRollback =>
      if session !in rm.branches then (rm, true) else (Finish(rm, session, DidRollback), true)
    case PgPrepare(gid) =>
      if session !in rm.branches then (rm, true)
      else if fate.RmAborts? then (Finish(rm, session, DidRollback), true)
      else if Gid(gid) in rm.branches then (Finish(rm, session, DidRollback), false)
      else (Rename(rm, c, Gid(gid)), true)
    case PgCommitPrepared(gid) =>
      if Gid(gid) in rm.branches && rm.branches[Gid(gid)].phase.S3Prepared?
      then (Finish(rm, Gid(gid), DidCommit), true) else (rm, false)
    case PgRollbackPrepared(gid) =>
      if Gid(gid) in rm.branches && rm.branches[Gid(gid)].phase.S3Prepared?
      then (Finish(rm, Gid(gid), DidRollback), true) else (rm, false)
  }

  /** A statement sent on a live connection: the new resource manager, and whether the caller
      hears success. */
  function Deliver(rm: Rm, c: nat, s: Statement, fate: Fate): (r: (Rm, bool)) {
    match s
    case XaCall(op, n, allow) =>
      var (rm', rc) := Table(rm, c, op, n, fate);
      (rm', !fate.LoseReply? && (rc == XaOk || rc in allow))
    case EndThenRollback(n) =>
      var (rm1, rc1) := Table(rm, c, OpEnd, n, fate);
      if rc1 != XaOk then (rm1, false)
      else
        var (rm2, rc2) := Table(rm1, c, OpRollback, n, fate);
        (rm2, !fate.LoseReply? && rc2 == XaOk)
    case _ =>
      var (rm', ok) := Postgresql(rm, c, s, fate);
      (rm', ok && !fate.LoseReply?)
  }

  predicate Owned(p: Phase, cs: set<nat>) { !p.S3Prepared? && p.conn in cs }

  /** Lost sessions: their unprepared work is rolled back, prepared branches stay. */
  function Disconnected(rm: Rm, cs: set<nat>): (r: Rm) {
    var gone := set n | n in rm.branches && Owned(rm.branches[n].phase, cs);
    var serials := set n | n in gone :: rm.branches[n].serial;
    rm.(branches := rm.branches - gone, outcome := rm.outcome + map s | s in serials :: DidRollback)
  }

  /** Serials name branches one to one, no live branch has an outcome yet, and a branch lives under
      its name until it has one; only PostgreSQL's unnamed transactions take a new name. */
  ghost predicate RmValid(rm: Rm) {
    && (forall n :: n in rm.branches ==> rm.branches[n].serial in rm.named && rm.branches[n].serial !in rm.outcome)
    && (forall n :: n in rm.branches && !n.Gid? ==> rm.named[rm.branches[n].serial] == n)
    && (forall m, n :: m in rm.branches && n in rm.branches && m != n
          ==> rm.branches[m].serial != rm.branches[n].serial)
    && (forall s :: s in rm.outcome ==> s in rm.named)
    && (forall s :: s in rm.named <==> 0 <= s < rm.nextSerial)
    && (forall s :: s in rm.named && s !in rm.outcome && !rm.named[s].Session? ==>
          rm.named[s] in rm.branches && rm.branches[rm.named[s]].serial == s)
  }

  /** Outcomes are final, and so are the names branches were made under. */
  ghost predicate OutcomesKept(before: Rm, after: Rm) {
    && (forall s :: s in before.outcome ==> s in after.outcome && after.outcome[s] == before.outcome[s])
    && (forall s :: s in before.named ==> s in after.named && after.named[s] == before.named[s])
  }

  lemma SetPhaseValid(rm: Rm, n: BranchName, p: Phase)
    requires RmValid(rm) && n in rm.branches
    ensures RmValid(SetPhase(rm, n, p)) && OutcomesKept(rm, SetPhase(rm, n, p))
  {
  }

  lemma FinishValid(rm: Rm, n: BranchName, o: Outcome)
    requires RmValid(rm) && n in rm.branches
    ensures RmValid(Finish(rm, n, o)) && OutcomesKept(rm, Finish(rm, n, o))
  {
  }

  lemma CreateValid(rm: Rm, n: BranchName, c: nat)
    requires RmValid(rm) && n !in rm.branches
    ensures RmValid(Create(rm, n, c)) && OutcomesKept(rm, Create(rm, n, c))
  {
  }

  lemma RenameValid(rm: Rm, c: nat, n: BranchName)
    requires RmValid(rm) && Session(c) in rm.branches && n !in rm.branches && n.Gid?
    ensures RmValid(Rename(rm, c, n)) && OutcomesKept(rm, Rename(rm, c, n))
  {
  }

  lemma TableValid(rm: Rm, c: nat, op: XaOp, n: BranchName, fate: Fate)
    requires RmValid(rm)
    ensures RmValid(Table(rm, c, op, n, fate).0)
    ensures OutcomesKept(rm, Table(rm, c, op, n, fate).0)
  {
    if n !in rm.branches {
      CreateValid(rm, n, c);
    } else {
      forall o { FinishValid(rm, n, o); }
      forall p { SetPhaseValid(rm, n, p); }
    }
  }

  lemma SessionValid(rm: Rm, c: nat, s: Statement, fate: Fate)
    requires RmValid(rm) && (s.PgBegin? || s.PgCommit? || s.PgRollback?)
    ensures RmValid(Postgresql(rm, c, s, fate).0) && OutcomesKept(rm, Postgresql(rm, c, s, fate).0)
  {
    if Session(c) !in rm.branches {
      CreateValid(rm, Session(c), c);
    } else {
      FinishValid(rm, Session(c), DidCommit);
      FinishValid(rm, Session(c), DidRollback);
    }
  }

  lemma GidValid(rm: Rm, c: nat, s: Statement, fate: Fate)
    requires RmValid(rm) && (s.PgPrepare? || s.PgCommitPrepared? || s.PgRollbackPrepared?)
    ensures RmValid(Postgresql(rm, c, s, fate).0) && OutcomesKept(rm, Postgresql(rm, c, s, fate).0)
  {
    if s.PgPrepare? {
      PrepareValid(rm, c, s.gid, fate);
    } else if Gid(s.gid) in rm.branches {
      FinishValid(rm, Gid(s.gid), DidCommit);
      FinishValid(rm, Gid(s.gid), DidRollback);
    }
  }

  lemma PrepareValid(rm: Rm, c: nat, gid: string, fate: Fate)
    requires RmValid(rm)
    ensures var r := Postgresql(rm, c, PgPrepare(gid), fate).0; RmValid(r) && OutcomesKept(rm, r)
  {
    if Session(c) in rm.branches {
      FinishValid(rm, Session(c), DidRollback);
      if Gid(gid) !in rm.branches { RenameValid(rm, c, Gid(gid)); }
    }
  }

  /** Whatever befalls a statement, serials stay one to one and recorded outcomes stay. */
  lemma DeliverValid(rm: Rm, c: nat, s: Statement, fate: Fate)
    requires RmValid(rm)
    ensures RmValid(Deliver(rm, c, s, fate).0)
    ensures OutcomesKept(rm, Deliver(rm, c, s, fate).0)
  {
    if s.XaCall? {
      TableValid(rm, c, s.op, s.name, fate);
    } else if s.EndThenRollback? {
      TableValid(rm, c, OpEnd, s.name, fate);
      TableValid(Table(rm, c, OpEnd, s.name, fate).0, c, OpRollback, s.name, fate);
    } else if s.PgBegin? || s.PgCommit? || s.PgRollback? {
      SessionValid(rm, c, s, fate);
    } else {
      GidValid(rm, c, s, fate);
    }
  }

  lemma DisconnectedValid(rm: Rm, cs: set<nat>)
    requires RmValid(rm)
    ensures RmValid(Disconnected(rm, cs))
    ensures OutcomesKept(rm, Disconnected(rm, cs))
  {
  }
}
