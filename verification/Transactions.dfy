/** Local transactions: the calls the driver sees, on every path from begin to the end of the value. */
module Transactions {

  datatype TxState = Active | Committed | RolledBack

  /** What the driver is asked to do. */
  datatype DriverCall =
    | SetUp
    | AutocommitOff
    | Statement
    | Commit
    | Rollback
    | AutocommitOn

  datatype Reply<T> = Success(value: T) | Failure(error: string)

  const NOT_ACTIVE := "Transaction is not active"
  const NOT_FOUND := "Connection not found"

  class Connection {
    var log: seq<DriverCall>
    constructor () { log := []; }
  }

  class HandleManager {
    var connections: map<nat, Connection>
    constructor () { connections := map[]; }
  }

  /** The two ways to consume a transaction. */
  datatype Op = DoCommit | DoRollback

  /** The driver calls that consuming it makes, then those of the drop that ends every value. */
  function BodyCalls(op: Op, state: TxState, registered: bool): (calls: seq<DriverCall>) {
    if !state.Active? || !registered then [] else [if op.DoCommit? then Commit else Rollback, AutocommitOn]
  }

  function BodyState(op: Op, state: TxState, registered: bool, ok: bool): (s: TxState) {
    if !state.Active? || !registered then state else if op.DoCommit? && ok then Committed else RolledBack
  }

  function DropCalls(state: TxState, registered: bool): (calls: seq<DriverCall>) {
    if state.Active? && registered then [Rollback, AutocommitOn] else []
  }

  /** Session settings first, then autocommit off, unless a setting is refused. */
  function BeginCalls(setUp: bool): (calls: seq<DriverCall>) { if setUp then [SetUp, AutocommitOff] else [SetUp] }

  /** The driver's answers to one path through a transaction. */
  datatype Answers = Answers(setUp: Reply<()>, off: Reply<()>, commit: Reply<()>, rollback: Reply<()>)

  class Transaction {
    const handles: HandleManager
    const conn: nat
    var state: TxState

    constructor (h: HandleManager, c: nat)
      ensures handles == h && conn == c && state == Active
    {
      handles, conn, state := h, c, Active;
    }

    ghost predicate Registered()
      reads this, handles
    {
      conn in handles.connections
    }

    /** The connection as long as it is registered. */
    ghost function Footprint(): (s: set<object>)
      reads this, handles
    {
      {this} + if conn in handles.connections then {handles.connections[conn]} else {}
    }

    /** Dropping an active value rolls back, best effort; the state cell is left as it was. */
    method Drop()
      modifies Footprint()
      ensures state == old(state) && handles.connections == old(handles.connections)
      ensures Registered() ==>
                handles.connections[conn].log == old(handles.connections[conn].log) + DropCalls(old(state), true)
    {
      if !state.Active? || conn !in handles.connections {
        return;
      }
      var c := handles.connections[conn];
      c.log := c.log + [Rollback];
      c.log := c.log + [AutocommitOn];
    }

    /** Consumes the value: the drop that follows finds the state settled, unless nothing could be done. */
    method CommitAndDrop(a: Answers) returns (r: Reply<()>)
      modifies Footprint()
      ensures handles.connections == old(handles.connections)
      ensures old(state) != Active ==>
                && r == Failure(NOT_ACTIVE) && state == old(state)
                && (Registered() ==> handles.connections[conn].log == old(handles.connections[conn].log))
      ensures old(state) == Active && Registered() ==>
                && handles.connections[conn].log == old(handles.connections[conn].log) + [Commit, AutocommitOn]
                && r == a.commit && state == (if r.Success? then Committed else RolledBack)
      ensures old(state) == Active && !Registered() ==> r == Failure(NOT_FOUND) && state == Active
    {
      r := CommitBody(a);
      Drop();
    }

    method CommitBody(a: Answers) returns (r: Reply<()>)
      modifies Footprint()
      ensures handles.connections == old(handles.connections)
      ensures state == BodyState(DoCommit, old(state), Registered(), a.commit.Success?)
      ensures Registered() ==>
                handles.connections[conn].log ==
                  old(handles.connections[conn].log) + BodyCalls(DoCommit, old(state), true)
      ensures r == if old(state) != Active then Failure(NOT_ACTIVE)
                   else if !Registered() then Failure(NOT_FOUND) else a.commit
    {
      if state != Active {
        return Failure(NOT_ACTIVE);
      }
      if conn !in handles.connections {
        return Failure(NOT_FOUND);
      }
      var c := handles.connections[conn];
      c.log := c.log + [Commit];
      r := a.commit;
      c.log := c.log + [AutocommitOn];
      state := if r.Success? then Committed else RolledBack;
    }

    method RollbackAndDrop(a: Answers) returns (r: Reply<()>)
      modifies Footprint()
      ensures handles.connections == old(handles.connections)
      ensures old(state) != Active ==>
                && r == Failure(NOT_ACTIVE) && state == old(state)
                && (Registered() ==> handles.connections[conn].log == old(handles.connections[conn].log))
      ensures old(state) == Active && Registered() ==>
                && handles.connections[conn].log == old(handles.connections[conn].log) + [Rollback, AutocommitOn]
                && r == a.rollback && state == RolledBack
      ensures old(state) == Active && !Registered() ==> r == Failure(NOT_FOUND) && state == Active
    {
      r := RollbackBody(a);
      Drop();
    }

    method RollbackBody(a: Answers) returns (r: Reply<()>)
      modifies Footprint()
      ensures handles.connections == old(handles.connections)
      ensures state == BodyState(DoRollback, old(state), Registered(), a.rollback.Success?)
      ensures Registered() ==>
                handles.connections[conn].log ==
                  old(handles.connections[conn].log) + BodyCalls(DoRollback, old(state), true)
      ensures r == if old(state) != Active then Failure(NOT_ACTIVE)
                   else if !Registered() then Failure(NOT_FOUND) else a.rollback
    {
      if state != Active {
        return Failure(NOT_ACTIVE);
      }
      if conn !in handles.connections {
        return Failure(NOT_FOUND);
      }
      var c := handles.connections[conn];
      c.log := c.log + [Rollback];
      r := a.rollback;
      c.log := c.log + [AutocommitOn];
      state := RolledBack;
    }
  }

  /** Session settings first, then autocommit off; a failure on the way leaves no transaction. */
  method Begin(h: HandleManager, conn: nat, a: Answers) returns (r: Reply<Transaction>)
    modifies if conn in h.connections then {h.connections[conn]} else {}
    ensures r.Success? <==> conn in h.connections && a.setUp.Success? && a.off.Success?
    ensures r.Success? ==>
              && fresh(r.value) && r.value.handles == h && r.value.conn == conn && r.value.state == Active
    ensures conn in h.connections ==>
              h.connections[conn].log == old(h.connections[conn].log) + BeginCalls(a.setUp.Success?)
    ensures conn !in h.connections ==> r == Failure(NOT_FOUND)
    ensures conn in h.connections && a.setUp.Failure? ==> r == Failure(a.setUp.error)
    ensures conn in h.connections && a.setUp.Success? && a.off.Failure? ==> r == Failure(a.off.error)
  {
    if conn !in h.connections {
      return Failure(NOT_FOUND);
    }
    var c := h.connections[conn];
    c.log := c.log + [SetUp];
    if a.setUp.Failure? {
      return Failure(a.setUp.error);
    }
    c.log := c.log + [AutocommitOff];
    if a.off.Failure? {
      return Failure(a.off.error);
    }
    var t := new Transaction(h, conn);
    return Success(t);
  }

  /**
   * Runs a closure of `statements` statements between begin and commit or rollback. Whatever the
   * driver answers, one completion call is followed by one restore, and a closure's error comes back
   * as it was even when the rollback fails too.
   */
  method ExecuteWithLockTimeout(h: HandleManager, conn: nat, statements: nat, closure: Reply<int>, a: Answers)
    returns (r: Reply<int>)
    modifies if conn in h.connections then {h.connections[conn]} else {}
    ensures conn !in h.connections ==> r == Failure(NOT_FOUND)
    ensures conn in h.connections && a.setUp.Success? && a.off.Success? ==>
              && h.connections[conn].log ==
                   old(h.connections[conn].log) + [SetUp, AutocommitOff] + seq(statements, _ => Statement)
                   + [if closure.Success? then Commit else Rollback, AutocommitOn]
              && (closure.Failure? ==> r == closure)
              && (closure.Success? ==> r == if a.commit.Success? then closure else Failure(a.commit.error))
    ensures conn in h.connections && (a.setUp.Failure? || a.off.Failure?) ==>
              && r == Failure(if a.setUp.Failure? then a.setUp.error else a.off.error)
              && h.connections[conn].log ==
                   old(h.connections[conn].log) + [SetUp] + if a.setUp.Success? then [AutocommitOff] else []
  {
    var b := Begin(h, conn, a);
    if b.Failure? {
      return Failure(b.error);
    }
    var t := b.value;
    var c := h.connections[conn];
    c.log := c.log + seq(statements, _ => Statement);
    match closure
    case Success(v) =>
      var done := t.CommitAndDrop(a);
      if done.Failure? {
        return Failure(done.error);
      }
      return Success(v);
    case Failure(e) =>
      var _ := t.RollbackAndDrop(a);
      return Failure(e);
  }
}
