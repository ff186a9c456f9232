/**
 * The pipeline under its two locks: the worker holds the connection's lock from its start to its exit,
 * and every call needs the global lock, a fetch before and after it waits for the stream. Other calls
 * may hold the connection, and some wait for it while they hold the global lock.
 */
module PipelineLocks {
  import opened Xids
  import opened Streams
  import opened Pipeline
  import opened PipelineEnds

  /** Who holds the connection: nobody, the worker, a call, or a call that holds the global lock too. */
  datatype Holder = Free | ByWorker | ByOther | ByCall

  /** The global lock: free, held by a call that waits for the connection, or by one that has got it. */
  datatype Global = Idle | Waits | Inside

  /** `flying` is a fetch that has let the global lock go, `landing` one that has to get it back. */
  datatype Sys = Sys(p: Pipe, conn: Holder, global: Global, flying: Option<nat>, landing: bool)

  datatype Act =
    | Work(e: Event)
    | BeginFetch(buf: nat) | Receive | Land
    | PollCall | CancelCall
    | Grab | Release
    | Wait | GetIn | GetOut

  function InitSys(batches: seq<Bytes>, chunkSize: nat): (s: Sys) {
    Sys(Init(batches, chunkSize), Free, Idle, None, false)
  }

  predicate OfWorker(e: Event) { !e.FetchInto? && !e.Poll? && !e.Cancel? }

  /** The stream is in its table and the global lock is to be had. */
  predicate Callable(s: Sys) { s.global.Idle? && s.flying.None? && !s.landing }

  predicate Possible(s: Sys, a: Act) {
    match a
    case Work(e) => OfWorker(e) && Enabled(s.p, e) && (s.p.worker.Starting? && !e.Crash? ==> s.conn.Free?)
    case BeginFetch(_) => Callable(s)
    case Receive => s.flying.Some? && CanFetch(s.p.c, s.p.ch)
    case Land => s.landing && s.global.Idle?
    case PollCall => Callable(s)
    case CancelCall => Callable(s)
    case Grab => s.conn.Free?
    case Release => s.conn.ByOther?
    case Wait => s.global.Idle?
    case GetIn => s.global.Waits? && s.conn.Free?
    case GetOut => s.global.Inside?
  }

  /** The worker has the connection once it has started, and gives it back when its thread ends. */
  function WorkStep(s: Sys, e: Event): (r: Sys)
    requires OfWorker(e) && Enabled(s.p, e)
  {
    var p := WorkerStep(s.p, e);
    s.(p := p, conn := if p.worker.Gone? then (if s.conn.ByWorker? then Free else s.conn) else ByWorker)
  }

  function Do(s: Sys, a: Act): (r: Sys) {
    if !Possible(s, a) then s
    else match a
      case Work(e) => WorkStep(s, e)
      case BeginFetch(buf) =>
        if s.p.stash.Some? then s.(p := FetchStep(s.p, buf)) else s.(flying := Some(buf))
      case Receive => s.(p := Pipeline.Step(s.p, FetchInto(s.flying.value)), flying := None, landing := true)
      case Land => s.(landing := false)
      case PollCall => s.(p := PollStep(s.p))
      case CancelCall => s.(p := Pipeline.Step(s.p, Cancel))
      case Grab => s.(conn := ByOther)
      case Release => s.(conn := Free)
      case Wait => s.(global := Waits)
      case GetIn => s.(global := Inside, conn := ByCall)
      case GetOut => s.(global := Idle, conn := Free)
  }

  function DoAll(s: Sys, acts: seq<Act>): (r: Sys)
    decreases |acts|
  {
    if acts == [] then s else DoAll(Do(s, acts[0]), acts[1..])
  }

  /** Whose turn it is agrees with who holds what. */
  predicate LocksOk(s: Sys) {
    && Shape(s.p)
    && (s.conn.ByWorker? <==> !s.p.worker.Starting? && !s.p.worker.Gone?)
    && (s.global.Inside? <==> s.conn.ByCall?)
    && (s.flying.Some? ==> s.p.stash.None? && !s.landing)
  }

  /** Locked or not, the stream goes through steps of the pipeline, so all that is proved of it holds. */
  lemma PipeOf(s: Sys, a: Act) returns (es: seq<Event>)
    ensures Do(s, a).p == Run(s.p, es)
  {
    es := [];
    if Possible(s, a) {
      match a
      case Work(e) => es := [e];
      case BeginFetch(buf) => es := if s.p.stash.Some? then [FetchInto(buf)] else [];
      case Receive => es := [FetchInto(s.flying.value)];
      case PollCall => es := [Poll];
      case CancelCall => es := [Cancel];
      case _ =>
    }
    if es != [] {
      assert es[1..] == [];
      assert Run(s.p, es) == Run(Pipeline.Step(s.p, es[0]), es[1..]);
    }
  }

  lemma {:induction false} RunBoth(p: Pipe, es: seq<Event>, more: seq<Event>)
    ensures Run(p, es + more) == Run(Run(p, es), more)
    decreases |es|
  {
    if es == [] {
      assert es + more == more;
    } else {
      RunBoth(Pipeline.Step(p, es[0]), es[1..], more);
      assert (es + more)[1..] == es[1..] + more;
    }
  }

  lemma {:induction false} PipeOfAll(s: Sys, acts: seq<Act>) returns (es: seq<Event>)
    ensures DoAll(s, acts).p == Run(s.p, es)
    decreases |acts|
  {
    if acts == [] {
      es := [];
    } else {
      var first := PipeOf(s, acts[0]);
      var rest := PipeOfAll(Do(s, acts[0]), acts[1..]);
      es := first + rest;
      RunBoth(s.p, first, rest);
    }
  }

  lemma LocksWork(s: Sys, e: Event)
    requires LocksOk(s) && Possible(s, Work(e))
    ensures LocksOk(WorkStep(s, e))
  {
    WorkerShape(s.p, e);
  }

  lemma LocksStep(s: Sys, a: Act)
    requires LocksOk(s)
    ensures LocksOk(Do(s, a))
  {
    if Possible(s, a) {
      match a
      case Work(e) => LocksWork(s, e);
      case BeginFetch(buf) => if s.p.stash.Some? { FetchShape(s.p, buf); }
      case Receive => ShapeStep(s.p, FetchInto(s.flying.value));
      case PollCall => PollShape(s.p);
      case CancelCall => ShapeStep(s.p, Cancel);
      case _ =>
    }
  }

  lemma {:induction false} LocksRun(s: Sys, acts: seq<Act>)
    requires LocksOk(s)
    ensures LocksOk(DoAll(s, acts))
    decreases |acts|
  {
    if acts != [] {
      LocksStep(s, acts[0]);
      LocksRun(Do(s, acts[0]), acts[1..]);
    }
  }

  // ---------------------------------------------------------------------
  // Hanging
  // ---------------------------------------------------------------------

  /** The messages a worker that does not fail has yet to send. */
  function Left(p: Pipe): (n: nat) {
    match p.worker
    case Starting => |p.todo| + 1
    case Checking => if p.flag then 1 else |p.todo| + 1
    case Holding => if p.flag then 2 else |p.todo| + 1
    case Finishing(_) => 1
    case Exiting => 0
    case Gone => 0
  }

  /** A fetch that is under way will take one of them. */
  function Relief(s: Sys): (n: nat) {
    if s.flying.Some? && NeedsMessage(s.p.c) && !Over(s.p.c) then 1 else 0
  }

  /** A call holds the global lock and waits for the connection, and the worker that has it still has
      more to send than the channel, and a fetch under way, can take. */
  predicate Hung(s: Sys) {
    s.global.Waits? && s.conn.ByWorker? && Left(s.p) + |s.p.ch.queue| > 1 + Relief(s)
  }

  /** No driver failure, crash or cancel. */
  predicate Smooth(a: Act) { !a.CancelCall? && (a.Work? ==> !a.e.Fail? && !a.e.Crash?) }

  lemma HungWork(s: Sys, e: Event)
    requires LocksOk(s) && Hung(s) && Smooth(Work(e)) && Possible(s, Work(e))
    ensures Hung(WorkStep(s, e))
  {
  }

  lemma HungReceive(s: Sys)
    requires LocksOk(s) && Hung(s) && Possible(s, Receive)
    ensures Hung(Do(s, Receive))
  {
    var (c, ch, out) := Fetch(s.p.c, s.p.ch);
    var q := Do(s, Receive).p;
    assert q.ch == ch && q.worker == s.p.worker && q.todo == s.p.todo && q.flag == s.p.flag;
    assert |ch.queue| + Relief(s) >= |s.p.ch.queue|;
  }

  lemma HungStays(s: Sys, a: Act)
    requires LocksOk(s) && Hung(s) && Smooth(a)
    ensures Hung(Do(s, a))
  {
    if Possible(s, a) {
      if a.Work? {
        HungWork(s, a.e);
      } else if a.Receive? {
        HungReceive(s);
      }
    }
  }

  /** It hangs for good: whatever is scheduled, the stream is never drained and the call never gets in. */
  lemma {:induction false} HungForever(s: Sys, acts: seq<Act>)
    requires LocksOk(s) && Hung(s) && forall i :: 0 <= i < |acts| ==> Smooth(acts[i])
    ensures Hung(DoAll(s, acts)) && !Finished(DoAll(s, acts).p)
    decreases |acts|
  {
    if acts != [] {
      HungStays(s, acts[0]);
      LocksStep(s, acts[0]);
      HungForever(Do(s, acts[0]), acts[1..]);
    }
  }

  // ---------------------------------------------------------------------
  // Draining
  // ---------------------------------------------------------------------

  /** What is left to do, in the pipeline and about the locks. */
  function Span(s: Sys): (n: nat) {
    3 * Distance(s.p)
    + (if s.global.Waits? then 2 else if s.global.Inside? then 1 else 0)
    + (if s.conn.ByOther? then 1 else 0)
    + (if s.landing then 1 else 0)
    + (if s.flying.None? then 1 else if s.flying.value >= s.p.c.chunkSize then 0 else 3)
  }

  /** The worker's next move, if it is not blocked. */
  function WorkerNext(p: Pipe): (e: Event)
    requires Shape(p) && !p.worker.Gone? && (p.worker.Exiting? || p.ch.queue == [])
    ensures OfWorker(e) && Enabled(p, e) && !e.Fail? && !e.Crash?
  {
    match p.worker
    case Starting => Open
    case Checking => Check
    case Holding => Send
    case Finishing(_) => Finish
    case Exiting => Exit
  }

  /** What to do next towards draining the stream: the calls that hold locks go on, then the worker and
      the caller take turns. */
  function Onward(s: Sys): (a: Act)
    requires LocksOk(s) && !Finished(s.p) && !Hung(s)
    ensures Possible(s, a) && Smooth(a) && !a.Wait? && !a.Grab? && !a.PollCall?
    ensures a.BeginFetch? ==> (if s.p.stash.Some? then a.buf == |s.p.stash.value.data| else a.buf == s.p.c.chunkSize)
  {
    if s.global.Inside? then GetOut
    else if s.conn.ByOther? then Release
    else if s.global.Waits? then
      if s.conn.Free? then GetIn
      else if s.p.worker.Checking? then Work(Check)
      else if s.p.ch.queue == [] || s.p.worker.Exiting? then Work(WorkerNext(s.p))
      else Receive
    else if s.landing then Land
    else if s.flying.Some? && CanFetch(s.p.c, s.p.ch) then Receive
    else if s.flying.None? && s.p.stash.Some? then BeginFetch(|s.p.stash.value.data|)
    else if s.flying.None? && CanFetch(s.p.c, s.p.ch) then BeginFetch(s.p.c.chunkSize)
    else Work(WorkerNext(s.p))
  }

  lemma OnwardShrinks(s: Sys)
    requires LocksOk(s) && !Finished(s.p) && !Hung(s)
    ensures Span(Do(s, Onward(s))) < Span(s)
  {
    var a := Onward(s);
    match a
    case Work(e) => WorkShrinks(s, e);
    case Receive => ReceiveShrinks(s);
    case BeginFetch(buf) => if s.p.stash.Some? { FetchDistance(s.p, buf); }
    case _ =>
  }

  lemma WorkShrinks(s: Sys, e: Event)
    requires LocksOk(s) && Possible(s, Work(e))
    ensures Span(WorkStep(s, e)) < Span(s)
  {
    WorkerDistance(s.p, e);
  }

  lemma ReceiveShrinks(s: Sys)
    requires LocksOk(s) && !Finished(s.p) && Possible(s, Receive)
    ensures Span(Do(s, Receive)) < Span(s)
  {
    FetchDistance(s.p, s.flying.value);
    FetchKeepsSize(s.p, s.flying.value);
  }

  lemma FetchKeepsSize(p: Pipe, buf: nat)
    requires Enabled(p, FetchInto(buf))
    ensures FetchStep(p, buf).c.chunkSize == p.c.chunkSize
  {
  }

  lemma OnwardClear(s: Sys)
    requires LocksOk(s) && !Finished(s.p) && !Hung(s)
    ensures !Hung(Do(s, Onward(s)))
  {
    var a := Onward(s);
    if s.global.Waits? {
      if a.Work? {
        ClearWork(s, a.e);
      } else if a.Receive? {
        ClearReceive(s);
      }
    }
  }

  lemma ClearWork(s: Sys, e: Event)
    requires LocksOk(s) && s.global.Waits? && s.conn.ByWorker? && !Hung(s) && Smooth(Work(e)) && Possible(s, Work(e))
    ensures !Hung(WorkStep(s, e))
  {
  }

  lemma ClearReceive(s: Sys)
    requires LocksOk(s) && s.global.Waits? && s.p.ch.queue != [] && !Hung(s) && Possible(s, Receive)
    ensures !Hung(Do(s, Receive))
  {
    var (c, ch, out) := Fetch(s.p.c, s.p.ch);
    var q := Do(s, Receive).p;
    assert q.ch == ch && q.worker == s.p.worker && q.todo == s.p.todo && q.flag == s.p.flag;
    assert |ch.queue| + Relief(s) == |s.p.ch.queue|;
  }

  /** Unless it hangs, the stream can be drained, with every call that holds a lock going on. */
  lemma {:induction false} DrainsUnlessHung(s: Sys) returns (acts: seq<Act>)
    requires LocksOk(s) && !Hung(s)
    ensures Finished(DoAll(s, acts).p) && |acts| <= Span(s)
    ensures forall i :: 0 <= i < |acts| ==> Smooth(acts[i])
    decreases Span(s)
  {
    if Finished(s.p) {
      acts := [];
    } else {
      var a := Onward(s);
      OnwardShrinks(s);
      OnwardClear(s);
      LocksStep(s, a);
      var rest := DrainsUnlessHung(Do(s, a));
      acts := [a] + rest;
      assert acts[1..] == rest;
    }
  }

  /** Exactly when a stream can be drained without a failure, a crash or a cancel: when it does not hang. */
  lemma DrainsIff(s: Sys)
    requires LocksOk(s)
    ensures (exists acts :: (forall i :: 0 <= i < |acts| ==> Smooth(acts[i])) && Finished(DoAll(s, acts).p))
            <==> !Hung(s)
  {
    if Hung(s) {
      forall acts | forall i :: 0 <= i < |acts| ==> Smooth(acts[i])
        ensures !Finished(DoAll(s, acts).p)
      {
        HungForever(s, acts);
      }
    } else {
      var acts := DrainsUnlessHung(s);
    }
  }

  /**
   * One thread is enough: over a stream that has begun and has a batch to send, a call that takes the
   * global lock and waits for the connection, as a disconnect that has a transaction to roll back
   * does, or the start of a branch, never returns.
   */
  lemma DisconnectHangs(batches: seq<Bytes>, chunkSize: nat, acts: seq<Act>)
    requires batches != [] && forall i :: 0 <= i < |acts| ==> Smooth(acts[i])
    ensures var s := Do(Do(InitSys(batches, chunkSize), Work(Open)), Wait);
            Hung(s) && Hung(DoAll(s, acts)) && !Finished(DoAll(s, acts).p)
  {
    var s0 := InitSys(batches, chunkSize);
    LocksStep(s0, Work(Open));
    LocksStep(Do(s0, Work(Open)), Wait);
    HungForever(Do(Do(s0, Work(Open)), Wait), acts);
  }

  /** Once another call, or another stream, has the connection, the worker cannot start until it lets go. */
  lemma StartsAlone(s: Sys, acts: seq<Act>)
    requires LocksOk(s) && s.p.worker.Starting? && s.conn.Free?
    requires forall i :: 0 <= i < |acts| ==> Smooth(acts[i]) && !acts[i].Release?
    ensures var s' := DoAll(Do(s, Grab), acts); s'.p.sent == s.p.sent && s'.p.worker.Starting? && s'.conn.ByOther?
  {
    LocksStep(s, Grab);
    Kept(Do(s, Grab), acts);
  }

  lemma {:induction false} Kept(s: Sys, acts: seq<Act>)
    requires LocksOk(s) && s.p.worker.Starting? && s.conn.ByOther?
    requires forall i :: 0 <= i < |acts| ==> Smooth(acts[i]) && !acts[i].Release?
    ensures var s' := DoAll(s, acts); s'.p.sent == s.p.sent && s'.p.worker.Starting? && s'.conn.ByOther?
    decreases |acts|
  {
    if acts != [] {
      LocksStep(s, acts[0]);
      Kept(Do(s, acts[0]), acts[1..]);
    }
  }

  /** While a call has the global lock, no fetch begins or lands and no other call comes in; and while a
      fetch is under way, its stream cannot be found. */
  lemma KeptOut(s: Sys, a: Act)
    requires a.BeginFetch? || a.PollCall? || a.CancelCall? || a.Land? || a.Wait?
    ensures !s.global.Idle? ==> Do(s, a) == s
    ensures (s.flying.Some? || s.landing) && !a.Land? && !a.Wait? ==> Do(s, a) == s
  {
  }

  /** A call that has waited for the connection gets it once it is free, keeps the worker from starting and
      everyone else out, and gives both locks back together. */
  lemma CallInside(s: Sys)
    requires s.global.Waits? && s.conn.Free?
    ensures var s1 := Do(s, GetIn);
            && s1.p == s.p && !s1.global.Idle? && !s1.conn.Free?
            && (s.p.worker.Starting? ==> Do(s1, Work(Open)) == s1) && Do(s1, Grab) == s1
            && Do(s1, GetOut) == s.(global := Idle)
  {
  }

  /** A fetch in its three steps is the pipeline's fetch: it lets the global lock go while it waits, and
      needs it again before the stream can be found by anyone else. */
  lemma FetchInSteps(s: Sys, buf: nat)
    requires LocksOk(s) && Callable(s) && s.p.stash.None? && CanFetch(s.p.c, s.p.ch)
    ensures var s1 := Do(s, BeginFetch(buf)); var s2 := Do(s1, Receive); var s3 := Do(s2, Land);
            && s1.p == s.p && !Callable(s1) && Possible(s1, Wait)
            && s2.p == Pipeline.Step(s.p, FetchInto(buf)) && !Callable(s2)
            && s3 == s.(p := s2.p) && Callable(s3)
  {
  }

  /** At the start nobody holds anything. */
  lemma StartsFree(batches: seq<Bytes>, chunkSize: nat)
    ensures var s := InitSys(batches, chunkSize);
            LocksOk(s) && Callable(s) && s.conn.Free? && s.p == Init(batches, chunkSize)
  {
  }
}
