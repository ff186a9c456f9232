/** How a stream ends: what "no more" promises, cancellation, and that draining it terminates. */
module PipelineEnds {
  import opened Xids
  import opened Streams
  import opened Pipeline

  predicate PolledDone(log: seq<Reply>) { exists i :: 0 <= i < |log| && log[i] == Polled(StDone) }

  /** "No more" is answered only by a consumer that is done, with nothing kept aside. */
  predicate EndOk(p: Pipe) { EndSeen(p.log) ==> p.c.done && p.c.error.None? && p.stash.None? }

  /** Done is polled of a consumer that is done without an error; and a crash passes for a clean end
      exactly if a poll met it first. */
  predicate CrashOk(p: Pipe) {
    && (PolledDone(p.log) ==> p.c.done && p.c.error.None?)
    && (p.crashed && Over(p.c) ==> (p.c.error.None? <==> PolledDone(p.log)))
  }

  lemma PolledAppend(log: seq<Reply>, r: Reply)
    ensures PolledDone(log + [r]) <==> PolledDone(log) || r == Polled(StDone)
  {
    var l := log + [r];
    assert l[|log|] == r && forall i :: 0 <= i < |log| ==> l[i] == log[i];
  }

  lemma FetchEnds(p: Pipe, buf: nat)
    requires Shape(p) && EndOk(p) && CrashOk(p) && Enabled(p, FetchInto(buf))
    ensures EndOk(FetchStep(p, buf)) && CrashOk(FetchStep(p, buf))
  {
    var p' := FetchStep(p, buf);
    SeenAppend(p.log, p'.log[|p.log|]);
    PolledAppend(p.log, p'.log[|p.log|]);
    assert p'.log == p.log + [p'.log[|p.log|]];
  }

  lemma PollEnds(p: Pipe)
    requires Shape(p) && EndOk(p) && CrashOk(p)
    ensures EndOk(PollStep(p)) && CrashOk(PollStep(p))
  {
    SeenAppend(p.log, Polled(StatusOf(Pull(p.c, p.ch).0)));
    PolledAppend(p.log, Polled(StatusOf(Pull(p.c, p.ch).0)));
  }

  lemma {:induction false} EndsRun(p: Pipe, es: seq<Event>)
    requires Shape(p) && EndOk(p) && CrashOk(p)
    ensures EndOk(Run(p, es)) && CrashOk(Run(p, es))
    decreases |es|
  {
    if es != [] {
      var e := es[0];
      ShapeStep(p, e);
      if Enabled(p, e) {
        if e.FetchInto? {
          FetchEnds(p, e.buf);
        } else if e.Poll? {
          PollEnds(p);
        } else {
          assert Step(p, e).log == p.log && Step(p, e).c == p.c;
        }
      }
      EndsRun(Step(p, e), es[1..]);
    }
  }

  /** Only a request, or a failure whose text speaks of cancelling, ends a stream as cancelled. */
  predicate Unasked(p: Pipe) {
    && !p.flag && p.worker != Finishing(Cancelled) && !p.c.cancelled
    && (forall i :: 0 <= i < |p.ch.queue| ==> !p.ch.queue[i].Cancelled?)
  }

  lemma {:induction false} UnaskedRun(p: Pipe, es: seq<Event>)
    requires Unasked(p) && Cancel !in es && Fail(Cancelled) !in es
    ensures Unasked(Run(p, es))
    decreases |es|
  {
    if es != [] {
      UnaskedStep(p, es[0]);
      UnaskedRun(Step(p, es[0]), es[1..]);
    }
  }

  lemma UnaskedStep(p: Pipe, e: Event)
    requires Unasked(p) && e != Cancel && e != Fail(Cancelled)
    ensures Unasked(Step(p, e))
  {
  }

  /**
   * Once the caller is told there is no more, it has every batch that was sent; and that is the whole
   * result unless the stream was cancelled, or the worker crashed and a poll answered Done.
   */
  lemma EndOfData(batches: seq<Bytes>, chunkSize: nat, es: seq<Event>)
    requires EndSeen(Run(Init(batches, chunkSize), es).log)
    ensures var p := Run(Init(batches, chunkSize), es);
            && Received(p.log) == Flatten(p.sent) && p.sent + p.todo == batches
            && (p.c.cancelled || (p.crashed && PolledDone(p.log)) || p.todo == [])
            && (p.crashed ==> PolledDone(p.log))
            && (Received(p.log) == Flatten(batches) <==> Flatten(p.todo) == [])
  {
    Reachable(batches, chunkSize, es);
    FlattenBoth(Run(Init(batches, chunkSize), es).sent, Run(Init(batches, chunkSize), es).todo);
  }

  lemma {:induction false} FlattenBoth(a: seq<Bytes>, b: seq<Bytes>)
    ensures Flatten(a + b) == Flatten(a) + Flatten(b)
  {
    if a == [] {
      assert a + b == b;
    } else {
      FlattenBoth(a[1..], b);
      assert (a + b)[1..] == a[1..] + b;
      Grouped(a[0], Flatten(a[1..]), Flatten(b));
    }
  }

  /** A crash that the caller has come upon is an error exactly when no poll has answered Done. */
  lemma CrashReported(batches: seq<Bytes>, chunkSize: nat, es: seq<Event>)
    requires Run(Init(batches, chunkSize), es).crashed && Over(Run(Init(batches, chunkSize), es).c)
    ensures var p := Run(Init(batches, chunkSize), es);
            && (p.c.error.Some? <==> !PolledDone(p.log))
            && forall buf: nat :: p.stash.None? ==>
                 Step(p, FetchInto(buf)).log == p.log + [if PolledDone(p.log) then Got([], false) else Failed]
  {
    Reachable(batches, chunkSize, es);
  }

  /** A loop of fetches, with buffers of any size, that is never cancelled ends with exactly the result. */
  lemma CleanEnd(batches: seq<Bytes>, chunkSize: nat, es: seq<Event>)
    requires Cancel !in es && Fail(Cancelled) !in es && (Poll !in es || Crash !in es)
    requires EndSeen(Run(Init(batches, chunkSize), es).log)
    ensures Received(Run(Init(batches, chunkSize), es).log) == Flatten(batches)
  {
    EndOfData(batches, chunkSize, es);
    UnaskedRun(Init(batches, chunkSize), es);
    QuietRun(Init(batches, chunkSize), es);
  }

  lemma {:induction false} QuietRun(p: Pipe, es: seq<Event>)
    ensures Crash !in es && !p.crashed ==> !Run(p, es).crashed
    ensures Poll !in es && !PolledDone(p.log) ==> !PolledDone(Run(p, es).log)
    decreases |es|
  {
    if es != [] {
      QuietStep(p, es[0]);
      QuietRun(Step(p, es[0]), es[1..]);
    }
  }

  lemma QuietStep(p: Pipe, e: Event)
    ensures e != Crash && !p.crashed ==> !Step(p, e).crashed
    ensures e != Poll && !PolledDone(p.log) ==> !PolledDone(Step(p, e).log)
  {
  }

  /** A statement without a result ends at once, and cleanly, whatever was asked for meanwhile. */
  lemma NoResult(chunkSize: nat, buf: nat)
    ensures var p := Run(Step(Init([], chunkSize), Cancel), [Open, Finish, FetchInto(buf)]);
            p.log == [Got([], false)] && !p.c.cancelled
  {
    RunThree(Step(Init([], chunkSize), Cancel), Open, Finish, FetchInto(buf));
    assert [] + [Got([], false)] == [Got([], false)];
  }

  /** Each condition is needed, for every stream: these runs end "cleanly" with nothing delivered. */
  lemma HiddenCrash(batches: seq<Bytes>, chunkSize: nat, buf: nat)
    ensures var p := Run(Init(batches, chunkSize), [Crash, Poll, FetchInto(buf)]);
            EndSeen(p.log) && !p.c.cancelled && Received(p.log) == []
  {
    var p0 := Init(batches, chunkSize);
    var p1 := Step(p0, Crash);
    var p2 := Step(p1, Poll);
    var p3 := Step(p2, FetchInto(buf));
    assert p2.log == [Polled(StDone)];
    assert p3.log == [Polled(StDone), Got([], false)];
    ReceivedAppend([Polled(StDone)], Got([], false));
    assert p3.log[1] == Got([], false);
    RunThree(p0, Crash, Poll, FetchInto(buf));
  }

  lemma RunThree(p: Pipe, a: Event, b: Event, c: Event)
    ensures Run(p, [a, b, c]) == Step(Step(Step(p, a), b), c)
  {
    assert [a, b, c][1..] == [b, c] && [b, c][1..] == [c] && [c][1..] == [];
    assert Run(Step(Step(p, a), b), [c]) == Run(Step(Step(Step(p, a), b), c), []);
    assert Run(Step(p, a), [b, c]) == Run(Step(Step(p, a), b), [c]);
  }

  lemma CrashFetched(batches: seq<Bytes>, chunkSize: nat, buf: nat)
    ensures var p := Run(Init(batches, chunkSize), [Crash, FetchInto(buf), FetchInto(buf)]);
            p.log == [Failed, Failed]
  {
    RunThree(Init(batches, chunkSize), Crash, FetchInto(buf), FetchInto(buf));
  }

  lemma MislabelledFailure(batches: seq<Bytes>, chunkSize: nat, buf: nat)
    ensures var p := Run(Init(batches, chunkSize), [Fail(Cancelled), Finish, FetchInto(buf)]);
            p.log == [Got([], false)] && !p.flag && Received(p.log) == []
  {
    var p0 := Init(batches, chunkSize);
    RunThree(p0, Fail(Cancelled), Finish, FetchInto(buf));
    ReceivedAppend([], Got([], false));
    assert [] + [Got([], false)] == [Got([], false)];
  }

  // ---------------------------------------------------------------------
  // Polling
  // ---------------------------------------------------------------------

  /**
   * A poll that answers Done or Cancelled leaves no byte in the stream, so the caller lacks exactly
   * the chunk kept aside for it, which the poll does not look at.
   */
  lemma PolledEnd(batches: seq<Bytes>, chunkSize: nat, es: seq<Event>)
    requires var p := PollStep(Run(Init(batches, chunkSize), es));
             StatusOf(p.c) == StDone || StatusOf(p.c) == StCancelled
    ensures var p := PollStep(Run(Init(batches, chunkSize), es));
            && InFlight(p.c, p.ch) == [] && Received(p.log) + Stashed(p.stash) == Flatten(p.sent)
            && (Received(p.log) == Flatten(p.sent) <==> Stashed(p.stash) == [])
  {
    var p0 := Run(Init(batches, chunkSize), es);
    Reachable(batches, chunkSize, es);
    PollShape(p0);
    PollStepConserves(p0);
    var p := PollStep(p0);
    assert Received(p.log) + Stashed(p.stash) == Flatten(p.sent);
    assert |Received(p.log)| + |Stashed(p.stash)| == |Flatten(p.sent)|;
  }

  lemma OneSent(b: Bytes, chunkSize: nat)
    ensures var p := Run(Init([b], chunkSize), [Open, Check, Send]);
            p == Pipe([], Checking, false, Channel([Batch(b)], true), NewConsumer(chunkSize), None, [b], false, [])
  {
    var p0 := Init([b], chunkSize);
    RunThree(p0, Open, Check, Send);
    assert Step(Step(p0, Open), Check) == p0.(worker := Holding);
    assert [b][1..] == [] && [] + [b] == [b];
  }

  lemma OneKept(p: Pipe, b: Bytes)
    requires b != [] && |b| <= p.c.chunkSize && p.worker == Checking && !p.flag && p.todo == [] && p.log == []
    requires p.ch == Channel([Batch(b)], true) && p.stash.None? && p.c == NewConsumer(p.c.chunkSize)
    ensures var q := Run(p, [FetchInto(0), Check, Finish]);
            && q.log == [TooSmall(|b|)] && q.stash == Some(Held(b, true)) && q.ch.queue == [Done] && q.c == p.c
  {
    RunThree(p, FetchInto(0), Check, Finish);
    assert [Batch(b)][1..] == [];
    var p1 := Step(p, FetchInto(0));
    assert p1.c == p.c && p1.stash == Some(Held(b, true)) && p1.log == [TooSmall(|b|)] && p1.ch.queue == [];
    assert Step(p1, Check) == p1.(worker := Finishing(Done));
  }

  /** The kept chunk can be the whole result. */
  lemma DoneOverStash(b: Bytes, chunkSize: nat)
    requires b != [] && |b| <= chunkSize
    ensures var p := Run(Run(Init([b], chunkSize), [Open, Check, Send]), [FetchInto(0), Check, Finish]);
            StatusOf(PollStep(p).c) == StDone && Received(PollStep(p).log) == [] && Stashed(p.stash) == b
  {
    OneSent(b, chunkSize);
    var p3 := Run(Init([b], chunkSize), [Open, Check, Send]);
    OneKept(p3, b);
    var p := Run(p3, [FetchInto(0), Check, Finish]);
    ReceivedAppend([], TooSmall(|b|));
    assert [] + [TooSmall(|b|)] == p.log;
    ReceivedAppend(p.log, Polled(StDone));
  }

  /** Ready is a promise kept whatever the worker does next: the fetch yields bytes without receiving. */
  lemma ReadyThenFetch(batches: seq<Bytes>, chunkSize: nat, es: seq<Event>)
    requires StatusOf(PollStep(Run(Init(batches, chunkSize), es)).c) == Ready
    ensures var p := PollStep(Run(Init(batches, chunkSize), es));
            && CanFetch(p.c, p.ch)
            && Fetch(p.c, p.ch).2.Chunk? && Fetch(p.c, p.ch).2.data != [] && Fetch(p.c, p.ch).1 == p.ch
  {
    var p := Run(Init(batches, chunkSize), es);
    Reachable(batches, chunkSize, es);
    ReadyMeansBytes(p.c, p.ch);
  }

  /**
   * In every reachable state a poll answers Ready exactly when the fetch after it yields bytes at once
   * without receiving, Error exactly when it answers the stream's error, Done or Cancelled exactly when
   * it answers the end, and Pending exactly when it would wait for the worker or come upon its crash;
   * and Pending means that the worker has sent no byte that the caller was not given, and no end.
   */
  lemma PollAnswers(batches: seq<Bytes>, chunkSize: nat, es: seq<Event>)
    ensures var p := PollStep(Run(Init(batches, chunkSize), es)); var st := StatusOf(p.c);
            && p.log[|p.log| - 1] == Polled(st)
            && (st == Ready <==> CanFetch(p.c, p.ch) && Fetch(p.c, p.ch).2.Chunk? && Fetch(p.c, p.ch).2.data != []
                                 && Fetch(p.c, p.ch).1 == p.ch)
            && (st == StError <==> CanFetch(p.c, p.ch) && Fetch(p.c, p.ch).2.StreamError?)
            && (st == StDone || st == StCancelled <==> CanFetch(p.c, p.ch) && Fetch(p.c, p.ch).2.EndOfStream?)
            && (st == Pending <==> !CanFetch(p.c, p.ch) || Fetch(p.c, p.ch).2.WorkerCrashed?)
            && (st == Pending ==> InFlight(p.c, p.ch) == [] && p.ch.queue == [])
  {
    var p := Run(Init(batches, chunkSize), es);
    Reachable(batches, chunkSize, es);
    PollTells(p.c, p.ch);
    PollFinds(p.c, p.ch);
  }

  /** The chunk size asked for, but at least one, is the one the consumer cuts with. */
  lemma {:induction false} ChunkSizeKept(p: Pipe, es: seq<Event>)
    ensures Run(p, es).c.chunkSize == p.c.chunkSize
    decreases |es|
  {
    if es != [] {
      ChunkSizeKept(Step(p, es[0]), es[1..]);
    }
  }

  /** In every reachable state a fetched chunk is as long as asked for, unless it ends its batch. */
  lemma FullChunks(batches: seq<Bytes>, chunkSize: nat, es: seq<Event>)
    ensures var p := Run(Init(batches, chunkSize), es); var size := if chunkSize < 1 then 1 else chunkSize;
            CanFetch(p.c, p.ch) ==>
              var (c, ch, r) := Fetch(p.c, p.ch);
              |Data(r)| <= size && (r.Chunk? && Tail(c) != [] ==> |r.data| == size)
  {
    var p := Run(Init(batches, chunkSize), es);
    Reachable(batches, chunkSize, es);
    ChunkSizeKept(Init(batches, chunkSize), es);
    if CanFetch(p.c, p.ch) {
      FetchConserves(p.c, p.ch);
    }
  }

  // ---------------------------------------------------------------------
  // Cancellation
  // ---------------------------------------------------------------------

  /** Batches sent, counting the one the worker is committed to sending. */
  function Committed(p: Pipe): (n: nat) { |p.sent| + if p.worker.Holding? then 1 else 0 }

  lemma {:induction false} CancelHolds(p: Pipe, es: seq<Event>)
    requires p.flag
    ensures Run(p, es).flag && |p.sent| <= |Run(p, es).sent| <= Committed(Run(p, es)) <= Committed(p)
    decreases |es|
  {
    if es != [] {
      var p' := Step(p, es[0]);
      assert p'.flag && |p.sent| <= |p'.sent| && Committed(p') <= Committed(p);
      CancelHolds(p', es[1..]);
    }
  }

  lemma Reachable(batches: seq<Bytes>, chunkSize: nat, es: seq<Event>)
    ensures var p := Run(Init(batches, chunkSize), es);
            Good(p, batches) && EndOk(p) && CrashOk(p)
  {
    InitGood(batches, chunkSize);
    GoodRun(Init(batches, chunkSize), es, batches);
    EndsRun(Init(batches, chunkSize), es);
  }

  lemma EndPrefix(p: Pipe, batches: seq<Bytes>)
    requires Good(p, batches) && EndOk(p)
    ensures |p.sent| <= |batches| && (EndSeen(p.log) ==> Received(p.log) == Flatten(batches[..|p.sent|]))
  {
  }

  /**
   * After a cancel at most one more batch enters the channel, and only if the worker was past its
   * check; a caller that then drains the stream holds exactly a prefix of the batches.
   */
  lemma CancelBound(batches: seq<Bytes>, chunkSize: nat, before: seq<Event>, after: seq<Event>)
    ensures var p := Run(Init(batches, chunkSize), before);
            var q := Run(Step(p, Cancel), after);
            && |q.sent| <= |p.sent| + (if p.worker.Holding? then 1 else 0)
            && |q.sent| <= |batches|
            && (EndSeen(q.log) ==> Received(q.log) == Flatten(batches[..|q.sent|]))
  {
    var p := Run(Init(batches, chunkSize), before);
    Reachable(batches, chunkSize, before);
    ShapeStep(p, Cancel);
    ConservedStep(p, Cancel);
    CancelHolds(Step(p, Cancel), after);
    GoodRun(Step(p, Cancel), after, batches);
    EndsRun(Step(p, Cancel), after);
    EndPrefix(Run(Step(p, Cancel), after), batches);
  }

  // ---------------------------------------------------------------------
  // Progress
  // ---------------------------------------------------------------------

  function Load(bs: seq<Bytes>): (n: nat) { if bs == [] then 0 else 2 * |bs[0]| + 3 + Load(bs[1..]) }

  function WorkLeft(w: Worker): (n: nat) {
    match w
    case Starting => 5
    case Checking => 4
    case Holding => 3
    case Finishing(_) => 3
    case Exiting => 1
    case Gone => 0
  }

  /** What is left to do before the caller has drained the stream. */
  function Distance(p: Pipe): (n: nat) {
    Load(p.todo) + WorkLeft(p.worker) + 2 * |InFlight(p.c, p.ch)| + |p.ch.queue|
    + (if p.stash.Some? then |p.stash.value.data| + 1 else 0) + (if Over(p.c) then 0 else 1)
  }

  predicate Finished(p: Pipe) { Over(p.c) && p.stash.None? }

  /** A step of the worker, or a fetch by a caller whose buffer holds what it would be given. */
  predicate Productive(p: Pipe, e: Event) {
    Enabled(p, e) &&
    match e
    case Poll => false
    case Cancel => false
    case FetchInto(buf) =>
      if p.stash.Some? then |p.stash.value.data| <= buf else !Over(p.c) && p.c.chunkSize <= buf
    case _ => true
  }

  lemma WorkerDistance(p: Pipe, e: Event)
    requires Shape(p) && Enabled(p, e) && !e.FetchInto? && !e.Poll? && !e.Cancel?
    ensures Distance(WorkerStep(p, e)) < Distance(p)
  {
    if e.Send? {
      SendDistance(p);
    } else if e.Finish? {
      QueuedOne(p.worker.last);
    }
  }

  lemma SendDistance(p: Pipe)
    requires Enabled(p, Send)
    ensures Distance(WorkerStep(p, Send)) < Distance(p)
  {
    QueuedOne(Batch(p.todo[0]));
    assert |InFlight(p.c, WorkerStep(p, Send).ch)| == |InFlight(p.c, p.ch)| + |p.todo[0]|;
    assert Load(p.todo) == 2 * |p.todo[0]| + 3 + Load(p.todo[1..]);
  }

  /** A fetch yields bytes, takes a message, or finds the stream over. */
  lemma FetchAdvances(c: Consumer, ch: Channel)
    requires Sane(c) && CanFetch(c, ch) && !Over(c)
    ensures var (c', ch', r) := Fetch(c, ch);
            && |ch'.queue| <= |ch.queue|
            && (Data(r) != [] || |ch'.queue| < |ch.queue| || Over(c'))
  {
  }

  lemma FetchDistance(p: Pipe, buf: nat)
    requires ConsumerOk(p) && Enabled(p, FetchInto(buf))
    ensures Distance(FetchStep(p, buf)) <= Distance(p)
    ensures Productive(p, FetchInto(buf)) ==> Distance(FetchStep(p, buf)) < Distance(p)
  {
    if p.stash.None? && !Over(p.c) {
      FetchConserves(p.c, p.ch);
      FetchAdvances(p.c, p.ch);
      var (c, ch, out) := Fetch(p.c, p.ch);
      assert |Data(out)| + |InFlight(c, ch)| == |InFlight(p.c, p.ch)|;
    }
  }

  lemma PollDistance(p: Pipe)
    requires ConsumerOk(p)
    ensures Distance(PollStep(p)) <= Distance(p)
  {
    PollConserves(p.c, p.ch);
  }

  lemma DistanceStep(p: Pipe, e: Event)
    requires Shape(p)
    ensures Distance(Step(p, e)) <= Distance(p)
    ensures Productive(p, e) ==> Distance(Step(p, e)) < Distance(p)
  {
    if Enabled(p, e) {
      match e
      case FetchInto(buf) => FetchDistance(p, buf);
      case Poll => PollDistance(p);
      case Cancel =>
      case _ => WorkerDistance(p, e);
    }
  }

  function CountProductive(p: Pipe, es: seq<Event>): (n: nat)
    decreases |es|
  {
    if es == [] then 0
    else (if Productive(p, es[0]) then 1 else 0) + CountProductive(Step(p, es[0]), es[1..])
  }

  /** However the threads are scheduled, and whatever else happens, only so many productive steps exist. */
  lemma {:induction false} ProgressBound(p: Pipe, es: seq<Event>)
    requires Shape(p)
    ensures CountProductive(p, es) + Distance(Run(p, es)) <= Distance(p)
    decreases |es|
  {
    if es != [] {
      ShapeStep(p, es[0]);
      DistanceStep(p, es[0]);
      ProgressBound(Step(p, es[0]), es[1..]);
    }
  }

  /** Some productive step is always possible until the caller has drained the stream. */
  function Next(p: Pipe): (e: Event)
    requires Shape(p) && !Finished(p)
    ensures Productive(p, e)
  {
    if p.stash.Some? then FetchInto(|p.stash.value.data|)
    else if CanFetch(p.c, p.ch) then FetchInto(p.c.chunkSize)
    else
      match p.worker
      case Starting => Open
      case Checking => Check
      case Holding => Send
      case Finishing(_) => Finish
      case Exiting => Exit
  }

  /** From every reachable state the stream can be drained, and the caller is then told so. */
  lemma {:induction false} Drains(p: Pipe) returns (es: seq<Event>)
    requires Shape(p)
    ensures Finished(Run(p, es)) && |es| <= Distance(p)
    decreases Distance(p)
  {
    if Finished(p) {
      es := [];
    } else {
      var e := Next(p);
      ShapeStep(p, e);
      DistanceStep(p, e);
      var rest := Drains(Step(p, e));
      es := [e] + rest;
      assert es[1..] == rest;
    }
  }

  predicate Calm(e: Event) { !e.Cancel? && !e.Fail? && !e.Crash? }

  predicate Healthy(p: Pipe) {
    && Unasked(p) && !p.crashed && p.c.error.None?
    && (p.worker.Finishing? ==> !p.worker.last.Error?)
    && (forall i :: 0 <= i < |p.ch.queue| ==> !p.ch.queue[i].Error?)
  }

  lemma {:induction false} HealthyRun(p: Pipe, es: seq<Event>)
    requires Shape(p) && Healthy(p) && forall i :: 0 <= i < |es| ==> Calm(es[i])
    ensures Healthy(Run(p, es))
    decreases |es|
  {
    if es != [] {
      ShapeStep(p, es[0]);
      HealthyStep(p, es[0]);
      HealthyRun(Step(p, es[0]), es[1..]);
    }
  }

  lemma HealthyStep(p: Pipe, e: Event)
    requires Shape(p) && Healthy(p) && Calm(e)
    ensures Healthy(Step(p, e))
  {
    UnaskedStep(p, e);
    if e.FetchInto? && p.stash.None? && p.ch.queue == [] && NeedsMessage(p.c) && !Over(p.c) {
      assert p.ch.open;
    }
  }

  /**
   * Every run without cancel, failure or crash that has gone on until nothing productive is left has
   * handed the caller exactly the result, whatever the interleaving, the polls and the buffer sizes.
   */
  lemma MaximalRunDeliversAll(batches: seq<Bytes>, chunkSize: nat, es: seq<Event>)
    requires forall i :: 0 <= i < |es| ==> Calm(es[i])
    requires forall e :: !Productive(Run(Init(batches, chunkSize), es), e)
    ensures var p := Run(Init(batches, chunkSize), es);
            Finished(p) && Received(p.log) == Flatten(batches)
  {
    var p := Run(Init(batches, chunkSize), es);
    Reachable(batches, chunkSize, es);
    InitGood(batches, chunkSize);
    HealthyRun(Init(batches, chunkSize), es);
    if !Finished(p) {
      var e := Next(p);
    }
    assert p.sent == batches;
    assert InFlight(p.c, p.ch) == [];
  }
}
