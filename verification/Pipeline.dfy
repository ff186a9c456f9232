/**
 * A stream end to end: a worker sending batches through a channel of capacity one, the consumer
 * slicing them into chunks, and the caller fetching with buffers of any size, in every interleaving.
 */
module Pipeline {
  import opened Xids
  import opened Streams

  /** Where the worker stands; `Holding` is past its cancel check, with a batch ready to send. */
  datatype Worker = Starting | Checking | Holding | Finishing(last: Message) | Exiting | Gone

  /** A chunk that did not fit the caller's buffer, with the `has_more` it was fetched with. */
  datatype Held = Held(data: Bytes, more: bool)

  datatype Reply = Got(data: Bytes, more: bool) | TooSmall(need: nat) | Failed | Polled(status: Status)

  /** `todo` is what the cursor would still yield; `sent` and `log` are the history. */
  datatype Pipe = Pipe(
    todo: seq<Bytes>,
    worker: Worker,
    flag: bool,
    ch: Channel,
    c: Consumer,
    stash: Option<Held>,
    sent: seq<Bytes>,
    crashed: bool,
    log: seq<Reply>)

  datatype Event =
    | Open | Check | Fail(reason: Message) | Send | Finish | Exit | Crash
    | FetchInto(buf: nat) | Poll | Cancel

  function Init(batches: seq<Bytes>, chunkSize: nat): (p: Pipe) {
    Pipe(batches, Starting, false, Channel([], true), NewConsumer(chunkSize), None, [], false, [])
  }

  predicate Enabled(p: Pipe, e: Event) {
    match e
    case Open => p.worker.Starting?
    case Check => p.worker.Checking?
    case Fail(m) => (p.worker.Starting? || p.worker.Checking?) && (m.Error? || m.Cancelled?)
    case Send => p.worker.Holding? && p.ch.queue == [] && p.todo != []
    case Finish => p.worker.Finishing? && p.ch.queue == []
    case Exit => p.worker.Exiting?
    case Crash => !p.worker.Exiting? && !p.worker.Gone?
    case FetchInto(_) => p.stash.Some? || CanFetch(p.c, p.ch)
    case Poll => true
    case Cancel => true
  }

  /** The worker: check the flag, read a batch, send it; an empty read ends the stream. */
  function WorkerStep(p: Pipe, e: Event): (r: Pipe)
    requires Enabled(p, e) && !e.FetchInto? && !e.Poll? && !e.Cancel?
  {
    match e
    case Open => p.(worker := if p.todo == [] then Finishing(Done) else Checking)
    case Check =>
      p.(worker := if p.flag then Finishing(Cancelled) else if p.todo == [] then Finishing(Done) else Holding)
    case Fail(m) => p.(worker := Finishing(m))
    case Send =>
      p.(worker := Checking, todo := p.todo[1..], sent := p.sent + [p.todo[0]],
         ch := p.ch.(queue := [Batch(p.todo[0])]))
    case Finish => p.(worker := Exiting, ch := p.ch.(queue := [p.worker.last]))
    case Exit => p.(worker := Gone, ch := p.ch.(open := false))
    case Crash => p.(worker := Gone, ch := p.ch.(open := false), crashed := true)
  }

  /** A chunk too big for the buffer is kept aside; anything else is answered now. */
  function Hand(out: Fetched, more: bool, buf: nat): (r: (Option<Held>, Reply)) {
    match out
    case Chunk(d) => if |d| > buf then (Some(Held(d, more)), TooSmall(|d|)) else (None, Got(d, more))
    case EndOfStream => (None, Got([], false))
    case _ => (None, Failed)
  }

  /** A kept chunk is answered first, and never touches the stream. */
  function FetchStep(p: Pipe, buf: nat): (r: Pipe)
    requires Enabled(p, FetchInto(buf))
  {
    if p.stash.Some? then
      var h := p.stash.value;
      if |h.data| > buf then p.(log := p.log + [TooSmall(|h.data|)])
      else p.(stash := None, log := p.log + [Got(h.data, h.more)])
    else
      var (c, ch, out) := Fetch(p.c, p.ch);
      var (stash, reply) := Hand(out, !c.done, buf);
      p.(c := c, ch := ch, stash := stash, log := p.log + [reply])
  }

  function PollStep(p: Pipe): (r: Pipe) {
    var (c, ch) := Pull(p.c, p.ch);
    p.(c := c, ch := ch, log := p.log + [Polled(StatusOf(c))])
  }

  /** An event that cannot happen yet changes nothing: its thread is blocked. */
  function Step(p: Pipe, e: Event): (r: Pipe) {
    if !Enabled(p, e) then p
    else match e
      case FetchInto(buf) => FetchStep(p, buf)
      case Poll => PollStep(p)
      case Cancel => p.(flag := true)
      case _ => WorkerStep(p, e)
  }

  function Run(p: Pipe, es: seq<Event>): (r: Pipe)
    decreases |es|
  {
    if es == [] then p else Run(Step(p, es[0]), es[1..])
  }

  function Flatten(bs: seq<Bytes>): (r: Bytes) { if bs == [] then [] else bs[0] + Flatten(bs[1..]) }

  /** What the caller has in hand. */
  function Received(log: seq<Reply>): (r: Bytes) {
    if log == [] then []
    else Received(log[..|log| - 1]) + (if log[|log| - 1].Got? then log[|log| - 1].data else [])
  }

  function Stashed(s: Option<Held>): (r: Bytes) { if s.Some? then s.value.data else [] }

  predicate Over(c: Consumer) { c.done || c.error.Some? }

  /** The caller has been told there is no more. */
  predicate EndSeen(log: seq<Reply>) { exists i :: 0 <= i < |log| && log[i].Got? && !log[i].more }

  lemma SeenAppend(log: seq<Reply>, r: Reply)
    ensures EndSeen(log + [r]) <==> EndSeen(log) || (r.Got? && !r.more)
  {
    var l := log + [r];
    assert l[|log|] == r && forall i :: 0 <= i < |log| ==> l[i] == log[i];
  }

  // ---------------------------------------------------------------------
  // What every step keeps
  // ---------------------------------------------------------------------

  predicate AllBatches(q: seq<Message>) { forall i :: 0 <= i < |q| ==> q[i].Batch? }

  predicate ConsumerOk(p: Pipe) {
    && Sane(p.c)
    && |p.ch.queue| <= 1
    && (Over(p.c) ==> Tail(p.c) == [] && p.ch.queue == [])
    && (p.c.cancelled ==> p.c.done)
    && (p.stash.Some? ==> p.stash.value.more)
  }

  predicate WorkerOk(p: Pipe) {
    && (p.ch.open <==> !p.worker.Gone?)
    && (p.worker.Holding? ==> p.todo != [])
    && (p.worker.Finishing? ==> !p.worker.last.Batch?)
    && (p.crashed ==> p.worker.Gone? && AllBatches(p.ch.queue))
    && (if p.worker.Exiting? || p.worker.Gone?
        then !p.crashed ==> (Over(p.c) || (p.ch.queue != [] && !p.ch.queue[0].Batch?))
        else !Over(p.c) && AllBatches(p.ch.queue))
  }

  /** `Done` says that every batch was sent. */
  predicate DoneMeansAll(p: Pipe) {
    && (p.worker == Finishing(Done) ==> p.todo == [])
    && (p.ch.queue != [] && p.ch.queue[0].Done? ==> p.todo == [])
    && (p.c.done && p.c.error.None? && !p.c.cancelled && !p.crashed ==> p.todo == [])
  }

  predicate Shape(p: Pipe) { ConsumerOk(p) && WorkerOk(p) && DoneMeansAll(p) }

  lemma WorkerShape(p: Pipe, e: Event)
    requires Shape(p) && Enabled(p, e) && !e.FetchInto? && !e.Poll? && !e.Cancel?
    ensures Shape(WorkerStep(p, e))
  {
  }

  lemma FetchConsumerOk(p: Pipe, buf: nat)
    requires ConsumerOk(p) && Enabled(p, FetchInto(buf))
    ensures ConsumerOk(FetchStep(p, buf))
  {
    if p.stash.None? && !Over(p.c) {
      if !NeedsMessage(p.c) {
        CutConsumerOk(p, buf);
      } else if p.ch.queue != [] && p.ch.queue[0].Batch? {
        NewConsumerOk(p, buf);
      }
    }
  }

  lemma NewConsumerOk(p: Pipe, buf: nat)
    requires ConsumerOk(p) && p.stash.None? && !Over(p.c) && NeedsMessage(p.c) && p.ch.queue != []
    requires p.ch.queue[0].Batch?
    ensures ConsumerOk(FetchStep(p, buf))
  {
    SliceConserves(p.c.(current := Some(p.ch.queue[0].data), offset := 0));
  }

  lemma CutConsumerOk(p: Pipe, buf: nat)
    requires ConsumerOk(p) && p.stash.None? && !Over(p.c) && !NeedsMessage(p.c)
    ensures ConsumerOk(FetchStep(p, buf))
  {
    SliceConserves(p.c);
  }

  lemma FetchShape(p: Pipe, buf: nat)
    requires Shape(p) && Enabled(p, FetchInto(buf))
    ensures Shape(FetchStep(p, buf))
  {
    FetchConsumerOk(p, buf);
  }

  lemma PollShape(p: Pipe)
    requires Shape(p)
    ensures Shape(PollStep(p))
  {
  }

  lemma ShapeStep(p: Pipe, e: Event)
    requires Shape(p)
    ensures Shape(Step(p, e))
  {
    if Enabled(p, e) {
      match e
      case FetchInto(buf) => FetchShape(p, buf);
      case Poll => PollShape(p);
      case Cancel =>
      case _ => WorkerShape(p, e);
    }
  }

  // ---------------------------------------------------------------------
  // Conservation
  // ---------------------------------------------------------------------

  lemma FlattenAppend(bs: seq<Bytes>, b: Bytes)
    ensures Flatten(bs + [b]) == Flatten(bs) + b
  {
    if bs == [] {
      assert bs + [b] == [b];
    } else {
      FlattenAppend(bs[1..], b);
      assert (bs + [b])[1..] == bs[1..] + [b];
    }
  }

  lemma ReceivedAppend(log: seq<Reply>, r: Reply)
    ensures Received(log + [r]) == Received(log) + (if r.Got? then r.data else [])
  {
  }

  /** What was taken off the stream for the caller. */
  function Taken(p: Pipe): (r: Bytes) { Received(p.log) + Stashed(p.stash) }

  /** Every byte sent is with the caller, in the stash, in the consumer or in the queue, in that order. */
  predicate Conserved(p: Pipe) { Taken(p) + InFlight(p.c, p.ch) == Flatten(p.sent) }

  predicate Partition(p: Pipe, batches: seq<Bytes>) { p.sent + p.todo == batches }

  lemma QueuedOne(m: Message)
    ensures Queued([m]) == if m.Batch? then m.data else []
  {
  }

  lemma WorkerConserves(p: Pipe, e: Event)
    requires Conserved(p) && Enabled(p, e) && !e.FetchInto? && !e.Poll? && !e.Cancel?
    requires WorkerOk(p)
    ensures Conserved(WorkerStep(p, e))
  {
    var p' := WorkerStep(p, e);
    assert Taken(p') == Taken(p) && Tail(p'.c) == Tail(p.c);
    if e.Send? {
      FlattenAppend(p.sent, p.todo[0]);
      QueuedOne(Batch(p.todo[0]));
      assert InFlight(p.c, p.ch) == Tail(p.c);
      Grouped(Taken(p), Tail(p.c), p.todo[0]);
    } else if e.Finish? {
      QueuedOne(p.worker.last);
    }
  }

  lemma StashFetchTakes(p: Pipe, buf: nat)
    requires p.stash.Some?
    ensures Taken(FetchStep(p, buf)) == Taken(p)
  {
    var h := p.stash.value;
    ReceivedAppend(p.log, if |h.data| > buf then TooSmall(|h.data|) else Got(h.data, h.more));
  }

  lemma StreamFetchTakes(p: Pipe, buf: nat)
    requires p.stash.None? && CanFetch(p.c, p.ch)
    ensures Taken(FetchStep(p, buf)) == Taken(p) + Data(Fetch(p.c, p.ch).2)
  {
  }

  lemma FetchStepConserves(p: Pipe, buf: nat)
    requires Sane(p.c) && Conserved(p) && Enabled(p, FetchInto(buf))
    ensures Conserved(FetchStep(p, buf))
  {
    if p.stash.Some? {
      StashFetchTakes(p, buf);
    } else {
      StreamFetchTakes(p, buf);
      FetchConserves(p.c, p.ch);
      var (c, ch, out) := Fetch(p.c, p.ch);
      Grouped(Taken(p), Data(out), InFlight(c, ch));
    }
  }

  lemma PollStepConserves(p: Pipe)
    requires Sane(p.c) && Conserved(p)
    ensures Conserved(PollStep(p))
  {
    PollConserves(p.c, p.ch);
    ReceivedAppend(p.log, Polled(StatusOf(Pull(p.c, p.ch).0)));
    assert Received(PollStep(p).log) == Received(p.log);
    assert Taken(PollStep(p)) == Taken(p);
  }

  lemma ConservedStep(p: Pipe, e: Event)
    requires Shape(p) && Conserved(p)
    ensures Conserved(Step(p, e))
  {
    if Enabled(p, e) {
      match e
      case FetchInto(buf) => FetchStepConserves(p, buf);
      case Poll => PollStepConserves(p);
      case Cancel => assert Taken(Step(p, e)) == Taken(p);
      case _ => WorkerConserves(p, e);
    }
  }

  lemma PartitionStep(p: Pipe, e: Event, batches: seq<Bytes>)
    requires Partition(p, batches)
    ensures Partition(Step(p, e), batches)
  {
  }

  predicate Good(p: Pipe, batches: seq<Bytes>) { Shape(p) && Conserved(p) && Partition(p, batches) }

  lemma {:induction false} GoodRun(p: Pipe, es: seq<Event>, batches: seq<Bytes>)
    requires Good(p, batches)
    ensures Good(Run(p, es), batches)
    decreases |es|
  {
    if es != [] {
      ShapeStep(p, es[0]);
      ConservedStep(p, es[0]);
      PartitionStep(p, es[0], batches);
      GoodRun(Step(p, es[0]), es[1..], batches);
    }
  }

  lemma InitGood(batches: seq<Bytes>, chunkSize: nat)
    ensures Good(Init(batches, chunkSize), batches)
  {
  }

  /**
   * In every interleaving the bytes the caller accepted, then the stashed chunk, the unread tail of
   * the current batch and the queued batch are exactly the batches sent, a prefix of the result.
   */
  lemma Conservation(batches: seq<Bytes>, chunkSize: nat, es: seq<Event>)
    ensures var p := Run(Init(batches, chunkSize), es);
            && (Received(p.log) + Stashed(p.stash)) + (Tail(p.c) + Queued(p.ch.queue)) == Flatten(p.sent)
            && p.sent <= batches
  {
    InitGood(batches, chunkSize);
    GoodRun(Init(batches, chunkSize), es, batches);
  }
}
