/** The consuming side of a stream: a worker's messages cut into chunks, with polling. */
module Streams {
  import opened Xids

  datatype Message = Batch(data: Bytes) | Done | Cancelled | Error(text: string)

  /** The capacity-one channel, seen from the receiver: what is queued, and whether the sender lives. */
  datatype Channel = Channel(queue: seq<Message>, open: bool)

  datatype Consumer = Consumer(
    current: Option<Bytes>,
    offset: nat,
    chunkSize: nat,
    done: bool,
    error: Option<string>,
    cancelled: bool)

  datatype Fetched = Chunk(data: Bytes) | EndOfStream | StreamError | WorkerCrashed

  datatype Status = Pending | Ready | StDone | StCancelled | StError

  const DISCONNECTED := "Stream worker disconnected unexpectedly"

  function NewConsumer(chunkSize: nat): (c: Consumer) {
    Consumer(None, 0, if chunkSize < 1 then 1 else chunkSize, false, None, false)
  }

  predicate NeedsMessage(c: Consumer) { c.current.None? || c.offset >= |c.current.value| }

  /** A fetch returns at once, or waits for the channel to have something to say. */
  predicate CanFetch(c: Consumer, ch: Channel) {
    c.error.Some? || c.done || !NeedsMessage(c) || ch.queue != [] || !ch.open
  }

  /** What the consumer holds and has not handed out. */
  function Tail(c: Consumer): (r: Bytes) {
    if NeedsMessage(c) then [] else c.current.value[c.offset..]
  }

  function Queued(q: seq<Message>): (r: Bytes) {
    if q == [] then [] else (if q[0].Batch? then q[0].data else []) + Queued(q[1..])
  }

  /** The next chunk of the current batch; a batch that fits whole is handed over uncut. */
  function Slice(c: Consumer): (r: (Consumer, Fetched))
    requires c.current.Some? && c.offset <= |c.current.value|
  {
    var b := c.current.value;
    if c.offset == 0 && c.chunkSize >= |b| then (c.(current := None), Chunk(b))
    else
      var end := if c.offset + c.chunkSize < |b| then c.offset + c.chunkSize else |b|;
      (c.(offset := end), Chunk(b[c.offset..end]))
  }

  function Fetch(c: Consumer, ch: Channel): (r: (Consumer, Channel, Fetched))
    requires CanFetch(c, ch)
  {
    if c.error.Some? then (c, ch, StreamError)
    else if c.done then (c, ch, EndOfStream)
    else if !NeedsMessage(c) then (Slice(c).0, ch, Slice(c).1)
    else if ch.queue == [] then
      (c.(done := true, error := Some(DISCONNECTED)), ch, WorkerCrashed)
    else
      var ch' := ch.(queue := ch.queue[1..]);
      match ch.queue[0]
      case Batch(b) =>
        var s := Slice(c.(current := Some(b), offset := 0));
        (s.0, ch', s.1)
      case Done => (c.(done := true), ch', EndOfStream)
      case Cancelled => (c.(done := true, cancelled := true), ch', EndOfStream)
      case Error(m) => (c.(error := Some(m)), ch', StreamError)
  }

  /** One non-blocking pull, when there is nothing left to hand out. */
  function Pull(c: Consumer, ch: Channel): (r: (Consumer, Channel)) {
    if c.done || c.error.Some? || !NeedsMessage(c) then (c, ch)
    else if ch.queue == [] then (if ch.open then c else c.(done := true), ch)
    else
      var ch' := ch.(queue := ch.queue[1..]);
      match ch.queue[0]
      case Batch(b) => (c.(current := Some(b), offset := 0), ch')
      case Done => (c.(done := true), ch')
      case Cancelled => (c.(done := true, cancelled := true), ch')
      case Error(m) => (c.(error := Some(m)), ch')
  }

  function StatusOf(c: Consumer): (s: Status) {
    if c.error.Some? then StError
    else if c.cancelled then StCancelled
    else if c.done then StDone
    else if !NeedsMessage(c) then Ready
    else Pending
  }

  // ---------------------------------------------------------------------
  // The state object
  // ---------------------------------------------------------------------

  class Receiver {
    var queue: seq<Message>
    var open: bool

    ghost function View(): Channel
      reads this
    {
      Channel(queue, open)
    }
  }

  class StreamingState {
    const receiver: Receiver
    var current: Option<Bytes>
    var offset: nat
    const chunkSize: nat
    var done: bool
    var error: Option<string>
    var cancelled: bool

    ghost function View(): Consumer
      reads this
    {
      Consumer(current, offset, chunkSize, done, error, cancelled)
    }

    constructor (rx: Receiver, chunk: nat)
      ensures View() == NewConsumer(chunk) && receiver == rx
    {
      receiver := rx;
      chunkSize := if chunk < 1 then 1 else chunk;
      current, offset := None, 0;
      done, error, cancelled := false, None, false;
    }

    /** Waits for a message only when the current batch is used up. */
    method FetchNextChunk() returns (r: Fetched)
      requires CanFetch(View(), receiver.View())
      modifies this, receiver
      ensures (View(), receiver.View(), r) == Fetch(old(View()), old(receiver.View()))
    {
      if error.Some? {
        return StreamError;
      }
      if done {
        return EndOfStream;
      }
      var batchLen := if current.Some? then |current.value| else 0;
      if current.None? || offset >= batchLen {
        if receiver.queue == [] {
          done := true;
          error := Some(DISCONNECTED);
          return WorkerCrashed;
        }
        var m := receiver.queue[0];
        receiver.queue := receiver.queue[1..];
        match m
        case Batch(b) =>
          current := Some(b);
          offset := 0;
        case Done =>
          done := true;
          return EndOfStream;
        case Cancelled =>
          done := true;
          cancelled := true;
          return EndOfStream;
        case Error(text) =>
          error := Some(text);
          return StreamError;
      }
      var b := current.value;
      if offset == 0 && chunkSize >= |b| {
        current := None;
        return Chunk(b);
      }
      var end := if offset + chunkSize < |b| then offset + chunkSize else |b|;
      r := Chunk(b[offset..end]);
      offset := end;
    }

    method PollStatus() returns (s: Status)
      modifies this, receiver
      ensures (View(), receiver.View()) == Pull(old(View()), old(receiver.View())) && s == StatusOf(View())
    {
      PullNextMessage();
      if error.Some? {
        return StError;
      }
      if cancelled {
        return StCancelled;
      }
      if done {
        return StDone;
      }
      if current.Some? && offset < |current.value| {
        return Ready;
      }
      return Pending;
    }

    method PullNextMessage()
      modifies this, receiver
      ensures (View(), receiver.View()) == Pull(old(View()), old(receiver.View()))
    {
      if done || error.Some? {
        return;
      }
      if current.Some? && offset < |current.value| {
        return;
      }
      if receiver.queue == [] {
        if !receiver.open {
          done := true;
        }
        return;
      }
      var m := receiver.queue[0];
      receiver.queue := receiver.queue[1..];
      match m
      case Batch(b) =>
        current := Some(b);
        offset := 0;
      case Done =>
        done := true;
      case Cancelled =>
        done := true;
        cancelled := true;
      case Error(text) =>
        error := Some(text);
    }
  }

  // ---------------------------------------------------------------------
  // One call
  // ---------------------------------------------------------------------

  predicate Sane(c: Consumer) { c.chunkSize >= 1 && (c.current.Some? ==> c.offset <= |c.current.value|) }

  /** Bytes between the worker and the caller. */
  function InFlight(c: Consumer, ch: Channel): (r: Bytes) { Tail(c) + Queued(ch.queue) }

  function Data(r: Fetched): (b: Bytes) { if r.Chunk? then r.data else [] }

  lemma Grouped(a: Bytes, b: Bytes, c: Bytes)
    ensures (a + b) + c == a + (b + c)
  {
  }

  lemma SliceConserves(c: Consumer)
    requires Sane(c) && c.current.Some?
    ensures var (c', r) := Slice(c);
            && Sane(c') && r.Chunk? && r.data + Tail(c') == Tail(c)
            && |r.data| == if c.chunkSize < |Tail(c)| then c.chunkSize else |Tail(c)|
  {
  }

  /** A fetch hands out exactly what leaves the consumer and the queue, in order; a chunk is as long as
      the chunk size, unless less than that is left of its batch. */
  lemma FetchConserves(c: Consumer, ch: Channel)
    requires Sane(c) && CanFetch(c, ch)
    ensures var (c', ch', r) := Fetch(c, ch);
            && Sane(c') && |Data(r)| <= c.chunkSize && (r.Chunk? && Tail(c') != [] ==> |r.data| == c.chunkSize)
            && Data(r) + InFlight(c', ch') == InFlight(c, ch)
  {
    if c.error.None? && !c.done {
      if !NeedsMessage(c) {
        SliceConserves(c);
        Grouped(Slice(c).1.data, Tail(Slice(c).0), Queued(ch.queue));
      } else if ch.queue != [] {
        FetchReceives(c, ch);
      }
    }
  }

  lemma FetchReceives(c: Consumer, ch: Channel)
    requires Sane(c) && c.error.None? && !c.done && NeedsMessage(c) && ch.queue != []
    ensures var (c', ch', r) := Fetch(c, ch);
            && Sane(c') && |Data(r)| <= c.chunkSize && (r.Chunk? && Tail(c') != [] ==> |r.data| == c.chunkSize)
            && Data(r) + InFlight(c', ch') == InFlight(c, ch)
  {
    if ch.queue[0].Batch? {
      var s := c.(current := Some(ch.queue[0].data), offset := 0);
      SliceConserves(s);
      Grouped(Slice(s).1.data, Tail(Slice(s).0), Queued(ch.queue[1..]));
    }
  }

  /** A poll moves bytes from the queue to the consumer and loses none. */
  lemma PollConserves(c: Consumer, ch: Channel)
    requires Sane(c)
    ensures var (c', ch') := Pull(c, ch);
            Sane(c') && InFlight(c', ch') == InFlight(c, ch)
  {
    if !(c.done || c.error.Some? || !NeedsMessage(c) || ch.queue == []) {
      PollReceives(c, ch);
    }
  }

  lemma PollReceives(c: Consumer, ch: Channel)
    requires Sane(c) && c.error.None? && !c.done && NeedsMessage(c) && ch.queue != []
    ensures var (c', ch') := Pull(c, ch);
            Sane(c') && InFlight(c', ch') == InFlight(c, ch)
  {
    if ch.queue[0].Batch? {
      var b := ch.queue[0].data;
      assert Tail(c.(current := Some(b), offset := 0)) == b;
    }
  }

  /** Ready is a promise: the next fetch yields bytes and does not touch the channel. */
  lemma ReadyMeansBytes(c: Consumer, ch: Channel)
    requires Sane(c) && StatusOf(Pull(c, ch).0) == Ready
    ensures var (c', ch') := Pull(c, ch);
            CanFetch(c', ch') && Fetch(c', ch').2.Chunk? && Fetch(c', ch').2.data != [] && Fetch(c', ch').1 == ch'
  {
  }

  /** The consumer can say nothing more by itself. */
  predicate Waiting(c: Consumer) { !c.done && c.error.None? && NeedsMessage(c) }

  /**
   * What each status says about the fetch that follows: Ready, and only Ready, that it yields bytes
   * without touching the channel; Error that it answers the stream's error; Done and Cancelled that
   * it answers the end; Pending that it waits, or comes upon a crash.
   */
  lemma PollTells(c: Consumer, ch: Channel)
    requires Sane(c) && (c.cancelled ==> c.done) && |ch.queue| <= 1
    ensures var (c', ch') := Pull(c, ch);
            && (StatusOf(c') == Ready <==>
                  && CanFetch(c', ch') && Fetch(c', ch').2.Chunk? && Fetch(c', ch').2.data != []
                  && Fetch(c', ch').1 == ch')
            && (StatusOf(c') == StError <==> CanFetch(c', ch') && Fetch(c', ch').2.StreamError?)
            && (StatusOf(c') == StDone || StatusOf(c') == StCancelled <==>
                  CanFetch(c', ch') && Fetch(c', ch').2.EndOfStream?)
            && (StatusOf(c') == Pending <==> !CanFetch(c', ch') || Fetch(c', ch').2.WorkerCrashed?)
  {
    var (c', ch') := Pull(c, ch);
    if !NeedsMessage(c') {
      SliceConserves(c');
    }
  }

  /** And what each says about the stream that was polled: Pending, and only Pending, that there is
      neither a byte nor an end in it yet. */
  lemma PollFinds(c: Consumer, ch: Channel)
    requires |ch.queue| <= 1 && (c.cancelled ==> c.done)
    ensures var st := StatusOf(Pull(c, ch).0);
            && (st == Pending <==> Waiting(c) && ((ch.queue == [] && ch.open) || ch.queue == [Batch([])]))
            && (st == Ready <==> !c.done && c.error.None? && (!NeedsMessage(c) || HoldsBytes(ch.queue)))
            && (st == StError <==> c.error.Some? || (Waiting(c) && ch.queue != [] && ch.queue[0].Error?))
            && (st == StCancelled <==> c.error.None? && (c.cancelled || (Waiting(c) && ch.queue == [Cancelled])))
            && (st == StDone <==> c.error.None? && !c.cancelled
                                  && (c.done || (Waiting(c) && (ch.queue == [Done] || (ch.queue == [] && !ch.open)))))
  {
    if ch.queue != [] {
      assert ch.queue == [ch.queue[0]];
    }
  }

  /** What a fetch answers, by what it finds: the stream's error if there is one, the end if it has come or
      is next, a crash exactly when it needs a message and there will be none, and bytes otherwise. Whatever
      ends a stream ends it for good. */
  lemma FetchFinds(c: Consumer, ch: Channel)
    requires Sane(c) && |ch.queue| <= 1 && CanFetch(c, ch)
    ensures var (c', ch', r) := Fetch(c, ch);
            && (r.StreamError? <==> c.error.Some? || (Waiting(c) && ch.queue != [] && ch.queue[0].Error?))
            && (r.EndOfStream? <==>
                  c.error.None? && (c.done || (Waiting(c) && (ch.queue == [Done] || ch.queue == [Cancelled]))))
            && (r.WorkerCrashed? <==> Waiting(c) && ch.queue == [])
            && (r.EndOfStream? || r.WorkerCrashed? ==> c'.done) && (r.WorkerCrashed? ==> c'.error == Some(DISCONNECTED))
            && (r.StreamError? ==> c'.error.Some?) && (r.Chunk? ==> !c'.done && c'.error.None?)
            && (c'.cancelled <==> c.cancelled || (Waiting(c) && ch.queue == [Cancelled]))
            && (!r.Chunk? && !r.WorkerCrashed? ==> CanFetch(c', ch') && Fetch(c', ch').2 == r)
  {
    if ch.queue != [] {
      assert ch.queue == [ch.queue[0]];
    }
  }

  predicate HoldsBytes(q: seq<Message>) { q != [] && q[0].Batch? && q[0].data != [] }
}
