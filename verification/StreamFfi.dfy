/** Streams as the caller sees them: one id, a fetch with a buffer, a chunk kept when it does not fit. */
module StreamFfi {
  import opened Xids
  import opened Streams
  import opened Pipeline

  /** A result held whole (in memory or in a spill file), or one fed by a worker. */
  datatype Source =
    | Buffer(data: Bytes, offset: nat, chunkSize: nat)
    | Batched(consumer: Consumer, channel: Channel)
    | AsyncBatched(consumer: Consumer, channel: Channel)

  /** A fetch would not wait. */
  predicate Answers(s: Source) { !s.Buffer? ==> CanFetch(s.consumer, s.channel) }

  function Feed(s: Source, c: Consumer, ch: Channel): (r: Source) {
    if s.Batched? then Batched(c, ch) else AsyncBatched(c, ch)
  }

  function NextChunk(s: Source): (r: (Source, Fetched))
    requires Answers(s)
  {
    match s
    case Buffer(data, offset, chunkSize) =>
      if offset >= |data| then (s, EndOfStream)
      else
        var end := if offset + chunkSize < |data| then offset + chunkSize else |data|;
        (s.(offset := end), Chunk(data[offset..end]))
    case _ => var (c, ch, r) := Fetch(s.consumer, s.channel); (Feed(s, c, ch), r)
  }

  function HasMore(s: Source): (b: bool) { if s.Buffer? then s.offset < |s.data| else !s.consumer.done }

  /** Only the asynchronous kind looks into its channel; the others say Ready until they are done. */
  function PollSource(s: Source): (r: (Source, Status)) {
    if s.AsyncBatched? then
      var (c, ch) := Pull(s.consumer, s.channel);
      (AsyncBatched(c, ch), StatusOf(c))
    else (s, if HasMore(s) then Ready else StDone)
  }

  function FetchReply(s: Source, stash: Option<Held>, buf: nat): (r: (Source, Option<Held>, Reply))
    requires stash.Some? || Answers(s)
  {
    if stash.Some? then
      if |stash.value.data| > buf then (s, stash, TooSmall(|stash.value.data|))
      else (s, None, Got(stash.value.data, stash.value.more))
    else
      var (s', out) := NextChunk(s);
      var (kept, reply) := Hand(out, HasMore(s'), buf);
      (s', kept, reply)
  }

  /** What the caller is told: the return code, the bytes written and whether there is more. */
  predicate Tells(r: Reply, code: int, written: Bytes, more: bool) {
    match r
    case Got(d, m) => code == 0 && written == d && more == m
    case TooSmall(_) => code == -2
    case _ => code == -1
  }

  /** The stream tables behind the ids. While a fetch waits, its stream is out of the table. */
  class StreamTable {
    var streams: map<nat, Source>
    var connections: map<nat, nat>
    var pending: map<nat, Held>
    ghost var out: set<nat>

    ghost predicate Valid()
      reads this
    {
      streams.Keys + out == connections.Keys && streams.Keys !! out && pending.Keys <= streams.Keys
    }

    ghost function Stash(id: nat): (h: Option<Held>)
      reads this
    {
      if id in pending then Some(pending[id]) else None
    }

    constructor ()
      ensures Valid() && streams == map[] && out == {}
    {
      streams, connections, pending, out := map[], map[], map[], {};
    }

    /** The locked first half: a kept chunk is answered at once, otherwise the stream is taken out. */
    method BeginFetch(id: nat, buf: nat) returns (stream: Option<Source>, code: int, written: Bytes, more: bool)
      requires Valid()
      modifies this
      ensures Valid() && connections == old(connections) && pending - {id} == old(pending) - {id}
      ensures stream.Some? <==> id in old(streams) && id !in old(pending)
      ensures stream.Some? ==>
                && stream.value == old(streams)[id] && streams == old(streams) - {id}
                && pending == old(pending) && out == old(out) + {id}
      ensures stream.None? ==> streams == old(streams) && out == old(out)
      ensures id in old(pending) ==>
                var r := FetchReply(old(streams)[id], old(Stash(id)), buf);
                Stash(id) == r.1 && Tells(r.2, code, written, more)
      ensures id !in old(streams) ==> code == -1 && pending == old(pending)
    {
      stream, code, written, more := None, -1, [], false;
      if id in pending {
        var h := pending[id];
        if |h.data| > buf {
          code := -2;
          return;
        }
        pending := pending - {id};
        return None, 0, h.data, h.more;
      }
      if id in streams {
        stream := Some(streams[id]);
        streams := streams - {id};
        out := out + {id};
      }
    }

    /** The second half, once the stream has answered: it goes back, and its chunk out or aside. */
    method EndFetch(id: nat, stream: Source, buf: nat) returns (code: int, written: Bytes, more: bool)
      requires Valid() && id in out && Answers(stream)
      modifies this
      ensures Valid() && connections == old(connections) && out == old(out) - {id}
      ensures pending - {id} == old(pending) - {id}
      ensures var r := FetchReply(stream, None, buf);
              streams == old(streams)[id := r.0] && Stash(id) == r.1 && Tells(r.2, code, written, more)
    {
      code, written, more := -1, [], false;
      var (after, chunk) := NextChunk(stream);
      var moreAfter := HasMore(after);
      streams := streams[id := after];
      out := out - {id};
      match chunk
      case Chunk(d) =>
        if |d| > buf {
          pending := pending[id := Held(d, moreAfter)];
          code := -2;
          return;
        }
        return 0, d, moreAfter;
      case EndOfStream =>
        return 0, [], false;
      case _ =>
    }

    /** A fetch that need not wait: only this stream's entries move. */
    method StreamFetch(id: nat, buf: nat) returns (code: int, written: Bytes, more: bool)
      requires Valid() && (id in streams && id !in pending ==> Answers(streams[id]))
      modifies this
      ensures Valid() && connections == old(connections) && out == old(out)
      ensures id !in old(streams) ==> code == -1 && streams == old(streams) && pending == old(pending)
      ensures id in old(streams) ==>
                var r := FetchReply(old(streams)[id], old(Stash(id)), buf);
                && streams == old(streams)[id := r.0] && Stash(id) == r.1
                && pending - {id} == old(pending) - {id} && Tells(r.2, code, written, more)
    {
      var stream;
      stream, code, written, more := BeginFetch(id, buf);
      if stream.Some? {
        code, written, more := EndFetch(id, stream.value, buf);
      }
    }

    /** A stream that is being fetched from cannot be found. */
    method StreamPoll(id: nat) returns (code: int, status: Status)
      requires Valid()
      modifies this
      ensures Valid() && connections == old(connections) && pending == old(pending) && out == old(out)
      ensures code == 0 <==> id in old(streams)
      ensures code == 0 ==>
                var r := PollSource(old(streams)[id]); streams == old(streams)[id := r.0] && status == r.1
      ensures code != 0 ==> streams == old(streams)
    {
      status := Pending;
      if id !in streams {
        return -1, status;
      }
      var (after, s) := PollSource(streams[id]);
      streams := streams[id := after];
      return 0, s;
    }

    /** Nor closed: all three entries go together, or none does. */
    method StreamClose(id: nat) returns (code: int)
      requires Valid()
      modifies this
      ensures Valid() && out == old(out) && (code == 0 <==> id in old(streams))
      ensures code == 0 ==>
                && streams == old(streams) - {id} && connections == old(connections) - {id}
                && pending == old(pending) - {id}
      ensures code != 0 ==> streams == old(streams) && connections == old(connections) && pending == old(pending)
    {
      if id !in streams {
        return 1;
      }
      streams := streams - {id};
      connections := connections - {id};
      pending := pending - {id};
      return 0;
    }
  }

  /** The return codes: 0 exactly for an answer, which is then handed over whole, -2 exactly for a buffer
      that is too small, -1 for everything else. */
  lemma Codes(r: Reply, code: int, written: Bytes, more: bool)
    requires Tells(r, code, written, more)
    ensures code == 0 <==> r.Got?
    ensures code == -2 <==> r.TooSmall?
    ensures code == -1 <==> !r.Got? && !r.TooSmall?
    ensures code == 0 ==> r == Got(written, more)
  {
  }

  /** The pipeline's fetch is this one, for both kinds that have a worker. */
  lemma FetchIsPipelineFetch(p: Pipe, s: Source, buf: nat)
    requires Enabled(p, FetchInto(buf)) && (s == Batched(p.c, p.ch) || s == AsyncBatched(p.c, p.ch))
    ensures var r := FetchReply(s, p.stash, buf);
            FetchStep(p, buf) == p.(c := r.0.consumer, ch := r.0.channel, stash := r.1, log := p.log + [r.2])
  {
  }

  predicate SaneSource(s: Source) { if s.Buffer? then s.chunkSize >= 1 else Sane(s.consumer) }

  /** A fetch now yields bytes, and takes nothing from the channel to do so. */
  predicate YieldsBytes(s: Source) {
    && Answers(s) && NextChunk(s).1.Chunk? && NextChunk(s).1.data != []
    && (!s.Buffer? ==> NextChunk(s).0.channel == s.channel)
  }

  /**
   * What a polled Ready is worth: always bytes from a buffered or an asynchronous stream; from a
   * batched one only if part of a batch is left, and the fetch waits exactly when there is none, no
   * error is known and the channel is empty with its worker alive.
   */
  lemma ReadyIff(s: Source)
    requires SaneSource(s) && PollSource(s).1 == Ready
    ensures var s' := PollSource(s).0;
            && (YieldsBytes(s') <==> !s.Batched? || (s.consumer.error.None? && !NeedsMessage(s.consumer)))
            && (!Answers(s') <==>
                  s.Batched? && s.consumer.error.None? && NeedsMessage(s.consumer)
                  && s.channel.queue == [] && s.channel.open)
  {
    if s.AsyncBatched? {
      ReadyMeansBytes(s.consumer, s.channel);
    } else if s.Batched? && !NeedsMessage(s.consumer) {
      SliceConserves(s.consumer);
    } else if s.Batched? && Answers(s) && NextChunk(s).1.Chunk? {
      WaitingYieldsNone(s.consumer, s.channel);
    }
  }

  /** Without part of a batch left, a fetch that yields bytes has received them. */
  lemma WaitingYieldsNone(c: Consumer, ch: Channel)
    requires !c.done && NeedsMessage(c) && CanFetch(c, ch) && Fetch(c, ch).2.Chunk?
    ensures Fetch(c, ch).1 != ch
  {
    assert |Fetch(c, ch).1.queue| < |ch.queue|;
  }

  // ---------------------------------------------------------------------
  // Buffered streams
  // ---------------------------------------------------------------------

  /** Fetches and polls keep the kind of a stream. */
  lemma KindKept(s: Source)
    ensures PollSource(s).0.Buffer? == s.Buffer? && PollSource(s).0.Batched? == s.Batched?
    ensures Answers(s) ==> NextChunk(s).0.Buffer? == s.Buffer? && NextChunk(s).0.Batched? == s.Batched?
  {
  }

  /** Where there is no channel to look into: a buffered stream says Ready exactly when the next fetch
      yields bytes and Done exactly when it answers the end; a batched one says Done exactly when it has
      come to its end, and Ready until then. */
  lemma PlainPoll(s: Source)
    requires SaneSource(s) && !s.AsyncBatched?
    ensures PollSource(s).0 == s && (PollSource(s).1 == Ready || PollSource(s).1 == StDone)
    ensures s.Buffer? ==> (PollSource(s).1 == Ready <==> YieldsBytes(s))
    ensures s.Buffer? ==> (PollSource(s).1 == StDone <==> NextChunk(s).1.EndOfStream?)
    ensures s.Batched? ==> (PollSource(s).1 == StDone <==> s.consumer.done)
  {
  }

  /** A chunk is as long as the chunk size, unless less than that is left. */
  lemma FullChunk(s: Source)
    requires SaneSource(s) && Answers(s) && NextChunk(s).1.Chunk?
    ensures var (s', r) := NextChunk(s);
            var size := if s.Buffer? then s.chunkSize else s.consumer.chunkSize;
            var left := if s'.Buffer? then s'.offset < |s'.data| else Tail(s'.consumer) != [];
            |r.data| <= size && (left ==> |r.data| == size)
  {
    if !s.Buffer? {
      FetchConserves(s.consumer, s.channel);
    }
  }

  datatype Reader = Reader(source: Source, stash: Option<Held>, log: seq<Reply>)

  function Read(r: Reader, buf: nat): (r': Reader)
    requires r.source.Buffer?
    ensures r'.source.Buffer?
  {
    var f := FetchReply(r.source, r.stash, buf);
    Reader(f.0, f.1, r.log + [f.2])
  }

  function ReadAll(r: Reader, bufs: seq<nat>): (r': Reader)
    requires r.source.Buffer?
    ensures r'.source.Buffer?
    decreases |bufs|
  {
    if bufs == [] then r else ReadAll(Read(r, bufs[0]), bufs[1..])
  }

  function OpenBuffer(data: Bytes, chunkSize: nat): (r: Reader)
    ensures r.source.Buffer?
  {
    Reader(Buffer(data, 0, chunkSize), None, [])
  }

  predicate BufferOk(r: Reader, data: Bytes) {
    && r.source.Buffer? && r.source.data == data && r.source.offset <= |data| && r.source.chunkSize >= 1
    && Received(r.log) + Stashed(r.stash) == data[..r.source.offset]
    && (r.stash.Some? ==> (r.stash.value.more <==> r.source.offset < |data|))
    && (EndSeen(r.log) ==> r.source.offset == |data| && r.stash.None?)
  }

  /** Fetches left before the end is reported, counting only those whose buffer is large enough. */
  function Remaining(r: Reader): (n: nat)
    requires r.source.Buffer?
  {
    (if r.source.offset < |r.source.data| then |r.source.data| - r.source.offset else 0)
    + (if r.stash.Some? then 1 else 0)
    + (if EndSeen(r.log) then 0 else 1)
  }

  lemma ReadKeeps(r: Reader, data: Bytes, buf: nat)
    requires BufferOk(r, data)
    ensures BufferOk(Read(r, buf), data)
  {
  }

  lemma ReadAdvances(r: Reader, data: Bytes, buf: nat)
    requires BufferOk(r, data)
    ensures Remaining(Read(r, buf)) <= Remaining(r)
    ensures buf >= r.source.chunkSize && (r.stash.Some? ==> buf >= |r.stash.value.data|) && !EndSeen(r.log)
            ==> Remaining(Read(r, buf)) < Remaining(r)
  {
    SeenAppend(r.log, FetchReply(r.source, r.stash, buf).2);
  }

  lemma {:induction false} BufferRun(r: Reader, data: Bytes, bufs: seq<nat>)
    requires BufferOk(r, data)
    ensures BufferOk(ReadAll(r, bufs), data)
    ensures Remaining(ReadAll(r, bufs)) <= Remaining(r)
    decreases |bufs|
  {
    if bufs != [] {
      ReadKeeps(r, data, bufs[0]);
      ReadAdvances(r, data, bufs[0]);
      BufferRun(Read(r, bufs[0]), data, bufs[1..]);
    }
  }

  /** Any sequence of buffer sizes: nothing lost, repeated or moved, and "no more" means all of it. */
  lemma BufferedFetches(data: Bytes, chunkSize: nat, bufs: seq<nat>)
    requires chunkSize >= 1
    ensures var r := ReadAll(OpenBuffer(data, chunkSize), bufs);
            && r.source.offset <= |data|
            && Received(r.log) + Stashed(r.stash) == data[..r.source.offset]
            && (EndSeen(r.log) ==> Received(r.log) == data)
  {
    BufferRun(OpenBuffer(data, chunkSize), data, bufs);
    var r := ReadAll(OpenBuffer(data, chunkSize), bufs);
    assert EndSeen(r.log) ==> data[..r.source.offset] == data;
  }

  predicate Chunked(r: Reader) { r.source.Buffer? && (r.stash.Some? ==> |r.stash.value.data| <= r.source.chunkSize) }

  lemma {:induction false} LargeBuffersFinish(r: Reader, data: Bytes, bufs: seq<nat>)
    requires BufferOk(r, data) && Chunked(r) && |bufs| >= Remaining(r)
    requires forall i :: 0 <= i < |bufs| ==> bufs[i] >= r.source.chunkSize
    ensures Received(ReadAll(r, bufs).log) == data && EndSeen(ReadAll(r, bufs).log)
    decreases |bufs|
  {
    if EndSeen(r.log) {
      BufferRun(r, data, bufs);
      EndStays(r, bufs);
      assert data[..|data|] == data;
    } else {
      ReadKeeps(r, data, bufs[0]);
      ReadAdvances(r, data, bufs[0]);
      LargeBuffersFinish(Read(r, bufs[0]), data, bufs[1..]);
    }
  }

  lemma {:induction false} EndStays(r: Reader, bufs: seq<nat>)
    requires r.source.Buffer? && EndSeen(r.log)
    ensures EndSeen(ReadAll(r, bufs).log)
    decreases |bufs|
  {
    if bufs != [] {
      SeenAppend(r.log, FetchReply(r.source, r.stash, bufs[0]).2);
      EndStays(Read(r, bufs[0]), bufs[1..]);
    }
  }
}
