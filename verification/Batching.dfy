/** Cutting a cursor's rows into batches, and what a drained stream therefore carries. */
module Batching {
  import opened Xids
  import opened Streams
  import opened Pipeline
  import opened PipelineEnds
  import opened Rounding

  type Row = seq<Option<Bytes>>

  /** How the worker's loop ended. */
  datatype Ending = Completed | Stopped | CursorFailed | SinkFailed

  /** The batches of a result: full ones, then the rest; an empty result is one empty batch. */
  function Cut(rows: seq<Row>, size: nat): (bs: seq<seq<Row>>)
    requires size >= 1
  {
    if |rows| <= size then [rows] else [rows[..size]] + Cut(rows[size..], size)
  }

  function Join(bs: seq<seq<Row>>): (r: seq<Row>) { if bs == [] then [] else bs[0] + Join(bs[1..]) }

  function BatchSize(fetchSize: nat): (size: nat) { if fetchSize < 1 then 1 else fetchSize }

  /** What is still to be cut after `pos` rows: nothing, once a batch has carried the last row. */
  function Rest(rows: seq<Row>, pos: nat, size: nat, first: bool): (bs: seq<seq<Row>>)
    requires size >= 1 && pos <= |rows|
  {
    if pos < |rows| || first then Cut(rows[pos..], size) else []
  }

  /**
   * Reads up to `fetchSize` rows at a time and hands each batch on. A failing cursor fails when its
   * rows run out; `cancelled` is the flag as read before each batch and `refused` says which batches
   * the receiver no longer takes.
   */
  method ExecuteStreamingBatched(rows: seq<Row>, failing: bool, fetchSize: nat,
                                 cancelled: nat -> bool, refused: nat -> bool)
    returns (sent: seq<seq<Row>>, end: Ending)
    ensures sent <= Cut(rows, BatchSize(fetchSize))
    ensures forall i :: 0 <= i < |sent| ==> !cancelled(i) && !refused(i)
    ensures end.Completed? ==> !failing && sent == Cut(rows, BatchSize(fetchSize))
    ensures end.Completed? && rows != [] ==> !cancelled(|sent|)
    ensures end.Stopped? ==> cancelled(|sent|)
    ensures end.SinkFailed? ==> refused(|sent|) && |sent| < |Cut(rows, BatchSize(fetchSize))|
    ensures end.CursorFailed? ==> failing && |rows| - |Join(sent)| < BatchSize(fetchSize)
  {
    var size := BatchSize(fetchSize);
    sent := [];
    var pos, first := 0, true;
    assert rows[0..] == rows;
    while true
      invariant pos <= |rows| && Join(sent) == rows[..pos]
      invariant Cut(rows, size) == sent + Rest(rows, pos, size, first)
      invariant forall i :: 0 <= i < |sent| ==> !cancelled(i) && !refused(i)
      invariant first <==> sent == []
      decreases |rows| - pos, first
    {
      if cancelled(|sent|) {
        return sent, Stopped;
      }
      var batch, ok := ReadBatch(rows, pos, failing, size);
      if !ok {
        return sent, CursorFailed;
      }
      CutHead(rows, pos, pos + |batch|, size);
      JoinAppend(sent, batch);
      pos := pos + |batch|;
      if batch == [] {
        if first {
          if refused(|sent|) {
            return sent, SinkFailed;
          }
          sent := sent + [batch];
        }
        return sent, Completed;
      }
      if refused(|sent|) {
        return sent, SinkFailed;
      }
      sent := sent + [batch];
      first := false;
    }
  }

  /** The inner loop: rows from `start` until the batch is full or the cursor has no more. */
  method ReadBatch(rows: seq<Row>, start: nat, failing: bool, size: nat) returns (batch: seq<Row>, ok: bool)
    requires start <= |rows|
    ensures ok ==> start + |batch| <= |rows| && batch == rows[start..start + |batch|] && |batch| <= size
    ensures ok && start + |batch| < |rows| ==> |batch| == size
    ensures ok && failing ==> |batch| == size
    ensures !ok ==> failing && |rows| - start < size
  {
    batch := [];
    while |batch| < size
      invariant start + |batch| <= |rows| && batch == rows[start..start + |batch|] && |batch| <= size
    {
      if start + |batch| == |rows| {
        return batch, !failing;
      }
      batch := batch + [rows[start + |batch|]];
    }
    return batch, true;
  }

  lemma CutHead(rows: seq<Row>, start: nat, pos: nat, size: nat)
    requires size >= 1 && start <= pos <= |rows| && pos - start <= size && (pos < |rows| ==> pos - start == size)
    ensures start < pos || rows == [] ==>
              Cut(rows[start..], size) == [rows[start..pos]] + Rest(rows, pos, size, false)
  {
    if pos < |rows| {
      assert rows[start..][..size] == rows[start..pos] && rows[start..][size..] == rows[pos..];
    } else {
      assert rows[start..] == rows[start..pos];
    }
  }

  lemma JoinAppend(bs: seq<seq<Row>>, b: seq<Row>)
    ensures Join(bs + [b]) == Join(bs) + b
  {
    if bs == [] {
      assert bs + [b] == [b];
    } else {
      JoinAppend(bs[1..], b);
      assert (bs + [b])[1..] == bs[1..] + [b];
    }
  }

  /** No row is lost, repeated or moved. */
  lemma {:induction false} CutJoins(rows: seq<Row>, size: nat)
    requires size >= 1
    ensures Join(Cut(rows, size)) == rows
    decreases |rows|
  {
    if |rows| > size {
      CutJoins(rows[size..], size);
      assert ([rows[..size]] + Cut(rows[size..], size))[1..] == Cut(rows[size..], size);
    } else {
      assert [rows][1..] == [];
    }
  }

  /** There are max(1, ceil(n / size)) batches, all but the last full, and none empty unless it is alone. */
  lemma {:induction false} CutShape(rows: seq<Row>, size: nat)
    requires size >= 1
    ensures var bs := Cut(rows, size);
            && |bs| == (if rows == [] then 1 else Ceiling(|rows|, size))
            && (forall i :: 0 <= i < |bs| - 1 ==> |bs[i]| == size)
            && |bs[|bs| - 1]| <= size && (rows != [] ==> bs[|bs| - 1] != [])
    decreases |rows|
  {
    if |rows| > size {
      CutShape(rows[size..], size);
      var n := Ceiling(|rows| - size, size);
      assert (n + 1) * size == n * size + size;
      CeilingUnique(|rows|, size, n + 1, Ceiling(|rows|, size));
    } else if rows != [] {
      CeilingUnique(|rows|, size, 1, Ceiling(|rows|, size));
    }
  }

  /** What the loop sends, in terms of the fetch size: every batch but the last has that many rows, or
      one if zero was asked for, the last no more; and all of them together are the rows. */
  lemma BatchesAsAsked(rows: seq<Row>, fetchSize: nat, sent: seq<seq<Row>>)
    requires sent <= Cut(rows, BatchSize(fetchSize))
    ensures var size := if fetchSize == 0 then 1 else fetchSize;
            && (forall i :: 0 <= i < |sent| ==> |sent[i]| <= size)
            && (forall i :: 0 <= i < |sent| - 1 ==> |sent[i]| == size)
            && |Cut(rows, BatchSize(fetchSize))| == (if rows == [] then 1 else Ceiling(|rows|, size))
    ensures sent == Cut(rows, BatchSize(fetchSize)) ==> Join(sent) == rows
  {
    CutShape(rows, BatchSize(fetchSize));
    CutJoins(rows, BatchSize(fetchSize));
  }

  // ---------------------------------------------------------------------
  // Rows in, rows out
  // ---------------------------------------------------------------------

  function EncodeAll(enc: seq<Row> -> Bytes, bs: seq<seq<Row>>): (r: seq<Bytes>) {
    if bs == [] then [] else [enc(bs[0])] + EncodeAll(enc, bs[1..])
  }

  /** The batch encoding says where a batch ends. */
  ghost predicate SelfDelimiting(enc: seq<Row> -> Bytes, dec: Bytes -> Option<(seq<Row>, Bytes)>) {
    && (forall b: seq<Row>, rest: Bytes :: dec(enc(b) + rest) == Some((b, rest)))
    && (forall b: seq<Row> :: enc(b) != [])
  }

  /** The rows in a byte string made of encoded batches. */
  function DecodeAll(dec: Bytes -> Option<(seq<Row>, Bytes)>, data: Bytes): (rows: seq<Row>)
    decreases |data|
  {
    if data == [] then []
    else match dec(data)
      case None => []
      case Some((b, rest)) => if |rest| < |data| then b + DecodeAll(dec, rest) else b
  }

  lemma {:induction false} DecodeEncoded(
    enc: seq<Row> -> Bytes, dec: Bytes -> Option<(seq<Row>, Bytes)>, bs: seq<seq<Row>>)
    requires SelfDelimiting(enc, dec)
    ensures DecodeAll(dec, Flatten(EncodeAll(enc, bs))) == Join(bs)
  {
    if bs != [] {
      DecodeEncoded(enc, dec, bs[1..]);
      var rest := Flatten(EncodeAll(enc, bs[1..]));
      assert EncodeAll(enc, bs)[1..] == EncodeAll(enc, bs[1..]);
      assert dec(enc(bs[0]) + rest) == Some((bs[0], rest));
      assert enc(bs[0]) != [];
    }
  }

  /**
   * From the cursor to the caller: whatever the fetch size, chunk size, buffers, polls and
   * interleaving, a stream that is not cancelled and does not fail yields the cursor's rows.
   */
  lemma RowsDelivered(rows: seq<Row>, fetchSize: nat, chunkSize: nat, es: seq<Event>,
                      enc: seq<Row> -> Bytes, dec: Bytes -> Option<(seq<Row>, Bytes)>)
    requires SelfDelimiting(enc, dec)
    requires Cancel !in es && Fail(Cancelled) !in es && (Poll !in es || Crash !in es)
    requires EndSeen(Run(Init(EncodeAll(enc, Cut(rows, BatchSize(fetchSize))), chunkSize), es).log)
    ensures var p := Run(Init(EncodeAll(enc, Cut(rows, BatchSize(fetchSize))), chunkSize), es);
            DecodeAll(dec, Received(p.log)) == rows
  {
    CleanEnd(EncodeAll(enc, Cut(rows, BatchSize(fetchSize))), chunkSize, es);
    DecodeEncoded(enc, dec, Cut(rows, BatchSize(fetchSize)));
    CutJoins(rows, BatchSize(fetchSize));
  }

  // ---------------------------------------------------------------------
  // The loop is the worker
  // ---------------------------------------------------------------------

  /** What the loop does in the pipeline, and what makes room for it. */
  predicate Sending(e: Event) { e.Open? || e.Check? || e.Send? || e.FetchInto? }

  lemma {:induction false} RunBoth(p: Pipe, es: seq<Event>, more: seq<Event>)
    ensures Run(p, es + more) == Run(Run(p, es), more)
    decreases |es|
  {
    if es == [] {
      assert es + more == more;
    } else {
      RunBoth(Step(p, es[0]), es[1..], more);
      assert (es + more)[1..] == es[1..] + more;
    }
  }

  lemma RunEvent(p: Pipe, e: Event)
    ensures Run(p, [e]) == Step(p, e)
  {
    assert [e][1..] == [];
  }

  /** The worker's side of the pipeline. */
  predicate SameWorker(p: Pipe, q: Pipe) {
    q.worker == p.worker && q.todo == p.todo && q.sent == p.sent && q.flag == p.flag && Shape(q)
  }

  /** Fetches make room in the channel. */
  lemma {:induction false} MakeRoom(p: Pipe) returns (es: seq<Event>)
    requires Shape(p)
    ensures SameWorker(p, Run(p, es)) && Run(p, es).ch.queue == []
    ensures forall i :: 0 <= i < |es| ==> Sending(es[i])
    decreases Distance(p)
  {
    if p.ch.queue == [] {
      es := [];
    } else {
      var e := FetchInto(if p.stash.Some? then |p.stash.value.data| else p.c.chunkSize);
      FetchShape(p, e.buf);
      FetchDistance(p, e.buf);
      assert SameWorker(p, Step(p, e));
      var rest := MakeRoom(Step(p, e));
      es := [e] + rest;
      RunEvent(p, e);
      RunBoth(p, [e], rest);
    }
  }

  /** One turn of the loop: check the flag, read a batch, hand it on. */
  lemma SendOne(p: Pipe) returns (es: seq<Event>)
    requires Shape(p) && p.worker.Checking? && !p.flag && p.todo != []
    ensures var q := Run(p, es);
            && Shape(q) && q.worker.Checking? && !q.flag && q.todo == p.todo[1..] && q.sent == p.sent + [p.todo[0]]
    ensures forall i :: 0 <= i < |es| ==> Sending(es[i])
  {
    var p1 := Step(p, Check);
    ShapeStep(p, Check);
    var room := MakeRoom(p1);
    var p2 := Run(p1, room);
    ShapeStep(p2, Send);
    es := [Check] + room + [Send];
    RunEvent(p, Check);
    RunBoth(p, [Check], room);
    RunBoth(p, [Check] + room, [Send]);
    RunEvent(p2, Send);
  }

  lemma Shift(sent: seq<Bytes>, todo: seq<Bytes>, k: nat)
    requires 0 < k <= |todo|
    ensures todo[1..][k - 1..] == todo[k..] && sent + [todo[0]] + todo[1..][..k - 1] == sent + todo[..k]
  {
  }

  lemma {:induction false} SendMany(p: Pipe, k: nat) returns (es: seq<Event>)
    requires Shape(p) && p.worker.Checking? && !p.flag && k <= |p.todo|
    ensures var q := Run(p, es);
            && Shape(q) && q.worker.Checking? && !q.flag && q.todo == p.todo[k..] && q.sent == p.sent + p.todo[..k]
    ensures forall i :: 0 <= i < |es| ==> Sending(es[i])
    decreases k
  {
    if k == 0 {
      es := [];
    } else {
      var first := SendOne(p);
      var rest := SendMany(Run(p, first), k - 1);
      es := first + rest;
      RunBoth(p, first, rest);
      Shift(p.sent, p.todo, k);
    }
  }

  lemma {:induction false} EncodePrefix(enc: seq<Row> -> Bytes, bs: seq<seq<Row>>, k: nat)
    requires k <= |bs|
    ensures |EncodeAll(enc, bs)| == |bs| && EncodeAll(enc, bs)[..k] == EncodeAll(enc, bs[..k])
  {
    if bs != [] {
      if k > 0 {
        EncodePrefix(enc, bs[1..], k - 1);
        assert bs[..k][1..] == bs[1..][..k - 1];
      } else {
        EncodePrefix(enc, bs[1..], 0);
      }
    }
  }

  /**
   * Whatever prefix of the batches the loop hands on is what the pipeline's worker sends in a run of
   * checks and sends, with fetches to make room; then a check sees the flag, or the end of the rows.
   */
  lemma LoopIsWorkerRun(rows: seq<Row>, fetchSize: nat, sent: seq<seq<Row>>, enc: seq<Row> -> Bytes, chunkSize: nat)
    returns (es: seq<Event>)
    requires sent <= Cut(rows, BatchSize(fetchSize))
    ensures var p := Run(Init(EncodeAll(enc, Cut(rows, BatchSize(fetchSize))), chunkSize), es);
            && p.sent == EncodeAll(enc, sent) && p.worker.Checking? && !p.flag
            && Step(Step(p, Cancel), Check).worker == Finishing(Cancelled)
            && (sent == Cut(rows, BatchSize(fetchSize)) ==> Step(p, Check).worker == Finishing(Done))
    ensures forall i :: 0 <= i < |es| ==> Sending(es[i])
  {
    var bs, k := Cut(rows, BatchSize(fetchSize)), |sent|;
    var p0 := Init(EncodeAll(enc, bs), chunkSize);
    InitGood(EncodeAll(enc, bs), chunkSize);
    EncodePrefix(enc, bs, k);
    assert sent == bs[..k];
    ShapeStep(p0, Open);
    var p1 := Step(p0, Open);
    var rest := SendMany(p1, k);
    es := [Open] + rest;
    RunEvent(p0, Open);
    RunBoth(p0, [Open], rest);
  }
}
