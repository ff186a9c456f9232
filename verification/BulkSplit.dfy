/** Splitting a bulk insert among workers: row ranges, packed null bits, and getting every row back. */
module BulkSplit {
  import opened Xids
  import opened Rounding

  type Bitmap = seq<bv8>

  // ---------------------------------------------------------------------
  // Null bits
  // ---------------------------------------------------------------------

  /** One bit of a byte, least significant first. */
  function Mask(j: nat): (m: bv8)
    requires j < 8
  {
    match j
    case 0 => 0x01
    case 1 => 0x02
    case 2 => 0x04
    case 3 => 0x08
    case 4 => 0x10
    case 5 => 0x20
    case 6 => 0x40
    case _ => 0x80
  }

  /** A row beyond the bitmap is not null. */
  predicate IsNull(bitmap: Bitmap, row: nat) {
    row / 8 < |bitmap| && bitmap[row / 8] & Mask(row % 8) != 0
  }

  /** Bytes needed for that many bits. */
  function BitmapSize(n: nat): (k: nat)
    ensures 8 * k - 8 < n <= 8 * k
  {
    (n + 7) / 8
  }

  /** The bits of a range of rows, packed afresh from bit zero; the padding bits are clear. */
  method SliceNullBitmap(bitmap: Bitmap, start: nat, len: nat) returns (out: array<bv8>)
    ensures fresh(out) && out.Length == BitmapSize(len)
    ensures forall i :: 0 <= i < len ==> (IsNull(out[..], i) <==> IsNull(bitmap, start + i))
    ensures forall i :: len <= i ==> !IsNull(out[..], i)
  {
    out := new bv8[BitmapSize(len)](_ => 0);
    for i := 0 to len
      invariant forall k: nat :: IsNull(out[..], k) <==> k < i && IsNull(bitmap, start + k)
    {
      if IsNull(bitmap, start + i) {
        ghost var before := out[..];
        out[i / 8] := out[i / 8] | Mask(i % 8);
        SetBitIn(before, out[..], i);
      }
    }
  }

  lemma SetBitIn(before: Bitmap, after: Bitmap, i: nat)
    requires i / 8 < |before| && after == before[i / 8 := before[i / 8] | Mask(i % 8)]
    ensures forall k: nat :: IsNull(after, k) <==> k == i || IsNull(before, k)
  {
  }

  // ---------------------------------------------------------------------
  // Row ranges
  // ---------------------------------------------------------------------

  datatype Range = Range(start: nat, end: nat)

  /** Ranges of `size` rows from `start` on, the last one shorter. */
  function Steps(start: nat, rows: nat, size: nat): (r: seq<Range>)
    requires size >= 1
    decreases rows - start
  {
    if start >= rows then []
    else [Range(start, if start + size < rows then start + size else rows)] + Steps(start + size, rows, size)
  }

  function Workers(rows: nat, parallelism: nat): (w: nat) {
    var p := if parallelism < 1 then 1 else parallelism;
    if p < rows then p else rows
  }

  function RowChunkRanges(rows: nat, parallelism: nat): (r: seq<Range>) {
    if rows == 0 then [] else Steps(0, rows, Ceiling(rows, Workers(rows, parallelism)))
  }

  /** Non-empty, each starting where the one before ended, from `start` to `end`. */
  predicate Tiles(rs: seq<Range>, start: nat, end: nat) {
    if rs == [] then start == end
    else rs[0].start == start && start < rs[0].end <= end && Tiles(rs[1..], rs[0].end, end)
  }

  lemma {:induction false} StepsTile(start: nat, rows: nat, size: nat)
    requires size >= 1 && start <= rows
    ensures Tiles(Steps(start, rows, size), start, rows)
    ensures start < rows ==> (|Steps(start, rows, size)| - 1) * size < rows - start
    decreases rows - start
  {
    if start < rows {
      var rest := Steps(start + size, rows, size);
      assert Steps(start, rows, size)[1..] == rest;
      if start + size < rows {
        StepsTile(start + size, rows, size);
        assert (|rest| - 1) * size + size == |rest| * size;
      }
    }
  }

  lemma Scaled(a: int, b: int, k: nat)
    ensures a >= b ==> a * k >= b * k
  {
  }

  /** And how many there are. */
  lemma {:induction false} StepsCount(start: nat, rows: nat, size: nat)
    requires size >= 1 && start <= rows
    ensures |Steps(start, rows, size)| == Ceiling(rows - start, size)
    ensures forall k :: 0 <= k < |Steps(start, rows, size)| - 1 ==>
              Steps(start, rows, size)[k].end - Steps(start, rows, size)[k].start == size
    decreases rows - start
  {
    if start + size < rows {
      StepsCount(start + size, rows, size);
      var n := Ceiling(rows - start - size, size);
      assert (n + 1) * size == n * size + size;
      CeilingUnique(rows - start, size, n + 1, Ceiling(rows - start, size));
    } else if start < rows {
      CeilingUnique(rows - start, size, 1, Ceiling(rows - start, size));
    }
  }

  /** With `p` workers for at least as many rows, or one each for fewer, all ranges but the last have
      rows / p rows, rounded up, and there are as many as that takes. */
  lemma RangesEven(rows: nat, parallelism: nat)
    requires rows > 0
    ensures var p := if parallelism == 0 then 1 else if parallelism < rows then parallelism else rows;
            var rs := RowChunkRanges(rows, parallelism);
            && |rs| == Ceiling(rows, Ceiling(rows, p))
            && forall k :: 0 <= k < |rs| - 1 ==> rs[k].end - rs[k].start == Ceiling(rows, p)
  {
    StepsCount(0, rows, Ceiling(rows, Workers(rows, parallelism)));
  }

  /** The ranges tile all rows, and no more of them than workers asked for or rows there are. */
  lemma RangesCover(rows: nat, parallelism: nat)
    ensures Tiles(RowChunkRanges(rows, parallelism), 0, rows)
    ensures |RowChunkRanges(rows, parallelism)| <= rows
    ensures |RowChunkRanges(rows, parallelism)| <= if parallelism < 1 then 1 else parallelism
  {
    if rows > 0 {
      var w := Workers(rows, parallelism);
      var size := Ceiling(rows, w);
      StepsTile(0, rows, size);
      assert size * w == w * size;
      Scaled(|Steps(0, rows, size)| - 1, w, size);
    }
  }

  // ---------------------------------------------------------------------
  // Payloads
  // ---------------------------------------------------------------------

  datatype Timestamp = Timestamp(year: int, month: int, day: int, hour: int, minute: int, second: int, fraction: int)

  datatype Column =
    | I32(ints: seq<int>, nulls: Option<Bitmap>)
    | I64(ints: seq<int>, nulls: Option<Bitmap>)
    | Text(rows: seq<Bytes>, maxLen: nat, nulls: Option<Bitmap>)
    | Binary(rows: seq<Bytes>, maxLen: nat, nulls: Option<Bitmap>)
    | Times(times: seq<Timestamp>, nulls: Option<Bitmap>)

  datatype Cell = Number(n: int) | Raw(data: Bytes) | Moment(t: Timestamp)

  datatype Payload = Payload(table: string, columns: seq<string>, rowCount: nat, data: seq<Column>)

  function Length(c: Column): (n: nat) {
    match c
    case I32(v, _) => |v|
    case I64(v, _) => |v|
    case Text(r, _, _) => |r|
    case Binary(r, _, _) => |r|
    case Times(t, _) => |t|
  }

  function ValueAt(c: Column, row: nat): (v: Cell)
    requires row < Length(c)
  {
    match c
    case I32(v, _) => Number(v[row])
    case I64(v, _) => Number(v[row])
    case Text(r, _, _) => Raw(r[row])
    case Binary(r, _, _) => Raw(r[row])
    case Times(t, _) => Moment(t[row])
  }

  predicate NullAt(c: Column, row: nat) { c.nulls.Some? && IsNull(c.nulls.value, row) }

  /** Every column has a value for every row, as parsing guarantees. */
  predicate Rectangular(p: Payload) { forall i :: 0 <= i < |p.data| ==> Length(p.data[i]) == p.rowCount }

  predicate SameKind(a: Column, b: Column) {
    && (a.I32? <==> b.I32?) && (a.I64? <==> b.I64?) && (a.Text? <==> b.Text?) && (a.Binary? <==> b.Binary?)
    && (a.Times? <==> b.Times?) && (a.nulls.Some? <==> b.nulls.Some?)
    && (a.Text? ==> a.maxLen == b.maxLen) && (a.Binary? ==> a.maxLen == b.maxLen)
  }

  /** Values and null bits of a column, row by row. */
  predicate ColumnSlice(c: Column, s: Column, start: nat, end: nat) {
    && start <= end <= Length(c) && SameKind(c, s) && Length(s) == end - start
    && forall k :: 0 <= k < end - start ==>
         ValueAt(s, k) == ValueAt(c, start + k) && (NullAt(s, k) <==> NullAt(c, start + k))
  }

  predicate PayloadSlice(p: Payload, s: Payload, start: nat, end: nat) {
    && start <= end && s.table == p.table && s.columns == p.columns && s.rowCount == end - start
    && |s.data| == |p.data| && forall i :: 0 <= i < |p.data| ==> ColumnSlice(p.data[i], s.data[i], start, end)
  }

  method SliceNulls(nulls: Option<Bitmap>, start: nat, len: nat) returns (r: Option<Bitmap>)
    ensures r.Some? <==> nulls.Some?
    ensures r.Some? ==> |r.value| == BitmapSize(len)
    ensures r.Some? ==> forall i :: 0 <= i < len ==> (IsNull(r.value, i) <==> IsNull(nulls.value, start + i))
  {
    if nulls.None? {
      return None;
    }
    var bits := SliceNullBitmap(nulls.value, start, len);
    return Some(bits[..]);
  }

  method SliceColumn(c: Column, start: nat, end: nat) returns (s: Column)
    requires start <= end <= Length(c)
    ensures ColumnSlice(c, s, start, end)
  {
    var nulls := SliceNulls(c.nulls, start, end - start);
    match c
    case I32(v, _) => s := I32(v[start..end], nulls);
    case I64(v, _) => s := I64(v[start..end], nulls);
    case Text(r, m, _) => s := Text(r[start..end], m, nulls);
    case Binary(r, m, _) => s := Binary(r[start..end], m, nulls);
    case Times(t, _) => s := Times(t[start..end], nulls);
  }

  /** None for a range outside the payload. */
  method SlicePayloadRows(p: Payload, start: nat, end: nat) returns (r: Option<Payload>)
    requires Rectangular(p)
    ensures r.None? <==> start > end || end > p.rowCount
    ensures r.Some? ==> PayloadSlice(p, r.value, start, end)
  {
    if start > end || end > p.rowCount {
      return None;
    }
    var data := [];
    for i := 0 to |p.data|
      invariant |data| == i && forall j :: 0 <= j < i ==> ColumnSlice(p.data[j], data[j], start, end)
    {
      var s := SliceColumn(p.data[i], start, end);
      data := data + [s];
    }
    return Some(Payload(p.table, p.columns, end - start, data));
  }

  // ---------------------------------------------------------------------
  // Putting the rows back together
  // ---------------------------------------------------------------------

  /** What the chunks hold in column `i`, one after another: values with their null bits. */
  function Gathered(chunks: seq<Payload>, i: nat): (cells: seq<(Cell, bool)>)
    requires forall k :: 0 <= k < |chunks| ==> i < |chunks[k].data|
  {
    if chunks == [] then [] else Cells(chunks[0].data[i]) + Gathered(chunks[1..], i)
  }

  function Cells(c: Column): (cells: seq<(Cell, bool)>) {
    seq(Length(c), row requires 0 <= row < Length(c) => (ValueAt(c, row), NullAt(c, row)))
  }

  predicate SlicedAlong(p: Payload, rs: seq<Range>, chunks: seq<Payload>) {
    && |chunks| == |rs|
    && forall k :: 0 <= k < |rs| ==>
         rs[k].start <= rs[k].end <= p.rowCount && PayloadSlice(p, chunks[k], rs[k].start, rs[k].end)
  }

  lemma SliceCells(c: Column, s: Column, start: nat, end: nat)
    requires ColumnSlice(c, s, start, end)
    ensures Cells(s) == Cells(c)[start..end]
  {
  }

  lemma {:induction false} Reassembles(p: Payload, rs: seq<Range>, chunks: seq<Payload>, start: nat, i: nat)
    requires Rectangular(p) && i < |p.data| && start <= p.rowCount
    requires Tiles(rs, start, p.rowCount) && SlicedAlong(p, rs, chunks)
    ensures Gathered(chunks, i) == Cells(p.data[i])[start..]
    decreases |rs|
  {
    if rs != [] {
      var all := Cells(p.data[i]);
      assert ColumnSlice(p.data[i], chunks[0].data[i], rs[0].start, rs[0].end);
      SliceCells(p.data[i], chunks[0].data[i], rs[0].start, rs[0].end);
      Reassembles(p, rs[1..], chunks[1..], rs[0].end, i);
      assert all[start..rs[0].end] + all[rs[0].end..] == all[start..];
    }
  }

  /** The split the workers insert: every row of every column, value and null bit, exactly once, in order. */
  method SplitPayload(p: Payload, parallelism: nat) returns (chunks: seq<Payload>)
    requires Rectangular(p)
    ensures |chunks| <= p.rowCount && |chunks| <= if parallelism < 1 then 1 else parallelism
    ensures forall k :: 0 <= k < |chunks| ==> chunks[k].rowCount >= 1 && |chunks[k].data| == |p.data|
    ensures forall i :: 0 <= i < |p.data| ==> Gathered(chunks, i) == Cells(p.data[i])
  {
    var ranges := RowChunkRanges(p.rowCount, parallelism);
    RangesCover(p.rowCount, parallelism);
    TilesWithin(ranges, 0, p.rowCount);
    chunks := [];
    for k := 0 to |ranges|
      invariant |chunks| == k
      invariant forall j :: 0 <= j < k ==> PayloadSlice(p, chunks[j], ranges[j].start, ranges[j].end)
    {
      var chunk := SlicePayloadRows(p, ranges[k].start, ranges[k].end);
      chunks := chunks + [chunk.value];
    }
    forall i | 0 <= i < |p.data|
      ensures Gathered(chunks, i) == Cells(p.data[i])
    {
      Reassembles(p, ranges, chunks, 0, i);
    }
  }

  lemma {:induction false} TilesWithin(rs: seq<Range>, start: nat, end: nat)
    requires Tiles(rs, start, end)
    ensures start <= end && forall k :: 0 <= k < |rs| ==> start <= rs[k].start < rs[k].end <= end
    decreases |rs|
  {
    if rs != [] {
      TilesWithin(rs[1..], rs[0].end, end);
      assert forall k :: 1 <= k < |rs| ==> rs[k] == rs[1..][k - 1];
    }
  }
}
