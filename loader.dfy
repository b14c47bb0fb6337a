/** The insertion stage of the performance job (`createDummyData`): one `Sfmta`
    per key of the range, buffered and submitted to the store in batches of
    `BATCH_SIZE` records, with no flush after the loop. */
module Loader {
  import opened Types
  import opened Records
  import opened Batches

  /** The values drawn from the random generator for one record: everything
      the job does not fix, which is all but the key and the speed. */
  datatype Draw = Draw(vehicleTag: Int32, longitude: Float32, latitude: Float32, heading: Float32)

  /** The record built for loop index `i`. */
  function NewRecord(i: Int32, d: Draw): Record
  {
    Record(i, d.vehicleTag, d.longitude, d.latitude, FLOAT_FOUR, d.heading)
  }

  /** The loop bound `startIndex + total`, evaluated in Java `int` arithmetic:
      the true sum when it fits, otherwise the sum moved by `2^32` back into range. */
  function Bound(startIndex: Int32, total: Int32): (r: Int32)
    ensures INT32_MIN <= startIndex + total <= INT32_MAX ==> r == startIndex + total
    ensures startIndex + total > INT32_MAX ==> r == startIndex + total - 0x1_0000_0000
    ensures startIndex + total < INT32_MIN ==> r == startIndex + total + 0x1_0000_0000
  {
    Wrap32(startIndex + total)
  }

  /** The records the loop builds when its index runs from `lo` up to, but
      not including, `hi`: none at all when `hi <= lo`. */
  function Generated(lo: Int32, hi: Int32, draw: Int32 -> Draw): seq<Record>
  {
    var n := if lo < hi then hi - lo else 0;
    seq(n, j requires 0 <= j < n => NewRecord(lo + j, draw(lo + j)))
  }

  /** The primary keys of a sequence of records. */
  function Keys(rs: seq<Record>): set<int>
  {
    set r | r in rs :: r.reportTime
  }

  /** Stand-in for `kuduContext.insertRows` on the job's table: a log of the
      batches handed to the store, in call order. */
  class KuduSink {
    ghost var inserted: seq<seq<Record>>

    constructor ()
      ensures inserted == []
    {
      inserted := [];
    }

    method InsertRows(rows: seq<Record>)
      modifies this
      ensures inserted == old(inserted) + [rows]
    {
      inserted := inserted + [rows];
    }
  }

  /** `createDummyData`: builds one record per key in `[startIndex, startIndex + total)`
      (bound computed in `int`), adds it to the buffer, and submits and clears
      the buffer whenever it holds exactly `BATCH_SIZE` records. The buffer
      as it stands after the loop is returned as `unflushed`: the job never
      submits it. */
  method CreateDummyData(sink: KuduSink, startIndex: Int32, total: Int32, draw: Int32 -> Draw)
    returns (unflushed: seq<Record>)
    modifies sink
    ensures sink.inserted == old(sink.inserted) + Chunks(Generated(startIndex, Bound(startIndex, total), draw))
    ensures unflushed == Remainder(Generated(startIndex, Bound(startIndex, total), draw))
  {
    var bound := Bound(startIndex, total);
    var rows: seq<Record> := [];
    ghost var built: seq<Record> := [];
    var i: Int32 := startIndex;
    while i < bound
      invariant startIndex <= i && (i <= bound || i == startIndex)
      invariant built == Generated(startIndex, i, draw)
      invariant rows == Remainder(built) && |rows| < BATCH_SIZE
      invariant sink.inserted == old(sink.inserted) + Chunks(built)
    {
      var d := draw(i);
      var s := new Sfmta(i, d.vehicleTag, d.longitude, d.latitude, FLOAT_FOUR, d.heading);
      GeneratedSnoc(startIndex, i, draw);
      ChunksSnoc(built, s.Value());
      built := built + [s.Value()];
      rows := rows + [s.Value()];
      if |rows| == BATCH_SIZE {
        sink.InsertRows(rows);
        rows := [];
      }
      i := i + 1;
    }
    unflushed := rows;
  }

  /** The loader as evidently intended: the same loop followed by a flush of
      the partial last batch, so that every generated record reaches the store. */
  method CreateDummyDataFlushed(sink: KuduSink, startIndex: Int32, total: Int32, draw: Int32 -> Draw)
    modifies sink
    ensures sink.inserted == old(sink.inserted) + AllBatches(Generated(startIndex, Bound(startIndex, total), draw))
  {
    var rows := CreateDummyData(sink, startIndex, total, draw);
    if rows != [] {
      sink.InsertRows(rows);
    }
  }

  /** Extending the index range by one key appends that key's record. */
  lemma GeneratedSnoc(lo: Int32, i: Int32, draw: Int32 -> Draw)
    requires lo <= i < INT32_MAX
    ensures Generated(lo, i + 1, draw) == Generated(lo, i, draw) + [NewRecord(i, draw(i))]
  {
  }

  /** A slice of the generated records is what the loop builds over the
      corresponding sub-range. */
  lemma GeneratedSlice(lo: Int32, hi: Int32, draw: Int32 -> Draw, a: nat, b: nat)
    requires a <= b <= |Generated(lo, hi, draw)|
    ensures Generated(lo, hi, draw)[a..b] == Generated(lo + a, lo + b, draw)
  {
  }

  /** The loop produces `hi - lo` records (none when `hi <= lo`), each carrying
      the loop index as its key and the speed `4.0f`, with keys strictly
      ascending. */
  lemma GeneratedKeys(lo: Int32, hi: Int32, draw: Int32 -> Draw)
    ensures |Generated(lo, hi, draw)| == if lo < hi then hi - lo else 0
    ensures forall j | 0 <= j < |Generated(lo, hi, draw)| ::
      Generated(lo, hi, draw)[j].reportTime == lo + j && Generated(lo, hi, draw)[j].speed == FLOAT_FOUR
    ensures forall a, b | 0 <= a < b < |Generated(lo, hi, draw)| ::
      Generated(lo, hi, draw)[a].reportTime < Generated(lo, hi, draw)[b].reportTime
  {
    var g := Generated(lo, hi, draw);
    forall j | 0 <= j < |g|
      ensures g[j] == NewRecord(lo + j, draw(lo + j))
    {
    }
  }

  /** Each key in `[lo, hi)` is the key of some generated record, and no
      other key is. With strictly ascending keys, each occurs exactly once. */
  lemma GeneratedKeySet(lo: Int32, hi: Int32, draw: Int32 -> Draw)
    ensures forall k :: k in Keys(Generated(lo, hi, draw)) <==> lo <= k < hi
  {
    var g := Generated(lo, hi, draw);
    forall k: int | lo <= k < hi
      ensures k in Keys(g)
    {
      assert g[k - lo] == NewRecord(k, draw(k));
      assert g[k - lo] in g;
    }
    forall r | r in g
      ensures lo <= r.reportTime < hi
    {
      var j :| 0 <= j < |g| && g[j] == r;
      assert g[j] == NewRecord(lo + j, draw(lo + j));
    }
  }

  /** When `startIndex + total` fits in an `int` and `total >= 0`, exactly
      `total` records are built, `total / BATCH_SIZE` batches are submitted and
      `total % BATCH_SIZE` records are left in the buffer. */
  lemma CountWithoutOverflow(startIndex: Int32, total: Int32, draw: Int32 -> Draw)
    requires 0 <= total && startIndex + total <= INT32_MAX
    ensures |Generated(startIndex, Bound(startIndex, total), draw)| == total
    ensures |Chunks(Generated(startIndex, Bound(startIndex, total), draw))| == total / BATCH_SIZE
    ensures |Remainder(Generated(startIndex, Bound(startIndex, total), draw))| == total % BATCH_SIZE
  {
  }

  /** A non-positive `total` builds and submits nothing, as long as the
      bound does not wrap below `Integer.MIN_VALUE`. */
  lemma NothingForNonPositiveTotal(startIndex: Int32, total: Int32, draw: Int32 -> Draw)
    requires total <= 0 && INT32_MIN <= startIndex + total
    ensures Generated(startIndex, Bound(startIndex, total), draw) == []
    ensures Chunks(Generated(startIndex, Bound(startIndex, total), draw)) == []
    ensures Remainder(Generated(startIndex, Bound(startIndex, total), draw)) == []
  {
  }

  /** If `startIndex + total` overflows past `Integer.MAX_VALUE`, the bound
      wraps to a value below `startIndex` and the loop never runs. */
  lemma NothingOnOverflow(startIndex: Int32, total: Int32, draw: Int32 -> Draw)
    requires startIndex + total > INT32_MAX
    ensures Bound(startIndex, total) < startIndex
    ensures Generated(startIndex, Bound(startIndex, total), draw) == []
  {
  }

  /** If `startIndex + total` underflows below `Integer.MIN_VALUE` (a negative
      `total`), the bound wraps to a large value and the loop builds
      `total + 2^32` records, at least `2^31`. */
  lemma ManyOnUnderflow(startIndex: Int32, total: Int32, draw: Int32 -> Draw)
    requires startIndex + total < INT32_MIN
    ensures total < 0
    ensures |Generated(startIndex, Bound(startIndex, total), draw)| == total + 0x1_0000_0000 >= 0x8000_0000
  {
  }

  /** Batch `k` holds exactly the keys `startIndex + BATCH_SIZE * k` up to but
      not including `startIndex + BATCH_SIZE * (k + 1)`, in order, so batches
      are contiguous and pairwise disjoint. */
  lemma BatchKeys(startIndex: Int32, total: Int32, draw: Int32 -> Draw, k: nat)
    requires k < |Chunks(Generated(startIndex, Bound(startIndex, total), draw))|
    ensures |Chunks(Generated(startIndex, Bound(startIndex, total), draw))[k]| == BATCH_SIZE
    ensures forall j | 0 <= j < BATCH_SIZE ::
      Chunks(Generated(startIndex, Bound(startIndex, total), draw))[k][j].reportTime
        == startIndex + BATCH_SIZE * k + j
  {
    var g := Generated(startIndex, Bound(startIndex, total), draw);
    ChunkAt(g, k);
    GeneratedKeys(startIndex, Bound(startIndex, total), draw);
  }

  /** Without overflow, the keys that reach the store are exactly the first
      `BATCH_SIZE * (total / BATCH_SIZE)` keys of the range. */
  lemma InsertedKeys(startIndex: Int32, total: Int32, draw: Int32 -> Draw)
    requires 0 <= total && startIndex + total <= INT32_MAX
    ensures forall k ::
      (k in Keys(Flatten(Chunks(Generated(startIndex, Bound(startIndex, total), draw)))))
        <==> startIndex <= k < startIndex + total - total % BATCH_SIZE
  {
    var hi := Bound(startIndex, total);
    var g := Generated(startIndex, hi, draw);
    assert hi == startIndex + total;
    assert |g| == total;
    var n := total - total % BATCH_SIZE;
    ChunksThenRemainder(g);
    GeneratedSlice(startIndex, hi, draw, 0, n);
    assert Flatten(Chunks(g)) == g[0..n] == Generated(startIndex, startIndex + n, draw);
    GeneratedKeySet(startIndex, startIndex + n, draw);
  }

  /** Without overflow, the last `total % BATCH_SIZE` keys of the range are
      exactly the keys left in the unflushed buffer. */
  lemma UnflushedKeys(startIndex: Int32, total: Int32, draw: Int32 -> Draw)
    requires 0 <= total && startIndex + total <= INT32_MAX
    ensures forall k ::
      (k in Keys(Remainder(Generated(startIndex, Bound(startIndex, total), draw))))
        <==> startIndex + total - total % BATCH_SIZE <= k < startIndex + total
  {
    var hi := Bound(startIndex, total);
    var g := Generated(startIndex, hi, draw);
    assert hi == startIndex + total;
    assert |g| == total;
    var n := total - total % BATCH_SIZE;
    RemainderIsSuffix(g);
    GeneratedSlice(startIndex, hi, draw, n, total);
    assert Remainder(g) == g[n..total] == Generated(startIndex + n, hi, draw);
    GeneratedKeySet(startIndex + n, hi, draw);
  }

  /** The job as written, on `startIndex = 0` and `total = 10001`: one insert
      call of 10000 records, and the record with key 10000 is left in the
      buffer and never submitted. */
  lemma PartialBatchLost(draw: Int32 -> Draw)
    ensures |Chunks(Generated(0, Bound(0, 10001), draw))| == 1
    ensures Remainder(Generated(0, Bound(0, 10001), draw)) == [NewRecord(10000, draw(10000))]
    ensures 10000 !in Keys(Flatten(Chunks(Generated(0, Bound(0, 10001), draw))))
  {
    InsertedKeys(0, 10001, draw);
    var g := Generated(0, Bound(0, 10001), draw);
    RemainderIsSuffix(g);
  }

  /** With the final flush, the same input gives two insert calls, of 10000
      records and of 1 record, and every key reaches the store. */
  lemma PartialBatchFlushed(draw: Int32 -> Draw)
    ensures |AllBatches(Generated(0, Bound(0, 10001), draw))| == 2
    ensures |AllBatches(Generated(0, Bound(0, 10001), draw))[0]| == 10000
    ensures AllBatches(Generated(0, Bound(0, 10001), draw))[1] == [NewRecord(10000, draw(10000))]
    ensures forall k :: k in Keys(Flatten(AllBatches(Generated(0, Bound(0, 10001), draw)))) <==> 0 <= k < 10001
  {
    var g := Generated(0, Bound(0, 10001), draw);
    PartialBatchLost(draw);
    AllBatchesCover(g);
    GeneratedKeySet(0, Bound(0, 10001), draw);
  }
}
