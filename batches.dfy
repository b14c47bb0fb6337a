/** How a stream of records is cut into insert calls of `BATCH_SIZE` records.
    `Chunks` is what the loader submits while streaming, `Remainder` is what is
    still buffered at the end, and `AllBatches` adds the final partial flush that
    the job leaves out (see the loader module). */
module Batches {

  /** The buffer is flushed as soon as it holds this many records. */
  const BATCH_SIZE: nat := 10000

  /** The full batches of `s`, front to back. */
  function Chunks<T>(s: seq<T>): (r: seq<seq<T>>)
    ensures |r| == |s| / BATCH_SIZE
    ensures forall k | 0 <= k < |r| :: |r[k]| == BATCH_SIZE
    decreases |s|
  {
    if |s| < BATCH_SIZE then [] else [s[..BATCH_SIZE]] + Chunks(s[BATCH_SIZE..])
  }

  /** What is left of `s` once every full batch has been taken off the front. */
  function Remainder<T>(s: seq<T>): (r: seq<T>)
    ensures |r| == |s| % BATCH_SIZE
    decreases |s|
  {
    if |s| < BATCH_SIZE then s else Remainder(s[BATCH_SIZE..])
  }

  /** Every batch of `s`, the trailing partial one included when there is one. */
  function AllBatches<T>(s: seq<T>): seq<seq<T>>
  {
    Chunks(s) + if Remainder(s) == [] then [] else [Remainder(s)]
  }

  /** The records of a sequence of batches, in submission order. */
  function Flatten<T>(ss: seq<seq<T>>): seq<T>
  {
    if ss == [] then [] else ss[0] + Flatten(ss[1..])
  }

  lemma {:induction false} FlattenAppend<T>(xs: seq<seq<T>>, ys: seq<seq<T>>)
    ensures Flatten(xs + ys) == Flatten(xs) + Flatten(ys)
  {
    if xs != [] {
      calc {
        Flatten(xs + ys);
        (xs + ys)[0] + Flatten((xs + ys)[1..]);
        { assert (xs + ys)[1..] == xs[1..] + ys; }
        xs[0] + Flatten(xs[1..] + ys);
        { FlattenAppend(xs[1..], ys); }
        xs[0] + Flatten(xs[1..]) + Flatten(ys);
      }
    } else {
      assert xs + ys == ys;
    }
  }

  /** The full batches are exactly the first `BATCH_SIZE * (|s| / BATCH_SIZE)`
      elements of `s`, in order; the remainder is the rest. */
  lemma {:induction false} ChunksThenRemainder<T>(s: seq<T>)
    ensures Flatten(Chunks(s)) == s[..|s| - |s| % BATCH_SIZE]
    ensures Flatten(Chunks(s)) + Remainder(s) == s
    decreases |s|
  {
    if |s| >= BATCH_SIZE {
      var t := s[BATCH_SIZE..];
      ChunksThenRemainder(t);
      var m := |t| - |t| % BATCH_SIZE;
      assert |s| - |s| % BATCH_SIZE == BATCH_SIZE + m;
      var cs := Chunks(s);
      assert cs == [s[..BATCH_SIZE]] + Chunks(t);
      assert cs[1..] == Chunks(t);
      assert Flatten(cs) == s[..BATCH_SIZE] + Flatten(Chunks(t));
      assert s[..BATCH_SIZE] + t[..m] == s[..BATCH_SIZE + m];
    }
    var n := |s| - |s| % BATCH_SIZE;
    RemainderIsSuffix(s);
    assert s[..n] + s[n..] == s;
  }

  /** The remainder is the last `|s| % BATCH_SIZE` elements of `s`. */
  lemma {:induction false} RemainderIsSuffix<T>(s: seq<T>)
    ensures Remainder(s) == s[|s| - |s| % BATCH_SIZE..]
    decreases |s|
  {
    if |s| >= BATCH_SIZE {
      var t := s[BATCH_SIZE..];
      RemainderIsSuffix(t);
      assert t[|t| - |t| % BATCH_SIZE..] == s[|s| - |s| % BATCH_SIZE..];
    }
  }

  /** Batch `k` (0-based) is the slice `[BATCH_SIZE * k, BATCH_SIZE * (k + 1))`. */
  lemma {:induction false} ChunkAt<T>(s: seq<T>, k: nat)
    requires k < |s| / BATCH_SIZE
    ensures Chunks(s)[k] == s[BATCH_SIZE * k..BATCH_SIZE * (k + 1)]
    decreases k
  {
    if k > 0 {
      var t := s[BATCH_SIZE..];
      ChunkAt(t, k - 1);
      assert Chunks(s)[k] == Chunks(t)[k - 1];
    }
  }

  /** Appending one element either completes a batch, which then leaves the
      remainder empty, or grows the remainder by that element. This is the
      step the streaming loader takes per record. */
  lemma {:induction false} ChunksSnoc<T>(s: seq<T>, x: T)
    ensures |Remainder(s)| + 1 == BATCH_SIZE ==>
      Chunks(s + [x]) == Chunks(s) + [Remainder(s) + [x]] && Remainder(s + [x]) == []
    ensures |Remainder(s)| + 1 < BATCH_SIZE ==>
      Chunks(s + [x]) == Chunks(s) && Remainder(s + [x]) == Remainder(s) + [x]
    decreases |s|
  {
    if |s| >= BATCH_SIZE {
      var t := s[BATCH_SIZE..];
      assert (s + [x])[BATCH_SIZE..] == t + [x];
      assert (s + [x])[..BATCH_SIZE] == s[..BATCH_SIZE];
      ChunksSnoc(t, x);
    } else if |s| + 1 == BATCH_SIZE {
      var u := s + [x];
      assert u[..BATCH_SIZE] == u && u[BATCH_SIZE..] == [];
    }
  }

  /** With the final flush every element is submitted exactly once and in order;
      every batch is non-empty, none exceeds `BATCH_SIZE`, and only the last
      may be short. */
  lemma AllBatchesCover<T>(s: seq<T>)
    ensures Flatten(AllBatches(s)) == s
    ensures |AllBatches(s)| == (|s| + BATCH_SIZE - 1) / BATCH_SIZE
    ensures forall k | 0 <= k < |AllBatches(s)| :: 0 < |AllBatches(s)[k]| <= BATCH_SIZE
    ensures forall k | 0 <= k < |AllBatches(s)| - 1 :: |AllBatches(s)[k]| == BATCH_SIZE
  {
    var tail: seq<seq<T>> := if Remainder(s) == [] then [] else [Remainder(s)];
    FlattenAppend(Chunks(s), tail);
    ChunksThenRemainder(s);
    assert Flatten(tail) == Remainder(s) by {
      if tail != [] {
        assert tail[1..] == [];
      }
    }
  }

  /** Without the final flush, a stream whose length is not a multiple of
      `BATCH_SIZE` is never submitted in full. */
  lemma StreamingLosesTail<T>(s: seq<T>)
    requires |s| % BATCH_SIZE != 0
    ensures |Flatten(Chunks(s))| == |s| - |s| % BATCH_SIZE < |s|
    ensures Flatten(Chunks(s)) != s
  {
  }
}
