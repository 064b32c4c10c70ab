/**
 * Splitting member ids into groups for the backend's "value is one of a list" query, which
 * accepts at most 30 values. The stats, all-stats and dashboard pages share this loop.
 */
module Batching {

  const BatchSize: nat := 30

  function Min(a: int, b: int): int {
    if a <= b then a else b
  }

  /** Concatenation of all the groups, in order. */
  function Flatten<T>(bs: seq<seq<T>>): seq<T> {
    if bs == [] then [] else bs[0] + Flatten(bs[1..])
  }

  /** The consecutive slices `[i, i + 30)` of `ids`, the last one possibly shorter. */
  function Chunks<T>(ids: seq<T>): (bs: seq<seq<T>>)
    ensures |bs| == (|ids| + BatchSize - 1) / BatchSize
    decreases |ids|
  {
    if ids == [] then []
    else
      var n := Min(BatchSize, |ids|);
      [ids[..n]] + Chunks(ids[n..])
  }

  /** Together the groups are exactly the ids, in order. */
  lemma {:induction false} FlattenChunks<T>(ids: seq<T>)
    ensures Flatten(Chunks(ids)) == ids
    decreases |ids|
  {
    if ids != [] {
      var n := Min(BatchSize, |ids|);
      var rest := Chunks(ids[n..]);
      FlattenChunks(ids[n..]);
      assert ([ids[..n]] + rest)[1..] == rest;
      assert ids == ids[..n] + ids[n..];
    }
  }

  /** Every group is non-empty and holds at most 30 ids. */
  lemma {:induction false} ChunkSizes<T>(ids: seq<T>)
    ensures forall k | 0 <= k < |Chunks(ids)| :: 1 <= |Chunks(ids)[k]| <= BatchSize
    decreases |ids|
  {
    if ids != [] {
      var n := Min(BatchSize, |ids|);
      ChunkSizes(ids[n..]);
      assert Chunks(ids) == [ids[..n]] + Chunks(ids[n..]);
    }
  }

  /** Group `k` is the slice of `ids` from `30 * k` up to `30 * k + 30` or the end. */
  lemma {:induction false} ChunkAt<T>(ids: seq<T>, k: nat)
    requires k < |Chunks(ids)|
    ensures Chunks(ids)[k] == ids[BatchSize * k..Min(BatchSize * k + BatchSize, |ids|)]
    decreases k
  {
    var n := Min(BatchSize, |ids|);
    if k > 0 {
      ChunkAt(ids[n..], k - 1);
      assert ids[n..][BatchSize * (k - 1)..Min(BatchSize * (k - 1) + BatchSize, |ids| - n)]
          == ids[BatchSize * k..Min(BatchSize * k + BatchSize, |ids|)];
    }
  }

  /** `for (let i = 0; i < ids.length; i += 30) batches.push(ids.slice(i, i + 30))`. */
  method MakeBatches<T>(ids: seq<T>) returns (batches: seq<seq<T>>)
    ensures batches == Chunks(ids)
  {
    batches := [];
    var i := 0;
    while i < |ids|
      invariant i == BatchSize * |batches|
      invariant i < |ids| + BatchSize
      invariant forall k | 0 <= k < |batches| :: batches[k] == ids[BatchSize * k..Min(BatchSize * k + BatchSize, |ids|)]
    {
      batches := batches + [ids[i..Min(i + BatchSize, |ids|)]];
      i := i + BatchSize;
    }
    forall k | 0 <= k < |batches|
      ensures batches[k] == Chunks(ids)[k]
    {
      ChunkAt(ids, k);
    }
  }
}
