/**
 * The fixed-size batching of `generateDocs`: the task list is cut into
 * consecutive slices of ten, `docFiles.slice(i, i + 10)` for
 * `i = 0, 10, 20, ...` while `i < docFiles.length`.
 */
module Batching {

  const BatchSize: nat := 10

  function Min(a: int, b: int): int {
    if a <= b then a else b
  }

  /** `Math.ceil(n / BatchSize)`, the total shown in the progress line. */
  function BatchCount(n: nat): nat {
    (n + BatchSize - 1) / BatchSize
  }

  /** Batch number `b` (from 0) starts inside the list exactly when `b` is below the batch count. */
  lemma BatchCountBound(n: nat, b: nat)
    ensures BatchSize * b < n <==> b < BatchCount(n)
  {
  }

  /** The batches, front to back. */
  function Partition<T>(ts: seq<T>): (r: seq<seq<T>>)
    ensures |r| == BatchCount(|ts|)
    decreases |ts|
  {
    if ts == [] then []
    else
      var k := Min(BatchSize, |ts|);
      [ts[..k]] + Partition(ts[k..])
  }

  function Concat<T>(ss: seq<seq<T>>): seq<T>
    decreases |ss|
  {
    if ss == [] then [] else ss[0] + Concat(ss[1..])
  }

  /** The batches put back together are the task list: every task is in exactly one batch, in order. */
  lemma {:induction false} PartitionConcat<T>(ts: seq<T>)
    ensures Concat(Partition(ts)) == ts
    decreases |ts|
  {
    if ts != [] {
      var k := Min(BatchSize, |ts|);
      PartitionConcat(ts[k..]);
      assert Partition(ts)[1..] == Partition(ts[k..]);
      assert ts == ts[..k] + ts[k..];
    }
  }

  /**
   * Batch `b` is the tasks at positions `10 b` up to but excluding
   * `min(10 b + 10, n)`.
   */
  lemma {:induction false} PartitionAt<T>(ts: seq<T>, b: nat)
    requires b < |Partition(ts)|
    ensures BatchSize * b < |ts| && Partition(ts)[b] == ts[BatchSize * b .. Min(BatchSize * b + BatchSize, |ts|)]
    decreases |ts|
  {
    var k := Min(BatchSize, |ts|);
    var rest := ts[k..];
    if b > 0 {
      assert Partition(ts)[b] == Partition(rest)[b - 1];
      PartitionAt(rest, b - 1);
      assert k == BatchSize;
    }
  }

  /** There are `ceil(n / 10)` batches, and they are the slices `docFiles.slice(i, i + 10)` for `i = 0, 10, ...`. */
  lemma PartitionShape<T>(ts: seq<T>)
    ensures |Partition(ts)| == BatchCount(|ts|)
    ensures forall b :: 0 <= b < |Partition(ts)| ==>
      BatchSize * b < |ts| && Partition(ts)[b] == ts[BatchSize * b .. Min(BatchSize * b + BatchSize, |ts|)]
  {
    forall b | 0 <= b < |Partition(ts)|
      ensures BatchSize * b < |ts| && Partition(ts)[b] == ts[BatchSize * b .. Min(BatchSize * b + BatchSize, |ts|)]
    {
      PartitionAt(ts, b);
    }
  }

  /** Every batch holds between one and ten tasks, and every batch but the last holds exactly ten. */
  lemma PartitionSizes<T>(ts: seq<T>)
    ensures forall b :: 0 <= b < |Partition(ts)| ==>
      0 < |Partition(ts)[b]| <= BatchSize && (b + 1 < |Partition(ts)| ==> |Partition(ts)[b]| == BatchSize)
  {
    PartitionShape(ts);
    forall b | 0 <= b < |Partition(ts)|
      ensures 0 < |Partition(ts)[b]| <= BatchSize && (b + 1 < |Partition(ts)| ==> |Partition(ts)[b]| == BatchSize)
    {
      if b + 1 < |Partition(ts)| {
        BatchCountBound(|ts|, b + 1);
      }
    }
  }

  /** An empty task list gives no batch at all. */
  lemma PartitionEmpty<T>(ts: seq<T>)
    ensures Partition(ts) == [] <==> ts == []
  {
  }
}
