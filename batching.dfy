/** The partition the batch processor walks: a snapshot cut, in order, into
    contiguous batches of at most `BatchSize` elements, the last one possibly
    shorter. */
module Batching {

  /** Batches of 10, the handler's bound for one ledger transaction. */
  const BatchSize: nat := 10

  function Min(a: int, b: int): (m: int) {
    if a <= b then a else b
  }

  /** Reference definition of the partition: first batch, then the rest. */
  function Partition<T>(s: seq<T>): (batches: seq<seq<T>>)
    decreases |s|
  {
    if |s| == 0 then []
    else if |s| <= BatchSize then [s]
    else [s[..BatchSize]] + Partition(s[BatchSize..])
  }

  /** The batches written one after the other. */
  function Flatten<T>(ss: seq<seq<T>>): (flat: seq<T>)
    decreases |ss|
  {
    if ss == [] then [] else ss[0] + Flatten(ss[1..])
  }

  /** The number of batches is the ceiling of |s| / BatchSize. */
  lemma {:induction false} PartitionLength<T>(s: seq<T>)
    ensures |Partition(s)| == (|s| + BatchSize - 1) / BatchSize
    decreases |s|
  {
    if |s| > BatchSize {
      PartitionLength(s[BatchSize..]);
    }
  }

  /** Batch k is the slice the loop cuts at index k * BatchSize, clamped to
      the end of the snapshot as `slice` clamps. */
  lemma {:induction false} PartitionAt<T>(s: seq<T>, k: nat)
    requires k < |Partition(s)|
    ensures k * BatchSize < |s|
    ensures Partition(s)[k] == s[k * BatchSize .. Min((k + 1) * BatchSize, |s|)]
    decreases k
  {
    if k > 0 {
      assert |s| > BatchSize;
      var rest := s[BatchSize..];
      PartitionAt(rest, k - 1);
      assert Partition(s)[k] == Partition(rest)[k - 1];
      assert Min(k * BatchSize, |rest|) + BatchSize == Min((k + 1) * BatchSize, |s|);
      assert rest[(k - 1) * BatchSize .. Min(k * BatchSize, |rest|)]
          == s[k * BatchSize .. Min((k + 1) * BatchSize, |s|)];
    }
  }

  /** Batch k exists exactly when the loop index k * BatchSize is still
      inside the snapshot. */
  lemma {:induction false} PartitionIndex<T>(s: seq<T>, k: nat)
    ensures k < |Partition(s)| <==> k * BatchSize < |s|
    decreases k
  {
    if k > 0 && |s| > BatchSize {
      PartitionIndex(s[BatchSize..], k - 1);
    }
  }

  /** Every batch holds 1 to BatchSize elements, and every batch but the last
      holds exactly BatchSize. */
  lemma {:induction false} PartitionSizes<T>(s: seq<T>)
    ensures forall k :: 0 <= k < |Partition(s)| ==> 1 <= |Partition(s)[k]| <= BatchSize
    ensures forall k :: 0 <= k < |Partition(s)| - 1 ==> |Partition(s)[k]| == BatchSize
    decreases |s|
  {
    if |s| > BatchSize {
      PartitionSizes(s[BatchSize..]);
    }
  }

  /** The first k batches together are the first k * BatchSize elements (all
      of s once k reaches the last batch): nothing after them was touched. */
  lemma {:induction false} FlattenPrefix<T>(s: seq<T>, k: nat)
    requires k <= |Partition(s)|
    ensures Flatten(Partition(s)[..k]) == s[..Min(k * BatchSize, |s|)]
    decreases k
  {
    if k == 0 {
      assert Partition(s)[..0] == [];
    } else if |s| <= BatchSize {
      assert Partition(s)[..k] == [s];
      assert Flatten([s]) == s + Flatten([s][1..]);
    } else {
      var rest := s[BatchSize..];
      FlattenPrefix(rest, k - 1);
      assert Partition(s)[..k] == [s[..BatchSize]] + Partition(rest)[..k - 1];
      assert (Partition(s)[..k])[1..] == Partition(rest)[..k - 1];
      assert rest[..Min((k - 1) * BatchSize, |rest|)]
          == s[BatchSize..Min(k * BatchSize, |s|)];
      assert s[..Min(k * BatchSize, |s|)]
          == s[..BatchSize] + s[BatchSize..Min(k * BatchSize, |s|)];
    }
  }

  /** Coverage and order: the batches, in order, give back the snapshot, so
      nothing is omitted, duplicated or reordered. */
  lemma {:induction false} PartitionFlatten<T>(s: seq<T>)
    ensures Flatten(Partition(s)) == s
  {
    PartitionLength(s);
    FlattenPrefix(s, |Partition(s)|);
    assert Partition(s)[..|Partition(s)|] == Partition(s);
  }
}
