/** The admin batch-processing handler: take the snapshot of pending drops,
    cut it into batches of 10 and submit each batch's drop ids to the ledger
    as one reward-distribution transaction, recording one result per batch.

    The ledger is an abstract collaborator: a function from the index of the
    call (0 for the first submission of the run) and the drop ids of the batch
    to a transaction hash or an error. The run's side effect, the sequence of
    submissions, is returned as `calls`, in call order. */
module BatchProcessor {
  import opened Batching

  type DropId = string
  type TxHash = string

  /** Outcome of a call to a collaborator that may throw. */
  datatype Outcome<T> = Ok(value: T) | Err(error: string)

  /** A pending drop as the chain query reports it. */
  datatype Drop = Drop(dropId: DropId, userId: string, deviceType: string)

  /** One entry of the `batches` array of the response. */
  datatype BatchResult = BatchResult(batch: nat, dropsProcessed: nat, transactionHash: TxHash)

  /** The JSON the handler answers with.
      NothingToProcess: status 200, message "No pending drops to process".
      Distributed: status 200, success true, message "All pending rewards distributed!".
      ServerError: status 500 with the message of the exception caught. */
  datatype Response =
    | NothingToProcess
    | Distributed(totalDropsProcessed: nat, batches: seq<BatchResult>)
    | ServerError(error: string)

  /** `drops.map(drop => drop.dropId)` */
  function DropIds(drops: seq<Drop>): (ids: seq<DropId>) {
    seq(|drops|, k requires 0 <= k < |drops| => drops[k].dropId)
  }

  /** Sum of the `dropsProcessed` fields. */
  function TotalProcessed(results: seq<BatchResult>): (total: nat)
    decreases |results|
  {
    if results == [] then 0
    else TotalProcessed(results[..|results| - 1]) + results[|results| - 1].dropsProcessed
  }

  /** Slicing the drops and then taking their ids is taking the ids and then
      slicing. */
  lemma DropIdsSlice(drops: seq<Drop>, lo: nat, hi: nat)
    requires lo <= hi <= |drops|
    ensures DropIds(drops[lo..hi]) == DropIds(drops)[lo..hi]
  {
  }

  /** The batch the loop cuts at index k * BatchSize, mapped to drop ids, is
      batch k of the partition of the snapshot's drop ids. */
  lemma NextBatch(drops: seq<Drop>, k: nat)
    requires k * BatchSize < |drops|
    ensures k < |Partition(DropIds(drops))|
    ensures DropIds(drops[k * BatchSize .. Min((k + 1) * BatchSize, |drops|)])
         == Partition(DropIds(drops))[k]
  {
    PartitionIndex(DropIds(drops), k);
    PartitionAt(DropIds(drops), k);
    DropIdsSlice(drops, k * BatchSize, Min((k + 1) * BatchSize, |drops|));
  }

  /** The loop of batchProcess: walk the drops with an index stepping by
      BatchSize, submit each slice's drop ids and record a numbered result,
      stopping at the first submission the ledger rejects. The calls made are
      the leading batches of the partition, every one accepted but possibly
      the last; the run fails exactly when the last call was rejected, and
      otherwise every batch was submitted and has its result. */
  method SubmitBatches(pendingDrops: seq<Drop>, ledger: (nat, seq<DropId>) -> Outcome<TxHash>)
    returns (outcome: Outcome<seq<BatchResult>>, calls: seq<seq<DropId>>)
    ensures |calls| <= |Partition(DropIds(pendingDrops))|
    ensures calls == Partition(DropIds(pendingDrops))[..|calls|]
    ensures forall j :: 0 <= j < |calls| - 1 ==> ledger(j, calls[j]).Ok?
    ensures outcome.Err? <==> 0 < |calls| && ledger(|calls| - 1, calls[|calls| - 1]).Err?
    ensures outcome.Err? ==> outcome.error == ledger(|calls| - 1, calls[|calls| - 1]).error
    ensures outcome.Ok? ==>
              && calls == Partition(DropIds(pendingDrops))
              && |outcome.value| == |calls|
              && (forall j :: 0 <= j < |calls| ==>
                    outcome.value[j] == BatchResult(j + 1, |calls[j]|, ledger(j, calls[j]).value))
              && TotalProcessed(outcome.value) == |pendingDrops|
  {
    ghost var all := Partition(DropIds(pendingDrops));
    var n := |pendingDrops|;
    var results: seq<BatchResult> := [];
    calls := [];
    var i := 0;
    while i < n
      invariant i == BatchSize * |results| && |calls| == |results|
      invariant i < n + BatchSize
      invariant |calls| <= |all|
      invariant calls == all[..|calls|]
      invariant forall j :: 0 <= j < |calls| ==> ledger(j, all[j]).Ok?
      invariant forall j :: 0 <= j < |results| ==>
                  results[j] == BatchResult(j + 1, |all[j]|, ledger(j, all[j]).value)
      invariant TotalProcessed(results) == Min(i, n)
    {
      var end := Min(i + BatchSize, n);
      var batch := pendingDrops[i..end];
      var dropIds := DropIds(batch);
      NextBatch(pendingDrops, |calls|);
      var submitted := ledger(|calls|, dropIds);
      assert calls + [dropIds] == all[..|calls| + 1];
      calls := calls + [dropIds];
      if submitted.Err? {
        return Err(submitted.error), calls;
      }
      ghost var k := |results|;
      assert i / BatchSize == k && |batch| == |all[k]|;
      assert ledger(k, all[k]) == submitted;
      results := results + [BatchResult(i / BatchSize + 1, |batch|, submitted.value)];
      i := i + BatchSize;
    }
    PartitionIndex(DropIds(pendingDrops), |calls|);
    if |calls| > 0 {
      PartitionIndex(DropIds(pendingDrops), |calls| - 1);
    }
    assert calls == all;
    outcome := Ok(results);
  }

  /** batchProcess. `snapshot` is what the pending-drops query returned (or
      the error it threw); `ledger` answers each batch submission.

      An empty snapshot submits nothing. Otherwise the calls made are the
      leading batches of the partition of the snapshot's drop ids, up to and
      including the first one the ledger rejects, so exactly the drops of the
      submitted batches, in order, reached the ledger; a rejection ends the
      run with a 500 and no per-batch results. When every batch is accepted,
      the response holds one result per batch, numbered from 1, with that
      batch's size and hash, and the sizes add up to the size of the
      snapshot. */
  method BatchProcess(snapshot: Outcome<seq<Drop>>, ledger: (nat, seq<DropId>) -> Outcome<TxHash>)
    returns (response: Response, calls: seq<seq<DropId>>)
    ensures snapshot.Err? ==> response == ServerError(snapshot.error) && calls == []
    ensures snapshot == Ok([]) ==> response == NothingToProcess && calls == []
    // the calls made: a non-empty run of leading batches, in order
    ensures snapshot.Ok? && snapshot.value != [] ==>
              0 < |calls| <= |Partition(DropIds(snapshot.value))|
              && calls == Partition(DropIds(snapshot.value))[..|calls|]
              && Flatten(calls) == DropIds(snapshot.value)[..Min(|calls| * BatchSize, |snapshot.value|)]
    // every call but the last was accepted
    ensures snapshot.Ok? && snapshot.value != [] ==>
              forall j :: 0 <= j < |calls| - 1 ==> ledger(j, calls[j]).Ok?
    // a rejected call ends the run with the ledger's error and no results
    ensures snapshot.Ok? && snapshot.value != [] && ledger(|calls| - 1, calls[|calls| - 1]).Err? ==>
              response == ServerError(ledger(|calls| - 1, calls[|calls| - 1]).error)
    // otherwise every batch was submitted and has its numbered result
    ensures snapshot.Ok? && snapshot.value != [] && ledger(|calls| - 1, calls[|calls| - 1]).Ok? ==>
              calls == Partition(DropIds(snapshot.value))
              && Flatten(calls) == DropIds(snapshot.value)
              && response.Distributed?
              && response.totalDropsProcessed == |snapshot.value|
              && |response.batches| == |calls|
              && TotalProcessed(response.batches) == response.totalDropsProcessed
              && (forall j :: 0 <= j < |calls| ==>
                    response.batches[j] == BatchResult(j + 1, |calls[j]|, ledger(j, calls[j]).value))
  {
    if snapshot.Err? {
      return ServerError(snapshot.error), [];
    }
    var pendingDrops := snapshot.value;
    if |pendingDrops| == 0 {
      return NothingToProcess, [];
    }
    var outcome;
    outcome, calls := SubmitBatches(pendingDrops, ledger);
    ghost var ids := DropIds(pendingDrops);
    PartitionIndex(ids, 0);
    FlattenPrefix(ids, |calls|);
    if outcome.Err? {
      return ServerError(outcome.error), calls;
    }
    PartitionFlatten(ids);
    response := Distributed(|pendingDrops|, outcome.value);
  }
}
