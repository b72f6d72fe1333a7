/** `lightweight_cnn_train`: the case list is cut into batches of 100, each
    batch trains on at most 50 samples, a checkpoint is written after every
    second batch, and the batch and case counts are recorded. */
module LightweightTrain {
  import opened Common

  const BatchSize: nat := 100
  const MaxSamplesPerBatch: nat := 50

  /** What the run records in `model_info.json`. */
  datatype LightweightInfo = LightweightInfo(totalBatches: nat, totalCases: nat)

  /** `False`, or `True` together with what the run did: the samples used per
      batch, the 1-based numbers of the batches after which a checkpoint was
      saved, and the recorded info. */
  datatype LightweightRun =
    | Failed
    | Completed(samples: seq<nat>, checkpoints: seq<nat>, info: LightweightInfo)

  /** `ceil(n / 100)`. */
  function BatchCount(n: nat): nat
  {
    (n + BatchSize - 1) / BatchSize
  }

  /** The batching loop: `cases[i:i + 100]` for `i` in `range(0, n, 100)`. */
  method SplitIntoBatches<T>(cases: seq<T>) returns (batches: seq<seq<T>>)
    ensures Flatten(batches) == cases
    ensures |batches| == BatchCount(|cases|)
    ensures forall k :: 0 <= k < |batches| ==> 1 <= |batches[k]| <= BatchSize
    ensures forall k :: 0 <= k < |batches| - 1 ==> |batches[k]| == BatchSize
  {
    batches := [];
    var i := 0;
    while i < |cases|
      invariant i == BatchSize * |batches|
      invariant i <= |cases| || |cases| < i < |cases| + BatchSize
      invariant Flatten(batches) == cases[..Min(i, |cases|)]
      invariant forall k :: 0 <= k < |batches| ==> 1 <= |batches[k]| <= BatchSize
      invariant forall k :: 0 <= k < |batches| - 1 ==> |batches[k]| == BatchSize
      invariant |batches| > 0 && i < |cases| ==> |batches[|batches| - 1]| == BatchSize
    {
      var end := Min(i + BatchSize, |cases|);
      var batch := cases[i..end];
      FlattenAppend(batches, batch);
      assert cases[..i] + batch == cases[..end];
      batches := batches + [batch];
      i := i + BatchSize;
    }
    assert cases[..|cases|] == cases;
  }

  /** The training loop's bookkeeping: `min(50, len(batch))` samples per
      batch, and a checkpoint after batch `k` (1-based) when `k` is even. */
  method TrainBatches<T>(batches: seq<seq<T>>) returns (samples: seq<nat>, checkpoints: seq<nat>)
    ensures |samples| == |batches|
    ensures forall k :: 0 <= k < |batches| ==> samples[k] == Min(MaxSamplesPerBatch, |batches[k]|)
    ensures |checkpoints| == |batches| / 2
    ensures forall j :: 0 <= j < |checkpoints| ==> checkpoints[j] == 2 * (j + 1)
  {
    samples, checkpoints := [], [];
    var batchIdx := 0;
    while batchIdx < |batches|
      invariant 0 <= batchIdx <= |batches|
      invariant |samples| == batchIdx
      invariant forall k :: 0 <= k < batchIdx ==> samples[k] == Min(MaxSamplesPerBatch, |batches[k]|)
      invariant |checkpoints| == batchIdx / 2
      invariant forall j :: 0 <= j < |checkpoints| ==> checkpoints[j] == 2 * (j + 1)
    {
      var batchSamples := Min(MaxSamplesPerBatch, |batches[batchIdx]|);
      samples := samples + [batchSamples];
      if (batchIdx + 1) % 2 == 0 {
        checkpoints := checkpoints + [batchIdx + 1];
      }
      batchIdx := batchIdx + 1;
    }
  }

  /** The checkpoint numbers are exactly the even batch numbers. */
  lemma CheckpointsAreEvenBatches(checkpoints: seq<nat>, batchCount: nat)
    requires |checkpoints| == batchCount / 2
    requires forall j :: 0 <= j < |checkpoints| ==> checkpoints[j] == 2 * (j + 1)
    ensures forall k :: k in checkpoints <==> 1 <= k <= batchCount && k % 2 == 0
  {
    forall k | 1 <= k <= batchCount && k % 2 == 0 ensures k in checkpoints {
      assert checkpoints[k / 2 - 1] == k;
    }
  }

  /** No batch trains on more than 50 samples, and a full batch on exactly 50. */
  lemma SamplesBounded(samples: seq<nat>, batchLengths: seq<nat>)
    requires |samples| == |batchLengths|
    requires forall k :: 0 <= k < |samples| ==> samples[k] == Min(MaxSamplesPerBatch, batchLengths[k])
    ensures forall k :: 0 <= k < |samples| ==> samples[k] <= MaxSamplesPerBatch
    ensures forall k :: 0 <= k < |samples| && batchLengths[k] == BatchSize ==> samples[k] == MaxSamplesPerBatch
  {
  }

  /** Parts that all have length `full` flatten to `full` elements each. */
  lemma {:induction false} FlattenLength<T>(parts: seq<seq<T>>, full: nat)
    requires forall k :: 0 <= k < |parts| ==> |parts[k]| == full
    ensures |Flatten(parts)| == full * |parts|
  {
    if parts != [] {
      FlattenLength(parts[1..], full);
    }
  }

  /** The comments plan 8 batches of 100, but any batching that
      `SplitIntoBatches` promises for the 801 cases they have in mind holds 9
      batches: eight full ones and a last one with a single case. */
  lemma EightHundredOneCasesMakeNineBatches<T>(cases: seq<T>, batches: seq<seq<T>>)
    requires |cases| == 801
    requires Flatten(batches) == cases
    requires |batches| == BatchCount(|cases|)
    requires forall k :: 0 <= k < |batches| - 1 ==> |batches[k]| == BatchSize
    ensures |batches| == 9
    ensures forall k :: 0 <= k < 8 ==> |batches[k]| == BatchSize
    ensures |batches[8]| == 1
  {
    assert batches == batches[..8] + [batches[8]];
    FlattenAppend(batches[..8], batches[8]);
    FlattenLength(batches[..8], BatchSize);
  }

  /** `lightweight_cnn_train`. `casesFile` is `None` when the cases file is
      missing; `frameworkFails` stands for an import error or any exception
      raised by the training framework. */
  method LightweightCnnTrain(casesFile: Option<seq<Case>>, frameworkFails: bool) returns (run: LightweightRun)
    ensures run.Failed? <==> casesFile.None? || frameworkFails
    ensures run.Completed? ==>
      && run.info.totalCases == |casesFile.value|
      && run.info.totalBatches == BatchCount(|casesFile.value|)
      && |run.samples| == run.info.totalBatches
      && (forall k :: 0 <= k < |run.samples| ==> run.samples[k] <= MaxSamplesPerBatch)
      && (forall k :: 0 <= k < |run.samples| - 1 ==> run.samples[k] == MaxSamplesPerBatch)
      && (|run.samples| > 0 ==>
            (run.samples[|run.samples| - 1]
             == Min(MaxSamplesPerBatch, |casesFile.value| - BatchSize * (|run.samples| - 1))))
      && |run.checkpoints| == run.info.totalBatches / 2
      && (forall j :: 0 <= j < |run.checkpoints| ==> run.checkpoints[j] == 2 * (j + 1))
      && (forall k :: k in run.checkpoints <==> 1 <= k <= run.info.totalBatches && k % 2 == 0)
  {
    if casesFile.None? {
      return Failed;
    }
    var cases := casesFile.value;
    var batches := SplitIntoBatches(cases);
    if frameworkFails {
      return Failed;
    }
    if |batches| > 0 {
      var last := |batches| - 1;
      assert batches == batches[..last] + [batches[last]];
      FlattenAppend(batches[..last], batches[last]);
      FlattenLength(batches[..last], BatchSize);
    }
    var samples, checkpoints := TrainBatches(batches);
    CheckpointsAreEvenBatches(checkpoints, |batches|);
    var lengths := seq(|batches|, k requires 0 <= k < |batches| => |batches[k]|);
    SamplesBounded(samples, lengths);
    return Completed(samples, checkpoints, LightweightInfo(|batches|, |cases|));
  }
}
