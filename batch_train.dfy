/** `batch_cnn_train`: the case list is split once, at case 400, into two
    training batches whose sizes are recorded. */
module BatchTrain {
  import opened Common

  const SplitPoint: nat := 400

  /** What the run records in `model_info.json`. */
  datatype BatchInfo = BatchInfo(batch1Cases: nat, batch2Cases: nat)

  /** `cases[:400]` and `cases[400:]`, with Python's clamping of slice
      bounds. */
  function SplitCases<T>(cases: seq<T>): (r: (seq<T>, seq<T>))
    ensures r.0 + r.1 == cases
    ensures |r.0| == Min(SplitPoint, |cases|)
    ensures |r.1| == Max(0, |cases| - SplitPoint)
  {
    var cut := Min(SplitPoint, |cases|);
    assert cases[..cut] + cases[cut..] == cases;
    (cases[..cut], cases[cut..])
  }

  /** `batch_cnn_train`: `None` for `False`. `casesFile` is `None` when the
      cases file is missing; `frameworkFails` stands for an import error or
      any exception raised by the training framework. */
  function BatchCnnTrain(casesFile: Option<seq<Case>>, frameworkFails: bool): (r: Option<BatchInfo>)
    ensures r.None? <==> casesFile.None? || frameworkFails
    ensures r.Some? ==> r.value.batch1Cases + r.value.batch2Cases == |casesFile.value|
    ensures r.Some? ==> r.value.batch1Cases <= SplitPoint
    ensures r.Some? ==>
      r.value == BatchInfo(Min(SplitPoint, |casesFile.value|), Max(0, |casesFile.value| - SplitPoint))
  {
    if casesFile.None? then None
    else
      var (batch1, batch2) := SplitCases(casesFile.value);
      if frameworkFails then None
      else Some(BatchInfo(|batch1|, |batch2|))
  }
}
