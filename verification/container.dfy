/** `TensorflowTensorContainer` (bentoml/_internal/frameworks/tensorflow_v2.py,
    lines 301-363): how the runner merges the requests of a batch into one
    tensor, cuts the result back into per-request pieces, and ships tensors
    between processes as pickled payloads. */
module TensorContainer {
  import opened Results
  import opened Tensors

  // ---------------------------------------------------------------------
  // Indices: running totals of the batch sizes

  /** `[0] + list(itertools.accumulate(xs))`. */
  function PrefixSums(xs: seq<int>): (r: seq<int>)
    ensures |r| == |xs| + 1 && r[0] == 0
    ensures forall i :: 0 <= i < |xs| ==> r[i + 1] == r[i] + xs[i]
    ensures r[|xs|] == Sum(xs)
  {
    if |xs| == 0 then [0]
    else
      var front := PrefixSums(xs[..|xs| - 1]);
      front + [front[|xs| - 1] + xs[|xs| - 1]]
  }

  /** `[indices[i + 1] - indices[i] for i in range(len(indices) - 1)]`; the
      range is empty for zero or one index. */
  function Diffs(idx: seq<int>): (r: seq<int>)
    ensures |idx| > 0 ==> |r| == |idx| - 1
    ensures |idx| == 0 ==> r == []
    ensures forall i :: 0 <= i < |r| ==> idx[i + 1] == idx[i] + r[i]
  {
    seq(if |idx| == 0 then 0 else |idx| - 1, i requires 0 <= i < |idx| - 1 => idx[i + 1] - idx[i])
  }

  /** The indices never go down. */
  predicate Monotone(idx: seq<int>) {
    forall i :: 0 <= i < |idx| - 1 ==> idx[i] <= idx[i + 1]
  }

  /** The indices shifted so that the first one is 0. */
  function FromZero(idx: seq<int>): (r: seq<int>)
    requires |idx| > 0
    ensures |r| == |idx| && r[0] == 0
    ensures forall i :: 0 <= i < |idx| ==> r[i] == idx[i] - idx[0]
  {
    seq(|idx|, i requires 0 <= i < |idx| => idx[i] - idx[0])
  }

  /** The differences of the running totals are the sizes themselves. */
  lemma DiffsOfPrefixSums(xs: seq<int>)
    ensures Diffs(PrefixSums(xs)) == xs
  {
  }

  /** The running totals of the differences rebuild the indices, shifted to
      start at 0. */
  lemma PrefixSumsOfDiffs(idx: seq<int>)
    requires |idx| > 0
    ensures PrefixSums(Diffs(idx)) == FromZero(idx)
  {
    var r, z := PrefixSums(Diffs(idx)), FromZero(idx);
    var k := 0;
    while k < |idx| - 1
      invariant 0 <= k < |idx|
      invariant forall i :: 0 <= i <= k ==> r[i] == z[i]
    {
      assert Diffs(idx)[k] == idx[k + 1] - idx[k];
      k := k + 1;
    }
  }

  /** The differences telescope: they add up to last minus first. */
  lemma {:induction false} SumOfDiffs(idx: seq<int>)
    ensures |idx| > 0 ==> Sum(Diffs(idx)) == idx[|idx| - 1] - idx[0]
  {
    var n := |idx|;
    if n > 1 {
      var front := idx[..n - 1];
      assert Diffs(idx)[..n - 2] == Diffs(front);
      SumOfDiffs(front);
    }
  }

  /** No difference is negative exactly when the indices never go down. */
  lemma DiffsNonNegative(idx: seq<int>)
    ensures AllNonNegative(Diffs(idx)) <==> Monotone(idx)
  {
    if !Monotone(idx) {
      var i :| 0 <= i < |idx| - 1 && idx[i] > idx[i + 1];
      assert Diffs(idx)[i] < 0;
    }
  }

  // ---------------------------------------------------------------------
  // Batches

  /** `batches_to_batch`: concatenates the requests along `batchDim` and
      returns, with the merged tensor, the offsets at which each request
      starts (plus the end). A single request passes `tf.concat` whatever
      the axis, but reading its extent on an axis it lacks is an index
      error. */
  function BatchesToBatch<T>(batches: seq<Tensor<T>>, batchDim: int): (r: Result<(Tensor<T>, seq<int>)>)
    ensures r.Ok? <==> Concat(batches, batchDim).Ok? && -2 <= batchDim < 2
    ensures r.Ok? <==> -2 <= batchDim < 2 && |batches| > 0 && SameOther(batches, batchDim % 2)
    ensures r.Ok? ==> r.value.0 == Concat(batches, batchDim).value
    ensures r.Ok? ==>
              var idx := r.value.1;
              && |idx| == |batches| + 1 && idx[0] == 0
              && idx[|batches|] == Extent(r.value.0, batchDim % 2)
              && forall i :: 0 <= i < |batches| ==> idx[i + 1] - idx[i] == Extent(batches[i], batchDim % 2)
  {
    var batch :- Concat(batches, batchDim);
    var a :- NormalizeAxis(batchDim);
    Ok((batch, PrefixSums(Extents(batches, a))))
  }

  /** `batch_to_batches`: cuts the merged tensor at the offsets. */
  function BatchToBatches<T>(batch: Tensor<T>, idx: seq<int>, batchDim: int): (r: Result<seq<Tensor<T>>>)
    ensures r.Ok? <==>
              && -2 <= batchDim < 2 && |idx| >= 2 && Monotone(idx)
              && idx[|idx| - 1] - idx[0] == Extent(batch, batchDim % 2)
    ensures r.Ok? ==> |r.value| == |idx| - 1
    ensures r.Ok? ==> forall i :: 0 <= i < |r.value| ==>
              && Extent(r.value[i], batchDim % 2) == idx[i + 1] - idx[i]
              && Extent(r.value[i], Other(batchDim % 2)) == Extent(batch, Other(batchDim % 2))
  {
    DiffsNonNegative(idx);
    SumOfDiffs(idx);
    Split(batch, Diffs(idx), batchDim)
  }

  /** Merging and then cutting at the returned offsets gives the requests
      back. */
  lemma BatchesRoundTrip<T>(batches: seq<Tensor<T>>, batchDim: int)
    requires BatchesToBatch(batches, batchDim).Ok?
    ensures BatchToBatches(BatchesToBatch(batches, batchDim).value.0, BatchesToBatch(batches, batchDim).value.1, batchDim)
            == Ok(batches)
  {
    var a := batchDim % 2;
    var sizes := Extents(batches, a);
    DiffsOfPrefixSums(sizes);
    SplitConcat(batches, a);
  }

  /** Cutting and then merging the pieces gives the tensor back, with the
      offsets shifted to start at 0. */
  lemma BatchSplitRoundTrip<T>(batch: Tensor<T>, idx: seq<int>, batchDim: int)
    requires BatchToBatches(batch, idx, batchDim).Ok?
    ensures BatchesToBatch(BatchToBatches(batch, idx, batchDim).value, batchDim) == Ok((batch, FromZero(idx)))
  {
    var a := batchDim % 2;
    var sizes := Diffs(idx);
    var pieces := SplitAll(batch, sizes, a);
    DiffsNonNegative(idx);
    SumOfDiffs(idx);
    ConcatSplit(batch, sizes, a);
    assert Extents(pieces, a) == sizes;
    PrefixSumsOfDiffs(idx);
  }

  // ---------------------------------------------------------------------
  // Payloads

  /** The bytes `pickle.dumps` produces, standing for the object they
      encode. */
  datatype Pickled<T> = Pickled(obj: T)

  /** What crosses the process boundary: the pickled tensor and its batch
      size. */
  datatype Payload<T> = Payload(data: Pickled<Tensor<T>>, batchSize: int)

  /** `to_payload`: pickles the tensor and records its extent along
      `batchDim`; an axis the tensor does not have is an index error. */
  function ToPayload<T>(batch: Tensor<T>, batchDim: int): (r: Result<Payload<T>>)
    ensures r.Ok? <==> -2 <= batchDim < 2
    ensures r.Ok? ==> FromPayload(r.value) == batch
    ensures r.Ok? ==> r.value.batchSize == Extent(batch, batchDim % 2)
  {
    var a :- NormalizeAxis(batchDim);
    Ok(Payload(Pickled(batch), Extent(batch, a)))
  }

  /** `from_payload`: unpickles the tensor; the payload is exactly the
      pickling of what comes out. */
  function FromPayload<T>(p: Payload<T>): (r: Tensor<T>)
    ensures p == Payload(Pickled(r), p.batchSize)
  {
    p.data.obj
  }

  /** `batch_to_payloads` as written: each piece is packed by `to_payload`
      without the batch dimension, so its batch size is always its row
      count. */
  function BatchToPayloadsAsWritten<T>(batch: Tensor<T>, idx: seq<int>, batchDim: int): (r: Result<seq<Payload<T>>>)
    ensures r.Ok? <==> BatchToBatches(batch, idx, batchDim).Ok?
    ensures r.Ok? ==> |r.value| == |idx| - 1
    ensures r.Ok? ==> forall i :: 0 <= i < |r.value| ==>
              && FromPayload(r.value[i]) == BatchToBatches(batch, idx, batchDim).value[i]
              && r.value[i].batchSize == Extent(FromPayload(r.value[i]), 0)
  {
    var pieces :- BatchToBatches(batch, idx, batchDim);
    Ok(seq(|pieces|, i requires 0 <= i < |pieces| => ToPayload(pieces[i], 0).value))
  }

  /** `batch_to_payloads` as evidently intended: each piece is packed along
      the batch dimension it was cut on, so its batch size is the gap
      between consecutive offsets. */
  function BatchToPayloads<T>(batch: Tensor<T>, idx: seq<int>, batchDim: int): (r: Result<seq<Payload<T>>>)
    ensures r.Ok? <==> BatchToBatches(batch, idx, batchDim).Ok?
    ensures r.Ok? ==> |r.value| == |idx| - 1
    ensures r.Ok? ==> forall i :: 0 <= i < |r.value| ==>
              && FromPayload(r.value[i]) == BatchToBatches(batch, idx, batchDim).value[i]
              && r.value[i].batchSize == idx[i + 1] - idx[i]
  {
    var pieces :- BatchToBatches(batch, idx, batchDim);
    Ok(seq(|pieces|, i requires 0 <= i < |pieces| => ToPayload(pieces[i], batchDim).value))
  }

  /** Unpickles every payload. */
  function Unpack<T>(payloads: seq<Payload<T>>): (r: seq<Tensor<T>>)
    ensures |r| == |payloads|
    ensures forall i :: 0 <= i < |payloads| ==> r[i] == FromPayload(payloads[i])
  {
    seq(|payloads|, i requires 0 <= i < |payloads| => FromPayload(payloads[i]))
  }

  /** `from_batch_payloads`: unpickles every payload and merges the tensors;
      the recorded batch sizes play no part. */
  function FromBatchPayloads<T>(payloads: seq<Payload<T>>, batchDim: int): (r: Result<(Tensor<T>, seq<int>)>)
    ensures r.Ok? <==> -2 <= batchDim < 2 && |payloads| > 0 && SameOther(Unpack(payloads), batchDim % 2)
    ensures r.Ok? ==> |r.value.1| == |payloads| + 1 && forall i :: 0 <= i < |payloads| ==>
              r.value.1[i + 1] - r.value.1[i] == Extent(FromPayload(payloads[i]), batchDim % 2)
    ensures r.Ok? ==> r.value.0 == ConcatAll(Unpack(payloads), batchDim % 2) && r.value.1[0] == 0
  {
    BatchesToBatch(Unpack(payloads), batchDim)
  }

  /** Packing the pieces of a merged tensor and unpacking them again gives
      the tensor and its offsets (from 0) back. */
  lemma PayloadsRoundTrip<T>(batch: Tensor<T>, idx: seq<int>, batchDim: int)
    requires BatchToBatches(batch, idx, batchDim).Ok?
    ensures FromBatchPayloads(BatchToPayloads(batch, idx, batchDim).value, batchDim) == Ok((batch, FromZero(idx)))
  {
    var ps := BatchToPayloads(batch, idx, batchDim).value;
    assert Unpack(ps) == BatchToBatches(batch, idx, batchDim).value;
    BatchSplitRoundTrip(batch, idx, batchDim);
  }

  /** The payloads of the code as written unpack to the same tensor and
      offsets: the wrong batch sizes never reach the merge. */
  lemma PayloadsRoundTripAsWritten<T>(batch: Tensor<T>, idx: seq<int>, batchDim: int)
    requires BatchToBatches(batch, idx, batchDim).Ok?
    ensures FromBatchPayloads(BatchToPayloadsAsWritten(batch, idx, batchDim).value, batchDim) == Ok((batch, FromZero(idx)))
  {
    var ps := BatchToPayloadsAsWritten(batch, idx, batchDim).value;
    assert Unpack(ps) == BatchToBatches(batch, idx, batchDim).value;
    BatchSplitRoundTrip(batch, idx, batchDim);
  }

  /** A 2-by-2 tensor cut into its two columns: each piece holds one column
      but two rows. */
  function TwoByTwo(): Tensor<int> {
    Matrix(2, [[1, 2], [3, 4]])
  }

  /** The batch sizes of the code as written disagree with the offsets when
      the batch dimension is 1: both pieces claim a batch size of 2. */
  lemma AsWrittenBatchSizeIgnoresBatchDim()
    ensures BatchToPayloadsAsWritten(TwoByTwo(), [0, 1, 2], 1).Ok?
    ensures BatchToPayloadsAsWritten(TwoByTwo(), [0, 1, 2], 1).value[0].batchSize == 2
    ensures BatchToPayloads(TwoByTwo(), [0, 1, 2], 1).value[0].batchSize == 1
  {
    var idx := [0, 1, 2];
    assert Diffs(idx) == [1, 1];
    assert Sum([1, 1]) == 2;
    assert Monotone(idx);
  }
}
