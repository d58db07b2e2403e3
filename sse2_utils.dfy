/** The SSE2 min/max pathway: a 4-lane register loop over the whole
    batches of the array, then a shuffle reduction of each register. */
module SSE2Utils {
  import opened Numerics
  import opened Intrinsics
  import opened MinMaxSpec

  /** The number of floats one loop iteration consumes. */
  const MinMaxBatchSize: nat := 4

  /** Horizontal minimum: swap neighbouring lanes, take lane-wise minima,
      fold the upper half onto lane 0. The result is the least lane. */
  function ReduceMin(vec: V128): (r: real)
    ensures IsExtreme(Lower, r, vec)
  {
    var shuffled := ShufflePs(vec, vec, Shuffle(2, 3, 0, 1));
    var mins := MinPs(vec, shuffled);
    var high := MoveHlPs(shuffled, mins);
    CvtSsF32(MinSs(mins, high))
  }

  /** Horizontal maximum, by the same lane steps as ReduceMin. */
  function ReduceMax(vec: V128): (r: real)
    ensures IsExtreme(Upper, r, vec)
  {
    var shuffled := ShufflePs(vec, vec, Shuffle(2, 3, 0, 1));
    var maxs := MaxPs(vec, shuffled);
    var high := MoveHlPs(shuffled, maxs);
    CvtSsF32(MaxSs(maxs, high))
  }

  /** The register loop. Only the first `length - length % 4` elements are
      loaded; the remainder is never inspected. */
  method MinMaxSSE2Base(values: array<real>, length: int) returns (minRegister: V128, maxRegister: V128)
    requires length <= values.Length
    ensures minRegister == Accumulate(Lower, values[..Processed(length, MinMaxBatchSize)], MinMaxBatchSize)
    ensures maxRegister == Accumulate(Upper, values[..Processed(length, MinMaxBatchSize)], MinMaxBatchSize)
  {
    var remainder := CsRem(length, MinMaxBatchSize);
    var lengthFloor := length - remainder;
    minRegister := [FloatMax, FloatMax, FloatMax, FloatMax];
    maxRegister := [FloatMin, FloatMin, FloatMin, FloatMin];
    ghost var processed := Processed(length, MinMaxBatchSize);
    assert lengthFloor <= 0 ==> processed == 0;
    assert lengthFloor > 0 ==> lengthFloor == processed;
    var offset := 0;
    while offset < lengthFloor
      invariant 0 <= offset <= processed && offset % MinMaxBatchSize == 0
      invariant minRegister == Accumulate(Lower, values[..offset], MinMaxBatchSize)
      invariant maxRegister == Accumulate(Upper, values[..offset], MinMaxBatchSize)
    {
      BatchStep(offset, processed, MinMaxBatchSize);
      var valRegister: V128 := values[offset..offset + MinMaxBatchSize];
      AccumulateStep(Lower, values[..], offset, MinMaxBatchSize);
      AccumulateStep(Upper, values[..], offset, MinMaxBatchSize);
      LaneWise(minRegister, maxRegister, valRegister);
      minRegister := MinPs(minRegister, valRegister);
      maxRegister := MaxPs(maxRegister, valRegister);
      offset := offset + MinMaxBatchSize;
    }
  }

  /** min_ps and max_ps are the lane-wise combinations of the specification. */
  lemma LaneWise(mins: V128, maxs: V128, v: V128)
    ensures MinPs(mins, v) == LaneCombine(Lower, mins, v)
    ensures MaxPs(maxs, v) == LaneCombine(Upper, maxs, v)
  {}

  /** The SSE2 pathway: the minimum and maximum of the processed prefix,
      seeded with float.MaxValue and float.MinValue. */
  method MinMax(values: array<real>, length: int) returns (minimum: real, maximum: real)
    requires length <= values.Length
    ensures minimum == Fold(Lower, values[..Processed(length, MinMaxBatchSize)])
    ensures maximum == Fold(Upper, values[..Processed(length, MinMaxBatchSize)])
    ensures length < 4 ==> minimum == FloatMax && maximum == FloatMin
  {
    var minRegister, maxRegister := MinMaxSSE2Base(values, length);
    minimum := ReduceMin(minRegister);
    maximum := ReduceMax(maxRegister);
    ghost var p := values[..Processed(length, MinMaxBatchSize)];
    ReduceUnique(Lower, minimum, minRegister);
    ReduceUnique(Upper, maximum, maxRegister);
    ReduceAccumulate(Lower, p, 4);
    ReduceAccumulate(Upper, p, 4);
  }
}
