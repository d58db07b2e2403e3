/** The older AVX min/max pathway of the Utopia namespace: the same 8-lane
    loop as AVXUtils, without the AVX-support guard. */
module UtopiaAVXUtils {
  import opened Numerics
  import opened Intrinsics
  import opened MinMaxSpec
  import AVXUtils

  const MinMaxBatchSize: nat := 8

  /** The two 128-bit halves, lower first. */
  function Split(vec: V256): (halves: (V128, V128))
    ensures halves.0 + halves.1 == vec
  {
    AVXUtils.Split(vec)
  }

  /** Horizontal minimum of eight lanes, by the same lane steps as AVXUtils. */
  function ReduceMin(vec: V256): (r: real)
    ensures IsExtreme(Lower, r, vec)
  {
    AVXUtils.ReduceMin(vec)
  }

  /** Horizontal maximum of eight lanes, by the same lane steps as AVXUtils. */
  function ReduceMax(vec: V256): (r: real)
    ensures IsExtreme(Upper, r, vec)
  {
    AVXUtils.ReduceMax(vec)
  }

  /** The minimum and maximum of the first `length - length % 8` elements,
      seeded with float.MaxValue and float.MinValue. The AVX support check
      is absent, so the caller must know AVX is present. */
  method MinMax(values: array<real>, length: int) returns (minimum: real, maximum: real)
    requires length <= values.Length
    ensures minimum == Fold(Lower, values[..Processed(length, MinMaxBatchSize)])
    ensures maximum == Fold(Upper, values[..Processed(length, MinMaxBatchSize)])
    ensures length < 8 ==> minimum == FloatMax && maximum == FloatMin
  {
    minimum := FloatMax;
    maximum := FloatMax;
    var remainder := CsRem(length, MinMaxBatchSize);
    var lengthFloor := length - remainder;
    var minRegister: V256 := Broadcast(FloatMax, 8);
    var maxRegister: V256 := Broadcast(FloatMin, 8);
    ghost var processed := Processed(length, MinMaxBatchSize);
    assert lengthFloor <= 0 ==> processed == 0;
    assert lengthFloor > 0 ==> lengthFloor == processed;
    var offset := 0;
    while offset < lengthFloor
      invariant 0 <= offset <= processed && offset % MinMaxBatchSize == 0
      invariant minRegister == Accumulate(Lower, values[..offset], MinMaxBatchSize)
      invariant maxRegister == Accumulate(Upper, values[..offset], MinMaxBatchSize)
    {
      BatchStep(offset, processed, MinMaxBatchSize);
      var valRegister: V256 := values[offset..offset + MinMaxBatchSize];
      AccumulateStep(Lower, values[..], offset, MinMaxBatchSize);
      AccumulateStep(Upper, values[..], offset, MinMaxBatchSize);
      AVXUtils.LaneWise(minRegister, maxRegister, valRegister);
      minRegister := Mm256MinPs(minRegister, valRegister);
      maxRegister := Mm256MaxPs(maxRegister, valRegister);
      offset := offset + MinMaxBatchSize;
    }
    minimum := ReduceMin(minRegister);
    maximum := ReduceMax(maxRegister);
    ghost var p := values[..processed];
    ReduceUnique(Lower, minimum, minRegister);
    ReduceUnique(Upper, maximum, maxRegister);
    ReduceAccumulate(Lower, p, 8);
    ReduceAccumulate(Upper, p, 8);
  }
}
