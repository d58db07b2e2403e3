/** The AVX min/max pathway: an 8-lane register loop over the whole
    batches of the array, reduced by halving the register and reusing the
    SSE4 reductions. The pathway checks for AVX support itself. */
module AVXUtils {
  import opened Numerics
  import opened Intrinsics
  import opened MinMaxSpec
  import SSE4Utils

  /** The number of floats one loop iteration consumes. */
  const MinMaxBatchSize: nat := 8

  /** The lower and upper 128-bit halves of a 256-bit register. */
  function Split(vec: V256): (halves: (V128, V128))
    ensures halves.0 + halves.1 == vec
  {
    (Mm256CastPs256Ps128(vec), Mm256ExtractF128Ps(vec, 1))
  }

  /** The extreme of the lane-wise combination of two halves is the extreme
      of the whole register. */
  lemma HalvesExtreme(b: Bound, r: real, lower: V128, upper: V128)
    requires IsExtreme(b, r, LaneCombine(b, lower, upper))
    ensures IsExtreme(b, r, lower + upper)
  {
    var c := LaneCombine(b, lower, upper);
    var j :| 0 <= j < 4 && c[j] == r;
    assert r == lower[j] || r == upper[j];
    assert (lower + upper)[j] == lower[j] && (lower + upper)[4 + j] == upper[j];
    forall k | 0 <= k < 8
      ensures Beyond(b, r, (lower + upper)[k])
    {
      var i := if k < 4 then k else k - 4;
      assert Beyond(b, r, c[i]);
    }
  }

  /** Horizontal minimum of eight lanes: the least lane. */
  function ReduceMin(vec: V256): (r: real)
    ensures IsExtreme(Lower, r, vec)
  {
    var (lower, upper) := Split(vec);
    var mins := MinPs(lower, upper);
    assert mins == LaneCombine(Lower, lower, upper);
    HalvesExtreme(Lower, SSE4Utils.ReduceMin(mins), lower, upper);
    SSE4Utils.ReduceMin(mins)
  }

  /** Horizontal maximum of eight lanes: the greatest lane. */
  function ReduceMax(vec: V256): (r: real)
    ensures IsExtreme(Upper, r, vec)
  {
    var (lower, upper) := Split(vec);
    var maxs := MaxPs(lower, upper);
    assert maxs == LaneCombine(Upper, lower, upper);
    HalvesExtreme(Upper, SSE4Utils.ReduceMax(maxs), lower, upper);
    SSE4Utils.ReduceMax(maxs)
  }

  /** mm256_min_ps and mm256_max_ps are the lane-wise combinations of the specification. */
  lemma LaneWise(mins: V256, maxs: V256, v: V256)
    ensures Mm256MinPs(mins, v) == LaneCombine(Lower, mins, v)
    ensures Mm256MaxPs(maxs, v) == LaneCombine(Upper, maxs, v)
  {}

  /** The AVX pathway. Without AVX it returns the two seeds without reading
      the array; with AVX, the minimum and maximum of the first
      `length - length % 8` elements, seeded with float.MaxValue and
      float.MinValue. The early `maximum = float.MaxValue` is overwritten. */
  method MinMax(avxSupported: bool, values: array<real>, length: int) returns (minimum: real, maximum: real)
    requires length <= values.Length
    ensures !avxSupported ==> minimum == FloatMax && maximum == FloatMin
    ensures avxSupported ==> minimum == Fold(Lower, values[..Processed(length, MinMaxBatchSize)])
    ensures avxSupported ==> maximum == Fold(Upper, values[..Processed(length, MinMaxBatchSize)])
    ensures length < 8 ==> minimum == FloatMax && maximum == FloatMin
  {
    if !avxSupported {
      minimum := FloatMax;
      maximum := FloatMin;
      return;
    }
    minimum := FloatMax;
    maximum := FloatMax;
    var remainder := CsRem(length, MinMaxBatchSize);
    var lengthFloor := length - remainder;
    var minRegister: V256 := Broadcast(FloatMax, 8);
    var maxRegister: V256 := Broadcast(FloatMin, 8);
    ghost var processed := Processed(length, MinMaxBatchSize);
    assert lengthFloor <= 0 ==> processed == 0;
    assert lengthFloor > 0 ==> lengthFloor == processed;
    var offset := 0;
    while offset < lengthFloor
      invariant 0 <= offset <= processed && offset % MinMaxBatchSize == 0
      invariant minRegister == Accumulate(Lower, values[..offset], MinMaxBatchSize)
      invariant maxRegister == Accumulate(Upper, values[..offset], MinMaxBatchSize)
    {
      BatchStep(offset, processed, MinMaxBatchSize);
      var valRegister: V256 := values[offset..offset + MinMaxBatchSize];
      AccumulateStep(Lower, values[..], offset, MinMaxBatchSize);
      AccumulateStep(Upper, values[..], offset, MinMaxBatchSize);
      LaneWise(minRegister, maxRegister, valRegister);
      minRegister := Mm256MinPs(minRegister, valRegister);
      maxRegister := Mm256MaxPs(maxRegister, valRegister);
      offset := offset + MinMaxBatchSize;
    }
    minimum := ReduceMin(minRegister);
    maximum := ReduceMax(maxRegister);
    ghost var p := values[..processed];
    ReduceUnique(Lower, minimum, minRegister);
    ReduceUnique(Upper, maximum, maxRegister);
    ReduceAccumulate(Lower, p, 8);
    ReduceAccumulate(Upper, p, 8);
  }
}
