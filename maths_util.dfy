/** MathsUtil: picks the widest min/max pathway the processor supports,
    falls back to a scalar loop, and wraps the call in a job that writes
    the two results into a two-element output array. */
module MathsUtil {
  import opened Numerics
  import opened MinMaxSpec
  import AVXUtils
  import SSE4Utils
  import SSE2Utils

  /** The widest batch any pathway uses. */
  const MinMaxMaxBatch: nat := AVXUtils.MinMaxBatchSize

  /** The instruction-set checks the dispatch consults. */
  datatype CpuFeatures = CpuFeatures(avx: bool, sse41: bool, sse2: bool)

  /** Every real processor with AVX has SSE4.1, and every one with SSE4.1 has SSE2. */
  predicate Consistent(cpu: CpuFeatures)
  {
    (cpu.avx ==> cpu.sse41) && (cpu.sse41 ==> cpu.sse2)
  }

  /** The batch size reported to callers, which divides the widest batch. */
  function MinMaxBatchSize(cpu: CpuFeatures): (n: nat)
    ensures n == 1 || n == SSE2Utils.MinMaxBatchSize || n == AVXUtils.MinMaxBatchSize
    ensures n > 0 && MinMaxMaxBatch % n == 0
  {
    if cpu.avx then AVXUtils.MinMaxBatchSize
    else if cpu.sse2 then SSE2Utils.MinMaxBatchSize
    else 1
  }

  /** The number of elements per iteration of the pathway MinMax dispatches to. */
  function DispatchWidth(cpu: CpuFeatures): nat
  {
    if cpu.avx then AVXUtils.MinMaxBatchSize
    else if cpu.sse41 || cpu.sse2 then SSE2Utils.MinMaxBatchSize
    else 1
  }

  /** On a consistent processor the reported batch size is the width of the
      pathway actually taken; on an inconsistent one (SSE4.1 without SSE2)
      they differ. */
  lemma BatchSizeMatchesDispatch(cpu: CpuFeatures)
    ensures Consistent(cpu) ==> MinMaxBatchSize(cpu) == DispatchWidth(cpu)
    ensures !cpu.avx && cpu.sse41 && !cpu.sse2 ==> MinMaxBatchSize(cpu) != DispatchWidth(cpu)
  {}

  /** An array whose length is a multiple of the widest batch is processed
      in full by every pathway. */
  lemma WholeBatches(length: int, w: nat)
    requires length >= 0 && length % MinMaxMaxBatch == 0
    requires w == 1 || w == 4 || w == 8
    ensures Processed(length, w) == length
  {
  }

  /** The minimum and maximum of the first elements of the array, by the
      pathway the processor supports. Each pathway skips the tail that does
      not fill a batch; when the length is a multiple of the widest batch,
      all pathways give the fold over the whole array. */
  method MinMax(cpu: CpuFeatures, values: array<real>, length: int) returns (minimum: real, maximum: real)
    requires length <= values.Length
    ensures minimum == Fold(Lower, values[..Processed(length, DispatchWidth(cpu))])
    ensures maximum == Fold(Upper, values[..Processed(length, DispatchWidth(cpu))])
    ensures length >= 0 && length % MinMaxMaxBatch == 0 ==>
              minimum == Fold(Lower, values[..length]) && maximum == Fold(Upper, values[..length])
  {
    if cpu.avx {
      minimum, maximum := AVXUtils.MinMax(cpu.avx, values, length);
    } else if cpu.sse41 {
      minimum, maximum := SSE4Utils.MinMax(values, length);
    } else if cpu.sse2 {
      minimum, maximum := SSE2Utils.MinMax(values, length);
    } else {
      minimum, maximum := MinMaxDefault(values, length);
    }
    if length >= 0 && length % MinMaxMaxBatch == 0 {
      WholeBatches(length, DispatchWidth(cpu));
    }
  }

  /** The scalar pathway: every one of the first `length` elements, folded
      from the seeds float.MaxValue and float.MinValue. */
  method MinMaxDefault(values: array<real>, length: int) returns (minimum: real, maximum: real)
    requires length <= values.Length
    ensures minimum == Fold(Lower, values[..Processed(length, 1)])
    ensures maximum == Fold(Upper, values[..Processed(length, 1)])
  {
    minimum := FloatMax;
    maximum := FloatMin;
    ghost var n := Processed(length, 1);
    var i := 0;
    while i < length
      invariant 0 <= i <= n
      invariant minimum == Fold(Lower, values[..i])
      invariant maximum == Fold(Upper, values[..i])
    {
      var value := values[i];
      assert values[..i + 1][..i] == values[..i];
      minimum := Min(minimum, value);
      maximum := Max(maximum, value);
      i := i + 1;
    }
  }

  /** The job: reads `array`, writes the minimum to minMax[0] and the
      maximum to minMax[1]. */
  class MinMaxJob {
    const values: array<real>
    const minMax: array<real>

    constructor(values: array<real>, minMax: array<real>)
      ensures this.values == values && this.minMax == minMax
    {
      this.values := values;
      this.minMax := minMax;
    }

    /** The job system refuses to schedule a job whose read-only input is
        also its output, so the two arrays are distinct. */
    method Execute(cpu: CpuFeatures)
      requires minMax.Length >= 2 && minMax != values
      modifies minMax
      ensures minMax[0] == Fold(Lower, values[..Processed(values.Length, DispatchWidth(cpu))])
      ensures minMax[1] == Fold(Upper, values[..Processed(values.Length, DispatchWidth(cpu))])
      ensures values.Length % MinMaxMaxBatch == 0 ==>
                minMax[0] == Fold(Lower, values[..]) && minMax[1] == Fold(Upper, values[..])
      ensures minMax[2..] == old(minMax[2..])
    {
      var minimum, maximum := MinMax(cpu, values, values.Length);
      assert values[..values.Length] == values[..];
      minMax[0] := minimum;
      minMax[1] := maximum;
    }
  }
}
