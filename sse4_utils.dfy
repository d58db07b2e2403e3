/** The SSE4 horizontal reductions, built on movehdup_ps (an SSE3
    instruction) instead of shuffle_ps. */
module SSE4Utils {
  import opened Intrinsics
  import opened MinMaxSpec
  import SSE2Utils

  /** Horizontal minimum: duplicate the odd lanes down, take lane-wise
      minima, fold the upper half onto lane 0. The result is the least lane. */
  function ReduceMin(vec: V128): (r: real)
    ensures IsExtreme(Lower, r, vec)
  {
    var shuffled := MoveHDupPs(vec);
    var mins := MinPs(vec, shuffled);
    var high := MoveHlPs(shuffled, mins);
    CvtSsF32(MinSs(mins, high))
  }

  /** Horizontal maximum, by the same lane steps as ReduceMin. */
  function ReduceMax(vec: V128): (r: real)
    ensures IsExtreme(Upper, r, vec)
  {
    var shuffled := MoveHDupPs(vec);
    var maxs := MaxPs(vec, shuffled);
    var high := MoveHlPs(shuffled, maxs);
    CvtSsF32(MaxSs(maxs, high))
  }

  /** The two reductions depend only on the multiset of lanes, so any
      reordering of the lanes gives the same result. */
  lemma ReducePermutationInvariant(v: V128, u: V128)
    requires multiset(v) == multiset(u)
    ensures ReduceMin(v) == ReduceMin(u)
    ensures ReduceMax(v) == ReduceMax(u)
  {
    ExtremePermutation(Lower, ReduceMin(v), v, u);
    ExtremePermutation(Upper, ReduceMax(v), v, u);
    ExtremeUnique(Lower, ReduceMin(v), ReduceMin(u), u);
    ExtremeUnique(Upper, ReduceMax(v), ReduceMax(u), u);
  }

  /** The SSE4 and SSE2 reductions agree on every register. */
  lemma AgreesWithSSE2(v: V128)
    ensures ReduceMin(v) == SSE2Utils.ReduceMin(v)
    ensures ReduceMax(v) == SSE2Utils.ReduceMax(v)
  {
    ExtremeUnique(Lower, ReduceMin(v), SSE2Utils.ReduceMin(v), v);
    ExtremeUnique(Upper, ReduceMax(v), SSE2Utils.ReduceMax(v), v);
  }

  /** SSE4Utils.cs defines no MinMax, although MathsUtil dispatches to one
      on SSE4.1 machines. This stand-in is the evident intent: the SSE2
      register loop, reduced with this file's reductions. */
  method MinMax(values: array<real>, length: int) returns (minimum: real, maximum: real)
    requires length <= values.Length
    ensures minimum == Fold(Lower, values[..Processed(length, SSE2Utils.MinMaxBatchSize)])
    ensures maximum == Fold(Upper, values[..Processed(length, SSE2Utils.MinMaxBatchSize)])
  {
    var minRegister, maxRegister := SSE2Utils.MinMaxSSE2Base(values, length);
    minimum := ReduceMin(minRegister);
    maximum := ReduceMax(maxRegister);
    ghost var p := values[..Processed(length, SSE2Utils.MinMaxBatchSize)];
    ReduceUnique(Lower, minimum, minRegister);
    ReduceUnique(Upper, maximum, maxRegister);
    ReduceAccumulate(Lower, p, 4);
    ReduceAccumulate(Upper, p, 4);
  }
}
