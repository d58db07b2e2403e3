/** The job that builds the triangle fan of the island mask mesh: every
    triangle has the centre vertex 0 and two consecutive rim vertices, and
    the last triangle is patched to close the fan back onto vertex 1. */
module MaskIndicesJob {

  /** Slot i of the fan before the patch: triangle i / 3 is
      (0, i / 3 + 1, i / 3 + 2). */
  function FanIndex(i: nat): (v: nat)
    ensures i % 3 == 0 <==> v == 0
    ensures i % 3 == 1 ==> v == i / 3 + 1
    ensures i % 3 == 2 ==> v == i / 3 + 2
  {
    if i % 3 == 0 then 0 else i / 3 + i % 3
  }

  /** The index buffer after the job, given its length. The patch reads
      indices[1] after writing slot n - 3, so on a four-slot buffer (where
      slot n - 3 is slot 1) the last slot is 0 instead of 1. */
  predicate IsClosedFan(indices: seq<int>)
    requires |indices| >= 4
  {
    var n := |indices|;
    (forall i | 0 <= i < n - 3 :: indices[i] == FanIndex(i)) &&
    indices[n - 3] == 0 && indices[n - 2] == FanIndex(n - 4) &&
    indices[n - 1] == (if n == 4 then 0 else 1)
  }

  /** For a fan of 3(count - 1) slots the closing triangle is
      (0, count - 1, 1), every slot holds a vertex in [0, count - 1], and
      every slot at a multiple of 3 is the centre. */
  lemma ClosedFanShape(indices: seq<int>, count: int)
    requires |indices| >= 4 && |indices| == 3 * (count - 1) && IsClosedFan(indices)
    ensures indices[|indices| - 3] == 0 && indices[|indices| - 2] == count - 1 && indices[|indices| - 1] == 1
    ensures forall i | 0 <= i < |indices| :: 0 <= indices[i] <= count - 1
    ensures forall i | 0 <= i < |indices| && i % 3 == 0 :: indices[i] == 0
  {
    var n := |indices|;
    assert (n - 4) % 3 == 2 && (n - 4) / 3 == count - 3;
    forall i | 0 <= i < n - 3
      ensures 0 <= indices[i] <= count - 1
    {
      assert i / 3 <= count - 3;
    }
  }

  class IndicesJob {
    const indices: array<int>

    constructor(indices: array<int>)
      ensures this.indices == indices
    {
      this.indices := indices;
    }

    /** Fills the fan slot by slot, then patches the last triangle to
        (0, the second rim vertex of the triangle before it, indices[1]). */
    method Execute()
      requires indices.Length >= 4
      modifies indices
      ensures IsClosedFan(indices[..])
    {
      var currentIndex := 1;
      var indicesCount := indices.Length;
      var i := 0;
      while i < indicesCount
        invariant 0 <= i <= indicesCount
        invariant currentIndex == 1 + (i + 1) / 3
        invariant forall k | 0 <= k < i :: indices[k] == FanIndex(k)
      {
        var multiplier := if i % 3 != 0 then 1 else 0;
        indices[i] := currentIndex * multiplier;
        currentIndex := currentIndex + (if i % 3 == 1 then 1 else 0);
        i := i + 1;
      }
      indices[indicesCount - 3] := 0;
      indices[indicesCount - 2] := indices[indicesCount - 4];
      indices[indicesCount - 1] := indices[1];
      assert forall k | 0 <= k < indicesCount - 3 :: indices[..][k] == FanIndex(k);
    }
  }
}
