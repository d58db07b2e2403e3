/** The global biome's weighting: every cell of the chunk gets the same
    constant weight, whatever the chunk and whatever was there. */
module GlobalBiomeWeighting {
  import opened Vectors
  import opened ChunkLayout

  /** The weights after the first `count` cells are set to `threshold`. */
  function Fill(weights: seq<real>, count: int, threshold: real): (w: seq<real>)
    ensures |w| == |weights|
    ensures forall k | 0 <= k < |weights| :: w[k] == (if k < count then threshold else weights[k])
  {
    seq(|weights|, k requires 0 <= k < |weights| => if k < count then threshold else weights[k])
  }

  /** Filling twice is filling once. */
  lemma FillIdempotent(weights: seq<real>, count: int, threshold: real)
    ensures Fill(Fill(weights, count, threshold), count, threshold) == Fill(weights, count, threshold)
  {
  }

  class WriteJob {
    const threshold: real
    const target: array<real>

    constructor(threshold: real, target: array<real>)
      ensures this.threshold == threshold && this.target == target
    {
      this.threshold := threshold;
      this.target := target;
    }

    /** Writes the threshold into cell `index` and nothing else. */
    method Execute(index: int)
      requires 0 <= index < target.Length
      modifies target
      ensures target[index] == threshold
      ensures forall k | 0 <= k < target.Length && k != index :: target[k] == old(target[k])
    {
      target[index] := threshold;
    }
  }

  class GlobalBiome {
    /** The weight written to every cell. */
    var threshold: real

    /** The asset's default threshold. */
    constructor()
      ensures threshold == 0.01
    {
      threshold := 0.01;
    }

    /** Runs the write job over the chunkSize^2 cells of `result`; the
        chunk index does not enter into it. */
    method CalculateWeighting(chunk: Int2, chunkSize: int, result: array<real>)
      requires chunkSize * chunkSize <= result.Length
      modifies result
      ensures result[..] == Fill(old(result[..]), chunkSize * chunkSize, threshold)
    {
      var writeJob := new WriteJob(threshold, result);
      var count := chunkSize * chunkSize;
      var index := 0;
      while index < count
        invariant 0 <= index && (count >= 0 ==> index <= count)
        invariant forall k | 0 <= k < result.Length :: result[k] == (if k < index then threshold else old(result[k]))
      {
        writeJob.Execute(index);
        index := index + 1;
      }
    }
  }
}
