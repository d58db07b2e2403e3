/** The noise biome's weighting: the chunk's noise is written into a copy
    of the result buffer, and each of the chunk's cells then gets the
    biome's operator applied to its noise value and the threshold. */
module NoiseBiomeWeighting {
  import opened Vectors
  import opened ChunkLayout
  import opened NoiseBiomeOperations

  /** The part of a noise map the weighting depends on: whether its octave
      offsets exist yet. */
  class NoiseMap {
    var octaveOffsetsGenerated: bool

    constructor(octaveOffsetsGenerated: bool)
      ensures this.octaveOffsetsGenerated == octaveOffsetsGenerated
    {
      this.octaveOffsetsGenerated := octaveOffsetsGenerated;
    }

    /** Generates the octave offsets; afterwards they exist. */
    method GenerateOffsets()
      modifies this
      ensures octaveOffsetsGenerated
    {
      octaveOffsetsGenerated := true;
    }
  }

  /** The weight of a cell under a named operator. */
  function Weight(operation: NoiseBiomeOperation, noise: real, threshold: real): real
    requires !operation.Unnamed?
  {
    GetOperation(operation).value(noise, threshold)
  }

  /** With `Greater` every weight lies in [0, 1], with `Less` in [-1, 0]. */
  lemma WeightRange(operation: NoiseBiomeOperation, noise: real, threshold: real)
    requires !operation.Unnamed?
    ensures operation == Greater ==> 0.0 <= Weight(operation, noise, threshold) <= 1.0
    ensures operation == Less ==> -1.0 <= Weight(operation, noise, threshold) <= 0.0
  {
  }

  /** The weights after the first `count` cells are replaced by the
      operator's value on their noise. */
  function Weights(weights: seq<real>, noise: seq<real>, count: int, operation: NoiseBiomeOperation,
                   threshold: real): (w: seq<real>)
    requires !operation.Unnamed? && count <= |noise|
    ensures |w| == |weights|
    ensures forall k | 0 <= k < |weights| ::
              w[k] == (if k < count then Weight(operation, noise[k], threshold) else weights[k])
  {
    seq(|weights|, k requires 0 <= k < |weights| =>
          if k < count then Weight(operation, noise[k], threshold) else weights[k])
  }

  class WriteJob {
    const threshold: real
    const operation: NoiseBiomeOperation
    const noise: array<real>
    const result: array<real>

    constructor(threshold: real, operation: NoiseBiomeOperation, noise: array<real>, result: array<real>)
      requires !operation.Unnamed?
      ensures this.threshold == threshold && this.operation == operation
      ensures this.noise == noise && this.result == result
    {
      this.threshold := threshold;
      this.operation := operation;
      this.noise := noise;
      this.result := result;
    }

    /** Writes the weight of cell `index` and nothing else. */
    method Execute(index: int)
      requires 0 <= index < noise.Length && index < result.Length && noise != result
      requires !operation.Unnamed?
      modifies result
      ensures result[index] == Weight(operation, noise[index], threshold)
      ensures forall k | 0 <= k < result.Length && k != index :: result[k] == old(result[k])
    {
      var op := GetOperation(operation).value;
      result[index] := op(noise[index], threshold);
    }
  }

  class NoiseBiome {
    const noise: NoiseMap
    var threshold: real
    var operation: NoiseBiomeOperation
    /** The copy of the results the noise job writes into. */
    var resultsCopy: array<real>
    /** Whether `resultsCopy` is allocated and not yet released. */
    var copyAllocated: bool

    /** The asset's defaults: threshold 0.5, operator `Greater`. */
    constructor(noise: NoiseMap)
      ensures this.noise == noise && threshold == 0.5 && operation == Greater && !copyAllocated
    {
      this.noise := noise;
      threshold := 0.5;
      operation := Greater;
      resultsCopy := new real[0];
      copyAllocated := false;
    }

    /** Generates the noise offsets if they do not exist yet, copies
        `result`, lets the noise job (whose output for the chunk is
        `noiseValues`) overwrite the chunkSize^2 first cells of the copy,
        and writes each of those cells' weight into `result`. An unnamed
        operator makes the operator lookup throw: `ok` is then false and
        `result` is left as it was. */
    method CalculateWeighting(chunk: Int2, chunkSize: int, result: array<real>, noiseValues: seq<real>)
      returns (ok: bool, generatedOffsets: bool)
      requires chunkSize * chunkSize <= result.Length && chunkSize * chunkSize <= |noiseValues|
      modifies this, noise, result
      ensures noise.octaveOffsetsGenerated && (generatedOffsets <==> !old(noise.octaveOffsetsGenerated))
      ensures threshold == old(threshold) && operation == old(operation)
      ensures fresh(resultsCopy) && copyAllocated && resultsCopy.Length == result.Length
      ensures forall k | 0 <= k < resultsCopy.Length ::
                resultsCopy[k] == (if k < chunkSize * chunkSize then noiseValues[k] else old(result[k]))
      ensures ok <==> !operation.Unnamed?
      ensures ok ==> result[..] == Weights(old(result[..]), noiseValues, chunkSize * chunkSize, operation, threshold)
      ensures !ok ==> result[..] == old(result[..])
    {
      generatedOffsets := !noise.octaveOffsetsGenerated;
      if !noise.octaveOffsetsGenerated {
        noise.GenerateOffsets();
      }
      var arrayLength := chunkSize * chunkSize;

      var copy := new real[result.Length];
      forall k | 0 <= k < result.Length {
        copy[k] := result[k];
      }
      forall k | 0 <= k < arrayLength {
        copy[k] := noiseValues[k];
      }
      resultsCopy := copy;
      copyAllocated := true;

      if GetOperation(operation).None? {
        return false, generatedOffsets;
      }
      ok := true;
      var writeJob := new WriteJob(threshold, operation, copy, result);
      var index := 0;
      while index < arrayLength
        modifies result
        invariant 0 <= index && (arrayLength >= 0 ==> index <= arrayLength)
        invariant forall k | 0 <= k < result.Length ::
                    result[k] == (if k < index then Weight(operation, noiseValues[k], threshold) else old(result[k]))
      {
        writeJob.Execute(index);
        index := index + 1;
      }
    }

    /** Releases the copy. Releasing it when it is not allocated throws:
        `ok` is then false. */
    method OnComplete() returns (ok: bool)
      modifies this
      ensures ok <==> old(copyAllocated)
      ensures !copyAllocated && threshold == old(threshold) && operation == old(operation)
    {
      if !copyAllocated {
        return false;
      }
      copyAllocated := false;
      ok := true;
    }
  }
}
