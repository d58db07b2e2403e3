/** The noise biome's spawn rule: the chunk's noise is sampled into a
    buffer of chunkSize^2 cells, and every cell whose noise passes the
    threshold comparison gets the biome's layer in the map. */
module NoiseBiomeSpawn {
  import opened Vectors
  import opened ChunkLayout
  import opened ThresholdOperations

  /** A noise biome; `noise` is what the noise job samples for the chunk
      being generated. */
  datatype NoiseBiome = NoiseBiome(noise: seq<real>, threshold: real, thresholdOperation: ThresholdOperation)

  /** The asset's defaults: threshold 0.5, comparison `GreaterEqual`. */
  function Default(noise: seq<real>): (b: NoiseBiome)
    ensures b.noise == noise && b.threshold == 0.5 && b.thresholdOperation == GreaterEqual
  {
    NoiseBiome(noise, 0.5, GreaterEqual)
  }

  /** Map cell k lies in the run the chunk covers and its noise passes. */
  predicate Claims(b: NoiseBiome, start: int, count: int, k: int)
    requires !b.thresholdOperation.Unnamed? && start + count <= |b.noise|
  {
    start <= k < start + count && 0 <= k && Test(b.thresholdOperation, b.noise[k], b.threshold)
  }

  /** The map after the spawn: the layer wherever the biome claims the
      cell, the previous value everywhere else. */
  function Spawned(b: NoiseBiome, start: int, count: int, layer: int, cells: seq<int>): (m: seq<int>)
    requires !b.thresholdOperation.Unnamed? && start + count <= |b.noise|
    ensures |m| == |cells|
    ensures forall k | 0 <= k < |cells| :: m[k] == (if Claims(b, start, count, k) then layer else cells[k])
  {
    seq(|cells|, k requires 0 <= k < |cells| => if Claims(b, start, count, k) then layer else cells[k])
  }

  /** Spawning twice is spawning once. */
  lemma SpawnedIdempotent(b: NoiseBiome, start: int, count: int, layer: int, cells: seq<int>)
    requires !b.thresholdOperation.Unnamed? && start + count <= |b.noise|
    ensures Spawned(b, start, count, layer, Spawned(b, start, count, layer, cells)) == Spawned(b, start, count, layer, cells)
  {
  }

  class WriteJob {
    const layer: int
    const chunk: Int2
    const chunkSize: int
    const threshold: real
    const thresholdOperation: ThresholdOperation
    const noise: array<real>
    const target: array<int>

    constructor(layer: int, chunk: Int2, chunkSize: int, threshold: real, thresholdOperation: ThresholdOperation,
                noise: array<real>, target: array<int>)
      ensures this.layer == layer && this.chunk == chunk && this.chunkSize == chunkSize
      ensures this.threshold == threshold && this.thresholdOperation == thresholdOperation
      ensures this.noise == noise && this.target == target
    {
      this.layer := layer;
      this.chunk := chunk;
      this.chunkSize := chunkSize;
      this.threshold := threshold;
      this.thresholdOperation := thresholdOperation;
      this.noise := noise;
      this.target := target;
    }

    /** Cell i: sets its map index to the layer when its noise passes,
        and writes nothing otherwise. */
    method Execute(i: int)
      requires chunkSize > 0 && i >= 0 && !thresholdOperation.Unnamed?
      requires 0 <= MapIndex(chunk, chunkSize, i) < noise.Length && MapIndex(chunk, chunkSize, i) < target.Length
      modifies target
      ensures var index := MapIndex(chunk, chunkSize, i);
              target[index] == (if Test(thresholdOperation, noise[index], threshold) then layer else old(target[index]))
      ensures forall k | 0 <= k < target.Length && k != MapIndex(chunk, chunkSize, i) :: target[k] == old(target[k])
    {
      var position := Int2(chunk.x * chunkSize, chunk.y * chunkSize);
      position := Int2(position.x + i % chunkSize, position.y + i / chunkSize);
      var index := position.x + position.y * chunkSize;
      var noiseVal := noise[index];
      var op := GetOperation(thresholdOperation).value;
      if op(noiseVal, threshold) {
        target[index] := layer;
      }
    }
  }

  /** Samples the noise into a fresh chunk-sized buffer and runs the write
      job over the chunk's cells. The cells must index both the noise
      buffer and the map. An unnamed comparison makes the lookup throw:
      `ok` is then false and the map is unchanged. */
  method Spawn(b: NoiseBiome, chunk: Int2, chunkSize: int, layer: int, target: array<int>) returns (ok: bool)
    requires chunkSize >= 0 && |b.noise| == chunkSize * chunkSize
    requires InBounds(chunk, chunkSize, chunkSize * chunkSize) && InBounds(chunk, chunkSize, target.Length)
    modifies target
    ensures ok <==> !b.thresholdOperation.Unnamed?
    ensures ok ==> target[..] == Spawned(b, ChunkBase(chunk, chunkSize), chunkSize * chunkSize, layer, old(target[..]))
    ensures !ok ==> target[..] == old(target[..])
  {
    var chunkLength := chunkSize * chunkSize;
    var noiseMap := new real[chunkLength](k requires 0 <= k < chunkLength => b.noise[k]);
    if GetOperation(b.thresholdOperation).None? {
      return false;
    }
    ok := true;
    var writeJob := new WriteJob(layer, chunk, chunkSize, b.threshold, b.thresholdOperation, noiseMap, target);
    var start := ChunkBase(chunk, chunkSize);
    var i := 0;
    while i < chunkLength
      invariant 0 <= i <= chunkLength
      invariant forall k | 0 <= k < chunkLength :: noiseMap[k] == b.noise[k]
      invariant forall k | 0 <= k < target.Length ::
                  target[k] == (if start <= k < start + i && Test(b.thresholdOperation, b.noise[k], b.threshold)
                                then layer else old(target[k]))
    {
      IndexShift(chunk, chunkSize, i);
      writeJob.Execute(i);
      assert noiseMap[start + i] == b.noise[start + i];
      i := i + 1;
    }
  }
}
