/** The global biome: the same unconditional layer write as the global
    spawn rule, with a random generator among its parameters that it
    never uses. */
module GlobalBiomeSpawn {
  import opened Vectors
  import opened ChunkLayout
  import GlobalSpawnRule

  /** Runs the unconditional write job; `random` (the caller's random
      stream) is not read, so the map does not depend on it, and the
      chunk's run of the map becomes the layer. */
  method Spawn(random: seq<real>, chunk: Int2, chunkSize: int, layer: int, target: array<int>)
    requires chunkSize >= 0 && InBounds(chunk, chunkSize, target.Length)
    modifies target
    ensures target[..] == Cover(old(target[..]), ChunkBase(chunk, chunkSize), chunkSize * chunkSize, layer)
  {
    var writeJob := new GlobalSpawnRule.WriteJob(chunk, chunkSize, layer, target);
    var count := chunkSize * chunkSize;
    var start := ChunkBase(chunk, chunkSize);
    var index := 0;
    while index < count
      invariant 0 <= index <= count
      invariant forall k | 0 <= k < target.Length :: target[k] == (if start <= k < start + index then layer else old(target[k]))
    {
      IndexShift(chunk, chunkSize, index);
      writeJob.Execute(index);
      index := index + 1;
    }
  }
}
