/** The global spawn rule: every cell of the chunk gets the layer, whatever
    was there before. */
module GlobalSpawnRule {
  import opened Vectors
  import opened ChunkLayout

  class WriteJob {
    const chunk: Int2
    const chunkSize: int
    const layer: int
    const target: array<int>

    constructor(chunk: Int2, chunkSize: int, layer: int, target: array<int>)
      ensures this.chunk == chunk && this.chunkSize == chunkSize && this.layer == layer && this.target == target
    {
      this.chunk := chunk;
      this.chunkSize := chunkSize;
      this.layer := layer;
      this.target := target;
    }

    /** Sets the map index of cell `index` to the layer and nothing else. */
    method Execute(index: int)
      requires chunkSize > 0 && index >= 0 && 0 <= MapIndex(chunk, chunkSize, index) < target.Length
      modifies target
      ensures target[MapIndex(chunk, chunkSize, index)] == layer
      ensures forall k | 0 <= k < target.Length && k != MapIndex(chunk, chunkSize, index) :: target[k] == old(target[k])
    {
      var position := Int2(chunk.x * chunkSize, chunk.y * chunkSize);
      position := Int2(position.x + index % chunkSize, position.y + index / chunkSize);
      target[position.x + position.y * chunkSize] := layer;
    }
  }

  /** Runs the write job over the chunk's chunkSize^2 cells, which must
      all index the map: the chunk's run of the map becomes the layer. */
  method Spawn(chunk: Int2, chunkSize: int, layer: int, target: array<int>)
    requires chunkSize >= 0 && InBounds(chunk, chunkSize, target.Length)
    modifies target
    ensures target[..] == Cover(old(target[..]), ChunkBase(chunk, chunkSize), chunkSize * chunkSize, layer)
  {
    var writeJob := new WriteJob(chunk, chunkSize, layer, target);
    var count := chunkSize * chunkSize;
    var start := ChunkBase(chunk, chunkSize);
    var index := 0;
    while index < count
      invariant 0 <= index <= count
      invariant forall k | 0 <= k < target.Length :: target[k] == (if start <= k < start + index then layer else old(target[k]))
    {
      IndexShift(chunk, chunkSize, index);
      writeJob.Execute(index);
      index := index + 1;
    }
  }
}
