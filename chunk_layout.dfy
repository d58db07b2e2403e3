/** Where the biome write jobs put cell i of a chunk: the chunk offset
    times the chunk size plus the cell's column and row, flattened with the
    chunk size as the row stride. The map buffers hold one chunk, so the
    offset has to cancel out for the writes to stay in bounds. */
module ChunkLayout {
  import opened Vectors

  /** The flattened map index of cell i. */
  function MapIndex(chunk: Int2, chunkSize: int, i: int): int
    requires chunkSize > 0 && i >= 0
  {
    var px := chunk.x * chunkSize + i % chunkSize;
    var py := chunk.y * chunkSize + i / chunkSize;
    px + py * chunkSize
  }

  /** The index of the chunk's first cell. */
  function ChunkBase(chunk: Int2, chunkSize: int): int
  {
    chunkSize * (chunk.x + chunkSize * chunk.y)
  }

  /** Cell i lands i places after the chunk's first cell: the cells of a
      chunk form one contiguous run. */
  lemma IndexShift(chunk: Int2, chunkSize: int, i: int)
    requires chunkSize > 0 && i >= 0
    ensures MapIndex(chunk, chunkSize, i) == ChunkBase(chunk, chunkSize) + i
  {
    var q, r := i / chunkSize, i % chunkSize;
    assert i == q * chunkSize + r;
    calc {
      MapIndex(chunk, chunkSize, i);
      (chunk.x * chunkSize + r) + (chunk.y * chunkSize + q) * chunkSize;
      { assert (chunk.y * chunkSize + q) * chunkSize == chunk.y * chunkSize * chunkSize + q * chunkSize; }
      chunkSize * chunk.x + chunkSize * chunkSize * chunk.y + i;
      { assert chunkSize * (chunk.x + chunkSize * chunk.y) == chunkSize * chunk.x + chunkSize * chunkSize * chunk.y; }
      ChunkBase(chunk, chunkSize) + i;
    }
  }

  /** Every cell of the chunk indexes a buffer of the given length. */
  predicate InBounds(chunk: Int2, chunkSize: int, length: int)
  {
    0 <= ChunkBase(chunk, chunkSize) && ChunkBase(chunk, chunkSize) + chunkSize * chunkSize <= length
  }

  /** `InBounds` says exactly that each of the chunkSize^2 cells indexes
      the buffer. */
  lemma InBoundsPerCell(chunk: Int2, chunkSize: int, length: int)
    requires chunkSize > 0
    ensures InBounds(chunk, chunkSize, length) <==>
            forall i | 0 <= i < chunkSize * chunkSize :: 0 <= MapIndex(chunk, chunkSize, i) < length
  {
    var n := chunkSize * chunkSize;
    assert n >= 1 by {
      assert chunkSize * chunkSize >= chunkSize * 1;
    }
    if forall i | 0 <= i < n :: 0 <= MapIndex(chunk, chunkSize, i) < length {
      IndexShift(chunk, chunkSize, 0);
      IndexShift(chunk, chunkSize, n - 1);
    }
    if InBounds(chunk, chunkSize, length) {
      forall i | 0 <= i < n
        ensures 0 <= MapIndex(chunk, chunkSize, i) < length
      {
        IndexShift(chunk, chunkSize, i);
      }
    }
  }

  /** For a buffer of exactly one chunk, the writes stay in bounds exactly
      when the chunk offset cancels out, as it does for chunk (0, 0); the
      cells then map to themselves. */
  lemma SingleChunkBuffer(chunk: Int2, chunkSize: int)
    requires chunkSize > 0
    ensures InBounds(chunk, chunkSize, chunkSize * chunkSize) <==> chunk.x + chunkSize * chunk.y == 0
    ensures InBounds(Int2(0, 0), chunkSize, chunkSize * chunkSize)
    ensures InBounds(chunk, chunkSize, chunkSize * chunkSize) ==>
              forall i | 0 <= i < chunkSize * chunkSize :: MapIndex(chunk, chunkSize, i) == i
  {
    var k := chunk.x + chunkSize * chunk.y;
    if k >= 1 {
      assert chunkSize * k >= chunkSize * 1;
    } else if k <= -1 {
      assert chunkSize * k <= chunkSize * -1;
    }
    if InBounds(chunk, chunkSize, chunkSize * chunkSize) {
      forall i | 0 <= i < chunkSize * chunkSize
        ensures MapIndex(chunk, chunkSize, i) == i
      {
        IndexShift(chunk, chunkSize, i);
      }
    }
  }

  /** The map after every cell of the run [start, start + count) is set to
      `layer`. */
  function Cover(cells: seq<int>, start: int, count: int, layer: int): (m: seq<int>)
    ensures |m| == |cells|
    ensures forall k | 0 <= k < |cells| :: m[k] == (if start <= k < start + count then layer else cells[k])
  {
    seq(|cells|, k requires 0 <= k < |cells| => if start <= k < start + count then layer else cells[k])
  }

  /** Covering twice is covering once. */
  lemma CoverIdempotent(cells: seq<int>, start: int, count: int, layer: int)
    ensures Cover(Cover(cells, start, count, layer), start, count, layer) == Cover(cells, start, count, layer)
  {
  }

  /** Covering forgets the previous contents of the run. */
  lemma CoverForgets(m1: seq<int>, m2: seq<int>, start: int, count: int, layer: int)
    requires |m1| == |m2| && forall k | 0 <= k < |m1| && !(start <= k < start + count) :: m1[k] == m2[k]
    ensures Cover(m1, start, count, layer) == Cover(m2, start, count, layer)
  {
  }
}
