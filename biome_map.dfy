/** The biome map: the biomes of the list are spawned one after another
    into the same layer map, biome i writing layer i, so a later biome
    overwrites an earlier one wherever both claim a cell. */
module BiomeMaps {
  import opened Wrappers
  import opened Vectors
  import opened ChunkLayout
  import opened ThresholdOperations
  import NoiseBiomeSpawn
  import GlobalBiomeSpawn

  /** A biome of the list: a noise biome or a global biome. */
  datatype Biome = Noise(rule: NoiseBiomeSpawn.NoiseBiome) | Global

  /** The biome's comparison has a name, so spawning it does not throw. */
  predicate Named(b: Biome)
  {
    b.Noise? ==> !b.rule.thresholdOperation.Unnamed?
  }

  /** The biome's noise covers the run [start, start + count). */
  predicate Fits(b: Biome, start: int, count: int)
  {
    b.Noise? ==> start + count <= |b.rule.noise|
  }

  /** Every biome of the list is named and fits. */
  predicate Ready(biomes: seq<Option<Biome>>, start: int, count: int)
  {
    forall i | 0 <= i < |biomes| && biomes[i].Some? :: Named(biomes[i].value) && Fits(biomes[i].value, start, count)
  }

  /** The biome claims map cell k. */
  predicate Claims(b: Biome, start: int, count: int, k: int)
    requires Named(b) && Fits(b, start, count)
  {
    match b
    case Noise(rule) => NoiseBiomeSpawn.Claims(rule, start, count, k)
    case Global => start <= k < start + count
  }

  /** The map after one biome spawns with the given layer. */
  function Spawned(b: Biome, start: int, count: int, layer: int, cells: seq<int>): (m: seq<int>)
    requires Named(b) && Fits(b, start, count)
    ensures |m| == |cells|
    ensures forall k | 0 <= k < |cells| :: m[k] == (if Claims(b, start, count, k) then layer else cells[k])
  {
    match b
    case Noise(rule) => NoiseBiomeSpawn.Spawned(rule, start, count, layer, cells)
    case Global => Cover(cells, start, count, layer)
  }

  /** The map after the whole list, in order; a missing biome is skipped. */
  function Layers(biomes: seq<Option<Biome>>, start: int, count: int, cells: seq<int>): (m: seq<int>)
    requires Ready(biomes, start, count)
    ensures |m| == |cells|
  {
    if biomes == [] then cells
    else
      var n := |biomes| - 1;
      var prev := Layers(biomes[..n], start, count, cells);
      match biomes[n]
      case None => prev
      case Some(b) => Spawned(b, start, count, n, prev)
  }

  /** The position of the last biome of the list that claims cell k, or
      -1 if none does. */
  function LastClaim(biomes: seq<Option<Biome>>, start: int, count: int, k: int): (i: int)
    requires Ready(biomes, start, count)
    ensures -1 <= i < |biomes|
    ensures i >= 0 ==> biomes[i].Some? && Claims(biomes[i].value, start, count, k)
  {
    if biomes == [] then -1
    else
      var n := |biomes| - 1;
      if biomes[n].Some? && Claims(biomes[n].value, start, count, k) then n
      else LastClaim(biomes[..n], start, count, k)
  }

  /** The last writer wins: a cell ends as the layer of the last biome
      that claims it, or keeps its value if no biome does. */
  lemma {:induction false} LastWriterWins(biomes: seq<Option<Biome>>, start: int, count: int, cells: seq<int>, k: int)
    requires Ready(biomes, start, count) && 0 <= k < |cells|
    ensures Layers(biomes, start, count, cells)[k] ==
            (if LastClaim(biomes, start, count, k) >= 0 then LastClaim(biomes, start, count, k) else cells[k])
  {
    if biomes != [] {
      LastWriterWins(biomes[..|biomes| - 1], start, count, cells, k);
    }
  }

  /** No biome after the claiming one claims the cell. */
  lemma {:induction false} LaterBiomesPass(biomes: seq<Option<Biome>>, start: int, count: int, k: int, j: int)
    requires Ready(biomes, start, count) && LastClaim(biomes, start, count, k) < j < |biomes| && biomes[j].Some?
    ensures !Claims(biomes[j].value, start, count, k)
  {
    var n := |biomes| - 1;
    if j < n {
      LaterBiomesPass(biomes[..n], start, count, k, j);
    }
  }

  /** A global biome at position j puts a layer of at least j on every
      cell of the chunk. */
  lemma GlobalFloor(biomes: seq<Option<Biome>>, start: int, count: int, cells: seq<int>, j: int, k: int)
    requires Ready(biomes, start, count) && 0 <= j < |biomes| && biomes[j] == Some(Global)
    requires 0 <= k < |cells| && start <= k < start + count
    ensures Layers(biomes, start, count, cells)[k] >= j
  {
    LastWriterWins(biomes, start, count, cells, k);
    if LastClaim(biomes, start, count, k) < j {
      LaterBiomesPass(biomes, start, count, k, j);
    }
  }

  /** Every final value is the initial one or a layer index of the list. */
  lemma LayerValues(biomes: seq<Option<Biome>>, start: int, count: int, cells: seq<int>, k: int)
    requires Ready(biomes, start, count) && 0 <= k < |cells|
    ensures var v := Layers(biomes, start, count, cells)[k];
            v == cells[k] || 0 <= v < |biomes|
  {
    LastWriterWins(biomes, start, count, cells, k);
  }

  /** Only the chunk's run of the map can change. */
  lemma OutsideUntouched(biomes: seq<Option<Biome>>, start: int, count: int, cells: seq<int>, k: int)
    requires Ready(biomes, start, count) && 0 <= k < |cells| && !(start <= k < start + count)
    ensures Layers(biomes, start, count, cells)[k] == cells[k]
  {
    LastWriterWins(biomes, start, count, cells, k);
  }

  class BiomeMap {
    var biomes: seq<Option<Biome>>

    constructor(biomes: seq<Option<Biome>>)
      ensures this.biomes == biomes
    {
      this.biomes := biomes;
    }

    /** Spawns the biomes in list order, biome i with layer i. Editor and
        development builds (`developmentBuild`) check for a missing entry and
        skip it; other builds compile the check out, so a missing entry
        throws when its name is read. A noise biome with an unnamed
        comparison throws too. A throw ends the generation: `applied` is
        then the failing position and the map holds the layers of the
        biomes before it. */
    method GenerateChunk(chunk: Int2, chunkSize: int, target: array<int>, developmentBuild: bool)
      returns (ok: bool, applied: nat)
      requires chunkSize >= 0 && InBounds(chunk, chunkSize, target.Length)
      requires forall i | 0 <= i < |biomes| && biomes[i].Some? && biomes[i].value.Noise? ::
                 |biomes[i].value.rule.noise| == chunkSize * chunkSize && InBounds(chunk, chunkSize, chunkSize * chunkSize)
      modifies target
      ensures applied <= |biomes| && (ok <==> applied == |biomes|)
      ensures Ready(biomes[..applied], ChunkBase(chunk, chunkSize), chunkSize * chunkSize)
      ensures target[..] == Layers(biomes[..applied], ChunkBase(chunk, chunkSize), chunkSize * chunkSize, old(target[..]))
      ensures !ok ==> (biomes[applied].Some? && !Named(biomes[applied].value)) ||
                      (!developmentBuild && biomes[applied].None?)
      ensures !developmentBuild ==> forall j | 0 <= j < applied :: biomes[j].Some?
    {
      var start, count := ChunkBase(chunk, chunkSize), chunkSize * chunkSize;
      var list := biomes;
      var i := 0;
      while i < |list|
        invariant 0 <= i <= |list|
        invariant Ready(list[..i], start, count)
        invariant target[..] == Layers(list[..i], start, count, old(target[..]))
        invariant !developmentBuild ==> forall j | 0 <= j < i :: list[j].Some?
      {
        assert list[..i + 1][..i] == list[..i];
        match list[i] {
          case None =>
            if !developmentBuild {
              return false, i;
            }
          case Some(b) =>
            var spawned;
            match b {
              case Noise(rule) =>
                spawned := NoiseBiomeSpawn.Spawn(rule, chunk, chunkSize, i, target);
              case Global =>
                GlobalBiomeSpawn.Spawn([], chunk, chunkSize, i, target);
                spawned := true;
            }
            if !spawned {
              return false, i;
            }
        }
        i := i + 1;
      }
      assert list[..i] == list;
      return true, i;
    }
  }
}
