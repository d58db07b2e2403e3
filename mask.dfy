/** The island mask: sizes the rim, runs the angle, index, extent, min/max,
    smoothing and vertex jobs in their dependency order, and records when
    the rendered mask has been read back. The mesh upload and rendering are
    engine calls and are not modelled; the model returns the mesh buffers. */
module Masks {
  import opened Numerics
  import opened MinMaxSpec
  import opened Octaves
  import MathsUtil
  import opened MaskAnglesJob
  import opened MaskIndicesJob
  import opened MaskExtentsJob
  import opened MaskSmoothJob
  import opened MaskVertexJob

  /** The batch size the vertex count is a multiple of: the widest min/max batch. */
  const BatchSize: nat := MathsUtil.MinMaxMaxBatch

  /** The vertex count: the complexity rounded down to a multiple of the batch size. */
  function VertexCount(complexity: int): (n: int)
    requires complexity >= BatchSize
    ensures n % BatchSize == 0 && BatchSize <= n <= complexity < n + BatchSize
  {
    complexity - CsRem(complexity, BatchSize)
  }

  /** The number of extents before the last one that the seam smoothing replaces. */
  function SmoothingAmount(n: int): (s: int)
    requires n >= BatchSize
    ensures 1 <= s && n - 1 - s >= 0
  {
    n / 8
  }

  /** The extents before smoothing. */
  function RawExtents(sin: real -> real, draws: seq<real>, n: int, scale: real, octaves: nat, lacunarity: real,
                      gain: real): (e: seq<real>)
    requires n > 0 && n <= |draws| && UnitDraws(draws)
    ensures |e| == n
    ensures forall k | 0 <= k < n ::
              e[k] == ExtentOf(sin, draws[0], scale, octaves, lacunarity, gain, AngleAt(draws, n, k))
  {
    seq(n, k requires 0 <= k < n => ExtentOf(sin, draws[0], scale, octaves, lacunarity, gain, AngleAt(draws, n, k)))
  }

  /** With a non-negative gain every raw extent lies in [0, total amplitude),
      and with no octaves every extent is 0. */
  lemma RawExtentsBounds(sin: real -> real, draws: seq<real>, n: int, scale: real, octaves: nat, lacunarity: real,
                         gain: real)
    requires n > 0 && n <= |draws| && UnitDraws(draws) && gain >= 0.0
    ensures var e := RawExtents(sin, draws, n, scale, octaves, lacunarity, gain);
            forall k | 0 <= k < n :: (octaves == 0 ==> e[k] == 0.0) && (octaves >= 1 ==> 0.0 <= e[k] < Series(0.5, gain, octaves))
  {
    forall k | 0 <= k < n
      ensures var e := RawExtents(sin, draws, n, scale, octaves, lacunarity, gain);
              (octaves == 0 ==> e[k] == 0.0) && (octaves >= 1 ==> 0.0 <= e[k] < Series(0.5, gain, octaves))
    {
      ExtentBounds(sin, draws[0], scale, octaves, lacunarity, gain, AngleAt(draws, n, k));
    }
  }

  /** The rim angles, in closed form. */
  function Angles(draws: seq<real>, n: int): (a: seq<real>)
    requires 0 < n <= |draws| && UnitDraws(draws)
    ensures |a| == n && forall k | 0 <= k < n :: a[k] == AngleAt(draws, n, k)
  {
    seq(n, k requires 0 <= k < n => AngleAt(draws, n, k))
  }

  /** The rim vertices: vertex k sits at angle k, at the normalised extent k. */
  function RimVertices(cos: real -> real, sin: real -> real, angles: seq<real>, minimum: real, maximum: real,
                       extents: seq<real>): (v: seq<Float3>)
    requires |angles| == |extents| && minimum != maximum
    ensures |v| == |angles|
    ensures forall k | 0 <= k < |v| :: v[k] == RimVertex(cos, sin, angles[k], Normalise(minimum, maximum, extents[k]))
  {
    seq(|angles|, k requires 0 <= k < |angles| => RimVertex(cos, sin, angles[k], Normalise(minimum, maximum, extents[k])))
  }

  /** Extent k after smoothing: the slice [n - 1 - s, n - 1) is blended
      from its own first value toward extent 0; the rest, the last extent
      included, is unchanged. */
  function SmoothedExtent(raw: seq<real>, k: int): real
    requires |raw| >= BatchSize && 0 <= k < |raw|
  {
    var n := |raw|;
    var s := SmoothingAmount(n);
    if n - 1 - s <= k < n - 1 then SmoothValue(raw[n - 1 - s], raw[0], s, k - (n - 1 - s)) else raw[k]
  }

  /** The extents after smoothing. */
  function SmoothedExtents(raw: seq<real>): (e: seq<real>)
    requires |raw| >= BatchSize
    ensures |e| == |raw|
    ensures var n, s := |raw|, SmoothingAmount(|raw|);
            forall k | n - 1 - s <= k < n - 1 :: e[k] == SmoothValue(raw[n - 1 - s], raw[0], s, k - (n - 1 - s))
    ensures var n, s := |raw|, SmoothingAmount(|raw|);
            forall k | 0 <= k < |raw| && !(n - 1 - s <= k < n - 1) :: e[k] == raw[k]
  {
    seq(|raw|, k requires 0 <= k < |raw| => SmoothedExtent(raw, k))
  }

  /** Each extent lies between the minimum and the maximum of all of them. */
  lemma WithinFold(raw: seq<real>, k: int)
    requires 0 <= k < |raw|
    ensures Fold(Lower, raw) <= raw[k] <= Fold(Upper, raw)
  {
    assert Beyond(Lower, Fold(Lower, raw), raw[k]) && Beyond(Upper, Fold(Upper, raw), raw[k]);
  }

  /** A blend of two values within [lo, hi] stays within [lo, hi]. */
  lemma SmoothWithin(a: real, b: real, s: int, j: int, lo: real, hi: real)
    requires s > 0 && lo <= a <= hi && lo <= b <= hi
    ensures lo <= SmoothValue(a, b, s, j) <= hi
  {
    SmoothBetween(a, b, s, j);
  }

  /** Smoothing blends two of the unsmoothed extents, so it stays within
      any range that holds all of them. */
  lemma SmoothedBetween(raw: seq<real>, k: int, lo: real, hi: real)
    requires |raw| >= BatchSize && 0 <= k < |raw|
    requires forall i | 0 <= i < |raw| :: lo <= raw[i] <= hi
    ensures lo <= SmoothedExtent(raw, k) <= hi
  {
    var n := |raw|;
    var s := SmoothingAmount(n);
    if n - 1 - s <= k < n - 1 {
      SmoothWithin(raw[n - 1 - s], raw[0], s, k - (n - 1 - s), lo, hi);
    }
  }

  /** Smoothing never leaves the range of the unsmoothed extents, so
      normalising by their minimum and maximum keeps every vertex within
      the unit disc. */
  lemma SmoothedWithinRange(raw: seq<real>, k: int)
    requires |raw| >= BatchSize && 0 <= k < |raw|
    ensures Fold(Lower, raw) <= SmoothedExtent(raw, k) <= Fold(Upper, raw)
  {
    forall i | 0 <= i < |raw|
      ensures Fold(Lower, raw) <= raw[i] <= Fold(Upper, raw)
    {
      WithinFold(raw, i);
    }
    SmoothedBetween(raw, k, Fold(Lower, raw), Fold(Upper, raw));
  }

  /** Every normalised extent of a non-degenerate mask lies in [0, 1]. */
  lemma NormalisedInUnitRange(raw: seq<real>, k: int)
    requires |raw| >= BatchSize && 0 <= k < |raw| && Fold(Lower, raw) != Fold(Upper, raw)
    ensures 0.0 <= Normalise(Fold(Lower, raw), Fold(Upper, raw), SmoothedExtent(raw, k)) <= 1.0
  {
    SmoothedWithinRange(raw, k);
  }

  /** Allocates the angle buffer and runs the angles job on it. */
  method PlaceAngles(draws: seq<real>, n: int) returns (angles: array<real>)
    requires 0 < n <= |draws| && UnitDraws(draws)
    ensures fresh(angles) && angles[..] == Angles(draws, n)
  {
    angles := new real[n];
    var anglesJob := new AnglesJob(n, angles);
    anglesJob.Execute(draws);
  }

  /** Allocates the extent buffer and runs the extents job for every angle,
      seeded with the caller's next draw. */
  method ComputeExtents(sin: real -> real, draws: seq<real>, angles: array<real>, n: int, scale: real, octaves: nat,
                        lacunarity: real, gain: real) returns (extents: array<real>)
    requires 0 < n <= |draws| && UnitDraws(draws) && angles[..] == Angles(draws, n)
    ensures fresh(extents) && extents[..] == RawExtents(sin, draws, n, scale, octaves, lacunarity, gain)
  {
    extents := new real[n];
    assert forall k | 0 <= k < n :: angles[k] == angles[..][k];
    var extentsJob := new ExtentsJob(draws[0], scale, octaves, lacunarity, gain, angles, extents, sin);
    ScheduleExtents(extentsJob, n);
  }

  /** Runs the extents job for every angle. */
  method ScheduleExtents(job: ExtentsJob, n: int)
    requires job.angles.Length == n && job.extents.Length == n && job.angles != job.extents
    modifies job.extents
    ensures forall k | 0 <= k < n ::
              job.extents[k] == ExtentOf(job.sin, job.seed, job.scale, job.octaves, job.lacunarity, job.gain, job.angles[k])
  {
    var index := 0;
    while index < n
      invariant 0 <= index <= n
      invariant forall k | 0 <= k < index ::
                  job.extents[k] == ExtentOf(job.sin, job.seed, job.scale, job.octaves, job.lacunarity, job.gain, job.angles[k])
    {
      job.Execute(index);
      index := index + 1;
    }
  }

  /** Runs the smoothing job for every position of its slice. */
  method ScheduleSmoothing(job: SmoothJob)
    requires 0 <= job.sliceStart && job.sliceStart + job.sliceLength <= job.target.Length
    requires job.smoothSamples > 0 && job.sliceLength >= 0
    modifies job.target
    ensures forall k | 0 <= k < job.sliceLength ::
              job.target[job.sliceStart + k] == SmoothValue(job.startSample, job.endSample, job.smoothSamples, k)
    ensures forall k | 0 <= k < job.target.Length && !(job.sliceStart <= k < job.sliceStart + job.sliceLength) ::
              job.target[k] == old(job.target[k])
  {
    var i := 0;
    while i < job.sliceLength
      invariant 0 <= i <= job.sliceLength
      invariant forall k | 0 <= k < i ::
                  job.target[job.sliceStart + k] == SmoothValue(job.startSample, job.endSample, job.smoothSamples, k)
      invariant forall k | 0 <= k < job.target.Length && !(job.sliceStart <= k < job.sliceStart + i) ::
                  job.target[k] == old(job.target[k])
    {
      job.Execute(i);
      i := i + 1;
    }
  }

  /** Blends the seam: the smoothing job over the s extents before the
      last one, from the first of them toward extent 0. */
  method SmoothSeam(extents: array<real>)
    requires extents.Length >= BatchSize
    modifies extents
    ensures extents[..] == SmoothedExtents(old(extents[..]))
  {
    ghost var raw := extents[..];
    var smoothingAmount := extents.Length / 8;
    var smoothingJob := new SmoothJob(extents[extents.Length - (smoothingAmount + 1)], extents[0], extents,
                                      extents.Length - 1 - smoothingAmount, smoothingAmount, smoothingAmount);
    ScheduleSmoothing(smoothingJob);
    forall k | 0 <= k < extents.Length
      ensures extents[k] == SmoothedExtent(raw, k)
    {
      if extents.Length - 1 - smoothingAmount <= k < extents.Length - 1 {
        assert extents[k] == extents[(extents.Length - 1 - smoothingAmount) + (k - (extents.Length - 1 - smoothingAmount))];
      }
    }
  }

  /** Runs the vertex job for every rim vertex; entry 0 is untouched. */
  method ScheduleVertices(job: VertexJob, n: int)
    requires job.angles.Length == n && job.extents.Length == n && job.vertices.Length == n + 1
    requires job.extentsMinMax.Length >= 2 && job.extentsMinMax[0] != job.extentsMinMax[1]
    modifies job.vertices
    ensures forall k | 0 <= k < n ::
              job.vertices[k + 1] == RimVertex(job.cos, job.sin, job.angles[k],
                                               Normalise(job.extentsMinMax[0], job.extentsMinMax[1], job.extents[k]))
    ensures job.vertices[0] == old(job.vertices[0])
  {
    var index := 0;
    while index < n
      invariant 0 <= index <= n
      invariant forall k | 0 <= k < index ::
                  job.vertices[k + 1] == RimVertex(job.cos, job.sin, job.angles[k],
                                                   Normalise(job.extentsMinMax[0], job.extentsMinMax[1], job.extents[k]))
      invariant job.vertices[0] == old(job.vertices[0])
    {
      job.Execute(index);
      index := index + 1;
    }
  }

  /** Allocates the vertex buffer with the centre at entry 0 and, unless
      every extent is equal, runs the vertex job for the rim. */
  method PlaceVertices(angles: array<real>, extents: array<real>, extentsMinMax: array<real>, cos: real -> real,
                       sin: real -> real) returns (vertices: array<Float3>, degenerate: bool)
    requires angles.Length == extents.Length && extentsMinMax.Length >= 2
    ensures fresh(vertices) && vertices.Length == extents.Length + 1 && vertices[0] == (0.0, 0.0, 0.0)
    ensures degenerate <==> extentsMinMax[0] == extentsMinMax[1]
    ensures !degenerate ==>
              vertices[1..] == RimVertices(cos, sin, angles[..], extentsMinMax[0], extentsMinMax[1], extents[..])
  {
    var n := extents.Length;
    vertices := new Float3[n + 1];
    vertices[0] := (0.0, 0.0, 0.0);
    degenerate := extentsMinMax[0] == extentsMinMax[1];
    if !degenerate {
      var vertexJob := new VertexJob(angles, extents, extentsMinMax, vertices, cos, sin);
      ScheduleVertices(vertexJob, n);
      assert vertices[1..] == RimVertices(cos, sin, angles[..], extentsMinMax[0], extentsMinMax[1], extents[..]);
    }
  }

  class Mask {
    var complexity: int
    var scale: real
    var octaves: nat
    var gain: real
    var lacunarity: real
    var seaLevel: real
    var mainlandLevel: real
    /** Whether the rendered mask has been read back. */
    var generated: bool

    /** The asset's defaults. */
    constructor()
      ensures complexity == 256 && scale == 2.0 && octaves == 4 && gain == 0.5 && lacunarity == 2.0
      ensures seaLevel == 0.2 && mainlandLevel == 0.5 && !generated
    {
      complexity := 256;
      scale := 2.0;
      octaves := 4;
      gain := 0.5;
      lacunarity := 2.0;
      seaLevel := 0.2;
      mainlandLevel := 0.5;
      generated := false;
    }

    /** Builds the mask mesh. `draws` is the stream of the caller's random
        generator: the angles job runs on a copy of it, and the extents seed
        is the caller's next draw, so the seed equals the first angle
        jitter draw. The vertex buffer holds the centre and n rim vertices;
        the index buffer is the closed fan of 3(n - 1) slots. When every
        extent is equal the normalisation divides by zero: `degenerate` is
        then true and the rim vertices are left unwritten. */
    method Generate(cpu: MathsUtil.CpuFeatures, draws: seq<real>, sin: real -> real, cos: real -> real)
      returns (vertices: array<Float3>, indices: array<int>, degenerate: bool, rest: seq<real>)
      requires complexity >= BatchSize && VertexCount(complexity) <= |draws| && UnitDraws(draws)
      ensures rest == draws[1..]
      ensures var n := VertexCount(complexity);
              vertices.Length == n + 1 && indices.Length == 3 * (n - 1) &&
              vertices[0] == (0.0, 0.0, 0.0) && IsClosedFan(indices[..])
      ensures var n := VertexCount(complexity);
              var raw := RawExtents(sin, draws, n, scale, octaves, lacunarity, gain);
              (degenerate <==> Fold(Lower, raw) == Fold(Upper, raw)) &&
              (!degenerate ==> vertices[1..] == RimVertices(cos, sin, Angles(draws, n), Fold(Lower, raw), Fold(Upper, raw),
                                                            SmoothedExtents(raw)))
    {
      var verticesCount := complexity;
      verticesCount := verticesCount - CsRem(verticesCount, BatchSize);
      var n := verticesCount;

      var angles := PlaceAngles(draws, n);

      indices := new int[(n - 2) * 3 + 3];
      var indicesJob := new IndicesJob(indices);
      indicesJob.Execute();

      var extents := ComputeExtents(sin, draws, angles, n, scale, octaves, lacunarity, gain);
      var extentsMinMax := new real[2];
      var minMaxJob := new MathsUtil.MinMaxJob(extents, extentsMinMax);
      minMaxJob.Execute(cpu);
      SmoothSeam(extents);
      vertices, degenerate := PlaceVertices(angles, extents, extentsMinMax, cos, sin);
      // The angles job draws from its own copy of the generator; the caller's
      // generator advances only by the one extents seed draw.
      rest := draws[1..];
    }

    /** The readback callback: a successful readback marks the mask as
        generated (`completed`) and then invokes the optional completion
        callback, if the caller passed one (`invoked`); a failed readback
        changes nothing and invokes nothing. */
    method GetResult(hasError: bool, hasCallback: bool) returns (completed: bool, invoked: bool)
      modifies this
      ensures completed <==> !hasError
      ensures invoked <==> !hasError && hasCallback
      ensures generated == (old(generated) || !hasError)
      ensures complexity == old(complexity) && scale == old(scale) && octaves == old(octaves)
      ensures gain == old(gain) && lacunarity == old(lacunarity)
      ensures seaLevel == old(seaLevel) && mainlandLevel == old(mainlandLevel)
    {
      if hasError {
        return false, false;
      }
      generated := true;
      completed := true;
      invoked := hasCallback;
    }
  }
}
