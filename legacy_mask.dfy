/** The earlier island mask generator: uniformly random rim angles, sorted,
    a triangle fan patched shut after the fact, and rim vertices on the
    unit circle. Its extents and min/max jobs are declared but never
    scheduled by `Generate`. Rendering is an engine call and not modelled. */
module LegacyMask {
  import opened Numerics
  import opened MinMaxSpec
  import opened MaskAnglesJob
  import opened MaskIndicesJob
  import opened MaskExtentsJob
  import opened MaskVertexJob
  import Smooth1D

  /** The generation settings. */
  datatype GenerationSettings = GenerationSettings(complexity: int, scale: real, octaves: nat, gain: real,
                                                   lacunarity: real)

  /** The vertex count: the complexity rounded down (toward zero) to a multiple of 4. */
  function VertexCount(complexity: int): (n: int)
    ensures n % 4 == 0
    ensures complexity >= 0 ==> 0 <= n <= complexity < n + 4
    ensures complexity < 0 ==> complexity <= n < 1 && n - 4 < complexity
  {
    complexity - CsRem(complexity, 4)
  }

  /** The highest angle drawn, exclusive. */
  const End: real := Pi

  /** NextFloat(-pi + epsilon, pi) for a unit draw u. */
  function AngleDraw(u: real): (a: real)
    requires 0.0 <= u < 1.0
    ensures Start <= a < End
  {
    MulNonneg(u, End - Start);
    MulLt(End - Start, u, 1.0);
    assert Mul(u, End - Start) == Mul(End - Start, u);
    Mul(u, End - Start) + Start
  }

  /** The angles in drawing order. */
  function DrawnAngles(draws: seq<real>, n: int): (a: seq<real>)
    requires 0 <= n <= |draws| && UnitDraws(draws)
    ensures |a| == n && forall k | 0 <= k < n :: Start <= a[k] < End
  {
    seq(n, k requires 0 <= k < n => AngleDraw(draws[k]))
  }

  predicate Sorted(s: seq<real>)
  {
    forall i, j | 0 <= i < j < |s| :: s[i] <= s[j]
  }

  /** Sorting keeps every angle in [-pi + epsilon, pi): the sorted angles
      are the drawn ones in another order. */
  lemma SortedAnglesInRange(drawn: seq<real>, sorted: seq<real>)
    requires multiset(sorted) == multiset(drawn)
    requires forall k | 0 <= k < |drawn| :: Start <= drawn[k] < End
    ensures forall k | 0 <= k < |sorted| :: Start <= sorted[k] < End
  {
    forall k | 0 <= k < |sorted|
      ensures Start <= sorted[k] < End
    {
      assert sorted[k] in multiset(drawn);
      var i :| 0 <= i < |drawn| && drawn[i] == sorted[k];
    }
  }

  /** The rim vertex for an angle: the unit direction, whatever the extent. */
  function UnitRimVertex(cos: real -> real, sin: real -> real, angle: real): (v: Float3)
    ensures v.2 == 0.0
  {
    (cos(angle), sin(angle), 0.0)
  }

  /** The legacy rim vertex is the current one at full extent. */
  lemma UnitRimIsFullExtent(cos: real -> real, sin: real -> real, angle: real)
    ensures UnitRimVertex(cos, sin, angle) == RimVertex(cos, sin, angle, 1.0)
  {
  }

  /** The min/max fold from a given starting value. */
  function FoldFrom(b: Bound, start: real, s: seq<real>): (r: real)
    ensures Beyond(b, r, start) && Bounds(b, r, s) && (r == start || r in s)
  {
    if s == [] then start
    else
      var init := s[..|s| - 1];
      var prev := FoldFrom(b, start, init);
      assert prev in init ==> prev in s;
      Pick(b, prev, s[|s| - 1])
  }

  /** Starting from a finite value instead of the float seed is the same as
      combining that value with the seeded fold. */
  lemma {:induction false} FoldFromSeeded(b: Bound, start: real, s: seq<real>)
    requires FloatMin <= start <= FloatMax
    ensures FoldFrom(b, start, s) == Pick(b, start, Fold(b, s))
  {
    if s != [] {
      FoldFromSeeded(b, start, s[..|s| - 1]);
    }
  }

  /** The job's fields are never set, so they start at 0: on finite values
      the job reports min(0, minimum) and max(0, maximum). */
  lemma ZeroStartClamps(s: seq<real>)
    requires |s| > 0 && InFloatRange(s)
    ensures FoldFrom(Lower, 0.0, s) == Min(0.0, Fold(Lower, s)) && IsExtreme(Lower, Fold(Lower, s), s)
    ensures FoldFrom(Upper, 0.0, s) == Max(0.0, Fold(Upper, s)) && IsExtreme(Upper, Fold(Upper, s), s)
  {
    FoldFromSeeded(Lower, 0.0, s);
    FoldFromSeeded(Upper, 0.0, s);
    FoldAttained(Lower, s);
    FoldAttained(Upper, s);
  }

  class AnglesJob {
    const angleCount: int
    const angles: array<real>

    constructor(angleCount: int, angles: array<real>)
      ensures this.angleCount == angleCount && this.angles == angles
    {
      this.angleCount := angleCount;
      this.angles := angles;
    }

    /** Draws angleCount angles in [-pi + epsilon, pi) from the job's
        copy of the random stream. */
    method Execute(draws: seq<real>)
      requires angleCount <= angles.Length && angleCount <= |draws| && UnitDraws(draws)
      modifies angles
      ensures angleCount >= 0 ==> angles[..angleCount] == DrawnAngles(draws, angleCount)
      ensures forall i | 0 <= i < angles.Length && (i < 0 || angleCount <= i) :: angles[i] == old(angles[i])
    {
      var i := 0;
      while i < angleCount
        invariant 0 <= i <= (if angleCount < 0 then 0 else angleCount)
        invariant forall k | 0 <= k < i :: angles[k] == AngleDraw(draws[k])
        invariant forall k | 0 <= k < angles.Length && (k < 0 || angleCount <= k) :: angles[k] == old(angles[k])
      {
        angles[i] := AngleDraw(draws[i]);
        i := i + 1;
      }
    }
  }

  class ExtentsJob {
    const seed: real
    const settings: GenerationSettings
    const angles: array<real>
    const extents: array<real>
    /** The sine the noise hash uses. */
    const sin: real -> real

    constructor(seed: real, settings: GenerationSettings, angles: array<real>, extents: array<real>,
                sin: real -> real)
      ensures this.seed == seed && this.settings == settings
      ensures this.angles == angles && this.extents == extents && this.sin == sin
    {
      this.seed := seed;
      this.settings := settings;
      this.angles := angles;
      this.extents := extents;
      this.sin := sin;
    }

    /** Writes the extent of angle `index` and nothing else; with a
        non-negative gain it lies in [0, total amplitude), as
        `MaskExtentsJob.ExtentBounds` shows. */
    method Execute(index: int)
      requires 0 <= index < angles.Length && index < extents.Length && angles != extents
      modifies extents
      ensures extents[index] ==
                ExtentOf(sin, seed, settings.scale, settings.octaves, settings.lacunarity, settings.gain, angles[index])
      ensures forall k | 0 <= k < extents.Length && k != index :: extents[k] == old(extents[k])
    {
      var samplePoint := seed;
      samplePoint := samplePoint + Mul(angles[index], settings.scale);
      var extent := Smooth1D.Fractal(sin, samplePoint, settings.octaves, settings.lacunarity, settings.gain);
      extents[index] := extent;
    }
  }

  class MinMaxJob {
    var minimum: real
    var maximum: real
    const values: array<real>

    /** The fields are not initialised, so they hold the default 0. */
    constructor(values: array<real>)
      ensures minimum == 0.0 && maximum == 0.0 && this.values == values
    {
      minimum := 0.0;
      maximum := 0.0;
      this.values := values;
    }

    /** Folds every element into the fields, starting from their current values. */
    method Execute()
      modifies this
      ensures minimum == FoldFrom(Lower, old(minimum), values[..])
      ensures maximum == FoldFrom(Upper, old(maximum), values[..])
    {
      var length := values.Length;
      var lo, hi := minimum, maximum;
      var i := 0;
      while i < length
        invariant 0 <= i <= length
        invariant lo == FoldFrom(Lower, old(minimum), values[..i])
        invariant hi == FoldFrom(Upper, old(maximum), values[..i])
      {
        var val := values[i];
        assert values[..i + 1][..i] == values[..i];
        lo := Min(lo, val);
        hi := Max(hi, val);
        i := i + 1;
      }
      assert values[..length] == values[..];
      minimum, maximum := lo, hi;
    }
  }

  class IndicesJob {
    const indices: array<int>

    constructor(indices: array<int>)
      ensures this.indices == indices
    {
      this.indices := indices;
    }

    /** Fills the fan slot by slot: every slot at a multiple of 3 is the
        centre, and triangle k is (0, k + 1, k + 2). */
    method Execute()
      modifies indices
      ensures forall k | 0 <= k < indices.Length :: indices[k] == FanIndex(k)
    {
      var currentIndex := 1;
      var indicesCount := indices.Length;
      var i := 0;
      while i < indicesCount
        invariant 0 <= i <= indicesCount
        invariant currentIndex == 1 + (i + 1) / 3
        invariant forall k | 0 <= k < i :: indices[k] == FanIndex(k)
      {
        var multiplier := if i % 3 != 0 then 1 else 0;
        indices[i] := currentIndex * multiplier;
        currentIndex := currentIndex + (if i % 3 == 1 then 1 else 0);
        i := i + 1;
      }
    }
  }

  class VertexJob {
    const angles: array<real>
    const vertices: array<Float3>
    const cos: real -> real
    const sin: real -> real

    constructor(angles: array<real>, vertices: array<Float3>, cos: real -> real, sin: real -> real)
      ensures this.angles == angles && this.vertices == vertices && this.cos == cos && this.sin == sin
    {
      this.angles := angles;
      this.vertices := vertices;
      this.cos := cos;
      this.sin := sin;
    }

    /** Writes rim vertex `index` (slot index + 1, after the centre) on the
        unit circle and nothing else. */
    method Execute(index: int)
      requires 0 <= index < angles.Length && index + 1 < vertices.Length
      modifies vertices
      ensures vertices[index + 1] == UnitRimVertex(cos, sin, angles[index])
      ensures forall k | 0 <= k < vertices.Length && k != index + 1 :: vertices[k] == old(vertices[k])
    {
      var angle := angles[index];
      vertices[index + 1] := (cos(angle), sin(angle), 0.0);
    }
  }

  /** The position of a smallest element of a[from..]. */
  method MinIndex(a: array<real>, from: int) returns (m: int)
    requires 0 <= from < a.Length
    ensures from <= m < a.Length && forall q | from <= q < a.Length :: a[m] <= a[q]
  {
    m := from;
    var j := from + 1;
    while j < a.Length
      invariant from <= m < a.Length && from + 1 <= j <= a.Length
      invariant forall q | from <= q < j :: a[m] <= a[q]
    {
      if a[j] < a[m] {
        m := j;
      }
      j := j + 1;
    }
  }

  /** Sorts the angles ascending in place. */
  method SortAngles(a: array<real>)
    modifies a
    ensures Sorted(a[..]) && multiset(a[..]) == multiset(old(a[..]))
  {
    var i := 0;
    while i < a.Length
      invariant 0 <= i <= a.Length
      invariant forall p, q | 0 <= p < q < i :: a[p] <= a[q]
      invariant forall p, q | 0 <= p < i <= q < a.Length :: a[p] <= a[q]
      invariant multiset(a[..]) == multiset(old(a[..]))
    {
      var m := MinIndex(a, i);
      a[i], a[m] := a[m], a[i];
      i := i + 1;
    }
  }

  /** Runs the vertex job for every rim vertex. */
  method ScheduleVertices(job: VertexJob, n: int)
    requires job.angles.Length == n && job.vertices.Length == n + 1
    modifies job.vertices
    ensures forall k | 0 <= k < n :: job.vertices[k + 1] == UnitRimVertex(job.cos, job.sin, job.angles[k])
    ensures job.vertices[0] == old(job.vertices[0])
  {
    var index := 0;
    while index < n
      invariant 0 <= index <= n
      invariant forall k | 0 <= k < index :: job.vertices[k + 1] == UnitRimVertex(job.cos, job.sin, job.angles[k])
      invariant job.vertices[0] == old(job.vertices[0])
    {
      job.Execute(index);
      index := index + 1;
    }
  }

  /** Draws the angles and sorts them. */
  method SortedAngles(draws: seq<real>, n: int) returns (angles: array<real>)
    requires 0 <= n <= |draws| && UnitDraws(draws)
    ensures fresh(angles) && angles.Length == n
    ensures Sorted(angles[..]) && multiset(angles[..]) == multiset(DrawnAngles(draws, n))
  {
    angles := new real[n];
    var anglesJob := new AnglesJob(n, angles);
    anglesJob.Execute(draws);
    assert angles[..] == angles[..n];
    SortAngles(angles);
  }

  /** Fills the fan and patches the last triangle to (0, the second rim
      vertex of the triangle before it, indices[1]). */
  method ClosedFan(length: int) returns (indices: array<int>)
    requires length >= 4
    ensures fresh(indices) && indices.Length == length && IsClosedFan(indices[..])
  {
    indices := new int[length];
    var indicesJob := new IndicesJob(indices);
    indicesJob.Execute();
    var indicesLength := indices.Length;
    indices[indicesLength - 3] := 0;
    indices[indicesLength - 2] := indices[indicesLength - 4];
    indices[indicesLength - 1] := indices[1];
    assert forall k | 0 <= k < indicesLength - 3 :: indices[..][k] == FanIndex(k);
  }

  /** The head of an ascending sequence is at most any of its elements. */
  lemma SortedHeadIsLeast(a: seq<real>, v: real)
    requires Sorted(a) && v in multiset(a)
    ensures |a| > 0 && a[0] <= v
  {
    assert v in a;
    var j :| 0 <= j < |a| && a[j] == v;
    if j > 0 {
      assert a[0] <= a[j];
    }
  }

  lemma SortedTail(a: seq<real>)
    requires Sorted(a) && |a| > 0
    ensures Sorted(a[1..])
  {
    forall i, j | 0 <= i < j < |a[1..]|
      ensures a[1..][i] <= a[1..][j]
    {
      assert a[1..][i] == a[i + 1] && a[1..][j] == a[j + 1];
    }
  }

  lemma TailMultiset(a: seq<real>)
    requires |a| > 0
    ensures multiset(a[1..]) == multiset(a) - multiset{a[0]}
  {
    assert a == [a[0]] + a[1..];
  }

  /** Two ascending sequences with the same elements are the same sequence:
      the sorted angles are determined by the multiset of draws. */
  lemma {:induction false} SortedUnique(a: seq<real>, b: seq<real>)
    requires Sorted(a) && Sorted(b) && multiset(a) == multiset(b)
    ensures a == b
    decreases |a|
  {
    SameLength(a, b);
    if |a| > 0 {
      SortedHeadIsLeast(a, b[0]);
      SortedHeadIsLeast(b, a[0]);
      TailMultiset(a);
      TailMultiset(b);
      SortedTail(a);
      SortedTail(b);
      SortedUnique(a[1..], b[1..]);
      SameHeadSameTail(a, b);
    }
  }

  lemma SameLength(a: seq<real>, b: seq<real>)
    requires multiset(a) == multiset(b)
    ensures |a| == |b|
  {
    assert |a| == |multiset(a)| && |b| == |multiset(b)|;
  }

  lemma SameHeadSameTail(a: seq<real>, b: seq<real>)
    requires |a| == |b| > 0 && a[0] == b[0] && a[1..] == b[1..]
    ensures a == b
  {
    assert a == [a[0]] + a[1..] && b == [b[0]] + b[1..];
  }

  /** Two different sets of unit draws give different angle multisets: four
      draws of 0 and four draws of 0.5. */
  lemma DifferentDrawsDifferentAngles()
    ensures var d := [0.0, 0.0, 0.0, 0.0, 0.5, 0.5, 0.5, 0.5];
            UnitDraws(d) && multiset(DrawnAngles(d[4..], 4)) != multiset(DrawnAngles(d, 4))
  {
    var d := [0.0, 0.0, 0.0, 0.0, 0.5, 0.5, 0.5, 0.5];
    assert DrawnAngles(d, 4)[0] == AngleDraw(0.0) == Start;
    assert Start in multiset(DrawnAngles(d, 4));
    forall k | 0 <= k < 4
      ensures DrawnAngles(d[4..], 4)[k] != Start
    {
      assert DrawnAngles(d[4..], 4)[k] == AngleDraw(0.5);
      assert Mul(0.5, End - Start) > 0.0;
    }
    assert Start !in multiset(DrawnAngles(d[4..], 4));
  }

  /** The mask mesh from the first n unit draws: the rim angles are the
      drawn angles in ascending order, the vertices lie on the unit circle
      after the centre, and the index buffer is the closed fan of 3(n - 1)
      slots. */
  method BuildMesh(n: int, draws: seq<real>, cos: real -> real, sin: real -> real)
    returns (vertices: array<Float3>, indices: array<int>, angles: seq<real>)
    requires 4 <= n <= |draws| && UnitDraws(draws)
    ensures |angles| == n && Sorted(angles) && multiset(angles) == multiset(DrawnAngles(draws, n))
    ensures vertices.Length == n + 1 && vertices[0] == (0.0, 0.0, 0.0)
    ensures forall k | 0 <= k < n :: vertices[k + 1] == UnitRimVertex(cos, sin, angles[k])
    ensures indices.Length == 3 * (n - 1) && IsClosedFan(indices[..])
  {
    var sortedAngles := SortedAngles(draws, n);
    indices := ClosedFan((n - 2) * 3 + 3);
    vertices := new Float3[n + 1];
    vertices[0] := (0.0, 0.0, 0.0);
    var vertexJob := new VertexJob(sortedAngles, vertices, cos, sin);
    ScheduleVertices(vertexJob, n);
    angles := sortedAngles[..];
  }

  class Mask {
    var settings: GenerationSettings

    /** Keeps the settings; the render target is not modelled. */
    constructor(size: int, settings: GenerationSettings)
      ensures this.settings == settings
    {
      this.settings := settings;
    }

    /** Builds the mask mesh from the caller's random stream `draws` and
        returns the caller's generator afterwards, `rest`. The angles job
        draws on its own copy of the generator, and the copy the caller gets
        back is the one it passed in: `rest` is `draws`, unchanged. */
    method Generate(draws: seq<real>, cos: real -> real, sin: real -> real)
      returns (vertices: array<Float3>, indices: array<int>, angles: seq<real>, rest: seq<real>)
      requires settings.complexity >= 4 && VertexCount(settings.complexity) <= |draws| && UnitDraws(draws)
      ensures var n := VertexCount(settings.complexity);
              |angles| == n && Sorted(angles) && multiset(angles) == multiset(DrawnAngles(draws, n))
      ensures rest == draws
      ensures vertices.Length == |angles| + 1 && vertices[0] == (0.0, 0.0, 0.0)
      ensures forall k | 0 <= k < |angles| :: vertices[k + 1] == UnitRimVertex(cos, sin, angles[k])
      ensures indices.Length == 3 * (|angles| - 1) && IsClosedFan(indices[..])
    {
      var verticesCount := settings.complexity;
      verticesCount := verticesCount - CsRem(verticesCount, 4);
      vertices, indices, angles := BuildMesh(verticesCount, draws, cos, sin);
      rest := draws;
    }

    /** Generate with the caller's generator advanced past the n angle
        draws, so that the next mask draws fresh angles. */
    method GenerateCorrected(draws: seq<real>, cos: real -> real, sin: real -> real)
      returns (vertices: array<Float3>, indices: array<int>, angles: seq<real>, rest: seq<real>)
      requires settings.complexity >= 4 && VertexCount(settings.complexity) <= |draws| && UnitDraws(draws)
      ensures var n := VertexCount(settings.complexity);
              |angles| == n && Sorted(angles) && multiset(angles) == multiset(DrawnAngles(draws, n)) &&
              rest == draws[n..]
      ensures vertices.Length == |angles| + 1 && vertices[0] == (0.0, 0.0, 0.0)
      ensures forall k | 0 <= k < |angles| :: vertices[k + 1] == UnitRimVertex(cos, sin, angles[k])
      ensures indices.Length == 3 * (|angles| - 1) && IsClosedFan(indices[..])
    {
      var verticesCount := settings.complexity;
      verticesCount := verticesCount - CsRem(verticesCount, 4);
      vertices, indices, angles := BuildMesh(verticesCount, draws, cos, sin);
      rest := draws[verticesCount..];
    }

    /** Two masks generated one after the other from the same generator, as
        written: the second has exactly the angles of the first. */
    method GenerateTwice(draws: seq<real>, cos: real -> real, sin: real -> real)
      returns (first: seq<real>, second: seq<real>)
      requires settings.complexity >= 4 && VertexCount(settings.complexity) <= |draws| && UnitDraws(draws)
      ensures first == second
    {
      var v1, i1, rest1;
      v1, i1, first, rest1 := Generate(draws, cos, sin);
      var v2, i2, rest2;
      v2, i2, second, rest2 := Generate(rest1, cos, sin);
      SortedUnique(first, second);
    }

    /** Two masks generated one after the other with the corrected
        generator hand-back: the second draws the next n values. */
    method GenerateTwiceCorrected(draws: seq<real>, cos: real -> real, sin: real -> real)
      returns (first: seq<real>, second: seq<real>)
      requires settings.complexity >= 4 && 2 * VertexCount(settings.complexity) <= |draws| && UnitDraws(draws)
      ensures var n := VertexCount(settings.complexity);
              multiset(first) == multiset(DrawnAngles(draws, n)) &&
              multiset(second) == multiset(DrawnAngles(draws[n..], n))
    {
      var v1, i1, rest1;
      v1, i1, first, rest1 := GenerateCorrected(draws, cos, sin);
      var v2, i2, rest2;
      v2, i2, second, rest2 := GenerateCorrected(rest1, cos, sin);
    }
  }
}
