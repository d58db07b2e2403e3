/** Two-dimensional fractal value noise computed by a parallel job: each
    cell of a chunk is mapped to a position, and the octaves rotate, scale
    and offset that position and add the amplitude-weighted noise there,
    normalised by the total amplitude. */
module SimplexFractal2D {
  import opened Numerics
  import opened Octaves

  type Double2 = (real, real)

  /** The job's settings. */
  datatype Settings = Settings(scale: real, octaves: int, gain: real, lacunarity: real)

  /** The default settings: scale 64, five octaves, gain 0.5, lacunarity 2. */
  function DefaultSettings(): (s: Settings)
    ensures s.scale == 64.0 && s.octaves == 5 && s.gain == 0.5 && s.lacunarity == 2.0
  {
    Settings(64.0, 5, 0.5, 2.0)
  }

  /** The number of octaves the loops run: none when the setting is negative. */
  function OctaveCount(settings: Settings): nat
  {
    if settings.octaves < 0 then 0 else settings.octaves
  }

  /** The two-dimensional hash of a lattice point, in [0, 1). */
  function Hash(val: Double2): (r: real)
    ensures 0.0 <= r < 1.0
  {
    var x := Frac(val.0 * 0.13);
    var y := Frac(val.1 * 0.13);
    var z := Frac(val.0 * 0.13);
    var d := Mul(x, y + 3.333) + Mul(y, z + 3.333) + Mul(z, x + 3.333);
    Frac(Mul((x + d) + (y + d), z + d))
  }

  /** The bilinear blend of the four corner values a (origin), b (+x),
      c (+y), d (+x+y) with weights p along x and q along y. For corner
      values in [0, 1) it lies in [0, 1); with zero weights it is a. */
  function Blend(a: real, b: real, c: real, d: real, p: real, q: real): (r: real)
    requires 0.0 <= a < 1.0 && 0.0 <= b < 1.0 && 0.0 <= c < 1.0 && 0.0 <= d < 1.0
    requires 0.0 <= p <= 1.0 && 0.0 <= q <= 1.0
    ensures 0.0 <= r < 1.0
    ensures p == 0.0 && q == 0.0 ==> r == a
  {
    BilinearBetween(a, b, c, d, p, q);
    Lerp(a, b, p) + Mul(Mul(c - a, q), 1.0 - p) + Mul(Mul(d - b, p), q)
  }

  /** The value noise at a position: the hashes of the four surrounding
      lattice points blended with smoothed weights, in [0, 1). */
  function Sample(position: Double2): (r: real)
    ensures 0.0 <= r < 1.0
  {
    var integer := (Floor(position.0) as real, Floor(position.1) as real);
    Blend(Hash(integer), Hash((integer.0 + 1.0, integer.1)), Hash((integer.0, integer.1 + 1.0)),
          Hash((integer.0 + 1.0, integer.1 + 1.0)), SmoothCubic(Frac(position.0)), SmoothCubic(Frac(position.1)))
  }

  /** At a lattice point the noise is the hash of that point. */
  lemma SampleAtLattice(position: Double2)
    requires position == (Floor(position.0) as real, Floor(position.1) as real)
    ensures Sample(position) == Hash(position)
  {
    assert Frac(position.0) == 0.0 && Frac(position.1) == 0.0;
  }

  /** The bilinear blend is a lerp of two lerps. */
  lemma BilinearIsNestedLerp(a: real, b: real, c: real, d: real, p: real, q: real)
    ensures Lerp(a, b, p) + Mul(Mul(c - a, q), 1.0 - p) + Mul(Mul(d - b, p), q)
         == Lerp(Lerp(a, b, p), Lerp(c, d, p), q)
  {}

  /** Blending four values in [0, 1) with weights in [0, 1] stays in [0, 1). */
  lemma BilinearBetween(a: real, b: real, c: real, d: real, p: real, q: real)
    requires 0.0 <= a < 1.0 && 0.0 <= b < 1.0 && 0.0 <= c < 1.0 && 0.0 <= d < 1.0
    requires 0.0 <= p <= 1.0 && 0.0 <= q <= 1.0
    ensures 0.0 <= Lerp(a, b, p) + Mul(Mul(c - a, q), 1.0 - p) + Mul(Mul(d - b, p), q) < 1.0
  {
    BilinearIsNestedLerp(a, b, c, d, p, q);
    LerpBetween(a, b, p);
    LerpBetween(c, d, p);
    LerpBetween(Lerp(a, b, p), Lerp(c, d, p), q);
  }

  /** The local coordinate of cell i of a size-by-size chunk: column i % size, row i / size. */
  function LocalCell(i: int, size: int): (cell: (int, int))
    requires 0 <= i && size > 0
    ensures 0 <= cell.0 < size && 0 <= cell.1
    ensures i < size * size ==> cell.1 < size
    ensures i == cell.1 * size + cell.0
  {
    if i >= size * size then (i % size, i / size)
    else
      RowBelowSize(i, size);
      (i % size, i / size)
  }

  lemma RowBelowSize(i: int, size: int)
    requires 0 <= i < size * size && size > 0
    ensures i / size < size
  {
    var row := i / size;
    assert i == size * row + i % size;
    if row >= size {
      MulMonotone(size, size, row);
      assert false;
    }
  }

  /** Distinct cells of a chunk get distinct local coordinates. */
  lemma LocalCellInjective(i: int, j: int, size: int)
    requires 0 <= i && 0 <= j && size > 0 && i != j
    ensures LocalCell(i, size) != LocalCell(j, size)
  {}

  /** Every coordinate in [0, size)^2 is the local coordinate of a cell of
      the chunk: together with injectivity, the mapping is a bijection. */
  lemma LocalCellOnto(col: int, row: int, size: int)
    requires 0 <= col < size && 0 <= row < size
    ensures 0 <= row * size + col < size * size
    ensures LocalCell(row * size + col, size) == (col, row)
  {
    var i := row * size + col;
    MulMonotone(size, row, size - 1);
    assert size * (size - 1) + size == size * size;
    var cell := LocalCell(i, size);
    CellUnique(i, size, cell.0, cell.1, col, row);
  }

  /** A quotient-remainder pair of i with remainder in [0, size) is unique. */
  lemma CellUnique(i: int, size: int, c0: int, r0: int, c1: int, r1: int)
    requires size > 0 && 0 <= c0 < size && 0 <= c1 < size
    requires i == r0 * size + c0 && i == r1 * size + c1
    ensures c0 == c1 && r0 == r1
  {
    if r0 < r1 {
      MulMonotone(size, r0 + 1, r1);
      assert false;
    }
    if r1 < r0 {
      MulMonotone(size, r1 + 1, r0);
      assert false;
    }
  }

  /** The cell's position: the chunk origin plus the chunk's index times its
      size plus the local coordinate, divided by the scale. */
  function CellPosition(origin: Double2, index: (int, int), size: int, i: int, scale: real): (p: Double2)
    requires 0 <= i && size > 0 && scale != 0.0
  {
    var cell := LocalCell(i, size);
    ((origin.0 + (index.0 * size) as real + cell.0 as real) / scale,
     (origin.1 + (index.1 * size) as real + cell.1 as real) / scale)
  }

  /** mul(rotation, p) with the rotation rows (c, s) and (-s, c). */
  function Rotate(c: real, s: real, p: Double2): Double2
  {
    (Mul(c, p.0) + Mul(s, p.1), Mul(-s, p.0) + Mul(c, p.1))
  }

  /** One octave's move: rotate, scale by the frequency, add the offset. */
  function Step(c: real, s: real, position: Double2, frequency: real, offset: Double2): Double2
  {
    var rotated := Rotate(c, s, position);
    (Mul(rotated.0, frequency) + offset.0, Mul(rotated.1, frequency) + offset.1)
  }

  /** The position after k octaves. */
  function PositionAt(c: real, s: real, start: Double2, lacunarity: real, offsets: seq<Double2>, k: nat): Double2
    requires k <= |offsets|
  {
    if k == 0 then start
    else Step(c, s, PositionAt(c, s, start, lacunarity, offsets, k - 1), Geometric(2.0, lacunarity, k - 1), offsets[k - 1])
  }

  /** The unnormalised sum of the first k octaves. */
  function ValueAt(c: real, s: real, start: Double2, settings: Settings, offsets: seq<Double2>, k: nat): real
    requires k <= |offsets|
  {
    if k == 0 then 0.0
    else
      ValueAt(c, s, start, settings, offsets, k - 1) +
        Mul(Geometric(0.5, settings.gain, k - 1), Sample(PositionAt(c, s, start, settings.lacunarity, offsets, k)))
  }

  /** With a non-negative gain, k >= 1 octaves sum to a value in
      [0, total amplitude of k octaves). */
  lemma {:induction false} ValueBounds(c: real, s: real, start: Double2, settings: Settings, offsets: seq<Double2>, k: nat)
    requires k <= |offsets| && settings.gain >= 0.0 && k >= 1
    ensures 0.0 <= ValueAt(c, s, start, settings, offsets, k) < Series(0.5, settings.gain, k)
  {
    var amplitude := Geometric(0.5, settings.gain, k - 1);
    var sample := Sample(PositionAt(c, s, start, settings.lacunarity, offsets, k));
    GeometricNonneg(0.5, settings.gain, k - 1);
    MulNonneg(amplitude, sample);
    MulLe(amplitude, sample, 1.0);
    if k == 1 {
      MulLt(amplitude, sample, 1.0);
    } else {
      ValueBounds(c, s, start, settings, offsets, k - 1);
    }
  }

  /** NextDouble2(min, max) of a unit draw pair: each component scaled into [min, max). */
  function NextDouble2(draw: Double2, min: real, max: real): (r: Double2)
    requires 0.0 <= draw.0 < 1.0 && 0.0 <= draw.1 < 1.0 && min < max
    ensures min <= r.0 < max && min <= r.1 < max
  {
    MulLt(max - min, draw.0, 1.0);
    MulLt(max - min, draw.1, 1.0);
    MulNonneg(max - min, draw.0);
    MulNonneg(max - min, draw.1);
    (Mul(max - min, draw.0) + min, Mul(max - min, draw.1) + min)
  }

  predicate UnitDraws(draws: seq<Double2>)
  {
    forall k | 0 <= k < |draws| :: 0.0 <= draws[k].0 < 1.0 && 0.0 <= draws[k].1 < 1.0
  }

  class Job {
    var result: array<real>
    var settings: Settings
    var origin: Double2
    var index: (int, int)
    var size: int
    var amplitudeTotal: real
    var octaveOffsets: seq<Double2>
    /** cos(0.5) and sin(0.5), the entries of the fixed rotation. */
    const rotationCos: real
    const rotationSin: real

    constructor(result: array<real>, settings: Settings, origin: Double2, index: (int, int), size: int,
                rotationCos: real, rotationSin: real)
      ensures this.result == result && this.settings == settings && this.origin == origin
      ensures this.index == index && this.size == size
      ensures this.rotationCos == rotationCos && this.rotationSin == rotationSin
      ensures amplitudeTotal == 0.0 && octaveOffsets == []
    {
      this.result := result;
      this.settings := settings;
      this.origin := origin;
      this.index := index;
      this.size := size;
      this.rotationCos := rotationCos;
      this.rotationSin := rotationSin;
      amplitudeTotal := 0.0;
      octaveOffsets := [];
    }

    /** Caches the total amplitude (0.5 + 0.5 gain + ... over the octaves,
        and 0.5 when there are none) and draws one offset pair in
        [-range, range) per octave. A negative octave count makes the
        offsets allocation fail after the total is set: `ok` is then false
        and the offsets are left as they were. `rest` is what the caller's
        generator has left: one draw fewer per offset. */
    method Initialise(draws: seq<Double2>, range: real) returns (ok: bool, rest: seq<Double2>)
      requires UnitDraws(draws) && range > 0.0
      requires |draws| >= OctaveCount(settings)
      modifies this
      ensures settings == old(settings) && result == old(result) && origin == old(origin)
      ensures index == old(index) && size == old(size)
      ensures amplitudeTotal == Series(0.5, settings.gain, if settings.octaves < 1 then 1 else settings.octaves)
      ensures ok <==> settings.octaves >= 0
      ensures !ok ==> octaveOffsets == old(octaveOffsets) && rest == draws
      ensures ok ==> rest == draws[settings.octaves..]
      ensures ok ==> |octaveOffsets| == settings.octaves &&
                     forall k | 0 <= k < settings.octaves :: octaveOffsets[k] == NextDouble2(draws[k], -range, range)
      ensures ok ==> forall k | 0 <= k < |octaveOffsets| ::
                       -range <= octaveOffsets[k].0 < range && -range <= octaveOffsets[k].1 < range
    {
      var amplitude := 0.5;
      var total := amplitude;
      var i := 0;
      while i < settings.octaves - 1
        invariant 0 <= i && (settings.octaves >= 1 ==> i <= settings.octaves - 1)
        invariant settings.octaves < 1 ==> i == 0
        invariant amplitude == Geometric(0.5, settings.gain, i)
        invariant total == Series(0.5, settings.gain, i + 1)
      {
        amplitude := Mul(amplitude, settings.gain);
        total := total + amplitude;
        i := i + 1;
      }
      amplitudeTotal := total;
      if settings.octaves < 0 {
        return false, draws;
      }
      var offsets: seq<Double2> := [];
      var octave := 0;
      rest := draws;
      while octave < settings.octaves
        invariant 0 <= octave <= settings.octaves
        invariant |offsets| == octave && rest == draws[octave..]
        invariant forall k | 0 <= k < octave :: offsets[k] == NextDouble2(draws[k], -range, range)
      {
        offsets := offsets + [NextDouble2(rest[0], -range, range)];
        rest := rest[1..];
        octave := octave + 1;
      }
      octaveOffsets := offsets;
      ok := true;
    }

    /** Fills cell i: the octave sum at the cell's position, divided by the
        total amplitude. Nothing but result[i] changes. With a non-negative
        gain, at least one octave and the total cached by Initialise, the
        value lies in [0, 1); with no octaves it is 0. */
    method Execute(i: int)
      requires 0 <= i < result.Length && size > 0 && settings.scale != 0.0
      requires OctaveCount(settings) <= |octaveOffsets| && amplitudeTotal != 0.0
      modifies result
      ensures result[i] == ValueAt(rotationCos, rotationSin, CellPosition(origin, index, size, i, settings.scale),
                                   settings, octaveOffsets, OctaveCount(settings)) / amplitudeTotal
      ensures forall j | 0 <= j < result.Length && j != i :: result[j] == old(result[j])
      ensures settings.octaves <= 0 ==> result[i] == 0.0
      ensures settings.gain >= 0.0 && settings.octaves >= 1 &&
                amplitudeTotal == Series(0.5, settings.gain, settings.octaves) ==>
                  0.0 <= result[i] < 1.0
    {
      var start := CellPosition(origin, index, size, i, settings.scale);
      var c, sn, offsets, octaves := rotationCos, rotationSin, octaveOffsets, settings.octaves;
      var position := start;
      var value := 0.0;
      var amplitude := 0.5;
      var frequency := 2.0;
      var octave := 0;
      while octave < octaves
        invariant 0 <= octave <= OctaveCount(settings)
        invariant position == PositionAt(c, sn, start, settings.lacunarity, offsets, octave)
        invariant value == ValueAt(c, sn, start, settings, offsets, octave)
        invariant amplitude == Geometric(0.5, settings.gain, octave)
        invariant frequency == Geometric(2.0, settings.lacunarity, octave)
      {
        position := Step(c, sn, position, frequency, offsets[octave]);
        value := value + Mul(amplitude, Sample(position));
        frequency := Mul(frequency, settings.lacunarity);
        amplitude := Mul(amplitude, settings.gain);
        octave := octave + 1;
      }
      if settings.gain >= 0.0 && octaves >= 1 && amplitudeTotal == Series(0.5, settings.gain, octaves) {
        ValueBounds(c, sn, start, settings, offsets, octave);
        RatioBelowOne(value, amplitudeTotal);
      }
      result[i] := value / amplitudeTotal;
    }
  }
}
