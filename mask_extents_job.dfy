/** The job that gives each rim angle its extent: one-dimensional fractal
    noise sampled at the seed plus the scaled angle. */
module MaskExtentsJob {
  import opened Numerics
  import opened Octaves
  import Smooth1D

  /** The extent for an angle. */
  function ExtentOf(sin: real -> real, seed: real, scale: real, octaves: nat, lacunarity: real, gain: real,
                    angle: real): real
  {
    Smooth1D.FractalSum(sin, seed + Mul(angle, scale), octaves, lacunarity, gain)
  }

  /** With a non-negative gain an extent lies in [0, total amplitude), and
      with no octaves it is 0. */
  lemma ExtentBounds(sin: real -> real, seed: real, scale: real, octaves: nat, lacunarity: real, gain: real,
                     angle: real)
    requires gain >= 0.0
    ensures octaves == 0 ==> ExtentOf(sin, seed, scale, octaves, lacunarity, gain, angle) == 0.0
    ensures octaves >= 1 ==> 0.0 <= ExtentOf(sin, seed, scale, octaves, lacunarity, gain, angle) < Series(0.5, gain, octaves)
  {
    if octaves >= 1 {
      Smooth1D.FractalBounds(sin, seed + Mul(angle, scale), octaves, lacunarity, gain);
    }
  }

  class ExtentsJob {
    const seed: real
    const scale: real
    const octaves: nat
    const lacunarity: real
    const gain: real
    const angles: array<real>
    const extents: array<real>
    /** The sine the noise hash uses. */
    const sin: real -> real

    constructor(seed: real, scale: real, octaves: nat, lacunarity: real, gain: real,
                angles: array<real>, extents: array<real>, sin: real -> real)
      ensures this.seed == seed && this.scale == scale && this.octaves == octaves
      ensures this.lacunarity == lacunarity && this.gain == gain
      ensures this.angles == angles && this.extents == extents && this.sin == sin
    {
      this.seed := seed;
      this.scale := scale;
      this.octaves := octaves;
      this.lacunarity := lacunarity;
      this.gain := gain;
      this.angles := angles;
      this.extents := extents;
      this.sin := sin;
    }

    /** Writes the extent of angle `index` and nothing else; the angles are
        only read. */
    method Execute(index: int)
      requires 0 <= index < angles.Length && index < extents.Length && angles != extents
      modifies extents
      ensures extents[index] == ExtentOf(sin, seed, scale, octaves, lacunarity, gain, angles[index])
      ensures forall k | 0 <= k < extents.Length && k != index :: extents[k] == old(extents[k])
    {
      var samplePoint := seed;
      samplePoint := samplePoint + Mul(angles[index], scale);
      var extent := Smooth1D.Fractal(sin, samplePoint, octaves, lacunarity, gain);
      extents[index] := extent;
    }
  }
}
