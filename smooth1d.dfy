/** One-dimensional value noise: a hash of the integer lattice points,
    blended with a smoothstep weight, summed over octaves. The sine that the
    hash uses is a parameter, since the model has no transcendental
    functions; the properties below hold for any sine. */
module Smooth1D {
  import opened Numerics
  import opened Octaves

  /** The hash of a position: the fractional part of sin(x) * 100000. */
  function Random(sin: real -> real, x: real): (r: real)
    ensures 0.0 <= r < 1.0
  {
    Frac(Mul(sin(x), 100000.0))
  }

  /** The noise at x: the lattice hashes either side of x, blended by the
      smoothstep of the fractional part. It lies in [0, 1) and agrees with
      the hash at lattice points. */
  function Sample(sin: real -> real, x: real): (r: real)
    ensures 0.0 <= r < 1.0
    ensures x == Floor(x) as real ==> r == Random(sin, x)
  {
    var integer := Floor(x) as real;
    var fraction := Frac(x);
    var left := Random(sin, integer);
    var right := Random(sin, integer + 1.0);
    var weight := Smoothstep(0.0, 1.0, fraction);
    LerpBetween(left, right, weight);
    Lerp(left, right, weight)
  }

  /** The octave sum: octave i adds 0.5 * gain^i times the noise at
      lacunarity^i * x. */
  function FractalSum(sin: real -> real, x: real, octaves: nat, lacunarity: real, gain: real): real
  {
    if octaves == 0 then 0.0
    else
      var i := octaves - 1;
      FractalSum(sin, x, i, lacunarity, gain) +
        Mul(Geometric(0.5, gain, i), Sample(sin, Mul(Geometric(1.0, lacunarity, i), x)))
  }

  /** Fractal noise: the octave loop, which computes the octave sum. */
  method Fractal(sin: real -> real, x: real, octaves: nat, lacunarity: real, gain: real) returns (value: real)
    ensures value == FractalSum(sin, x, octaves, lacunarity, gain)
  {
    value := 0.0;
    var amplitude := 0.5;
    var frequency := 1.0;
    var i := 0;
    while i < octaves
      invariant 0 <= i <= octaves
      invariant value == FractalSum(sin, x, i, lacunarity, gain)
      invariant amplitude == Geometric(0.5, gain, i)
      invariant frequency == Geometric(1.0, lacunarity, i)
    {
      value := value + Mul(amplitude, Sample(sin, Mul(frequency, x)));
      frequency := Mul(frequency, lacunarity);
      amplitude := Mul(amplitude, gain);
      i := i + 1;
    }
  }

  /** With a non-negative gain, the octave sum of n >= 1 octaves lies in
      [0, total amplitude): every octave contributes at most its amplitude,
      and the first strictly less. */
  lemma {:induction false} FractalBounds(sin: real -> real, x: real, octaves: nat, lacunarity: real, gain: real)
    requires gain >= 0.0 && octaves >= 1
    ensures 0.0 <= FractalSum(sin, x, octaves, lacunarity, gain) < Series(0.5, gain, octaves)
  {
    var i := octaves - 1;
    var amplitude := Geometric(0.5, gain, i);
    var s := Sample(sin, Mul(Geometric(1.0, lacunarity, i), x));
    GeometricNonneg(0.5, gain, i);
    MulNonneg(amplitude, s);
    MulLe(amplitude, s, 1.0);
    if octaves == 1 {
      MulLt(amplitude, s, 1.0);
    } else {
      FractalBounds(sin, x, i, lacunarity, gain);
    }
  }
}
