/** The geometric sequences that fractal noise steps through: each octave
    multiplies the amplitude by the gain and the frequency by the
    lacunarity. */
module Octaves {
  import opened Numerics

  /** start * ratio^k, built by repeated multiplication as the octave loops do. */
  function Geometric(start: real, ratio: real, k: nat): real
  {
    if k == 0 then start else Mul(Geometric(start, ratio, k - 1), ratio)
  }

  /** The sum of the first n terms of the geometric sequence. */
  function Series(start: real, ratio: real, n: nat): real
  {
    if n == 0 then 0.0 else Series(start, ratio, n - 1) + Geometric(start, ratio, n - 1)
  }

  /** With a non-negative start and ratio every term is non-negative. */
  lemma {:induction false} GeometricNonneg(start: real, ratio: real, k: nat)
    requires start >= 0.0 && ratio >= 0.0
    ensures Geometric(start, ratio, k) >= 0.0
  {
    if k > 0 {
      GeometricNonneg(start, ratio, k - 1);
      MulNonneg(Geometric(start, ratio, k - 1), ratio);
    }
  }

  /** With a positive start and non-negative ratio, n >= 1 terms sum to at
      least the first one. */
  lemma {:induction false} SeriesAtLeastStart(start: real, ratio: real, n: nat)
    requires start >= 0.0 && ratio >= 0.0 && n >= 1
    ensures Series(start, ratio, n) >= start
  {
    if n > 1 {
      SeriesAtLeastStart(start, ratio, n - 1);
      GeometricNonneg(start, ratio, n - 1);
    }
  }
}
