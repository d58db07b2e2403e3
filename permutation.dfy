/** The permutation polynomial of the simplex noise family: reduction
    modulo 289 and the polynomial (34v + 10)v, on vectors of doubles. The
    two-, three- and four-lane overloads apply the same expression to each
    lane, so one lane-wise definition stands for all of them. */
module Permutation {
  import opened Numerics

  /** One lane of mod289: v - floor(v / 289) * 289. */
  function Mod289Lane(v: real): (r: real)
    ensures 0.0 <= r < 289.0
    ensures v - r == (Floor(v / 289.0) * 289) as real
  {
    v - Floor(v / 289.0) as real * 289.0
  }

  /** mod289 on a vector: each lane reduced into [0, 289), differing from
      the input lane by a whole multiple of 289. */
  function Mod289(vec: seq<real>): (r: seq<real>)
    ensures |r| == |vec|
    ensures forall i | 0 <= i < |vec| :: 0.0 <= r[i] < 289.0
    ensures forall i | 0 <= i < |vec| :: vec[i] - r[i] == (Floor(vec[i] / 289.0) * 289) as real
  {
    seq(|vec|, i requires 0 <= i < |vec| => Mod289Lane(vec[i]))
  }

  /** On an integer, mod289 is the Euclidean remainder. */
  lemma Mod289Integer(n: int)
    ensures Mod289Lane(n as real) == (n % 289) as real
  {
    var q := Floor(n as real / 289.0);
    var r := Mod289Lane(n as real);
    assert n - q * 289 == n % 289 by {
      assert 0 <= n - q * 289 < 289;
    }
  }

  /** Reducing twice is reducing once. */
  lemma Mod289Idempotent(v: real)
    ensures Mod289Lane(Mod289Lane(v)) == Mod289Lane(v)
  {
    var r := Mod289Lane(v);
    assert Floor(r / 289.0) == 0;
  }

  /** mod289 on a vector is idempotent. */
  lemma Mod289VectorIdempotent(vec: seq<real>)
    ensures Mod289(Mod289(vec)) == Mod289(vec)
  {
    forall i | 0 <= i < |vec|
      ensures Mod289(Mod289(vec))[i] == Mod289(vec)[i]
    {
      Mod289Idempotent(vec[i]);
    }
  }

  /** Every lane is a whole number. */
  predicate IntegerLanes(vec: seq<real>)
  {
    forall i | 0 <= i < |vec| :: vec[i] == Floor(vec[i]) as real
  }

  /** One lane of permute: mod289((34v + 10)v). */
  function PermuteLane(v: real): (r: real)
    ensures 0.0 <= r < 289.0
  {
    Mod289Lane(Mul(Mul(v, 34.0) + 10.0, v))
  }

  /** permute on a vector: lane-wise, each result in [0, 289). */
  function Permute(vec: seq<real>): (r: seq<real>)
    ensures |r| == |vec|
    ensures forall i | 0 <= i < |vec| :: 0.0 <= r[i] < 289.0
  {
    seq(|vec|, i requires 0 <= i < |vec| => PermuteLane(vec[i]))
  }

  /** On an integer lane, permute is the integer polynomial modulo 289. */
  lemma PermuteInteger(n: int)
    ensures PermuteLane(n as real) == (((34 * n + 10) * n) % 289) as real
  {
    assert Mul(Mul(n as real, 34.0) + 10.0, n as real) == ((34 * n + 10) * n) as real;
    Mod289Integer((34 * n + 10) * n);
  }

  /** Integer lanes stay integer lanes in [0, 289). */
  lemma PermuteKeepsIntegers(vec: seq<real>)
    requires IntegerLanes(vec)
    ensures IntegerLanes(Permute(vec))
  {
    forall i | 0 <= i < |vec|
      ensures Permute(vec)[i] == Floor(Permute(vec)[i]) as real
    {
      PermuteInteger(Floor(vec[i]));
    }
  }

  /** On integers, permute only depends on the residue modulo 289. */
  lemma PermutePeriodic(n: int)
    ensures PermuteLane(n as real) == PermuteLane((n % 289) as real)
  {
    var r := n % 289;
    var k := (n / 289) * (34 * (n + r) + 10);
    PermuteInteger(n);
    PermuteInteger(r);
    PolynomialShift(n, r, n / 289);
    ModMultiple((34 * r + 10) * r, k);
  }

  /** Shifting the argument by 289q shifts the polynomial by a multiple of 289. */
  lemma PolynomialShift(n: int, r: int, q: int)
    requires n == r + 289 * q
    ensures (34 * n + 10) * n == (34 * r + 10) * r + 289 * (q * (34 * (n + r) + 10))
  {}

  lemma ModMultiple(a: int, k: int)
    ensures (a + 289 * k) % 289 == a % 289
  {}
}
