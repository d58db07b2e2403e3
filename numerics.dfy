/** Scalar helpers shared by the noise, mask and curve models: the
    Unity.Mathematics functions the source calls (min, max, clamp, floor,
    frac, lerp, unlerp, smoothstep), stated over `real`. */
module Numerics {

  /** The largest finite single-precision float (C#'s float.MaxValue). */
  const FloatMax: real := 340282346638528859811704183484516925440.0

  /** C#'s float.MinValue, the most negative finite single-precision float. */
  const FloatMin: real := -FloatMax

  function Min(a: real, b: real): (r: real)
    ensures r <= a && r <= b
    ensures r == a || r == b
  {
    if a <= b then a else b
  }

  function Max(a: real, b: real): (r: real)
    ensures r >= a && r >= b
    ensures r == a || r == b
  {
    if a >= b then a else b
  }

  /** math.clamp(x, lo, hi) = max(lo, min(hi, x)). */
  function Clamp(x: real, lo: real, hi: real): (r: real)
    requires lo <= hi
    ensures lo <= r <= hi
    ensures lo <= x <= hi ==> r == x
    ensures x <= lo ==> r == lo
    ensures x >= hi ==> r == hi
  {
    Max(lo, Min(hi, x))
  }

  /** math.floor, as an integer. */
  function Floor(x: real): (r: int)
    ensures r as real <= x < r as real + 1.0
  {
    x.Floor
  }

  /** math.frac(x) = x - floor(x). */
  function Frac(x: real): (r: real)
    ensures 0.0 <= r < 1.0
    ensures x - r == Floor(x) as real
  {
    x - Floor(x) as real
  }

  /** A float-to-int cast in C#, which rounds toward zero. */
  function Trunc(x: real): (r: int)
    ensures x >= 0.0 ==> 0 <= r && r as real <= x < r as real + 1.0
    ensures x < 0.0 ==> r <= 0 && r as real - 1.0 < x <= r as real
  {
    if x >= 0.0 then x.Floor else -((-x).Floor)
  }

  /** C#'s integer `%`, whose result takes the sign of the dividend. */
  function CsRem(a: int, d: int): (r: int)
    requires d > 0
    ensures a >= 0 ==> r == a % d
    ensures a < 0 ==> -d < r <= 0 && a - r <= 0
  {
    if a >= 0 then a % d else -((-a) % d)
  }

  /** A product of two reals. Proofs about products state their facts
      over `Mul`, so that the solver matches them by the factors. */
  function Mul(a: real, b: real): real
  {
    a * b
  }

  lemma MulNonneg(a: real, b: real)
    requires a >= 0.0 && b >= 0.0
    ensures Mul(a, b) >= 0.0
  {}

  lemma MulPos(a: real, b: real)
    requires a > 0.0 && b > 0.0
    ensures Mul(a, b) > 0.0
  {}

  /** Multiplying by a non-negative factor keeps an inequality. */
  lemma MulLe(a: real, b: real, c: real)
    requires a >= 0.0 && b <= c
    ensures Mul(a, b) <= Mul(a, c)
  {
    MulNonneg(a, c - b);
  }

  /** Multiplying by a positive factor keeps a strict inequality. */
  lemma MulLt(a: real, b: real, c: real)
    requires a > 0.0 && b < c
    ensures Mul(a, b) < Mul(a, c)
  {
    MulPos(a, c - b);
  }

  /** math.lerp(a, b, w) = a + w * (b - a). */
  function Lerp(a: real, b: real, w: real): (r: real)
    ensures w == 0.0 ==> r == a
    ensures w == 1.0 ==> r == b
  {
    a + Mul(w, b - a)
  }

  /** A lerp with a weight in [0, 1] lies between its endpoints. */
  lemma LerpBetween(a: real, b: real, w: real)
    requires 0.0 <= w <= 1.0
    ensures Min(a, b) <= Lerp(a, b, w) <= Max(a, b)
  {
    if a <= b {
      MulLe(b - a, 0.0, w);
      MulLe(b - a, w, 1.0);
      assert Mul(b - a, w) == Mul(w, b - a);
    } else {
      MulLe(a - b, 0.0, w);
      MulLe(a - b, w, 1.0);
      assert Mul(a - b, w) == -Mul(w, b - a);
    }
  }

  /** math.unlerp(a, b, x) = (x - a) / (b - a); the source divides by zero
      when a == b, so the model asks for a != b. */
  function Unlerp(a: real, b: real, x: real): (r: real)
    requires a != b
    ensures x == a ==> r == 0.0
    ensures x == b ==> r == 1.0
  {
    DivSelf(b - a);
    (x - a) / (b - a)
  }

  lemma DivSelf(d: real)
    requires d != 0.0
    ensures d / d == 1.0
  {}

  /** Between its two ends, unlerp maps [a, b] onto [0, 1]. */
  lemma UnlerpBetween(a: real, b: real, x: real)
    requires a < b && a <= x <= b
    ensures 0.0 <= Unlerp(a, b, x) <= 1.0
  {
    var q := (x - a) / (b - a);
    assert q * (b - a) == x - a;
    if q < 0.0 {
      MulLt(b - a, q, 0.0);
      assert false;
    }
    if q > 1.0 {
      MulLt(b - a, 1.0, q);
      assert false;
    }
  }

  /** The cubic t * t * (3 - 2t) that smoothstep applies after clamping. */
  function SmoothCubic(t: real): (r: real)
    requires 0.0 <= t <= 1.0
    ensures 0.0 <= r <= 1.0
    ensures t < 1.0 ==> r < 1.0
    ensures t == 0.0 ==> r == 0.0
  {
    SmoothCubicBounds(t);
    Mul(Mul(t, t), 3.0 - 2.0 * t)
  }

  /** 1 - t^2 (3 - 2t) factors as (1 - t)^2 (1 + 2t). */
  lemma SmoothCubicGap(t: real)
    ensures 1.0 - Mul(Mul(t, t), 3.0 - 2.0 * t) == Mul(Mul(1.0 - t, 1.0 - t), 1.0 + 2.0 * t)
  {}

  lemma SmoothCubicBounds(t: real)
    requires 0.0 <= t <= 1.0
    ensures 0.0 <= Mul(Mul(t, t), 3.0 - 2.0 * t) <= 1.0
    ensures t < 1.0 ==> Mul(Mul(t, t), 3.0 - 2.0 * t) < 1.0
  {
    SmoothCubicGap(t);
    MulNonneg(t, t);
    MulNonneg(Mul(t, t), 3.0 - 2.0 * t);
    if t < 1.0 {
      MulPos(1.0 - t, 1.0 - t);
      MulPos(Mul(1.0 - t, 1.0 - t), 1.0 + 2.0 * t);
    } else {
      assert Mul(Mul(t, t), 3.0 - 2.0 * t) == 1.0;
    }
  }

  /** math.smoothstep(a, b, x): clamp (x - a) / (b - a) to [0, 1], then the cubic. */
  function Smoothstep(a: real, b: real, x: real): (r: real)
    requires a != b
    ensures 0.0 <= r <= 1.0
    ensures a < b && x <= a ==> r == 0.0
    ensures a < b && x >= b ==> r == 1.0
  {
    UnlerpOutside(a, b, x);
    SmoothCubic(Clamp((x - a) / (b - a), 0.0, 1.0))
  }

  /** Outside [a, b], unlerp leaves [0, 1] on the matching side. */
  lemma UnlerpOutside(a: real, b: real, x: real)
    requires a != b
    ensures a < b && x <= a ==> (x - a) / (b - a) <= 0.0
    ensures a < b && x >= b ==> (x - a) / (b - a) >= 1.0
  {
    var q := (x - a) / (b - a);
    assert q * (b - a) == x - a;
    if a < b && x <= a && q > 0.0 {
      MulPos(b - a, q);
      assert false;
    }
    if a < b && x >= b && q < 1.0 {
      MulLt(b - a, q, 1.0);
      assert false;
    }
  }

  /** A non-negative value below a positive total is a fraction of it in [0, 1). */
  lemma RatioBelowOne(v: real, total: real)
    requires 0.0 <= v < total
    ensures 0.0 <= v / total < 1.0
  {
    var q := v / total;
    assert q * total == v;
    if q < 0.0 {
      MulLt(total, q, 0.0);
      assert false;
    }
    if q >= 1.0 {
      MulLe(total, 1.0, q);
      assert false;
    }
  }

  /** Multiplying by a natural number keeps an inequality between integers. */
  lemma MulMonotone(w: nat, i: int, k: int)
    requires i <= k
    ensures w * i <= w * k
  {}

  /** A lerp moves monotonically from a toward b as the weight grows. */
  lemma LerpMonotone(a: real, b: real, w1: real, w2: real)
    requires w1 <= w2
    ensures a <= b ==> Lerp(a, b, w1) <= Lerp(a, b, w2)
    ensures a >= b ==> Lerp(a, b, w1) >= Lerp(a, b, w2)
  {
    if a <= b {
      MulLe(b - a, w1, w2);
      assert Mul(b - a, w1) == Mul(w1, b - a) && Mul(b - a, w2) == Mul(w2, b - a);
    }
    if a >= b {
      MulLe(a - b, w1, w2);
      assert Mul(a - b, w1) == -Mul(w1, b - a) && Mul(a - b, w2) == -Mul(w2, b - a);
    }
  }

  /** Between distinct ends, a lerp reaches b only with weight 1. */
  lemma LerpReachesEnd(a: real, b: real, w: real)
    requires a != b && w != 1.0
    ensures Lerp(a, b, w) != b
  {
    if Lerp(a, b, w) == b {
      assert Mul(w - 1.0, b - a) == 0.0;
      if w < 1.0 {
        MulLt(b - a, w, 1.0);
        MulLt(a - b, w, 1.0);
      } else {
        MulLt(b - a, 1.0, w);
        MulLt(a - b, 1.0, w);
      }
      assert false;
    }
  }

  /** The smoothing cubic is non-decreasing on [0, 1]. */
  lemma SmoothCubicMonotone(t1: real, t2: real)
    requires 0.0 <= t1 <= t2 <= 1.0
    ensures SmoothCubic(t1) <= SmoothCubic(t2)
  {
    var g := 3.0 * (t1 + t2) - 2.0 * (Mul(t1, t1) + Mul(t1, t2) + Mul(t2, t2));
    SmoothCubicDifference(t1, t2);
    MulLe(t1, t1, 1.0);
    MulLe(t2, t2, 1.0);
    MulLe(t1, t2, 1.0);
    MulLe(t2, t1, 1.0);
    assert Mul(t2, t1) == Mul(t1, t2);
    MulNonneg(t2 - t1, g);
  }

  lemma SmoothCubicDifference(t1: real, t2: real)
    ensures Mul(Mul(t2, t2), 3.0 - 2.0 * t2) - Mul(Mul(t1, t1), 3.0 - 2.0 * t1)
         == Mul(t2 - t1, 3.0 * (t1 + t2) - 2.0 * (Mul(t1, t1) + Mul(t1, t2) + Mul(t2, t2)))
  {}

  /** smoothstep(0, 1, x) is non-decreasing in x. */
  lemma SmoothstepMonotone(x: real, y: real)
    requires x <= y
    ensures Smoothstep(0.0, 1.0, x) <= Smoothstep(0.0, 1.0, y)
  {
    assert (x - 0.0) / (1.0 - 0.0) == x && (y - 0.0) / (1.0 - 0.0) == y;
    SmoothCubicMonotone(Clamp(x, 0.0, 1.0), Clamp(y, 0.0, 1.0));
  }
}
