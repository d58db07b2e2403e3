/** What the min/max reductions compute, independent of register width:
    the scalar fold that `MathsUtil.MinMax_Default` performs, the lane-wise
    accumulation that the SSE2 and AVX loops perform, and the facts that
    tie the two together. `Lower` stands for the minimum, `Upper` for the
    maximum, so each fact is stated once for both. */
module MinMaxSpec {
  import opened Numerics

  datatype Bound = Lower | Upper

  /** min(x, y) for the lower bound, max(x, y) for the upper one. */
  function Pick(b: Bound, x: real, y: real): real
  {
    if b == Lower then Min(x, y) else Max(x, y)
  }

  /** x is at least as extreme as y on side b (x <= y for the minimum). */
  predicate Beyond(b: Bound, x: real, y: real)
  {
    if b == Lower then x <= y else x >= y
  }

  /** The register seed: float.MaxValue for the minimum, float.MinValue for the maximum. */
  function Seed(b: Bound): real
  {
    if b == Lower then FloatMax else FloatMin
  }

  /** No element of s is more extreme than x. */
  predicate Bounds(b: Bound, x: real, s: seq<real>)
  {
    forall i | 0 <= i < |s| :: Beyond(b, x, s[i])
  }

  /** x is the minimum (maximum) of s: an element that bounds all of them. */
  predicate IsExtreme(b: Bound, x: real, s: seq<real>)
  {
    x in s && Bounds(b, x, s)
  }

  /** x is the minimum (maximum) of the seed together with s. */
  predicate IsSeededExtreme(b: Bound, x: real, s: seq<real>)
  {
    Beyond(b, x, Seed(b)) && Bounds(b, x, s) && (x == Seed(b) || x in s)
  }

  /** Two extremes of the same values are equal. */
  lemma ExtremeUnique(b: Bound, x: real, y: real, s: seq<real>)
    requires IsExtreme(b, x, s) && IsExtreme(b, y, s)
    ensures x == y
  {
    var i :| 0 <= i < |s| && s[i] == x;
    var k :| 0 <= k < |s| && s[k] == y;
    assert Beyond(b, x, s[k]) && Beyond(b, y, s[i]);
  }

  /** Two seeded extremes of the same values are equal. */
  lemma SeededUnique(b: Bound, x: real, y: real, s: seq<real>)
    requires IsSeededExtreme(b, x, s) && IsSeededExtreme(b, y, s)
    ensures x == y
  {
    if x != Seed(b) {
      var i :| 0 <= i < |s| && s[i] == x;
      assert Beyond(b, y, s[i]);
    }
    if y != Seed(b) {
      var k :| 0 <= k < |s| && s[k] == y;
      assert Beyond(b, x, s[k]);
    }
  }

  /** Reordering the values does not change their extreme. */
  lemma ExtremePermutation(b: Bound, x: real, v: seq<real>, u: seq<real>)
    requires multiset(v) == multiset(u) && IsExtreme(b, x, v)
    ensures IsExtreme(b, x, u)
  {
    assert x in multiset(v);
    forall k | 0 <= k < |u|
      ensures Beyond(b, x, u[k])
    {
      assert u[k] in multiset(v);
      var i :| 0 <= i < |v| && v[i] == u[k];
    }
  }

  /** The scalar loop: start from the seed and combine the elements left to right. */
  function Fold(b: Bound, s: seq<real>): (r: real)
    ensures IsSeededExtreme(b, r, s)
  {
    if s == [] then Seed(b)
    else
      var init := s[..|s| - 1];
      var prev := Fold(b, init);
      assert prev in init ==> prev in s;
      Pick(b, prev, s[|s| - 1])
  }

  /** The elements all lie within the finite float range. */
  predicate InFloatRange(s: seq<real>)
  {
    forall i | 0 <= i < |s| :: FloatMin <= s[i] <= FloatMax
  }

  /** On a non-empty array of finite floats the seed never survives:
      the fold is the true minimum (maximum) of the elements. */
  lemma FoldAttained(b: Bound, s: seq<real>)
    requires |s| > 0 && InFloatRange(s)
    ensures IsExtreme(b, Fold(b, s), s)
  {
    var r := Fold(b, s);
    assert Beyond(b, r, s[0]);
    if r == Seed(b) {
      assert r == s[0];
    }
  }

  /** The reduction of a register: combine its lanes, with no seed. */
  function Reduce(b: Bound, v: seq<real>): (r: real)
    requires |v| > 0
    ensures IsExtreme(b, r, v)
  {
    if |v| == 1 then v[0]
    else
      var init := v[..|v| - 1];
      var prev := Reduce(b, init);
      assert prev in v;
      Pick(b, prev, v[|v| - 1])
  }

  /** A value that is the extreme of a register is its reduction. */
  lemma ReduceUnique(b: Bound, x: real, v: seq<real>)
    requires |v| > 0 && IsExtreme(b, x, v)
    ensures x == Reduce(b, v)
  {
    ExtremeUnique(b, x, Reduce(b, v), v);
  }

  /** A register holding x in each of its w lanes (`new v128(x)`, `new v256(x)`). */
  function Broadcast(x: real, w: nat): (r: seq<real>)
    ensures |r| == w && forall j | 0 <= j < w :: r[j] == x
  {
    seq(w, j => x)
  }

  /** Lane-wise min (max) of two registers (`min_ps`, `mm256_max_ps`, ...). */
  function LaneCombine(b: Bound, r: seq<real>, v: seq<real>): (c: seq<real>)
    requires |r| == |v|
    ensures |c| == |r|
    ensures forall j | 0 <= j < |r| :: c[j] == Pick(b, r[j], v[j])
  {
    seq(|r|, j requires 0 <= j < |r| => Pick(b, r[j], v[j]))
  }

  /** The register after the loop has consumed the prefix p in batches of
      w elements, the last batch being p's final w elements. */
  function Accumulate(b: Bound, p: seq<real>, w: nat): (r: seq<real>)
    requires w > 0
    ensures |r| == w
    ensures forall j | 0 <= j < w :: Beyond(b, r[j], Seed(b)) && (r[j] == Seed(b) || r[j] in p)
    decreases |p|
  {
    if |p| < w then Broadcast(Seed(b), w)
    else
      var q := p[..|p| - w];
      var prev := Accumulate(b, q, w);
      assert forall x | x in q :: x in p;
      LaneCombine(b, prev, p[|p| - w..])
  }

  /** One more loop iteration: the register absorbs the next batch. */
  lemma AccumulateStep(b: Bound, s: seq<real>, offset: nat, w: nat)
    requires w > 0 && offset + w <= |s|
    ensures Accumulate(b, s[..offset + w], w) == LaneCombine(b, Accumulate(b, s[..offset], w), s[offset..offset + w])
  {
    var p := s[..offset + w];
    assert p[..|p| - w] == s[..offset];
    assert p[|p| - w..] == s[offset..offset + w];
  }

  /** Loop invariant of the register loops, first half: when p is a whole
      number of batches, lane m % w is at least as extreme as p[m]. */
  lemma {:induction false} AccumulateCovers(b: Bound, p: seq<real>, w: nat)
    requires w > 0 && |p| % w == 0
    ensures forall m | 0 <= m < |p| :: Beyond(b, Accumulate(b, p, w)[m % w], p[m])
    decreases |p|
  {
    if |p| >= w {
      var q, c := p[..|p| - w], p[|p| - w..];
      assert p == q + c;
      ModSub(|p|, w);
      AccumulateCovers(b, q, w);
      CoversStep(b, Accumulate(b, q, w), q, c, w);
    }
  }

  /** One batch step of AccumulateCovers. */
  lemma CoversStep(b: Bound, prev: seq<real>, q: seq<real>, c: seq<real>, w: nat)
    requires w > 0 && |q| % w == 0 && |c| == w && |prev| == w
    requires forall m | 0 <= m < |q| :: Beyond(b, prev[m % w], q[m])
    ensures forall m | 0 <= m < |q| + w :: Beyond(b, LaneCombine(b, prev, c)[m % w], (q + c)[m])
  {
    var r := LaneCombine(b, prev, c);
    forall m | 0 <= m < |q| + w
      ensures Beyond(b, r[m % w], (q + c)[m])
    {
      var j := m % w;
      if m < |q| {
        assert Beyond(b, prev[j], q[m]);
      } else {
        ModShift(m, |q|, w);
      }
    }
  }

  /** Loop invariant of the register loops, second half: lane j is the seed
      or one of the elements p[m] with m % w == j. */
  lemma {:induction false} AccumulateFrom(b: Bound, p: seq<real>, w: nat)
    requires w > 0 && |p| % w == 0
    ensures forall j | 0 <= j < w ::
      Accumulate(b, p, w)[j] == Seed(b) ||
      exists m | 0 <= m < |p| && m % w == j :: Accumulate(b, p, w)[j] == p[m]
    decreases |p|
  {
    if |p| >= w {
      var q, c := p[..|p| - w], p[|p| - w..];
      assert p == q + c;
      ModSub(|p|, w);
      AccumulateFrom(b, q, w);
      FromStep(b, Accumulate(b, q, w), q, c, w);
    }
  }

  /** One batch step of AccumulateFrom. */
  lemma FromStep(b: Bound, prev: seq<real>, q: seq<real>, c: seq<real>, w: nat)
    requires w > 0 && |q| % w == 0 && |c| == w && |prev| == w
    requires forall j | 0 <= j < w ::
      prev[j] == Seed(b) || exists m | 0 <= m < |q| && m % w == j :: prev[j] == q[m]
    ensures forall j | 0 <= j < w ::
      var r := LaneCombine(b, prev, c);
      r[j] == Seed(b) || exists m | 0 <= m < |q| + w && m % w == j :: r[j] == (q + c)[m]
  {
    var r := LaneCombine(b, prev, c);
    forall j | 0 <= j < w
      ensures r[j] == Seed(b) || exists m | 0 <= m < |q| + w && m % w == j :: r[j] == (q + c)[m]
    {
      if r[j] == c[j] {
        ModShift(|q| + j, |q|, w);
        assert (q + c)[|q| + j] == c[j];
      } else if r[j] != Seed(b) {
        var m :| 0 <= m < |q| && m % w == j && prev[j] == q[m];
        assert (q + c)[m] == q[m];
      }
    }
  }

  /** Reducing the accumulated register gives the scalar fold over the
      processed prefix: the lane loops compute what the scalar loop
      computes on the elements they visit. */
  lemma ReduceAccumulate(b: Bound, p: seq<real>, w: nat)
    requires w > 0 && |p| % w == 0
    ensures Reduce(b, Accumulate(b, p, w)) == Fold(b, p)
  {
    var acc := Accumulate(b, p, w);
    var r := Reduce(b, acc);
    AccumulateCovers(b, p, w);
    BeyondAllLanes(b, r, acc, p, w);
    SeededUnique(b, r, Fold(b, p), p);
  }

  /** A value that is one of the lanes and bounds every lane is the seeded
      extreme of the elements the lanes cover. */
  lemma BeyondAllLanes(b: Bound, r: real, acc: seq<real>, p: seq<real>, w: nat)
    requires w > 0 && |acc| == w && IsExtreme(b, r, acc)
    requires forall j | 0 <= j < w :: Beyond(b, acc[j], Seed(b)) && (acc[j] == Seed(b) || acc[j] in p)
    requires forall m | 0 <= m < |p| :: Beyond(b, acc[m % w], p[m])
    ensures IsSeededExtreme(b, r, p)
  {
    var j :| 0 <= j < w && acc[j] == r;
    assert Beyond(b, acc[0], Seed(b));
    forall m | 0 <= m < |p|
      ensures Beyond(b, r, p[m])
    {
      assert Beyond(b, r, acc[m % w]);
    }
  }

  /** Removing one batch keeps a whole number of batches. */
  lemma ModSub(n: nat, w: nat)
    requires w > 0 && n >= w && n % w == 0
    ensures (n - w) % w == 0
  {
    var k, k2 := n / w, (n - w) / w;
    assert n == w * k;
    assert n - w == w * k2 + (n - w) % w;
    assert w * (k - 1 - k2) == (n - w) % w;
    MulSmall(w, k - 1 - k2);
  }

  /** A multiple of w that lies in [0, w) is zero. */
  lemma MulSmall(w: nat, x: int)
    requires w > 0 && 0 <= w * x < w
    ensures x == 0
  {
    if x >= 1 {
      MulMonotone(w, 1, x);
      assert false;
    } else if x <= -1 {
      MulMonotone(w, x, -1);
      assert false;
    }
  }

  /** Within the batch that starts at a multiple q of w, the lane is the offset from q. */
  lemma ModShift(m: nat, q: nat, w: nat)
    requires w > 0 && q % w == 0 && q <= m < q + w
    ensures m % w == m - q
  {
    var k := q / w;
    var k2 := m / w;
    assert q == w * k;
    assert m == w * k2 + m % w;
    if k2 < k {
      MulMonotone(w, k2 + 1, k);
      assert false;
    } else if k2 > k {
      MulMonotone(w, k + 1, k2);
      assert false;
    }
  }


  /** How many elements a register loop visits: `length - length % w`
      rounded up to zero, since a non-positive length runs no batch. */
  function Processed(length: int, w: nat): (n: nat)
    requires w > 0
    ensures n % w == 0
    ensures length >= 0 ==> n <= length < n + w
    ensures length < 0 ==> n == 0
  {
    if length <= 0 then 0
    else
      MulMod(w, length / w);
      length - length % w
  }

  /** The loop's next offset stays a multiple of w and within a bound that is one. */
  lemma BatchStep(offset: int, bound: int, w: nat)
    requires w > 0 && offset % w == 0 && bound % w == 0 && offset < bound
    ensures offset + w <= bound && (offset + w) % w == 0
  {
    var a, c := offset / w, bound / w;
    assert offset == w * a;
    assert bound == w * c;
    if a >= c {
      MulMonotone(w, c, a);
      assert false;
    }
    MulMonotone(w, a + 1, c);
    assert offset + w == w * (a + 1);
    MulMod(w, a + 1);
  }

  /** A multiple of w leaves no remainder. */
  lemma MulMod(w: nat, k: int)
    requires w > 0
    ensures (w * k) % w == 0
  {
    var q := (w * k) / w;
    assert w * k == w * q + (w * k) % w;
    assert w * (k - q) == (w * k) % w;
    MulSmall(w, k - q);
  }

  /** Every batch counts: folding a longer prefix can only move the result
      further toward the extreme. */
  lemma FoldPrefix(b: Bound, s: seq<real>, n: nat)
    requires n <= |s|
    ensures Beyond(b, Fold(b, s), Fold(b, s[..n]))
  {
    var p := Fold(b, s[..n]);
    if p != Seed(b) {
      var i :| 0 <= i < n && s[..n][i] == p;
      assert s[i] == p;
    }
  }
}
