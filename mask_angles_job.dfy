/** The job that places the rim angles of the island mask: evenly spaced
    around the circle from just above -pi, each shifted forward by a random
    jitter below one spacing. */
module MaskAnglesJob {
  import opened Numerics

  /** math.PI. */
  const Pi: real := 3.14159265358979323846

  /** math.EPSILON, the single-precision machine epsilon 2^-23. */
  const Epsilon: real := 0.00000011920928955078125

  /** The first angle. */
  const Start: real := -Pi + Epsilon

  /** The even spacing 2pi / count. */
  function BaseOffset(count: int): (b: real)
    requires count > 0
    ensures b > 0.0 && Mul(count as real, b) == 2.0 * Pi
  {
    (2.0 * Pi) / count as real
  }

  /** Jitter k: the k-th unit draw scaled into [0, spacing), as NextFloat(0, spacing) does. */
  function Jitter(draws: seq<real>, count: int, k: int): (j: real)
    requires count > 0 && 0 <= k < |draws| && 0.0 <= draws[k] < 1.0
    ensures 0.0 <= j < BaseOffset(count)
  {
    MulNonneg(BaseOffset(count), draws[k]);
    MulLt(BaseOffset(count), draws[k], 1.0);
    Mul(BaseOffset(count), draws[k])
  }

  predicate UnitDraws(draws: seq<real>)
  {
    forall k | 0 <= k < |draws| :: 0.0 <= draws[k] < 1.0
  }

  /** Angle i in closed form: the start, i spacings, and the jitter drawn
      for angle i. The jitters telescope, so each angle carries only its own. */
  function AngleAt(draws: seq<real>, count: int, i: int): real
    requires count > 0 && 0 <= i <= count && i <= |draws| && UnitDraws(draws)
  {
    Start + Mul(i as real, BaseOffset(count)) + (if i == 0 then 0.0 else Jitter(draws, count, i - 1))
  }

  /** Angle i lies in [start + i spacings, start + (i + 1) spacings). */
  lemma AngleWindow(draws: seq<real>, count: int, i: int)
    requires count > 0 && 0 <= i <= count && i <= |draws| && UnitDraws(draws)
    ensures Start + Mul(i as real, BaseOffset(count)) <= AngleAt(draws, count, i)
    ensures AngleAt(draws, count, i) < Start + Mul(i as real + 1.0, BaseOffset(count))
  {
    assert Mul(i as real + 1.0, BaseOffset(count)) == Mul(i as real, BaseOffset(count)) + BaseOffset(count);
  }

  /** The angles strictly increase. */
  lemma AnglesIncrease(draws: seq<real>, count: int, i: int, j: int)
    requires count > 0 && 0 <= i < j <= count && j <= |draws| && UnitDraws(draws)
    ensures AngleAt(draws, count, i) < AngleAt(draws, count, j)
  {
    AngleWindow(draws, count, i);
    AngleWindow(draws, count, j);
    MulLe(BaseOffset(count), i as real + 1.0, j as real);
    assert Mul(i as real + 1.0, BaseOffset(count)) == Mul(BaseOffset(count), i as real + 1.0);
    assert Mul(j as real, BaseOffset(count)) == Mul(BaseOffset(count), j as real);
  }

  /** Every written angle stays below start + 2pi: the rim goes round once. */
  lemma AnglesBelowFullTurn(draws: seq<real>, count: int, i: int)
    requires count > 0 && 0 <= i < count && i <= |draws| && UnitDraws(draws)
    ensures Start <= AngleAt(draws, count, i) < Start + 2.0 * Pi
  {
    AngleWindow(draws, count, i);
    MulNonneg(i as real, BaseOffset(count));
    MulLe(BaseOffset(count), i as real + 1.0, count as real);
    assert Mul(i as real + 1.0, BaseOffset(count)) == Mul(BaseOffset(count), i as real + 1.0);
    assert Mul(count as real, BaseOffset(count)) == Mul(BaseOffset(count), count as real);
  }

  class AnglesJob {
    const angleCount: int
    const angles: array<real>

    constructor(angleCount: int, angles: array<real>)
      ensures this.angleCount == angleCount && this.angles == angles
    {
      this.angleCount := angleCount;
      this.angles := angles;
    }

    /** Writes angleCount angles, each the previous one plus one spacing,
        minus the previous jitter, plus a fresh jitter. `draws` is the
        stream of the job's copy of the random generator. */
    method Execute(draws: seq<real>)
      requires angleCount <= angles.Length && angleCount <= |draws| && UnitDraws(draws)
      modifies angles
      ensures forall i | 0 <= i < angleCount :: angles[i] == AngleAt(draws, angleCount, i)
      ensures forall i | 0 <= i < angles.Length && angleCount <= i :: angles[i] == old(angles[i])
    {
      if angleCount <= 0 {
        return;
      }
      var baseOffset := (2.0 * Pi) / angleCount as real;
      var currentAngle := Start;
      var lastOffset := 0.0;
      var i := 0;
      while i < angleCount
        invariant 0 <= i <= angleCount
        invariant currentAngle == AngleAt(draws, angleCount, i)
        invariant lastOffset == (if i == 0 then 0.0 else Jitter(draws, angleCount, i - 1))
        invariant forall k | 0 <= k < i :: angles[k] == AngleAt(draws, angleCount, k)
        invariant forall k | angleCount <= k < angles.Length :: angles[k] == old(angles[k])
      {
        angles[i] := currentAngle;
        var offset := Mul(baseOffset, draws[i]);
        currentAngle := currentAngle + (baseOffset - lastOffset) + offset;
        assert Mul(i as real + 1.0, baseOffset) == Mul(i as real, baseOffset) + baseOffset;
        lastOffset := offset;
        i := i + 1;
      }
    }
  }
}
