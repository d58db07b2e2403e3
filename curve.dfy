/** A job-friendly animation curve: four parallel arrays of keyframe data,
    evaluated by clamping at both ends and blending the bracketing pair of
    keyframes with a cubic Hermite segment. */
module Curves {
  import opened Numerics

  /** One keyframe of the editor's animation curve. */
  datatype Keyframe = Keyframe(time: real, value: real, inTangent: real, outTangent: real)

  type Vec4 = v: seq<real> | |v| == 4 witness [0.0, 0.0, 0.0, 0.0]

  /** The Hermite basis matrix, row by row. */
  const Hermite: seq<Vec4> := [[2.0, -2.0, 1.0, 1.0], [-3.0, 3.0, -2.0, -1.0], [0.0, 0.0, 1.0, 0.0], [1.0, 0.0, 0.0, 0.0]]

  /** The row vector p times the Hermite matrix. */
  function HermiteRow(p: Vec4): Vec4
  {
    [2.0 * p[0] - 3.0 * p[1] + p[3], -2.0 * p[0] + 3.0 * p[1], p[0] - 2.0 * p[1] + p[2], p[0] - p[1]]
  }

  /** HermiteRow is the row-vector product with the matrix entries above. */
  lemma HermiteRowIsProduct(p: Vec4, j: nat)
    requires j < 4
    ensures HermiteRow(p)[j] == p[0] * Hermite[0][j] + p[1] * Hermite[1][j] + p[2] * Hermite[2][j] + p[3] * Hermite[3][j]
  {}

  /** The sum of the four lanes (csum). */
  function CSum(v: Vec4): real
  {
    v[0] + v[1] + v[2] + v[3]
  }

  /** The four Hermite weights at parameter t: the standard basis
      h00 = 2t^3 - 3t^2 + 1, h01 = -2t^3 + 3t^2, h10 = t^3 - 2t^2 + t,
      h11 = t^3 - t^2. */
  function Basis(t: real): (h: Vec4)
    ensures h[0] + h[1] == 1.0
    ensures t == 0.0 ==> h == [1.0, 0.0, 0.0, 0.0]
    ensures t == 1.0 ==> h == [0.0, 1.0, 0.0, 0.0]
  {
    var t2 := Mul(t, t);
    var t3 := Mul(t2, t);
    HermiteRow([t3, t2, t, 1.0])
  }

  /** The segment between (xLeft, yLeft) and (xRight, yRight) with outgoing
      tangent tLeft and incoming tangent tRight, at xPoint. It passes
      through both keyframes. */
  function EvaluateInterval(xLeft: real, xRight: real, xPoint: real,
                            yLeft: real, yRight: real, tLeft: real, tRight: real): (r: real)
    requires xLeft != xRight
    ensures xPoint == xLeft ==> r == yLeft
    ensures xPoint == xRight ==> r == yRight
  {
    var t := Unlerp(xLeft, xRight, xPoint);
    var xDifference := xRight - xLeft;
    var control := [yLeft, yRight, Mul(tLeft, xDifference), Mul(tRight, xDifference)];
    var h := Basis(t);
    CSum([Mul(control[0], h[0]), Mul(control[1], h[1]), Mul(control[2], h[2]), Mul(control[3], h[3])])
  }

  /** A segment between equal values with flat tangents is constant. */
  lemma FlatSegment(xLeft: real, xRight: real, xPoint: real, y: real)
    requires xLeft != xRight
    ensures EvaluateInterval(xLeft, xRight, xPoint, y, y, 0.0, 0.0) == y
  {
    var h := Basis(Unlerp(xLeft, xRight, xPoint));
    assert Mul(y, h[0]) + Mul(y, h[1]) == Mul(y, h[0] + h[1]);
  }

  /** Strictly increasing keyframe times, as the editor's curve keeps them. */
  predicate Increasing(xs: seq<real>)
  {
    forall i, j | 0 <= i < j < |xs| :: xs[i] < xs[j]
  }

  class Curve {
    /** The number of keyframes, and the length of each array. */
    const length: int
    const x: array<real>
    const y: array<real>
    const tangentIn: array<real>
    const tangentOut: array<real>

    predicate Valid()
      reads this
    {
      x.Length == length && y.Length == length && tangentIn.Length == length && tangentOut.Length == length
    }

    /** Copies the keyframes index for index into the four arrays. */
    constructor(keys: seq<Keyframe>)
      ensures Valid() && length == |keys|
      ensures forall i | 0 <= i < |keys| ::
                x[i] == keys[i].time && y[i] == keys[i].value &&
                tangentIn[i] == keys[i].inTangent && tangentOut[i] == keys[i].outTangent
      ensures fresh(x) && fresh(y) && fresh(tangentIn) && fresh(tangentOut)
    {
      length := |keys|;
      var xs := new real[|keys|];
      var ys := new real[|keys|];
      var ins := new real[|keys|];
      var outs := new real[|keys|];
      var i := 0;
      while i < |keys|
        invariant 0 <= i <= |keys|
        invariant forall k | 0 <= k < i ::
                    xs[k] == keys[k].time && ys[k] == keys[k].value &&
                    ins[k] == keys[k].inTangent && outs[k] == keys[k].outTangent
      {
        xs[i] := keys[i].time;
        ys[i] := keys[i].value;
        ins[i] := keys[i].inTangent;
        outs[i] := keys[i].outTangent;
        i := i + 1;
      }
      x := xs;
      y := ys;
      tangentIn := ins;
      tangentOut := outs;
    }

    /** The curve's value at `point`. Below the first keyframe it is the
        first value; at or beyond the last keyframe it is the SECOND-TO-LAST
        value; otherwise it is the Hermite segment that starts at the last
        keyframe at or below the point. On increasing times, a point on an interior
        keyframe gives that keyframe's value. */
    method Evaluate(point: real) returns (r: real)
      requires Valid() && length >= 1
      requires length >= 2 || point <= x[0]
      ensures point <= x[0] ==> r == y[0]
      ensures point > x[0] && point >= x[length - 1] ==> r == y[length - 2]
      ensures point > x[0] && point < x[length - 1] ==> InSegment(point, r)
      ensures Increasing(x[..]) ==>
                forall k | 0 <= k < length - 1 :: point == x[k] ==> r == y[k]
    {
      if point <= x[0] {
        return y[0];
      }
      var lastElement := length - 1;
      if point >= x[lastElement] {
        return y[lastElement - 1];
      }
      r := EvaluateInside(point);
    }

    /** Every keyframe after k, except the final one, lies above the point:
        k is the last keyframe the scan can select. */
    predicate LaterKeysAbove(point: real, k: int)
      requires Valid() && 0 <= k
      reads this, x
    {
      forall j | k < j < length - 1 :: point < x[j]
    }

    /** The value is that of the Hermite segment starting at the LAST
        keyframe k (below the final one) whose time is at or below the
        point; the next keyframe's time lies above the point. On times that
        do not increase, this pins which of several bracketing pairs is used. */
    ghost predicate InSegment(point: real, r: real)
      requires Valid()
      reads this, x, y, tangentIn, tangentOut
    {
      exists k | 0 <= k < length - 1 ::
        x[k] <= point < x[k + 1] &&
        LaterKeysAbove(point, k) &&
        r == EvaluateInterval(x[k], x[k + 1], point, y[k], y[k + 1], tangentOut[k], tangentIn[k + 1])
    }

    /** The interval scan and the segment, for a point strictly inside the
        first and last keyframe times: the left sample is the last keyframe
        at or below the point. */
    method EvaluateInside(point: real) returns (r: real)
      requires Valid() && length >= 2 && x[0] < point < x[length - 1]
      ensures InSegment(point, r)
      ensures Increasing(x[..]) ==>
                forall k | 0 <= k < length - 1 :: point == x[k] ==> r == y[k]
    {
      var leftSample := 0;
      var rightSample := 0;
      var i := 0;
      while i < length - 1
        invariant 0 <= i <= length - 1
        invariant i == 0 ==> leftSample == 0 && rightSample == 0
        invariant i > 0 ==> 0 <= leftSample < i && rightSample == leftSample + 1 && x[leftSample] <= point
        invariant forall j | leftSample < j < i :: point < x[j]
      {
        if x[i] <= point {
          leftSample := i;
          rightSample := i + 1;
        }
        i := i + 1;
      }
      r := EvaluateInterval(x[leftSample], x[rightSample], point,
                            y[leftSample], y[rightSample], tangentOut[leftSample], tangentIn[rightSample]);
    }

    /** Evaluate with the right clamp returning the last value, as the
        clamp's own description intends. The curve is then continuous at the
        last keyframe: the clamp agrees with the last segment there. */
    method EvaluateCorrected(point: real) returns (r: real)
      requires Valid() && length >= 1
      ensures point <= x[0] ==> r == y[0]
      ensures point > x[0] && point >= x[length - 1] ==> r == y[length - 1]
      ensures point > x[0] && point < x[length - 1] ==> InSegment(point, r)
      ensures Increasing(x[..]) ==>
                forall k | 0 <= k < length :: point == x[k] ==> r == y[k]
    {
      if point <= x[0] {
        return y[0];
      }
      var lastElement := length - 1;
      if point >= x[lastElement] {
        return y[lastElement];
      }
      r := EvaluateInside(point);
    }
  }

  /** On a two-keyframe curve from (0, 0) to (1, 1) with flat tangents, the
      segment reaches 1 at the last keyframe, while the right clamp as
      written answers with the first value, 0: the curve jumps there. */
  lemma RightClampJump()
    ensures EvaluateInterval(0.0, 1.0, 1.0, 0.0, 1.0, 0.0, 0.0) == 1.0
    ensures var ys := [0.0, 1.0]; ys[|ys| - 2] == 0.0 != EvaluateInterval(0.0, 1.0, 1.0, 0.0, 1.0, 0.0, 0.0)
  {}
}
