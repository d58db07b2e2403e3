/** The floating origin: when the player strays a whole shift size or more
    from the origin along x or z, the player and the origin's children are
    moved back by whole shift sizes and the shift counter records how far,
    so the reconstructed world position does not change. */
module OriginShifts {
  import opened Numerics
  import opened Vectors

  /** A position in the world. */
  datatype Vec3 = Vec3(x: real, y: real, z: real)

  function Minus(a: Vec3, b: Vec3): Vec3
  {
    Vec3(a.x - b.x, a.y - b.y, a.z - b.z)
  }

  /** The shift for a player position: along x and z the whole number of
      shift sizes (truncated toward zero) the player is from the origin,
      and the distance that makes; along y the player's whole height. */
  function CalculateShift(playerPos: Vec3, shiftSize: real): (r: (Vec3, Int2))
    requires shiftSize != 0.0
    ensures var (shiftAmount, shiftIndex) := r;
            shiftAmount.y == playerPos.y &&
            shiftAmount.x == Mul(shiftIndex.x as real, shiftSize) && shiftAmount.z == Mul(shiftIndex.y as real, shiftSize)
  {
    var qx := Trunc(playerPos.x / shiftSize);
    var qz := Trunc(playerPos.z / shiftSize);
    (Vec3(Mul(qx as real, shiftSize), playerPos.y, Mul(qz as real, shiftSize)), Int2(qx, qz))
  }

  function Abs(x: real): real
  {
    if x < 0.0 then -x else x
  }

  /** Scaling by a positive factor maps (-1, 1) onto (-s, s). */
  lemma ScaleWithin(t: real, s: real)
    requires s > 0.0
    ensures (-1.0 < t < 1.0) <==> (-s < Mul(s, t) < s)
  {
    assert Mul(s, 1.0) == s && Mul(s, -1.0) == -s;
    if t >= 1.0 { MulLe(s, 1.0, t); } else if t <= -1.0 { MulLe(s, t, -1.0); }
    else { MulLt(s, t, 1.0); MulLt(s, -1.0, t); }
  }

  /** Truncation commutes with negation. */
  lemma TruncNegate(x: real)
    ensures Trunc(-x) == -Trunc(x)
  {
  }

  /** The axis remainder for a positive shift size. */
  lemma AxisRemainderPositive(p: real, s: real)
    requires s > 0.0
    ensures var q := Trunc(p / s);
            Abs(p - Mul(q as real, s)) < s && (q == 0 <==> Abs(p) < s)
  {
    var d := p / s;
    assert Mul(s, d) == p;
    var q := Trunc(d);
    var r := d - q as real;
    assert -1.0 < r < 1.0;
    assert Mul(s, r) == Mul(s, d) - Mul(q as real, s);
    ScaleWithin(r, s);
    ScaleWithin(d, s);
  }

  /** What is left along one axis after removing the truncated whole
      shifts is less than one shift size; nothing is removed exactly when
      the coordinate is already within one shift size. */
  lemma AxisRemainder(p: real, shiftSize: real)
    requires shiftSize != 0.0
    ensures var q := Trunc(p / shiftSize);
            Abs(p - Mul(q as real, shiftSize)) < Abs(shiftSize) &&
            (q == 0 <==> Abs(p) < Abs(shiftSize))
  {
    if shiftSize > 0.0 {
      AxisRemainderPositive(p, shiftSize);
    } else {
      var s := -shiftSize;
      AxisRemainderPositive(p, s);
      assert p / shiftSize == -(p / s);
      TruncNegate(p / s);
      assert Mul(Trunc(p / shiftSize) as real, shiftSize) == Mul(Trunc(p / s) as real, s);
    }
  }

  class OriginShift {
    var playerPosition: Vec3
    /** The positions of the origin object's children. */
    var children: seq<Vec3>
    var shiftSize: real
    /** How many shift sizes the origin has moved along x and z. */
    var shift: Int2

    /** The defaults: shift size 4096, no shift yet. */
    constructor(playerPosition: Vec3, children: seq<Vec3>)
      ensures this.playerPosition == playerPosition && this.children == children
      ensures shiftSize == 4096.0 && shift == Int2(0, 0)
    {
      this.playerPosition := playerPosition;
      this.children := children;
      shiftSize := 4096.0;
      shift := Int2(0, 0);
    }

    /** The player's world position along x and z: the shift times the
        shift size plus the player's local position. */
    function Position(): (r: (real, real))
      reads this
      ensures shift.x == 0 && shift.y == 0 ==> r == (playerPosition.x, playerPosition.z)
    {
      (Mul(shift.x as real, shiftSize) + playerPosition.x, Mul(shift.y as real, shiftSize) + playerPosition.z)
    }

    /** Adds the shift index to the counter and, unless it is zero, moves
        the player and every child back by the shift amount. */
    method Update()
      requires shiftSize != 0.0
      modifies this
      ensures shiftSize == old(shiftSize)
      ensures var (shiftAmount, shiftIndex) := CalculateShift(old(playerPosition), shiftSize);
              shift == Int2(old(shift).x + shiftIndex.x, old(shift).y + shiftIndex.y) &&
              (shiftIndex == Int2(0, 0) ==> playerPosition == old(playerPosition) && children == old(children)) &&
              (shiftIndex != Int2(0, 0) ==>
                 playerPosition == Minus(old(playerPosition), shiftAmount) &&
                 |children| == |old(children)| &&
                 forall i | 0 <= i < |children| :: children[i] == Minus(old(children)[i], shiftAmount))
      ensures Position() == old(Position())
      ensures Abs(playerPosition.x) < Abs(shiftSize) && Abs(playerPosition.z) < Abs(shiftSize)
      ensures CalculateShift(old(playerPosition), shiftSize).1 != Int2(0, 0) ==> playerPosition.y == 0.0
    {
      var (shiftAmount, shiftIndex) := CalculateShift(playerPosition, shiftSize);
      AxisRemainder(playerPosition.x, shiftSize);
      AxisRemainder(playerPosition.z, shiftSize);
      assert Mul(shift.x as real + shiftIndex.x as real, shiftSize) ==
             Mul(shift.x as real, shiftSize) + Mul(shiftIndex.x as real, shiftSize);
      assert Mul(shift.y as real + shiftIndex.y as real, shiftSize) ==
             Mul(shift.y as real, shiftSize) + Mul(shiftIndex.y as real, shiftSize);
      shift := Int2(shift.x + shiftIndex.x, shift.y + shiftIndex.y);
      if shiftIndex.x == 0 && shiftIndex.y == 0 {
        return;
      }
      playerPosition := Minus(playerPosition, shiftAmount);
      var moved := children;
      var i := 0;
      while i < |moved|
        invariant 0 <= i <= |moved| && |moved| == |children|
        invariant forall k | 0 <= k < |moved| :: moved[k] == (if k < i then Minus(children[k], shiftAmount) else children[k])
      {
        moved := moved[i := Minus(moved[i], shiftAmount)];
        i := i + 1;
      }
      children := moved;
    }
  }
}
