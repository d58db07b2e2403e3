/** The job that places the rim vertices of the island mask: each angle's
    unit direction scaled by its extent normalised into [0, 1] by the
    minimum and maximum extent. */
module MaskVertexJob {
  import opened Numerics

  type Float3 = (real, real, real)

  /** The rim vertex for an angle and a normalised extent; cos and sin are parameters. */
  function RimVertex(cos: real -> real, sin: real -> real, angle: real, extent: real): (v: Float3)
    ensures v.2 == 0.0
  {
    (Mul(cos(angle), extent), Mul(sin(angle), extent), 0.0)
  }

  /** With cos^2 + sin^2 = 1, a rim vertex lies at distance `extent` from the
      centre (its squared length is extent^2). */
  lemma RimDistance(cos: real -> real, sin: real -> real, angle: real, extent: real)
    requires Mul(cos(angle), cos(angle)) + Mul(sin(angle), sin(angle)) == 1.0
    ensures var v := RimVertex(cos, sin, angle, extent);
            Mul(v.0, v.0) + Mul(v.1, v.1) == Mul(extent, extent)
  {
    var c, s := cos(angle), sin(angle);
    assert Mul(Mul(c, extent), Mul(c, extent)) + Mul(Mul(s, extent), Mul(s, extent))
        == Mul(Mul(c, c) + Mul(s, s), Mul(extent, extent));
  }

  /** The extent normalised by the minimum and maximum. The largest extent
      lands on the unit circle, the smallest at the centre, and every
      extent between them in [0, 1]. */
  function Normalise(minimum: real, maximum: real, extent: real): (u: real)
    requires minimum != maximum
    ensures extent == maximum ==> u == 1.0
    ensures extent == minimum ==> u == 0.0
    ensures minimum < maximum && minimum <= extent <= maximum ==> 0.0 <= u <= 1.0
  {
    if minimum < maximum && minimum <= extent <= maximum then
      UnlerpBetween(minimum, maximum, extent);
      Unlerp(minimum, maximum, extent)
    else Unlerp(minimum, maximum, extent)
  }

  /** The smallest extent's vertex is the centre; the largest's lies on the unit circle. */
  lemma ExtremeVertices(cos: real -> real, sin: real -> real, angle: real, minimum: real, maximum: real)
    requires minimum != maximum
    requires Mul(cos(angle), cos(angle)) + Mul(sin(angle), sin(angle)) == 1.0
    ensures RimVertex(cos, sin, angle, Normalise(minimum, maximum, minimum)) == (0.0, 0.0, 0.0)
    ensures var v := RimVertex(cos, sin, angle, Normalise(minimum, maximum, maximum));
            Mul(v.0, v.0) + Mul(v.1, v.1) == 1.0
  {
    RimDistance(cos, sin, angle, 1.0);
  }

  class VertexJob {
    const angles: array<real>
    const extents: array<real>
    const extentsMinMax: array<real>
    /** The vertex buffer; the job writes the slice starting at entry 1. */
    const vertices: array<Float3>
    const cos: real -> real
    const sin: real -> real

    constructor(angles: array<real>, extents: array<real>, extentsMinMax: array<real>, vertices: array<Float3>,
                cos: real -> real, sin: real -> real)
      ensures this.angles == angles && this.extents == extents && this.extentsMinMax == extentsMinMax
      ensures this.vertices == vertices && this.cos == cos && this.sin == sin
    {
      this.angles := angles;
      this.extents := extents;
      this.extentsMinMax := extentsMinMax;
      this.vertices := vertices;
      this.cos := cos;
      this.sin := sin;
    }

    /** Writes rim vertex `index` (buffer entry index + 1), and nothing else. */
    method Execute(index: int)
      requires 0 <= index < angles.Length && index < extents.Length && index + 1 < vertices.Length
      requires extentsMinMax.Length >= 2 && extentsMinMax[0] != extentsMinMax[1]
      modifies vertices
      ensures vertices[index + 1] ==
                RimVertex(cos, sin, angles[index], Normalise(extentsMinMax[0], extentsMinMax[1], extents[index]))
      ensures forall k | 0 <= k < vertices.Length && k != index + 1 :: vertices[k] == old(vertices[k])
    {
      var angle := angles[index];
      var extent := extents[index];
      extent := Normalise(extentsMinMax[0], extentsMinMax[1], extent);
      vertices[index + 1] := RimVertex(cos, sin, angle, extent);
    }
  }
}
