/** The weighting operators a noise biome applies to its noise value:
    `Greater` clamps the excess over the threshold into [0, 1], and `Less`
    is its mirror image. */
module NoiseBiomeOperations {
  import opened Numerics
  import opened Wrappers

  /** The operation enum; `Unnamed` stands for any other integer the enum
      field may hold. */
  datatype NoiseBiomeOperation = Greater | Less | Unnamed(code: int)

  /** clamp(value - threshold, 0, 1). */
  function GreaterWeight(value: real, threshold: real): (w: real)
    ensures 0.0 <= w <= 1.0
  {
    Clamp(value - threshold, 0.0, 1.0)
  }

  /** Negate the value, weigh it with `Greater`, negate the weight. */
  function LessWeight(value: real, threshold: real): (w: real)
    ensures -1.0 <= w <= 0.0
  {
    var negated := -value;
    var weighed := GreaterWeight(negated, threshold);
    -weighed
  }

  /** The operator for an enum value; no operator (the source throws) for
      any value other than the two named ones. */
  function GetOperation(operation: NoiseBiomeOperation): (r: Option<(real, real) -> real>)
    ensures r.Some? <==> !operation.Unnamed?
    ensures operation == Greater ==> forall v, t :: r.value(v, t) == GreaterWeight(v, t)
    ensures operation == Less ==> forall v, t :: r.value(v, t) == LessWeight(v, t)
  {
    match operation
    case Greater => Some((v, t) => GreaterWeight(v, t))
    case Less => Some((v, t) => LessWeight(v, t))
    case Unnamed(_) => None
  }

  /** `Greater` is 0 up to the threshold, rises one for one over the next
      unit, and is 1 beyond it. */
  lemma GreaterPieces(value: real, threshold: real)
    ensures value <= threshold ==> GreaterWeight(value, threshold) == 0.0
    ensures threshold <= value <= threshold + 1.0 ==> GreaterWeight(value, threshold) == value - threshold
    ensures value >= threshold + 1.0 ==> GreaterWeight(value, threshold) == 1.0
  {
  }

  /** `Less` is 0 down to minus the threshold, falls one for one over the
      next unit below, and is -1 beyond it. */
  lemma LessPieces(value: real, threshold: real)
    ensures value >= -threshold ==> LessWeight(value, threshold) == 0.0
    ensures -threshold - 1.0 <= value <= -threshold ==> LessWeight(value, threshold) == value + threshold
    ensures value <= -threshold - 1.0 ==> LessWeight(value, threshold) == -1.0
  {
    GreaterPieces(-value, threshold);
  }

  /** Both operators are non-decreasing in the value. */
  lemma OperationsMonotone(v1: real, v2: real, threshold: real)
    requires v1 <= v2
    ensures GreaterWeight(v1, threshold) <= GreaterWeight(v2, threshold)
    ensures LessWeight(v1, threshold) <= LessWeight(v2, threshold)
  {
  }
}
