/** The comparisons a biome spawn rule tests its noise value against the
    threshold with. */
module ThresholdOperations {
  import opened Wrappers

  /** The operation enum; `Unnamed` stands for any other integer the enum
      field may hold. */
  datatype ThresholdOperation = Greater | Less | GreaterEqual | LessEqual | Unnamed(code: int)

  predicate IsGreater(val: real, threshold: real) { val > threshold }

  predicate IsLess(val: real, threshold: real) { val < threshold }

  predicate IsGreaterEqual(val: real, threshold: real) { val >= threshold }

  predicate IsLessEqual(val: real, threshold: real) { val <= threshold }

  /** The comparison an enum value names; no comparison (the source
      throws) for any other value. */
  function GetOperation(operation: ThresholdOperation): (r: Option<(real, real) -> bool>)
    ensures r.Some? <==> !operation.Unnamed?
    ensures operation == Greater ==> forall v, t :: r.value(v, t) == IsGreater(v, t)
    ensures operation == Less ==> forall v, t :: r.value(v, t) == IsLess(v, t)
    ensures operation == GreaterEqual ==> forall v, t :: r.value(v, t) == IsGreaterEqual(v, t)
    ensures operation == LessEqual ==> forall v, t :: r.value(v, t) == IsLessEqual(v, t)
  {
    match operation
    case Greater => Some((v, t) => IsGreater(v, t))
    case GreaterEqual => Some((v, t) => IsGreaterEqual(v, t))
    case Less => Some((v, t) => IsLess(v, t))
    case LessEqual => Some((v, t) => IsLessEqual(v, t))
    case Unnamed(_) => None
  }

  /** The outcome of a named comparison. */
  predicate Test(operation: ThresholdOperation, val: real, threshold: real)
    requires !operation.Unnamed?
  {
    GetOperation(operation).value(val, threshold)
  }

  /** The strict comparisons are the negations of the non-strict ones, and
      each comparison is its mirror with the arguments swapped. */
  lemma ComparisonDuality(val: real, threshold: real)
    ensures Test(Greater, val, threshold) == !Test(LessEqual, val, threshold)
    ensures Test(Less, val, threshold) == !Test(GreaterEqual, val, threshold)
    ensures Test(Greater, val, threshold) == Test(Less, threshold, val)
    ensures Test(GreaterEqual, val, threshold) == Test(LessEqual, threshold, val)
  {
  }

  /** A value meets its own threshold non-strictly and never strictly. */
  lemma ComparisonReflexivity(val: real)
    ensures Test(GreaterEqual, val, val) && Test(LessEqual, val, val)
    ensures !Test(Greater, val, val) && !Test(Less, val, val)
  {
  }
}
