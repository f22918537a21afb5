/**
 * The part of the runtime value type `DataValue` that the boolean evaluators see.
 * A `Boolean` carries a tri-state: `Some(true)`, `Some(false)` or `None` (UNKNOWN,
 * SQL's boolean NULL). `Null` is the untyped absence marker that any typed slot may
 * hold. Every other variant of the full value type (numbers, text, composites) is
 * folded into the opaque `Other`.
 */
module Values {
  import opened Options

  datatype DataValue = Boolean(truth: Option<bool>) | Null | Other

  /** TRUE, FALSE and UNKNOWN as boolean values. */
  const True: DataValue := Boolean(Some(true))
  const False: DataValue := Boolean(Some(false))
  const Unknown: DataValue := Boolean(None)

  /**
   * The inputs a boolean evaluator accepts at an operand position. Anything else is
   * excluded by the upstream type-checker; the evaluators do not test for it.
   */
  predicate IsBooleanInput(v: DataValue) {
    v.Boolean? || v.Null?
  }
}
