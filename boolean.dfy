/**
 * The boolean evaluator family: NOT (unary) and AND, OR, EQ, NOT-EQ (binary). Each
 * is a stateless zero-field value in the source; here each is a function over
 * `DataValue`. Every evaluator first reads its operands as tri-states (`Null` reads
 * as UNKNOWN) and always answers with a `Boolean` value.
 *
 * The contracts state each result against the reference logic in module Kleene.
 */
module BooleanEvaluator {
  import opened Options
  import opened Values
  import opened Kleene

  /**
   * The operand coercion every evaluator performs: a `Boolean` yields its tri-state
   * and `Null` yields UNKNOWN.
   */
  function AsTriState(v: DataValue): (t: Option<bool>)
    requires IsBooleanInput(v)
    ensures t == None <==> v == Null || v == Unknown
    ensures t != None ==> v == Boolean(t)
  {
    match v
    case Boolean(value) => value
    case Null => None
  }

  /** NOT: TRUE and FALSE swap, UNKNOWN stays UNKNOWN. */
  function NotUnaryEval(value: DataValue): (r: DataValue)
    requires IsBooleanInput(value)
    ensures r.Boolean?
    ensures Rank(r.truth) == Neg(Rank(AsTriState(value)))
  {
    var value := AsTriState(value);
    Boolean(match value
      case Some(v) => Some(!v)
      case None => None)
  }

  /** AND: FALSE absorbs; otherwise UNKNOWN wins over TRUE. */
  function AndBinaryEval(left: DataValue, right: DataValue): (r: DataValue)
    requires IsBooleanInput(left) && IsBooleanInput(right)
    ensures r.Boolean?
    ensures Rank(r.truth) == Min(Rank(AsTriState(left)), Rank(AsTriState(right)))
  {
    var left := AsTriState(left);
    var right := AsTriState(right);
    Boolean(match (left, right)
      case (Some(v1), Some(v2)) => Some(v1 && v2)
      case (Some(false), _) | (_, Some(false)) => Some(false)
      case _ => None)
  }

  /** OR: TRUE absorbs; otherwise UNKNOWN wins over FALSE. */
  function OrBinaryEval(left: DataValue, right: DataValue): (r: DataValue)
    requires IsBooleanInput(left) && IsBooleanInput(right)
    ensures r.Boolean?
    ensures Rank(r.truth) == Max(Rank(AsTriState(left)), Rank(AsTriState(right)))
  {
    var left := AsTriState(left);
    var right := AsTriState(right);
    Boolean(match (left, right)
      case (Some(v1), Some(v2)) => Some(v1 || v2)
      case (Some(true), _) | (_, Some(true)) => Some(true)
      case _ => None)
  }

  /** EQ: defined only when both operands are; then their equality. */
  function EqBinaryEval(left: DataValue, right: DataValue): (r: DataValue)
    requires IsBooleanInput(left) && IsBooleanInput(right)
    ensures r.Boolean?
    ensures Rank(r.truth) == Iff(Rank(AsTriState(left)), Rank(AsTriState(right)))
  {
    var left := AsTriState(left);
    var right := AsTriState(right);
    Boolean(match (left, right)
      case (Some(v1), Some(v2)) => Some(v1 == v2)
      case (_, _) => None)
  }

  /** NOT-EQ: defined only when both operands are; then their inequality. */
  function NotEqBinaryEval(left: DataValue, right: DataValue): (r: DataValue)
    requires IsBooleanInput(left) && IsBooleanInput(right)
    ensures r.Boolean?
    ensures Rank(r.truth) == Neg(Iff(Rank(AsTriState(left)), Rank(AsTriState(right))))
  {
    var left := AsTriState(left);
    var right := AsTriState(right);
    Boolean(match (left, right)
      case (Some(v1), Some(v2)) => Some(v1 != v2)
      case (_, _) => None)
  }

  /** The four binary evaluator kinds, as a closed enumeration of the zero-field structs. */
  datatype BinaryEvaluator = BooleanAnd | BooleanOr | BooleanEq | BooleanNotEq

  /** Dispatch of `binary_eval` to the evaluator the kind names. */
  function BinaryEval(op: BinaryEvaluator, left: DataValue, right: DataValue): (r: DataValue)
    requires IsBooleanInput(left) && IsBooleanInput(right)
    ensures r.Boolean?
  {
    match op
    case BooleanAnd => AndBinaryEval(left, right)
    case BooleanOr => OrBinaryEval(left, right)
    case BooleanEq => EqBinaryEval(left, right)
    case BooleanNotEq => NotEqBinaryEval(left, right)
  }
}
