/**
 * Properties of the boolean evaluators: the truth tables read back as facts about
 * operands, `Null` standing for UNKNOWN everywhere, the algebraic laws of AND and
 * OR, and how EQ and NOT-EQ relate to the other three.
 */
module BooleanLaws {
  import opened Options
  import opened Values
  import opened BooleanEvaluator
  import opened Kleene

  /** NOT cannot tell `Null` from `Boolean(None)`. */
  lemma NotNullIsUnknown()
    ensures NotUnaryEval(Null) == NotUnaryEval(Unknown) == Unknown
  {
  }

  /** No binary evaluator can tell `Null` from `Boolean(None)`, at either operand position. */
  lemma BinaryNullIsUnknown(op: BinaryEvaluator, x: DataValue, y: DataValue)
    requires IsBooleanInput(x) && IsBooleanInput(y)
    ensures BinaryEval(op, Null, y) == BinaryEval(op, Unknown, y)
    ensures BinaryEval(op, x, Null) == BinaryEval(op, x, Unknown)
  {
  }

  /** NOT swaps TRUE and FALSE and keeps UNKNOWN. */
  lemma NotTruthTable(x: DataValue)
    requires IsBooleanInput(x)
    ensures NotUnaryEval(x) == True <==> AsTriState(x) == Some(false)
    ensures NotUnaryEval(x) == False <==> AsTriState(x) == Some(true)
    ensures NotUnaryEval(x) == Unknown <==> AsTriState(x) == None
  {
  }

  /** NOT is an involution up to reading `Null` as UNKNOWN. */
  lemma DoubleNegation(x: DataValue)
    requires IsBooleanInput(x)
    ensures NotUnaryEval(NotUnaryEval(x)) == Boolean(AsTriState(x))
    ensures x.Boolean? ==> NotUnaryEval(NotUnaryEval(x)) == x
  {
  }

  /**
   * AND: two defined operands give their conjunction; a FALSE operand gives FALSE
   * whatever the other is; everything else is UNKNOWN.
   */
  lemma AndTruthTable(x: DataValue, y: DataValue)
    requires IsBooleanInput(x) && IsBooleanInput(y)
    ensures AsTriState(x).Some? && AsTriState(y).Some? ==>
      AndBinaryEval(x, y) == Boolean(Some(AsTriState(x).value && AsTriState(y).value))
    ensures AndBinaryEval(x, y) == False <==> AsTriState(x) == Some(false) || AsTriState(y) == Some(false)
    ensures AndBinaryEval(x, y) == True <==> AsTriState(x) == Some(true) && AsTriState(y) == Some(true)
    ensures AndBinaryEval(x, y) == Unknown <==>
      AsTriState(x) != Some(false) && AsTriState(y) != Some(false) && (AsTriState(x) == None || AsTriState(y) == None)
  {
  }

  /**
   * OR: two defined operands give their disjunction; a TRUE operand gives TRUE
   * whatever the other is; everything else is UNKNOWN.
   */
  lemma OrTruthTable(x: DataValue, y: DataValue)
    requires IsBooleanInput(x) && IsBooleanInput(y)
    ensures AsTriState(x).Some? && AsTriState(y).Some? ==>
      OrBinaryEval(x, y) == Boolean(Some(AsTriState(x).value || AsTriState(y).value))
    ensures OrBinaryEval(x, y) == True <==> AsTriState(x) == Some(true) || AsTriState(y) == Some(true)
    ensures OrBinaryEval(x, y) == False <==> AsTriState(x) == Some(false) && AsTriState(y) == Some(false)
    ensures OrBinaryEval(x, y) == Unknown <==>
      AsTriState(x) != Some(true) && AsTriState(y) != Some(true) && (AsTriState(x) == None || AsTriState(y) == None)
  {
  }

  /** TRUE is the identity of AND and FALSE the identity of OR. */
  lemma Identities(x: DataValue)
    requires IsBooleanInput(x)
    ensures AndBinaryEval(True, x) == AndBinaryEval(x, True) == Boolean(AsTriState(x))
    ensures OrBinaryEval(False, x) == OrBinaryEval(x, False) == Boolean(AsTriState(x))
  {
  }

  lemma AndCommutative(x: DataValue, y: DataValue)
    requires IsBooleanInput(x) && IsBooleanInput(y)
    ensures AndBinaryEval(x, y) == AndBinaryEval(y, x)
  {
  }

  lemma OrCommutative(x: DataValue, y: DataValue)
    requires IsBooleanInput(x) && IsBooleanInput(y)
    ensures OrBinaryEval(x, y) == OrBinaryEval(y, x)
  {
  }

  lemma AndAssociative(x: DataValue, y: DataValue, z: DataValue)
    requires IsBooleanInput(x) && IsBooleanInput(y) && IsBooleanInput(z)
    ensures AndBinaryEval(AndBinaryEval(x, y), z) == AndBinaryEval(x, AndBinaryEval(y, z))
  {
  }

  lemma OrAssociative(x: DataValue, y: DataValue, z: DataValue)
    requires IsBooleanInput(x) && IsBooleanInput(y) && IsBooleanInput(z)
    ensures OrBinaryEval(OrBinaryEval(x, y), z) == OrBinaryEval(x, OrBinaryEval(y, z))
  {
  }

  /** De Morgan's laws hold between the NOT, AND and OR evaluators. */
  lemma DeMorgan(x: DataValue, y: DataValue)
    requires IsBooleanInput(x) && IsBooleanInput(y)
    ensures NotUnaryEval(AndBinaryEval(x, y)) == OrBinaryEval(NotUnaryEval(x), NotUnaryEval(y))
    ensures NotUnaryEval(OrBinaryEval(x, y)) == AndBinaryEval(NotUnaryEval(x), NotUnaryEval(y))
  {
  }

  /**
   * EQ propagates UNKNOWN from either operand (it is never FALSE for an unknown
   * operand) and otherwise compares the two truth values.
   */
  lemma EqTruthTable(x: DataValue, y: DataValue)
    requires IsBooleanInput(x) && IsBooleanInput(y)
    ensures EqBinaryEval(x, y) == Unknown <==> AsTriState(x) == None || AsTriState(y) == None
    ensures EqBinaryEval(x, y) == True <==> AsTriState(x) != None && AsTriState(x) == AsTriState(y)
    ensures EqBinaryEval(x, y) == False <==> AsTriState(x) != None && AsTriState(y) != None && AsTriState(x) != AsTriState(y)
  {
  }

  /** A defined value is EQ to itself; an unknown one is not known to be. */
  lemma EqReflexive(x: DataValue)
    requires IsBooleanInput(x)
    ensures EqBinaryEval(x, x) == if AsTriState(x) == None then Unknown else True
  {
  }

  lemma EqCommutative(x: DataValue, y: DataValue)
    requires IsBooleanInput(x) && IsBooleanInput(y)
    ensures EqBinaryEval(x, y) == EqBinaryEval(y, x)
    ensures NotEqBinaryEval(x, y) == NotEqBinaryEval(y, x)
  {
  }

  /** EQ is the Kleene biconditional built from AND, OR and NOT. */
  lemma EqIsBiconditional(x: DataValue, y: DataValue)
    requires IsBooleanInput(x) && IsBooleanInput(y)
    ensures EqBinaryEval(x, y) == OrBinaryEval(AndBinaryEval(x, y), AndBinaryEval(NotUnaryEval(x), NotUnaryEval(y)))
  {
  }

  /**
   * NOT-EQ propagates UNKNOWN exactly as EQ does and otherwise tells whether the
   * two truth values differ.
   */
  lemma NotEqTruthTable(x: DataValue, y: DataValue)
    requires IsBooleanInput(x) && IsBooleanInput(y)
    ensures NotEqBinaryEval(x, y) == Unknown <==> AsTriState(x) == None || AsTriState(y) == None
    ensures NotEqBinaryEval(x, y) == True <==> AsTriState(x) != None && AsTriState(y) != None && AsTriState(x) != AsTriState(y)
    ensures NotEqBinaryEval(x, y) == False <==> AsTriState(x) != None && AsTriState(x) == AsTriState(y)
  {
  }

  /** NOT-EQ, derived independently in the source, coincides with NOT applied to EQ. */
  lemma NotEqIsNotOfEq(x: DataValue, y: DataValue)
    requires IsBooleanInput(x) && IsBooleanInput(y)
    ensures NotEqBinaryEval(x, y) == NotUnaryEval(EqBinaryEval(x, y))
  {
  }

  /** NOT-EQ is the Kleene exclusive or built from AND, OR and NOT. */
  lemma NotEqIsExclusiveOr(x: DataValue, y: DataValue)
    requires IsBooleanInput(x) && IsBooleanInput(y)
    ensures NotEqBinaryEval(x, y) == OrBinaryEval(AndBinaryEval(x, NotUnaryEval(y)), AndBinaryEval(NotUnaryEval(x), y))
  {
  }

  /** Worked examples: one row of each truth table (AND, OR, EQ, NOT, NOT-EQ), including a Null operand. */
  lemma Scenarios()
    ensures AndBinaryEval(False, Unknown) == False
    ensures OrBinaryEval(True, Null) == True
    ensures AndBinaryEval(Unknown, Unknown) == Unknown
    ensures EqBinaryEval(Unknown, True) == Unknown
    ensures NotUnaryEval(Null) == Unknown
    ensures NotEqBinaryEval(True, False) == True
  {
  }

  /*
   * Each evaluator's contract, a `Boolean` result whose rank is given by the Kleene
   * reference logic, admits exactly one value: any value meeting it is the
   * evaluator's result.
   */

  lemma NotContractFixesResult(x: DataValue, r: DataValue)
    requires IsBooleanInput(x)
    requires r.Boolean? && Rank(r.truth) == Neg(Rank(AsTriState(x)))
    ensures r == NotUnaryEval(x)
  {
    RankInjective(r.truth, NotUnaryEval(x).truth);
  }

  lemma AndContractFixesResult(x: DataValue, y: DataValue, r: DataValue)
    requires IsBooleanInput(x) && IsBooleanInput(y)
    requires r.Boolean? && Rank(r.truth) == Min(Rank(AsTriState(x)), Rank(AsTriState(y)))
    ensures r == AndBinaryEval(x, y)
  {
    RankInjective(r.truth, AndBinaryEval(x, y).truth);
  }

  lemma OrContractFixesResult(x: DataValue, y: DataValue, r: DataValue)
    requires IsBooleanInput(x) && IsBooleanInput(y)
    requires r.Boolean? && Rank(r.truth) == Max(Rank(AsTriState(x)), Rank(AsTriState(y)))
    ensures r == OrBinaryEval(x, y)
  {
    RankInjective(r.truth, OrBinaryEval(x, y).truth);
  }

  lemma EqContractFixesResult(x: DataValue, y: DataValue, r: DataValue)
    requires IsBooleanInput(x) && IsBooleanInput(y)
    requires r.Boolean? && Rank(r.truth) == Iff(Rank(AsTriState(x)), Rank(AsTriState(y)))
    ensures r == EqBinaryEval(x, y)
  {
    RankInjective(r.truth, EqBinaryEval(x, y).truth);
  }

  lemma NotEqContractFixesResult(x: DataValue, y: DataValue, r: DataValue)
    requires IsBooleanInput(x) && IsBooleanInput(y)
    requires r.Boolean? && Rank(r.truth) == Neg(Iff(Rank(AsTriState(x)), Rank(AsTriState(y))))
    ensures r == NotEqBinaryEval(x, y)
  {
    RankInjective(r.truth, NotEqBinaryEval(x, y).truth);
  }
}
