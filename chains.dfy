/**
 * Chains of the binary AND and OR evaluators, as an expression tree nests them for
 * `a AND b AND c ...`: the operands are folded from the right, with the identity
 * (TRUE for AND, FALSE for OR) closing the empty chain. The contracts give the
 * n-ary reading of the binary truth tables, and the grouping lemmas show that
 * associativity makes the nesting irrelevant.
 */
module Chains {
  import opened Options
  import opened Values
  import opened BooleanEvaluator
  import BooleanLaws

  predicate AllBooleanInputs(vs: seq<DataValue>) {
    forall i :: 0 <= i < |vs| ==> IsBooleanInput(vs[i])
  }

  /** A chain of ANDs: FALSE if any operand is FALSE, TRUE if all are TRUE, else UNKNOWN. */
  function Conjunction(vs: seq<DataValue>): (r: DataValue)
    requires AllBooleanInputs(vs)
    ensures r.Boolean?
    ensures r == False <==> exists i :: 0 <= i < |vs| && AsTriState(vs[i]) == Some(false)
    ensures r == True <==> forall i :: 0 <= i < |vs| ==> AsTriState(vs[i]) == Some(true)
  {
    if vs == [] then True
    else AndBinaryEval(vs[0], Conjunction(vs[1..]))
  }

  /** A chain of ORs: TRUE if any operand is TRUE, FALSE if all are FALSE, else UNKNOWN. */
  function Disjunction(vs: seq<DataValue>): (r: DataValue)
    requires AllBooleanInputs(vs)
    ensures r.Boolean?
    ensures r == True <==> exists i :: 0 <= i < |vs| && AsTriState(vs[i]) == Some(true)
    ensures r == False <==> forall i :: 0 <= i < |vs| ==> AsTriState(vs[i]) == Some(false)
  {
    if vs == [] then False
    else OrBinaryEval(vs[0], Disjunction(vs[1..]))
  }

  /** Splitting a chain anywhere and joining the halves with AND gives the same value. */
  lemma {:induction false} ConjunctionSplit(us: seq<DataValue>, vs: seq<DataValue>)
    requires AllBooleanInputs(us) && AllBooleanInputs(vs)
    ensures AllBooleanInputs(us + vs)
    ensures Conjunction(us + vs) == AndBinaryEval(Conjunction(us), Conjunction(vs))
  {
    if us == [] {
      assert us + vs == vs;
      BooleanLaws.Identities(Conjunction(vs));
    } else {
      assert (us + vs)[1..] == us[1..] + vs;
      ConjunctionSplit(us[1..], vs);
      BooleanLaws.AndAssociative(us[0], Conjunction(us[1..]), Conjunction(vs));
    }
  }

  /** Splitting a chain anywhere and joining the halves with OR gives the same value. */
  lemma {:induction false} DisjunctionSplit(us: seq<DataValue>, vs: seq<DataValue>)
    requires AllBooleanInputs(us) && AllBooleanInputs(vs)
    ensures AllBooleanInputs(us + vs)
    ensures Disjunction(us + vs) == OrBinaryEval(Disjunction(us), Disjunction(vs))
  {
    if us == [] {
      assert us + vs == vs;
      BooleanLaws.Identities(Disjunction(vs));
    } else {
      assert (us + vs)[1..] == us[1..] + vs;
      DisjunctionSplit(us[1..], vs);
      BooleanLaws.OrAssociative(us[0], Disjunction(us[1..]), Disjunction(vs));
    }
  }

  /** De Morgan for chains: negating a conjunction is the disjunction of the negations. */
  lemma ChainDeMorgan(vs: seq<DataValue>)
    requires AllBooleanInputs(vs)
    ensures NotUnaryEval(Conjunction(vs)) == Disjunction(Negations(vs))
  {
  }

  /** The NOT evaluator applied to every operand. */
  function Negations(vs: seq<DataValue>): (r: seq<DataValue>)
    requires AllBooleanInputs(vs)
    ensures |r| == |vs| && AllBooleanInputs(r)
    ensures forall i :: 0 <= i < |vs| ==> r[i] == NotUnaryEval(vs[i])
  {
    if vs == [] then [] else [NotUnaryEval(vs[0])] + Negations(vs[1..])
  }
}
