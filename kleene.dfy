/**
 * A reference definition of Kleene's strong three-valued logic, independent of the
 * evaluators' pattern matches: the three truth values are ordered
 * FALSE < UNKNOWN < TRUE; conjunction is the minimum, disjunction the maximum and
 * negation reverses the order. This is the logic of the AND/OR truth tables of
 * ISO/IEC 9075 (SQL-92, subclause 8.12, search condition).
 */
module Kleene {
  import opened Options

  /** Position of a tri-state in the truth order FALSE (0) < UNKNOWN (1) < TRUE (2). */
  function Rank(t: Option<bool>): (n: nat)
    ensures n <= 2
    ensures n == 1 <==> t == None
    ensures n == 2 <==> t == Some(true)
  {
    match t
    case Some(false) => 0
    case None => 1
    case Some(true) => 2
  }

  /** The rank determines the tri-state, so equal ranks mean equal tri-states. */
  lemma RankInjective(s: Option<bool>, t: Option<bool>)
    requires Rank(s) == Rank(t)
    ensures s == t
  {
  }

  function Min(m: nat, n: nat): (r: nat)
    ensures r <= m && r <= n && (r == m || r == n)
  {
    if m <= n then m else n
  }

  function Max(m: nat, n: nat): (r: nat)
    ensures r >= m && r >= n && (r == m || r == n)
  {
    if m <= n then n else m
  }

  /** Kleene negation on ranks: reverses the truth order. */
  function Neg(n: nat): (r: nat)
    requires n <= 2
    ensures r <= 2
    ensures r + n == 2
  {
    2 - n
  }

  /** Kleene biconditional on ranks: (a implies b) and (b implies a). */
  function Iff(m: nat, n: nat): (r: nat)
    requires m <= 2 && n <= 2
    ensures r <= 2
    ensures r == 2 <==> m == n && m != 1
  {
    Min(Max(Neg(m), n), Max(Neg(n), m))
  }
}
