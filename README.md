# Boolean evaluators of KipSQL, modelled in Dafny

This project models the boolean operator family of KipSQL's expression evaluator
(`src/types/evaluator/boolean.rs`). There are five stateless evaluators over the
`DataValue` runtime value: NOT (`unary_eval`) and AND, OR, EQ and NOT-EQ
(`binary_eval`). Each evaluator reads its operands as tri-states. A `Boolean(v)`
operand gives `v`, and `Null` gives `None` (UNKNOWN). The evaluator then computes
under SQL's three-valued logic and answers `Boolean(..)`. That logic is Kleene's
strong logic, as in the AND/OR truth tables of ISO/IEC 9075 (SQL-92, subclause
8.12, search condition).

Files:

- `options.dfy`: Rust's `Option`.
- `data_value.dfy`: `DataValue`. It has the variants `Boolean(Option<bool>)` and `Null`, and one opaque `Other` for every other variant. `IsBooleanInput` says which operands the evaluators accept.
- `kleene.dfy`: a reference definition of Kleene logic, independent of the evaluators' pattern matches. Truth values are ranked FALSE < UNKNOWN < TRUE. AND is the minimum, OR the maximum, NOT reverses the order, and the biconditional is built from these.
- `boolean.dfy`: the operand coercion and the five evaluators. Each evaluator's contract ties its result to the reference logic. The file also has a closed enumeration of the four binary evaluators with its dispatch.
- `boolean_laws.dfy`: the truth tables read as facts about the operands. It also has `Null` standing for UNKNOWN, commutativity, associativity, identities, De Morgan, EQ as a biconditional and NOT-EQ as NOT of EQ.
- `chains.dfy`: chains `a AND b AND ...` and `a OR b OR ...` built from the binary evaluators. It gives their n-ary meaning and shows that any grouping of a chain gives the same value.

The source repeats the operand coercion inside every evaluator. The model defines it
once (`AsTriState`), and every evaluator calls it. The match arms of each
evaluator are kept in the source's order. This includes AND's and OR's or-pattern
for the absorbing operand.

## Model

| member | source | states |
|---|---|---|
| BooleanEvaluator.AsTriState | src/types/evaluator/boolean.rs:20-24 | the coercion yields UNKNOWN exactly for `Null` and `Boolean(None)`; a defined result is the operand's own truth value |
| BooleanEvaluator.NotUnaryEval | src/types/evaluator/boolean.rs:19-26 | NOT always answers a `Boolean`, whose truth rank is the reverse of the operand's (Kleene negation) |
| BooleanEvaluator.AndBinaryEval | src/types/evaluator/boolean.rs:30-47 | AND always answers a `Boolean`, whose truth rank is the minimum of the operands' ranks (Kleene conjunction) |
| BooleanEvaluator.OrBinaryEval | src/types/evaluator/boolean.rs:52-69 | OR always answers a `Boolean`, whose truth rank is the maximum of the operands' ranks (Kleene disjunction) |
| BooleanEvaluator.EqBinaryEval | src/types/evaluator/boolean.rs:74-90 | EQ always answers a `Boolean`, whose truth rank is the Kleene biconditional of the operands' ranks |
| BooleanEvaluator.NotEqBinaryEval | src/types/evaluator/boolean.rs:95-111 | NOT-EQ always answers a `Boolean`, whose truth rank is the negated Kleene biconditional of the operands' ranks |
| BooleanEvaluator.BinaryEval | src/types/evaluator/boolean.rs:28-112 | whichever binary evaluator is dispatched to, the result is the `Boolean` variant, never `Null` or another variant |
| BooleanLaws.NotNullIsUnknown | src/types/evaluator/boolean.rs:20-25 | NOT gives the same result, UNKNOWN, for `Null` and for `Boolean(None)` |
| BooleanLaws.BinaryNullIsUnknown | src/types/evaluator/boolean.rs:31-40 | for every binary evaluator, replacing `Boolean(None)` by `Null` at either operand position leaves the result unchanged (the coercion at 53-62, 75-84 and 96-105 is the same) |
| BooleanLaws.NotTruthTable | src/types/evaluator/boolean.rs:25 | NOT gives TRUE exactly for FALSE, FALSE exactly for TRUE, and UNKNOWN exactly for an unknown operand |
| BooleanLaws.DoubleNegation | src/types/evaluator/boolean.rs:19-26 | NOT(NOT(x)) is x read as a tri-state; it is x itself for every `Boolean` operand |
| BooleanLaws.AndTruthTable | src/types/evaluator/boolean.rs:41-45 | AND of two defined operands is their conjunction; it is FALSE iff some operand is FALSE, TRUE iff both are TRUE, and UNKNOWN iff neither is FALSE and one is unknown |
| BooleanLaws.OrTruthTable | src/types/evaluator/boolean.rs:63-67 | OR of two defined operands is their disjunction; it is TRUE iff some operand is TRUE, FALSE iff both are FALSE, and UNKNOWN iff neither is TRUE and one is unknown |
| BooleanLaws.Identities | src/types/evaluator/boolean.rs:41-45 | TRUE is the identity of AND and FALSE the identity of OR, on either side |
| BooleanLaws.AndCommutative | src/types/evaluator/boolean.rs:41-45 | AND(x, y) = AND(y, x) for all accepted operands |
| BooleanLaws.OrCommutative | src/types/evaluator/boolean.rs:63-67 | OR(x, y) = OR(y, x) for all accepted operands |
| BooleanLaws.AndAssociative | src/types/evaluator/boolean.rs:41-45 | AND(AND(x, y), z) = AND(x, AND(y, z)) for all accepted operands |
| BooleanLaws.OrAssociative | src/types/evaluator/boolean.rs:63-67 | OR(OR(x, y), z) = OR(x, OR(y, z)) for all accepted operands |
| BooleanLaws.DeMorgan | src/types/evaluator/boolean.rs:25-67 | NOT(AND(x, y)) = OR(NOT x, NOT y) and NOT(OR(x, y)) = AND(NOT x, NOT y) |
| BooleanLaws.EqTruthTable | src/types/evaluator/boolean.rs:85-88 | EQ is UNKNOWN iff some operand is unknown (never FALSE for it); TRUE iff both are defined and equal; FALSE iff both are defined and differ |
| BooleanLaws.EqReflexive | src/types/evaluator/boolean.rs:85-88 | EQ(x, x) is TRUE for a defined x and UNKNOWN for an unknown x |
| BooleanLaws.EqCommutative | src/types/evaluator/boolean.rs:85-109 | EQ and NOT-EQ are symmetric in their operands |
| BooleanLaws.EqIsBiconditional | src/types/evaluator/boolean.rs:85-88 | EQ(x, y) = OR(AND(x, y), AND(NOT x, NOT y)) for all accepted operands |
| BooleanLaws.NotEqTruthTable | src/types/evaluator/boolean.rs:106-109 | NOT-EQ is UNKNOWN iff some operand is unknown; TRUE iff both are defined and differ; FALSE iff both are defined and equal |
| BooleanLaws.NotEqIsNotOfEq | src/types/evaluator/boolean.rs:106-109 | NOT-EQ(x, y) = NOT(EQ(x, y)) for every pair of accepted operands, although the source derives NOT-EQ on its own |
| BooleanLaws.NotEqIsExclusiveOr | src/types/evaluator/boolean.rs:106-109 | NOT-EQ(x, y) = OR(AND(x, NOT y), AND(NOT x, y)) |
| BooleanLaws.Scenarios | src/types/evaluator/boolean.rs:19-111 | sample rows: AND(F, U) = F, OR(T, Null) = T, AND(U, U) = U, EQ(U, T) = U, NOT(Null) = U, NOT-EQ(T, F) = T |
| BooleanLaws.NotContractFixesResult | src/types/evaluator/boolean.rs:19-26 | any `Boolean` value whose rank is the Kleene negation of the operand's is exactly NOT's result, so NOT's contract determines it |
| BooleanLaws.AndContractFixesResult | src/types/evaluator/boolean.rs:30-47 | any `Boolean` value whose rank is the minimum of the operands' ranks is exactly AND's result |
| BooleanLaws.OrContractFixesResult | src/types/evaluator/boolean.rs:52-69 | any `Boolean` value whose rank is the maximum of the operands' ranks is exactly OR's result |
| BooleanLaws.EqContractFixesResult | src/types/evaluator/boolean.rs:74-90 | any `Boolean` value whose rank is the Kleene biconditional of the operands' ranks is exactly EQ's result |
| BooleanLaws.NotEqContractFixesResult | src/types/evaluator/boolean.rs:95-111 | any `Boolean` value whose rank is the negated Kleene biconditional of the operands' ranks is exactly NOT-EQ's result |
| Chains.Conjunction | src/types/evaluator/boolean.rs:41-45 | a chain of AND evaluations is FALSE iff some operand is FALSE and TRUE iff every operand is TRUE; otherwise UNKNOWN |
| Chains.Disjunction | src/types/evaluator/boolean.rs:63-67 | a chain of OR evaluations is TRUE iff some operand is TRUE and FALSE iff every operand is FALSE; otherwise UNKNOWN |
| Chains.ConjunctionSplit | src/types/evaluator/boolean.rs:41-45 | splitting an AND chain at any point and joining the halves with AND gives the same value, so the grouping does not matter |
| Chains.DisjunctionSplit | src/types/evaluator/boolean.rs:63-67 | splitting an OR chain at any point and joining the halves with OR gives the same value |
| Chains.ChainDeMorgan | src/types/evaluator/boolean.rs:25-45 | NOT of an AND chain equals the OR chain of the negated operands |

## Left out

- The `unsafe { hint::unreachable_unchecked() }` arms (e.g. line 23). They are modelled only as the precondition `IsBooleanInput` on every operand. What happens when another variant is passed is undefined behaviour in the source and is not modelled.
- The non-boolean variants of `DataValue` are one opaque `Other`. The `UnaryEvaluator` and `BinaryEvaluator` traits are defined elsewhere and are not part of this model. The closed enumeration `BinaryEvaluator` stands in for dynamic dispatch through the trait.
- Serialization: the `#[typetag::serde]` registrations and the `Serialize`/`Deserialize` derives (lines 3, 6-15, 17, 28, 50, 72, 93). Their wire format comes from external library macros, so no serialization round-trip is modelled.
- The `Debug`, `PartialEq`, `Eq`, `Clone` and `Hash` derives on the zero-field evaluator structs. They carry no logic.
- Chains: the source has no n-ary operator. `Chains` describes how the binary evaluators behave when an expression tree nests them; the tree and its evaluation order belong to the caller and are not modelled.
