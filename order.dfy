/**
 * The precedence levels of the VRMath generator (vrmath_generator.js). A
 * smaller level binds tighter; a generator returns the level of the code it
 * produced and asks for each child at the level the slot tolerates.
 */
module Order {
  const ATOMIC: real := 0.0
  const COLLECTION: real := 1.0
  const STRING_CONVERSION: real := 1.0
  const MEMBER: real := 2.1
  const FUNCTION_CALL: real := 2.2
  const EXPONENTIATION: real := 3.0
  const UNARY_SIGN: real := 4.0
  const BITWISE_NOT: real := 4.0
  const MULTIPLICATIVE: real := 5.0
  const ADDITIVE: real := 6.0
  const BITWISE_SHIFT: real := 7.0
  const BITWISE_AND: real := 8.0
  const BITWISE_XOR: real := 9.0
  const BITWISE_OR: real := 10.0
  const RELATIONAL: real := 11.0
  const LOGICAL_NOT: real := 12.0
  const LOGICAL_AND: real := 13.0
  const LOGICAL_OR: real := 14.0
  const CONDITIONAL: real := 15.0
  const LAMBDA: real := 16.0
  const NONE: real := 99.0

  /** Every level, in the order the table declares them. */
  const LEVELS: seq<real> := [
    ATOMIC, COLLECTION, STRING_CONVERSION, MEMBER, FUNCTION_CALL, EXPONENTIATION,
    UNARY_SIGN, BITWISE_NOT, MULTIPLICATIVE, ADDITIVE, BITWISE_SHIFT, BITWISE_AND,
    BITWISE_XOR, BITWISE_OR, RELATIONAL, LOGICAL_NOT, LOGICAL_AND, LOGICAL_OR,
    CONDITIONAL, LAMBDA, NONE]

  /**
   * (outer, inner) pairs exempt from parenthesisation. Every entry of the
   * table is commented out, so it is empty.
   */
  const ORDER_OVERRIDES: seq<(real, real)> := []

  predicate Exempt(outer: real, inner: real)
  {
    (outer, inner) in ORDER_OVERRIDES
  }

  /** The declared levels never decrease, run from 0 to 99, and tie only where the table pairs two names. */
  lemma LevelsOrdered()
    ensures forall i, j :: 0 <= i <= j < |LEVELS| ==> LEVELS[i] <= LEVELS[j]
    ensures LEVELS[0] == 0.0 && LEVELS[|LEVELS| - 1] == 99.0
    ensures forall i :: 0 <= i < |LEVELS| - 1 && LEVELS[i] == LEVELS[i + 1] ==> i == 1 || i == 6
    ensures COLLECTION < MEMBER < FUNCTION_CALL < EXPONENTIATION && LAMBDA < NONE
  {
  }

  /** No pair of levels is exempt from the parenthesisation rule. */
  lemma NoOverrides(outer: real, inner: real)
    ensures !Exempt(outer, inner)
  {
  }
}
