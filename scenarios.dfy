/** Concrete uses of the wrappers over integers and over an element type
    whose `!=` is not the negation of its `==`. */
module Scenarios {
  import opened Folds
  import opened DryComparisons

  /** The built-in comparisons of `int`. */
  function IntRelation(op: Op, a: int, u: int): bool {
    match op
    case Eq => a == u
    case Ne => a != u
    case Lt => a < u
    case Le => a <= u
    case Gt => a > u
    case Ge => a >= u
  }

  /** An element type whose `==` and `!=` both always hold. */
  function Indifferent(op: Op, a: int, u: int): bool {
    op == Eq || op == Ne || IntRelation(op, a, u)
  }

  /** Over integers, the friend `u != none_of` as written is the negation of
      the member `none_of != u` for every bundle and every operand. */
  lemma IntegerMirrorNoneOfNeInverted(xs: seq<int>, u: int)
    ensures Mirror(IntRelation, u, Ne, NoneOf(xs)) == !Compare(IntRelation, NoneOf(xs), Ne, u)
  {
  }

  /** Bundles of 1, 2 and 3 compared against integers. */
  lemma IntegerScenarios()
    ensures Compare(IntRelation, AnyOf([1, 2, 3]), Eq, 2)
    ensures !Compare(IntRelation, AnyOf([1, 2, 3]), Eq, 5)
    ensures Compare(IntRelation, NoneOf([1, 2, 3]), Eq, 5)
    ensures Compare(IntRelation, AllOf([1, 2, 3]), Lt, 5)
    ensures !Compare(IntRelation, AllOf([1, 2, 3]), Lt, 2)
    ensures Compare(IntRelation, AnyOf([1, 2, 3]), Lt, 2)
  {
  }

  /** A two-element bundle is the plain `||`, `&&` or negated `||` of its
      two element comparisons. */
  lemma TwoElementBundles<T, U>(rel: Relation<T, U>, x: T, y: T, u: U)
    ensures Compare(rel, AnyOf([x, y]), Eq, u) == (rel(Eq, x, u) || rel(Eq, y, u))
    ensures Compare(rel, AllOf([x, y]), Eq, u) == (rel(Eq, x, u) && rel(Eq, y, u))
    ensures Compare(rel, NoneOf([x, y]), Eq, u) == !(rel(Eq, x, u) || rel(Eq, y, u))
  {
    assert [x, y][0] == x && [x, y][1] == y;
  }

  /** A wrapper's `!=` follows the held values' own `!=`, not the negation
      of the wrapper's `==`: with an element type whose `==` and `!=` both
      hold, `any_of(1) == 1` and `any_of(1) != 1` are both true, and so are
      `all_of(1) == 1` and `all_of(1) != 1`. */
  lemma NeNotDerivedFromEq()
    ensures Compare(Indifferent, AnyOf([1]), Eq, 1) && Compare(Indifferent, AnyOf([1]), Ne, 1)
    ensures Compare(Indifferent, AllOf([1]), Eq, 1) && Compare(Indifferent, AllOf([1]), Ne, 1)
    ensures !Compare(Indifferent, NoneOf([1]), Eq, 1) && !Compare(Indifferent, NoneOf([1]), Ne, 1)
  {
  }

  /** `none_of(1) != 1` holds, but `1 != none_of(1)` as written evaluates
      `none_of(1) == 1`, which does not; the corrected friend agrees with
      the member. */
  lemma MirrorNoneOfNeCounterexample()
    ensures Compare(IntRelation, NoneOf([1]), Ne, 1)
    ensures !Mirror(IntRelation, 1, Ne, NoneOf([1]))
    ensures MirrorCorrected(IntRelation, 1, Ne, NoneOf([1]))
  {
  }
}
