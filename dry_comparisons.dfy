/** The three comparison wrappers `any_of`, `none_of` and `all_of`.

    A wrapper holds a fixed sequence of values and compares the whole bundle
    against one external operand `u`. Each member operator `bundle OP u` is a
    single fold of the held values' own comparisons `a OP u`; each friend
    operator `u OP bundle` forwards to a member operator with the bundle moved
    to the left. A bundle here is the held values as they are when it is
    compared; a C++ bundle built from variables holds references to them and
    sees their current values.
 */
module DryComparisons {
  import opened Folds

  /** A bundle of held values, tagged with the wrapper that holds them. */
  datatype Bundle<T> = AnyOf(values: seq<T>) | NoneOf(values: seq<T>) | AllOf(values: seq<T>)

  /** The operator a friend `u OP bundle` forwards to, once the bundle is on
      the left: `<` and `>` swap, `<=` and `>=` swap, `==` and `!=` stay. */
  function Converse(op: Op): (c: Op)
    ensures (op == Eq || op == Ne) <==> c == op
    ensures op == Lt <==> c == Gt
    ensures op == Gt <==> c == Lt
    ensures op == Le <==> c == Ge
    ensures op == Ge <==> c == Le
  {
    match op
    case Eq => Eq
    case Ne => Ne
    case Lt => Gt
    case Le => Ge
    case Gt => Lt
    case Ge => Le
  }

  /** The member operators of `any_of`: `==`, `<`, `<=`, `>`, `>=` hold when
      some held value satisfies the comparison; `!=` holds when every held
      value satisfies the element-wise `!=`. */
  function AnyOfCompare<T, U>(rel: Relation<T, U>, xs: seq<T>, op: Op, u: U): (r: bool)
    ensures op != Ne ==> (r <==> exists i :: 0 <= i < |xs| && rel(op, xs[i], u))
    ensures op == Ne ==> (r <==> forall i :: 0 <= i < |xs| ==> rel(Ne, xs[i], u))
    ensures xs == [] ==> (r <==> op == Ne)
  {
    match op
    case Ne => Conjunction(rel, Ne, xs, u)
    case _ => Disjunction(rel, op, xs, u)
  }

  /** The member operators of `none_of`: each negates a fold. `==`, `<`,
      `<=`, `>`, `>=` hold when no held value satisfies the comparison; `!=`
      holds when not every held value satisfies the element-wise `!=`. Every
      one of the six is the negation of the matching `any_of` operator. */
  function NoneOfCompare<T, U>(rel: Relation<T, U>, xs: seq<T>, op: Op, u: U): (r: bool)
    ensures op != Ne ==> (r <==> forall i :: 0 <= i < |xs| ==> !rel(op, xs[i], u))
    ensures op == Ne ==> (r <==> exists i :: 0 <= i < |xs| && !rel(Ne, xs[i], u))
    ensures r == !AnyOfCompare(rel, xs, op, u)
    ensures xs == [] ==> (r <==> op != Ne)
  {
    match op
    case Ne => !Conjunction(rel, Ne, xs, u)
    case _ => !Disjunction(rel, op, xs, u)
  }

  /** The member operators of `all_of`: `==`, `<`, `<=`, `>`, `>=` hold when
      every held value satisfies the comparison; `!=` holds when some held
      value satisfies the element-wise `!=`. */
  function AllOfCompare<T, U>(rel: Relation<T, U>, xs: seq<T>, op: Op, u: U): (r: bool)
    ensures op != Ne ==> (r <==> forall i :: 0 <= i < |xs| ==> rel(op, xs[i], u))
    ensures op == Ne ==> (r <==> exists i :: 0 <= i < |xs| && rel(Ne, xs[i], u))
    ensures xs == [] ==> (r <==> op != Ne)
  {
    match op
    case Ne => Disjunction(rel, Ne, xs, u)
    case _ => Conjunction(rel, op, xs, u)
  }

  /** `bundle OP u`, for whichever wrapper holds the values. For an empty
      bundle only `any_of`'s `!=` and the other wrappers' operators other
      than `!=` hold; `none_of` is always the negation of `any_of`. */
  function Compare<T, U>(rel: Relation<T, U>, b: Bundle<T>, op: Op, u: U): (r: bool)
    ensures b.AnyOf? && op != Ne ==> (r <==> exists i :: 0 <= i < |b.values| && rel(op, b.values[i], u))
    ensures b.AnyOf? && op == Ne ==> (r <==> forall i :: 0 <= i < |b.values| ==> rel(Ne, b.values[i], u))
    ensures b.AllOf? && op != Ne ==> (r <==> forall i :: 0 <= i < |b.values| ==> rel(op, b.values[i], u))
    ensures b.AllOf? && op == Ne ==> (r <==> exists i :: 0 <= i < |b.values| && rel(Ne, b.values[i], u))
    ensures b.values == [] ==> (r <==> ((op == Ne) == b.AnyOf?))
    ensures b.NoneOf? ==> r == !AnyOfCompare(rel, b.values, op, u)
  {
    match b
    case AnyOf(xs) => AnyOfCompare(rel, xs, op, u)
    case NoneOf(xs) => NoneOfCompare(rel, xs, op, u)
    case AllOf(xs) => AllOfCompare(rel, xs, op, u)
  }

  /** The friend operators `u OP bundle`, as written. Each forwards to the
      member operator of the converse direction, except that `u != none_of`
      forwards to `none_of == u`. */
  function Mirror<T, U>(rel: Relation<T, U>, u: U, op: Op, b: Bundle<T>): (r: bool)
    ensures op != Ne ==> r == Compare(rel, b, Converse(op), u)
    ensures op == Ne && !b.NoneOf? ==> r == Compare(rel, b, Ne, u)
    ensures op == Ne && b.NoneOf? ==> r == Compare(rel, b, Eq, u)
    ensures op != Ne && b.AnyOf? ==>
      (r <==> exists i :: 0 <= i < |b.values| && rel(Converse(op), b.values[i], u))
    ensures op != Ne && b.AllOf? ==>
      (r <==> forall i :: 0 <= i < |b.values| ==> rel(Converse(op), b.values[i], u))
    ensures op != Ne && b.NoneOf? ==>
      (r <==> forall i :: 0 <= i < |b.values| ==> !rel(Converse(op), b.values[i], u))
  {
    match op
    case Eq => Compare(rel, b, Eq, u)
    case Ne => if b.NoneOf? then Compare(rel, b, Eq, u) else Compare(rel, b, Ne, u)
    case Lt => Compare(rel, b, Gt, u)
    case Le => Compare(rel, b, Ge, u)
    case Gt => Compare(rel, b, Lt, u)
    case Ge => Compare(rel, b, Le, u)
  }

  /** The friend operators with `u != none_of` forwarding to `none_of != u`,
      like the `!=` friends of the other two wrappers. */
  function MirrorCorrected<T, U>(rel: Relation<T, U>, u: U, op: Op, b: Bundle<T>): (r: bool)
    ensures r == Compare(rel, b, Converse(op), u)
    ensures r == Mirror(rel, u, op, b) || (op == Ne && b.NoneOf?)
  {
    match op
    case Eq => Compare(rel, b, Eq, u)
    case Ne => Compare(rel, b, Ne, u)
    case Lt => Compare(rel, b, Gt, u)
    case Le => Compare(rel, b, Ge, u)
    case Gt => Compare(rel, b, Lt, u)
    case Ge => Compare(rel, b, Le, u)
  }

  /** The held values' `==` and `!=` are each other's negation on this
      bundle and operand. */
  predicate ComplementaryOn<T, U>(rel: Relation<T, U>, xs: seq<T>, u: U) {
    forall i :: 0 <= i < |xs| ==> rel(Ne, xs[i], u) == !rel(Eq, xs[i], u)
  }

  /** A wrapper's `!=` is computed from the held values' own `!=`; it agrees
      with the negation of the wrapper's `==` when the held values' `==` and
      `!=` are complementary, whatever the wrapper. */
  lemma NeIsNegatedEqWhenComplementary<T, U>(rel: Relation<T, U>, b: Bundle<T>, u: U)
    requires ComplementaryOn(rel, b.values, u)
    ensures Compare(rel, b, Ne, u) == !Compare(rel, b, Eq, u)
  {
  }

  /** With complementary `==` and `!=`, the friend `u != none_of` as written
      always gives the opposite of the member `none_of != u`: it is true
      exactly when no held value equals `u`. */
  lemma MirrorNoneOfNeInverted<T, U>(rel: Relation<T, U>, xs: seq<T>, u: U)
    requires ComplementaryOn(rel, xs, u)
    ensures Mirror(rel, u, Ne, NoneOf(xs)) == !Compare(rel, NoneOf(xs), Ne, u)
    ensures Mirror(rel, u, Ne, NoneOf(xs)) <==> forall i :: 0 <= i < |xs| ==> !rel(Eq, xs[i], u)
  {
  }

  /** The order of the held values does not matter: two bundles of the same
      wrapper holding the same values in any order compare alike. */
  lemma OrderIrrelevant<T, U>(rel: Relation<T, U>, b: Bundle<T>, ys: seq<T>, op: Op, u: U)
    requires multiset(b.values) == multiset(ys)
    ensures Compare(rel, b, op, u) == Compare(rel, b.(values := ys), op, u)
  {
    SomeHoldsPermutation(rel, op, b.values, ys, u);
    EveryHoldsPermutation(rel, op, b.values, ys, u);
  }
}
