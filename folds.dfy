/** The element-level vocabulary of the comparison wrappers and the two
    boolean folds that every wrapper operator is built from.

    A C++ fold expression `((a OP u) || ...)` over the held values is a unary
    right fold of `||`; over an empty pack it is `false`. The `&&` fold is
    `true` over an empty pack. Both are modelled as recursions over the held
    values and proved equal to the quantifier they stand for.
 */
module Folds {

  /** The six relational operators a wrapper overloads. */
  datatype Op = Eq | Ne | Lt | Le | Gt | Ge

  /** `rel(op, a, u)` is the held value's own comparison `a OP u`, with the
      held value `a` on the left and the external operand `u` on the right.
      Nothing relates one operator to another: `Ne` need not be the negation
      of `Eq`, nor `Gt` the converse of `Lt`. */
  type Relation<-T, -U> = (Op, T, U) -> bool

  /** Reference definition: some held value satisfies `a OP u`. */
  predicate SomeHolds<T, U>(rel: Relation<T, U>, op: Op, xs: seq<T>, u: U) {
    exists i :: 0 <= i < |xs| && rel(op, xs[i], u)
  }

  /** Reference definition: every held value satisfies `a OP u`. */
  predicate EveryHolds<T, U>(rel: Relation<T, U>, op: Op, xs: seq<T>, u: U) {
    forall i :: 0 <= i < |xs| ==> rel(op, xs[i], u)
  }

  /** `((a OP u) || ...)`: true exactly when some held value satisfies the
      comparison, and false for an empty bundle. */
  function Disjunction<T, U>(rel: Relation<T, U>, op: Op, xs: seq<T>, u: U): (r: bool)
    ensures r == SomeHolds(rel, op, xs, u)
    decreases |xs|
  {
    if xs == [] then false
    else rel(op, xs[0], u) || Disjunction(rel, op, xs[1..], u)
  }

  /** `((a OP u) && ...)`: true exactly when every held value satisfies the
      comparison, and true for an empty bundle. */
  function Conjunction<T, U>(rel: Relation<T, U>, op: Op, xs: seq<T>, u: U): (r: bool)
    ensures r == EveryHolds(rel, op, xs, u)
    decreases |xs|
  {
    if xs == [] then true
    else rel(op, xs[0], u) && Conjunction(rel, op, xs[1..], u)
  }

  /** Reordering the held values does not change whether some of them
      satisfy a comparison. */
  lemma SomeHoldsPermutation<T, U>(rel: Relation<T, U>, op: Op, xs: seq<T>, ys: seq<T>, u: U)
    requires multiset(xs) == multiset(ys)
    ensures SomeHolds(rel, op, xs, u) == SomeHolds(rel, op, ys, u)
  {
    if SomeHolds(rel, op, xs, u) {
      var i :| 0 <= i < |xs| && rel(op, xs[i], u);
      assert xs[i] in multiset(ys);
      var j :| 0 <= j < |ys| && ys[j] == xs[i];
    }
    if SomeHolds(rel, op, ys, u) {
      var j :| 0 <= j < |ys| && rel(op, ys[j], u);
      assert ys[j] in multiset(xs);
      var i :| 0 <= i < |xs| && xs[i] == ys[j];
    }
  }

  /** Reordering the held values does not change whether all of them
      satisfy a comparison. */
  lemma EveryHoldsPermutation<T, U>(rel: Relation<T, U>, op: Op, xs: seq<T>, ys: seq<T>, u: U)
    requires multiset(xs) == multiset(ys)
    ensures EveryHolds(rel, op, xs, u) == EveryHolds(rel, op, ys, u)
  {
    if !EveryHolds(rel, op, xs, u) {
      var i :| 0 <= i < |xs| && !rel(op, xs[i], u);
      assert xs[i] in multiset(ys);
      var j :| 0 <= j < |ys| && ys[j] == xs[i];
    }
    if !EveryHolds(rel, op, ys, u) {
      var j :| 0 <= j < |ys| && !rel(op, ys[j], u);
      assert ys[j] in multiset(xs);
      var i :| 0 <= i < |xs| && xs[i] == ys[j];
    }
  }
}
