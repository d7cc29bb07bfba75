# dry-comparisons in Dafny

A model of the `rollbear` comparison wrappers `any_of`, `none_of` and `all_of`
from `dry-comparisons.hpp`. A wrapper holds a fixed sequence of values. It
compares that bundle against one external operand `u` with `==`, `!=`, `<`,
`<=`, `>` and `>=`. Each member operator `bundle OP u` is one fold over the
held values' own comparisons `a OP u`:

- `any_of` folds with `||` ("some"). Its `!=` folds the element-wise `!=` with `&&`.
- `none_of` negates each `any_of` fold.
- `all_of` folds with `&&` ("every"). Its `!=` folds the element-wise `!=` with `||`.

Each friend operator `u OP bundle` forwards to a member operator with the
bundle on the left.

The model is pure, like the header:

- `Folds` (`folds.dfy`) has the operator tag `Op` and the element comparison,
  which is a parameter `rel: (Op, T, U) -> bool`. `rel(op, a, u)` means
  `a OP u`. No law links `==` to `!=`, or `<` to `>`. `Folds` also has the two
  fold functions. Each is proved equal to its quantified reference definition.
- `DryComparisons` (`dry_comparisons.dfy`) has the `Bundle` datatype, the
  member operators of each wrapper, the friend operators, and the lemmas about
  them.
- `Scenarios` (`scenarios.dfy`) has concrete instances over integers and over
  an element type whose `!=` is not the negation of `==`.

The friend operators of all three wrappers use the same operand flip, with one
exception: `u != none_of` forwards to `none_of == u`. The model follows the
code (`DryComparisons.Mirror`) and records the difference under Findings.

## Model

| member | source | states |
|---|---|---|
| Folds.Disjunction | dry-comparisons.hpp:20-21 | the `\|\|` fold of `a OP u` over the held values is true exactly when some held value satisfies `a OP u`, and false for no values |
| Folds.Conjunction | dry-comparisons.hpp:30-31 | the `&&` fold of `a OP u` over the held values is true exactly when every held value satisfies `a OP u`, and true for no values |
| Folds.SomeHoldsPermutation | dry-comparisons.hpp:17-142 | whether some held value satisfies a comparison does not depend on the order of the held values |
| Folds.EveryHoldsPermutation | dry-comparisons.hpp:157-211 | whether every held value satisfies a comparison does not depend on the order of the held values |
| DryComparisons.Converse | dry-comparisons.hpp:43-78 | a friend keeps `==` and `!=`, sends `<` to `>`, `>` to `<`, `<=` to `>=` and `>=` to `<=`, and nothing else maps to those targets |
| DryComparisons.AnyOfCompare | dry-comparisons.hpp:16-73 | `any_of OP u` for `==`, `<`, `<=`, `>`, `>=` holds iff some held value satisfies `a OP u`; `any_of != u` holds iff every held value satisfies the element-wise `!=`; an empty bundle gives false except for `!=`, which gives true |
| DryComparisons.NoneOfCompare | dry-comparisons.hpp:88-142 | `none_of OP u` for `==`, `<`, `<=`, `>`, `>=` holds iff no held value satisfies `a OP u`; `none_of != u` holds iff some held value fails the element-wise `!=`; each of the six is the negation of the `any_of` operator; an empty bundle gives true except for `!=`, which gives false |
| DryComparisons.AllOfCompare | dry-comparisons.hpp:157-211 | `all_of OP u` for `==`, `<`, `<=`, `>`, `>=` holds iff every held value satisfies `a OP u`; `all_of != u` holds iff some held value satisfies the element-wise `!=`; an empty bundle gives true except for `!=`, which gives false |
| DryComparisons.Compare | dry-comparisons.hpp:11-219 | a member operator of any wrapper: `any_of` holds iff some held value satisfies `a OP u` (for `!=`: every held value satisfies `a != u`); `all_of` holds iff every held value satisfies `a OP u` (for `!=`: some held value satisfies `a != u`); `none_of` always negates `any_of`; for an empty bundle it holds iff "operator is `!=`" matches "wrapper is `any_of`" |
| DryComparisons.Mirror | dry-comparisons.hpp:23-216 | as written: `u OP bundle` is `bundle OP' u` with `OP'` the converse operator, i.e. at least one / every / no held value satisfies `a OP' u`; `u != bundle` is `bundle != u` for `any_of` and `all_of`, but `bundle == u` for `none_of` |
| DryComparisons.MirrorCorrected | dry-comparisons.hpp:103-107 | with `u != none_of` forwarding to `none_of != u`, every friend equals the converse member operator for all three wrappers; it differs from the as-written friends only at `u != none_of` |
| DryComparisons.NeIsNegatedEqWhenComplementary | dry-comparisons.hpp:98-102 | when the held values' `==` and `!=` are complementary, each wrapper's `!=` is the negation of its `==`, for all three wrappers |
| DryComparisons.MirrorNoneOfNeInverted | dry-comparisons.hpp:103-107 | when the held values' `==` and `!=` are complementary, the as-written `u != none_of` is always the negation of `none_of != u`: it holds iff no held value equals `u` |
| DryComparisons.OrderIrrelevant | dry-comparisons.hpp:17-211 | two bundles of one wrapper that hold the same values in any order give the same result for every operator |
| Scenarios.IntegerScenarios | dry-comparisons.hpp:17-211 | over integers: `any_of(1,2,3) == 2`, `!(any_of(1,2,3) == 5)`, `none_of(1,2,3) == 5`, `all_of(1,2,3) < 5`, `!(all_of(1,2,3) < 2)`, `any_of(1,2,3) < 2` |
| Scenarios.TwoElementBundles | dry-comparisons.hpp:17-161 | for two held values `x, y`: `any_of == u` is `x == u \|\| y == u`, `all_of == u` is `x == u && y == u`, and `none_of == u` is `!(x == u \|\| y == u)` |
| Scenarios.NeNotDerivedFromEq | dry-comparisons.hpp:28-32 | if the element type's `==` and `!=` both hold, `any_of(1)` and `all_of(1)` are both `== 1` and `!= 1`, while `none_of(1)` is neither: `!=` is not derived from `==` |
| Scenarios.IntegerMirrorNoneOfNeInverted | dry-comparisons.hpp:103-107 | for every integer bundle and operand, the as-written `u != none_of` is the negation of the member `none_of != u` |
| Scenarios.MirrorNoneOfNeCounterexample | dry-comparisons.hpp:103-107 | over integers `none_of(1) != 1` holds, the as-written `1 != none_of(1)` does not, and the corrected friend does |

## Left out

- Heterogeneous held values: all held values share one element type `T`, and the operand has its own type `U`. A sum type for `T` can encode a mix of held types.
- Compile-time rejection of a comparison that some held type does not support (`decltype` return types): it has no run-time behaviour. Every comparison in the model is defined.
- AnyOfCompare: `any_of == u` returns whatever type the `||` fold yields. The model returns `bool` only.
- The `enable_if_t<!is_same<…>>` exclusion on the friend operators: it only resolves C++ overload ambiguity. So comparing a bundle against another bundle is not modelled.
- References to variables: the deduction guides (dry-comparisons.hpp:222-227) take forwarding references, so a bundle built from lvalue arguments holds references to them. The inherited tuple constructor (:15) and the `get()` copy (:80) keep those references. So a bundle kept across a change to one of those variables compares the variable's current value. The model's bundle is the values as they are when compared.
- `constexpr`: it has no run-time behaviour.
- Short-circuit evaluation order of the folds: the model's comparisons are pure, so the order cannot be observed.

## Findings

| source | as written | input that shows it | evidently intended | confidence | as-written member | corrected member |
|---|---|---|---|---|---|---|
| dry-comparisons.hpp:103-107 | the friend `u != none_of` returns `a == u` | integers, `none_of(1)` and `u = 1`: `none_of(1) != 1` is true, but `1 != none_of(1)` gives `none_of(1) == 1`, which is false | return `a != u`, as the declared return type `decltype(a != u)` and the `!=` friends of `any_of` (:34-37) and `all_of` (:173-176) do | high; not executed | Scenarios.MirrorNoneOfNeCounterexample | DryComparisons.MirrorCorrected |
