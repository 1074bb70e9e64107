# dogs: iterators, comparison and algebra classes, pairs, options, slices, lists

This project is a Dafny model of the core of `genkami/dogs`, a Go library of
functional-programming building blocks built on Go generics. It covers:

- `Ordering`, the `Eq` and `Ord` comparison classes, and their derived
  instances (module `Cmp`).
- The `Semigroup` and `Monoid` algebra classes: additive and multiplicative
  instances and the default implementations (module `Algebra`).
- `Pair`, with its component-wise `Eq`, `Semigroup` and `Monoid`, its
  lexicographic `Ord`, and the pointer (`*Pair`) variants (module `Pairs`).
- `Option`, with `IsSome`, `Equal`, `Unwrap`, `UnwrapOr` and `UnwrapOrElse`
  (module `Options`).
- The pull-based `Iterator` (module `Iterators`):
  - its sources: `Range`, `Pure` and `Unfold`;
  - its combinators: `Filter`, `Take`, `Map`, `FlatMap`/`AndThen` and `Zip`;
  - its draining operations: `Find`, `FindIndex`, `FindElem`,
    `FindElemIndex`, `Fold`, `ForEach`, `SumWithInit` and `Sum`.
- `Slice` and `List`: building them from an iterator, and iterating over them
  (modules `Slices` and `Lists`).

How the Go constructs are represented:

- **Interface values.** A Go interface value that holds closures (`DefaultEq`,
  `DefaultOrd`, `DefaultSemigroup`, `DefaultMonoid`) or a method set (the
  derived instances) becomes a record of total functions.
- **Class laws.** The laws that each class documents, but Go never checks,
  are ghost predicates: `IsEquivalence`, `Coherent`, `IsTotalOrder`,
  `Associative`, `IsIdentity` and `IsMonoid`. The model proves which
  instances satisfy them, and that the pair instances inherit them from their
  components.
- **Iterators.** Every Go iterator struct is a class whose `Next` updates its
  fields. `Next`'s `(T, bool)` result is an `Option<T>`.
- **What an iterator still yields.** Each iterator class exposes the
  elements it still has to yield as `Remaining()`. Its `Next` is proved to
  yield the head of that sequence and to leave the tail (`Pulled`).
- **What each combinator does.** A combinator's `Remaining()` is a function
  on sequences of its source's remaining elements: `FilterSeq`, `TakeSeq`,
  `MapSeq`, `FlatMapSeq`, `ZipSeq` or `UnfoldSeq`. The laws of those
  functions (append, prefix, monad laws, length and elements) are lemmas.
- **The Iterator interface.** The combinators and the draining operations
  pull from `Iterators.Iterator`. That class stands for any finite
  iterator that honours the Iterator interface: its state is the finite
  sequence of its remaining elements.

## Model

| member | source | states |
|---|---|---|
| Cmp.Code | classes/cmp/cmp.go:141-147 | LT, EQ, GT are the integers 0, 1, 2, each value for exactly one constant |
| Cmp.GoString | classes/cmp/cmp.go:149-160 | each constant prints as its own name, "LT", "EQ" or "GT" |
| Cmp.GoStringInjective | classes/cmp/cmp.go:149-160 | two constants print the same exactly when they are the same constant |
| Cmp.DeriveEq | classes/cmp/cmp.go:24-33 | Equal is Go's `==`, and so is an equivalence relation |
| Cmp.DefaultOrd | classes/cmp/cmp.go:103-139 | Compare is CompareImpl; Lt/Le/Gt/Ge/Eq/Ne answer exactly what Compare says; Ne is the negation of Eq |
| Cmp.IntCompare | classes/cmp/cmp.go:68-76 | derivedOrd's Compare is LT exactly for `<`, EQ exactly for `==`, GT exactly for `>` |
| Cmp.DeriveIntOrd | classes/cmp/cmp.go:62-101 | DeriveOrd on integers: the six predicates by Go's operators agree with Compare, and Compare is a total order |
| Cmp.DefaultOrdAgreesWithDerived | classes/cmp/cmp.go:62-139 | a DefaultOrd over the integer Compare answers all seven methods as DeriveOrd does |
| Cmp.StringLessTransitive | classes/cmp/cmp.go:78-80 | Go's `<` on strings is transitive |
| Cmp.StringCompare | classes/cmp/cmp.go:68-76 | derivedOrd's Compare on strings: LT exactly when lexicographically smaller, EQ exactly when equal, GT exactly when greater |
| Cmp.StringCompareIsTotalOrder | classes/cmp/cmp.go:35-41 | Compare on strings satisfies the Ord contract (total order) |
| Cmp.DeriveStringOrd | classes/cmp/cmp.go:62-101 | DeriveOrd on strings: coherent with Compare, and a total order |
| Algebra.AsSemigroup | classes/algebra/algebra.go:52-55 | a Monoid used as a Semigroup combines as the monoid does |
| Algebra.AdditiveIntSemigroup | classes/algebra/algebra.go:21-30 | Combine is `+` and is associative |
| Algebra.AdditiveStringSemigroup | classes/algebra/algebra.go:21-30 | Combine on strings is concatenation and is associative |
| Algebra.MultiplicativeIntSemigroup | classes/algebra/algebra.go:32-41 | Combine is `*` and is associative |
| Algebra.AdditiveIntMonoid | classes/algebra/algebra.go:58-70 | `+` with the zero value 0 satisfies the monoid laws |
| Algebra.AdditiveStringMonoid | classes/algebra/algebra.go:58-70 | concatenation with the zero value "" satisfies the monoid laws |
| Algebra.MultiplicativeIntMonoid | classes/algebra/algebra.go:73-85 | `*` with 1 satisfies the monoid laws |
| Algebra.DefaultMonoid | classes/algebra/algebra.go:88-96 | Combine is the embedded Semigroup's and Empty is EmptyImpl's; it is a monoid whenever the semigroup is associative with EmptyImpl() as identity |
| Pairs.Pair.Values | types/pair/pair.go:16-18 | answers first then second, and rebuilds the same pair |
| Pairs.DerivePairEq | types/pair/pair.go:21-28 | pairs are equal exactly when both components are; equivalence lifts from components to pairs |
| Pairs.LexCompare | types/pair/pair.go:39-56 | the first components decide unless they compare EQ, then the second components decide (each outcome as an iff) |
| Pairs.LexCompareIsTotalOrder | types/pair/pair.go:39-56 | the lexicographic combination of two total orders is a total order |
| Pairs.DerivePairOrd | types/pair/pair.go:39-56 | Compare is LexCompare, the predicates are coherent with it, and total orders lift to pairs |
| Pairs.PairCombineAssociative | types/pair/pair.go:75-86 | component-wise Combine of two associative operations is associative |
| Pairs.PairCombineIdentity | types/pair/pair.go:99-113 | the pair of two identities is an identity for component-wise Combine |
| Pairs.DerivePairSemigroup | types/pair/pair.go:75-86 | combines component-wise; associative whenever both components are |
| Pairs.DerivePairMonoid | types/pair/pair.go:99-113 | combines component-wise, Empty is the pair of Empties; a monoid whenever both components are |
| Pairs.PairRef.Value | types/pair/pair.go:10-13 | the pair a `*Pair` cell currently holds |
| Pairs.PtrPairEqual | types/pair/pair.go:30-37 | `*Pair` equality is the value-pair equality of what the cells hold |
| Pairs.PtrPairCompare | types/pair/pair.go:57-74 | `*Pair` Compare is the value-pair lexicographic Compare of what the cells hold |
| Pairs.PtrPairCombine | types/pair/pair.go:87-98 | returns a fresh cell holding the value-pair combination |
| Pairs.PtrPairEmpty | types/pair/pair.go:114-127 | returns a fresh cell holding the pair of Empties |
| Pairs.PtrPairMonoidCombine | types/pair/pair.go:114-127 | the pointer monoid combines as the pointer semigroup of its components |
| Options.IsSome | types/option/option.go:17-19 | true exactly for Some |
| Options.Equal | types/option/option.go:21-32 | true for two Nones, false for one None, `==` on two Somes; so exactly value equality |
| Options.EqualIsEquivalence | types/option/option.go:21-32 | Equal is reflexive, symmetric and transitive |
| Options.Unwrap | types/option/option.go:34-41 | answers the held value (Go panics on None) |
| Options.UnwrapOr | types/option/option.go:43-50 | the held value, or `def` for None |
| Options.Thunk.Call | types/option/option.go:53 | one call of the `def` closure: answers by the number of earlier calls, counts itself |
| Options.UnwrapOrElse | types/option/option.go:52-59 | the held value without calling `def`, or the result of exactly one call of `def` for None |
| Iterators.Iterator.Next | types/iterator/iterator.go:10-15 | yields the first remaining element and drops it, or false with nothing remaining |
| Iterators.RangeSeqElements | types/iterator/iterator.go:20-21 | Range yields end-start+1 elements start, start+1, ..., end, and none when end < start |
| Iterators.RangeIterator.Range | types/iterator/iterator.go:22-27 | a fresh range iterator has start..end to yield |
| Iterators.RangeIterator.Next | types/iterator/iterator.go:33-41 | yields the cursor and advances it by one, or stops once end < next |
| Iterators.FirstIndex | types/iterator/iterator.go:58-70 | -1 exactly when no element satisfies `fn`, else the position of the first that does |
| Iterators.Find | types/iterator/iterator.go:43-56 | the first element satisfying `fn`, consuming up to it; None with the iterator drained when none does |
| Iterators.FindIndex | types/iterator/iterator.go:58-70 | the index of the first element satisfying `fn` (negative when none), consuming up to it |
| Iterators.FindElem | types/iterator/iterator.go:72-76 | the first element Equal to `e` under the given Eq, or None |
| Iterators.FindElemIndex | types/iterator/iterator.go:78-82 | the index of the first element Equal to `e`, or -1 |
| Iterators.FilterSeqMembers | types/iterator/iterator.go:84-85 | Filter yields exactly the source's elements that satisfy the predicate, and no more of them |
| Iterators.FilterSeqAppend | types/iterator/iterator.go:84-85 | Filter keeps the source's order: filtering a concatenation filters each part |
| Iterators.FilterSeqKeeps | types/iterator/iterator.go:84-85 | a predicate true everywhere keeps everything; filtering is idempotent |
| Iterators.FilterIterator.Filter | types/iterator/iterator.go:85-90 | the new iterator yields the filtered source |
| Iterators.FilterIterator.Next | types/iterator/iterator.go:98-113 | yields the first remaining source element that passes, leaving the source just after it; when none passes the source is drained and the iterator finished; once finished it answers false and never pulls again |
| Iterators.TakeSeqIsPrefix | types/iterator/iterator.go:115-116 | Take(it, n) yields the first min(n, length) elements, none for n <= 0 |
| Iterators.TakeIterator.Take | types/iterator/iterator.go:116-122 | the new iterator yields the first n elements of the source |
| Iterators.TakeIterator.Next | types/iterator/iterator.go:129-140 | once i reaches n it answers false without touching the source; otherwise counts the call, consumes exactly the source's head and passes on the source's answer |
| Iterators.MapSeqElements | types/iterator/iterator.go:144-145 | Map keeps the length and applies fn at each position |
| Iterators.MapIterator.Map | types/iterator/iterator.go:145-150 | the new iterator yields the mapped source |
| Iterators.MapIterator.Next | types/iterator/iterator.go:157-164 | yields fn of the source's next element, or false when the source is done; consumes exactly the source's head |
| Iterators.FlatMapSeqAppend | types/iterator/iterator.go:166-167 | FlatMap of a concatenation is the concatenation of FlatMaps |
| Iterators.FlatMapSeqPureLeft | types/iterator/iterator.go:310-334 | AndThen(Pure(x), fn) yields what fn(x) yields |
| Iterators.FlatMapSeqPureRight | types/iterator/iterator.go:310-334 | AndThen(it, Pure) yields what it yields |
| Iterators.FlatMapSeqAssociative | types/iterator/iterator.go:331-334 | AndThen is associative |
| Iterators.FlatMapSeqOfSingletons | types/iterator/iterator.go:144-205 | Map is FlatMap with one-element results |
| Iterators.FlatMapIterator.FlatMap | types/iterator/iterator.go:167-172 | the new iterator yields the concatenation of fn over the source |
| Iterators.FlatMapIterator.Next | types/iterator/iterator.go:181-205 | while the current sub-iterator has elements it yields the next one without touching the source; otherwise it refills (as Refill states); finished answers false and keeps the source |
| Iterators.FlatMapIterator.Refill | types/iterator/iterator.go:192-204 | consumes the source up to and including the first element whose sub-iterator is non-empty and yields that sub-iterator's head; when there is none the source is drained and the iterator finished |
| Iterators.AndThen | types/iterator/iterator.go:331-334 | AndThen is FlatMap: a fresh FlatMap iterator over x with fn, no current sub-iterator and not finished, yielding FlatMapSeq of x |
| Iterators.AndThenDrains | types/iterator/iterator.go:181-205 | when fn gives an empty sub-iterator for every element of x, the first Next drains x and answers false, and the next one answers false too |
| Iterators.ZipSeqElements | types/iterator/iterator.go:231-232 | Zip yields as many pairs as the shorter source, pairing corresponding elements |
| Iterators.ZipSeqFirsts | types/iterator/iterator.go:231-232 | the first components of Zip are the first source cut to the length of the second |
| Iterators.ZipIterator.Zip | types/iterator/iterator.go:232-237 | the new iterator yields the zip of two distinct sources |
| Iterators.ZipIterator.Next | types/iterator/iterator.go:244-254 | pulls a, then b; when b has run out, a's element is consumed and dropped |
| Iterators.UnfoldSeqFuel | types/iterator/iterator.go:258-260 | once the step stops within some number of calls, the unfold's output is fixed: more calls add nothing |
| Iterators.UnfoldIterator.Unfold | types/iterator/iterator.go:261-267 | the new iterator starts from `init`, not finished |
| Iterators.UnfoldIterator.Next | types/iterator/iterator.go:275-287 | finished: None, state kept and the step-call counter unchanged; otherwise `step` is called once (counter + 1); step says false: finished, state kept; else the state advances and the value is yielded |
| Iterators.RangeIsUnfold | types/iterator/iterator.go:20-41 | Range(start, end) is the unfold counting up while the state has not passed end, and it halts |
| Iterators.Int8Succ | types/iterator/iterator.go:39 | `next++` on an int8 adds one, except that 127 wraps to -128 |
| Iterators.RangeStepInt8 | types/iterator/iterator.go:33-41 | rangeIterator[int8].Next as an unfold step: stop once end < next, else yield next and increment with wrap-around |
| Iterators.RangeInt8ToMaxNeverHalts | types/iterator/iterator.go:33-41 | with end = 127 the int8 range iterator never stops |
| Iterators.RangeInt8ToMaxYieldsOutside | types/iterator/iterator.go:20-41 | Range[int8](127, 127) yields 127 then -128, while the promised range is just [127] |
| Iterators.RangeStepInt8Checked | types/iterator/iterator.go:33-41 | a step that never increments past end: it carries a done flag, set when end is yielded |
| Iterators.RangeInt8CheckedIsRange | types/iterator/iterator.go:20-21 | the checked int8 range yields exactly start..end, end = 127 included, and halts |
| Iterators.FoldLeftAppend | types/iterator/iterator.go:207-218 | folding a concatenation folds the second part from the first part's result |
| Iterators.Fold | types/iterator/iterator.go:207-218 | the left fold of all elements from `init` (`init` when empty); the iterator is drained |
| Iterators.Sink.Call | types/iterator/iterator.go:221 | one call of ForEach's callback, recorded in order |
| Iterators.ForEach | types/iterator/iterator.go:220-229 | fn is called once per element, in iteration order; the iterator is drained |
| Iterators.SumWithInit | types/iterator/iterator.go:289-294 | the fold of all elements with Combine, starting from `init` |
| Iterators.Sum | types/iterator/iterator.go:296-303 | the fold with Combine starting from Empty(); Empty() when the iterator is empty |
| Iterators.FoldLeftShift | types/iterator/iterator.go:289-294 | with an associative Combine, SumWithInit(Combine(x, y), it) is Combine(x, SumWithInit(y, it)) |
| Iterators.SumWithInitIsCombine | types/iterator/iterator.go:289-303 | for a monoid, SumWithInit(init, it) is Combine(init, Sum(it)) |
| Iterators.SumAppend | types/iterator/iterator.go:296-303 | Sum of nothing is Empty(); Sum of a concatenation is the Combine of the Sums |
| Iterators.PureIterator.Pure | types/iterator/iterator.go:310-315 | the new iterator yields exactly x |
| Iterators.PureIterator.Next | types/iterator/iterator.go:322-329 | yields x once, then false forever |
| Slices.Append | types/slice/slice.go:13 | appending one element keeps the prefix and puts x last |
| Slices.FoldAppendIsConcat | types/slice/slice.go:9-15 | folding with append from `acc` gives `acc` followed by the elements, in order |
| Slices.FromIterator | types/slice/slice.go:8-15 | the slice holds exactly the iterator's elements in order; the iterator is drained |
| Slices.SliceIterator.Iter | types/slice/slice.go:17-24 | a fresh slice iterator yields the whole slice |
| Slices.SliceIterator.Next | types/slice/slice.go:31-39 | yields xs[next] and advances next, or false once next reaches the length |
| Lists.Reverse | types/list/list.go:23-33 | the reversed sequence, position by position |
| Lists.ReverseInvolutive | types/list/list.go:23-33 | reversing twice gives the sequence back |
| Lists.NewList | types/list/list.go:15-21 | the list built back to front holds xs in order |
| Lists.FromIterator | types/list/list.go:23-33 | as written: the list holds the iterator's elements in reverse order; the iterator is drained |
| Lists.FromIteratorReversesTwo | types/list/list_test.go:17-26 | for the elements 2, 3 the list built as written is 3, 2, not the 2, 3 that the test expects |
| Lists.FromIteratorInOrder | types/list/list.go:23-33 | corrected: the list holds the iterator's elements in order; the iterator is drained |
| Lists.ListIterator.Iter | types/list/list.go:35-39 | a fresh list iterator yields the list's elements |
| Lists.ListIterator.Next | types/list/list.go:45-53 | yields the head and moves to the tail, or false at the end of the list |

## Left out

- Composition of iterator objects: the model has no interface type, so a combinator
  cannot hold another combinator object as its source. Each combinator pulls
  from `Iterators.Iterator`, which stands for any finite iterator. Chains such as
  `Map(Filter(Range(...)))` are stated through the composition of the
  sequence functions (`MapSeq(fn, FilterSeq(p, RangeSeq(a, b)))`). Likewise,
  `SliceIterator`, `ListIterator` and `RangeIterator` are not themselves
  objects that `Slices.FromIterator` or `Lists.FromIterator` accept. They are
  linked to those operations through their `Remaining()`.
- Iterators.FlatMapIterator: `fn` returns the elements of the sub-iterator
  (`seq<U>`), and the model allocates a fresh iterator for them. A `fn` that
  returns one shared, already partly consumed iterator for several elements
  is not modelled.
- Iterators.ZipIterator.Zip: requires two distinct sources. `Zip(it, it)`,
  where both sides pull from the same object, is not modelled.
- Iterators.UnfoldIterator: `Remaining()` is exact only when the unfold
  halts within the ghost bound `fuel` (`Valid()`). For an infinite unfold,
  only the one-step behaviour of `Next` is stated.
- Iterators.RangeIterator: uses unbounded integers. Go's `Range` is generic
  over every integer type, and at a type's maximum `next++` wraps (see
  Findings). That wrap-around is shown for `int8` only.
- Overflow elsewhere: additive and multiplicative instances over fixed-width
  integers wrap in Go. The model computes on mathematical integers, so
  associativity holds for it as it does for Go's wrapping arithmetic.
- Floating-point and complex instances of the `Additive` and
  `Multiplicative` classes are not modelled (floating-point `+` is not
  associative).
- Cmp.DeriveIntOrd and Cmp.DeriveStringOrd stand for `DeriveOrd` at two of
  the `constraints.Ordered` types. Strings compare by character here. Go
  compares strings by UTF-8 bytes, which gives the same order on valid
  text.
- Cmp.GoString: the `default` branch, which formats an unknown Ordering,
  is not modelled. Go's `Ordering` is any `int`, so `Ordering(3)` takes that
  branch; the model's `Ordering` holds only LT, EQ and GT. For the same
  reason Cmp.DefaultOrd's six predicates, Pairs.LexCompare and
  Pairs.PtrPairCompare do not model a `CompareImpl` or component `Compare`
  that returns an integer outside the three constants (Go's Lt, Le, Gt, Ge
  and Eq then answer false and Ne answers true, and the pair `switch`
  panics).
- Cmp.DeriveEq and Options.EqualIsEquivalence: the equivalence they prove
  holds for types whose `==` is an equivalence. Go's `==` on floating-point
  types treats NaN as unequal to itself, so at such types `DeriveEq` and
  `option.Equal` are not reflexive; those types are not modelled.
- Slices.SliceIterator: the iterator keeps the slice's contents as they are
  when `Iter` is called. In Go it shares the caller's backing array, so a
  write `xs[i] = v` made after `Iter()` is seen by later calls of `Next`;
  that aliasing is not modelled.
- Iterators.Iterator: the elements an iterator still has are a finite
  sequence, so infinite iterators (an `Unfold` that never stops, such as
  the Fibonacci example, with `Take` on top) are covered only through the
  one-step contract of Iterators.UnfoldIterator.Next and at the level of
  the sequence functions.
- Options.Unwrap: Go panics on None. The model makes `Some` a precondition.
- Options: the zero value that a Go `Next` returns beside `false` is not
  modelled. `None` carries no value.
- Iterators.UnfoldIterator.Next, Iterators.FilterIterator.Next,
  Iterators.MapIterator.Next, Iterators.FlatMapIterator.Next,
  Iterators.Find, Iterators.FindIndex and Iterators.Fold: the callbacks
  (`step`, `fn`, the predicate, the fold function) are pure Dafny
  functions, so their side effects and how often they are called are not
  modelled; only Unfold's calls of `step` are counted, by the ghost
  `stepCalls`.
- Pairs.PtrPairEqual, Pairs.PtrPairCompare, Pairs.PtrPairCombine and
  Pairs.PtrPairMonoidCombine: a `PairRef` is never null here. Go
  dereferences both `*Pair` arguments (`pair.go` lines 33, 60, 65 and
  91-92) and panics when either is nil; that panic is not modelled.
- Iterators.ForEach and Options.UnwrapOrElse: the Go callbacks are
  arbitrary closures. They are modelled as a `Sink` that records its
  arguments and as a `Thunk` that counts its calls.
- Slice `Sort` and the functions listed as future work in `slice.go` and
  `option.go` are not implemented in the source, so they are not modelled.
- The code generator (`cmd/gen-functions`), its generated files, channels,
  sets and the root-package aliases (`iterator.go`, `pair.go` and so on at
  the top level) are not part of this model.
- `list_test.go` calls `list.New`. The function in `list.go` is `NewList`,
  and it is modelled under that name.

## Findings

| source | as written | input that shows it | evidently intended | confidence | as-written member | corrected member |
|---|---|---|---|---|---|---|
| types/list/list.go:23-33 | each pulled element is put in front of the list built so far, so the list holds the elements in reverse | an iterator over 2, 3 gives the list 3, 2; the test in types/list/list_test.go:24 expects `New(2, 3)` | the list holds the elements in iteration order, as `slice.FromIterator` does | not executed; high (the test in the repository states the intended order) | Lists.FromIterator | Lists.FromIteratorInOrder |
| types/iterator/iterator.go:33-41 | `next++` runs after yielding `end`; at the largest value of the integer type it wraps, `end < next` never holds and the iterator never stops | `Range[int8](120, 127)`: after 127 it yields -128, -127, ... without end | yield start..end and stop, for every end the type can hold | not executed; high | Iterators.RangeInt8ToMaxNeverHalts | Iterators.RangeInt8CheckedIsRange |
