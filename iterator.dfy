/** The iterator engine: the pull-based Iterator contract, its sources
    (Range, Pure, Unfold), its combinators (Filter, Take, Map, FlatMap,
    Zip) and the terminal operations that drain an iterator (Find,
    FindIndex, FindElem, FindElemIndex, Fold, ForEach, SumWithInit, Sum).

    Every iterator is a class whose Next updates its fields. What a caller
    can observe of an iterator is the sequence of elements it still has to
    yield, its Remaining(); each class proves that one call of Next yields
    the head of that sequence and leaves the tail (`Pulled`), and that its
    Remaining() is a pure function of its source's: the source filtered,
    a prefix of it, mapped, concatenated, zipped. The functions on sequences
    below are those specifications, and the lemmas are their laws. */
module Iterators {
  import opened Options
  import opened Cmp
  import opened Algebra
  import opened Pairs

  // ===================================================== the Next contract

  /** One call of Next, on an iterator that still had `before` to yield:
      it answers the first element and `after` is the rest; or, when
      nothing is left, it answers None and nothing is left afterwards. */
  ghost predicate Pulled<T>(before: seq<T>, x: Option<T>, after: seq<T>) {
    if before == [] then x == None && after == []
    else x == Some(before[0]) && after == before[1..]
  }

  /** An Iterator[T] as its users see it: any value whose Next honours the
      interface. Its state is the sequence of elements it still has to
      yield; Next pops the first, or answers None and stays exhausted.
      The combinators and terminal operations pull from objects of this
      class. */
  class Iterator<T> {
    var remaining: seq<T>

    constructor (xs: seq<T>)
      ensures remaining == xs
    {
      remaining := xs;
    }

    method Next() returns (x: Option<T>)
      modifies this
      ensures Pulled(old(remaining), x, remaining)
    {
      if remaining == [] {
        x := None;
      } else {
        x := Some(remaining[0]);
        remaining := remaining[1..];
      }
    }
  }

  // ======================================= specifications on sequences

  /** start, start+1, ..., end; nothing when end < start. */
  function RangeSeq(start: int, end: int): seq<int>
    decreases end - start
  {
    if end < start then [] else [start] + RangeSeq(start + 1, end)
  }

  lemma {:induction false} RangeSeqElements(start: int, end: int)
    ensures |RangeSeq(start, end)| == if end < start then 0 else end - start + 1
    ensures forall i :: 0 <= i < |RangeSeq(start, end)| ==> RangeSeq(start, end)[i] == start + i
    decreases end - start
  {
    if start <= end {
      RangeSeqElements(start + 1, end);
    }
  }

  /** The elements of `s` that satisfy `fn`, in order. */
  function FilterSeq<T>(fn: T -> bool, s: seq<T>): seq<T>
  {
    if s == [] then [] else (if fn(s[0]) then [s[0]] else []) + FilterSeq(fn, s[1..])
  }

  /** Filtering keeps exactly the elements that satisfy the predicate. */
  lemma {:induction false} FilterSeqMembers<T>(fn: T -> bool, s: seq<T>)
    ensures forall x :: x in FilterSeq(fn, s) <==> x in s && fn(x)
    ensures |FilterSeq(fn, s)| <= |s|
  {
    if s != [] {
      FilterSeqMembers(fn, s[1..]);
      assert s == [s[0]] + s[1..];
    }
  }

  /** Filtering a concatenation filters each part in turn, so the order of
      the source is kept. */
  lemma {:induction false} FilterSeqAppend<T>(fn: T -> bool, a: seq<T>, b: seq<T>)
    ensures FilterSeq(fn, a + b) == FilterSeq(fn, a) + FilterSeq(fn, b)
  {
    if a == [] {
      assert a + b == b;
    } else {
      var head := if fn(a[0]) then [a[0]] else [];
      assert (a + b)[0] == a[0] && (a + b)[1..] == a[1..] + b;
      assert FilterSeq(fn, a + b) == head + FilterSeq(fn, a[1..] + b);
      FilterSeqAppend(fn, a[1..], b);
      assert FilterSeq(fn, a) == head + FilterSeq(fn, a[1..]);
      assert head + (FilterSeq(fn, a[1..]) + FilterSeq(fn, b)) == (head + FilterSeq(fn, a[1..])) + FilterSeq(fn, b);
    }
  }

  /** When every element passes, filtering changes nothing; filtering twice
      is filtering once. */
  lemma {:induction false} FilterSeqKeeps<T>(fn: T -> bool, s: seq<T>)
    ensures (forall i :: 0 <= i < |s| ==> fn(s[i])) ==> FilterSeq(fn, s) == s
    ensures FilterSeq(fn, FilterSeq(fn, s)) == FilterSeq(fn, s)
  {
    if s != [] {
      FilterSeqKeeps(fn, s[1..]);
      if fn(s[0]) {
        calc {
          FilterSeq(fn, FilterSeq(fn, s));
          FilterSeq(fn, [s[0]] + FilterSeq(fn, s[1..]));
          { FilterSeqAppend(fn, [s[0]], FilterSeq(fn, s[1..])); }
          FilterSeq(fn, [s[0]]) + FilterSeq(fn, FilterSeq(fn, s[1..]));
        }
      } else {
        assert FilterSeq(fn, s) == FilterSeq(fn, s[1..]);
      }
    }
  }

  /** The first `n` elements of `s`, or all of them; none when n <= 0. */
  function TakeSeq<T>(s: seq<T>, n: int): seq<T>
  {
    if n <= 0 || s == [] then [] else [s[0]] + TakeSeq(s[1..], n - 1)
  }

  /** TakeSeq is the prefix of length min(n, |s|) (and 0 for n <= 0). */
  lemma {:induction false} TakeSeqIsPrefix<T>(s: seq<T>, n: int)
    ensures TakeSeq(s, n) == s[..if n <= 0 then 0 else if n < |s| then n else |s|]
  {
    if n > 0 && s != [] {
      TakeSeqIsPrefix(s[1..], n - 1);
    }
  }

  /** `fn` applied to each element, in order. */
  function MapSeq<T, U>(fn: T -> U, s: seq<T>): seq<U>
  {
    if s == [] then [] else [fn(s[0])] + MapSeq(fn, s[1..])
  }

  /** Mapping keeps the length and maps each position. */
  lemma {:induction false} MapSeqElements<T, U>(fn: T -> U, s: seq<T>)
    ensures |MapSeq(fn, s)| == |s|
    ensures forall i :: 0 <= i < |s| ==> MapSeq(fn, s)[i] == fn(s[i])
  {
    if s != [] {
      MapSeqElements(fn, s[1..]);
    }
  }

  /** The concatenation of fn(x1), fn(x2), ... for the elements of `s`. */
  function FlatMapSeq<T, U>(fn: T -> seq<U>, s: seq<T>): seq<U>
  {
    if s == [] then [] else fn(s[0]) + FlatMapSeq(fn, s[1..])
  }

  lemma {:induction false} FlatMapSeqAppend<T, U>(fn: T -> seq<U>, a: seq<T>, b: seq<T>)
    ensures FlatMapSeq(fn, a + b) == FlatMapSeq(fn, a) + FlatMapSeq(fn, b)
  {
    if a == [] {
      assert a + b == b;
    } else {
      assert (a + b)[0] == a[0] && (a + b)[1..] == a[1..] + b;
      FlatMapSeqAppend(fn, a[1..], b);
    }
  }

  /** AndThen(Pure(x), fn) yields what fn(x) yields. */
  lemma FlatMapSeqPureLeft<T, U>(fn: T -> seq<U>, x: T)
    ensures FlatMapSeq(fn, [x]) == fn(x)
  {
    assert FlatMapSeq(fn, [x]) == fn(x) + FlatMapSeq(fn, []);
  }

  /** AndThen(it, Pure) yields what `it` yields. */
  lemma {:induction false} FlatMapSeqPureRight<T>(s: seq<T>)
    ensures FlatMapSeq((x: T) => [x], s) == s
  {
    if s != [] {
      FlatMapSeqPureRight(s[1..]);
    }
  }

  /** AndThen is associative: flat-mapping by f and then by g is
      flat-mapping by "f, then g on each result". */
  lemma {:induction false} FlatMapSeqAssociative<T, U, V>(f: T -> seq<U>, g: U -> seq<V>, s: seq<T>)
    ensures FlatMapSeq(g, FlatMapSeq(f, s)) == FlatMapSeq((x: T) => FlatMapSeq(g, f(x)), s)
  {
    if s != [] {
      FlatMapSeqAssociative(f, g, s[1..]);
      FlatMapSeqAppend(g, f(s[0]), FlatMapSeq(f, s[1..]));
    }
  }

  /** Map is FlatMap with one-element results. */
  lemma {:induction false} FlatMapSeqOfSingletons<T, U>(fn: T -> U, s: seq<T>)
    ensures FlatMapSeq((x: T) => [fn(x)], s) == MapSeq(fn, s)
  {
    if s != [] {
      FlatMapSeqOfSingletons(fn, s[1..]);
    }
  }

  /** Pairs of corresponding elements, as long as the shorter input. */
  function ZipSeq<T, U>(a: seq<T>, b: seq<U>): seq<Pair<T, U>>
  {
    if a == [] || b == [] then [] else [Pair(a[0], b[0])] + ZipSeq(a[1..], b[1..])
  }

  lemma {:induction false} ZipSeqElements<T, U>(a: seq<T>, b: seq<U>)
    ensures |ZipSeq(a, b)| == if |a| < |b| then |a| else |b|
    ensures forall i :: 0 <= i < |ZipSeq(a, b)| ==> ZipSeq(a, b)[i] == Pair(a[i], b[i])
  {
    if a != [] && b != [] {
      ZipSeqElements(a[1..], b[1..]);
    }
  }

  /** Projecting the first components of a zip gives back the first input,
      cut to the length of the second. */
  lemma {:induction false} ZipSeqFirsts<T, U>(a: seq<T>, b: seq<U>)
    ensures MapSeq((p: Pair<T, U>) => p.first, ZipSeq(a, b)) == a[..if |a| < |b| then |a| else |b|]
  {
    if a != [] && b != [] {
      ZipSeqFirsts(a[1..], b[1..]);
    }
  }

  /** The step function stops (answers false) within `fuel` calls. */
  ghost predicate Halts<S, U>(step: S -> (S, U, bool), s: S, fuel: nat)
    decreases fuel
  {
    fuel > 0 && (!step(s).2 || Halts(step, step(s).0, fuel - 1))
  }

  /** What an Unfold from state `s` yields within `fuel` calls of step. */
  function UnfoldSeq<S, U>(step: S -> (S, U, bool), s: S, fuel: nat): seq<U>
    decreases fuel
  {
    if fuel == 0 then []
    else
      var (next, u, ok) := step(s);
      if !ok then [] else [u] + UnfoldSeq(step, next, fuel - 1)
  }

  /** Once the unfold halts within `fuel` calls, more fuel yields nothing
      more: the sequence is the whole output of the unfold. */
  lemma {:induction false} UnfoldSeqFuel<S, U>(step: S -> (S, U, bool), s: S, fuel: nat, more: nat)
    requires Halts(step, s, fuel) && fuel <= more
    ensures Halts(step, s, more)
    ensures UnfoldSeq(step, s, more) == UnfoldSeq(step, s, fuel)
    decreases fuel
  {
    if step(s).2 {
      UnfoldSeqFuel(step, step(s).0, fuel - 1, more - 1);
    }
  }

  /** The step with which Unfold produces Range(·, end). The ensures
      restates the lambda pointwise so that the prover can unfold a call
      of the step; what the step means is stated by RangeIsUnfold. */
  function RangeStep(end: int): (step: int -> (int, int, bool))
    ensures forall s :: step(s) == (s + 1, s, s <= end)
  {
    (s: int) => (s + 1, s, s <= end)
  }

  /** Range is an Unfold: counting up from `start` while the state has not
      passed `end` yields RangeSeq(start, end), and halts. */
  lemma {:induction false} RangeIsUnfold(start: int, end: int, fuel: nat)
    requires fuel > 0 && fuel > end - start + 1
    ensures Halts(RangeStep(end), start, fuel)
    ensures UnfoldSeq(RangeStep(end), start, fuel) == RangeSeq(start, end)
    decreases fuel
  {
    assert RangeStep(end)(start) == (start + 1, start, start <= end);
    if start <= end {
      RangeIsUnfold(start + 1, end, fuel - 1);
    }
  }

  /** Go's `++` on an int8: 127 wraps around to -128. */
  function Int8Succ(x: int): (y: int)
    ensures -128 <= y <= 127
    ensures -128 <= x < 127 ==> y == x + 1
    ensures x == 127 ==> y == -128
  {
    (x + 1 + 128) % 256 - 128
  }

  /** rangeIterator[int8].Next as written, as an Unfold step: stop once
      end < next, otherwise yield next and increment it with wrap-around.
      The ensures restates the lambda pointwise for the prover; its
      consequence is RangeInt8ToMaxNeverHalts. */
  function RangeStepInt8(end: int): (step: int -> (int, int, bool))
    ensures forall s :: step(s) == (Int8Succ(s), s, s <= end)
  {
    (s: int) => (Int8Succ(s), s, s <= end)
  }

  /** With end the largest int8, the test `end < next` never holds: after
      yielding 127 the cursor wraps to -128 and the iterator goes on, so it
      does not halt within any number of calls. */
  lemma {:induction false} RangeInt8ToMaxNeverHalts(s: int, fuel: nat)
    requires -128 <= s <= 127
    ensures !Halts(RangeStepInt8(127), s, fuel)
    decreases fuel
  {
    if fuel > 0 {
      RangeInt8ToMaxNeverHalts(Int8Succ(s), fuel - 1);
    }
  }

  /** The smallest instance: Range[int8](127, 127) yields 127 and then -128,
      which is not in the range. */
  lemma RangeInt8ToMaxYieldsOutside()
    ensures UnfoldSeq(RangeStepInt8(127), 127, 2) == [127, -128]
    ensures RangeSeq(127, 127) == [127]
  {
    assert RangeStepInt8(127)(127) == (-128, 127, true);
    assert RangeStepInt8(127)(-128) == (-127, -128, true);
    assert UnfoldSeq(RangeStepInt8(127), -128, 1) == [-128] + UnfoldSeq(RangeStepInt8(127), -127, 0);
  }

  /** A step that never increments past `end`: the state carries a `done`
      flag set when `end` itself is yielded, so the cursor stays inside
      the int8 range. The ensures restates the lambda pointwise for the
      prover; its consequence is RangeInt8CheckedIsRange. */
  function RangeStepInt8Checked(end: int): (step: ((int, bool)) -> ((int, bool), int, bool))
    ensures forall st: (int, bool) ::
              step(st) == ((if st.0 == end then st.0 else Int8Succ(st.0), st.0 == end), st.0, !st.1 && st.0 <= end)
  {
    (st: (int, bool)) => ((if st.0 == end then st.0 else Int8Succ(st.0), st.0 == end), st.0, !st.1 && st.0 <= end)
  }

  /** The checked step yields exactly start, ..., end for every int8 range,
      end = 127 included, and halts. */
  lemma {:induction false} RangeInt8CheckedIsRange(start: int, end: int, fuel: nat)
    requires -128 <= start <= 127 && -128 <= end <= 127
    requires fuel > 0 && fuel > end - start + 1
    ensures Halts(RangeStepInt8Checked(end), (start, false), fuel)
    ensures UnfoldSeq(RangeStepInt8Checked(end), (start, false), fuel) == RangeSeq(start, end)
    decreases fuel
  {
    var step := RangeStepInt8Checked(end);
    if start < end {
      assert step((start, false)) == ((start + 1, false), start, true);
      RangeInt8CheckedIsRange(start + 1, end, fuel - 1);
    } else if start == end {
      assert step((start, false)) == ((start, true), start, true);
      assert step((start, true)).2 == false;
      assert UnfoldSeq(step, (start, true), fuel - 1) == [];
      assert RangeSeq(start + 1, end) == [];
    }
  }

  /** The left fold: fn(...fn(fn(init, s[0]), s[1])..., s[|s|-1]). */
  function FoldLeft<A, T>(fn: (A, T) -> A, init: A, s: seq<T>): A
    decreases |s|
  {
    if s == [] then init else FoldLeft(fn, fn(init, s[0]), s[1..])
  }

  lemma {:induction false} FoldLeftAppend<A, T>(fn: (A, T) -> A, init: A, a: seq<T>, b: seq<T>)
    ensures FoldLeft(fn, init, a + b) == FoldLeft(fn, FoldLeft(fn, init, a), b)
    decreases |a|
  {
    if a == [] {
      assert a + b == b;
    } else {
      assert (a + b)[0] == a[0] && (a + b)[1..] == a[1..] + b;
      FoldLeftAppend(fn, fn(init, a[0]), a[1..], b);
    }
  }

  /** With an associative combine, the initial value can be pulled out of
      the fold. */
  lemma {:induction false} FoldLeftShift<T(!new)>(c: (T, T) -> T, x: T, y: T, s: seq<T>)
    requires Associative(c)
    ensures FoldLeft(c, c(x, y), s) == c(x, FoldLeft(c, y, s))
    decreases |s|
  {
    if s != [] {
      assert c(c(x, y), s[0]) == c(x, c(y, s[0]));
      FoldLeftShift(c, x, c(y, s[0]), s[1..]);
    }
  }

  /** SumWithInit(init) of a monoid is Combine(init, Sum). */
  lemma SumWithInitIsCombine<T(!new)>(m: Monoid<T>, init: T, s: seq<T>)
    requires IsMonoid(m)
    ensures FoldLeft(m.combine, init, s) == m.combine(init, FoldLeft(m.combine, m.empty(), s))
  {
    assert m.combine(init, m.empty()) == init;
    FoldLeftShift(m.combine, init, m.empty(), s);
  }

  /** Sum is a monoid homomorphism from sequences under concatenation: the
      sum of an empty sequence is Empty() and the sum of a concatenation is
      the Combine of the sums. */
  lemma SumAppend<T(!new)>(m: Monoid<T>, a: seq<T>, b: seq<T>)
    requires IsMonoid(m)
    ensures FoldLeft(m.combine, m.empty(), []) == m.empty()
    ensures FoldLeft(m.combine, m.empty(), a + b)
         == m.combine(FoldLeft(m.combine, m.empty(), a), FoldLeft(m.combine, m.empty(), b))
  {
    FoldLeftAppend(m.combine, m.empty(), a, b);
    SumWithInitIsCombine(m, FoldLeft(m.combine, m.empty(), a), b);
  }

  /** The position of the first element satisfying `fn`, or -1. */
  function FirstIndex<T>(fn: T -> bool, s: seq<T>): (k: int)
    ensures -1 <= k < |s|
    ensures k == -1 <==> forall i :: 0 <= i < |s| ==> !fn(s[i])
    ensures 0 <= k ==> fn(s[k]) && forall i :: 0 <= i < k ==> !fn(s[i])
  {
    if s == [] then -1
    else if fn(s[0]) then 0
    else
      var k := FirstIndex(fn, s[1..]);
      if k == -1 then -1 else k + 1
  }

  /** The predicate FindElem and FindElemIndex search with. */
  function EqualTo<T>(eq: Eq<T>, e: T): T -> bool
  {
    (x: T) => eq.equal(x, e)
  }

  // ============================================================ sources

  /** Range(start, end): rangeIterator with its cursor `next`. */
  class RangeIterator {
    var next: int
    const end: int

    ghost function Remaining(): seq<int>
      reads this
    {
      RangeSeq(next, end)
    }

    constructor Range(start: int, end: int)
      ensures next == start && this.end == end
      ensures Remaining() == RangeSeq(start, end)
    {
      next := start;
      this.end := end;
    }

    method Next() returns (x: Option<int>)
      modifies this
      ensures Pulled(old(Remaining()), x, Remaining())
      ensures x.Some? ==> next == old(next) + 1
      ensures x.None? ==> next == old(next)
    {
      if end < next {
        return None;
      }
      x := Some(next);
      next := next + 1;
    }
  }

  /** Pure(x): yields x once, then is finished for good. */
  class PureIterator<T> {
    const x: T
    var finished: bool

    ghost function Remaining(): seq<T>
      reads this
    {
      if finished then [] else [x]
    }

    constructor Pure(x: T)
      ensures this.x == x && !finished
      ensures Remaining() == [x]
    {
      this.x := x;
      finished := false;
    }

    method Next() returns (r: Option<T>)
      modifies this
      ensures Pulled(old(Remaining()), r, Remaining())
      ensures finished
    {
      if finished {
        return None;
      }
      finished := true;
      r := Some(x);
    }
  }

  /** Unfold(init, step): each Next calls step on the state; on `false` the
      iterator is finished (the state is left as it was) and step is never
      called again. `fuel` is a ghost bound: when the unfold halts within it
      (Valid), Remaining() is the whole of what the unfold still yields. */
  class UnfoldIterator<S, U> {
    var state: S
    const step: S -> (S, U, bool)
    var finished: bool
    ghost var fuel: nat
    /** How many times Next has called `step`. */
    ghost var stepCalls: nat

    ghost predicate Valid()
      reads this
    {
      finished || Halts(step, state, fuel)
    }

    ghost function Remaining(): seq<U>
      reads this
    {
      if finished then [] else UnfoldSeq(step, state, fuel)
    }

    constructor Unfold(init: S, step: S -> (S, U, bool), ghost fuel: nat)
      ensures state == init && this.step == step && !finished && stepCalls == 0
      ensures Valid() <==> Halts(step, init, fuel)
      ensures Remaining() == UnfoldSeq(step, init, fuel)
    {
      state := init;
      this.step := step;
      finished := false;
      this.fuel := fuel;
      stepCalls := 0;
    }

    method Next() returns (x: Option<U>)
      modifies this
      ensures old(finished) ==> x == None && finished && state == old(state) && stepCalls == old(stepCalls)
      ensures !old(finished) ==> stepCalls == old(stepCalls) + 1
      ensures !old(finished) && step(old(state)).2 ==>
        x == Some(step(old(state)).1) && state == step(old(state)).0 && !finished
      ensures !old(finished) && !step(old(state)).2 ==>
        x == None && finished && state == old(state)
      ensures old(Valid()) ==> Valid() && Pulled(old(Remaining()), x, Remaining())
    {
      if finished {
        return None;
      }
      var (next, u, ok) := step(state);
      stepCalls := stepCalls + 1;
      if !ok {
        finished := true;
        return None;
      }
      state := next;
      if fuel > 0 {
        fuel := fuel - 1;
      }
      x := Some(u);
    }
  }

  // ======================================================== combinators

  /** Filter(it, fn). Once the source has run out, `finished` is set and
      the source is never pulled again. */
  class FilterIterator<T> {
    const it: Iterator<T>
    const fn: T -> bool
    var finished: bool

    ghost function Remaining(): seq<T>
      reads this, it
    {
      if finished then [] else FilterSeq(fn, it.remaining)
    }

    constructor Filter(it: Iterator<T>, fn: T -> bool)
      ensures this.it == it && this.fn == fn && !finished
      ensures Remaining() == FilterSeq(fn, it.remaining)
    {
      this.it := it;
      this.fn := fn;
      finished := false;
    }

    method Next() returns (x: Option<T>)
      modifies this, it
      ensures Pulled(old(Remaining()), x, Remaining())
      ensures old(finished) ==> x == None && finished && it.remaining == old(it.remaining)
      ensures !old(finished) ==>
        var s, k := old(it.remaining), FirstIndex(fn, old(it.remaining));
        if k < 0 then x == None && finished && it.remaining == []
        else x == Some(s[k]) && !finished && it.remaining == s[k + 1..]
    {
      if finished {
        return None;
      }
      ghost var s := it.remaining;
      ghost var n := 0;
      while true
        invariant !finished
        invariant 0 <= n <= |s| && it.remaining == s[n..]
        invariant forall i :: 0 <= i < n ==> !fn(s[i])
        invariant FilterSeq(fn, it.remaining) == old(Remaining())
        decreases |it.remaining|
      {
        var y := it.Next();
        if y.None? {
          finished := true;
          return None;
        }
        n := n + 1;
        if fn(y.value) {
          return y;
        }
      }
    }
  }

  /** Take(it, n): the counter `i` counts the calls that went to the
      source; once it reaches `n` the source is not called again. */
  class TakeIterator<T> {
    const it: Iterator<T>
    const n: int
    var i: int

    ghost function Remaining(): seq<T>
      reads this, it
    {
      if n <= i then [] else TakeSeq(it.remaining, n - i)
    }

    constructor Take(it: Iterator<T>, n: int)
      ensures this.it == it && this.n == n && i == 0
      ensures Remaining() == TakeSeq(it.remaining, n)
    {
      this.it := it;
      this.n := n;
      i := 0;
    }

    method Next() returns (x: Option<T>)
      modifies this, it
      ensures Pulled(old(Remaining()), x, Remaining())
      ensures old(n <= i) ==> x == None && i == old(i) && it.remaining == old(it.remaining)
      ensures old(i < n) ==> i == old(i) + 1
      ensures old(i < n) ==> it.remaining == if old(it.remaining) == [] then [] else old(it.remaining)[1..]
    {
      if n <= i {
        return None;
      }
      ghost var s, k := it.remaining, n - i;
      i := i + 1;
      x := it.Next();
      if s != [] {
        assert ([s[0]] + TakeSeq(s[1..], k - 1))[1..] == TakeSeq(s[1..], k - 1);
      }
    }
  }

  /** Map(it, fn). */
  class MapIterator<T, U> {
    const it: Iterator<T>
    const fn: T -> U

    ghost function Remaining(): seq<U>
      reads it
    {
      MapSeq(fn, it.remaining)
    }

    constructor Map(it: Iterator<T>, fn: T -> U)
      ensures this.it == it && this.fn == fn
      ensures Remaining() == MapSeq(fn, it.remaining)
    {
      this.it := it;
      this.fn := fn;
    }

    method Next() returns (x: Option<U>)
      modifies it
      ensures Pulled(old(Remaining()), x, Remaining())
      ensures it.remaining == if old(it.remaining) == [] then [] else old(it.remaining)[1..]
    {
      var y := it.Next();
      if y.None? {
        return None;
      }
      x := Some(fn(y.value));
    }
  }

  /** The predicate "fn gives a non-empty sub-iterator". */
  function NonEmptyUnder<T, U>(fn: T -> seq<U>): T -> bool
  {
    (y: T) => fn(y) != []
  }

  /** How FlatMap's refill loop leaves the source `before`: it consumes the
      leading elements whose sub-iterator is empty and the first one whose
      sub-iterator is not, and yields that sub-iterator's head; when there
      is none, the source is drained and the iterator finished. */
  ghost predicate Refilled<T, U>(fn: T -> seq<U>, before: seq<T>, x: Option<U>, after: seq<T>, finished: bool)
  {
    var k := FirstIndex(NonEmptyUnder(fn), before);
    if k < 0 then x == None && finished && after == []
    else x == Some(fn(before[k])[0]) && !finished && after == before[k + 1..]
  }

  /** FlatMap(it, fn): `cur` is the sub-iterator being drained (null before
      the first pull). `fn` gives the elements of the sub-iterator for an
      element of the source; the sub-iterator is a fresh object. */
  class FlatMapIterator<T, U> {
    const it: Iterator<T>
    var cur: Iterator?<U>
    const fn: T -> seq<U>
    var finished: bool

    ghost predicate Valid()
      reads this
    {
      cur != null ==> cur as object != it as object
    }

    ghost function Remaining(): seq<U>
      reads this, it, cur
    {
      if finished then []
      else (if cur == null then [] else cur.remaining) + FlatMapSeq(fn, it.remaining)
    }

    constructor FlatMap(it: Iterator<T>, fn: T -> seq<U>)
      ensures this.it == it && this.fn == fn && cur == null && !finished
      ensures Valid()
      ensures Remaining() == FlatMapSeq(fn, it.remaining)
    {
      this.it := it;
      this.fn := fn;
      cur := null;
      finished := false;
    }

    method Next() returns (x: Option<U>)
      requires Valid()
      modifies this, it, cur
      ensures Valid()
      ensures cur == old(cur) || fresh(cur)
      ensures Pulled(old(Remaining()), x, Remaining())
      ensures old(finished) ==> x == None && finished && it.remaining == old(it.remaining)
      ensures !old(finished) && old(cur != null && cur.remaining != []) ==>
        x.Some? && !finished && cur == old(cur) && it.remaining == old(it.remaining)
      ensures !old(finished) && !old(cur != null && cur.remaining != []) ==>
        Refilled(fn, old(it.remaining), x, it.remaining, finished)
    {
      if finished {
        return None;
      }
      if cur != null {
        ghost var a, r := cur.remaining, FlatMapSeq(fn, it.remaining);
        x := cur.Next();
        if x.Some? {
          assert (a + r)[0] == a[0] && (a + r)[1..] == a[1..] + r;
          return;
        }
        assert a + r == r;
      }
      x := Refill();
    }

    /** The loop of Next: pull source elements until one has a non-empty
        sub-iterator, and yield that sub-iterator's first element. */
    method Refill() returns (x: Option<U>)
      requires Valid() && !finished
      requires cur != null ==> cur.remaining == []
      modifies this, it
      ensures Valid()
      ensures cur == old(cur) || fresh(cur)
      ensures Pulled(old(FlatMapSeq(fn, it.remaining)), x, Remaining())
      ensures Refilled(fn, old(it.remaining), x, it.remaining, finished)
    {
      ghost var total := FlatMapSeq(fn, it.remaining);
      ghost var s := it.remaining;
      ghost var n := 0;
      while true
        invariant Valid() && !finished
        invariant cur == old(cur) || fresh(cur)
        invariant FlatMapSeq(fn, it.remaining) == total
        invariant 0 <= n <= |s| && it.remaining == s[n..]
        invariant forall i :: 0 <= i < n ==> !NonEmptyUnder(fn)(s[i])
        decreases |it.remaining|
      {
        var y := it.Next();
        if y.None? {
          finished := true;
          return None;
        }
        n := n + 1;
        var ys := fn(y.value);
        assert total == ys + FlatMapSeq(fn, it.remaining);
        cur := new Iterator(ys);
        x := cur.Next();
        if x.Some? {
          assert total[1..] == ys[1..] + FlatMapSeq(fn, it.remaining);
          return;
        }
        assert ys == [];
      }
    }
  }

  /** AndThen(x, fn) is FlatMap(x, fn). */
  method AndThen<T, U>(x: Iterator<T>, fn: T -> seq<U>) returns (r: FlatMapIterator<T, U>)
    ensures fresh(r) && r.Valid() && r.it == x && r.fn == fn && r.cur == null && !r.finished
    ensures r.Remaining() == FlatMapSeq(fn, x.remaining)
  {
    r := new FlatMapIterator.FlatMap(x, fn);
  }

  /** A client of AndThen: two pulls in a row go through the contracts
      alone, and when `fn` gives nothing for every element the first pull
      already drains the source. */
  method AndThenDrains<T, U>(x: Iterator<T>, fn: T -> seq<U>) returns (y: Option<U>, z: Option<U>)
    requires forall i :: 0 <= i < |x.remaining| ==> fn(x.remaining[i]) == []
    modifies x
    ensures y == None && z == None && x.remaining == []
  {
    var r := AndThen(x, fn);
    y := r.Next();
    z := r.Next();
  }

  /** Zip(a, b): pulls from `a`, then from `b`. When `a` yields and `b` has
      run out, the element of `a` is consumed and dropped. The two sources
      are distinct objects. */
  class ZipIterator<T, U> {
    const a: Iterator<T>
    const b: Iterator<U>

    ghost predicate Valid()
      reads this
    {
      a as object != b as object
    }

    ghost function Remaining(): seq<Pair<T, U>>
      reads a, b
    {
      ZipSeq(a.remaining, b.remaining)
    }

    constructor Zip(a: Iterator<T>, b: Iterator<U>)
      requires a as object != b as object
      ensures this.a == a && this.b == b && Valid()
      ensures Remaining() == ZipSeq(a.remaining, b.remaining)
    {
      this.a := a;
      this.b := b;
    }

    method Next() returns (x: Option<Pair<T, U>>)
      requires Valid()
      modifies a, b
      ensures Pulled(old(Remaining()), x, Remaining())
      ensures a.remaining == if old(a.remaining) == [] then [] else old(a.remaining)[1..]
      ensures b.remaining == if old(a.remaining) == [] || old(b.remaining) == [] then old(b.remaining) else old(b.remaining)[1..]
    {
      var y := a.Next();
      if y.None? {
        return None;
      }
      var z := b.Next();
      if z.None? {
        return None;
      }
      x := Some(Pair(y.value, z.value));
    }
  }

  // ================================================ terminal operations

  /** Find: the first element satisfying `fn`, consuming the iterator up to
      and including it; None, with the iterator drained, when there is none. */
  method Find<T>(it: Iterator<T>, fn: T -> bool) returns (r: Option<T>)
    modifies it
    ensures var s, k := old(it.remaining), FirstIndex(fn, old(it.remaining));
      if k < 0 then r == None && it.remaining == []
      else r == Some(s[k]) && it.remaining == s[k + 1..]
  {
    ghost var s := it.remaining;
    ghost var n := 0;
    while true
      invariant 0 <= n <= |s| && it.remaining == s[n..]
      invariant forall i :: 0 <= i < n ==> !fn(s[i])
      decreases |it.remaining|
    {
      var x := it.Next();
      if x.None? {
        return None;
      }
      n := n + 1;
      if fn(x.value) {
        return x;
      }
    }
  }

  /** FindIndex: the zero-based position of the first element satisfying
      `fn`, or -1; the iterator is consumed as by Find. */
  method FindIndex<T>(it: Iterator<T>, fn: T -> bool) returns (r: int)
    modifies it
    ensures r == FirstIndex(fn, old(it.remaining))
    ensures it.remaining == if r < 0 then [] else old(it.remaining)[r + 1..]
  {
    ghost var s := it.remaining;
    var i := 0;
    while true
      invariant 0 <= i <= |s| && it.remaining == s[i..]
      invariant forall j :: 0 <= j < i ==> !fn(s[j])
      decreases |it.remaining|
    {
      var x := it.Next();
      if x.None? {
        return -1;
      }
      if fn(x.value) {
        return i;
      }
      i := i + 1;
    }
  }

  /** FindElem: Find with the predicate "Equal to e". */
  method FindElem<T>(it: Iterator<T>, e: T, eq: Eq<T>) returns (r: Option<T>)
    modifies it
    ensures var s, k := old(it.remaining), FirstIndex(EqualTo(eq, e), old(it.remaining));
      if k < 0 then r == None && it.remaining == []
      else r == Some(s[k]) && eq.equal(s[k], e) && it.remaining == s[k + 1..]
  {
    r := Find(it, EqualTo(eq, e));
  }

  /** FindElemIndex: FindIndex with the predicate "Equal to e". */
  method FindElemIndex<T>(it: Iterator<T>, e: T, eq: Eq<T>) returns (r: int)
    modifies it
    ensures r == FirstIndex(EqualTo(eq, e), old(it.remaining))
    ensures it.remaining == if r < 0 then [] else old(it.remaining)[r + 1..]
  {
    r := FindIndex(it, EqualTo(eq, e));
  }

  /** Fold: the left fold of the iterator's elements; `init` when empty.
      The iterator is drained. */
  method Fold<A, T>(init: A, it: Iterator<T>, fn: (A, T) -> A) returns (acc: A)
    modifies it
    ensures acc == FoldLeft(fn, init, old(it.remaining))
    ensures it.remaining == []
  {
    acc := init;
    while true
      invariant FoldLeft(fn, acc, it.remaining) == FoldLeft(fn, init, old(it.remaining))
      decreases |it.remaining|
    {
      var x := it.Next();
      if x.None? {
        break;
      }
      acc := fn(acc, x.value);
    }
  }

  /** A Go callback `func(T)` run for its side effect; the model records
      the arguments of its calls, in order. */
  class Sink<T> {
    var calls: seq<T>

    constructor ()
      ensures calls == []
    {
      calls := [];
    }

    method Call(x: T)
      modifies this
      ensures calls == old(calls) + [x]
    {
      calls := calls + [x];
    }
  }

  /** ForEach: calls `fn` once per element, in iteration order. */
  method ForEach<T>(it: Iterator<T>, fn: Sink<T>)
    modifies it, fn
    ensures fn.calls == old(fn.calls) + old(it.remaining)
    ensures it.remaining == []
  {
    while true
      invariant fn.calls + it.remaining == old(fn.calls) + old(it.remaining)
      decreases |it.remaining|
    {
      var x := it.Next();
      if x.None? {
        break;
      }
      fn.Call(x.value);
    }
  }

  /** SumWithInit(s)(init, it) is Fold(init, it, s.Combine). */
  method SumWithInit<T>(s: Semigroup<T>, init: T, it: Iterator<T>) returns (r: T)
    modifies it
    ensures r == FoldLeft(s.combine, init, old(it.remaining))
    ensures it.remaining == []
  {
    r := Fold(init, it, s.combine);
  }

  /** Sum(m)(it) is SumWithInit(m)(m.Empty(), it): Empty() for an empty
      iterator. */
  method Sum<T(!new)>(m: Monoid<T>, it: Iterator<T>) returns (r: T)
    modifies it
    ensures r == FoldLeft(m.combine, m.empty(), old(it.remaining))
    ensures old(it.remaining) == [] ==> r == m.empty()
    ensures it.remaining == []
  {
    r := SumWithInit(AsSemigroup(m), m.empty(), it);
  }
}
