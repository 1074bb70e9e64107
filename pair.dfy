/** Pairs and the instances derived for them from instances of their
    components: component-wise Eq, Semigroup and Monoid, lexicographic Ord.

    The `Ptr` variants work on a heap cell holding a pair (Go's `*Pair`):
    their Eq and Ord read the cells, and their Combine and Empty allocate a
    fresh cell and leave their arguments untouched. */
module Pairs {
  import opened Cmp
  import opened Algebra

  /** Pair[T, U]: exactly two values. */
  datatype Pair<T, U> = Pair(first: T, second: U) {

    /** Values: both components, first then second. */
    function Values(): (v: (T, U))
      ensures v.0 == first && v.1 == second
      ensures Pair(v.0, v.1) == this
    {
      (first, second)
    }
  }

  // ---------------------------------------------------------------- Eq

  /** DerivePairEq: equal exactly when both components are equal. */
  function DerivePairEq<T(!new), U(!new)>(et: Eq<T>, eu: Eq<U>): (e: Eq<Pair<T, U>>)
    ensures forall p, q :: e.equal(p, q) <==> et.equal(p.first, q.first) && eu.equal(p.second, q.second)
    ensures IsEquivalence(et) && IsEquivalence(eu) ==> IsEquivalence(e)
  {
    Eq((p: Pair<T, U>, q: Pair<T, U>) => et.equal(p.first, q.first) && eu.equal(p.second, q.second))
  }

  // ---------------------------------------------------------------- Ord

  /** The CompareImpl of DerivePairOrd: the first components decide unless
      they compare EQ, and then the second components decide. (Go's switch
      panics on an Ordering other than the three constants; a value of
      Ordering here is always one of them, so that case does not arise.) */
  function LexCompare<T, U>(ct: (T, T) -> Ordering, cu: (U, U) -> Ordering,
                            p: Pair<T, U>, q: Pair<T, U>): (r: Ordering)
    ensures r == EQ <==> ct(p.first, q.first) == EQ && cu(p.second, q.second) == EQ
    ensures r == LT <==> ct(p.first, q.first) == LT || (ct(p.first, q.first) == EQ && cu(p.second, q.second) == LT)
    ensures r == GT <==> ct(p.first, q.first) == GT || (ct(p.first, q.first) == EQ && cu(p.second, q.second) == GT)
  {
    match ct(p.first, q.first)
    case LT => LT
    case EQ => cu(p.second, q.second)
    case GT => GT
  }

  /** The lexicographic order of two total orders is a total order. */
  lemma LexCompareIsTotalOrder<T(!new), U(!new)>(ct: (T, T) -> Ordering, cu: (U, U) -> Ordering)
    requires IsTotalOrder(ct) && IsTotalOrder(cu)
    ensures IsTotalOrder((p: Pair<T, U>, q: Pair<T, U>) => LexCompare(ct, cu, p, q))
  {
    var c := (p: Pair<T, U>, q: Pair<T, U>) => LexCompare(ct, cu, p, q);
    forall p: Pair<T, U>, q: Pair<T, U> ensures c(p, q) == EQ <==> p == q {
      if c(p, q) == EQ {
        assert p.first == q.first && p.second == q.second;
      }
    }
    forall p: Pair<T, U>, q: Pair<T, U>, r: Pair<T, U> | c(p, q) == LT && c(q, r) == LT
      ensures c(p, r) == LT
    {
      var a, b := ct(p.first, q.first), ct(q.first, r.first);
      if a == EQ && b == EQ {
        assert p.first == q.first == r.first;
      } else if a == EQ {
        assert p.first == q.first;
      } else if b == EQ {
        assert q.first == r.first;
      }
    }
  }

  /** DerivePairOrd: a DefaultOrd over LexCompare of the components'
      Compare. It is a total order whenever both components' are. */
  function DerivePairOrd<T(!new), U(!new)>(ot: Ord<T>, ou: Ord<U>): (o: Ord<Pair<T, U>>)
    ensures forall p, q :: o.compare(p, q) == LexCompare(ot.compare, ou.compare, p, q)
    ensures Coherent(o)
    ensures IsTotalOrder(ot.compare) && IsTotalOrder(ou.compare) ==> IsTotalOrder(o.compare)
  {
    var c := (p: Pair<T, U>, q: Pair<T, U>) => LexCompare(ot.compare, ou.compare, p, q);
    assert IsTotalOrder(ot.compare) && IsTotalOrder(ou.compare) ==> IsTotalOrder(c) by {
      if IsTotalOrder(ot.compare) && IsTotalOrder(ou.compare) {
        LexCompareIsTotalOrder(ot.compare, ou.compare);
      }
    }
    DefaultOrd(c)
  }

  // ------------------------------------------------- Semigroup / Monoid

  /** The CombineImpl of DerivePairSemigroup: component-wise. */
  function PairCombine<T, U>(ct: (T, T) -> T, cu: (U, U) -> U, p: Pair<T, U>, q: Pair<T, U>): (r: Pair<T, U>)
    ensures r.first == ct(p.first, q.first) && r.second == cu(p.second, q.second)
  {
    Pair(ct(p.first, q.first), cu(p.second, q.second))
  }

  /** Associativity lifts from the components to the pair. */
  lemma PairCombineAssociative<T(!new), U(!new)>(ct: (T, T) -> T, cu: (U, U) -> U)
    requires Associative(ct) && Associative(cu)
    ensures Associative((p: Pair<T, U>, q: Pair<T, U>) => PairCombine(ct, cu, p, q))
  {
    var c := (p: Pair<T, U>, q: Pair<T, U>) => PairCombine(ct, cu, p, q);
    forall p: Pair<T, U>, q: Pair<T, U>, r: Pair<T, U> ensures c(c(p, q), r) == c(p, c(q, r)) {
      assert ct(ct(p.first, q.first), r.first) == ct(p.first, ct(q.first, r.first));
      assert cu(cu(p.second, q.second), r.second) == cu(p.second, cu(q.second, r.second));
    }
  }

  /** Identities lift from the components to the pair. */
  lemma PairCombineIdentity<T(!new), U(!new)>(ct: (T, T) -> T, cu: (U, U) -> U, et: T, eu: U)
    requires IsIdentity(ct, et) && IsIdentity(cu, eu)
    ensures IsIdentity((p: Pair<T, U>, q: Pair<T, U>) => PairCombine(ct, cu, p, q), Pair(et, eu))
  {
    var c := (p: Pair<T, U>, q: Pair<T, U>) => PairCombine(ct, cu, p, q);
    forall p: Pair<T, U> ensures c(Pair(et, eu), p) == p && c(p, Pair(et, eu)) == p {
      assert ct(et, p.first) == p.first && ct(p.first, et) == p.first;
      assert cu(eu, p.second) == p.second && cu(p.second, eu) == p.second;
    }
  }

  /** DerivePairSemigroup: combines component-wise; associative whenever
      both components are. */
  function DerivePairSemigroup<T(!new), U(!new)>(st: Semigroup<T>, su: Semigroup<U>): (s: Semigroup<Pair<T, U>>)
    ensures forall p, q :: s.combine(p, q) == Pair(st.combine(p.first, q.first), su.combine(p.second, q.second))
    ensures Associative(st.combine) && Associative(su.combine) ==> Associative(s.combine)
  {
    var c := (p: Pair<T, U>, q: Pair<T, U>) => PairCombine(st.combine, su.combine, p, q);
    assert Associative(st.combine) && Associative(su.combine) ==> Associative(c) by {
      if Associative(st.combine) && Associative(su.combine) {
        PairCombineAssociative(st.combine, su.combine);
      }
    }
    Semigroup(c)
  }

  /** DerivePairMonoid: the pair semigroup of the components with Empty()
      the pair of the components' Empty(); a monoid whenever both
      components are. */
  function DerivePairMonoid<T(!new), U(!new)>(mt: Monoid<T>, mu: Monoid<U>): (m: Monoid<Pair<T, U>>)
    ensures forall p, q :: m.combine(p, q) == Pair(mt.combine(p.first, q.first), mu.combine(p.second, q.second))
    ensures m.empty() == Pair(mt.empty(), mu.empty())
    ensures IsMonoid(mt) && IsMonoid(mu) ==> IsMonoid(m)
  {
    var s := DerivePairSemigroup(AsSemigroup(mt), AsSemigroup(mu));
    var e := () => Pair(mt.empty(), mu.empty());
    assert IsMonoid(mt) && IsMonoid(mu) ==> IsIdentity(s.combine, e()) by {
      if IsMonoid(mt) && IsMonoid(mu) {
        PairCombineIdentity(mt.combine, mu.combine, mt.empty(), mu.empty());
      }
    }
    DefaultMonoid(s, e)
  }

  // ------------------------------------------------------- Ptr variants

  /** A heap cell holding a pair: Go's `*Pair[T, U]`. */
  class PairRef<T, U> {
    var first: T
    var second: U

    constructor (first: T, second: U)
      ensures this.first == first && this.second == second
    {
      this.first := first;
      this.second := second;
    }

    /** The pair the cell currently holds. */
    function Value(): (p: Pair<T, U>)
      reads this
      ensures p.first == first && p.second == second
    {
      Pair(first, second)
    }
  }

  /** The EqualImpl of DerivePtrPairEq: the value-pair equality of what the
      two cells hold. */
  function PtrPairEqual<T(!new), U(!new)>(et: Eq<T>, eu: Eq<U>, p: PairRef<T, U>, q: PairRef<T, U>): (b: bool)
    reads p, q
    ensures b == DerivePairEq(et, eu).equal(p.Value(), q.Value())
  {
    et.equal(p.first, q.first) && eu.equal(p.second, q.second)
  }

  /** The CompareImpl of DerivePtrPairOrd: the value-pair order of what the
      two cells hold (the six predicates follow from it as in DefaultOrd). */
  function PtrPairCompare<T(!new), U(!new)>(ot: Ord<T>, ou: Ord<U>, p: PairRef<T, U>, q: PairRef<T, U>): (r: Ordering)
    reads p, q
    ensures r == DerivePairOrd(ot, ou).compare(p.Value(), q.Value())
  {
    match ot.compare(p.first, q.first)
    case LT => LT
    case EQ => ou.compare(p.second, q.second)
    case GT => GT
  }

  /** The Combine of DerivePtrPairSemigroup: a fresh cell holding the
      value-pair combination; neither argument is written. */
  method PtrPairCombine<T(!new), U(!new)>(st: Semigroup<T>, su: Semigroup<U>, p: PairRef<T, U>, q: PairRef<T, U>)
    returns (r: PairRef<T, U>)
    ensures fresh(r)
    ensures r.Value() == DerivePairSemigroup(st, su).combine(p.Value(), q.Value())
  {
    r := new PairRef(st.combine(p.first, q.first), su.combine(p.second, q.second));
  }

  /** The Empty of DerivePtrPairMonoid: a fresh cell holding the value-pair
      Empty(). */
  method PtrPairEmpty<T(!new), U(!new)>(mt: Monoid<T>, mu: Monoid<U>) returns (r: PairRef<T, U>)
    ensures fresh(r)
    ensures r.Value() == DerivePairMonoid(mt, mu).empty()
  {
    r := new PairRef(mt.empty(), mu.empty());
  }

  /** The Combine of DerivePtrPairMonoid is the pointer semigroup's on the
      components viewed as semigroups. */
  method PtrPairMonoidCombine<T(!new), U(!new)>(mt: Monoid<T>, mu: Monoid<U>, p: PairRef<T, U>, q: PairRef<T, U>)
    returns (r: PairRef<T, U>)
    ensures fresh(r)
    ensures r.Value() == DerivePairMonoid(mt, mu).combine(p.Value(), q.Value())
  {
    r := PtrPairCombine(AsSemigroup(mt), AsSemigroup(mu), p, q);
  }
}
