/** Semigroups and monoids: the algebra that Sum and SumWithInit reduce with.

    As in module Cmp, an interface value is a record of total functions. The
    additive and multiplicative instances are given for Go's `int` (read as
    a mathematical integer) and, for the additive case, for `string`. */
module Algebra {

  /** Semigroup[T]. The constructor is DefaultSemigroup: Combine delegates to
      its one field, CombineImpl. */
  datatype Semigroup<!T> = Semigroup(combine: (T, T) -> T)

  /** Monoid[T]: a Combine and an Empty. The constructor is the general case;
      DefaultMonoid below builds one from an embedded Semigroup. */
  datatype Monoid<!T> = Monoid(combine: (T, T) -> T, empty: () -> T)

  /** The law the Semigroup contract states and Go leaves unchecked. */
  ghost predicate Associative<T(!new)>(combine: (T, T) -> T) {
    forall x, y, z :: combine(combine(x, y), z) == combine(x, combine(y, z))
  }

  /** `e` is a two-sided identity of `combine`. */
  ghost predicate IsIdentity<T(!new)>(combine: (T, T) -> T, e: T) {
    forall x :: combine(e, x) == x && combine(x, e) == x
  }

  /** The Monoid laws: associative Combine with Empty() as identity. */
  ghost predicate IsMonoid<T(!new)>(m: Monoid<T>) {
    Associative(m.combine) && IsIdentity(m.combine, m.empty())
  }

  /** A Monoid used where a Semigroup is expected (`var s Semigroup[T] = m`). */
  function AsSemigroup<T(!new)>(m: Monoid<T>): (s: Semigroup<T>)
    ensures forall x, y :: s.combine(x, y) == m.combine(x, y)
  {
    Semigroup(m.combine)
  }

  /** DeriveAdditiveSemigroup[int]: Combine is `+`. */
  function AdditiveIntSemigroup(): (s: Semigroup<int>)
    ensures forall x, y :: s.combine(x, y) == x + y
    ensures Associative(s.combine)
  {
    Semigroup((x: int, y: int) => x + y)
  }

  lemma ConcatLaws()
    ensures Associative((x: string, y: string) => x + y)
    ensures IsIdentity((x: string, y: string) => x + y, "")
  {
    var c := (x: string, y: string) => x + y;
    forall x: string, y: string, z: string ensures c(c(x, y), z) == c(x, c(y, z)) {
      assert (x + y) + z == x + (y + z);
    }
    forall x: string ensures c("", x) == x && c(x, "") == x {
      assert "" + x == x && x + "" == x;
    }
  }

  /** DeriveAdditiveSemigroup[string]: Combine is concatenation. */
  function AdditiveStringSemigroup(): (s: Semigroup<string>)
    ensures forall x, y :: s.combine(x, y) == x + y
    ensures Associative(s.combine)
  {
    ConcatLaws();
    Semigroup((x: string, y: string) => x + y)
  }

  /** DeriveMultiplicativeSemigroup[int]: Combine is `*`. */
  function MultiplicativeIntSemigroup(): (s: Semigroup<int>)
    ensures forall x, y :: s.combine(x, y) == x * y
    ensures Associative(s.combine)
  {
    var s := Semigroup((x: int, y: int) => x * y);
    assert Associative(s.combine) by {
      forall x, y, z ensures s.combine(s.combine(x, y), z) == s.combine(x, s.combine(y, z)) {
        assert (x * y) * z == x * (y * z);
      }
    }
    s
  }

  /** DeriveAdditiveMonoid[int]: `+` with the zero value 0. */
  function AdditiveIntMonoid(): (m: Monoid<int>)
    ensures forall x, y :: m.combine(x, y) == x + y
    ensures m.empty() == 0
    ensures IsMonoid(m)
  {
    Monoid((x: int, y: int) => x + y, () => 0)
  }

  /** DeriveAdditiveMonoid[string]: concatenation with the zero value "". */
  function AdditiveStringMonoid(): (m: Monoid<string>)
    ensures forall x, y :: m.combine(x, y) == x + y
    ensures m.empty() == ""
    ensures IsMonoid(m)
  {
    ConcatLaws();
    Monoid((x: string, y: string) => x + y, () => "")
  }

  /** DeriveMultiplicativeMonoid[int]: `*` with 1. */
  function MultiplicativeIntMonoid(): (m: Monoid<int>)
    ensures forall x, y :: m.combine(x, y) == x * y
    ensures m.empty() == 1
    ensures IsMonoid(m)
  {
    var s := MultiplicativeIntSemigroup();
    Monoid(s.combine, () => 1)
  }

  /** DefaultMonoid: Combine is the embedded Semigroup's, Empty delegates to
      EmptyImpl; the monoid laws hold as soon as the semigroup is associative
      and EmptyImpl() is its identity. */
  function DefaultMonoid<T(!new)>(s: Semigroup<T>, emptyImpl: () -> T): (m: Monoid<T>)
    ensures forall x, y :: m.combine(x, y) == s.combine(x, y)
    ensures m.empty() == emptyImpl()
    ensures Associative(s.combine) && IsIdentity(s.combine, emptyImpl()) ==> IsMonoid(m)
  {
    Monoid(s.combine, emptyImpl)
  }
}
