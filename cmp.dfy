/** Comparison vocabulary of the library: the three-valued Ordering and the
    Eq and Ord capabilities.

    A Go interface value holding closures (DefaultEq, DefaultOrd) or a method
    set (derivedEq, derivedOrd) is modelled as a record of total functions:
    the record's fields are the interface's methods. */
module Cmp {

  /** The result of a three-way comparison. */
  datatype Ordering = LT | EQ | GT

  /** The integer value Go gives each constant (declared with iota). */
  function Code(o: Ordering): (n: int)
    ensures 0 <= n <= 2
    ensures n == 0 <==> o == LT
    ensures n == 1 <==> o == EQ
    ensures n == 2 <==> o == GT
  {
    match o
    case LT => 0
    case EQ => 1
    case GT => 2
  }

  /** The Go-syntax name of a named Ordering constant. */
  function GoString(o: Ordering): (s: string)
    ensures o == LT ==> s == "LT"
    ensures o == EQ ==> s == "EQ"
    ensures o == GT ==> s == "GT"
  {
    match o
    case LT => "LT"
    case EQ => "EQ"
    case GT => "GT"
  }

  /** Distinct constants print as distinct names, so GoString names each
      constant by exactly one of the three strings. */
  lemma GoStringInjective(a: Ordering, b: Ordering)
    ensures GoString(a) == GoString(b) <==> a == b
  {
    if a != b {
      assert GoString(a)[1] != GoString(b)[1] || GoString(a)[0] != GoString(b)[0];
    }
  }

  // ---------------------------------------------------------------- Eq

  /** Eq[T]: an equality test. The constructor is DefaultEq: its one field
      is DefaultEq's EqualImpl, to which Equal delegates. */
  datatype Eq<-T> = Eq(equal: (T, T) -> bool)

  /** The laws the Eq contract asks of Equal (not enforced by Go). */
  ghost predicate IsEquivalence<T(!new)>(e: Eq<T>) {
    && (forall x :: e.equal(x, x))
    && (forall x, y :: e.equal(x, y) ==> e.equal(y, x))
    && (forall x, y, z :: e.equal(x, y) && e.equal(y, z) ==> e.equal(x, z))
  }

  /** DeriveEq: equality by Go's `==`. */
  function DeriveEq<T(==,!new)>(): (e: Eq<T>)
    ensures forall x, y :: e.equal(x, y) <==> x == y
    ensures IsEquivalence(e)
  {
    Eq((x: T, y: T) => x == y)
  }

  // ---------------------------------------------------------------- Ord

  /** Ord[T]: a three-way comparison and the six predicates Go's interface
      declares beside it. */
  datatype Ord<-T> = Ord(
    compare: (T, T) -> Ordering,
    lt: (T, T) -> bool,
    le: (T, T) -> bool,
    gt: (T, T) -> bool,
    ge: (T, T) -> bool,
    eq: (T, T) -> bool,
    ne: (T, T) -> bool)

  /** The six predicates say what Compare says: Lt is LT, Le is LT or EQ,
      Gt is GT, Ge is GT or EQ, Eq is EQ and Ne is not EQ. */
  ghost predicate Coherent<T(!new)>(o: Ord<T>) {
    forall x, y ::
      && (o.lt(x, y) <==> o.compare(x, y) == LT)
      && (o.le(x, y) <==> o.compare(x, y) == LT || o.compare(x, y) == EQ)
      && (o.gt(x, y) <==> o.compare(x, y) == GT)
      && (o.ge(x, y) <==> o.compare(x, y) == GT || o.compare(x, y) == EQ)
      && (o.eq(x, y) <==> o.compare(x, y) == EQ)
      && (o.ne(x, y) <==> o.compare(x, y) != EQ)
  }

  /** What the Ord contract asks of Compare: EQ exactly on equal values,
      LT one way exactly when GT the other way, and LT transitive. */
  ghost predicate IsTotalOrder<T(!new)>(compare: (T, T) -> Ordering) {
    && (forall x, y :: compare(x, y) == EQ <==> x == y)
    && (forall x, y :: compare(x, y) == LT <==> compare(y, x) == GT)
    && (forall x, y, z :: compare(x, y) == LT && compare(y, z) == LT ==> compare(x, z) == LT)
  }

  /** DefaultOrd: Compare delegates to CompareImpl and the six predicates
      are derived from it. */
  function DefaultOrd<T(!new)>(compareImpl: (T, T) -> Ordering): (o: Ord<T>)
    ensures forall x, y :: o.compare(x, y) == compareImpl(x, y)
    ensures Coherent(o)
    ensures forall x, y :: o.ne(x, y) == !o.eq(x, y)
  {
    Ord(compareImpl,
        (x: T, y: T) => compareImpl(x, y) == LT,
        (x: T, y: T) => var r := compareImpl(x, y); r == LT || r == EQ,
        (x: T, y: T) => compareImpl(x, y) == GT,
        (x: T, y: T) => var r := compareImpl(x, y); r == GT || r == EQ,
        (x: T, y: T) => compareImpl(x, y) == EQ,
        (x: T, y: T) => compareImpl(x, y) != EQ)
  }

  /** derivedOrd's Compare on integers: LT if x < y, else EQ if x == y,
      else GT. */
  function IntCompare(x: int, y: int): (r: Ordering)
    ensures r == LT <==> x < y
    ensures r == EQ <==> x == y
    ensures r == GT <==> x > y
  {
    if x < y then LT else if x == y then EQ else GT
  }

  /** DeriveOrd[int]: Compare as above, and each predicate by Go's own
      operator (`<`, `<=`, `>`, `>=`, `==`, `!=`), not through Compare. */
  function DeriveIntOrd(): (o: Ord<int>)
    ensures forall x, y :: o.compare(x, y) == IntCompare(x, y)
    ensures Coherent(o)
    ensures IsTotalOrder(o.compare)
  {
    Ord(IntCompare,
        (x: int, y: int) => x < y,
        (x: int, y: int) => x <= y,
        (x: int, y: int) => x > y,
        (x: int, y: int) => x >= y,
        (x: int, y: int) => x == y,
        (x: int, y: int) => x != y)
  }

  /** A DefaultOrd built on the three-way integer comparator answers every
      predicate as DeriveOrd[int] does: the two Ord implementations are
      interchangeable. */
  lemma DefaultOrdAgreesWithDerived(x: int, y: int)
    ensures var d, o := DefaultOrd(IntCompare), DeriveIntOrd();
      && d.compare(x, y) == o.compare(x, y)
      && d.lt(x, y) == o.lt(x, y) && d.le(x, y) == o.le(x, y)
      && d.gt(x, y) == o.gt(x, y) && d.ge(x, y) == o.ge(x, y)
      && d.eq(x, y) == o.eq(x, y) && d.ne(x, y) == o.ne(x, y)
  {
    var d, o := DefaultOrd(IntCompare), DeriveIntOrd();
    assert d.compare(x, y) == IntCompare(x, y);
  }

  // ------------------------------------------------------- string order

  /** Go's `<` on strings: lexicographic, a proper prefix first. (Go compares
      UTF-8 bytes; for valid text that is the order of code points.) */
  function StringLess(a: string, b: string): bool
  {
    if a == [] then b != []
    else if b == [] then false
    else if a[0] != b[0] then a[0] < b[0]
    else StringLess(a[1..], b[1..])
  }

  lemma {:induction false} StringLessIrreflexive(a: string)
    ensures !StringLess(a, a)
  {
    if a != [] { StringLessIrreflexive(a[1..]); }
  }

  lemma {:induction false} StringLessTrichotomy(a: string, b: string)
    ensures a == b || StringLess(a, b) || StringLess(b, a)
  {
    if a != [] && b != [] && a[0] == b[0] {
      StringLessTrichotomy(a[1..], b[1..]);
      if a[1..] == b[1..] {
        assert a == [a[0]] + a[1..] && b == [b[0]] + b[1..];
      }
    }
  }

  lemma {:induction false} StringLessAsymmetric(a: string, b: string)
    ensures StringLess(a, b) ==> !StringLess(b, a)
  {
    if a != [] && b != [] && a[0] == b[0] {
      StringLessAsymmetric(a[1..], b[1..]);
    }
  }

  lemma {:induction false} StringLessTransitive(a: string, b: string, c: string)
    requires StringLess(a, b) && StringLess(b, c)
    ensures StringLess(a, c)
  {
    if a != [] && b != [] && c != [] && a[0] == b[0] && b[0] == c[0] {
      StringLessTransitive(a[1..], b[1..], c[1..]);
    }
  }

  /** derivedOrd's Compare on strings. */
  function StringCompare(x: string, y: string): (r: Ordering)
    ensures r == LT <==> StringLess(x, y)
    ensures r == EQ <==> x == y
    ensures r == GT <==> StringLess(y, x)
  {
    StringLessIrreflexive(x);
    StringLessTrichotomy(x, y);
    StringLessAsymmetric(x, y);
    if StringLess(x, y) then LT else if x == y then EQ else GT
  }

  /** Compare on strings is a total order, as the Ord contract asks. */
  lemma StringCompareIsTotalOrder()
    ensures IsTotalOrder(StringCompare)
  {
    forall x, y, z | StringCompare(x, y) == LT && StringCompare(y, z) == LT
      ensures StringCompare(x, z) == LT
    {
      StringLessTransitive(x, y, z);
    }
  }

  /** DeriveOrd[string]: each predicate by Go's operator on strings. */
  function DeriveStringOrd(): (o: Ord<string>)
    ensures forall x, y :: o.compare(x, y) == StringCompare(x, y)
    ensures Coherent(o)
    ensures IsTotalOrder(o.compare)
  {
    StringCompareIsTotalOrder();
    Ord(StringCompare,
        (x: string, y: string) => StringLess(x, y),
        (x: string, y: string) => StringLess(x, y) || x == y,
        (x: string, y: string) => StringLess(y, x),
        (x: string, y: string) => StringLess(y, x) || x == y,
        (x: string, y: string) => x == y,
        (x: string, y: string) => x != y)
  }
}
