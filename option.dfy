/** Option: a zero-or-one value. Go represents it as a pointer that is nil
    for None and points at the value for Some; nothing is ever written
    through that pointer, so the model is a datatype. The same datatype is
    used for the `(T, bool)` pair an iterator's Next returns:
    `Some(x)` is `(x, true)` and `None` is `(zero value, false)`. */
module Options {

  datatype Option<T> = None | Some(value: T)

  /** IsSome: true exactly for a value built by Some. */
  function IsSome<T>(x: Option<T>): (b: bool)
    ensures b <==> x.Some?
  {
    x != None
  }

  /** Equal: both None, or both Some holding `==` values. */
  function Equal<T(==)>(x: Option<T>, y: Option<T>): (b: bool)
    ensures x.None? && y.None? ==> b
    ensures x.None? != y.None? ==> !b
    ensures x.Some? && y.Some? ==> (b <==> x.value == y.value)
    ensures b <==> x == y
  {
    if x.None? && y.None? then true
    else if x.None? || y.None? then false
    else x.value == y.value
  }

  /** Equal is an equivalence relation. */
  lemma EqualIsEquivalence<T>(x: Option<T>, y: Option<T>, z: Option<T>)
    ensures Equal(x, x)
    ensures Equal(x, y) == Equal(y, x)
    ensures Equal(x, y) && Equal(y, z) ==> Equal(x, z)
  {
  }

  /** Unwrap: the held value. Go panics on None; calling it on None is a
      programmer error, so it is a precondition here. */
  function Unwrap<T>(x: Option<T>): (v: T)
    requires x.Some?
    ensures Some(v) == x
  {
    x.value
  }

  /** UnwrapOr: the held value, or `def` for None. */
  function UnwrapOr<T>(x: Option<T>, def: T): (v: T)
    ensures x == Some(v) || (x == None && v == def)
  {
    if x.None? then def else x.value
  }

  /** A Go closure `func() T` with a side effect: each call may answer
      differently (by `gen` of the number of earlier calls), and the model
      counts the calls. */
  class Thunk<T> {
    const gen: nat -> T
    var calls: nat

    constructor (gen: nat -> T)
      ensures this.gen == gen && calls == 0
    {
      this.gen := gen;
      calls := 0;
    }

    method Call() returns (v: T)
      modifies this
      ensures v == gen(old(calls)) && calls == old(calls) + 1
    {
      v := gen(calls);
      calls := calls + 1;
    }
  }

  /** UnwrapOrElse: the held value, or the result of calling `def` for None.
      `def` is called exactly once for None and never for Some. */
  method UnwrapOrElse<T>(x: Option<T>, def: Thunk<T>) returns (v: T)
    modifies def
    ensures x.Some? ==> v == x.value && def.calls == old(def.calls)
    ensures x.None? ==> v == def.gen(old(def.calls)) && def.calls == old(def.calls) + 1
  {
    if x.None? {
      v := def.Call();
    } else {
      v := x.value;
    }
  }
}
