/** Slice[T]: a Go slice with an iterator over it and a constructor from
    an iterator. The slice is a value here (`seq<T>`): the iterator only
    ever reads it, and the model takes its contents as they are when the
    iterator is made. */
module Slices {
  import opened Options
  import opened Iterators

  /** The step FromIterator folds with: append one element. */
  function Append<T>(xs: seq<T>, x: T): (r: seq<T>)
    ensures |r| == |xs| + 1 && r[..|xs|] == xs && r[|xs|] == x
  {
    xs + [x]
  }

  /** Folding with Append from `acc` concatenates: the fold collects the
      elements in the order they come. */
  lemma {:induction false} FoldAppendIsConcat<T>(acc: seq<T>, s: seq<T>)
    ensures FoldLeft(Append, acc, s) == acc + s
    decreases |s|
  {
    if s != [] {
      FoldAppendIsConcat(acc + [s[0]], s[1..]);
      assert (acc + [s[0]]) + s[1..] == acc + s;
    }
  }

  /** FromIterator: a Fold with Append starting from the empty slice. The
      slice holds exactly the iterator's elements, in order, and the
      iterator is drained. */
  method FromIterator<T>(it: Iterator<T>) returns (xs: seq<T>)
    modifies it
    ensures xs == old(it.remaining)
    ensures it.remaining == []
  {
    xs := Fold([], it, Append);
    FoldAppendIsConcat([], old(it.remaining));
  }

  /** Slice.Iter: `next` is the position of the next element to yield. */
  class SliceIterator<T> {
    const xs: seq<T>
    var next: int

    /** The cursor stays within the slice. */
    ghost predicate Valid()
      reads this
    {
      0 <= next <= |xs|
    }

    ghost function Remaining(): seq<T>
      requires Valid()
      reads this
    {
      xs[next..]
    }

    constructor Iter(xs: seq<T>)
      ensures this.xs == xs && next == 0
      ensures Valid() && Remaining() == xs
    {
      this.xs := xs;
      next := 0;
    }

    method Next() returns (x: Option<T>)
      requires Valid()
      modifies this
      ensures Valid()
      ensures Pulled(old(Remaining()), x, Remaining())
      ensures x.Some? ==> old(next) < |xs| && x.value == xs[old(next)] && next == old(next) + 1
      ensures x.None? ==> |xs| <= next == old(next)
    {
      if |xs| <= next {
        return None;
      }
      var i := next;
      next := next + 1;
      x := Some(xs[i]);
    }
  }
}
