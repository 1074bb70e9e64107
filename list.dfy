/** List[T]: an immutable singly linked list; Go's nil pointer is Nil. No
    operation of the package writes a node after building it, so a node is
    a value. */
module Lists {
  import opened Options
  import opened Iterators

  datatype List<T> = Nil | Cons(head: T, tail: List<T>)

  /** The elements of a list, from the head. */
  function Elems<T>(l: List<T>): seq<T>
  {
    match l
    case Nil => []
    case Cons(h, t) => [h] + Elems(t)
  }

  /** The elements of `s` in the opposite order. */
  function Reverse<T>(s: seq<T>): (r: seq<T>)
    ensures |r| == |s|
    ensures forall i :: 0 <= i < |s| ==> r[i] == s[|s| - 1 - i]
  {
    if s == [] then [] else [s[|s| - 1]] + Reverse(s[..|s| - 1])
  }

  /** Reversing twice gives the sequence back. */
  lemma ReverseInvolutive<T>(s: seq<T>)
    ensures Reverse(Reverse(s)) == s
  {
    assert forall i :: 0 <= i < |s| ==> Reverse(Reverse(s))[i] == s[i];
  }

  /** NewList(xs...): built from the last element to the first, so the list
      holds xs in order. */
  method NewList<T>(xs: seq<T>) returns (l: List<T>)
    ensures Elems(l) == xs
  {
    l := Nil;
    var i := |xs| - 1;
    while i >= 0
      invariant -1 <= i < |xs|
      invariant Elems(l) == xs[i + 1..]
    {
      assert xs[i..] == [xs[i]] + xs[i + 1..];
      l := Cons(xs[i], l);
      i := i - 1;
    }
  }

  /** FromIterator as written: each element pulled is put in front of the
      list built so far, so the list holds the elements in reverse. */
  method FromIterator<T>(it: Iterator<T>) returns (l: List<T>)
    modifies it
    ensures Elems(l) == Reverse(old(it.remaining))
    ensures it.remaining == []
  {
    ghost var s := it.remaining;
    ghost var n := 0;
    l := Nil;
    while true
      invariant 0 <= n <= |s| && it.remaining == s[n..]
      invariant Elems(l) == Reverse(s[..n])
      decreases |it.remaining|
    {
      var x := it.Next();
      if x.None? {
        assert s[..n] == s;
        break;
      }
      assert s[..n + 1][..n] == s[..n];
      l := Cons(x.value, l);
      n := n + 1;
    }
  }

  /** The input that separates FromIterator from the order-preserving
      behaviour its callers expect: two distinct elements come back
      swapped. */
  lemma FromIteratorReversesTwo()
    ensures Reverse([2, 3]) == [3, 2] != [2, 3]
  {
    assert Reverse([2, 3])[0] == 3;
  }

  /** FromIterator keeping the iteration order: the elements are collected
      first and the list is then built back to front, as NewList does. */
  method FromIteratorInOrder<T>(it: Iterator<T>) returns (l: List<T>)
    modifies it
    ensures Elems(l) == old(it.remaining)
    ensures it.remaining == []
  {
    ghost var s := it.remaining;
    var xs: seq<T> := [];
    while true
      invariant xs + it.remaining == s
      decreases |it.remaining|
    {
      var x := it.Next();
      if x.None? {
        break;
      }
      xs := xs + [x.value];
    }
    l := NewList(xs);
  }

  /** List.Iter: `cur` is the rest of the list still to yield. */
  class ListIterator<T> {
    var cur: List<T>

    ghost function Remaining(): seq<T>
      reads this
    {
      Elems(cur)
    }

    constructor Iter(xs: List<T>)
      ensures cur == xs
      ensures Remaining() == Elems(xs)
    {
      cur := xs;
    }

    method Next() returns (x: Option<T>)
      modifies this
      ensures Pulled(old(Remaining()), x, Remaining())
      ensures old(cur).Cons? ==> x == Some(old(cur).head) && cur == old(cur).tail
      ensures old(cur).Nil? ==> x == None && cur == Nil
    {
      match cur
      case Nil =>
        x := None;
      case Cons(h, t) =>
        cur := t;
        x := Some(h);
    }
  }
}
