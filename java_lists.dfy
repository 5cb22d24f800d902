/**
 * java.util.List.removeIf on a list value: the elements the predicate rejects stay, in order.
 */
module JavaLists {

  function RemoveIf<T>(xs: seq<T>, remove: T -> bool): (kept: seq<T>)
    ensures |kept| <= |xs|
  {
    if |xs| == 0 then []
    else RemoveIf(xs[..|xs| - 1], remove) + (if remove(xs[|xs| - 1]) then [] else [xs[|xs| - 1]])
  }

  lemma RemoveIfSnoc<T>(xs: seq<T>, x: T, remove: T -> bool)
    ensures RemoveIf(xs + [x], remove) == RemoveIf(xs, remove) + (if remove(x) then [] else [x])
  {
    assert (xs + [x])[..|xs|] == xs;
  }

  /** An element is kept iff it was there and the predicate does not remove it. */
  lemma {:induction false} RemoveIfMembers<T>(xs: seq<T>, remove: T -> bool)
    ensures forall x :: x in RemoveIf(xs, remove) <==> x in xs && !remove(x)
    decreases |xs|
  {
    if |xs| > 0 {
      var init := xs[..|xs| - 1];
      RemoveIfMembers(init, remove);
      assert xs == init + [xs[|xs| - 1]];
    }
  }

  /** removeIf decides element by element, so what is kept keeps its relative order. */
  lemma {:induction false} RemoveIfAppend<T>(a: seq<T>, b: seq<T>, remove: T -> bool)
    ensures RemoveIf(a + b, remove) == RemoveIf(a, remove) + RemoveIf(b, remove)
    decreases |b|
  {
    if |b| == 0 {
      assert a + b == a;
    } else {
      var init := b[..|b| - 1];
      var last := b[|b| - 1];
      RemoveIfAppend(a, init, remove);
      assert a + b == (a + init) + [last];
      assert b == init + [last];
      RemoveIfSnoc(a + init, last, remove);
      RemoveIfSnoc(init, last, remove);
    }
  }

  /** A predicate that removes nothing leaves the list as it was. */
  lemma {:induction false} RemoveIfNothing<T>(xs: seq<T>, remove: T -> bool)
    requires forall i :: 0 <= i < |xs| ==> !remove(xs[i])
    ensures RemoveIf(xs, remove) == xs
    decreases |xs|
  {
    if |xs| > 0 {
      RemoveIfNothing(xs[..|xs| - 1], remove);
    }
  }
}
