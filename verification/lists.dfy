/** Sequence operations shared by the dialogs' "Remove" buttons. */
module Lists {

  /** `xs.filter((_, i) => i !== index)`: keeps every element whose position
      differs from `index`, in order. */
  function RemoveIndex<T>(xs: seq<T>, index: int): (r: seq<T>)
    ensures 0 <= index < |xs| ==> r == xs[..index] + xs[index + 1..]
    ensures !(0 <= index < |xs|) ==> r == xs
  {
    if xs == [] then []
    else
      var last := |xs| - 1;
      RemoveIndex(xs[..last], index) + (if last == index then [] else [xs[last]])
  }

  /** Removing one position drops the length by exactly one and keeps the
      survivors in their original order. */
  lemma RemoveIndexShape<T>(xs: seq<T>, index: int)
    requires 0 <= index < |xs|
    ensures |RemoveIndex(xs, index)| == |xs| - 1
    ensures forall j | 0 <= j < index :: RemoveIndex(xs, index)[j] == xs[j]
    ensures forall j | index <= j < |xs| - 1 :: RemoveIndex(xs, index)[j] == xs[j + 1]
  {
  }

  /** Taking one matching element out of two permutations of each other
      leaves permutations of each other. */
  lemma MultisetRemoveMatching<T>(xs: seq<T>, ys: seq<T>, j: int)
    requires multiset(xs) == multiset(ys)
    requires |xs| > 0 && 0 <= j < |ys| && ys[j] == xs[|xs| - 1]
    ensures multiset(xs[..|xs| - 1]) == multiset(RemoveIndex(ys, j))
  {
    var last := |xs| - 1;
    MultisetWithout(xs, last);
    MultisetWithout(ys, j);
    assert xs[..last] + xs[last + 1..] == xs[..last];
    MultisetCancel(multiset(xs[..last]), multiset(RemoveIndex(ys, j)), ys[j]);
  }

  lemma MultisetWithout<T>(xs: seq<T>, j: int)
    requires 0 <= j < |xs|
    ensures multiset(xs) == multiset(xs[..j] + xs[j + 1..]) + multiset{xs[j]}
  {
    var front, back := xs[..j], xs[j + 1..];
    assert xs == front + [xs[j]] + back;
  }

  lemma MultisetCancel<T>(a: multiset<T>, b: multiset<T>, x: T)
    requires a + multiset{x} == b + multiset{x}
    ensures a == b
  {
    assert a == (a + multiset{x}) - multiset{x};
    assert b == (b + multiset{x}) - multiset{x};
  }
}
