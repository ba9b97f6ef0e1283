/** Order-preserving selection from a sequence: what a Python list comprehension
    with an `if`, or a `for` loop that `append`s only some elements, computes. */
module Seqs {

  /** The elements of `s` that satisfy `keep`, in their original order. */
  function Filter<T>(keep: T -> bool, s: seq<T>): (r: seq<T>)
    ensures |r| <= |s|
    ensures forall x :: x in r ==> x in s && keep(x)
    decreases |s|
  {
    if s == [] then []
    else
      var init := Filter(keep, s[..|s| - 1]);
      assert forall x :: x in init ==> x in s;
      if keep(s[|s| - 1]) then init + [s[|s| - 1]] else init
  }

  /** `f` applied to every element of `s`, in order. */
  function Map<T, U>(f: T -> U, s: seq<T>): seq<U>
  {
    seq(|s|, k requires 0 <= k < |s| => f(s[k]))
  }

  /** The positions of the elements of `s` that satisfy `keep`: strictly increasing,
      and a position is listed exactly when its element is kept. */
  function KeptIndices<T>(keep: T -> bool, s: seq<T>): (idx: seq<nat>)
    ensures forall k :: 0 <= k < |idx| ==> idx[k] < |s|
    ensures forall k, l :: 0 <= k < l < |idx| ==> idx[k] < idx[l]
    ensures forall i :: 0 <= i < |s| ==> (i in idx <==> keep(s[i]))
    decreases |s|
  {
    if s == [] then []
    else
      var init := KeptIndices(keep, s[..|s| - 1]);
      if keep(s[|s| - 1]) then init + [|s| - 1] else init
  }

  /** The k-th kept element is the element at the k-th kept position: `Filter` yields an
      order-preserving subsequence of `s` that contains each kept position exactly once. */
  lemma {:induction false} FilterAtKeptIndices<T>(keep: T -> bool, s: seq<T>)
    ensures |Filter(keep, s)| == |KeptIndices(keep, s)|
    ensures forall k :: 0 <= k < |Filter(keep, s)| ==> Filter(keep, s)[k] == s[KeptIndices(keep, s)[k]]
    decreases |s|
  {
    if s != [] {
      var init, last := s[..|s| - 1], s[|s| - 1];
      FilterAtKeptIndices(keep, init);
      var filtered, kept := Filter(keep, init), KeptIndices(keep, init);
      assert Filter(keep, s) == if keep(last) then filtered + [last] else filtered;
      assert KeptIndices(keep, s) == if keep(last) then kept + [|s| - 1] else kept;
      forall k | 0 <= k < |filtered|
        ensures filtered[k] == s[kept[k]]
      {
        assert init[kept[k]] == s[kept[k]];
      }
    }
  }

  /** Appending one element to the input appends at most that element to the output. */
  lemma FilterSnoc<T>(keep: T -> bool, s: seq<T>, x: T)
    ensures Filter(keep, s + [x]) == if keep(x) then Filter(keep, s) + [x] else Filter(keep, s)
  {
    assert (s + [x])[..|s|] == s;
  }

  lemma MapSnoc<T, U>(f: T -> U, s: seq<T>, x: T)
    ensures Map(f, s + [x]) == Map(f, s) + [f(x)]
  {
  }

  /** `p` holds of every index below `n`, stated by recursion on `n`. */
  predicate HoldsBelow(p: nat -> bool, n: nat)
  {
    n == 0 || (HoldsBelow(p, n - 1) && p(n - 1))
  }

  lemma {:induction false} HoldsBelowMeans(p: nat -> bool, n: nat)
    ensures HoldsBelow(p, n) <==> forall i :: 0 <= i < n ==> p(i)
  {
    if n > 0 {
      HoldsBelowMeans(p, n - 1);
    }
  }
}
