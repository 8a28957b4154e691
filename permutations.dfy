/**
 * Index permutations shared by the depth sort and the Morton pre-pass:
 * the identity ordering that `std::iota` produces, the notion of a
 * permutation of `[0, n)`, with the facts the gathers and scatters rely on
 * (every index in range, no index twice, every index present), and the
 * in-place sort of an index array by the keys of the items it indexes.
 */
module Permutations {

  /** The identity ordering `0, 1, ..., n-1` (what `std::iota` writes). */
  function Iota(n: nat): (r: seq<int>)
    ensures |r| == n
    ensures forall k :: 0 <= k < n ==> r[k] == k
  {
    seq(n, k => k)
  }

  /** `s` holds every index of `[0, n)` exactly once. */
  ghost predicate IsPermutation(s: seq<int>, n: nat)
  {
    multiset(s) == multiset(Iota(n))
  }

  /** Each index of `[0, n)` occurs once in the identity ordering, nothing else occurs. */
  lemma {:induction false} IotaCount(n: nat, x: int)
    ensures multiset(Iota(n))[x] == if 0 <= x < n then 1 else 0
  {
    if n > 0 {
      assert Iota(n) == Iota(n - 1) + [n - 1];
      IotaCount(n - 1, x);
    }
  }

  /** Two positions holding the same value make that value occur at least twice. */
  lemma TwiceCounted(s: seq<int>, p: nat, q: nat)
    requires p < q < |s| && s[p] == s[q]
    ensures multiset(s)[s[p]] >= 2
  {
    assert s == s[..q] + s[q..];
    assert s[p] in s[..q];
    assert s[q] in s[q..];
    assert multiset(s) == multiset(s[..q]) + multiset(s[q..]);
  }

  /**
   * A permutation of `[0, n)` has length `n`, holds only indices in range,
   * holds no index twice and holds every index.
   */
  lemma PermutationFacts(s: seq<int>, n: nat)
    requires IsPermutation(s, n)
    ensures |s| == n
    ensures forall k :: 0 <= k < |s| ==> 0 <= s[k] < n
    ensures forall p, q :: 0 <= p < q < |s| ==> s[p] != s[q]
    ensures forall t :: 0 <= t < n ==> t in s
  {
    assert |s| == |multiset(s)| == |multiset(Iota(n))| == n;
    forall k | 0 <= k < |s|
      ensures 0 <= s[k] < n
    {
      assert s[k] in multiset(s);
      IotaCount(n, s[k]);
    }
    forall p, q | 0 <= p < q < |s|
      ensures s[p] != s[q]
    {
      if s[p] == s[q] {
        TwiceCounted(s, p, q);
        IotaCount(n, s[p]);
        assert false;
      }
    }
    forall t | 0 <= t < n
      ensures t in s
    {
      IotaCount(n, t);
      assert t in multiset(s);
    }
  }

  /** A new array holding the identity ordering of `[0, n)`, filled as `std::iota` does. */
  method IotaArray(n: nat) returns (a: array<int>)
    ensures fresh(a) && a[..] == Iota(n)
  {
    a := new int[n];
    for k := 0 to n
      invariant forall i :: 0 <= i < k ==> a[i] == i
    {
      a[k] := k;
    }
  }

  /** Every entry of `s` indexes one of `n` items. */
  ghost predicate InRange(s: seq<int>, n: nat)
  {
    forall k :: 0 <= k < |s| ==> 0 <= s[k] < n
  }

  /** Key `a` may precede key `b`: non-increasing keys when `descending`, non-decreasing otherwise. */
  predicate InOrder(a: real, b: real, descending: bool)
  {
    if descending then a >= b else a <= b
  }

  /** Along `s`, the keys of the indexed items follow the order. */
  ghost predicate KeyOrdered(s: seq<int>, keys: seq<real>, descending: bool)
  {
    InRange(s, |keys|) &&
    forall i, j :: 0 <= i < j < |s| ==> InOrder(keys[s[i]], keys[s[j]], descending)
  }

  /** Exchanges `a[j - 1]` and `a[j]`. */
  method SwapWithPrevious(a: array<int>, j: int)
    requires 0 < j < a.Length
    modifies a
    ensures a[..] == old(a[..])[j - 1 := old(a[j])][j := old(a[j - 1])]
    ensures multiset(a[..]) == multiset(old(a[..]))
  {
    a[j - 1], a[j] := a[j], a[j - 1];
  }

  /**
   * Moves `a[i]` towards the front past every entry whose key it must
   * precede, so that the prefix `a[..i + 1]` becomes ordered.
   */
  method InsertByKey(a: array<int>, i: int, keys: seq<real>, descending: bool)
    requires 0 <= i < a.Length
    requires InRange(a[..], |keys|)
    requires forall p, q :: 0 <= p < q < i ==> InOrder(keys[a[p]], keys[a[q]], descending)
    modifies a
    ensures InRange(a[..], |keys|)
    ensures multiset(a[..]) == multiset(old(a[..]))
    ensures forall p, q :: 0 <= p < q <= i ==> InOrder(keys[a[p]], keys[a[q]], descending)
  {
    var j := i;
    while j > 0 && !InOrder(keys[a[j - 1]], keys[a[j]], descending)
      invariant 0 <= j <= i
      invariant InRange(a[..], |keys|)
      invariant multiset(a[..]) == multiset(old(a[..]))
      invariant forall p, q :: 0 <= p < q <= i && p != j && q != j ==> InOrder(keys[a[p]], keys[a[q]], descending)
      invariant forall q :: j < q <= i ==> !InOrder(keys[a[q]], keys[a[j]], descending)
    {
      SwapWithPrevious(a, j);
      j := j - 1;
    }
  }

  /**
   * Sorts the indices of `a` in place by the keys of the items they index,
   * as `std::sort` with the comparator "left's key > right's key" (when
   * `descending`) or "left's key < right's key" does: the same indices,
   * in an order the keys follow.
   */
  method SortByKey(a: array<int>, keys: seq<real>, descending: bool)
    requires InRange(a[..], |keys|)
    modifies a
    ensures multiset(a[..]) == multiset(old(a[..]))
    ensures KeyOrdered(a[..], keys, descending)
  {
    for i := 0 to a.Length
      invariant InRange(a[..], |keys|)
      invariant multiset(a[..]) == multiset(old(a[..]))
      invariant forall p, q :: 0 <= p < q < i ==> InOrder(keys[a[p]], keys[a[q]], descending)
    {
      InsertByKey(a, i, keys, descending);
    }
  }
}
