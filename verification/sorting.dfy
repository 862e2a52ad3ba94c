/** Descending sort by a numeric key, as `Array.prototype.sort((a, b) => key(b) - key(a))`
    does it. The engine's sort is stable; here stability comes from the
    construction (`Insert` places an element after every element whose key is
    at least its own) and is not stated as a lemma. The sorted result is proved
    a permutation of the input and non-increasing in the key. */
module Sorting {

  predicate NonIncreasing<T>(xs: seq<T>, key: T -> real) {
    forall i, j :: 0 <= i < j < |xs| ==> key(xs[i]) >= key(xs[j])
  }

  /** Inserts `x` after every element whose key is at least `key(x)`. */
  function Insert<T>(x: T, s: seq<T>, key: T -> real): (r: seq<T>)
    ensures multiset(r) == multiset(s) + multiset{x}
    ensures |r| == |s| + 1
  {
    if s == [] then [x]
    else if key(s[0]) >= key(x) then
      assert s == [s[0]] + s[1..];
      [s[0]] + Insert(x, s[1..], key)
    else [x] + s
  }

  function SortDesc<T>(xs: seq<T>, key: T -> real): (r: seq<T>)
    ensures multiset(r) == multiset(xs)
    ensures |r| == |xs|
  {
    if xs == [] then []
    else
      assert xs == xs[..|xs| - 1] + [xs[|xs| - 1]];
      Insert(xs[|xs| - 1], SortDesc(xs[..|xs| - 1], key), key)
  }

  lemma {:induction false} InsertKeepsOrder<T>(x: T, s: seq<T>, key: T -> real)
    requires NonIncreasing(s, key)
    ensures NonIncreasing(Insert(x, s, key), key)
  {
    if s != [] && key(s[0]) >= key(x) {
      InsertKeepsOrder(x, s[1..], key);
      var r := Insert(x, s[1..], key);
      // every element of r comes from s[1..] or is x, and s[0] dominates both
      forall i | 0 <= i < |r| ensures key(s[0]) >= key(r[i]) {
        assert r[i] in multiset(r);
      }
    }
  }

  /** The result of `SortDesc` is non-increasing in the key. */
  lemma {:induction false} SortDescSorted<T>(xs: seq<T>, key: T -> real)
    ensures NonIncreasing(SortDesc(xs, key), key)
  {
    if xs != [] {
      SortDescSorted(xs[..|xs| - 1], key);
      InsertKeepsOrder(xs[|xs| - 1], SortDesc(xs[..|xs| - 1], key), key);
    }
  }

  /** A prefix of a non-increasing sequence dominates everything after it. */
  lemma PrefixDominates<T>(xs: seq<T>, key: T -> real, k: nat, x: T)
    requires NonIncreasing(xs, key) && k <= |xs|
    requires x in multiset(xs) - multiset(xs[..k])
    ensures forall i :: 0 <= i < k ==> key(xs[i]) >= key(x)
  {
    assert xs == xs[..k] + xs[k..];
    assert x in multiset(xs[k..]);
    assert x in xs[k..];
  }
}
