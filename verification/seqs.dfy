/** Sequence helpers shared by the aggregators: the insertion-ordered key lists
    that JavaScript objects and `Set`s produce, sums over keys, counting, and the
    end index of `Array.prototype.slice(0, end)`. */
module Seqs {

  function Min(a: int, b: int): int { if a <= b then a else b }

  predicate NoDuplicates<T(==)>(xs: seq<T>) {
    forall i, j :: 0 <= i < j < |xs| ==> xs[i] != xs[j]
  }

  /** The elements of `xs` in order of first appearance, each once: the key order
      of an object (or a `Set`) filled from `xs` front to back. */
  function Distinct<T(==)>(xs: seq<T>): (r: seq<T>)
    ensures NoDuplicates(r)
    ensures forall i :: 0 <= i < |r| ==> r[i] in xs
    ensures forall i :: 0 <= i < |xs| ==> xs[i] in r
    ensures |r| <= |xs|
  {
    if xs == [] then []
    else
      var init := xs[..|xs| - 1];
      var last := xs[|xs| - 1];
      assert xs == init + [last];
      Distinct(init) + (if last in init then [] else [last])
  }

  /** Sum of the weights `f(k)` of the keys, accumulated front to back. */
  function SumOver<K>(keys: seq<K>, f: K -> real): real {
    if keys == [] then 0.0 else SumOver(keys[..|keys| - 1], f) + f(keys[|keys| - 1])
  }

  /** Plain sum of numbers, accumulated front to back. */
  function Sum(xs: seq<real>): real {
    if xs == [] then 0.0 else Sum(xs[..|xs| - 1]) + xs[|xs| - 1]
  }

  lemma SumSnoc(xs: seq<real>, x: real)
    ensures Sum(xs + [x]) == Sum(xs) + x
  {
    assert (xs + [x])[..|xs|] == xs;
  }

  /** Growing a prefix by one element. */
  lemma PrefixSnoc<T>(xs: seq<T>, i: nat)
    requires i < |xs|
    ensures xs[..i + 1] == xs[..i] + [xs[i]]
  {
  }

  /** Arithmetic mean of a non-empty sequence. */
  function Mean(xs: seq<real>): real
    requires xs != []
  {
    Sum(xs) / |xs| as real
  }

  /** Number of elements that satisfy `p` (the `.filter(p).length` idiom). */
  function Count<T>(xs: seq<T>, p: T -> bool): (n: nat)
    ensures n <= |xs|
  {
    if xs == [] then 0 else Count(xs[..|xs| - 1], p) + (if p(xs[|xs| - 1]) then 1 else 0)
  }

  /** The end index `Array.prototype.slice(0, end)` uses on an array of length `n`:
      a negative end counts from the back. */
  function SliceEnd(n: nat, end: int): (k: nat)
    ensures k <= n
    ensures 0 <= end ==> k == Min(end, n)
    ensures end < 0 ==> k == if n + end < 0 then 0 else n + end
  {
    if end < 0 then (if n + end < 0 then 0 else n + end) else Min(end, n)
  }

  lemma {:induction false} SumOverAppend<K>(a: seq<K>, b: seq<K>, f: K -> real)
    ensures SumOver(a + b, f) == SumOver(a, f) + SumOver(b, f)
  {
    if b == [] {
      assert a + b == a;
    } else {
      SumOverAppend(a, b[..|b| - 1], f);
      assert (a + b)[..|a + b| - 1] == a + b[..|b| - 1];
    }
  }

  lemma {:induction false} SumOverCongruent<K>(keys: seq<K>, f: K -> real, g: K -> real)
    requires forall k :: k in keys ==> f(k) == g(k)
    ensures SumOver(keys, f) == SumOver(keys, g)
  {
    if keys != [] {
      SumOverCongruent(keys[..|keys| - 1], f, g);
    }
  }

  /** Changing the weight of one key that occurs once changes the sum by as much. */
  lemma {:induction false} SumOverBump<K>(keys: seq<K>, f: K -> real, g: K -> real, k: K, d: real)
    requires NoDuplicates(keys) && k in keys
    requires g(k) == f(k) + d
    requires forall j :: j in keys && j != k ==> g(j) == f(j)
    ensures SumOver(keys, g) == SumOver(keys, f) + d
  {
    var init := keys[..|keys| - 1];
    var last := keys[|keys| - 1];
    assert keys == init + [last];
    if last == k {
      assert k !in init;
      SumOverCongruent(init, f, g);
    } else {
      SumOverBump(init, f, g, k, d);
    }
  }

  /** Taking out the element at `j` takes its weight out of the sum. */
  lemma {:induction false} SumOverRemove<K>(b: seq<K>, j: nat, f: K -> real)
    requires j < |b|
    ensures SumOver(b, f) == SumOver(b[..j] + b[j + 1..], f) + f(b[j])
  {
    var init := b[..|b| - 1];
    if j == |b| - 1 {
      assert b[..j] + b[j + 1..] == init;
    } else {
      SumOverRemove(init, j, f);
      var rest := init[..j] + init[j + 1..];
      assert b[..j] + b[j + 1..] == rest + [b[|b| - 1]];
      assert (rest + [b[|b| - 1]])[..|rest|] == rest;
    }
  }

  lemma MultisetRemove<K>(b: seq<K>, j: nat)
    requires j < |b|
    ensures multiset(b[..j] + b[j + 1..]) == multiset(b) - multiset{b[j]}
  {
    assert b == b[..j] + [b[j]] + b[j + 1..];
  }

  /** Summing is independent of the order of the keys. */
  lemma {:induction false} SumOverPermutation<K>(a: seq<K>, b: seq<K>, f: K -> real)
    requires multiset(a) == multiset(b)
    ensures SumOver(a, f) == SumOver(b, f)
  {
    if a == [] {
      assert |b| == |multiset(b)|;
    } else {
      var init := a[..|a| - 1];
      var x := a[|a| - 1];
      assert a == init + [x];
      assert multiset(init) == multiset(a) - multiset{x};
      assert x in multiset(b);
      var j :| 0 <= j < |b| && b[j] == x;
      MultisetRemove(b, j);
      SumOverPermutation(init, b[..j] + b[j + 1..], f);
      SumOverRemove(b, j, f);
    }
  }

  lemma PercentOfSum(a: real, b: real, whole: real)
    requires whole != 0.0
    ensures (a + b) / whole * 100.0 == a / whole * 100.0 + b / whole * 100.0
  {
  }

  lemma WholePercent(whole: real)
    requires whole != 0.0
    ensures whole / whole * 100.0 == 100.0
  {
  }

  /** Taking every weight as a percentage of `whole` takes the sum as one. */
  lemma {:induction false} SumOverPercent<K>(keys: seq<K>, f: K -> real, g: K -> real, whole: real)
    requires whole != 0.0
    requires forall k :: k in keys ==> g(k) == f(k) / whole * 100.0
    ensures SumOver(keys, g) == SumOver(keys, f) / whole * 100.0
  {
    if keys != [] {
      var init := keys[..|keys| - 1];
      SumOverPercent(init, f, g, whole);
      PercentOfSum(SumOver(init, f), f(keys[|keys| - 1]), whole);
    }
  }

  lemma DistinctSnoc<T>(init: seq<T>, last: T)
    ensures Distinct(init + [last]) == Distinct(init) + (if last in init then [] else [last])
  {
    assert (init + [last])[..|init|] == init;
  }

  lemma DistinctMembers<T>(xs: seq<T>)
    ensures forall x :: x in Distinct(xs) <==> x in xs
  {
    var d := Distinct(xs);
    forall x | x in d ensures x in xs {
      var i :| 0 <= i < |d| && d[i] == x;
    }
    forall x | x in xs ensures x in d {
      var i :| 0 <= i < |xs| && xs[i] == x;
    }
  }

  /** Appending `last` raises its multiplicity by one and leaves the others. */
  lemma MultiplicityStep<T>(init: seq<T>, last: T, f: T -> real, g: T -> real)
    requires forall x :: x in init + [last] ==> f(x) == multiset(init + [last])[x] as real
    requires forall x :: g(x) == multiset(init)[x] as real
    ensures f(last) == g(last) + 1.0
    ensures forall x :: x in init && x != last ==> f(x) == g(x)
  {
    assert multiset(init + [last]) == multiset(init) + multiset{last};
    assert last in init + [last];
    forall x | x in init && x != last ensures f(x) == g(x) {
      assert x in init + [last];
    }
  }

  /** Over the distinct elements of `xs`, the multiplicities add up to `|xs|`. */
  lemma {:induction false} DistinctMultiplicities<T>(xs: seq<T>, f: T -> real)
    requires forall x :: x in xs ==> f(x) == multiset(xs)[x] as real
    ensures SumOver(Distinct(xs), f) == |xs| as real
  {
    if xs != [] {
      var init := xs[..|xs| - 1];
      var last := xs[|xs| - 1];
      assert xs == init + [last];
      var g := x => multiset(init)[x] as real;
      DistinctMultiplicities(init, g);
      MultiplicityStep(init, last, f, g);
      DistinctSnoc(init, last);
      DistinctMembers(init);
      var d0 := Distinct(init);
      assert SumOver(d0, g) == |init| as real;
      if last in init {
        assert Distinct(xs) == d0;
        SumOverBump(d0, g, f, last, 1.0);
      } else {
        assert Distinct(xs) == d0 + [last];
        SumOverCongruent(d0, g, f);
        SumOverAppend(d0, [last], f);
        assert SumOver([last], f) == f(last) by {
          assert [last][..0] == [];
        }
      }
    }
  }

  /** A sum of weights that all stay within `[lo, hi]`. */
  lemma {:induction false} SumOverBounds<K>(keys: seq<K>, f: K -> real, lo: real, hi: real)
    requires forall k :: k in keys ==> lo <= f(k) <= hi
    ensures lo * |keys| as real <= SumOver(keys, f) <= hi * |keys| as real
  {
    if keys != [] {
      SumOverBounds(keys[..|keys| - 1], f, lo, hi);
    }
  }

  lemma {:induction false} CountDisjoint<T>(xs: seq<T>, p: T -> bool, q: T -> bool)
    requires forall x :: p(x) ==> !q(x)
    ensures Count(xs, p) + Count(xs, q) <= |xs|
  {
    if xs != [] {
      CountDisjoint(xs[..|xs| - 1], p, q);
    }
  }

  lemma {:induction false} NoDuplicatesMultiplicity<T>(a: seq<T>, x: T)
    requires NoDuplicates(a)
    ensures multiset(a)[x] <= 1
  {
    if a != [] {
      var init := a[..|a| - 1];
      assert a == init + [a[|a| - 1]];
      NoDuplicatesMultiplicity(init, x);
      if x == a[|a| - 1] {
        assert x !in init;
      }
    }
  }

  /** Two equal elements at different positions make a multiplicity of at least two. */
  lemma PairMultiplicity<T>(b: seq<T>, i: nat, j: nat)
    requires i < j < |b|
    ensures b[i] == b[j] ==> multiset(b)[b[i]] >= 2
  {
    assert b == b[..i] + [b[i]] + b[i + 1..j] + [b[j]] + b[j + 1..];
  }

  /** A permutation of a duplicate-free sequence is duplicate-free. */
  lemma PermutationNoDuplicates<T>(a: seq<T>, b: seq<T>)
    requires multiset(a) == multiset(b) && NoDuplicates(a)
    ensures NoDuplicates(b)
  {
    forall i, j | 0 <= i < j < |b| ensures b[i] != b[j] {
      NoDuplicatesMultiplicity(a, b[i]);
      PairMultiplicity(b, i, j);
    }
  }

  /** Names distinct along one ordering stay distinct along any other ordering
      of the same elements. */
  lemma PermutationNames<T, L>(xs: seq<T>, r: seq<T>, name: T -> L)
    requires multiset(r) == multiset(xs)
    requires forall i, j :: 0 <= i < j < |xs| ==> name(xs[i]) != name(xs[j])
    ensures forall i, j :: 0 <= i < j < |r| ==> name(r[i]) != name(r[j])
  {
    forall i, j | 0 <= i < j < |r| ensures name(r[i]) != name(r[j]) {
      assert r[i] in multiset(xs) && r[j] in multiset(xs);
      var a :| 0 <= a < |xs| && xs[a] == r[i];
      var b :| 0 <= b < |xs| && xs[b] == r[j];
      if a == b {
        PairMultiplicity(r, i, j);
        NoDuplicatesMultiplicity(xs, r[i]);
      }
    }
  }
}
