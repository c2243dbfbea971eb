/**
 * The list operations the application builds on: `filter`, `slice(0, n)`,
 * and the stable descending sort that `Array.prototype.sort` performs with a
 * comparator of the form `(a, b) => key(b) - key(a)`.
 *
 * The sort is specified by `SortDesc`, a stable insertion sort on values,
 * with its three properties proved as lemmas: the result is ordered, it is a
 * permutation of the input, and items with equal keys keep their relative
 * order. `SortInPlace` performs the same sort on an array.
 */
module Seqs {

  /** `s.some(f)`: decided element by element from the front. */
  function AnyOf<T>(s: seq<T>, f: T -> bool): (r: bool)
    ensures r <==> exists k :: 0 <= k < |s| && f(s[k])
    decreases |s|
  {
    if s == [] then false
    else if f(s[0]) then true
    else
      assert forall k :: 1 <= k < |s| ==> s[k] == s[1..][k - 1];
      AnyOf(s[1..], f)
  }

  /** `s.filter(f)`. */
  function Filter<T(==)>(s: seq<T>, f: T -> bool): (r: seq<T>)
    ensures |r| <= |s|
    ensures forall k :: 0 <= k < |r| ==> f(r[k]) && r[k] in s
    ensures forall k :: 0 <= k < |s| && f(s[k]) ==> s[k] in r
    decreases |s|
  {
    if s == [] then []
    else if f(s[0]) then [s[0]] + Filter(s[1..], f)
    else Filter(s[1..], f)
  }

  lemma {:induction false} FilterConcat<T>(a: seq<T>, b: seq<T>, f: T -> bool)
    ensures Filter(a + b, f) == Filter(a, f) + Filter(b, f)
    decreases |a|
  {
    if a == [] {
      assert a + b == b;
    } else {
      assert (a + b)[0] == a[0] && (a + b)[1..] == a[1..] + b;
      FilterConcat(a[1..], b, f);
    }
  }

  /** Filtering keeps everything exactly when every element passes. */
  lemma {:induction false} FilterAll<T>(s: seq<T>, f: T -> bool)
    requires forall k :: 0 <= k < |s| ==> f(s[k])
    ensures Filter(s, f) == s
    decreases |s|
  {
    if s != [] {
      FilterAll(s[1..], f);
    }
  }

  /** `a` is `b` with some elements left out, the rest in their order. */
  predicate IsSubsequence<T(==)>(a: seq<T>, b: seq<T>)
    decreases |b|
  {
    if a == [] then true
    else if b == [] then false
    else (a[0] == b[0] && IsSubsequence(a[1..], b[1..])) || IsSubsequence(a, b[1..])
  }

  lemma {:induction false} FilterIsSubsequence<T>(s: seq<T>, f: T -> bool)
    ensures IsSubsequence(Filter(s, f), s)
    decreases |s|
  {
    if s != [] {
      FilterIsSubsequence(s[1..], f);
      var r := Filter(s[1..], f);
      if !f(s[0]) && r != [] {
        assert IsSubsequence(r, s) by {
          assert IsSubsequence(r, s[1..]);
        }
      }
    }
  }

  lemma {:induction false} PrefixIsSubsequence<T>(a: seq<T>, n: nat)
    requires n <= |a|
    ensures IsSubsequence(a[..n], a)
    decreases |a|
  {
    if n > 0 {
      assert a[..n][1..] == a[1..][..n - 1];
      PrefixIsSubsequence(a[1..], n - 1);
    }
  }

  lemma {:induction false} SubsequenceTrans<T>(a: seq<T>, b: seq<T>, c: seq<T>)
    requires IsSubsequence(a, b) && IsSubsequence(b, c)
    ensures IsSubsequence(a, c)
    decreases |c|
  {
    if a != [] {
      assert b != [] && c != [];
      if b[0] == c[0] && IsSubsequence(b[1..], c[1..]) {
        if a[0] == b[0] && IsSubsequence(a[1..], b[1..]) {
          SubsequenceTrans(a[1..], b[1..], c[1..]);
        } else {
          SubsequenceTrans(a, b[1..], c[1..]);
        }
      } else {
        SubsequenceTrans(a, b, c[1..]);
      }
    }
  }

  /** Moving the next element from the part still to do onto the part done keeps the whole. */
  lemma AppendStep<T>(done: seq<T>, x: T, rest: seq<T>, all: seq<T>)
    requires done + ([x] + rest) == all
    ensures (done + [x]) + rest == all
  {
    assert (done + [x]) + rest == done + ([x] + rest);
  }

  /** `s.slice(0, n)` for a non-negative `n`. */
  function Take<T>(s: seq<T>, n: nat): (r: seq<T>)
    ensures |r| == if n < |s| then n else |s|
    ensures r == s[..|r|]
  {
    if n < |s| then s[..n] else s
  }

  /** Ordered from the largest key to the smallest. */
  predicate SortedDesc<T>(s: seq<T>, key: T -> int) {
    forall i, j :: 0 <= i < j < |s| ==> key(s[i]) >= key(s[j])
  }

  /**
   * Inserts `x` behind every element whose key is at least `key(x)`: the
   * step that a stable insertion sort takes with the next element.
   */
  function InsertDesc<T>(x: T, r: seq<T>, key: T -> int): (out: seq<T>)
    ensures |out| == |r| + 1
    decreases |r|
  {
    if r == [] || key(r[|r| - 1]) >= key(x) then r + [x]
    else InsertDesc(x, r[..|r| - 1], key) + [r[|r| - 1]]
  }

  /** The stable descending sort. */
  function SortDesc<T>(s: seq<T>, key: T -> int): (r: seq<T>)
    ensures |r| == |s|
    decreases |s|
  {
    if s == [] then [] else InsertDesc(s[|s| - 1], SortDesc(s[..|s| - 1], key), key)
  }

  /** The elements of `s` whose key is `k`, in order. */
  function WithKey<T>(s: seq<T>, key: T -> int, k: int): (r: seq<T>)
    ensures |r| <= |s|
    decreases |s|
  {
    if s == [] then []
    else WithKey(s[..|s| - 1], key, k) + (if key(s[|s| - 1]) == k then [s[|s| - 1]] else [])
  }

  /** Inserting keeps the order. */
  lemma {:induction false} InsertDescSorted<T>(x: T, r: seq<T>, key: T -> int)
    requires SortedDesc(r, key)
    ensures SortedDesc(InsertDesc(x, r, key), key)
    decreases |r|
  {
    if r != [] && key(r[|r| - 1]) < key(x) {
      var init, last := r[..|r| - 1], r[|r| - 1];
      InsertDescSorted(x, init, key);
      InsertDescAbove(x, init, key, key(last));
      var mid := InsertDesc(x, init, key);
      assert InsertDesc(x, r, key) == mid + [last];
    }
  }

  /** A bound every key of `r` and the key of `x` meet, every key of the insertion meets. */
  lemma {:induction false} InsertDescAbove<T>(x: T, r: seq<T>, key: T -> int, b: int)
    requires key(x) >= b && forall k :: 0 <= k < |r| ==> key(r[k]) >= b
    ensures forall k :: 0 <= k < |r| + 1 ==> key(InsertDesc(x, r, key)[k]) >= b
    decreases |r|
  {
    if r != [] && key(r[|r| - 1]) < key(x) {
      InsertDescAbove(x, r[..|r| - 1], key, b);
    }
  }

  /** Inserting adds `x` and nothing else. */
  lemma {:induction false} InsertDescPermutation<T>(x: T, r: seq<T>, key: T -> int)
    ensures multiset(InsertDesc(x, r, key)) == multiset(r) + multiset{x}
    decreases |r|
  {
    if r != [] && key(r[|r| - 1]) < key(x) {
      var init := r[..|r| - 1];
      assert r == init + [r[|r| - 1]];
      InsertDescPermutation(x, init, key);
    }
  }

  /** `SortDesc` orders its input by key. */
  lemma {:induction false} SortDescSorted<T>(s: seq<T>, key: T -> int)
    ensures SortedDesc(SortDesc(s, key), key)
    decreases |s|
  {
    if s != [] {
      SortDescSorted(s[..|s| - 1], key);
      InsertDescSorted(s[|s| - 1], SortDesc(s[..|s| - 1], key), key);
    }
  }

  /** `SortDesc` neither loses nor duplicates an element. */
  lemma {:induction false} SortDescPermutation<T>(s: seq<T>, key: T -> int)
    ensures multiset(SortDesc(s, key)) == multiset(s)
    decreases |s|
  {
    if s != [] {
      var init := s[..|s| - 1];
      assert s == init + [s[|s| - 1]];
      SortDescPermutation(init, key);
      InsertDescPermutation(s[|s| - 1], SortDesc(init, key), key);
    }
  }

  lemma {:induction false} WithKeySnoc<T>(s: seq<T>, x: T, key: T -> int, k: int)
    ensures WithKey(s + [x], key, k) == WithKey(s, key, k) + (if key(x) == k then [x] else [])
  {
    assert (s + [x])[..|s|] == s;
  }

  lemma {:induction false} InsertDescStable<T>(x: T, r: seq<T>, key: T -> int, k: int)
    ensures WithKey(InsertDesc(x, r, key), key, k) == WithKey(r, key, k) + (if key(x) == k then [x] else [])
    decreases |r|
  {
    if r == [] || key(r[|r| - 1]) >= key(x) {
      WithKeySnoc(r, x, key, k);
    } else {
      var init, last := r[..|r| - 1], r[|r| - 1];
      InsertDescStable(x, init, key, k);
      WithKeySnoc(InsertDesc(x, init, key), last, key, k);
    }
  }

  /** `SortDesc` is stable: the items that share a key keep their order. */
  lemma {:induction false} SortDescStable<T>(s: seq<T>, key: T -> int, k: int)
    ensures WithKey(SortDesc(s, key), key, k) == WithKey(s, key, k)
    decreases |s|
  {
    if s != [] {
      SortDescStable(s[..|s| - 1], key, k);
      InsertDescStable(s[|s| - 1], SortDesc(s[..|s| - 1], key), key, k);
    }
  }

  /** Filtering keeps every item with key `k` when all of them pass the filter. */
  lemma {:induction false} WithKeyFilter<T>(s: seq<T>, f: T -> bool, key: T -> int, k: int)
    requires forall x :: key(x) == k ==> f(x)
    ensures WithKey(Filter(s, f), key, k) == WithKey(s, key, k)
    decreases |s|
  {
    if s != [] {
      var init, last := s[..|s| - 1], s[|s| - 1];
      assert s == init + [last];
      FilterConcat(init, [last], f);
      assert [last][1..] == [];
      WithKeyFilter(init, f, key, k);
      if f(last) {
        WithKeySnoc(Filter(init, f), last, key, k);
      } else {
        assert Filter(s, f) == Filter(init, f);
      }
    }
  }

  /**
   * Where `InsertDesc` puts `x` in an ordered `r`: at the index `j` that
   * separates the keys at least `key(x)` from the smaller ones.
   */
  lemma {:induction false} InsertDescAt<T>(x: T, r: seq<T>, key: T -> int, j: nat)
    requires j <= |r|
    requires j == 0 || key(r[j - 1]) >= key(x)
    requires forall m :: j <= m < |r| ==> key(r[m]) < key(x)
    ensures InsertDesc(x, r, key) == r[..j] + [x] + r[j..]
    decreases |r|
  {
    if j < |r| {
      var init := r[..|r| - 1];
      assert init[..j] == r[..j];
      InsertDescAt(x, init, key, j);
      assert r[j..] == init[j..] + [r[|r| - 1]];
    }
  }

  /** One step of the in-place insertion sort: moves `a[i]` into the ordered `a[..i]`. */
  method InsertInPlace<T>(a: array<T>, i: nat, key: T -> int)
    requires i < a.Length && SortedDesc(a[..i], key)
    modifies a
    ensures a[..i + 1] == InsertDesc(old(a[i]), old(a[..i]), key)
    ensures a[i + 1..] == old(a[i + 1..])
  {
    ghost var sorted := a[..i];
    var x := a[i];
    var j := i;
    while j > 0 && key(a[j - 1]) < key(x)
      invariant 0 <= j <= i
      invariant forall m :: 0 <= m < j ==> a[m] == sorted[m]
      invariant forall m :: j < m <= i ==> a[m] == sorted[m - 1]
      invariant forall m :: j <= m < i ==> key(sorted[m]) < key(x)
      invariant forall m :: i < m < a.Length ==> a[m] == old(a[m])
    {
      a[j] := a[j - 1];
      j := j - 1;
    }
    a[j] := x;
    InsertDescAt(x, sorted, key, j);
    assert a[..i + 1] == sorted[..j] + [x] + sorted[j..];
  }

  /**
   * Sorts `a` in place, as `a.sort((p, q) => key(q) - key(p))` does: an
   * insertion sort whose result is `SortDesc` of the old contents.
   */
  method SortInPlace<T>(a: array<T>, key: T -> int)
    modifies a
    ensures a[..] == SortDesc(old(a[..]), key)
  {
    ghost var orig := a[..];
    var i := 0;
    while i < a.Length
      invariant 0 <= i <= a.Length
      invariant a[..i] == SortDesc(orig[..i], key)
      invariant a[i..] == orig[i..]
    {
      SortDescSorted(orig[..i], key);
      ghost var x := a[i];
      assert x == a[i..][0] == orig[i];
      ghost var rest := a[i + 1..];
      assert rest == a[i..][1..] == orig[i + 1..];
      InsertInPlace(a, i, key);
      SortDescPrefix(orig, i, key);
      i := i + 1;
    }
    assert orig[..a.Length] == orig;
  }

  /** Sorting one more item of `s` inserts it into the sorted prefix. */
  lemma SortDescPrefix<T>(s: seq<T>, i: nat, key: T -> int)
    requires i < |s|
    ensures SortDesc(s[..i + 1], key) == InsertDesc(s[i], SortDesc(s[..i], key), key)
  {
    assert s[..i + 1][..i] == s[..i];
  }
}
