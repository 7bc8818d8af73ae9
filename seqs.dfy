/** Sequence operations the TypeScript sources get from `Array.prototype`
    and `Set`: filtering, order-preserving de-duplication (`Array.from(new
    Set(xs))`), counting, the stable sort of `Array.prototype.sort` with a
    numeric comparator, and `slice` with its treatment of negative indices. */
module Seqs {

  predicate NoDup<T(==)>(xs: seq<T>) {
    forall i, j :: 0 <= i < j < |xs| ==> xs[i] != xs[j]
  }

  /** `xs.filter(p)`. */
  function Filter<T>(xs: seq<T>, p: T -> bool): (r: seq<T>)
    ensures |r| <= |xs|
    ensures forall i :: 0 <= i < |r| ==> p(r[i])
    decreases |xs|
  {
    if xs == [] then []
    else
      var rest := Filter(xs[..|xs| - 1], p);
      if p(xs[|xs| - 1]) then rest + [xs[|xs| - 1]] else rest
  }

  /** Filtering keeps exactly the elements that satisfy the predicate, with
      their multiplicities. */
  lemma {:induction false} FilterMultiset<T>(xs: seq<T>, p: T -> bool)
    ensures forall x :: multiset(Filter(xs, p))[x] == if p(x) then multiset(xs)[x] else 0
    decreases |xs|
  {
    if xs != [] {
      var init := xs[..|xs| - 1];
      FilterMultiset(init, p);
      assert xs == init + [xs[|xs| - 1]];
    }
  }

  /** Filtering keeps exactly the members that satisfy the predicate. */
  lemma {:induction false} FilterMembers<T>(xs: seq<T>, p: T -> bool)
    ensures forall x :: x in Filter(xs, p) <==> x in xs && p(x)
    decreases |xs|
  {
    if xs != [] {
      var init := xs[..|xs| - 1];
      FilterMembers(init, p);
      assert xs == init + [xs[|xs| - 1]];
    }
  }

  lemma {:induction false} FilterAppend<T>(xs: seq<T>, ys: seq<T>, p: T -> bool)
    ensures Filter(xs + ys, p) == Filter(xs, p) + Filter(ys, p)
    decreases |ys|
  {
    if ys == [] {
      assert xs + ys == xs;
    } else {
      var init := ys[..|ys| - 1];
      FilterAppend(xs, init, p);
      assert (xs + ys)[..|xs + ys| - 1] == xs + init;
    }
  }

  /** Filtering twice is filtering by the conjunction. */
  lemma {:induction false} FilterFilter<T>(xs: seq<T>, p: T -> bool, q: T -> bool)
    ensures Filter(Filter(xs, p), q) == Filter(xs, x => p(x) && q(x))
    decreases |xs|
  {
    if xs != [] {
      FilterFilter(xs[..|xs| - 1], p, q);
    }
  }

  /** Number of occurrences of `x` in `xs`. */
  function Count<T(==)>(xs: seq<T>, x: T): (n: nat)
    ensures n <= |xs|
    ensures n == multiset(xs)[x]
    decreases |xs|
  {
    if xs == [] then 0
    else
      assert xs == xs[..|xs| - 1] + [xs[|xs| - 1]];
      Count(xs[..|xs| - 1], x) + (if xs[|xs| - 1] == x then 1 else 0)
  }

  /** `Array.from(new Set(xs))`: each value once, in order of first
      appearance. */
  function Dedup<T(==)>(xs: seq<T>): (r: seq<T>)
    ensures NoDup(r)
    ensures forall i :: 0 <= i < |r| ==> r[i] in xs
    ensures forall i :: 0 <= i < |xs| ==> xs[i] in r
    ensures |r| <= |xs|
    decreases |xs|
  {
    if xs == [] then []
    else
      var rest := Dedup(xs[..|xs| - 1]);
      var last := xs[|xs| - 1];
      assert forall i :: 0 <= i < |xs| - 1 ==> xs[i] == xs[..|xs| - 1][i];
      if last in rest then rest else rest + [last]
  }

  /** De-duplication keeps the members. */
  lemma DedupMember<T>(xs: seq<T>, x: T)
    ensures x in Dedup(xs) <==> x in xs
  {
    var r := Dedup(xs);
    if x in xs {
      var i :| 0 <= i < |xs| && xs[i] == x;
    }
    if x in r {
      var i :| 0 <= i < |r| && r[i] == x;
    }
  }

  /** Extending a prefix of `xs` by one element, behind a fixed `before`. */
  lemma AppendPrefixStep<T>(before: seq<T>, xs: seq<T>, j: nat)
    requires j < |xs|
    ensures before + xs[..j + 1] == (before + xs[..j]) + [xs[j]]
  {
    assert xs[..j + 1] == xs[..j] + [xs[j]];
  }

  /** Taking out the element at `k` takes exactly that one element out. */
  lemma RemoveAtMultiset<T>(xs: seq<T>, k: nat)
    requires k < |xs|
    ensures multiset(xs[..k] + xs[k + 1..]) + multiset{xs[k]} == multiset(xs)
  {
    assert xs == xs[..k] + [xs[k]] + xs[k + 1..];
  }

  /** Index of the first occurrence of `x` in `xs`. */
  function FirstIndex<T(==)>(xs: seq<T>, x: T): (k: nat)
    requires x in xs
    ensures k < |xs| && xs[k] == x
    ensures forall j :: 0 <= j < k ==> xs[j] != x
  {
    if xs[0] == x then 0 else 1 + FirstIndex(xs[1..], x)
  }

  lemma {:induction false} FirstIndexPrefix<T>(xs: seq<T>, ys: seq<T>, x: T)
    requires x in xs
    ensures FirstIndex(xs + ys, x) == FirstIndex(xs, x)
  {
    var k := FirstIndex(xs, x);
    assert (xs + ys)[k] == x;
    assert forall j :: 0 <= j < k ==> (xs + ys)[j] == xs[j];
  }

  /** De-duplication lists values in the order of their first appearance. */
  lemma {:induction false} DedupOrder<T>(xs: seq<T>)
    ensures forall i, j :: 0 <= i < j < |Dedup(xs)| ==>
              FirstIndex(xs, Dedup(xs)[i]) < FirstIndex(xs, Dedup(xs)[j])
    decreases |xs|
  {
    if xs != [] {
      var init := xs[..|xs| - 1];
      var last := xs[|xs| - 1];
      var rest := Dedup(init);
      DedupOrder(init);
      assert xs == init + [last];
      forall y | y in init
        ensures FirstIndex(xs, y) == FirstIndex(init, y)
      {
        FirstIndexPrefix(init, [last], y);
      }
      if last !in rest {
        assert last !in init;
        assert FirstIndex(xs, last) == |init|;
      }
    }
  }

  /** De-duplicating a concatenation starts with de-duplicating its first
      part. */
  lemma {:induction false} DedupPrefix<T>(xs: seq<T>, ys: seq<T>)
    ensures Dedup(xs) <= Dedup(xs + ys)
    decreases |ys|
  {
    if ys == [] {
      assert xs + ys == xs;
    } else {
      var init := ys[..|ys| - 1];
      DedupPrefix(xs, init);
      assert (xs + ys)[..|xs + ys| - 1] == xs + init;
    }
  }

  /** The sum, over a list of distinct values, of their occurrence counts is
      at most the length of the sequence counted. */
  lemma {:induction false} CountsBounded<T>(xs: seq<T>, keys: seq<T>)
    requires NoDup(keys)
    ensures SumCounts(xs, keys) <= |xs|
    decreases |xs|
  {
    if xs == [] {
      SumCountsEmpty(xs, keys);
    } else {
      var init := xs[..|xs| - 1];
      var last := xs[|xs| - 1];
      assert xs == init + [last];
      CountsBounded(init, keys);
      SumCountsStep(init, last, keys);
    }
  }

  lemma {:induction false} SumCountsEmpty<T>(xs: seq<T>, keys: seq<T>)
    requires xs == []
    ensures SumCounts(xs, keys) == 0
    decreases |keys|
  {
    if keys != [] {
      SumCountsEmpty(xs, keys[..|keys| - 1]);
    }
  }

  function SumCounts<T(==)>(xs: seq<T>, keys: seq<T>): nat
    decreases |keys|
  {
    if keys == [] then 0 else SumCounts(xs, keys[..|keys| - 1]) + Count(xs, keys[|keys| - 1])
  }

  lemma {:induction false} SumCountsStep<T>(xs: seq<T>, y: T, keys: seq<T>)
    requires NoDup(keys)
    ensures SumCounts(xs + [y], keys) == SumCounts(xs, keys) + (if y in keys then 1 else 0)
    decreases |keys|
  {
    assert (xs + [y])[..|xs + [y]| - 1] == xs;
    if keys != [] {
      var init := keys[..|keys| - 1];
      assert NoDup(init);
      SumCountsStep(xs, y, init);
      assert y in keys <==> y in init || y == keys[|keys| - 1];
    }
  }

  /** Non-decreasing by `key`. */
  predicate SortedBy<T>(xs: seq<T>, key: T -> int) {
    forall i, j :: 0 <= i < j < |xs| ==> key(xs[i]) <= key(xs[j])
  }

  /** Insert `x` after every element whose key is at most `key(x)`. */
  function InsertBy<T>(s: seq<T>, x: T, key: T -> int): (r: seq<T>)
    ensures multiset(r) == multiset(s) + multiset{x}
    ensures |r| == |s| + 1
    ensures SortedBy(s, key) ==> SortedBy(r, key)
    decreases |s|
  {
    if s == [] then [x]
    else if key(s[|s| - 1]) <= key(x) then
      assert SortedBy(s, key) ==> SortedBy(s + [x], key);
      s + [x]
    else
      var init := s[..|s| - 1];
      var last := s[|s| - 1];
      assert s == init + [last];
      var r := InsertBy(init, x, key) + [last];
      assert SortedBy(s, key) ==> SortedBy(r, key) by {
        if SortedBy(s, key) {
          var head := InsertBy(init, x, key);
          forall i | 0 <= i < |head| ensures key(head[i]) <= key(last) {
            assert head[i] in multiset(head);
            assert head[i] in multiset(init) || head[i] == x;
          }
        }
      }
      r
  }

  /** `xs.sort((a, b) => key(a) - key(b))`: ascending and stable (later
      elements with an equal key stay later). */
  function SortBy<T>(xs: seq<T>, key: T -> int): (r: seq<T>)
    ensures SortedBy(r, key)
    ensures multiset(r) == multiset(xs)
    ensures |r| == |xs|
    decreases |xs|
  {
    if xs == [] then []
    else
      assert xs == xs[..|xs| - 1] + [xs[|xs| - 1]];
      InsertBy(SortBy(xs[..|xs| - 1], key), xs[|xs| - 1], key)
  }

  /** The elements whose key is `v`. */
  function KeyIs<T>(key: T -> int, v: int): T -> bool {
    x => key(x) == v
  }

  /** `InsertBy` puts `x` after every element of equal key. */
  lemma {:induction false} InsertByStable<T>(s: seq<T>, x: T, key: T -> int, v: int)
    ensures Filter(InsertBy(s, x, key), KeyIs(key, v))
            == Filter(s, KeyIs(key, v)) + (if key(x) == v then [x] else [])
    decreases |s|
  {
    var p := KeyIs(key, v);
    if s == [] {
      assert [x][..0] == [];
    } else if key(s[|s| - 1]) <= key(x) {
      assert (s + [x])[..|s|] == s;
    } else {
      var init := s[..|s| - 1];
      var last := s[|s| - 1];
      var head := InsertBy(init, x, key);
      assert (head + [last])[..|head|] == head;
      InsertByStable(init, x, key, v);
    }
  }

  /** `SortBy` is stable: among elements of any one key, the original order
      is kept. */
  lemma {:induction false} SortByStable<T>(xs: seq<T>, key: T -> int, v: int)
    ensures Filter(SortBy(xs, key), KeyIs(key, v)) == Filter(xs, KeyIs(key, v))
    decreases |xs|
  {
    if xs != [] {
      var init := xs[..|xs| - 1];
      SortByStable(init, key, v);
      InsertByStable(SortBy(init, key), xs[|xs| - 1], key, v);
    }
  }

  /** Index normalisation of `Array.prototype.slice`. */
  function SliceIndex(i: int, len: nat): (k: nat)
    ensures k <= len
  {
    if i < 0 then (if len + i < 0 then 0 else len + i)
    else if i > len then len else i
  }

  /** `xs.slice(start, end)`. */
  function Slice<T>(xs: seq<T>, start: int, end: int): (r: seq<T>)
    ensures |r| <= |xs|
    ensures start <= end ==> |r| <= end - start
    ensures 0 <= start && start < |xs| && start < end ==>
              r == xs[start..if end < |xs| then end else |xs|]
    ensures 0 <= start && |xs| <= start ==> r == []
  {
    var s := SliceIndex(start, |xs|);
    var e := SliceIndex(end, |xs|);
    if e <= s then [] else xs[s..e]
  }

  /** A value occurs at most once in a list without repeats. */
  lemma {:induction false} NoDupCount<T>(xs: seq<T>, x: T)
    requires NoDup(xs)
    ensures multiset(xs)[x] <= 1
    decreases |xs|
  {
    if xs != [] {
      var init := xs[..|xs| - 1];
      assert xs == init + [xs[|xs| - 1]];
      assert NoDup(init);
      NoDupCount(init, x);
      if xs[|xs| - 1] == x {
        assert x !in init;
      }
    }
  }

  /** A permutation of a list without repeats has none either. */
  lemma NoDupPermutation<T>(a: seq<T>, b: seq<T>)
    requires multiset(a) == multiset(b) && NoDup(a)
    ensures NoDup(b)
  {
    forall i, j | 0 <= i < j < |b| ensures b[i] != b[j] {
      NoDupCount(a, b[i]);
      assert b == b[..j] + [b[j]] + b[j + 1..];
      assert b[..j][i] == b[i];
    }
  }

  /** A permutation has the same members. */
  lemma SamePermutationMembers<T>(a: seq<T>, b: seq<T>)
    requires multiset(a) == multiset(b)
    ensures forall x :: x in a <==> x in b
  {
    forall x ensures x in a <==> x in b {
      assert x in a <==> x in multiset(a);
      assert x in b <==> x in multiset(b);
    }
  }

  /** A slice keeps elements of the list, in their order. */
  lemma SliceOrdered<T>(xs: seq<T>, start: int, end: int, key: T -> int)
    ensures forall k :: 0 <= k < |Slice(xs, start, end)| ==> Slice(xs, start, end)[k] in xs
    ensures SortedBy(xs, key) ==> SortedBy(Slice(xs, start, end), key)
  {
    var s := SliceIndex(start, |xs|);
    var e := SliceIndex(end, |xs|);
    if s < e {
      forall k | 0 <= k < e - s ensures xs[s..e][k] == xs[s + k] { }
    }
  }
}
