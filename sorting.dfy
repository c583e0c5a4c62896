/** `Array.prototype.sort` with a numeric comparator `(a, b) => key(a) - key(b)`.
    ECMAScript requires the sort to be stable; it is modelled as a stable
    insertion sort, proved sorted, a permutation of its input, stable and
    idempotent. */
module Sorting {
  import opened Seqs

  predicate SortedBy<T>(s: seq<T>, key: T -> real)
  {
    forall i, j :: 0 <= i < j < |s| ==> key(s[i]) <= key(s[j])
  }

  /** Inserts `x` after every element whose key does not exceed its own. */
  function Insert<T>(s: seq<T>, x: T, key: T -> real): (r: seq<T>)
    ensures |r| == |s| + 1
    ensures multiset(r) == multiset(s) + multiset{x}
    decreases |s|
  {
    if s == [] || key(s[|s| - 1]) <= key(x) then s + [x]
    else
      assert s == s[..|s| - 1] + [s[|s| - 1]];
      Insert(s[..|s| - 1], x, key) + [s[|s| - 1]]
  }

  /** The input stably sorted by `key`. */
  function SortBy<T>(s: seq<T>, key: T -> real): (r: seq<T>)
    ensures |r| == |s|
    ensures multiset(r) == multiset(s)
    decreases |s|
  {
    if s == [] then []
    else
      assert s == s[..|s| - 1] + [s[|s| - 1]];
      Insert(SortBy(s[..|s| - 1], key), s[|s| - 1], key)
  }

  lemma InsertMember<T>(s: seq<T>, x: T, key: T -> real, y: T)
    ensures y in Insert(s, x, key) <==> y in s || y == x
  {
    var r := Insert(s, x, key);
    assert y in r <==> y in multiset(r);
    assert y in s <==> y in multiset(s);
  }

  lemma {:induction false} InsertSorted<T>(s: seq<T>, x: T, key: T -> real)
    requires SortedBy(s, key)
    ensures SortedBy(Insert(s, x, key), key)
    decreases |s|
  {
    if s == [] || key(s[|s| - 1]) <= key(x) {
    } else {
      var s', last := s[..|s| - 1], s[|s| - 1];
      InsertSorted(s', x, key);
      var r' := Insert(s', x, key);
      forall y | y in r'
        ensures key(y) <= key(last)
      {
        InsertMember(s', x, key, y);
        if y != x {
          assert y in s';
          var k :| 0 <= k < |s'| && s'[k] == y;
          assert s[k] == y;
        }
      }
      var r := r' + [last];
      forall i, j | 0 <= i < j < |r|
        ensures key(r[i]) <= key(r[j])
      {
        if j == |r| - 1 {
          assert r[i] in r';
        } else {
          assert r[i] == r'[i] && r[j] == r'[j];
        }
      }
    }
  }

  lemma {:induction false} SortByIsSorted<T>(s: seq<T>, key: T -> real)
    ensures SortedBy(SortBy(s, key), key)
    decreases |s|
  {
    if s != [] {
      SortByIsSorted(s[..|s| - 1], key);
      InsertSorted(SortBy(s[..|s| - 1], key), s[|s| - 1], key);
    }
  }

  lemma SortedPrefix<T>(s: seq<T>, n: nat, key: T -> real)
    requires SortedBy(s, key) && n <= |s|
    ensures SortedBy(s[..n], key)
  {
    forall i, j | 0 <= i < j < n
      ensures key(s[..n][i]) <= key(s[..n][j])
    {
      assert s[..n][i] == s[i] && s[..n][j] == s[j];
    }
  }

  /** An element keyed at least as high as the last one goes at the end. */
  lemma InsertAtEnd<T>(s: seq<T>, x: T, key: T -> real)
    requires s == [] || key(s[|s| - 1]) <= key(x)
    ensures Insert(s, x, key) == s + [x]
  {
  }

  /** A sequence that is already sorted is returned unchanged. */
  lemma {:induction false} SortBySortedIsIdentity<T>(s: seq<T>, key: T -> real)
    requires SortedBy(s, key)
    ensures SortBy(s, key) == s
    decreases |s|
  {
    if s != [] {
      var s', last := s[..|s| - 1], s[|s| - 1];
      SortedPrefix(s, |s| - 1, key);
      SortBySortedIsIdentity(s', key);
      if s' != [] {
        assert s'[|s'| - 1] == s[|s| - 2];
      }
      InsertAtEnd(s', last, key);
      assert s' + [last] == s;
    }
  }

  /** Sorting twice is sorting once: the helpers that re-sort an array some earlier
      helper already sorted in place see the same order. */
  lemma SortByIdempotent<T>(s: seq<T>, key: T -> real)
    ensures SortBy(SortBy(s, key), key) == SortBy(s, key)
  {
    SortByIsSorted(s, key);
    SortBySortedIsIdentity(SortBy(s, key), key);
  }

  /** The elements whose key equals `v`, in order. */
  function WithKey<T>(s: seq<T>, key: T -> real, v: real): (r: seq<T>)
    ensures |r| <= |s|
  {
    if s == [] then []
    else WithKey(s[..|s| - 1], key, v) + (if key(s[|s| - 1]) == v then [s[|s| - 1]] else [])
  }

  lemma {:induction false} WithKeyInsert<T>(s: seq<T>, x: T, key: T -> real, v: real)
    ensures WithKey(Insert(s, x, key), key, v)
         == WithKey(s, key, v) + (if key(x) == v then [x] else [])
    decreases |s|
  {
    if s == [] || key(s[|s| - 1]) <= key(x) {
      assert (s + [x])[..|s|] == s;
    } else {
      var s', last := s[..|s| - 1], s[|s| - 1];
      WithKeyInsert(s', x, key, v);
      var r := Insert(s', x, key) + [last];
      assert r[..|r| - 1] == Insert(s', x, key);
    }
  }

  /** Stability: among elements with equal keys, the input order is kept. */
  lemma {:induction false} SortByStable<T>(s: seq<T>, key: T -> real, v: real)
    ensures WithKey(SortBy(s, key), key, v) == WithKey(s, key, v)
    decreases |s|
  {
    if s != [] {
      SortByStable(s[..|s| - 1], key, v);
      WithKeyInsert(SortBy(s[..|s| - 1], key), s[|s| - 1], key, v);
    }
  }

  lemma {:induction false} SumInsert<T>(s: seq<T>, x: T, key: T -> real, f: T -> real)
    ensures Sum(Insert(s, x, key), f) == Sum(s, f) + f(x)
    decreases |s|
  {
    if s == [] || key(s[|s| - 1]) <= key(x) {
      assert (s + [x])[..|s|] == s;
    } else {
      var s', last := s[..|s| - 1], s[|s| - 1];
      SumInsert(s', x, key, f);
      var r := Insert(s', x, key) + [last];
      assert r[..|r| - 1] == Insert(s', x, key);
    }
  }

  /** Sorting does not change any sum over the elements. */
  lemma {:induction false} SumSortBy<T>(s: seq<T>, key: T -> real, f: T -> real)
    ensures Sum(SortBy(s, key), f) == Sum(s, f)
    decreases |s|
  {
    if s != [] {
      SumSortBy(s[..|s| - 1], key, f);
      SumInsert(SortBy(s[..|s| - 1], key), s[|s| - 1], key, f);
    }
  }

  lemma {:induction false} CountInsert<T>(s: seq<T>, x: T, key: T -> real, p: T -> bool)
    ensures |Filter(Insert(s, x, key), p)| == |Filter(s, p)| + (if p(x) then 1 else 0)
    decreases |s|
  {
    if s == [] || key(s[|s| - 1]) <= key(x) {
      assert (s + [x])[..|s|] == s;
    } else {
      var s', last := s[..|s| - 1], s[|s| - 1];
      CountInsert(s', x, key, p);
      var r := Insert(s', x, key) + [last];
      assert r[..|r| - 1] == Insert(s', x, key);
    }
  }

  /** Sorting does not change how many elements satisfy a predicate. */
  lemma {:induction false} CountSortBy<T>(s: seq<T>, key: T -> real, p: T -> bool)
    ensures |Filter(SortBy(s, key), p)| == |Filter(s, p)|
    decreases |s|
  {
    if s != [] {
      CountSortBy(s[..|s| - 1], key, p);
      CountInsert(SortBy(s[..|s| - 1], key), s[|s| - 1], key, p);
    }
  }

  predicate DistinctKeys<T>(s: seq<T>, key: T -> real)
  {
    forall i, j :: 0 <= i < j < |s| ==> key(s[i]) != key(s[j])
  }

  lemma {:induction false} InsertDistinct<T>(s: seq<T>, x: T, key: T -> real)
    requires DistinctKeys(s, key)
    requires forall y :: y in s ==> key(y) != key(x)
    ensures DistinctKeys(Insert(s, x, key), key)
    decreases |s|
  {
    if s == [] || key(s[|s| - 1]) <= key(x) {
    } else {
      var s', last := s[..|s| - 1], s[|s| - 1];
      assert forall y :: y in s' ==> y in s;
      InsertDistinct(s', x, key);
      var r' := Insert(s', x, key);
      forall y | y in r'
        ensures key(y) != key(last)
      {
        InsertMember(s', x, key, y);
        if y != x {
          assert y in s';
          var k :| 0 <= k < |s'| && s'[k] == y;
          assert s[k] == y;
        }
      }
      var r := r' + [last];
      forall i, j | 0 <= i < j < |r|
        ensures key(r[i]) != key(r[j])
      {
        if j == |r| - 1 {
          assert r[i] in r';
        } else {
          assert r[i] == r'[i] && r[j] == r'[j];
        }
      }
    }
  }

  /** With distinct keys, the sorted sequence is strictly increasing. */
  lemma {:induction false} SortByStrict<T>(s: seq<T>, key: T -> real)
    requires DistinctKeys(s, key)
    ensures forall i, j :: 0 <= i < j < |SortBy(s, key)| ==> key(SortBy(s, key)[i]) < key(SortBy(s, key)[j])
    decreases |s|
  {
    DistinctSortBy(s, key);
    SortByIsSorted(s, key);
  }

  lemma {:induction false} DistinctSortBy<T>(s: seq<T>, key: T -> real)
    requires DistinctKeys(s, key)
    ensures DistinctKeys(SortBy(s, key), key)
    decreases |s|
  {
    if s != [] {
      var s', x := s[..|s| - 1], s[|s| - 1];
      DistinctSortBy(s', key);
      forall y | y in SortBy(s', key)
        ensures key(y) != key(x)
      {
        SortByMembers(s', key, y);
        var k :| 0 <= k < |s'| && s'[k] == y;
        assert s[k] == y;
      }
      InsertDistinct(SortBy(s', key), x, key);
    }
  }

  lemma SortByMembers<T>(s: seq<T>, key: T -> real, x: T)
    ensures x in SortBy(s, key) <==> x in s
  {
    var r := SortBy(s, key);
    assert x in r <==> x in multiset(r);
    assert x in s <==> x in multiset(s);
  }

  /** The element at position `k` of the sorted values has more than `k` values at
      or below it and at least `|xs| - k` at or above it: it is the `k`-th smallest. */
  lemma SortedRank(xs: seq<real>, k: nat)
    requires k < |xs|
    ensures |Filter(xs, AtMost(SortBy(xs, Id)[k]))| > k
    ensures |Filter(xs, AtLeast(SortBy(xs, Id)[k]))| >= |xs| - k
  {
    var s := SortBy(xs, Id);
    var m := s[k];
    SortByIsSorted(xs, Id);
    assert forall i :: 0 <= i <= k ==> AtMost(m)(s[i]) by {
      forall i | 0 <= i <= k ensures AtMost(m)(s[i]) {
        if i < k { assert Id(s[i]) <= Id(s[k]); }
      }
    }
    assert forall i :: k <= i < |s| ==> AtLeast(m)(s[i]) by {
      forall i | k <= i < |s| ensures AtLeast(m)(s[i]) {
        if k < i { assert Id(s[k]) <= Id(s[i]); }
      }
    }
    FilterRun(s, AtMost(m), 0, k + 1);
    FilterRun(s, AtLeast(m), k, |s|);
    CountSortBy(xs, Id, AtMost(m));
    CountSortBy(xs, Id, AtLeast(m));
  }
}
