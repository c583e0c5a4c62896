/** Bucketing a list by a key, as the engine does with a `Map` or a plain object
    whose entries are visited in first-insertion order. */
module Grouping {
  import opened Seqs

  ghost predicate NoDuplicates<K>(ks: seq<K>)
  {
    forall i, j :: 0 <= i < j < |ks| ==> ks[i] != ks[j]
  }

  function KeyIs<T, K(==)>(key: T -> K, k: K): T -> bool
  {
    x => key(x) == k
  }

  /** The bucket of `k`: the elements whose key is `k`, in input order. */
  function Group<T, K(==)>(s: seq<T>, key: T -> K, k: K): (g: seq<T>)
    ensures forall x :: x in g ==> x in s && key(x) == k
  {
    Filter(s, KeyIs(key, k))
  }

  lemma GroupStep<T, K>(s: seq<T>, x: T, key: T -> K, k: K)
    ensures Group(s + [x], key, k) == Group(s, key, k) + (if key(x) == k then [x] else [])
  {
    assert (s + [x])[..|s|] == s;
  }

  lemma GroupStepAll<T, K>(s: seq<T>, x: T, key: T -> K)
    ensures forall k :: Group(s + [x], key, k) == Group(s, key, k) + (if key(x) == k then [x] else [])
  {
    forall k {
      GroupStep(s, x, key, k);
    }
  }

  lemma {:induction false} GroupOfEmptyKey<T, K>(s: seq<T>, key: T -> K, k: K)
    requires forall i :: 0 <= i < |s| ==> key(s[i]) != k
    ensures Group(s, key, k) == []
  {
    FilterDropsAll(s, KeyIs(key, k));
  }

  /** The distinct keys of `s` in order of first appearance. */
  function Keys<T, K(==)>(s: seq<T>, key: T -> K): (ks: seq<K>)
    ensures NoDuplicates(ks)
    ensures forall i :: 0 <= i < |s| ==> key(s[i]) in ks
    ensures forall k :: k in ks ==> Group(s, key, k) != []
  {
    if s == [] then []
    else
      var s', x := s[..|s| - 1], s[|s| - 1];
      var ks' := Keys(s', key);
      assert s == s' + [x];
      GroupStepAll(s', x, key);
      if key(x) in ks' then ks' else ks' + [key(x)]
  }

  /** A key is listed exactly when its bucket is non-empty. */
  lemma KeyListed<T, K>(s: seq<T>, key: T -> K, k: K)
    ensures k in Keys(s, key) <==> Group(s, key, k) != []
  {
    var g := Group(s, key, k);
    if g != [] {
      assert g[0] in s && key(g[0]) == k;
    }
  }

  /** The keys of one more item: its key is appended when it is new. */
  lemma KeysStep<T, K>(s: seq<T>, i: nat, key: T -> K)
    requires i < |s|
    ensures Keys(s[..i + 1], key) ==
      if key(s[i]) in Keys(s[..i], key) then Keys(s[..i], key) else Keys(s[..i], key) + [key(s[i])]
  {
    var t := s[..i + 1];
    assert t[..|t| - 1] == s[..i];
  }

  /** Pushing item `i` into its bucket, opening the bucket if it is new, turns the
      buckets of the first `i` items into those of the first `i + 1`. */
  lemma BucketedStep<T, K>(s: seq<T>, i: nat, key: T -> K, groups: map<K, seq<T>>,
                               groups': map<K, seq<T>>)
    requires i < |s|
    requires forall k :: k in groups ==> groups[k] == Group(s[..i], key, k)
    requires forall k :: k in groups' <==> k in groups || k == key(s[i])
    requires key(s[i]) in groups'
    requires key(s[i]) in groups ==> groups'[key(s[i])] == groups[key(s[i])] + [s[i]]
    requires key(s[i]) !in groups ==>
      groups'[key(s[i])] == [s[i]] && Group(s[..i], key, key(s[i])) == []
    requires forall k :: k in groups && k != key(s[i]) ==> groups'[k] == groups[k]
    ensures forall k :: k in groups' ==> groups'[k] == Group(s[..i + 1], key, k)
  {
    var pre, x := s[..i], s[i];
    assert s[..i + 1] == pre + [x];
    forall k | k in groups'
      ensures groups'[k] == Group(pre + [x], key, k)
    {
      GroupStep(pre, x, key, k);
    }
  }

  /** `groupBy`: the keys in first-insertion order and the bucket of each key. */
  method GroupBy<T, K(==)>(s: seq<T>, key: T -> K) returns (keys: seq<K>, groups: map<K, seq<T>>)
    ensures keys == Keys(s, key)
    ensures forall k :: k in groups <==> k in keys
    ensures forall k :: k in groups ==> groups[k] == Group(s, key, k)
  {
    keys := [];
    groups := map[];
    for i := 0 to |s|
      invariant keys == Keys(s[..i], key)
      invariant forall k :: k in groups <==> k in keys
      invariant forall k :: k in groups ==> groups[k] == Group(s[..i], key, k)
    {
      var k := key(s[i]);
      ghost var groups0 := groups;
      KeysStep(s, i, key);
      if k !in groups {
        GroupOfEmptyKey(s[..i], key, k);
        keys := keys + [k];
        groups := groups[k := [s[i]]];
      } else {
        groups := groups[k := groups[k] + [s[i]]];
      }
      BucketedStep(s, i, key, groups0, groups);
    }
    assert s[..|s|] == s;
  }

  /** The sum of `f` over each bucket of `ks`, added up over the buckets. */
  function GroupTotal<T, K(==)>(s: seq<T>, key: T -> K, ks: seq<K>, f: T -> real): real
  {
    if ks == [] then 0.0
    else GroupTotal(s, key, ks[..|ks| - 1], f) + Sum(Group(s, key, ks[|ks| - 1]), f)
  }

  lemma {:induction false} GroupTotalOfEmpty<T, K>(key: T -> K, ks: seq<K>, f: T -> real)
    ensures GroupTotal([], key, ks, f) == 0.0
  {
    if ks != [] {
      GroupTotalOfEmpty(key, ks[..|ks| - 1], f);
    }
  }

  lemma {:induction false} GroupTotalStep<T, K>(s: seq<T>, x: T, key: T -> K, ks: seq<K>, f: T -> real)
    requires NoDuplicates(ks)
    ensures GroupTotal(s + [x], key, ks, f)
         == GroupTotal(s, key, ks, f) + (if key(x) in ks then f(x) else 0.0)
  {
    if ks != [] {
      var ks', k := ks[..|ks| - 1], ks[|ks| - 1];
      GroupTotalStep(s, x, key, ks', f);
      GroupStep(s, x, key, k);
      SumAppend(Group(s, key, k), if key(x) == k then [x] else [], f);
      assert Sum([x], f) == f(x) by {
        assert [x][..0] == [];
      }
      assert key(x) in ks <==> key(x) in ks' || key(x) == k;
      assert key(x) in ks' ==> key(x) != k;
    }
  }

  /** Buckets partition the input: over keys that cover it without repetition, the
      bucket sums add up to the sum over the whole input. */
  lemma {:induction false} GroupTotalIsSum<T, K>(s: seq<T>, key: T -> K, ks: seq<K>, f: T -> real)
    requires NoDuplicates(ks)
    requires forall i :: 0 <= i < |s| ==> key(s[i]) in ks
    ensures GroupTotal(s, key, ks, f) == Sum(s, f)
  {
    if s == [] {
      GroupTotalOfEmpty(key, ks, f);
    } else {
      var s', x := s[..|s| - 1], s[|s| - 1];
      GroupTotalIsSum(s', key, ks, f);
      assert s == s' + [x];
      GroupTotalStep(s', x, key, ks, f);
    }
  }

  /** A per-key report whose entry `i` carries `Sum(Group(ks[i]), g)` adds up to the
      bucket total over `ks`. */
  lemma {:induction false} SumPerKey<T, K, S>(s: seq<T>, key: T -> K, ks: seq<K>, g: T -> real,
                                              st: seq<S>, f: S -> real)
    requires |st| == |ks|
    requires forall i :: 0 <= i < |ks| ==> f(st[i]) == Sum(Group(s, key, ks[i]), g)
    ensures Sum(st, f) == GroupTotal(s, key, ks, g)
  {
    if ks != [] {
      SumPerKey(s, key, ks[..|ks| - 1], g, st[..|st| - 1], f);
    }
  }

  function One<T>(x: T): real { 1.0 }

  lemma {:induction false} SumOfOnes<T>(s: seq<T>)
    ensures Sum(s, One) == |s| as real
  {
    if s != [] {
      SumOfOnes(s[..|s| - 1]);
    }
  }

  /** `Object.values(groups).map(f)`: one value per bucket, in first-insertion order. */
  function PerKey<T, K(==)>(s: seq<T>, key: T -> K, f: seq<T> -> real): (xs: seq<real>)
    ensures |xs| == |Keys(s, key)|
    ensures s != [] ==> |xs| > 0
  {
    var ks := Keys(s, key);
    assert s != [] ==> key(s[0]) in ks;
    seq(|ks|, i requires 0 <= i < |ks| => f(Group(s, key, ks[i])))
  }

  lemma PerKeyPointwise<T, K>(s: seq<T>, key: T -> K, f: seq<T> -> real, xs: seq<real>)
    requires |xs| == |Keys(s, key)|
    requires forall k :: 0 <= k < |xs| ==> xs[k] == f(Group(s, key, Keys(s, key)[k]))
    ensures xs == PerKey(s, key, f)
  {
  }

  /** One entry per bucket, in key order, computed from the key and its bucket (the
      `Object.entries(groups).map(...)` step). */
  method MapEntries<T, K(==), R>(keys: seq<K>, groups: map<K, seq<T>>, f: (K, seq<T>) -> R) returns (rs: seq<R>)
    requires forall i :: 0 <= i < |keys| ==> keys[i] in groups
    ensures |rs| == |keys|
    ensures forall i :: 0 <= i < |keys| ==> rs[i] == f(keys[i], groups[keys[i]])
  {
    rs := [];
    for i := 0 to |keys|
      invariant |rs| == i
      invariant forall k :: 0 <= k < i ==> rs[k] == f(keys[k], groups[keys[k]])
    {
      rs := rs + [f(keys[i], groups[keys[i]])];
    }
  }

  /** One entry per bucket, in first-insertion order, computed from the bucket's key
      and its items. */
  function Entries<T, K(==), R>(s: seq<T>, key: T -> K, f: (K, seq<T>) -> R): (rs: seq<R>)
    ensures |rs| == |Keys(s, key)|
    ensures forall i :: 0 <= i < |rs| ==> rs[i] == f(Keys(s, key)[i], Group(s, key, Keys(s, key)[i]))
  {
    var ks := Keys(s, key);
    seq(|ks|, i requires 0 <= i < |ks| => f(ks[i], Group(s, key, ks[i])))
  }

  lemma EntriesPointwise<T, K, R>(s: seq<T>, key: T -> K, f: (K, seq<T>) -> R, rs: seq<R>)
    requires |rs| == |Keys(s, key)|
    requires forall i :: 0 <= i < |rs| ==> rs[i] == f(Keys(s, key)[i], Group(s, key, Keys(s, key)[i]))
    ensures rs == Entries(s, key, f)
  {
  }

  /** `groupBy` followed by a map over the buckets' entries. */
  method GroupEntries<T, K(==), R>(s: seq<T>, key: T -> K, f: (K, seq<T>) -> R) returns (rs: seq<R>)
    ensures rs == Entries(s, key, f)
  {
    var keys, groups := GroupBy(s, key);
    rs := MapEntries(keys, groups, f);
    assert forall i :: 0 <= i < |keys| ==> groups[keys[i]] == Group(s, key, keys[i]);
    EntriesPointwise(s, key, f, rs);
  }

  method MapGroups<T, K(==)>(s: seq<T>, key: T -> K, f: seq<T> -> real) returns (xs: seq<real>)
    ensures xs == PerKey(s, key, f)
  {
    var keys, groups := GroupBy(s, key);
    xs := MapEntries(keys, groups, (k: K, g: seq<T>) => f(g));
    assert forall i :: 0 <= i < |keys| ==> groups[keys[i]] == Group(s, key, keys[i]);
    PerKeyPointwise(s, key, f, xs);
  }
}
