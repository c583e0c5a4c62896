/** The array operations the engine is built from: `filter`, `reduce` with `+`,
    and the numeric reductions over them. */
module Seqs {
  import opened Types

  /** The elements of `s` that satisfy `p`, in order (`Array.prototype.filter`). */
  function Filter<T>(s: seq<T>, p: T -> bool): (r: seq<T>)
    ensures |r| <= |s|
    ensures forall x :: x in r ==> x in s && p(x)
  {
    if s == [] then [] else Filter(s[..|s| - 1], p) + (if p(s[|s| - 1]) then [s[|s| - 1]] else [])
  }

  /** Left-to-right `reduce((sum, x) => sum + f(x), 0)`. */
  function Sum<T>(s: seq<T>, f: T -> real): real
  {
    if s == [] then 0.0 else Sum(s[..|s| - 1], f) + f(s[|s| - 1])
  }

  function Id(x: real): real { x }

  /** The predicates `x <= m` and `x >= m`. */
  function AtMost(m: real): real -> bool { x => x <= m }

  function AtLeast(m: real): real -> bool { x => x >= m }

  /** Elements of `s[lo..hi]` that satisfy `p` all survive the filter. */
  lemma {:induction false} FilterRun<T>(s: seq<T>, p: T -> bool, lo: nat, hi: nat)
    requires lo <= hi <= |s|
    requires forall i :: lo <= i < hi ==> p(s[i])
    ensures |Filter(s, p)| >= hi - lo
    decreases |s|
  {
    if lo < hi {
      var t := s[..|s| - 1];
      var top := if hi == |s| then hi - 1 else hi;
      assert forall i :: lo <= i < top ==> t[i] == s[i];
      FilterRun(t, p, lo, top);
    }
  }

  function Square(x: real): real { x * x }

  lemma {:induction false} FilterMembers<T>(s: seq<T>, p: T -> bool, x: T)
    ensures x in Filter(s, p) <==> x in s && p(x)
  {
    if s != [] {
      FilterMembers(s[..|s| - 1], p, x);
      assert s == s[..|s| - 1] + [s[|s| - 1]];
    }
  }

  lemma FilterEmpty<T>(s: seq<T>, p: T -> bool)
    ensures Filter(s, p) == [] <==> forall x :: x in s ==> !p(x)
  {
    forall x | x in s {
      FilterMembers(s, p, x);
    }
  }

  lemma {:induction false} FilterAll<T>(s: seq<T>, p: T -> bool)
    ensures |Filter(s, p)| == |s| <==> forall x :: x in s ==> p(x)
  {
    if s != [] {
      var s', x := s[..|s| - 1], s[|s| - 1];
      FilterAll(s', p);
      assert s == s' + [x];
      assert forall y :: y in s <==> y in s' || y == x;
    }
  }

  lemma {:induction false} FilterAppend<T>(a: seq<T>, b: seq<T>, p: T -> bool)
    ensures Filter(a + b, p) == Filter(a, p) + Filter(b, p)
    decreases |b|
  {
    if b == [] {
      assert a + b == a;
    } else {
      var b' := b[..|b| - 1];
      assert (a + b)[..|a + b| - 1] == a + b';
      FilterAppend(a, b', p);
    }
  }

  lemma {:induction false} FilterDropsAll<T>(s: seq<T>, p: T -> bool)
    requires forall i :: 0 <= i < |s| ==> !p(s[i])
    ensures Filter(s, p) == []
  {
    if s != [] {
      FilterDropsAll(s[..|s| - 1], p);
    }
  }

  /** Filtering twice with predicates that agree on `s` gives the same result. */
  lemma {:induction false} FilterAgree<T>(s: seq<T>, p: T -> bool, q: T -> bool)
    requires forall i :: 0 <= i < |s| ==> p(s[i]) == q(s[i])
    ensures Filter(s, p) == Filter(s, q)
  {
    if s != [] {
      FilterAgree(s[..|s| - 1], p, q);
    }
  }

  lemma {:induction false} SumAppend<T>(a: seq<T>, b: seq<T>, f: T -> real)
    ensures Sum(a + b, f) == Sum(a, f) + Sum(b, f)
    decreases |b|
  {
    if b == [] {
      assert a + b == a;
    } else {
      var b' := b[..|b| - 1];
      assert (a + b)[..|a + b| - 1] == a + b';
      SumAppend(a, b', f);
    }
  }

  lemma SumPrefixStep<T>(s: seq<T>, i: nat, f: T -> real)
    requires i < |s|
    ensures Sum(s[..i + 1], f) == Sum(s[..i], f) + f(s[i])
  {
    assert s[..i + 1][..i] == s[..i];
  }

  lemma {:induction false} SumOfZeros<T>(s: seq<T>, f: T -> real)
    requires forall i :: 0 <= i < |s| ==> f(s[i]) == 0.0
    ensures Sum(s, f) == 0.0
  {
    if s != [] {
      SumOfZeros(s[..|s| - 1], f);
    }
  }

  lemma {:induction false} SumPositive<T>(s: seq<T>, f: T -> real)
    requires forall i :: 0 <= i < |s| ==> f(s[i]) > 0.0
    ensures |s| > 0 ==> Sum(s, f) > 0.0
  {
    if |s| > 1 {
      SumPositive(s[..|s| - 1], f);
    }
  }

  lemma {:induction false} SumNegative<T>(s: seq<T>, f: T -> real)
    requires forall i :: 0 <= i < |s| ==> f(s[i]) < 0.0
    ensures |s| > 0 ==> Sum(s, f) < 0.0
  {
    if |s| > 1 {
      SumNegative(s[..|s| - 1], f);
    }
  }

  lemma {:induction false} SumNonNegative<T>(s: seq<T>, f: T -> real)
    requires forall i :: 0 <= i < |s| ==> f(s[i]) >= 0.0
    ensures Sum(s, f) >= 0.0
  {
    if s != [] {
      SumNonNegative(s[..|s| - 1], f);
    }
  }

  /** `n * lo <= Sum <= n * hi` when every term lies in `[lo, hi]`. */
  lemma {:induction false} SumBounds<T>(s: seq<T>, f: T -> real, lo: real, hi: real)
    requires forall i :: 0 <= i < |s| ==> lo <= f(s[i]) <= hi
    ensures |s| as real * lo <= Sum(s, f) <= |s| as real * hi
  {
    if s != [] {
      SumBounds(s[..|s| - 1], f, lo, hi);
      assert (|s| - 1) as real * lo + lo == |s| as real * lo;
      assert (|s| - 1) as real * hi + hi == |s| as real * hi;
    }
  }

  /** Summing the elements that satisfy `p` and those that do not gives the total. */
  lemma {:induction false} SumSplit<T>(s: seq<T>, p: T -> bool, q: T -> bool, f: T -> real)
    requires forall i :: 0 <= i < |s| ==> p(s[i]) != q(s[i])
    ensures Sum(Filter(s, p), f) + Sum(Filter(s, q), f) == Sum(s, f)
    ensures |Filter(s, p)| + |Filter(s, q)| == |s|
  {
    if s != [] {
      var s' := s[..|s| - 1];
      var x := s[|s| - 1];
      assert forall i :: 0 <= i < |s'| ==> s'[i] == s[i];
      SumSplit(s', p, q, f);
      var xp, xq := if p(x) then [x] else [], if q(x) then [x] else [];
      assert Filter(s, p) == Filter(s', p) + xp;
      assert Filter(s, q) == Filter(s', q) + xq;
      SumAppend(Filter(s', p), xp, f);
      SumAppend(Filter(s', q), xq, f);
      assert Sum([x], f) == f(x) by {
        assert [x][..0] == [];
      }
      assert Sum(xp, f) + Sum(xq, f) == f(x);
    }
  }

  /** The arithmetic mean of a non-empty list (`reduce(+) / length`). */
  function Mean(xs: seq<real>): real
    requires |xs| > 0
  {
    Sum(xs, Id) / |xs| as real
  }

  /** The mean times the count is the total. */
  lemma MeanTimesCount(xs: seq<real>)
    requires |xs| > 0
    ensures Mean(xs) * |xs| as real == Sum(xs, Id)
  {
    DivMul(Sum(xs, Id), |xs| as real);
  }

  /** Population variance around the mean, `Σ (x - mean)^2 / n`. */
  function Variance(xs: seq<real>): (v: real)
    requires |xs| > 0
    ensures v >= 0.0
  {
    var m := Mean(xs);
    var sq := seq(|xs|, i requires 0 <= i < |xs| => Square(xs[i] - m));
    SumNonNegative(sq, Id);
    Sum(sq, Id) / |xs| as real
  }

  /** `Math.sqrt(variance)` with the square root supplied by the runtime. */
  function StdDev(xs: seq<real>, sqrt: real -> real): real
    requires |xs| > 0
  {
    sqrt(Variance(xs))
  }

  /** `n > 0 ? total / n : 0`, the guarded average the engine writes everywhere. */
  function MeanOr0(total: real, n: nat): (r: real)
    ensures n > 0 ==> r * n as real == total
    ensures n == 0 ==> r == 0.0
    ensures n > 0 && total > 0.0 ==> r > 0.0
    ensures n > 0 && total < 0.0 ==> r < 0.0
    ensures total == 0.0 ==> r == 0.0
  {
    if n == 0 then 0.0 else total / n as real
  }

  /** `b !== 0 ? a / b : 0`, the guarded ratio. */
  function Ratio(a: real, b: real): (r: real)
    ensures b != 0.0 ==> r * b == a
    ensures b > 0.0 && a >= 0.0 ==> r >= 0.0
    ensures a == 0.0 || b == 0.0 ==> r == 0.0
  {
    if b == 0.0 then 0.0 else a / b
  }

  function Percent(part: nat, whole: nat): real
    requires whole > 0
  {
    part as real / whole as real * 100.0
  }

  lemma PercentWithin(part: nat, whole: nat)
    requires 0 < whole && part <= whole
    ensures 0.0 <= Percent(part, whole) <= 100.0
  {
    assert part as real / whole as real <= 1.0;
  }

  /** Dividing by a positive number and multiplying back is the identity. */
  lemma DivMul(p: real, w: real)
    requires w > 0.0
    ensures (p / w) * w == p
  {
  }

  /** A product with a positive factor vanishes only when the other factor does. */
  lemma ZeroProduct(v: real, t: real)
    requires t > 0.0 && v * t == 0.0
    ensures v == 0.0
  {
    assert v == (v * t) / t;
  }

  lemma PercentExtremes(part: nat, whole: nat)
    requires 0 < whole && part <= whole
    ensures Percent(part, whole) == 0.0 <==> part == 0
    ensures Percent(part, whole) == 100.0 <==> part == whole
  {
    var p, w := part as real, whole as real;
    var q := p / w;
    DivMul(p, w);
    assert Percent(part, whole) == q * 100.0;
    if q == 1.0 {
      assert p == w;
    }
    if q == 0.0 {
      assert p == 0.0;
    }
  }

  lemma PercentsAddUp(a: nat, b: nat, c: nat, whole: nat)
    requires 0 < whole && a + b + c == whole
    ensures Percent(a, whole) + Percent(b, whole) + Percent(c, whole) == 100.0
  {
    var t := whole as real;
    var x, y, z := a as real / t, b as real / t, c as real / t;
    DivMul(a as real, t);
    DivMul(b as real, t);
    DivMul(c as real, t);
    var u := x + y + z;
    assert u * t == x * t + y * t + z * t;
    assert (u - 1.0) * t == 0.0;
    ZeroProduct(u - 1.0, t);
    assert Percent(a, whole) + Percent(b, whole) + Percent(c, whole) == u * 100.0;
  }

  /** `Math.round`: halves round towards positive infinity. */
  function Round(x: real): int
  {
    (x + 0.5).Floor
  }

  lemma RoundWithin(x: real, lo: int, hi: int)
    requires lo as real <= x <= hi as real
    ensures lo <= Round(x) <= hi
  {
  }

  function Ceil(x: real): int
  {
    -((-x).Floor)
  }

  /** `Math.ceil`: the least integer not below `x`. */
  lemma CeilBounds(x: real)
    ensures x <= Ceil(x) as real < x + 1.0
  {
  }

  /** A part of a positive whole is at most the whole. */
  lemma RatioAtMostOne(a: real, b: real)
    requires 0.0 <= a <= b && b > 0.0
    ensures 0.0 <= Ratio(a, b) <= 1.0
  {
    assert Ratio(a, b) * b == a;
  }

  function Max(a: real, b: real): real { if a >= b then a else b }
  function Min(a: real, b: real): real { if a <= b then a else b }

  /** `Math.min(100, Math.max(0, x))`: lands in 0..100 and leaves values already
      there unchanged. */
  function Clamp(x: real): (r: real)
    ensures 0.0 <= r <= 100.0
    ensures 0.0 <= x <= 100.0 ==> r == x
    ensures x < 0.0 ==> r == 0.0
    ensures x > 100.0 ==> r == 100.0
  {
    Min(100.0, Max(0.0, x))
  }

  /** `Math.min(...xs)`: the smallest element. */
  function MinOf(xs: seq<real>): (m: real)
    requires |xs| > 0
    ensures m in xs
    ensures forall i :: 0 <= i < |xs| ==> m <= xs[i]
  {
    if |xs| == 1 then xs[0] else Min(MinOf(xs[..|xs| - 1]), xs[|xs| - 1])
  }

  /** `Math.max(...xs)`: the largest element. */
  function MaxOf(xs: seq<real>): (m: real)
    requires |xs| > 0
    ensures m in xs
    ensures forall i :: 0 <= i < |xs| ==> xs[i] <= m
  {
    if |xs| == 1 then xs[0] else Max(MaxOf(xs[..|xs| - 1]), xs[|xs| - 1])
  }

  /** A mean lies within any bounds its elements lie within. */
  lemma MeanWithin(xs: seq<real>, lo: real, hi: real)
    requires |xs| > 0
    requires forall i :: 0 <= i < |xs| ==> lo <= xs[i] <= hi
    ensures lo <= Mean(xs) <= hi
  {
    assert forall i :: 0 <= i < |xs| ==> lo <= Id(xs[i]) <= hi;
    SumBounds(xs, Id, lo, hi);
    DivideBounds(Sum(xs, Id), |xs| as real, lo, hi);
  }

  lemma MeanOr0Bounds(total: real, n: nat, lo: real, hi: real)
    requires n > 0
    requires n as real * lo <= total <= n as real * hi
    ensures lo <= MeanOr0(total, n) <= hi
  {
    DivideBounds(total, n as real, lo, hi);
  }

  lemma DivideBounds(s: real, n: real, lo: real, hi: real)
    requires n > 0.0
    requires n * lo <= s <= n * hi
    ensures lo <= s / n <= hi
  {
    assert s == n * (s / n);
  }

  /** The first index in `[i, n)` satisfying `cond`: a `for` loop that breaks. */
  function ScanFrom(n: int, i: nat, cond: nat -> bool): (r: Option<nat>)
    ensures r.Some? ==> i <= r.value < n && cond(r.value)
    ensures r.Some? ==> forall k :: i <= k < r.value ==> !cond(k)
    ensures r.None? ==> forall k :: i <= k < n ==> !cond(k)
    decreases n - i
  {
    if i >= n then None
    else if cond(i) then Some(i)
    else ScanFrom(n, i + 1, cond)
  }
}
