/** The cumulative equity curve over closed trades in close-time order, and the
    peak-tracking drawdown pass over it. */
module Equity {
  import opened Types
  import opened Seqs
  import opened Sorting

  /** Closed trades that carry a close time, stably sorted by it. */
  function TimedClosed(ps: seq<Position>): seq<Position>
  {
    SortBy(Filter(ps, IsClosedWithTime), CloseKey)
  }

  /** Point `i` is the `i+1`-th trade in close order, with the running PnL total. */
  function EquityCurveOf(ps: seq<Position>, startingBalance: real): seq<EquityPoint>
  {
    var s := TimedClosed(ps);
    seq(|s|, i requires 0 <= i < |s| =>
      EquityPoint(CloseTime(s[i]), startingBalance + Sum(s[..i + 1], PnL), Sum(s[..i + 1], PnL), i + 1))
  }

  method CalculateEquityCurve(ps: seq<Position>, startingBalance: real) returns (curve: seq<EquityPoint>)
    ensures curve == EquityCurveOf(ps, startingBalance)
  {
    var closed := SortBy(Filter(ps, IsClosedWithTime), CloseKey);
    var cumulativePnL := 0.0;
    curve := [];
    for i := 0 to |closed|
      invariant cumulativePnL == Sum(closed[..i], PnL)
      invariant curve == EquityCurveOf(ps, startingBalance)[..i]
    {
      SumPrefixStep(closed, i, PnL);
      cumulativePnL := cumulativePnL + PnL(closed[i]);
      curve := curve + [EquityPoint(CloseTime(closed[i]), startingBalance + cumulativePnL, cumulativePnL, i + 1)];
    }
  }

  /** One point per closed trade with a close time, numbered from 1, with equity the
      starting balance plus the running PnL, and timestamps in order. */
  lemma EquityCurveOrdered(ps: seq<Position>, startingBalance: real)
    ensures var curve := EquityCurveOf(ps, startingBalance);
      |curve| == |Filter(ps, IsClosedWithTime)| &&
      (forall i :: 0 <= i < |curve| ==>
         curve[i].tradeNumber == i + 1 && curve[i].equity == startingBalance + curve[i].cumulativePnL) &&
      (forall i, j :: 0 <= i < j < |curve| ==> curve[i].timestamp <= curve[j].timestamp)
  {
    var curve, s := EquityCurveOf(ps, startingBalance), TimedClosed(ps);
    SortByIsSorted(Filter(ps, IsClosedWithTime), CloseKey);
    forall i, j | 0 <= i < j < |curve|
      ensures curve[i].timestamp <= curve[j].timestamp
    {
      assert CloseKey(s[i]) <= CloseKey(s[j]);
    }
  }

  /** The last running total is the PnL of every closed trade with a close time. */
  lemma EquityCurveTotal(ps: seq<Position>, startingBalance: real)
    ensures var curve := EquityCurveOf(ps, startingBalance);
      |curve| > 0 ==> curve[|curve| - 1].cumulativePnL == Sum(Filter(ps, IsClosedWithTime), PnL)
  {
    var c := Filter(ps, IsClosedWithTime);
    var s, curve := SortBy(c, CloseKey), EquityCurveOf(ps, startingBalance);
    if |curve| > 0 {
      assert curve[|s| - 1].cumulativePnL == Sum(s[..|s|], PnL);
      assert s[..|s|] == s;
      SumSortBy(c, CloseKey, PnL);
    }
  }

  /** Each point's running total is the previous one plus that trade's PnL. */
  lemma EquityCurveStep(ps: seq<Position>, startingBalance: real, i: nat)
    requires 0 < i < |EquityCurveOf(ps, startingBalance)|
    ensures var curve, s := EquityCurveOf(ps, startingBalance), TimedClosed(ps);
      curve[i].cumulativePnL == curve[i - 1].cumulativePnL + PnL(s[i])
  {
    SumPrefixStep(TimedClosed(ps), i, PnL);
  }

  // ---------------------------------------------------------------------------
  // Drawdown
  // ---------------------------------------------------------------------------

  function Equities(curve: seq<EquityPoint>): (eq: seq<real>)
    ensures |eq| == |curve|
    ensures forall i :: 0 <= i < |curve| ==> eq[i] == curve[i].equity
  {
    seq(|curve|, i requires 0 <= i < |curve| => curve[i].equity)
  }

  /** The running peak after point `i`: the first equity, raised by every larger one. */
  function Peak(eq: seq<real>, i: nat): (p: real)
    requires i < |eq|
    ensures forall j :: 0 <= j <= i ==> eq[j] <= p
    ensures exists j :: 0 <= j <= i && eq[j] == p
  {
    if i == 0 then eq[0] else Max(Peak(eq, i - 1), eq[i])
  }

  /** Percentage below the peak; 0 unless the peak is positive. */
  function DrawdownPct(peak: real, e: real): real
  {
    if peak > 0.0 then Ratio(peak - e, peak) * 100.0 else 0.0
  }

  function DrawdownAt(eq: seq<real>, i: nat): (d: real)
    requires i < |eq|
    ensures d >= 0.0
  {
    DrawdownPct(Peak(eq, i), eq[i])
  }

  /** The point at which the pass last raised its maximum among the first `k`: the
      first point of largest drawdown, or none while no drawdown exceeded 0. */
  function WorstPoint(eq: seq<real>, k: nat): (w: Option<nat>)
    requires k <= |eq|
    ensures w.Some? ==> w.value < k && DrawdownAt(eq, w.value) > 0.0
    ensures w.Some? ==> forall j :: 0 <= j < k ==> DrawdownAt(eq, j) <= DrawdownAt(eq, w.value)
    ensures w.Some? ==> forall j :: 0 <= j < w.value ==> DrawdownAt(eq, j) < DrawdownAt(eq, w.value)
    ensures w.None? ==> forall j :: 0 <= j < k ==> DrawdownAt(eq, j) == 0.0
  {
    if k == 0 then None
    else
      var w := WorstPoint(eq, k - 1);
      var best := if w.Some? then DrawdownAt(eq, w.value) else 0.0;
      if DrawdownAt(eq, k - 1) > best then Some(k - 1) else w
  }

  function MaxDrawdownUpTo(eq: seq<real>, k: nat): real
    requires k <= |eq|
  {
    match WorstPoint(eq, k)
    case None => 0.0
    case Some(w) => DrawdownAt(eq, w)
  }

  /** The report of the drawdown pass: the largest drawdown with its depth and date,
      and the drawdown of the last point below the overall peak. */
  function DrawdownOf(curve: seq<EquityPoint>): DrawdownMetrics
  {
    if |curve| == 0 then DrawdownMetrics(0.0, 0.0, 0.0, None)
    else
      var eq := Equities(curve);
      var current := DrawdownPct(MaxOf(eq), eq[|eq| - 1]);
      match WorstPoint(eq, |eq|)
      case None => DrawdownMetrics(0.0, 0.0, current, None)
      case Some(w) =>
        DrawdownMetrics(DrawdownAt(eq, w), Peak(eq, w) - eq[w], current, Some(curve[w].timestamp))
  }

  method CalculateDrawdown(curve: seq<EquityPoint>) returns (d: DrawdownMetrics)
    ensures d == DrawdownOf(curve)
  {
    if |curve| == 0 {
      return DrawdownMetrics(0.0, 0.0, 0.0, None);
    }
    ghost var eq := Equities(curve);
    var peak := curve[0].equity;
    var maxDD, maxDDValue, maxDDDate := 0.0, 0.0, None;
    for i := 0 to |curve|
      invariant peak == Peak(eq, if i == 0 then 0 else i - 1)
      invariant maxDD == MaxDrawdownUpTo(eq, i)
      invariant WorstPoint(eq, i).None? ==> maxDDValue == 0.0 && maxDDDate == None
      invariant WorstPoint(eq, i).Some? ==>
        var w := WorstPoint(eq, i).value;
        maxDDValue == Peak(eq, w) - eq[w] && maxDDDate == Some(curve[w].timestamp)
    {
      if curve[i].equity > peak {
        peak := curve[i].equity;
      }
      var dd := DrawdownPct(peak, curve[i].equity);
      var ddValue := peak - curve[i].equity;
      if dd > maxDD {
        maxDD := dd;
        maxDDValue := ddValue;
        maxDDDate := Some(curve[i].timestamp);
      }
    }
    var currentEquity := curve[|curve| - 1].equity;
    var currentPeak := MaxOf(Equities(curve));
    d := DrawdownMetrics(maxDD, maxDDValue, DrawdownPct(currentPeak, currentEquity), maxDDDate);
  }

  /** The maximum drawdown is at least 0 and at least the drawdown at every point;
      when it is positive it is the drawdown of the first point that reaches it,
      and the reported depth and date are that point's. */
  lemma MaxDrawdownIsLargest(curve: seq<EquityPoint>)
    ensures var d, eq := DrawdownOf(curve), Equities(curve);
      d.maxDrawdown >= 0.0 &&
      (forall i :: 0 <= i < |curve| ==> DrawdownAt(eq, i) <= d.maxDrawdown) &&
      (d.maxDrawdown > 0.0 ==>
         (exists i :: 0 <= i < |curve| &&
            d.maxDrawdown == DrawdownAt(eq, i) && d.maxDrawdownValue == Peak(eq, i) - curve[i].equity &&
            d.maxDrawdownDate == Some(curve[i].timestamp) &&
            forall j :: 0 <= j < i ==> DrawdownAt(eq, j) < d.maxDrawdown)) &&
      (d.maxDrawdown == 0.0 ==> d.maxDrawdownValue == 0.0 && d.maxDrawdownDate == None)
  {
  }

  /** The running peak at the last point is the overall peak. */
  lemma {:induction false} LastPeakIsMax(eq: seq<real>)
    requires |eq| > 0
    ensures Peak(eq, |eq| - 1) == MaxOf(eq)
  {
    var p, m := Peak(eq, |eq| - 1), MaxOf(eq);
    var j :| 0 <= j < |eq| && eq[j] == p;
    assert p <= m;
    var k :| 0 <= k < |eq| && eq[k] == m;
    assert m <= p;
  }

  /** The current drawdown is the drawdown of the last point, so it never exceeds the
      maximum drawdown. */
  lemma CurrentWithinMax(curve: seq<EquityPoint>)
    ensures var d := DrawdownOf(curve);
      0.0 <= d.currentDrawdown <= d.maxDrawdown
  {
    if |curve| > 0 {
      var eq := Equities(curve);
      LastPeakIsMax(eq);
      assert DrawdownOf(curve).currentDrawdown == DrawdownAt(eq, |eq| - 1);
      MaxDrawdownIsLargest(curve);
    }
  }

  predicate NonDecreasing(curve: seq<EquityPoint>)
  {
    forall i, j :: 0 <= i < j < |curve| ==> curve[i].equity <= curve[j].equity
  }

  /** A curve that never falls has no drawdown at all. */
  lemma NoDrawdownWhenRising(curve: seq<EquityPoint>)
    requires NonDecreasing(curve)
    ensures DrawdownOf(curve).maxDrawdown == 0.0 && DrawdownOf(curve).currentDrawdown == 0.0
  {
    if |curve| > 0 {
      var eq := Equities(curve);
      forall i | 0 <= i < |eq|
        ensures DrawdownAt(eq, i) == 0.0
      {
        var j :| 0 <= j <= i && eq[j] == Peak(eq, i);
        assert Peak(eq, i) == eq[i];
      }
      LastPeakIsMax(eq);
    }
  }
}
