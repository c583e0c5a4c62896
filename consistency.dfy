/** The 0-100 consistency score: stability of weekly win rates, daily PnL, weekly
    trade counts and monthly profit factors, plus the time taken to recover from a
    loss, weighted and clamped. */
module Consistency {
  import opened Types
  import opened Seqs
  import opened Sorting
  import opened Grouping
  import opened Calculator

  // ---------------------------------------------------------------------------
  // Buckets
  // ---------------------------------------------------------------------------

  /** The local-time week key of a position's close. */
  function WeekKey(rt: Runtime): Position -> string
  {
    (p: Position) => rt.weekKey(CloseTime(p))
  }

  /** The UTC `YYYY-MM` key of a position's close. */
  function MonthKey(rt: Runtime): Position -> string
  {
    (p: Position) => rt.monthKey(CloseTime(p))
  }

  function TradeCountOf(g: seq<Position>): real { |g| as real }

  function TotalPnL(g: seq<Position>): real { Sum(g, PnL) }

  /** Gross wins over gross losses; 999 with wins and no losses, 1 with neither. */
  function ProfitFactor(g: seq<Position>): real
  {
    var totalWins := Sum(Filter(g, IsWin), PnL);
    var totalLosses := Abs(Sum(Filter(g, IsLoss), PnL));
    if totalLosses > 0.0 then totalWins / totalLosses
    else if totalWins > 0.0 then 999.0
    else 1.0
  }

  /** A profit factor is never negative; without a losing trade it is 999 when the
      bucket has a win and 1 when it has none. */
  lemma ProfitFactorCases(g: seq<Position>)
    ensures ProfitFactor(g) >= 0.0
    ensures Filter(g, IsLoss) == [] ==>
      (ProfitFactor(g) == 999.0 <==> Filter(g, IsWin) != []) &&
      (ProfitFactor(g) == 1.0 <==> Filter(g, IsWin) == [])
  {
    var wins, losses := Filter(g, IsWin), Filter(g, IsLoss);
    assert forall i :: 0 <= i < |wins| ==> PnL(wins[i]) > 0.0 by {
      assert forall i :: 0 <= i < |wins| ==> wins[i] in wins;
    }
    SumPositive(wins, PnL);
    SumNonNegative(wins, PnL);
    var w, l := Sum(wins, PnL), Abs(Sum(losses, PnL));
    if l > 0.0 {
      assert w / l >= 0.0;
    }
  }

  function WeeklyWinRates(closed: seq<Position>, rt: Runtime): seq<real>
  {
    PerKey(closed, WeekKey(rt), WinRatePct)
  }

  function DailyPnLs(closed: seq<Position>): seq<real>
  {
    PerKey(closed, CloseDay, TotalPnL)
  }

  function WeeklyTradeCounts(closed: seq<Position>, rt: Runtime): seq<real>
  {
    PerKey(closed, WeekKey(rt), TradeCountOf)
  }

  function MonthlyProfitFactors(sorted: seq<Position>, rt: Runtime): seq<real>
  {
    PerKey(sorted, MonthKey(rt), ProfitFactor)
  }

  // ---------------------------------------------------------------------------
  // Recovery from a loss
  // ---------------------------------------------------------------------------

  function WinAt(s: seq<Position>): nat -> bool
  {
    (k: nat) => k < |s| && IsWin(s[k])
  }

  /** Days from losing trade `i` to the next winning trade, if there is one. */
  function Recovery(s: seq<Position>, i: nat): seq<real>
    requires i < |s|
  {
    if !IsLoss(s[i]) then []
    else
      match ScanFrom(|s|, i + 1, WinAt(s))
      case None => []
      case Some(j) => [(CloseTime(s[j]) - CloseTime(s[i])) as real / MsPerDay as real]
  }

  /** The recovery times found for the trades before `n`. */
  function RecoveriesUpTo(s: seq<Position>, n: nat): seq<real>
    requires n <= |s|
  {
    if n == 0 then [] else RecoveriesUpTo(s, n - 1) + Recovery(s, n - 1)
  }

  /** The loop visits `i < length - 1`; the last trade has no later trade anyway. */
  function RecoveryTimes(s: seq<Position>): seq<real>
  {
    if |s| == 0 then [] else RecoveriesUpTo(s, |s| - 1)
  }

  function AvgDrawdownRecovery(s: seq<Position>): real
  {
    var times := RecoveryTimes(s);
    MeanOr0(Sum(times, Id), |times|)
  }

  /** `calculateAvgDrawdownRecovery` on trades already in close order. */
  method CalculateAvgDrawdownRecovery(sorted: seq<Position>) returns (avg: real)
    ensures avg == AvgDrawdownRecovery(sorted)
  {
    var recoveryTimes: seq<real> := [];
    for i := 0 to if |sorted| >= 1 then |sorted| - 1 else 0
      invariant recoveryTimes == RecoveriesUpTo(sorted, i)
    {
      var found := FindRecovery(sorted, i);
      recoveryTimes := recoveryTimes + found;
    }
    avg := if |recoveryTimes| > 0 then Sum(recoveryTimes, Id) / |recoveryTimes| as real else 0.0;
  }

  /** The inner search: the first winning trade after losing trade `i`. */
  method FindRecovery(sorted: seq<Position>, i: nat) returns (found: seq<real>)
    requires i < |sorted|
    ensures found == Recovery(sorted, i)
  {
    found := [];
    if PnL(sorted[i]) < 0.0 {
      for j := i + 1 to |sorted|
        invariant ScanFrom(|sorted|, i + 1, WinAt(sorted)) == ScanFrom(|sorted|, j, WinAt(sorted))
      {
        if PnL(sorted[j]) > 0.0 {
          var days := (CloseTime(sorted[j]) - CloseTime(sorted[i])) as real / MsPerDay as real;
          return [days];
        }
      }
    }
  }

  /** Every recovery time pairs a losing trade with the first later winning trade;
      in close order it is never negative. */
  lemma {:induction false} RecoveriesNonNegative(s: seq<Position>, n: nat)
    requires SortedBy(s, CloseKey) && n <= |s|
    ensures forall k :: 0 <= k < |RecoveriesUpTo(s, n)| ==> RecoveriesUpTo(s, n)[k] >= 0.0
  {
    if n > 0 {
      RecoveriesNonNegative(s, n - 1);
      var i := n - 1;
      if IsLoss(s[i]) {
        match ScanFrom(|s|, i + 1, WinAt(s))
        case None =>
        case Some(j) =>
          assert CloseKey(s[i]) <= CloseKey(s[j]);
          assert (CloseTime(s[j]) - CloseTime(s[i])) as real / MsPerDay as real >= 0.0;
      }
    }
  }

  /** The average recovery time of trades in close order is at least 0. */
  lemma AvgRecoveryNonNegative(s: seq<Position>)
    requires SortedBy(s, CloseKey)
    ensures AvgDrawdownRecovery(s) >= 0.0
  {
    var times := RecoveryTimes(s);
    if |s| > 0 {
      RecoveriesNonNegative(s, |s| - 1);
    }
    assert forall k :: 0 <= k < |times| ==> Id(times[k]) >= 0.0;
    SumNonNegative(times, Id);
  }

  // ---------------------------------------------------------------------------
  // Components and score
  // ---------------------------------------------------------------------------

  /** `mean > 0 ? (1 - stdDev / mean) * 100 : 0` over a non-empty list. */
  function Stability(xs: seq<real>, sqrt: real -> real): real
    requires |xs| > 0
  {
    var m := Mean(xs);
    if m > 0.0 then (1.0 - StdDev(xs, sqrt) / m) * 100.0 else 0.0
  }

  /** The same, against the magnitude of the mean (PnL can average below zero). */
  function AbsStability(xs: seq<real>, sqrt: real -> real): real
    requires |xs| > 0
  {
    var m := Abs(Mean(xs));
    if m > 0.0 then (1.0 - StdDev(xs, sqrt) / m) * 100.0 else 0.0
  }

  /** The five components before rounding, before the floor at 0. */
  datatype ConsistencyParts = ConsistencyParts(
    winRateStability: real, pnlVariance: real, tradeFrequencyRegularity: real,
    drawdownRecoveryTime: real, profitFactorStability: real)

  function ConsistencyPartsOf(closed: seq<Position>, rt: Runtime): ConsistencyParts
    requires closed != []
  {
    var sorted := SortBy(closed, CloseKey);
    ConsistencyParts(
      Stability(WeeklyWinRates(closed, rt), rt.sqrt),
      AbsStability(DailyPnLs(closed), rt.sqrt),
      Stability(WeeklyTradeCounts(closed, rt), rt.sqrt),
      Max(0.0, 100.0 - AvgDrawdownRecovery(sorted) * 10.0),
      Stability(MonthlyProfitFactors(sorted, rt), rt.sqrt))
  }

  function ConsistencyOverall(c: ConsistencyParts): real
  {
    Clamp(Max(c.winRateStability, 0.0) * 0.25 + Max(c.pnlVariance, 0.0) * 0.25 +
          Max(c.tradeFrequencyRegularity, 0.0) * 0.20 + Max(c.drawdownRecoveryTime, 0.0) * 0.15 +
          Max(c.profitFactorStability, 0.0) * 0.15)
  }

  function ConsistencyRecommendation(overall: real): string
  {
    if overall >= 70.0 then "Excellent consistency! You trade like a professional."
    else if overall >= 50.0 then "Good consistency. Focus on maintaining regular trading patterns."
    else if overall >= 30.0 then "Moderate consistency. Work on stabilizing your win rate and PnL."
    else "Low consistency. Your results are too volatile. Focus on a proven strategy."
  }

  const NoConsistencyScore: ConsistencyScore :=
    ConsistencyScore(0, ConsistencyComponents(0, 0, 0, 0, 0), "Need at least 10 trades to calculate consistency score.")

  function ConsistencyScoreFrom(c: ConsistencyParts): ConsistencyScore
  {
    var overall := ConsistencyOverall(c);
    ConsistencyScore(Round(overall),
      ConsistencyComponents(Round(Max(c.winRateStability, 0.0)), Round(Max(c.pnlVariance, 0.0)),
                            Round(Max(c.tradeFrequencyRegularity, 0.0)), Round(Max(c.drawdownRecoveryTime, 0.0)),
                            Round(Max(c.profitFactorStability, 0.0))),
      ConsistencyRecommendation(overall))
  }

  /** `calculateConsistencyScore`; every CLOSED position carries a close time. */
  function ConsistencyScoreOf(ps: seq<Position>, rt: Runtime): ConsistencyScore
    requires ClosedHaveTimes(ps)
  {
    var closed := ClosedOf(ps);
    if |closed| < 10 then NoConsistencyScore
    else ConsistencyScoreFrom(ConsistencyPartsOf(closed, rt))
  }

  method CalculateConsistencyScore(ps: seq<Position>, rt: Runtime) returns (r: ConsistencyScore)
    requires ClosedHaveTimes(ps)
    ensures r == ConsistencyScoreOf(ps, rt)
  {
    var closed := Filter(ps, IsClosed);
    if |closed| < 10 {
      return NoConsistencyScore;
    }
    var weeklyWinRates := MapGroups(closed, WeekKey(rt), WinRatePct);
    var dailyPnLs := MapGroups(closed, CloseDay, TotalPnL);
    var weeklyTradeCounts := MapGroups(closed, WeekKey(rt), TradeCountOf);
    // The recovery pass sorts `closed` in place; the monthly pass sees it sorted.
    var sorted := SortBy(closed, CloseKey);
    var avgRecoveryDays := CalculateAvgDrawdownRecovery(sorted);
    var monthlyProfitFactors := MapGroups(sorted, MonthKey(rt), ProfitFactor);
    var parts := ConsistencyParts(
      Stability(weeklyWinRates, rt.sqrt),
      AbsStability(dailyPnLs, rt.sqrt),
      Stability(weeklyTradeCounts, rt.sqrt),
      Max(0.0, 100.0 - avgRecoveryDays * 10.0),
      Stability(monthlyProfitFactors, rt.sqrt));
    r := ConsistencyScoreFrom(parts);
  }

  // ---------------------------------------------------------------------------
  // Properties
  // ---------------------------------------------------------------------------

  /** The runtime's square root never returns a negative number for a non-negative
      argument (true of `Math.sqrt`). */
  ghost predicate SqrtNonNegative(sqrt: real -> real)
  {
    forall x :: x >= 0.0 ==> sqrt(x) >= 0.0
  }

  lemma StabilityAtMost100(xs: seq<real>, sqrt: real -> real)
    requires |xs| > 0 && SqrtNonNegative(sqrt)
    ensures Stability(xs, sqrt) <= 100.0 && AbsStability(xs, sqrt) <= 100.0
  {
    var m, sd := Mean(xs), StdDev(xs, sqrt);
    assert sd >= 0.0;
    if m > 0.0 {
      assert sd / m >= 0.0;
    }
    if Abs(m) > 0.0 {
      assert sd / Abs(m) >= 0.0;
    }
  }

  lemma RecommendationNotDefault(o: real)
    ensures ConsistencyRecommendation(o) != NoConsistencyScore.recommendation
  {
    var none := NoConsistencyScore.recommendation;
    assert none[|none| - 2] == 'e';
    var e, g, m, l := "Excellent consistency! You trade like a professional.",
      "Good consistency. Focus on maintaining regular trading patterns.",
      "Moderate consistency. Work on stabilizing your win rate and PnL.",
      "Low consistency. Your results are too volatile. Focus on a proven strategy.";
    assert e[|e| - 2] == 'l' && g[|g| - 2] == 's' && m[|m| - 2] == 'L' && l[|l| - 2] == 'y';
  }

  /** Fewer than ten closed trades give the fixed "need at least 10 trades" answer,
      and only they do. */
  lemma TooFewTradesExactly(ps: seq<Position>, rt: Runtime)
    requires ClosedHaveTimes(ps)
    ensures |ClosedOf(ps)| < 10 <==> ConsistencyScoreOf(ps, rt) == NoConsistencyScore
  {
    if |ClosedOf(ps)| >= 10 {
      RecommendationNotDefault(ConsistencyOverall(ConsistencyPartsOf(ClosedOf(ps), rt)));
    }
  }

  /** The recovery component lies in 0..100 for any trades; with a square root that
      is never negative, the four stability components are at most 100. */
  lemma ConsistencyPartsBounds(closed: seq<Position>, rt: Runtime)
    requires closed != []
    ensures var c := ConsistencyPartsOf(closed, rt);
      0.0 <= c.drawdownRecoveryTime <= 100.0 &&
      (SqrtNonNegative(rt.sqrt) ==>
         c.winRateStability <= 100.0 && c.pnlVariance <= 100.0 &&
         c.tradeFrequencyRegularity <= 100.0 && c.profitFactorStability <= 100.0)
  {
    var sorted := SortBy(closed, CloseKey);
    SortByIsSorted(closed, CloseKey);
    AvgRecoveryNonNegative(sorted);
    if SqrtNonNegative(rt.sqrt) {
      StabilityAtMost100(WeeklyWinRates(closed, rt), rt.sqrt);
      StabilityAtMost100(DailyPnLs(closed), rt.sqrt);
      StabilityAtMost100(WeeklyTradeCounts(closed, rt), rt.sqrt);
      StabilityAtMost100(MonthlyProfitFactors(sorted, rt), rt.sqrt);
    }
  }

  /** Reported components are rounded after the floor at 0, so they are at least 0
      and keep any upper bound of 100; the overall score lies in 0..100. */
  lemma ScoreFromBounds(c: ConsistencyParts)
    ensures var r := ConsistencyScoreFrom(c);
      0 <= r.overall <= 100 &&
      r.components.winRateStability >= 0 && r.components.pnlVariance >= 0 &&
      r.components.tradeFrequencyRegularity >= 0 && r.components.drawdownRecoveryTime >= 0 &&
      r.components.profitFactorStability >= 0 &&
      (c.winRateStability <= 100.0 ==> r.components.winRateStability <= 100) &&
      (c.pnlVariance <= 100.0 ==> r.components.pnlVariance <= 100) &&
      (c.tradeFrequencyRegularity <= 100.0 ==> r.components.tradeFrequencyRegularity <= 100) &&
      (c.drawdownRecoveryTime <= 100.0 ==> r.components.drawdownRecoveryTime <= 100) &&
      (c.profitFactorStability <= 100.0 ==> r.components.profitFactorStability <= 100)
  {
    RoundWithin(ConsistencyOverall(c), 0, 100);
  }

  /** The overall score lies in 0..100 and every reported component is at least 0;
      with a square root that is never negative, every component is at most 100. */
  lemma ConsistencyScoreBounds(ps: seq<Position>, rt: Runtime)
    requires ClosedHaveTimes(ps)
    ensures var r := ConsistencyScoreOf(ps, rt);
      0 <= r.overall <= 100 &&
      r.components.winRateStability >= 0 && r.components.pnlVariance >= 0 &&
      r.components.tradeFrequencyRegularity >= 0 && r.components.drawdownRecoveryTime >= 0 &&
      r.components.profitFactorStability >= 0
    ensures SqrtNonNegative(rt.sqrt) ==> var r := ConsistencyScoreOf(ps, rt);
      r.components.winRateStability <= 100 && r.components.pnlVariance <= 100 &&
      r.components.tradeFrequencyRegularity <= 100 && r.components.drawdownRecoveryTime <= 100 &&
      r.components.profitFactorStability <= 100
  {
    var closed := ClosedOf(ps);
    if |closed| >= 10 {
      ConsistencyPartsBounds(closed, rt);
      ScoreFromBounds(ConsistencyPartsOf(closed, rt));
    }
  }

  /** The recommendation follows the unrounded score: 70, 50 and 30 are lower
      bounds of their bands. */
  lemma ConsistencyBands(c: ConsistencyParts)
    ensures var o, msg := ConsistencyOverall(c), ConsistencyScoreFrom(c).recommendation;
      (msg == "Excellent consistency! You trade like a professional." <==> o >= 70.0) &&
      (msg == "Good consistency. Focus on maintaining regular trading patterns." <==> 50.0 <= o < 70.0) &&
      (msg == "Moderate consistency. Work on stabilizing your win rate and PnL." <==> 30.0 <= o < 50.0) &&
      (msg == "Low consistency. Your results are too volatile. Focus on a proven strategy." <==> o < 30.0)
  {
    var e, g, m, l := "Excellent consistency! You trade like a professional.",
      "Good consistency. Focus on maintaining regular trading patterns.",
      "Moderate consistency. Work on stabilizing your win rate and PnL.",
      "Low consistency. Your results are too volatile. Focus on a proven strategy.";
    // The messages differ in their next-to-last character.
    assert e[|e| - 2] == 'l' && g[|g| - 2] == 's' && m[|m| - 2] == 'L' && l[|l| - 2] == 'y';
  }
}
