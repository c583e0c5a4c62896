/** The complete analytics record: every metric of the journal computed over the
    same positions and executions. */
module Analytics {
  import opened Types
  import opened Seqs
  import opened Calculator
  import opened Equity
  import opened Buckets
  import opened Risk
  import opened Overtrading
  import opened Consistency
  import opened Capital

  /** The balance the equity curve and the risk score start from when the caller
      gives none. */
  const DefaultStartingBalance: real := 10000.0

  /** `calculateCompleteAnalytics`; the risk score reads the starting balance as the
      account balance. Every CLOSED position carries a close time. */
  function CompleteAnalyticsOf(ps: seq<Position>, es: seq<Execution>, startingBalance: real, rt: Runtime)
    : CompleteAnalytics
    requires ClosedHaveTimes(ps)
  {
    var curve := EquityCurveOf(ps, startingBalance);
    CompleteAnalytics(
      CoreMetricsOf(ps, es),
      WinRateOf(ps),
      AvgWinLossOf(ps),
      LongShortOf(ps),
      DurationMetricsOf(ps),
      ExtremesOf(ps),
      VolumeAndFeesOf(es, ps),
      ExpectancyOf(ps),
      curve,
      DrawdownOf(curve),
      DailyPerformanceOf(ps),
      HourlyPerformanceOf(ps),
      OrderTypePerformanceOf(ps, es),
      RiskScoreOf(ps, es, startingBalance, rt),
      OvertradingSignalsOf(ps),
      ConsistencyScoreOf(ps, rt),
      CapitalEfficiencyOf(ps, es))
  }

  method CalculateCompleteAnalytics(ps: seq<Position>, es: seq<Execution>, startingBalance: real, rt: Runtime)
    returns (a: CompleteAnalytics)
    requires ClosedHaveTimes(ps)
    ensures a == CompleteAnalyticsOf(ps, es, startingBalance, rt)
  {
    var curve := CalculateEquityCurve(ps, startingBalance);
    var drawdown := CalculateDrawdown(curve);
    var daily := CalculateDailyPerformance(ps);
    var hourly := CalculateHourlyPerformance(ps);
    var byType := CalculateOrderTypePerformance(ps, es);
    var risk := CalculateRiskScore(ps, es, startingBalance, rt);
    var signals := DetectOvertrading(ps);
    var consistency := CalculateConsistencyScore(ps, rt);
    a := CompleteAnalytics(
      CoreMetricsOf(ps, es), WinRateOf(ps), AvgWinLossOf(ps), LongShortOf(ps),
      DurationMetricsOf(ps), ExtremesOf(ps), VolumeAndFeesOf(es, ps), ExpectancyOf(ps),
      curve, drawdown, daily, hourly, byType, risk, signals, consistency,
      CapitalEfficiencyOf(ps, es));
  }

  /** When every closed position has a close time, the timed closed trades are
      exactly the closed trades. */
  lemma TimedAreClosed(ps: seq<Position>)
    requires ClosedHaveTimes(ps)
    ensures Filter(ps, IsClosedWithTime) == ClosedOf(ps)
  {
    FilterAgree(ps, IsClosedWithTime, IsClosed);
  }

  /** The parts of one report agree with each other: the trade count, the fee and
      volume totals, the daily totals and the equity curve's last point all count
      the same closed trades, the drawdown is that of the reported curve, and with a
      closed trade the capital efficiency's net PnL is the core one and the risk
      score's overtrading component is 100. */
  lemma {:induction false} CompleteAnalyticsAgree(ps: seq<Position>, es: seq<Execution>, startingBalance: real, rt: Runtime)
    requires ClosedHaveTimes(ps)
    ensures var a := CompleteAnalyticsOf(ps, es, startingBalance, rt);
      a.core.tradeCount == a.winRate.totalTrades &&
      a.volumeAndFees.totalFees == a.core.totalFees &&
      a.volumeAndFees.totalVolume == a.core.totalVolume &&
      |a.equityCurve| == a.core.tradeCount &&
      (|a.equityCurve| > 0 ==> a.equityCurve[|a.equityCurve| - 1].cumulativePnL == a.core.grossPnL) &&
      a.drawdown == DrawdownOf(a.equityCurve) &&
      Sum(a.dailyPerformance, DayTrades) == a.core.tradeCount as real &&
      Sum(a.dailyPerformance, DayPnL) == a.core.grossPnL &&
      (a.core.tradeCount > 0 ==>
         a.capitalEfficiency.netPnL == a.core.netPnL &&
         a.riskScore.components.overtradingIndex == 100)
  {
    TimedAreClosed(ps);
    VolumeAndFeesAgreeWithCore(es, ps);
    EquityCurveOrdered(ps, startingBalance);
    EquityCurveTotal(ps, startingBalance);
    DailyPerformanceTotals(ps);
    if ClosedOf(ps) != [] {
      CapitalAgreesWithCore(ps, es);
      OvertradingComponentIsAlways100(ps, es, startingBalance, rt);
    }
  }
}
