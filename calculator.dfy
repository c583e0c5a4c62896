/** The filter/reduce aggregations of the analytics calculator: PnL and fee totals,
    win/loss statistics, the long/short split, holding durations, best and worst
    trades and the maker/taker fee split. */
module Calculator {
  import opened Types
  import opened Seqs
  import opened Sorting

  /** The trades every aggregation is computed over: status CLOSED only, so OPEN and
      LIQUIDATED positions are excluded. */
  function ClosedOf(ps: seq<Position>): seq<Position>
  {
    Filter(ps, IsClosed)
  }

  function GrossPnL(ps: seq<Position>): real
  {
    Sum(ClosedOf(ps), PnL)
  }

  // ---------------------------------------------------------------------------
  // Core metrics
  // ---------------------------------------------------------------------------

  function CoreMetricsOf(ps: seq<Position>, es: seq<Execution>): CoreMetrics
  {
    var gross := GrossPnL(ps);
    var fees := Sum(es, Fee);
    CoreMetrics(gross, gross - fees, fees, Sum(es, Notional), |ClosedOf(ps)|)
  }

  lemma CoreMetricsOfNothing()
    ensures CoreMetricsOf([], []) == CoreMetrics(0.0, 0.0, 0.0, 0.0, 0)
  {
  }

  /** One more position: a CLOSED one adds its PnL to gross and net PnL and one to
      the trade count; any other position changes nothing. */
  lemma CoreMetricsAddPosition(ps: seq<Position>, p: Position, es: seq<Execution>)
    ensures var m, m' := CoreMetricsOf(ps, es), CoreMetricsOf(ps + [p], es);
      if p.status == Closed then
        m' == m.(grossPnL := m.grossPnL + PnL(p), netPnL := m.netPnL + PnL(p),
                 tradeCount := m.tradeCount + 1)
      else m' == m
  {
    assert (ps + [p])[..|ps|] == ps;
    assert ClosedOf(ps + [p]) == ClosedOf(ps) + (if p.status == Closed then [p] else []);
    if p.status != Closed {
      assert ClosedOf(ps + [p]) == ClosedOf(ps);
    }
  }

  /** One more execution, whatever position it belongs to: its fee is added to the
      fees and taken off net PnL, its notional is added to the volume. */
  lemma CoreMetricsAddExecution(ps: seq<Position>, es: seq<Execution>, e: Execution)
    ensures var m, m' := CoreMetricsOf(ps, es), CoreMetricsOf(ps, es + [e]);
      m' == m.(netPnL := m.netPnL - e.fee, totalFees := m.totalFees + e.fee,
               totalVolume := m.totalVolume + e.notional)
  {
    assert (es + [e])[..|es|] == es;
  }

  // ---------------------------------------------------------------------------
  // Win rate, average win and loss, expectancy
  // ---------------------------------------------------------------------------

  /** Every trade is exactly one of win, loss or breakeven, and breakevens add nothing
      to the PnL. */
  lemma {:induction false} OutcomeSplit(s: seq<Position>)
    ensures |Filter(s, IsWin)| + |Filter(s, IsLoss)| + |Filter(s, IsBreakeven)| == |s|
    ensures Sum(Filter(s, IsWin), PnL) + Sum(Filter(s, IsLoss), PnL) == Sum(s, PnL)
  {
    if s != [] {
      var s', x := s[..|s| - 1], s[|s| - 1];
      OutcomeSplit(s');
      SumAppend(Filter(s', IsWin), if IsWin(x) then [x] else [], PnL);
      SumAppend(Filter(s', IsLoss), if IsLoss(x) then [x] else [], PnL);
      assert Sum([x], PnL) == PnL(x) by {
        assert [x][..0] == [];
      }
    }
  }

  function WinRateOf(ps: seq<Position>): (w: WinRateMetrics)
    ensures w.totalTrades == |ClosedOf(ps)|
    ensures w.winCount + w.lossCount + w.breakevenCount == w.totalTrades
    ensures w.totalTrades > 0 ==> w.winRate + w.lossRate + w.breakevenRate == 100.0
    ensures w.totalTrades > 0 ==>
      0.0 <= w.winRate <= 100.0 && 0.0 <= w.lossRate <= 100.0 && 0.0 <= w.breakevenRate <= 100.0
    ensures w.totalTrades == 0 ==> w == WinRateMetrics(0.0, 0.0, 0.0, 0, 0, 0, 0)
  {
    var c := ClosedOf(ps);
    var t := |c|;
    if t == 0 then WinRateMetrics(0.0, 0.0, 0.0, 0, 0, 0, 0)
    else
      var wc, lc, bc := |Filter(c, IsWin)|, |Filter(c, IsLoss)|, |Filter(c, IsBreakeven)|;
      OutcomeSplit(c);
      PercentWithin(wc, t);
      PercentWithin(lc, t);
      PercentWithin(bc, t);
      PercentsAddUp(wc, lc, bc, t);
      WinRateMetrics(Percent(wc, t), Percent(lc, t), Percent(bc, t), wc, lc, bc, t)
  }

  function Abs(x: real): real { if x < 0.0 then -x else x }

  /** `length > 0 ? wins / length * 100 : 0`, the win rate of a bucket of trades. */
  function WinRatePct(g: seq<Position>): (r: real)
    ensures 0.0 <= r <= 100.0
    ensures g == [] ==> r == 0.0
    ensures g != [] ==> (r == 0.0 <==> forall p :: p in g ==> !IsWin(p))
    ensures g != [] ==> (r == 100.0 <==> forall p :: p in g ==> IsWin(p))
  {
    if |g| == 0 then 0.0
    else
      var k := |Filter(g, IsWin)|;
      PercentWithin(k, |g|);
      PercentExtremes(k, |g|);
      FilterEmpty(g, IsWin);
      FilterAll(g, IsWin);
      Percent(k, |g|)
  }

  function AvgWinLossOf(ps: seq<Position>): (a: AvgWinLoss)
    ensures a.avgWin >= 0.0 && a.avgLoss <= 0.0 && a.winLossRatio >= 0.0
    ensures a.avgWin > 0.0 <==> exists p :: p in ClosedOf(ps) && IsWin(p)
    ensures a.avgLoss < 0.0 <==> exists p :: p in ClosedOf(ps) && IsLoss(p)
    ensures a.avgLoss == 0.0 ==> a.winLossRatio == 0.0
  {
    var c := ClosedOf(ps);
    var wins, losses := Filter(c, IsWin), Filter(c, IsLoss);
    var avgWin := MeanOr0(Sum(wins, PnL), |wins|);
    var avgLoss := MeanOr0(Sum(losses, PnL), |losses|);
    assert forall i :: 0 <= i < |wins| ==> PnL(wins[i]) > 0.0 by {
      forall i | 0 <= i < |wins| ensures PnL(wins[i]) > 0.0 {
        assert wins[i] in wins;
      }
    }
    assert forall i :: 0 <= i < |losses| ==> PnL(losses[i]) < 0.0 by {
      forall i | 0 <= i < |losses| ensures PnL(losses[i]) < 0.0 {
        assert losses[i] in losses;
      }
    }
    SumPositive(wins, PnL);
    SumNegative(losses, PnL);
    FilterEmpty(c, IsWin);
    FilterEmpty(c, IsLoss);
    AvgWinLoss(avgWin, avgLoss, Ratio(avgWin, Abs(avgLoss)))
  }

  /** The mean PnL per closed trade, 0 without closed trades. */
  function ExpectancyOf(ps: seq<Position>): real
  {
    MeanOr0(GrossPnL(ps), |ClosedOf(ps)|)
  }

  // ---------------------------------------------------------------------------
  // Long / short split
  // ---------------------------------------------------------------------------

  function LongShortOf(ps: seq<Position>): LongShortMetrics
  {
    var c := ClosedOf(ps);
    var longs, shorts := Filter(c, IsLongSide), Filter(c, IsShortSide);
    var longPnL, shortPnL := Sum(longs, PnL), Sum(shorts, PnL);
    LongShortMetrics(
      |longs|, |shorts|, longPnL, shortPnL,
      if |shorts| > 0 then |longs| as real / |shorts| as real else |longs| as real,
      Ratio(longPnL, Abs(shortPnL)))
  }

  /** Every closed trade is on exactly one side, so the split partitions the trades
      and their PnL. */
  lemma LongShortPartition(ps: seq<Position>)
    ensures var m := LongShortOf(ps);
      m.longCount + m.shortCount == |ClosedOf(ps)| && m.longPnL + m.shortPnL == GrossPnL(ps)
  {
    SumSplit(ClosedOf(ps), IsLongSide, IsShortSide, PnL);
  }

  // ---------------------------------------------------------------------------
  // Holding durations
  // ---------------------------------------------------------------------------

  /** Holding time in seconds, from open to close. */
  function Duration(p: Position): real
  {
    (CloseTime(p) - p.openedAt) as real / 1000.0
  }

  function Durations(c: seq<Position>): (ds: seq<real>)
    ensures |ds| == |c|
    ensures forall i :: 0 <= i < |c| ==> ds[i] == Duration(c[i])
  {
    seq(|c|, i requires 0 <= i < |c| => Duration(c[i]))
  }

  function DurationMetricsOf(ps: seq<Position>): (d: DurationMetrics)
    ensures Filter(ps, IsClosedWithTime) == [] ==> d == DurationMetrics(0.0, 0.0, 0.0, 0.0, 0.0, 0.0)
    ensures Filter(ps, IsClosedWithTime) != [] ==>
      d.shortestTrade <= d.medianDurationSeconds <= d.longestTrade &&
      d.shortestTrade <= d.avgDurationSeconds <= d.longestTrade
    ensures forall p :: p in Filter(ps, IsClosedWithTime) ==>
      d.shortestTrade <= Duration(p) <= d.longestTrade
    ensures Filter(ps, IsClosedWithTime) != [] ==>
      d.avgDurationSeconds == Mean(Durations(Filter(ps, IsClosedWithTime)))
    ensures d.avgDurationHours == d.avgDurationSeconds / 3600.0
    ensures d.avgDurationDays == d.avgDurationSeconds / 86400.0
  {
    var c := Filter(ps, IsClosedWithTime);
    if |c| == 0 then DurationMetrics(0.0, 0.0, 0.0, 0.0, 0.0, 0.0)
    else
      var ds := Durations(c);
      var avg := Mean(ds);
      var sorted := SortBy(ds, Id);
      var median := sorted[|sorted| / 2];
      var lo, hi := MinOf(ds), MaxOf(ds);
      assert median in ds by {
        assert median in multiset(sorted);
      }
      MeanWithin(ds, lo, hi);
      assert forall p :: p in c ==> lo <= Duration(p) <= hi by {
        forall p | p in c ensures lo <= Duration(p) <= hi {
          var i :| 0 <= i < |c| && c[i] == p;
          assert ds[i] == Duration(p);
        }
      }
      DurationMetrics(avg, avg / 3600.0, avg / 86400.0, median, lo, hi)
  }

  /** With timed closed trades, the shortest and longest durations are those of some
      trade. */
  lemma DurationExtremesAttained(ps: seq<Position>)
    ensures Filter(ps, IsClosedWithTime) != [] ==>
      exists p :: p in Filter(ps, IsClosedWithTime) && Duration(p) == DurationMetricsOf(ps).shortestTrade
    ensures Filter(ps, IsClosedWithTime) != [] ==>
      exists p :: p in Filter(ps, IsClosedWithTime) && Duration(p) == DurationMetricsOf(ps).longestTrade
  {
    var c := Filter(ps, IsClosedWithTime);
    if c != [] {
      var ds := Durations(c);
      var lo, hi := MinOf(ds), MaxOf(ds);
      assert DurationMetricsOf(ps).shortestTrade == lo && DurationMetricsOf(ps).longestTrade == hi;
      var i :| 0 <= i < |ds| && ds[i] == lo;
      assert c[i] in c && Duration(c[i]) == lo;
      var j :| 0 <= j < |ds| && ds[j] == hi;
      assert c[j] in c && Duration(c[j]) == hi;
    }
  }

  /** The median is the duration at position `n / 2` in ascending order: one of the
      durations, with more than `n / 2` durations at or below it and at least
      `n - n / 2` at or above it. */
  lemma DurationMedian(ps: seq<Position>)
    ensures Filter(ps, IsClosedWithTime) != [] ==>
      DurationMetricsOf(ps).medianDurationSeconds in Durations(Filter(ps, IsClosedWithTime))
    ensures Filter(ps, IsClosedWithTime) != [] ==>
      |Filter(Durations(Filter(ps, IsClosedWithTime)), AtMost(DurationMetricsOf(ps).medianDurationSeconds))| >
        |Filter(ps, IsClosedWithTime)| / 2
    ensures Filter(ps, IsClosedWithTime) != [] ==>
      |Filter(Durations(Filter(ps, IsClosedWithTime)), AtLeast(DurationMetricsOf(ps).medianDurationSeconds))| >=
        |Filter(ps, IsClosedWithTime)| - |Filter(ps, IsClosedWithTime)| / 2
  {
    var ds := Durations(Filter(ps, IsClosedWithTime));
    if ds != [] {
      var sorted := SortBy(ds, Id);
      assert DurationMetricsOf(ps).medianDurationSeconds == sorted[|ds| / 2];
      assert sorted[|ds| / 2] in multiset(ds);
      SortedRank(ds, |ds| / 2);
    }
  }

  // ---------------------------------------------------------------------------
  // Best and worst trade
  // ---------------------------------------------------------------------------

  /** `reduce((max, p) => pnl(p) > pnl(max) ? p : max)`: the first trade with the
      largest PnL. */
  function BestIndex(c: seq<Position>): (b: nat)
    requires |c| > 0
    ensures b < |c|
    ensures forall j :: 0 <= j < |c| ==> PnL(c[j]) <= PnL(c[b])
    ensures forall j :: 0 <= j < b ==> PnL(c[j]) < PnL(c[b])
  {
    if |c| == 1 then 0
    else
      var b := BestIndex(c[..|c| - 1]);
      assert forall j :: 0 <= j < |c| - 1 ==> c[..|c| - 1][j] == c[j];
      if PnL(c[|c| - 1]) > PnL(c[b]) then |c| - 1 else b
  }

  /** `reduce((min, p) => pnl(p) < pnl(min) ? p : min)`: the first trade with the
      smallest PnL. */
  function WorstIndex(c: seq<Position>): (w: nat)
    requires |c| > 0
    ensures w < |c|
    ensures forall j :: 0 <= j < |c| ==> PnL(c[w]) <= PnL(c[j])
    ensures forall j :: 0 <= j < w ==> PnL(c[w]) < PnL(c[j])
  {
    if |c| == 1 then 0
    else
      var w := WorstIndex(c[..|c| - 1]);
      assert forall j :: 0 <= j < |c| - 1 ==> c[..|c| - 1][j] == c[j];
      if PnL(c[|c| - 1]) < PnL(c[w]) then |c| - 1 else w
  }

  function ExtremesOf(ps: seq<Position>): (x: ExtremeMetrics)
    ensures ClosedOf(ps) == [] ==> x == ExtremeMetrics(0.0, 0.0, "", "", None, None)
    ensures forall p :: p in ClosedOf(ps) ==> x.largestLoss <= PnL(p) <= x.largestGain
    ensures ClosedOf(ps) != [] ==>
      var c := ClosedOf(ps);
      (exists i :: 0 <= i < |c| && PnL(c[i]) == x.largestGain &&
         x.largestGainSymbol == c[i].symbol && x.largestGainDate == c[i].closedAt &&
         forall j :: 0 <= j < i ==> PnL(c[j]) < x.largestGain) &&
      (exists i :: 0 <= i < |c| && PnL(c[i]) == x.largestLoss &&
         x.largestLossSymbol == c[i].symbol && x.largestLossDate == c[i].closedAt &&
         forall j :: 0 <= j < i ==> x.largestLoss < PnL(c[j]))
  {
    var c := ClosedOf(ps);
    if |c| == 0 then ExtremeMetrics(0.0, 0.0, "", "", None, None)
    else
      var best, worst := c[BestIndex(c)], c[WorstIndex(c)];
      ExtremeMetrics(PnL(best), PnL(worst), best.symbol, worst.symbol, best.closedAt, worst.closedAt)
  }

  /** The mean PnL lies between the worst and the best trade. */
  lemma ExpectancyWithinExtremes(ps: seq<Position>)
    requires ClosedOf(ps) != []
    ensures ExtremesOf(ps).largestLoss <= ExpectancyOf(ps) <= ExtremesOf(ps).largestGain
  {
    var c, x := ClosedOf(ps), ExtremesOf(ps);
    assert forall i :: 0 <= i < |c| ==> x.largestLoss <= PnL(c[i]) <= x.largestGain by {
      forall i | 0 <= i < |c| ensures x.largestLoss <= PnL(c[i]) <= x.largestGain {
        assert c[i] in c;
      }
    }
    MeanPnLWithin(c, x.largestLoss, x.largestGain);
  }

  lemma MeanPnLWithin(c: seq<Position>, lo: real, hi: real)
    requires |c| > 0
    requires forall i :: 0 <= i < |c| ==> lo <= PnL(c[i]) <= hi
    ensures lo <= MeanOr0(Sum(c, PnL), |c|) <= hi
  {
    SumBounds(c, PnL, lo, hi);
    MeanOr0Bounds(Sum(c, PnL), |c|, lo, hi);
  }

  // ---------------------------------------------------------------------------
  // Volume and fees
  // ---------------------------------------------------------------------------

  function VolumeAndFeesOf(es: seq<Execution>, ps: seq<Position>): (v: VolumeAndFees)
    ensures v.makerFees + v.takerFees == v.totalFees
    ensures v.totalVolume == 0.0 ==> v.feePercentOfVolume == 0.0
    ensures GrossPnL(ps) == 0.0 ==> v.feePercentOfPnL == 0.0
    ensures ClosedOf(ps) == [] ==> v.avgFeePerTrade == 0.0
  {
    var volume, fees := Sum(es, Notional), Sum(es, Fee);
    var gross := GrossPnL(ps);
    var n := |ClosedOf(ps)|;
    SumSplit(es, IsMakerFill, IsTakerFill, Fee);
    VolumeAndFees(
      volume, fees,
      Ratio(fees, Abs(gross)) * 100.0,
      Ratio(fees, volume) * 100.0,
      MeanOr0(fees, n),
      Sum(Filter(es, IsMakerFill), Fee),
      Sum(Filter(es, IsTakerFill), Fee))
  }

  /** The fee and volume totals agree with the core metrics. */
  lemma VolumeAndFeesAgreeWithCore(es: seq<Execution>, ps: seq<Position>)
    ensures VolumeAndFeesOf(es, ps).totalFees == CoreMetricsOf(ps, es).totalFees
    ensures VolumeAndFeesOf(es, ps).totalVolume == CoreMetricsOf(ps, es).totalVolume
  {
  }
}
