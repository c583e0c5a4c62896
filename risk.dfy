/** The 0-100 risk score: five components (drawdown severity, position-sizing
    dispersion, overtrading index, streak volatility, fee burn), weighted, clamped
    and banded into a level with its recommendation. */
module Risk {
  import opened Types
  import opened Seqs
  import opened Sorting
  import opened Calculator
  import opened Equity

  // ---------------------------------------------------------------------------
  // Day count
  // ---------------------------------------------------------------------------

  /** `getDayCount`: whole days, rounded up, between the earliest and the latest
      close, and at least 1; 0 for no positions. */
  function DayCount(ps: seq<Position>): int
  {
    if ps == [] then 0
    else
      var s := SortBy(ps, CloseKey);
      var span := CloseTime(s[|s| - 1]) - CloseTime(s[0]);
      var days := Ceil(span as real / MsPerDay as real);
      if days >= 1 then days else 1
  }

  /** The latest close minus the earliest close. */
  function CloseSpan(ps: seq<Position>): int
    requires ps != []
  {
    var s := SortBy(ps, CloseKey);
    CloseTime(s[|s| - 1]) - CloseTime(s[0])
  }

  lemma {:induction false} CloseSpanIsRange(ps: seq<Position>)
    requires ps != []
    ensures CloseSpan(ps) >= 0
    ensures forall i, j :: 0 <= i < |ps| && 0 <= j < |ps| ==> CloseTime(ps[i]) - CloseTime(ps[j]) <= CloseSpan(ps)
  {
    var s := SortBy(ps, CloseKey);
    SortByIsSorted(ps, CloseKey);
    forall i, j | 0 <= i < |ps| && 0 <= j < |ps|
      ensures CloseTime(ps[i]) - CloseTime(ps[j]) <= CloseSpan(ps)
    {
      assert ps[i] in multiset(s) && ps[j] in multiset(s);
      var a :| 0 <= a < |s| && s[a] == ps[i];
      var b :| 0 <= b < |s| && s[b] == ps[j];
      assert CloseKey(s[a]) <= CloseKey(s[|s| - 1]);
      assert CloseKey(s[0]) <= CloseKey(s[b]);
    }
  }

  /** The day count is the fewest whole days that cover the span of close times,
      and never less than one. */
  lemma DayCountCoversSpan(ps: seq<Position>)
    requires ps != []
    ensures var d, span := DayCount(ps), CloseSpan(ps);
      d >= 1 && span <= d * MsPerDay && (d == 1 || (d - 1) * MsPerDay < span)
  {
    var span := CloseSpan(ps);
    CloseSpanIsRange(ps);
    var x := span as real / MsPerDay as real;
    CeilBounds(x);
    assert x * MsPerDay as real == span as real;
  }

  // ---------------------------------------------------------------------------
  // Streaks
  // ---------------------------------------------------------------------------

  /** A run of consecutive wins (`won`) or of consecutive non-wins. */
  datatype Streak = Streak(length: nat, won: bool)

  /** Whether each trade won (a PnL above 0; breakeven counts with the losses). */
  function Outcomes(ps: seq<Position>): (os: seq<bool>)
    ensures |os| == |ps|
    ensures forall i :: 0 <= i < |ps| ==> os[i] == IsWin(ps[i])
  {
    seq(|ps|, i requires 0 <= i < |ps| => IsWin(ps[i]))
  }

  /** Adds one outcome to a list of streaks: it lengthens the last streak when of the
      same kind and opens a new streak of length 1 otherwise. */
  function Push(r: seq<Streak>, w: bool): seq<Streak>
  {
    if r != [] && r[|r| - 1].won == w then r[..|r| - 1] + [Streak(r[|r| - 1].length + 1, w)]
    else r + [Streak(1, w)]
  }

  /** The run-length encoding of the outcomes, built left to right. */
  function Runs(os: seq<bool>): seq<Streak>
  {
    if os == [] then [] else Push(Runs(os[..|os| - 1]), os[|os| - 1])
  }

  function Repeat(w: bool, n: nat): (r: seq<bool>)
    ensures |r| == n && forall i :: 0 <= i < n ==> r[i] == w
  {
    if n == 0 then [] else Repeat(w, n - 1) + [w]
  }

  /** The outcomes a list of streaks stands for. */
  function Expand(rs: seq<Streak>): seq<bool>
  {
    if rs == [] then [] else Expand(rs[..|rs| - 1]) + Repeat(rs[|rs| - 1].won, rs[|rs| - 1].length)
  }

  predicate WellFormedRuns(rs: seq<Streak>)
  {
    (forall i :: 0 <= i < |rs| ==> rs[i].length >= 1) &&
    (forall i :: 0 <= i < |rs| - 1 ==> rs[i].won != rs[i + 1].won)
  }

  lemma PushWellFormed(r: seq<Streak>, w: bool)
    requires WellFormedRuns(r)
    ensures WellFormedRuns(Push(r, w))
    ensures Push(r, w) != [] && Push(r, w)[|Push(r, w)| - 1].won == w
  {
    var rs := Push(r, w);
    if r != [] && r[|r| - 1].won == w {
      forall i | 0 <= i < |rs| - 1
        ensures rs[i].won != rs[i + 1].won
      {
        assert rs[i] == r[i];
        assert i + 1 < |r| - 1 ==> rs[i + 1] == r[i + 1];
      }
      forall i | 0 <= i < |rs|
        ensures rs[i].length >= 1
      {
        assert i < |r| - 1 ==> rs[i] == r[i];
      }
    } else {
      assert forall i :: 0 <= i < |r| ==> rs[i] == r[i];
    }
  }

  lemma PushExpand(r: seq<Streak>, w: bool)
    ensures Expand(Push(r, w)) == Expand(r) + [w]
  {
    var rs := Push(r, w);
    if r != [] && r[|r| - 1].won == w {
      var last := r[|r| - 1];
      assert rs[..|rs| - 1] == r[..|r| - 1];
      assert r[..|r| - 1] + [last] == r;
      assert Expand(r) == Expand(r[..|r| - 1]) + Repeat(w, last.length);
      assert Repeat(w, last.length + 1) == Repeat(w, last.length) + [w];
    } else {
      assert rs[..|rs| - 1] == r;
      assert Repeat(w, 1) == [w];
    }
  }

  /** The streaks are maximal runs: each at least one trade long, kinds alternating,
      and none at all only for no trades. */
  lemma {:induction false} RunsWellFormed(os: seq<bool>)
    ensures WellFormedRuns(Runs(os))
    ensures Runs(os) == [] <==> os == []
  {
    if os != [] {
      RunsWellFormed(os[..|os| - 1]);
      PushWellFormed(Runs(os[..|os| - 1]), os[|os| - 1]);
    }
  }

  /** Expanding the streaks gives back the outcomes. */
  lemma {:induction false} RunsRoundTrip(os: seq<bool>)
    ensures Expand(Runs(os)) == os
  {
    if os != [] {
      var os', w := os[..|os| - 1], os[|os| - 1];
      RunsRoundTrip(os');
      PushExpand(Runs(os'), w);
      assert os == os' + [w];
    }
  }

  function StreakLength(s: Streak): real { s.length as real }

  lemma {:induction false} ExpandLength(rs: seq<Streak>)
    ensures |Expand(rs)| as real == Sum(rs, StreakLength)
  {
    if rs != [] {
      ExpandLength(rs[..|rs| - 1]);
    }
  }

  /** Streak lengths add up to the number of trades. */
  lemma RunsTotal(os: seq<bool>)
    ensures Sum(Runs(os), StreakLength) == |os| as real
  {
    RunsRoundTrip(os);
    ExpandLength(Runs(os));
  }

  /** The streaks so far while the scan is in progress: the closed ones plus the
      current one, if any. */
  function Pending(streaks: seq<Streak>, currentStreak: nat, currentType: Option<bool>): seq<Streak>
  {
    if currentType.None? then [] else streaks + [Streak(currentStreak, currentType.value)]
  }

  lemma RunsStep(os: seq<bool>, i: nat)
    requires i < |os|
    ensures Runs(os[..i + 1]) == Push(Runs(os[..i]), os[i])
  {
    assert os[..i + 1][..i] == os[..i];
  }

  /** One more outcome lengthens the current streak or closes it and opens another. */
  lemma PendingPush(streaks: seq<Streak>, currentStreak: nat, currentType: Option<bool>, w: bool)
    ensures Push(Pending(streaks, currentStreak, currentType), w) ==
      if currentType == Some(w) then Pending(streaks, currentStreak + 1, currentType)
      else Pending(if currentType.Some? then streaks + [Streak(currentStreak, currentType.value)] else [], 1, Some(w))
  {
  }

  /** `calculateStreaks` on trades already in close order. */
  method CalculateStreaks(sorted: seq<Position>) returns (streaks: seq<Streak>)
    ensures streaks == Runs(Outcomes(sorted))
  {
    ghost var os := Outcomes(sorted);
    streaks := [];
    var currentStreak := 0;
    var currentType: Option<bool> := None;
    for i := 0 to |sorted|
      invariant currentType.None? <==> i == 0
      invariant currentType.None? ==> streaks == []
      invariant Runs(os[..i]) == Pending(streaks, currentStreak, currentType)
    {
      var won := IsWin(sorted[i]);
      RunsStep(os, i);
      PendingPush(streaks, currentStreak, currentType, won);
      if currentType == Some(won) {
        currentStreak := currentStreak + 1;
      } else {
        if currentType.Some? {
          streaks := streaks + [Streak(currentStreak, currentType.value)];
        }
        currentType := Some(won);
        currentStreak := 1;
      }
    }
    assert os[..|sorted|] == os;
    if currentType.Some? {
      streaks := streaks + [Streak(currentStreak, currentType.value)];
    }
  }

  // ---------------------------------------------------------------------------
  // Components
  // ---------------------------------------------------------------------------

  /** The five components before rounding. */
  datatype RiskParts = RiskParts(
    drawdownSeverity: real, positionSizingConsistency: real, overtradingIndex: real,
    winStreakVolatility: real, feeBurnRate: real)

  /** Current drawdown as a share of the maximum drawdown. */
  function DrawdownSeverity(d: DrawdownMetrics): real
  {
    if d.maxDrawdown > 0.0 then Ratio(d.currentDrawdown, d.maxDrawdown) * 100.0 else 0.0
  }

  /** The coefficient of variation, in percent, of a non-empty list: standard deviation
      over mean, or 0 unless the mean is positive. */
  function Dispersion(xs: seq<real>, sqrt: real -> real): real
    requires |xs| > 0
  {
    var m := Mean(xs);
    if m > 0.0 then StdDev(xs, sqrt) / m * 100.0 else 0.0
  }

  function Sizes(ps: seq<Position>): seq<real>
  {
    seq(|ps|, i requires 0 <= i < |ps| => MaxSize(ps[i]))
  }

  function StreakLengths(rs: seq<Streak>): seq<real>
  {
    seq(|rs|, i requires 0 <= i < |rs| => StreakLength(rs[i]))
  }

  /** Trades per day over profitable trades per day, in percent; 100 without a
      profitable trade. */
  function OvertradingIndex(trades: nat, profitable: nat, days: int): real
  {
    var d := if days >= 1 then days as real else 1.0;
    var tradesPerDay := trades as real / d;
    var profitablePerDay := profitable as real / d;
    if profitablePerDay > 0.0 then tradesPerDay / profitablePerDay * 100.0 else 100.0
  }

  function FeeBurnRate(totalFees: real, accountBalance: real): real
  {
    if accountBalance > 0.0 then totalFees / accountBalance * 100.0 else 0.0
  }

  function RiskPartsOf(closed: seq<Position>, es: seq<Execution>, accountBalance: real,
                       rt: Runtime): RiskParts
    requires closed != []
  {
    var sorted := SortBy(closed, CloseKey);
    var d := DrawdownOf(EquityCurveOf(closed, accountBalance));
    var streaks := Runs(Outcomes(sorted));
    RunsWellFormed(Outcomes(sorted));
    RiskParts(
      DrawdownSeverity(d),
      Dispersion(Sizes(sorted), rt.sqrt),
      OvertradingIndex(|sorted|, |Filter(sorted, IsWin)|, DayCount(sorted)),
      Dispersion(StreakLengths(streaks), rt.sqrt),
      FeeBurnRate(Sum(es, Fee), accountBalance))
  }

  /** The weighted score before rounding. */
  function RiskOverall(c: RiskParts): real
  {
    Clamp(c.drawdownSeverity * 0.30 + c.positionSizingConsistency * 0.20 +
          Min(c.overtradingIndex, 100.0) * 0.20 + c.winStreakVolatility * 0.15 +
          c.feeBurnRate * 0.15)
  }

  /** The level of an unrounded score: upper bounds 30, 60 and 80 are inclusive. */
  function RiskLevelOf(overall: real): RiskLevel
  {
    if overall <= 30.0 then Conservative
    else if overall <= 60.0 then Balanced
    else if overall <= 80.0 then Aggressive
    else Reckless
  }

  function RiskRecommendation(level: RiskLevel): string
  {
    match level
    case Conservative => "Your trading style is conservative. Consider increasing position sizes for better returns."
    case Balanced => "Your risk profile is balanced. Maintain this approach for consistent results."
    case Aggressive => "You are trading aggressively. Monitor your drawdowns and position sizing."
    case Reckless => "WARNING: Your trading is reckless. Reduce position sizes and trade frequency immediately."
  }

  const NoRiskScore: RiskScore :=
    RiskScore(0, Conservative, RiskComponents(0, 0, 0, 0, 0), "Not enough data to calculate risk score.")

  /** The reported score: level and recommendation from the unrounded overall,
      every number rounded. */
  function RiskScoreFrom(c: RiskParts): RiskScore
  {
    var overall := RiskOverall(c);
    var level := RiskLevelOf(overall);
    RiskScore(Round(overall), level,
      RiskComponents(Round(c.drawdownSeverity), Round(c.positionSizingConsistency),
                     Round(Min(c.overtradingIndex, 100.0)), Round(c.winStreakVolatility),
                     Round(c.feeBurnRate)),
      RiskRecommendation(level))
  }

  /** `calculateRiskScore`; every CLOSED position carries a close time. */
  function RiskScoreOf(ps: seq<Position>, es: seq<Execution>, accountBalance: real, rt: Runtime): RiskScore
    requires ClosedHaveTimes(ps)
  {
    var closed := ClosedOf(ps);
    if closed == [] then NoRiskScore
    else RiskScoreFrom(RiskPartsOf(closed, es, accountBalance, rt))
  }

  method CalculateRiskScore(ps: seq<Position>, es: seq<Execution>, accountBalance: real, rt: Runtime)
    returns (r: RiskScore)
    requires ClosedHaveTimes(ps)
    ensures r == RiskScoreOf(ps, es, accountBalance, rt)
  {
    var closed := Filter(ps, IsClosed);
    if |closed| == 0 {
      return NoRiskScore;
    }
    var curve := CalculateEquityCurve(closed, accountBalance);
    var dd := CalculateDrawdown(curve);
    // The equity curve sorts `closed` in place; every later step sees it sorted.
    var sorted := SortBy(closed, CloseKey);
    var streaks := CalculateStreaks(sorted);
    RunsWellFormed(Outcomes(sorted));
    var parts := RiskParts(
      DrawdownSeverity(dd),
      Dispersion(Sizes(sorted), rt.sqrt),
      OvertradingIndex(|sorted|, |Filter(sorted, IsWin)|, DayCount(sorted)),
      Dispersion(StreakLengths(streaks), rt.sqrt),
      FeeBurnRate(Sum(es, Fee), accountBalance));
    r := RiskScoreFrom(parts);
  }

  // ---------------------------------------------------------------------------
  // Properties
  // ---------------------------------------------------------------------------

  /** Trades per day can never be fewer than profitable trades per day, so the
      index is at least 100; without a profitable trade it is exactly 100. */
  lemma OvertradingIndexAtLeast100(trades: nat, profitable: nat, days: int)
    requires profitable <= trades
    ensures OvertradingIndex(trades, profitable, days) >= 100.0
    ensures profitable == 0 ==> OvertradingIndex(trades, profitable, days) == 100.0
  {
    var d := if days >= 1 then days as real else 1.0;
    var t, p := trades as real / d, profitable as real / d;
    if p > 0.0 {
      assert t * d == trades as real && p * d == profitable as real;
      assert t >= p;
      var q := t / p;
      assert q * p == t;
      assert q >= 1.0;
    }
  }

  /** A drawdown severity is a share of the maximum drawdown: within 0..100. */
  lemma DrawdownSeverityWithin(curve: seq<EquityPoint>)
    ensures 0.0 <= DrawdownSeverity(DrawdownOf(curve)) <= 100.0
  {
    var d := DrawdownOf(curve);
    CurrentWithinMax(curve);
    if d.maxDrawdown > 0.0 {
      RatioAtMostOne(d.currentDrawdown, d.maxDrawdown);
    }
  }

  /** With at least one closed trade the reported overtrading component is always
      exactly 100, whatever the trades. */
  lemma OvertradingComponentIsAlways100(ps: seq<Position>, es: seq<Execution>, accountBalance: real, rt: Runtime)
    requires ClosedHaveTimes(ps)
    requires ClosedOf(ps) != []
    ensures RiskScoreOf(ps, es, accountBalance, rt).components.overtradingIndex == 100
  {
    var sorted := SortBy(ClosedOf(ps), CloseKey);
    OvertradingIndexAtLeast100(|sorted|, |Filter(sorted, IsWin)|, DayCount(sorted));
  }

  /** Without a closed trade the score is the fixed "not enough data" answer. */
  lemma NoClosedNoRisk(ps: seq<Position>, es: seq<Execution>, accountBalance: real, rt: Runtime)
    requires ClosedHaveTimes(ps)
    ensures ClosedOf(ps) == [] <==> RiskScoreOf(ps, es, accountBalance, rt) == NoRiskScore
  {
    if ClosedOf(ps) != [] {
      var sorted := SortBy(ClosedOf(ps), CloseKey);
      OvertradingIndexAtLeast100(|sorted|, |Filter(sorted, IsWin)|, DayCount(sorted));
    }
  }

  /** The overall score and the drawdown component lie within 0..100. */
  lemma RiskScoreBounds(ps: seq<Position>, es: seq<Execution>, accountBalance: real, rt: Runtime)
    requires ClosedHaveTimes(ps)
    ensures var r := RiskScoreOf(ps, es, accountBalance, rt);
      0 <= r.overall <= 100 && 0 <= r.components.drawdownSeverity <= 100
  {
    var closed := ClosedOf(ps);
    if closed != [] {
      var parts := RiskPartsOf(closed, es, accountBalance, rt);
      DrawdownSeverityWithin(EquityCurveOf(closed, accountBalance));
      RoundWithin(RiskOverall(parts), 0, 100);
      RoundWithin(parts.drawdownSeverity, 0, 100);
    }
  }

  /** Each level holds exactly for its band of the unrounded score, and the rounded
      score then lies in that band's closed range, so it can sit on the boundary of
      the band below (30.4 is reported as 30 but is BALANCED). */
  lemma RiskLevelBands(c: RiskParts)
    ensures var r, o := RiskScoreFrom(c), RiskOverall(c);
      (r.level == Conservative <==> o <= 30.0) &&
      (r.level == Balanced <==> 30.0 < o <= 60.0) &&
      (r.level == Aggressive <==> 60.0 < o <= 80.0) &&
      (r.level == Reckless <==> 80.0 < o) &&
      (r.level == Conservative ==> 0 <= r.overall <= 30) &&
      (r.level == Balanced ==> 30 <= r.overall <= 60) &&
      (r.level == Aggressive ==> 60 <= r.overall <= 80) &&
      (r.level == Reckless ==> 80 <= r.overall <= 100) &&
      r.recommendation == RiskRecommendation(r.level)
  {
    var o := RiskOverall(c);
    LevelRounding(o);
    assert RiskScoreFrom(c).overall == Round(o) && RiskScoreFrom(c).level == RiskLevelOf(o);
  }

  /** The level bands of a clamped overall, and the range its rounding lands in. */
  lemma LevelRounding(o: real)
    requires 0.0 <= o <= 100.0
    ensures RiskLevelOf(o) == Conservative <==> o <= 30.0
    ensures RiskLevelOf(o) == Balanced <==> 30.0 < o <= 60.0
    ensures RiskLevelOf(o) == Aggressive <==> 60.0 < o <= 80.0
    ensures RiskLevelOf(o) == Reckless <==> 80.0 < o
    ensures RiskLevelOf(o) == Conservative ==> 0 <= Round(o) <= 30
    ensures RiskLevelOf(o) == Balanced ==> 30 <= Round(o) <= 60
    ensures RiskLevelOf(o) == Aggressive ==> 60 <= Round(o) <= 80
    ensures RiskLevelOf(o) == Reckless ==> 80 <= Round(o) <= 100
  {
    if o <= 30.0 { RoundWithin(o, 0, 30); }
    else if o <= 60.0 { RoundWithin(o, 30, 60); }
    else if o <= 80.0 { RoundWithin(o, 60, 80); }
    else { RoundWithin(o, 80, 100); }
  }

  lemma BalancedReportedAs30()
    ensures RiskLevelOf(30.4) == Balanced && Round(30.4) == 30
  {
  }
}
