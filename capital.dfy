/** Capital efficiency: net PnL as a percentage of the volume deployed in closed
    trades, banded into four levels. */
module Capital {
  import opened Types
  import opened Seqs
  import opened Calculator

  /** The level of an unrounded score: lower bounds 5, 15 and 30 are inclusive. */
  function EfficiencyLevelOf(score: real): EfficiencyLevel
  {
    if score < 5.0 then Inefficient
    else if score < 15.0 then Average
    else if score < 30.0 then Good
    else Excellent
  }

  function EfficiencyRecommendation(level: EfficiencyLevel): string
  {
    match level
    case Inefficient => "Your capital efficiency is low. You may be overtrading or using poor position sizing."
    case Average => "Average capital efficiency. Focus on quality trades over quantity."
    case Good => "Good capital efficiency! You are converting capital to profit effectively."
    case Excellent => "Excellent capital efficiency! You are maximizing returns on deployed capital."
  }

  const NoCapitalEfficiency: CapitalEfficiency :=
    CapitalEfficiency(0.0, Inefficient, 0.0, 0.0, "No closed positions to analyze.")

  /** `score * 100` rounded, over 100: the score to two decimals. */
  function TwoDecimals(x: real): real
  {
    Round(x * 100.0) as real / 100.0
  }

  /** Net PnL over deployed volume, in percent; 0 when nothing was deployed. */
  function EfficiencyScore(netPnL: real, deployed: real): real
  {
    if deployed > 0.0 then netPnL / deployed * 100.0 else 0.0
  }

  /** The figures for a non-empty set of closed trades. */
  function CapitalFrom(deployed: real, netPnL: real): CapitalEfficiency
  {
    var score := EfficiencyScore(netPnL, deployed);
    var level := EfficiencyLevelOf(score);
    CapitalEfficiency(TwoDecimals(score), level, deployed, netPnL, EfficiencyRecommendation(level))
  }

  /** `calculateCapitalEfficiency`. */
  function CapitalEfficiencyOf(ps: seq<Position>, es: seq<Execution>): CapitalEfficiency
  {
    var closed := ClosedOf(ps);
    if closed == [] then NoCapitalEfficiency
    else CapitalFrom(Sum(closed, TotalVolume), Sum(closed, PnL) - Sum(es, Fee))
  }

  /** The reported score is the true score to within half a hundredth. */
  lemma TwoDecimalsClose(x: real)
    ensures x - 0.005 <= TwoDecimals(x) <= x + 0.005
  {
    var y := x * 100.0;
    assert y - 0.5 <= Round(y) as real <= y + 0.5;
  }

  /** With capital deployed, the score has the sign of the net PnL; without, it is 0. */
  lemma EfficiencyScoreSign(netPnL: real, deployed: real)
    ensures deployed > 0.0 ==> (EfficiencyScore(netPnL, deployed) > 0.0 <==> netPnL > 0.0)
    ensures deployed > 0.0 ==> (EfficiencyScore(netPnL, deployed) == 0.0 <==> netPnL == 0.0)
    ensures deployed <= 0.0 ==> EfficiencyScore(netPnL, deployed) == 0.0
  {
    if deployed > 0.0 {
      var q := netPnL / deployed;
      assert q * deployed == netPnL;
      if q > 0.0 { assert netPnL > 0.0; }
      if netPnL > 0.0 { assert q > 0.0; }
    }
  }

  /** Each level holds exactly for its half-open band of the unrounded score. */
  lemma EfficiencyLevelBands(score: real)
    ensures EfficiencyLevelOf(score) == Inefficient <==> score < 5.0
    ensures EfficiencyLevelOf(score) == Average <==> 5.0 <= score < 15.0
    ensures EfficiencyLevelOf(score) == Good <==> 15.0 <= score < 30.0
    ensures EfficiencyLevelOf(score) == Excellent <==> 30.0 <= score
  {
  }

  /** The figures for closed trades: the level is that of the unrounded score with
      its own recommendation, and the reported score is that score to within half
      a hundredth. */
  lemma CapitalFromScore(deployed: real, netPnL: real)
    ensures var c, score := CapitalFrom(deployed, netPnL), EfficiencyScore(netPnL, deployed);
      c.totalCapitalDeployed == deployed && c.netPnL == netPnL &&
      c.level == EfficiencyLevelOf(score) &&
      c.recommendation == EfficiencyRecommendation(c.level) &&
      score - 0.005 <= c.score <= score + 0.005
  {
    TwoDecimalsClose(EfficiencyScore(netPnL, deployed));
  }

  /** With closed trades, the net PnL agrees with the core metrics and the deployed
      capital is the closed trades' volume. */
  lemma CapitalAgreesWithCore(ps: seq<Position>, es: seq<Execution>)
    requires ClosedOf(ps) != []
    ensures CapitalEfficiencyOf(ps, es) ==
      CapitalFrom(Sum(ClosedOf(ps), TotalVolume), CoreMetricsOf(ps, es).netPnL)
  {
    var d, n := Sum(ClosedOf(ps), TotalVolume), Sum(ClosedOf(ps), PnL) - Sum(es, Fee);
    assert CapitalEfficiencyOf(ps, es) == CapitalFrom(d, n);
    assert CoreMetricsOf(ps, es).netPnL == n;
  }

  /** With no closed trades the answer is the fixed one: score 0, INEFFICIENT, no
      capital, no PnL and the "no closed positions" message. No other input gets
      that message. */
  lemma NoClosedNoEfficiency(ps: seq<Position>, es: seq<Execution>)
    ensures ClosedOf(ps) == [] <==> CapitalEfficiencyOf(ps, es) == NoCapitalEfficiency
    ensures ClosedOf(ps) == [] <==> CapitalEfficiencyOf(ps, es).recommendation == NoCapitalEfficiency.recommendation
    ensures ClosedOf(ps) == [] ==>
      var c := CapitalEfficiencyOf(ps, es);
      c.score == 0.0 && c.level == Inefficient && c.totalCapitalDeployed == 0.0 && c.netPnL == 0.0
  {
  }

  /** The level is taken before rounding: a score of 4.996 is reported as 5 but is
      INEFFICIENT. */
  lemma RoundedUpButInefficient()
    ensures TwoDecimals(4.996) == 5.0 && EfficiencyLevelOf(4.996) == Inefficient
  {
    assert Round(499.6) == 500;
  }
}
