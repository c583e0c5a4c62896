/** The records the analytics engine reads (positions and executions), the shapes of
    the report it produces, and the accessors every component shares.

    Monetary fields are exact rationals standing for the stored decimal strings;
    timestamps are milliseconds since the Unix epoch. */
module Types {

  datatype Option<+T> = None | Some(value: T)

  datatype Status = Open | Closed | Liquidated
  datatype Side = Buy | Sell | Long | Short
  /** The execution's instrument kind (`type` in the source, a keyword here). */
  datatype InstrumentKind = Spot | Perp | OptionContract
  datatype OrderType = Market | Limit | Stop | Liquidation

  /** A reconciled round-trip (or still open) trade. */
  datatype Position = Position(
    id: string,
    accountId: string,
    symbol: string,
    status: Status,
    side: Side,
    openedAt: int,
    closedAt: Option<int>,
    avgEntryPrice: real,
    avgExitPrice: Option<real>,
    maxSize: real,
    totalVolume: real,
    totalFees: real,
    realizedPnL: Option<real>,
    holdingPeriodSeconds: Option<real>,
    rMultiple: Option<real>)

  /** One fill of a position; `positionId` is absent for unlinked fills. */
  datatype Execution = Execution(
    id: string,
    accountId: string,
    positionId: Option<string>,
    sig: string,
    blockTime: int,
    symbol: string,
    side: Side,
    kind: InstrumentKind,
    price: real,
    size: real,
    notional: real,
    fee: real,
    feeAsset: Option<string>,
    isMaker: bool,
    orderType: OrderType)

  // ---------------------------------------------------------------------------
  // Report shapes
  // ---------------------------------------------------------------------------

  datatype CoreMetrics = CoreMetrics(
    grossPnL: real, netPnL: real, totalFees: real, totalVolume: real, tradeCount: nat)

  datatype WinRateMetrics = WinRateMetrics(
    winRate: real, lossRate: real, breakevenRate: real,
    winCount: nat, lossCount: nat, breakevenCount: nat, totalTrades: nat)

  datatype AvgWinLoss = AvgWinLoss(avgWin: real, avgLoss: real, winLossRatio: real)

  datatype LongShortMetrics = LongShortMetrics(
    longCount: nat, shortCount: nat, longPnL: real, shortPnL: real,
    countRatio: real, pnlRatio: real)

  datatype DurationMetrics = DurationMetrics(
    avgDurationSeconds: real, avgDurationHours: real, avgDurationDays: real,
    medianDurationSeconds: real, shortestTrade: real, longestTrade: real)

  datatype ExtremeMetrics = ExtremeMetrics(
    largestGain: real, largestLoss: real,
    largestGainSymbol: string, largestLossSymbol: string,
    largestGainDate: Option<int>, largestLossDate: Option<int>)

  datatype VolumeAndFees = VolumeAndFees(
    totalVolume: real, totalFees: real,
    feePercentOfPnL: real, feePercentOfVolume: real, avgFeePerTrade: real,
    makerFees: real, takerFees: real)

  datatype EquityPoint = EquityPoint(
    timestamp: int, equity: real, cumulativePnL: real, tradeNumber: nat)

  datatype DrawdownMetrics = DrawdownMetrics(
    maxDrawdown: real, maxDrawdownValue: real, currentDrawdown: real,
    maxDrawdownDate: Option<int>)

  /** `date` is the UTC day number of the ISO date string (see `DayOf`). */
  datatype DailyStats = DailyStats(
    date: int, pnl: real, volume: real, tradeCount: nat, winRate: real)

  datatype HourlyStats = HourlyStats(
    hour: int, pnl: real, tradeCount: nat, avgPnL: real, winRate: real)

  /** The order type a closed position is bucketed under; `Unknown` when no linked
      execution resolves it. */
  datatype OrderTypeKey = Known(orderType: OrderType) | Unknown

  datatype OrderTypeStats = OrderTypeStats(
    orderType: OrderTypeKey, pnl: real, tradeCount: nat, winRate: real, avgPnL: real)

  datatype RiskLevel = Conservative | Balanced | Aggressive | Reckless

  datatype RiskComponents = RiskComponents(
    drawdownSeverity: int, positionSizingConsistency: int, overtradingIndex: int,
    winStreakVolatility: int, feeBurnRate: int)

  datatype RiskScore = RiskScore(
    overall: int, level: RiskLevel, components: RiskComponents, recommendation: string)

  datatype Severity = Low | Medium | High

  /** An overtrading signal, one payload shape per signal type; the prose message
      is not modelled. */
  datatype Signal =
    | RevengeTrading(lossAmount: real, subsequentTrades: nat)
    | Chasing(symbol: string, losses: nat, total: nat)
    | FatigueTrading(date: int, tradeCount: nat, wrDrop: real)
    | FomoClustering(side: Side, count: nat)

  function SeverityOf(s: Signal): Severity
  {
    match s
    case RevengeTrading(_, _) => High
    case Chasing(_, _, _) => Medium
    case FatigueTrading(_, _, _) => High
    case FomoClustering(_, _) => Medium
  }

  datatype ConsistencyComponents = ConsistencyComponents(
    winRateStability: int, pnlVariance: int, tradeFrequencyRegularity: int,
    drawdownRecoveryTime: int, profitFactorStability: int)

  datatype ConsistencyScore = ConsistencyScore(
    overall: int, components: ConsistencyComponents, recommendation: string)

  datatype EfficiencyLevel = Inefficient | Average | Good | Excellent

  datatype CapitalEfficiency = CapitalEfficiency(
    score: real, level: EfficiencyLevel, totalCapitalDeployed: real, netPnL: real,
    recommendation: string)

  datatype CompleteAnalytics = CompleteAnalytics(
    core: CoreMetrics,
    winRate: WinRateMetrics,
    avgWinLoss: AvgWinLoss,
    longShort: LongShortMetrics,
    duration: DurationMetrics,
    extremes: ExtremeMetrics,
    volumeAndFees: VolumeAndFees,
    expectancy: real,
    equityCurve: seq<EquityPoint>,
    drawdown: DrawdownMetrics,
    dailyPerformance: seq<DailyStats>,
    hourlyPerformance: seq<HourlyStats>,
    orderTypePerformance: seq<OrderTypeStats>,
    riskScore: RiskScore,
    overtradingSignals: seq<Signal>,
    consistencyScore: ConsistencyScore,
    capitalEfficiency: CapitalEfficiency)

  /** Pieces of the JavaScript runtime the engine relies on and the model leaves
      abstract: `Math.sqrt`, the local-time week key and the UTC month key of a
      timestamp. */
  datatype Runtime = Runtime(
    sqrt: real -> real, weekKey: int -> string, monthKey: int -> string)

  // ---------------------------------------------------------------------------
  // Accessors shared by every component
  // ---------------------------------------------------------------------------

  const MsPerMinute: int := 60 * 1000
  const MsPerHour: int := 60 * MsPerMinute
  const MsPerDay: int := 24 * MsPerHour

  /** Realized PnL, with a missing value read as 0. */
  function PnL(p: Position): real
  {
    match p.realizedPnL
    case Some(v) => v
    case None => 0.0
  }

  /** Close timestamp; only meaningful when `closedAt` is present. */
  function CloseTime(p: Position): int
  {
    match p.closedAt
    case Some(t) => t
    case None => 0
  }

  function CloseKey(p: Position): real { CloseTime(p) as real }

  function MaxSize(p: Position): real { p.maxSize }
  function TotalVolume(p: Position): real { p.totalVolume }
  function Symbol(p: Position): string { p.symbol }

  function Fee(e: Execution): real { e.fee }
  function Notional(e: Execution): real { e.notional }

  predicate IsMakerFill(e: Execution) { e.isMaker }
  predicate IsTakerFill(e: Execution) { !e.isMaker }

  predicate IsClosed(p: Position) { p.status == Closed }
  predicate IsClosedWithTime(p: Position) { p.status == Closed && p.closedAt.Some? }

  predicate IsWin(p: Position) { PnL(p) > 0.0 }
  predicate IsLoss(p: Position) { PnL(p) < 0.0 }
  predicate IsBreakeven(p: Position) { PnL(p) == 0.0 }

  predicate IsLongSide(p: Position) { p.side == Long || p.side == Buy }
  predicate IsShortSide(p: Position) { p.side == Short || p.side == Sell }

  /** UTC calendar day of a timestamp; the ISO date strings order as these numbers do. */
  function DayOf(t: int): int { t / MsPerDay }

  /** UTC hour of day of a timestamp (`getUTCHours`). */
  function HourOf(t: int): (h: int)
    ensures 0 <= h < 24
  {
    (t / MsPerHour) % 24
  }

  function CloseDay(p: Position): int { DayOf(CloseTime(p)) }
  function CloseHour(p: Position): int { HourOf(CloseTime(p)) }

  /** Every CLOSED position carries a close time (the code dereferences `closedAt!`). */
  predicate ClosedHaveTimes(ps: seq<Position>)
  {
    forall i :: 0 <= i < |ps| && ps[i].status == Closed ==> ps[i].closedAt.Some?
  }
}
