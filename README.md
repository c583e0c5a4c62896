# Trading journal analytics engine, in Dafny

This project models the analytics engine of a trading journal (`src/lib/analytics/`).
The engine takes a snapshot of a trader's positions and executions and produces a
performance-and-risk report. The model is written and proved in Dafny.

`calculator.ts` holds the core aggregations:
- core PnL and fee totals;
- win, loss and breakeven rates;
- average win and loss;
- the long/short split;
- holding durations;
- the best and worst trade;
- the maker/taker fee split;
- the cumulative equity curve and its peak-tracking drawdown;
- per-day, per-hour and per-order-type buckets;
- the orchestrator that assembles the complete report.

`advanced.ts` holds the behavioural layer:
- a five-component risk score with four level bands;
- four overtrading detectors (revenge trading, chasing a symbol, fatigue, FOMO clustering);
- a five-component consistency score with a ten-trade minimum;
- a capital-efficiency score;
- their helpers: grouping, day count, win/loss streaks, recovery time and monthly profit factor.

Representation:
- Money is `real`: exact rationals standing for the parsed decimal strings.
- Timestamps are `int` milliseconds since the epoch.
  - The UTC hour of a close is `(t / 3600000) % 24`.
  - The UTC day is `t / 86400000`. For years 0000 to 9999, ordering by it is ordering by the ISO date string.
- A missing `realizedPnL` reads as 0, as `toNum` and `|| '0'` do.
- `Math.round(x)` is `(x + 0.5).Floor`; `Math.ceil` is written out likewise.
- `Array.prototype.sort` is a stable sort function, `Sorting.SortBy`. It is proved sorted, a permutation, stable and idempotent.
- The JavaScript `Map` and `Record` grouping is `Grouping.GroupBy`. It is a method that fills a map and keeps the keys in first-insertion order. Its specification is `Grouping.Keys` plus `Grouping.Group`.
- Three facilities of the JavaScript runtime are parameters, bundled in `Types.Runtime`:
  - `Math.sqrt`;
  - the local-time week key `getWeekKey`;
  - the UTC month key.

  Properties that need `sqrt` to be non-negative on non-negative arguments say so with `Consistency.SqrtNonNegative`.
- Code that loops and updates variables is written as methods with loop invariants. Each method is proved equal to a specification function. This covers:
  - the equity curve and the drawdown pass;
  - the day, hour and order-type bucket fills;
  - the streak run-length encoder;
  - the revenge, FOMO, chasing and fatigue scans;
  - the recovery-time nested loop;
  - the per-week, per-day and per-month series.

  The properties are proved about those specification functions.
- Positions flagged CLOSED without a `closedAt` make the risk and consistency scorers read an undefined date. Those two scorers, and the complete report, therefore require `Types.ClosedHaveTimes`. Everything else handles the missing date the way the code filters it.

## Model

| member | source | states |
|---|---|---|
| Types.HourOf | src/lib/analytics/calculator.ts:371 | the UTC hour of a close time is always one of the 24 buckets 0..23 |
| Calculator.CoreMetricsOfNothing | src/lib/analytics/calculator.ts:36-53 | no positions and no executions give all-zero core metrics |
| Calculator.CoreMetricsAddPosition | src/lib/analytics/calculator.ts:40-51 | a further CLOSED position adds its PnL to gross and net PnL and one to the trade count; an OPEN or LIQUIDATED one changes nothing |
| Calculator.CoreMetricsAddExecution | src/lib/analytics/calculator.ts:43-48 | every execution, whatever its position's status, adds its fee to the fees and takes it off net PnL, and adds its notional to the volume |
| Calculator.OutcomeSplit | src/lib/analytics/calculator.ts:75-77 | wins, losses and breakevens partition the closed trades, and win PnL plus loss PnL is the total PnL |
| Calculator.WinRateOf | src/lib/analytics/calculator.ts:59-88 | counts add up to totalTrades, which is the number of CLOSED positions; with trades the three rates lie in [0,100] and sum to 100; with none every field is 0 |
| Calculator.WinRatePct | src/lib/analytics/advanced.ts:388-391 | a bucket's win rate lies in [0,100]; an empty bucket gives 0; a non-empty one gives 0 exactly when it has no win and 100 exactly when every trade wins |
| Calculator.AvgWinLossOf | src/lib/analytics/calculator.ts:94-110 | average win is non-negative and positive exactly when a closed trade wins; average loss is non-positive and negative exactly when one loses; the ratio is non-negative and 0 when there is no loss |
| Calculator.ExpectancyWithinExtremes | src/lib/analytics/calculator.ts:116-122 | with closed trades the expectancy lies between the largest loss and the largest gain |
| Calculator.MeanPnLWithin | src/lib/analytics/calculator.ts:120-121 | the mean PnL of trades whose PnLs lie in [lo,hi] lies in [lo,hi] |
| Calculator.LongShortPartition | src/lib/analytics/calculator.ts:128-145 | long and short trades partition the closed trades, in count and in PnL |
| Calculator.Durations | src/lib/analytics/calculator.ts:165-169 | one duration per timed closed trade, in order, close minus open in seconds |
| Calculator.DurationMetricsOf | src/lib/analytics/calculator.ts:151-185 | no timed closed trade gives all zeros; otherwise the average is the `Mean` of the durations, shortest <= median <= longest, shortest <= average <= longest, every duration lies between shortest and longest, and hours and days are the seconds scaled |
| Calculator.DurationExtremesAttained | src/lib/analytics/calculator.ts:182-183 | the shortest and the longest duration are each the duration of some timed closed trade |
| Seqs.MeanTimesCount | src/lib/analytics/calculator.ts:171-172 | the mean of a non-empty list times its length is its total, so the average duration times the trade count is the total duration |
| Calculator.DurationMedian | src/lib/analytics/calculator.ts:174-175 | the median is one of the durations, with more than n/2 durations at or below it and at least n - n/2 at or above it: the element at index floor(n/2) in ascending order |
| Sorting.SortedRank | src/lib/analytics/calculator.ts:174-175 | the element at index k of the ascending sort has more than k values at or below it and at least n - k at or above it |
| Calculator.BestIndex | src/lib/analytics/calculator.ts:203-205 | the chosen trade's PnL is at least every other and strictly above every earlier one, so ties go to the first in input order |
| Calculator.WorstIndex | src/lib/analytics/calculator.ts:207-209 | the chosen trade's PnL is at most every other and strictly below every earlier one |
| Calculator.ExtremesOf | src/lib/analytics/calculator.ts:191-219 | no closed trade gives zeros and empty symbols; otherwise largestLoss <= every closed PnL <= largestGain, each reported with the symbol and close date of the first trade that attains it |
| Calculator.VolumeAndFeesOf | src/lib/analytics/calculator.ts:225-252 | maker plus taker fees equal total fees; fee share of volume is 0 when volume is 0; fee share of PnL is 0 when gross PnL is 0; fee per trade is 0 with no closed trade |
| Calculator.VolumeAndFeesAgreeWithCore | src/lib/analytics/calculator.ts:229-230 | fee and volume totals equal the core metrics' totals |
| Equity.CalculateEquityCurve | src/lib/analytics/calculator.ts:258-278 | the running-sum loop builds exactly the specified curve of the timed closed trades in close-time order |
| Equity.EquityCurveOrdered | src/lib/analytics/calculator.ts:262-277 | one point per timed closed trade, numbered from 1, equity = starting balance + cumulative PnL, timestamps non-decreasing |
| Equity.EquityCurveStep | src/lib/analytics/calculator.ts:268-270 | each point's cumulative PnL is the previous one plus that trade's PnL |
| Equity.EquityCurveTotal | src/lib/analytics/calculator.ts:266-277 | the last point's cumulative PnL is the PnL of all timed closed trades |
| Equity.Peak | src/lib/analytics/calculator.ts:293-301 | the running peak is the largest equity so far and is attained |
| Equity.DrawdownAt | src/lib/analytics/calculator.ts:303 | the drawdown at a point is never negative |
| Equity.WorstPoint | src/lib/analytics/calculator.ts:306-310 | the recorded worst point has the largest drawdown, strictly larger than every earlier one, or no point has a positive drawdown |
| Equity.CalculateDrawdown | src/lib/analytics/calculator.ts:284-323 | the peak-tracking loop computes exactly the specified drawdown metrics |
| Equity.MaxDrawdownIsLargest | src/lib/analytics/calculator.ts:298-311 | max drawdown is non-negative and at least every point's drawdown; when positive it is the first point attaining it, with that point's value and date; when 0 there is no value or date |
| Equity.LastPeakIsMax | src/lib/analytics/calculator.ts:313-314 | the running peak at the last point is the overall maximum equity |
| Equity.CurrentWithinMax | src/lib/analytics/calculator.ts:313-320 | 0 <= current drawdown <= max drawdown |
| Equity.NoDrawdownWhenRising | src/lib/analytics/calculator.ts:284-323 | a non-decreasing curve has max and current drawdown 0 |
| Sorting.SortBy | src/lib/analytics/calculator.ts:262-264 | the sort returns a permutation of its input |
| Sorting.SortByIsSorted | src/lib/analytics/calculator.ts:264 | the sort's result is ordered by the key |
| Sorting.SortByStable | src/lib/analytics/advanced.ts:125-127 | trades with equal close times keep their input order |
| Sorting.SortByIdempotent | src/lib/analytics/advanced.ts:395-397 | sorting an already sorted array again changes nothing, so the scorer's repeated in-place sorts agree |
| Sorting.SortByMembers | src/lib/analytics/advanced.ts:125-127 | the sort neither adds nor drops a trade |
| Grouping.Group | src/lib/analytics/advanced.ts:370-377 | a bucket holds only items of the input with that key |
| Grouping.Keys | src/lib/analytics/advanced.ts:370-377 | bucket keys are distinct, every item's key is one, and no bucket is empty |
| Grouping.GroupBy | src/lib/analytics/advanced.ts:370-377 | the push-into-bucket loop yields exactly the keys in first-insertion order and, for each, its bucket in input order |
| Grouping.PerKey | src/lib/analytics/advanced.ts:472 | one value per bucket, and at least one when there are items |
| Grouping.MapGroups | src/lib/analytics/advanced.ts:463-492 | grouping then mapping each bucket yields exactly the specified per-bucket series |
| Grouping.GroupEntries | src/lib/analytics/calculator.ts:333-352 | filling the per-key map and summarising each bucket from its key and items yields exactly one entry per distinct key, in first-insertion order |
| Buckets.CalculateDailyPerformance | src/lib/analytics/calculator.ts:329-355 | the method computes exactly the specified daily performance |
| Buckets.DailyPerformanceOrdered | src/lib/analytics/calculator.ts:354 | daily entries are in strictly increasing date order |
| Buckets.DailyPerformanceBuckets | src/lib/analytics/calculator.ts:332-353 | every entry summarises exactly the timed closed trades of its date and is non-empty; every timed closed trade's day has an entry |
| Buckets.DailyPerformanceTotals | src/lib/analytics/calculator.ts:340-353 | daily trade counts sum to the number of timed closed trades and daily PnLs to their PnL |
| Buckets.HourBuckets | src/lib/analytics/calculator.ts:362-373 | the map has exactly the keys 0..23, each holding the timed closed trades of that UTC hour |
| Buckets.CalculateHourlyPerformance | src/lib/analytics/calculator.ts:361-387 | the method computes exactly the specified hourly performance |
| Buckets.HourlyPerformanceShape | src/lib/analytics/calculator.ts:364-386 | always 24 entries, hours 0..23 in order; an empty hour reports PnL, average PnL and win rate 0 |
| Buckets.HourlyPerformanceTotals | src/lib/analytics/calculator.ts:368-386 | hourly trade counts sum to the number of timed closed trades and hourly PnLs to their PnL |
| Buckets.FirstOrderTypesDomain | src/lib/analytics/calculator.ts:398-404 | a position id has an order type exactly when some execution with a non-empty position id links to it |
| Buckets.FirstOrderTypesFirst | src/lib/analytics/calculator.ts:398-404 | the recorded order type is that of the first execution linked to the position |
| Buckets.PositionOrderTypes | src/lib/analytics/calculator.ts:398-404 | the execution loop builds exactly that first-execution map |
| Buckets.CalculateOrderTypePerformance | src/lib/analytics/calculator.ts:393-428 | the method computes exactly the specified order-type performance |
| Buckets.OrderTypePerformanceBuckets | src/lib/analytics/calculator.ts:406-427 | order types are distinct, each bucket is non-empty, and counts and PnLs sum to the closed trades' count and PnL |
| Buckets.OrderTypeOfPosition | src/lib/analytics/calculator.ts:408-414 | each closed trade sits in the bucket of its first linked execution's order type, or in UNKNOWN when no execution links to it |
| Risk.CloseSpanIsRange | src/lib/analytics/advanced.ts:395-399 | first-to-last close span is non-negative and bounds every pairwise close-time difference |
| Risk.DayCountCoversSpan | src/lib/analytics/advanced.ts:393-401 | the day count is at least 1 and is the fewest whole days covering the span |
| Risk.Outcomes | src/lib/analytics/advanced.ts:413-414 | one outcome per trade: a win exactly when PnL > 0, so a PnL of 0 is a loss |
| Risk.RunsWellFormed | src/lib/analytics/advanced.ts:403-432 | every streak has length >= 1, adjacent streaks alternate win/loss, and there are streaks exactly when there are trades |
| Risk.RunsRoundTrip | src/lib/analytics/advanced.ts:403-432 | expanding the streaks gives back the outcome sequence |
| Risk.RunsTotal | src/lib/analytics/advanced.ts:403-432 | streak lengths sum to the number of trades |
| Risk.CalculateStreaks | src/lib/analytics/advanced.ts:403-432 | the current-streak loop produces exactly the run-length encoding of the outcomes |
| Seqs.Clamp | src/lib/analytics/advanced.ts:76-82 | the clamp lands in [0,100], leaves values already there unchanged, and sends values below 0 to 0 and above 100 to 100 |
| Risk.CalculateRiskScore | src/lib/analytics/advanced.ts:20-114 | the method computes exactly the specified risk score, with every step after the equity curve seeing the trades in close-time order |
| Risk.OvertradingIndexAtLeast100 | src/lib/analytics/advanced.ts:55-60 | trades per day never fall below profitable trades per day, so the overtrading index is at least 100, and exactly 100 when no trade is profitable |
| Risk.OvertradingComponentIsAlways100 | src/lib/analytics/advanced.ts:55-60 | with a closed trade the reported overtrading component, capped at 100 before rounding, is always exactly 100 |
| Risk.DrawdownSeverityWithin | src/lib/analytics/advanced.ts:42-45 | drawdown severity, current over max drawdown, lies in [0,100] |
| Risk.NoClosedNoRisk | src/lib/analytics/advanced.ts:25-40 | the default score (0, CONSERVATIVE, zero components, "Not enough data") comes exactly when there is no CLOSED position |
| Risk.RiskScoreBounds | src/lib/analytics/advanced.ts:76-111 | the reported overall score and drawdown component lie in [0,100] |
| Risk.RiskLevelBands | src/lib/analytics/advanced.ts:84-112 | each level holds exactly for its band of the unrounded score (<=30, <=60, <=80, above), the rounded score lies in the band's closed range, and the level's fixed message is reported |
| Risk.BalancedReportedAs30 | src/lib/analytics/advanced.ts:88-103 | an overall of 30.4 is BALANCED yet reported as 30, because the level is taken before rounding |
| Overtrading.WithinAfter | src/lib/analytics/advanced.ts:130-138 | on sorted trades, the trades strictly later and inside the window all come after the anchor |
| Overtrading.DetectRevenge | src/lib/analytics/advanced.ts:129-150 | the scan with early exit yields exactly the specified revenge signals |
| Overtrading.RevengeExactly | src/lib/analytics/advanced.ts:129-150 | a signal is raised exactly when some losing trade has >= 3 trades closing strictly later and under 30 minutes after it; it reports the first such trade's loss and count |
| Overtrading.DetectFomo | src/lib/analytics/advanced.ts:187-207 | the scan with early exit yields exactly the specified FOMO signals |
| Overtrading.FomoExactly | src/lib/analytics/advanced.ts:187-207 | a signal is raised exactly when some trade has >= 5 trades closing strictly within the next hour, all on its side; it reports the first such trade's side and count + 1, at least 6 |
| Overtrading.CollectMembers | src/lib/analytics/advanced.ts:154-164 | a per-key report is in the output exactly when some key produced it |
| Overtrading.CollectDistinct | src/lib/analytics/advanced.ts:154-164 | when each report names its own key and the keys are distinct, no two collected reports name the same key |
| Overtrading.ChasingOnce | src/lib/analytics/advanced.ts:152-164 | no two chasing signals name the same symbol |
| Overtrading.FatigueOnce | src/lib/analytics/advanced.ts:166-185 | no two fatigue signals name the same day |
| Overtrading.CheckChasing | src/lib/analytics/advanced.ts:155-163 | the per-symbol check yields exactly the specified chasing report |
| Overtrading.DetectChasing | src/lib/analytics/advanced.ts:152-164 | the loop over symbol buckets yields exactly the specified chasing signals |
| Overtrading.ChasingExactly | src/lib/analytics/advanced.ts:152-164 | a chasing signal for a symbol is raised exactly when its trades number >= 4 with >= 2 losses, carrying those counts, and no symbol is reported twice |
| Overtrading.CheckFatigue | src/lib/analytics/advanced.ts:169-184 | the per-day check yields exactly the specified fatigue report |
| Overtrading.DetectFatigue | src/lib/analytics/advanced.ts:166-185 | the loop over day buckets yields exactly the specified fatigue signals |
| Overtrading.FatigueExactly | src/lib/analytics/advanced.ts:166-185 | a fatigue signal for a day is raised exactly when it has > 10 trades and the second half's win rate is more than 20 points below the first half's, carrying that drop, and no day is reported twice |
| Overtrading.DetectOvertrading | src/lib/analytics/advanced.ts:122-210 | the detector yields exactly revenge, then chasing, then fatigue, then FOMO signals over the timed closed trades in close-time order |
| Overtrading.RevengeSignalsShape | src/lib/analytics/advanced.ts:129-150 | at most one revenge signal, with a loss and >= 3 trades |
| Overtrading.FomoSignalsShape | src/lib/analytics/advanced.ts:187-207 | at most one FOMO signal, with a count >= 6 |
| Overtrading.ChasingSignalsShape | src/lib/analytics/advanced.ts:152-164 | every chasing signal carries >= 2 losses among >= 4 trades |
| Overtrading.FatigueSignalsShape | src/lib/analytics/advanced.ts:166-185 | every fatigue signal carries > 10 trades and a drop > 20 |
| Overtrading.OvertradingSignalShape | src/lib/analytics/advanced.ts:122-210 | every signal meets its detector's thresholds, each detector yields only its own kind, and revenge and FOMO yield at most one each |
| Consistency.ProfitFactorCases | src/lib/analytics/advanced.ts:529-537 | a month's profit factor is non-negative; without losses it is 999 exactly when there is a win and 1 exactly when there is none |
| Consistency.FindRecovery | src/lib/analytics/advanced.ts:506-513 | the inner loop finds exactly the days to the first later winning trade, if any |
| Consistency.CalculateAvgDrawdownRecovery | src/lib/analytics/advanced.ts:494-518 | the nested loop computes exactly the specified average recovery time |
| Consistency.RecoveriesNonNegative | src/lib/analytics/advanced.ts:502-515 | on close-time-sorted trades every recovery time is non-negative |
| Consistency.AvgRecoveryNonNegative | src/lib/analytics/advanced.ts:494-518 | the average recovery time is non-negative |
| Consistency.CalculateConsistencyScore | src/lib/analytics/advanced.ts:218-302 | the method computes exactly the specified consistency score; the recovery and monthly passes see the sorted trades, the weekly and daily series the original order |
| Consistency.StabilityAtMost100 | src/lib/analytics/advanced.ts:235-269 | with a non-negative square root, every stability component is at most 100 |
| Consistency.RecommendationNotDefault | src/lib/analytics/advanced.ts:280-289 | no banded message is the "Need at least 10 trades" message |
| Consistency.TooFewTradesExactly | src/lib/analytics/advanced.ts:219-233 | the default score (0, zero components, "Need at least 10 trades") comes exactly when there are fewer than 10 CLOSED positions |
| Consistency.ConsistencyPartsBounds | src/lib/analytics/advanced.ts:235-269 | the recovery component lies in [0,100]; with a non-negative square root every other component is at most 100 |
| Consistency.ScoreFromBounds | src/lib/analytics/advanced.ts:271-299 | overall lies in [0,100], every reported component is >= 0, and each is <= 100 when its unrounded value is |
| Consistency.ConsistencyScoreBounds | src/lib/analytics/advanced.ts:218-302 | overall lies in [0,100] and every reported component is >= 0; with a non-negative square root each is also <= 100 |
| Consistency.ConsistencyBands | src/lib/analytics/advanced.ts:280-289 | each message is reported exactly for its band of the unrounded score (>=70, >=50, >=30, below) |
| Capital.TwoDecimalsClose | src/lib/analytics/advanced.ts:358 | rounding to two decimals moves the score by at most 0.005 |
| Capital.EfficiencyScoreSign | src/lib/analytics/advanced.ts:337 | with capital deployed the score has the sign of net PnL; with none it is 0 |
| Capital.EfficiencyLevelBands | src/lib/analytics/advanced.ts:343-355 | bands are half-open: <5 INEFFICIENT, [5,15) AVERAGE, [15,30) GOOD, >=30 EXCELLENT |
| Capital.CapitalFromScore | src/lib/analytics/advanced.ts:336-363 | the level is that of the unrounded score with its own message, and the reported score is that score to within 0.005 |
| Capital.CapitalAgreesWithCore | src/lib/analytics/advanced.ts:326-334 | with closed trades, deployed capital is their volume and net PnL is the core net PnL (gross minus every execution's fee) |
| Capital.NoClosedNoEfficiency | src/lib/analytics/advanced.ts:314-324 | the whole fixed answer (score 0, INEFFICIENT, zero capital and PnL, "No closed positions" message) comes exactly when there is no CLOSED position, and no other input gets that message |
| Capital.RoundedUpButInefficient | src/lib/analytics/advanced.ts:343-358 | a score of 4.996 is reported as 5 yet is INEFFICIENT |
| Analytics.TimedAreClosed | src/lib/analytics/calculator.ts:262-263 | when every CLOSED position has a close time, filtering on status and close time is filtering on status |
| Analytics.CalculateCompleteAnalytics | src/lib/analytics/calculator.ts:434-468 | the orchestrator computes exactly the specified complete report, the risk score taking the starting balance as account balance |
| Analytics.CompleteAnalyticsAgree | src/lib/analytics/calculator.ts:434-468 | the report's parts agree: trade counts, fee and volume totals, curve length and final PnL, daily totals, drawdown of the reported curve, capital net PnL and overtrading component 100 |

## Left out

- Decimal-string parsing (`parseFloat`, `toNum` of strings) is not modelled. Values are already-parsed exact reals, so IEEE rounding and NaN are not modelled either.
- Signal messages are not modelled. A signal keeps its kind and data. Its severity is fixed by its kind (HIGH for revenge and fatigue, MEDIUM for chasing and FOMO). The `toFixed` prose is not built.
- Recommendation texts are kept. Display formatting is not modelled.
- `Math.sqrt`, `getWeekKey` (local time zone) and the UTC month key are not computed. They are parameters, and no property depends on their values; the stability bounds assume only that the square root is non-negative.
- The engine sorts the scorer-local `closed` array in place. This is modelled by value: every later step sees the sorted sequence. The caller's array is never reordered, because the model has no aliasing.
- `Object.entries` enumerates integer-like keys first, in numeric order. A symbol such as "123" would be reported before others. The model keeps first-insertion order for every key. Day and week keys are never integer-like.
- A CLOSED position without `closedAt` is not modelled in the risk and consistency scorers; those scorers and the complete report require every CLOSED position to carry its close time. In the risk scorer such a position sorts, spans and counts streaks with NaN times (advanced.ts:392-405). In the consistency scorer, with at least ten closed positions, `new Date(undefined).toISOString()` throws a RangeError (advanced.ts:381, reached through the daily PnLs at advanced.ts:475-476, and advanced.ts:524 for the month key), so `calculateConsistencyScore`, and with it `calculateCompleteAnalytics`, throws instead of returning. The model has no such failure.
- `groupBy` buckets into a plain object (advanced.ts:369-376). A symbol named after an `Object.prototype` member ("constructor", "toString", "__proto__") finds a non-array there, and `result[group].push` throws a TypeError, so `detectOvertrading` throws. The model treats such a symbol like any other and can raise a chasing signal for it.
- Daily performance is ordered by day number. The source orders by `localeCompare` on `toISOString()` dates. The two agree for years 0000 to 9999. Outside that range the ISO string has an expanded, signed year ("+010000-…", "-000001-…"), and the string order differs from the day order, so `DailyPerformanceOrdered` does not describe the source for such dates.
- Dates are day numbers rather than ISO strings, and timestamps are numbers rather than `Date` objects.
- `Math.min(...xs)` and `Math.max(...xs)` can exceed the engine's argument limit on very large arrays. This is not modelled.
- The `advanced.ts` copies of the equity curve and drawdown (lines 434-461) are represented by the `calculator.ts` ones. Both compute the same equities and percentages for the non-empty curves the risk scorer passes them.
- Calculator.LongShortPartition: the count and PnL ratios are not given separate lemmas.
- Calculator.ExpectancyWithinExtremes: the expectancy is bounded, not decomposed into win and loss rates.
- UI components, API routes, authentication, blockchain sync, the database schema and seed data are outside the engine and are not modelled.
