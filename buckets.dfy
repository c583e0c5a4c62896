/** The three bucketings of closed trades: by UTC calendar day, by UTC hour of day
    (always 24 buckets) and by the order type of each position's first execution. */
module Buckets {
  import opened Types
  import opened Seqs
  import opened Sorting
  import opened Grouping
  import opened Calculator

  // ---------------------------------------------------------------------------
  // Daily performance
  // ---------------------------------------------------------------------------

  function DayStats(date: int, trades: seq<Position>): DailyStats
  {
    DailyStats(date, Sum(trades, PnL), Sum(trades, TotalVolume), |trades|, WinRatePct(trades))
  }

  function DateKey(d: DailyStats): real { d.date as real }
  function DayTrades(d: DailyStats): real { d.tradeCount as real }
  function DayPnL(d: DailyStats): real { d.pnl }

  /** One entry per day in first-seen order, before the final sort. */
  function DayEntries(c: seq<Position>): seq<DailyStats>
  {
    Entries(c, CloseDay, DayStats)
  }

  function DailyPerformanceOf(ps: seq<Position>): seq<DailyStats>
  {
    SortBy(DayEntries(Filter(ps, IsClosedWithTime)), DateKey)
  }

  method CalculateDailyPerformance(ps: seq<Position>) returns (daily: seq<DailyStats>)
    ensures daily == DailyPerformanceOf(ps)
  {
    var closed := Filter(ps, IsClosedWithTime);
    var entries := GroupEntries(closed, CloseDay, DayStats);
    daily := SortBy(entries, DateKey);
  }

  lemma DistinctDates(st: seq<DailyStats>, ks: seq<int>)
    requires |st| == |ks| && NoDuplicates(ks)
    requires forall i :: 0 <= i < |st| ==> st[i].date == ks[i]
    ensures DistinctKeys(st, DateKey)
  {
    forall i, j | 0 <= i < j < |st|
      ensures DateKey(st[i]) != DateKey(st[j])
    {
      assert ks[i] != ks[j];
    }
  }

  /** Days come out strictly in calendar order, one entry per day. */
  lemma DailyPerformanceOrdered(ps: seq<Position>)
    ensures var daily := DailyPerformanceOf(ps);
      forall i, j :: 0 <= i < j < |daily| ==> daily[i].date < daily[j].date
  {
    var c := Filter(ps, IsClosedWithTime);
    var st, ks := DayEntries(c), Keys(c, CloseDay);
    DistinctDates(st, ks);
    SortByStrict(st, DateKey);
  }

  /** Every entry holds exactly the closed trades of its day (at least one), and every
      closed trade with a close time has its day reported. */
  lemma DailyPerformanceBuckets(ps: seq<Position>)
    ensures var c, daily := Filter(ps, IsClosedWithTime), DailyPerformanceOf(ps);
      (forall d :: d in daily ==> d == DayStats(d.date, Group(c, CloseDay, d.date)) && d.tradeCount > 0) &&
      (forall p :: p in c ==> exists d :: d in daily && d.date == CloseDay(p))
  {
    var c := Filter(ps, IsClosedWithTime);
    var st, ks := DayEntries(c), Keys(c, CloseDay);
    forall d | d in DailyPerformanceOf(ps)
      ensures d == DayStats(d.date, Group(c, CloseDay, d.date)) && d.tradeCount > 0
    {
      SortByMembers(st, DateKey, d);
    }
    forall p | p in c
      ensures exists d :: d in DailyPerformanceOf(ps) && d.date == CloseDay(p)
    {
      var i :| 0 <= i < |c| && c[i] == p;
      var k :| 0 <= k < |ks| && ks[k] == CloseDay(p);
      SortByMembers(st, DateKey, st[k]);
    }
  }

  /** The daily entries partition the trades: their counts and PnL add up to the
      totals over all closed trades with a close time. */
  lemma DailyPerformanceTotals(ps: seq<Position>)
    ensures var c, daily := Filter(ps, IsClosedWithTime), DailyPerformanceOf(ps);
      Sum(daily, DayTrades) == |c| as real && Sum(daily, DayPnL) == Sum(c, PnL)
  {
    var c := Filter(ps, IsClosedWithTime);
    var st, ks := DayEntries(c), Keys(c, CloseDay);
    SumSortBy(st, DateKey, DayTrades);
    SumSortBy(st, DateKey, DayPnL);
    forall i | 0 <= i < |ks|
      ensures DayTrades(st[i]) == Sum(Group(c, CloseDay, ks[i]), One)
    {
      SumOfOnes(Group(c, CloseDay, ks[i]));
    }
    SumPerKey(c, CloseDay, ks, One, st, DayTrades);
    SumPerKey(c, CloseDay, ks, PnL, st, DayPnL);
    GroupTotalIsSum(c, CloseDay, ks, One);
    GroupTotalIsSum(c, CloseDay, ks, PnL);
    SumOfOnes(c);
  }

  // ---------------------------------------------------------------------------
  // Hourly performance
  // ---------------------------------------------------------------------------

  function HourStats(hour: int, trades: seq<Position>): HourlyStats
  {
    var pnl := Sum(trades, PnL);
    HourlyStats(hour, pnl, |trades|, MeanOr0(pnl, |trades|), WinRatePct(trades))
  }

  function HourTrades(h: HourlyStats): real { h.tradeCount as real }
  function HourPnL(h: HourlyStats): real { h.pnl }

  function HourlyPerformanceOf(ps: seq<Position>): seq<HourlyStats>
  {
    var c := Filter(ps, IsClosedWithTime);
    seq(24, h requires 0 <= h < 24 => HourStats(h, Group(c, CloseHour, h)))
  }

  function Hours(): (hs: seq<int>)
    ensures |hs| == 24 && forall h :: 0 <= h < 24 ==> hs[h] == h
  {
    seq(24, h => h)
  }

  /** The 24 hour buckets, pre-filled empty and then appended to in input order. */
  method HourBuckets(closed: seq<Position>) returns (byHour: map<int, seq<Position>>)
    ensures forall k :: k in byHour <==> 0 <= k < 24
    ensures forall k :: 0 <= k < 24 ==> byHour[k] == Group(closed, CloseHour, k)
  {
    byHour := map[];
    for h := 0 to 24
      invariant forall k :: k in byHour <==> 0 <= k < h
      invariant forall k :: k in byHour ==> byHour[k] == []
    {
      byHour := byHour[h := []];
    }
    for i := 0 to |closed|
      invariant forall k :: k in byHour <==> 0 <= k < 24
      invariant forall k :: 0 <= k < 24 ==> byHour[k] == Group(closed[..i], CloseHour, k)
    {
      var hour := CloseHour(closed[i]);
      assert closed[..i + 1] == closed[..i] + [closed[i]];
      GroupStepAll(closed[..i], closed[i], CloseHour);
      byHour := byHour[hour := byHour[hour] + [closed[i]]];
    }
    assert closed[..|closed|] == closed;
  }

  method CalculateHourlyPerformance(ps: seq<Position>) returns (hourly: seq<HourlyStats>)
    ensures hourly == HourlyPerformanceOf(ps)
  {
    var closed := Filter(ps, IsClosedWithTime);
    var byHour := HourBuckets(closed);
    hourly := MapEntries(Hours(), byHour, HourStats);
    assert forall h :: 0 <= h < 24 ==> hourly[h] == HourStats(h, Group(closed, CloseHour, h));
  }

  /** Exactly 24 buckets, hours 0 to 23 in order; an empty bucket reports zero average
      and zero win rate. */
  lemma HourlyPerformanceShape(ps: seq<Position>)
    ensures var hourly := HourlyPerformanceOf(ps);
      |hourly| == 24 &&
      (forall h :: 0 <= h < 24 ==> hourly[h].hour == h) &&
      (forall h :: 0 <= h < 24 && hourly[h].tradeCount == 0 ==>
         hourly[h].avgPnL == 0.0 && hourly[h].winRate == 0.0 && hourly[h].pnl == 0.0)
  {
  }

  lemma HoursCover(c: seq<Position>)
    ensures forall i :: 0 <= i < |c| ==> CloseHour(c[i]) in Hours()
  {
    var hs := Hours();
    forall i | 0 <= i < |c|
      ensures CloseHour(c[i]) in hs
    {
      assert hs[CloseHour(c[i])] == CloseHour(c[i]);
    }
  }

  lemma HourCounts(c: seq<Position>, hourly: seq<HourlyStats>)
    requires |hourly| == 24
    requires forall h :: 0 <= h < 24 ==> hourly[h] == HourStats(h, Group(c, CloseHour, h))
    ensures forall h :: 0 <= h < 24 ==> HourTrades(hourly[h]) == Sum(Group(c, CloseHour, Hours()[h]), One)
  {
    forall h | 0 <= h < 24
      ensures HourTrades(hourly[h]) == Sum(Group(c, CloseHour, Hours()[h]), One)
    {
      SumOfOnes(Group(c, CloseHour, h));
    }
  }

  /** The hourly buckets partition the trades: counts add up to the number of closed
      trades with a close time and PnL to their total. */
  lemma HourlyPerformanceTotals(ps: seq<Position>)
    ensures var c, hourly := Filter(ps, IsClosedWithTime), HourlyPerformanceOf(ps);
      Sum(hourly, HourTrades) == |c| as real && Sum(hourly, HourPnL) == Sum(c, PnL)
  {
    var c, hourly, hs := Filter(ps, IsClosedWithTime), HourlyPerformanceOf(ps), Hours();
    HourCounts(c, hourly);
    SumPerKey(c, CloseHour, hs, One, hourly, HourTrades);
    SumPerKey(c, CloseHour, hs, PnL, hourly, HourPnL);
    HoursCover(c);
    GroupTotalIsSum(c, CloseHour, hs, One);
    GroupTotalIsSum(c, CloseHour, hs, PnL);
    SumOfOnes(c);
  }

  // ---------------------------------------------------------------------------
  // Order-type performance
  // ---------------------------------------------------------------------------

  /** The execution names the position (a present, non-empty `positionId`). */
  predicate LinksTo(e: Execution, id: string)
  {
    e.positionId == Some(id) && id != ""
  }

  /** Position id to order type, taken from the first execution linked to the
      position. */
  function FirstOrderTypes(es: seq<Execution>): map<string, OrderType>
  {
    if es == [] then map[]
    else
      var m, e := FirstOrderTypes(es[..|es| - 1]), es[|es| - 1];
      if e.positionId.Some? && e.positionId.value != "" && e.positionId.value !in m
      then m[e.positionId.value := e.orderType]
      else m
  }

  /** The last execution adds its position exactly when it links to one not yet
      recorded. */
  lemma FirstOrderTypesStep(es: seq<Execution>)
    requires es != []
    ensures var m, m', e := FirstOrderTypes(es[..|es| - 1]), FirstOrderTypes(es), es[|es| - 1];
      forall id :: (id in m' <==> id in m || LinksTo(e, id)) && (id in m ==> m'[id] == m[id]) &&
                   (id !in m && LinksTo(e, id) ==> m'[id] == e.orderType)
  {
  }

  /** A position has an order type exactly when some execution links to it. */
  lemma {:induction false} FirstOrderTypesDomain(es: seq<Execution>)
    ensures forall id :: id in FirstOrderTypes(es) <==> exists i :: 0 <= i < |es| && LinksTo(es[i], id)
  {
    if es != [] {
      var es', e := es[..|es| - 1], es[|es| - 1];
      var m, m' := FirstOrderTypes(es'), FirstOrderTypes(es);
      FirstOrderTypesDomain(es');
      FirstOrderTypesStep(es);
      forall id
        ensures id in m' <==> exists i :: 0 <= i < |es| && LinksTo(es[i], id)
      {
        if LinksTo(e, id) {
          assert LinksTo(es[|es| - 1], id);
        }
        if exists i :: 0 <= i < |es| && LinksTo(es[i], id) {
          var i :| 0 <= i < |es| && LinksTo(es[i], id);
          if i < |es'| {
            assert LinksTo(es'[i], id);
          }
        }
        if id in m {
          var i :| 0 <= i < |es'| && LinksTo(es'[i], id);
          assert LinksTo(es[i], id);
        }
      }
    }
  }

  /** The order type recorded for a position is that of the first execution linked to
      it. */
  lemma {:induction false} FirstOrderTypesFirst(es: seq<Execution>)
    ensures forall id :: id in FirstOrderTypes(es) ==>
      exists i :: 0 <= i < |es| && LinksTo(es[i], id) && FirstOrderTypes(es)[id] == es[i].orderType &&
                  forall j :: 0 <= j < i ==> !LinksTo(es[j], id)
  {
    if es != [] {
      var es', e := es[..|es| - 1], es[|es| - 1];
      var m, m' := FirstOrderTypes(es'), FirstOrderTypes(es);
      FirstOrderTypesFirst(es');
      FirstOrderTypesDomain(es');
      FirstOrderTypesStep(es);
      forall id | id in m'
        ensures exists i :: 0 <= i < |es| && LinksTo(es[i], id) && m'[id] == es[i].orderType &&
                            forall j :: 0 <= j < i ==> !LinksTo(es[j], id)
      {
        if id in m {
          var i :| 0 <= i < |es'| && LinksTo(es'[i], id) &&
            m[id] == es'[i].orderType && forall j :: 0 <= j < i ==> !LinksTo(es'[j], id);
          assert es[i] == es'[i];
          forall j | 0 <= j < i
            ensures !LinksTo(es[j], id)
          {
            assert es[j] == es'[j];
          }
        } else {
          var i := |es| - 1;
          assert LinksTo(es[i], id) && m'[id] == es[i].orderType;
          forall j | 0 <= j < i
            ensures !LinksTo(es[j], id)
          {
            assert es[j] == es'[j];
          }
        }
      }
    }
  }

  method PositionOrderTypes(es: seq<Execution>) returns (m: map<string, OrderType>)
    ensures m == FirstOrderTypes(es)
  {
    m := map[];
    for i := 0 to |es|
      invariant m == FirstOrderTypes(es[..i])
    {
      var e := es[i];
      assert es[..i + 1][..i] == es[..i];
      if e.positionId.Some? && e.positionId.value != "" && e.positionId.value !in m {
        m := m[e.positionId.value := e.orderType];
      }
    }
    assert es[..|es|] == es;
  }

  /** The bucket of a position: the order type recorded for its id, else UNKNOWN. */
  function TypeKey(types: map<string, OrderType>): Position -> OrderTypeKey
  {
    (p: Position) => if p.id in types then Known(types[p.id]) else Unknown
  }

  function TypeStats(key: OrderTypeKey, trades: seq<Position>): OrderTypeStats
  {
    var pnl := Sum(trades, PnL);
    OrderTypeStats(key, pnl, |trades|, WinRatePct(trades), MeanOr0(pnl, |trades|))
  }

  function TypeTrades(t: OrderTypeStats): real { t.tradeCount as real }
  function TypePnL(t: OrderTypeStats): real { t.pnl }

  function OrderTypePerformanceOf(ps: seq<Position>, es: seq<Execution>): seq<OrderTypeStats>
  {
    Entries(ClosedOf(ps), TypeKey(FirstOrderTypes(es)), TypeStats)
  }

  method CalculateOrderTypePerformance(ps: seq<Position>, es: seq<Execution>) returns (stats: seq<OrderTypeStats>)
    ensures stats == OrderTypePerformanceOf(ps, es)
  {
    var types := PositionOrderTypes(es);
    var closed := Filter(ps, IsClosed);
    stats := GroupEntries(closed, TypeKey(types), TypeStats);
  }

  /** Each closed position lands in the bucket of the order type of the first
      execution linked to it, or UNKNOWN when none is; buckets appear once each, in
      first-seen order, and together hold every closed trade and its PnL. */
  lemma OrderTypePerformanceBuckets(ps: seq<Position>, es: seq<Execution>)
    ensures var stats, c := OrderTypePerformanceOf(ps, es), ClosedOf(ps);
      (forall i, j :: 0 <= i < j < |stats| ==> stats[i].orderType != stats[j].orderType) &&
      (forall i :: 0 <= i < |stats| ==> stats[i].tradeCount > 0) &&
      Sum(stats, TypeTrades) == |c| as real && Sum(stats, TypePnL) == Sum(c, PnL)
  {
    var c, key := ClosedOf(ps), TypeKey(FirstOrderTypes(es));
    var ks, stats := Keys(c, key), OrderTypePerformanceOf(ps, es);
    forall i | 0 <= i < |ks|
      ensures TypeTrades(stats[i]) == Sum(Group(c, key, ks[i]), One)
    {
      SumOfOnes(Group(c, key, ks[i]));
    }
    SumPerKey(c, key, ks, One, stats, TypeTrades);
    SumPerKey(c, key, ks, PnL, stats, TypePnL);
    GroupTotalIsSum(c, key, ks, One);
    GroupTotalIsSum(c, key, ks, PnL);
    SumOfOnes(c);
  }

  /** The key of a position: the order type of the first execution linked to it, or
      UNKNOWN when none is. */
  lemma TypeKeyOfPosition(es: seq<Execution>, p: Position)
    ensures (exists i :: 0 <= i < |es| && LinksTo(es[i], p.id)) ==>
      exists i :: 0 <= i < |es| && LinksTo(es[i], p.id) &&
        TypeKey(FirstOrderTypes(es))(p) == Known(es[i].orderType) &&
        forall j :: 0 <= j < i ==> !LinksTo(es[j], p.id)
    ensures (forall i :: 0 <= i < |es| ==> !LinksTo(es[i], p.id)) ==> TypeKey(FirstOrderTypes(es))(p) == Unknown
  {
    var m := FirstOrderTypes(es);
    FirstOrderTypesDomain(es);
    FirstOrderTypesFirst(es);
    assert TypeKey(m)(p) == if p.id in m then Known(m[p.id]) else Unknown;
    if p.id in m {
      var i :| 0 <= i < |es| && LinksTo(es[i], p.id) &&
        m[p.id] == es[i].orderType && forall j :: 0 <= j < i ==> !LinksTo(es[j], p.id);
    }
  }

  /** A closed position has a bucket among the reported ones. */
  lemma PositionHasBucket(ps: seq<Position>, es: seq<Execution>, p: Position)
    requires p in ClosedOf(ps)
    ensures exists t :: t in OrderTypePerformanceOf(ps, es) && p in Group(ClosedOf(ps), TypeKey(FirstOrderTypes(es)), t.orderType)
  {
    var c, key := ClosedOf(ps), TypeKey(FirstOrderTypes(es));
    var ks, stats := Keys(c, key), OrderTypePerformanceOf(ps, es);
    var i :| 0 <= i < |c| && c[i] == p;
    var k :| 0 <= k < |ks| && ks[k] == key(p);
    FilterMembers(c, KeyIs(key, key(p)), p);
    assert stats[k].orderType == key(p);
    assert stats[k] in stats;
  }

  /** The order type a closed position is reported under. */
  lemma OrderTypeOfPosition(ps: seq<Position>, es: seq<Execution>, p: Position)
    requires p in ClosedOf(ps)
    ensures exists t :: t in OrderTypePerformanceOf(ps, es) && p in Group(ClosedOf(ps), TypeKey(FirstOrderTypes(es)), t.orderType)
    ensures (exists i :: 0 <= i < |es| && LinksTo(es[i], p.id)) ==>
      exists i :: 0 <= i < |es| && LinksTo(es[i], p.id) &&
        TypeKey(FirstOrderTypes(es))(p) == Known(es[i].orderType) &&
        forall j :: 0 <= j < i ==> !LinksTo(es[j], p.id)
    ensures (forall i :: 0 <= i < |es| ==> !LinksTo(es[i], p.id)) ==> TypeKey(FirstOrderTypes(es))(p) == Unknown
  {
    PositionHasBucket(ps, es, p);
    TypeKeyOfPosition(es, p);
  }
}
