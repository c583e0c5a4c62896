/** Overtrading detection over closed trades in close order: revenge trading after a
    loss, chasing a symbol, fatigue within a day, and same-side clustering. */
module Overtrading {
  import opened Types
  import opened Seqs
  import opened Sorting
  import opened Grouping
  import opened Calculator
  import opened Equity

  const RevengeWindow: int := 30 * MsPerMinute
  const FomoWindow: int := 60 * MsPerMinute

  /** Closes strictly after `t0` and less than `window` later. */
  function LaterWithin(t0: int, window: int): Position -> bool
  {
    (t: Position) => 0 < CloseTime(t) - t0 < window
  }

  /** The trades of `s` that close within `window` after trade `i`. */
  function Within(s: seq<Position>, i: nat, window: int): seq<Position>
    requires i < |s|
  {
    Filter(s, LaterWithin(CloseTime(s[i]), window))
  }

  /** In close order, the trades after `s[i]` all sit after position `i`, so there are
      at most `|s| - 1 - i` of them. */
  lemma {:induction false} WithinAfter(s: seq<Position>, i: nat, window: int)
    requires SortedBy(s, CloseKey) && i < |s|
    ensures |Within(s, i, window)| <= |s| - 1 - i
  {
    var p := LaterWithin(CloseTime(s[i]), window);
    assert s == s[..i + 1] + s[i + 1..];
    FilterAppend(s[..i + 1], s[i + 1..], p);
    forall j | 0 <= j <= i
      ensures !p(s[j])
    {
      assert j == i || CloseKey(s[j]) <= CloseKey(s[i]);
    }
    assert forall j :: 0 <= j < |s[..i + 1]| ==> s[..i + 1][j] == s[j];
    FilterDropsAll(s[..i + 1], p);
  }

  // ---------------------------------------------------------------------------
  // Revenge trading
  // ---------------------------------------------------------------------------

  /** A losing trade followed by at least three closes within 30 minutes. */
  function RevengeAt(s: seq<Position>): nat -> bool
  {
    (i: nat) => i < |s| && IsLoss(s[i]) && |Within(s, i, RevengeWindow)| >= 3
  }

  /** The loop runs while `i < length - 3` and stops at the first report. */
  function RevengeSignals(s: seq<Position>): seq<Signal>
  {
    match ScanFrom(|s| - 3, 0, RevengeAt(s))
    case None => []
    case Some(i) => [RevengeTrading(PnL(s[i]), |Within(s, i, RevengeWindow)|)]
  }

  method DetectRevenge(sorted: seq<Position>) returns (signals: seq<Signal>)
    ensures signals == RevengeSignals(sorted)
  {
    for i := 0 to if |sorted| >= 3 then |sorted| - 3 else 0
      invariant ScanFrom(|sorted| - 3, 0, RevengeAt(sorted)) == ScanFrom(|sorted| - 3, i, RevengeAt(sorted))
    {
      var trade := sorted[i];
      var pnl := PnL(trade);
      if pnl < 0.0 {
        var next30Min := Filter(sorted, LaterWithin(CloseTime(trade), RevengeWindow));
        if |next30Min| >= 3 {
          return [RevengeTrading(pnl, |next30Min|)];
        }
      }
    }
    return [];
  }

  /** On trades in close order the `length - 3` bound loses nothing: a report is made
      exactly when some losing trade has three closes within 30 minutes after it, and
      it is the first such trade. */
  lemma RevengeExactly(s: seq<Position>)
    requires SortedBy(s, CloseKey)
    ensures RevengeSignals(s) != [] <==> exists i :: 0 <= i < |s| && RevengeAt(s)(i)
    ensures RevengeSignals(s) != [] ==>
      (exists i :: 0 <= i < |s| && RevengeAt(s)(i) &&
         (forall k :: 0 <= k < i ==> !RevengeAt(s)(k)) &&
         RevengeSignals(s) == [RevengeTrading(PnL(s[i]), |Within(s, i, RevengeWindow)|)])
  {
    if RevengeSignals(s) == [] {
      forall i | 0 <= i < |s| && RevengeAt(s)(i)
        ensures false
      {
        WithinAfter(s, i, RevengeWindow);
      }
    }
  }

  // ---------------------------------------------------------------------------
  // FOMO clustering
  // ---------------------------------------------------------------------------

  predicate SameSide(ts: seq<Position>, side: Side)
  {
    forall t :: t in ts ==> t.side == side
  }

  /** At least five closes within an hour after trade `i`, all on its side. */
  function FomoAt(s: seq<Position>): nat -> bool
  {
    (i: nat) => i < |s| && |Within(s, i, FomoWindow)| >= 5 && SameSide(Within(s, i, FomoWindow), s[i].side)
  }

  /** The loop runs while `i < length - 5` and stops at the first report; the count
      includes the trade itself. */
  function FomoSignals(s: seq<Position>): seq<Signal>
  {
    match ScanFrom(|s| - 5, 0, FomoAt(s))
    case None => []
    case Some(i) => [FomoClustering(s[i].side, |Within(s, i, FomoWindow)| + 1)]
  }

  method DetectFomo(sorted: seq<Position>) returns (signals: seq<Signal>)
    ensures signals == FomoSignals(sorted)
  {
    for i := 0 to if |sorted| >= 5 then |sorted| - 5 else 0
      invariant ScanFrom(|sorted| - 5, 0, FomoAt(sorted)) == ScanFrom(|sorted| - 5, i, FomoAt(sorted))
    {
      var trade := sorted[i];
      var next1Hour := Filter(sorted, LaterWithin(CloseTime(trade), FomoWindow));
      if |next1Hour| >= 5 {
        var allSameSide := forall t :: t in next1Hour ==> t.side == trade.side;
        if allSameSide {
          return [FomoClustering(trade.side, |next1Hour| + 1)];
        }
      }
    }
    return [];
  }

  /** On trades in close order the `length - 5` bound loses nothing: a report is made
      exactly when some trade is followed within the hour by five or more trades on
      its side, and it counts the first such trade's cluster. */
  lemma FomoExactly(s: seq<Position>)
    requires SortedBy(s, CloseKey)
    ensures FomoSignals(s) != [] <==> exists i :: 0 <= i < |s| && FomoAt(s)(i)
    ensures FomoSignals(s) != [] ==>
      (exists i :: 0 <= i < |s| && FomoAt(s)(i) &&
         (forall k :: 0 <= k < i ==> !FomoAt(s)(k)) &&
         FomoSignals(s) == [FomoClustering(s[i].side, |Within(s, i, FomoWindow)| + 1)] &&
         FomoSignals(s)[0].count >= 6)
  {
    if FomoSignals(s) == [] {
      forall i | 0 <= i < |s| && FomoAt(s)(i)
        ensures false
      {
        WithinAfter(s, i, FomoWindow);
      }
    }
  }

  // ---------------------------------------------------------------------------
  // Per-key signals (chasing per symbol, fatigue per day)
  // ---------------------------------------------------------------------------

  /** The reports of the keys, visited in order, that produce one. */
  function Collect<K>(ks: seq<K>, report: K -> Option<Signal>): seq<Signal>
  {
    if ks == [] then []
    else
      var r := report(ks[|ks| - 1]);
      Collect(ks[..|ks| - 1], report) + (if r.Some? then [r.value] else [])
  }

  lemma {:induction false} CollectMembers<K>(ks: seq<K>, report: K -> Option<Signal>, x: Signal)
    ensures x in Collect(ks, report) <==> exists i :: 0 <= i < |ks| && report(ks[i]) == Some(x)
  {
    if ks != [] {
      var ks' := ks[..|ks| - 1];
      CollectMembers(ks', report, x);
      if x in Collect(ks', report) {
        var i :| 0 <= i < |ks'| && report(ks'[i]) == Some(x);
        assert report(ks[i]) == Some(x);
      }
    }
  }

  /** Appending a key appends its report, if any. */
  lemma CollectStep<K>(ks: seq<K>, i: nat, report: K -> Option<Signal>)
    requires i < |ks|
    ensures Collect(ks[..i + 1], report) ==
      Collect(ks[..i], report) + (if report(ks[i]).Some? then [report(ks[i]).value] else [])
  {
    assert ks[..i + 1][..i] == ks[..i];
  }

  /** A symbol with at least four trades, at least two of them losses. */
  function ChasingFor(symbol: string, trades: seq<Position>): Option<Signal>
  {
    var losses := Filter(trades, IsLoss);
    if |losses| >= 2 && |trades| >= 4 then Some(Chasing(symbol, |losses|, |trades|)) else None
  }

  function ChasingReport(s: seq<Position>): string -> Option<Signal>
  {
    (symbol: string) => ChasingFor(symbol, Group(s, Symbol, symbol))
  }

  function ChasingSignals(s: seq<Position>): seq<Signal>
  {
    Collect(Keys(s, Symbol), ChasingReport(s))
  }

  /** A day with more than ten trades whose second half wins at a rate more than 20
      points below the first half's. */
  function FatigueFor(day: int, trades: seq<Position>): Option<Signal>
  {
    var half := |trades| / 2;
    var firstHalfWR, secondHalfWR := WinRatePct(trades[..half]), WinRatePct(trades[half..]);
    if |trades| > 10 && secondHalfWR < firstHalfWR - 20.0
    then Some(FatigueTrading(day, |trades|, firstHalfWR - secondHalfWR))
    else None
  }

  function FatigueReport(s: seq<Position>): int -> Option<Signal>
  {
    (day: int) => FatigueFor(day, Group(s, CloseDay, day))
  }

  function FatigueSignals(s: seq<Position>): seq<Signal>
  {
    Collect(Keys(s, CloseDay), FatigueReport(s))
  }

  /** The check of one symbol's trades. */
  method CheckChasing(symbol: string, trades: seq<Position>) returns (report: Option<Signal>)
    ensures report == ChasingFor(symbol, trades)
  {
    report := None;
    var losses := Filter(trades, IsLoss);
    if |losses| >= 2 && |trades| >= 4 {
      report := Some(Chasing(symbol, |losses|, |trades|));
    }
  }

  method DetectChasing(sorted: seq<Position>) returns (signals: seq<Signal>)
    ensures signals == ChasingSignals(sorted)
  {
    var symbols, bySymbol := GroupBy(sorted, Symbol);
    signals := [];
    for i := 0 to |symbols|
      invariant signals == Collect(symbols[..i], ChasingReport(sorted))
    {
      var symbol := symbols[i];
      assert symbol in bySymbol;
      var report := CheckChasing(symbol, bySymbol[symbol]);
      CollectStep(symbols, i, ChasingReport(sorted));
      if report.Some? {
        signals := signals + [report.value];
      }
    }
    assert symbols[..|symbols|] == symbols;
  }

  /** The check of one day's trades. */
  method CheckFatigue(day: int, trades: seq<Position>) returns (report: Option<Signal>)
    ensures report == FatigueFor(day, trades)
  {
    report := None;
    if |trades| > 10 {
      var firstHalf := trades[..|trades| / 2];
      var secondHalf := trades[|trades| / 2..];
      var firstHalfWR := WinRatePct(firstHalf);
      var secondHalfWR := WinRatePct(secondHalf);
      if secondHalfWR < firstHalfWR - 20.0 {
        report := Some(FatigueTrading(day, |trades|, firstHalfWR - secondHalfWR));
      }
    }
  }

  method DetectFatigue(sorted: seq<Position>) returns (signals: seq<Signal>)
    ensures signals == FatigueSignals(sorted)
  {
    var days, byDay := GroupBy(sorted, CloseDay);
    signals := [];
    for i := 0 to |days|
      invariant signals == Collect(days[..i], FatigueReport(sorted))
    {
      var day := days[i];
      assert day in byDay;
      var report := CheckFatigue(day, byDay[day]);
      CollectStep(days, i, FatigueReport(sorted));
      if report.Some? {
        signals := signals + [report.value];
      }
    }
    assert days[..|days|] == days;
  }

  /** When only key `k` can report `x`, `x` is collected exactly when `k` is visited
      and reports it. */
  lemma {:induction false} CollectOnly<K>(ks: seq<K>, report: K -> Option<Signal>, x: Signal, k: K)
    requires forall j :: 0 <= j < |ks| && report(ks[j]) == Some(x) ==> ks[j] == k
    ensures x in Collect(ks, report) <==> k in ks && report(k) == Some(x)
  {
    CollectMembers(ks, report, x);
    if k in ks && report(k) == Some(x) {
      var j :| 0 <= j < |ks| && ks[j] == k;
    }
  }

  /** When every report names the key that made it and no key is visited twice, no
      two collected reports name the same key. */
  lemma {:induction false} CollectDistinct<K>(ks: seq<K>, report: K -> Option<Signal>, name: Signal -> K)
    requires NoDuplicates(ks)
    requires forall k :: report(k).Some? ==> name(report(k).value) == k
    ensures forall i, j :: 0 <= i < j < |Collect(ks, report)| ==>
      name(Collect(ks, report)[i]) != name(Collect(ks, report)[j])
  {
    if ks != [] {
      var ks', last := ks[..|ks| - 1], ks[|ks| - 1];
      assert NoDuplicates(ks') by {
        forall i, j | 0 <= i < j < |ks'| ensures ks'[i] != ks'[j] {
          assert ks'[i] == ks[i] && ks'[j] == ks[j];
        }
      }
      CollectDistinct(ks', report, name);
      var prev := Collect(ks', report);
      if report(last).Some? {
        forall i | 0 <= i < |prev| ensures name(prev[i]) != last {
          CollectMembers(ks', report, prev[i]);
          var j :| 0 <= j < |ks'| && report(ks'[j]) == Some(prev[i]);
          assert ks'[j] == ks[j];
        }
      }
    }
  }

  /** The symbol a chasing report names. */
  function ChasedSymbol(x: Signal): string
  {
    if x.Chasing? then x.symbol else ""
  }

  /** The day a fatigue report names. */
  function FatiguedDay(x: Signal): int
  {
    if x.FatigueTrading? then x.date else 0
  }

  /** No symbol is reported twice. */
  lemma ChasingOnce(s: seq<Position>)
    ensures forall i, j :: 0 <= i < j < |ChasingSignals(s)| ==>
      ChasedSymbol(ChasingSignals(s)[i]) != ChasedSymbol(ChasingSignals(s)[j])
  {
    forall k: string | ChasingReport(s)(k).Some?
      ensures ChasedSymbol(ChasingReport(s)(k).value) == k
    {
    }
    CollectDistinct(Keys(s, Symbol), ChasingReport(s), ChasedSymbol);
  }

  /** No day is reported twice. */
  lemma FatigueOnce(s: seq<Position>)
    ensures forall i, j :: 0 <= i < j < |FatigueSignals(s)| ==>
      FatiguedDay(FatigueSignals(s)[i]) != FatiguedDay(FatigueSignals(s)[j])
  {
    forall k: int | FatigueReport(s)(k).Some?
      ensures FatiguedDay(FatigueReport(s)(k).value) == k
    {
      var trades := Group(s, CloseDay, k);
      assert FatigueReport(s)(k) == FatigueFor(k, trades);
    }
    CollectDistinct(Keys(s, CloseDay), FatigueReport(s), FatiguedDay);
  }

  /** A chasing report is made for exactly the symbols traded at least four times
      with at least two losses, carrying those counts, and no symbol is reported
      twice. */
  lemma ChasingExactly(s: seq<Position>, symbol: string, losses: nat, total: nat)
    ensures Chasing(symbol, losses, total) in ChasingSignals(s) <==>
      var trades := Group(s, Symbol, symbol);
      trades != [] && losses == |Filter(trades, IsLoss)| && total == |trades| && losses >= 2 && total >= 4
    ensures forall i, j :: 0 <= i < j < |ChasingSignals(s)| ==>
      ChasedSymbol(ChasingSignals(s)[i]) != ChasedSymbol(ChasingSignals(s)[j])
  {
    CollectOnly(Keys(s, Symbol), ChasingReport(s), Chasing(symbol, losses, total), symbol);
    KeyListed(s, Symbol, symbol);
    ChasingOnce(s);
  }

  /** A fatigue report is made for exactly the days with more than ten trades whose
      second-half win rate is more than 20 points below the first half's, carrying
      the drop, and no day is reported twice. */
  lemma FatigueExactly(s: seq<Position>, day: int, count: nat, drop: real)
    ensures FatigueTrading(day, count, drop) in FatigueSignals(s) <==>
      var trades := Group(s, CloseDay, day);
      var half := |trades| / 2;
      count == |trades| > 10 &&
      drop == WinRatePct(trades[..half]) - WinRatePct(trades[half..]) && drop > 20.0
    ensures forall i, j :: 0 <= i < j < |FatigueSignals(s)| ==>
      FatiguedDay(FatigueSignals(s)[i]) != FatiguedDay(FatigueSignals(s)[j])
  {
    CollectOnly(Keys(s, CloseDay), FatigueReport(s), FatigueTrading(day, count, drop), day);
    KeyListed(s, CloseDay, day);
    FatigueOnce(s);
  }

  // ---------------------------------------------------------------------------
  // All signals
  // ---------------------------------------------------------------------------

  /** `detectOvertrading`: revenge, then chasing, then fatigue, then FOMO. */
  function OvertradingSignalsOf(ps: seq<Position>): seq<Signal>
  {
    var s := TimedClosed(ps);
    RevengeSignals(s) + ChasingSignals(s) + FatigueSignals(s) + FomoSignals(s)
  }

  method DetectOvertrading(ps: seq<Position>) returns (signals: seq<Signal>)
    ensures signals == OvertradingSignalsOf(ps)
  {
    var closed := Filter(ps, IsClosedWithTime);
    var sorted := SortBy(closed, CloseKey);
    var revenge := DetectRevenge(sorted);
    var chasing := DetectChasing(sorted);
    var fatigue := DetectFatigue(sorted);
    var fomo := DetectFomo(sorted);
    signals := revenge + chasing + fatigue + fomo;
  }

  /** The thresholds a report of each kind carries. */
  predicate Raised(x: Signal)
  {
    match x
    case RevengeTrading(lossAmount, subsequentTrades) => lossAmount < 0.0 && subsequentTrades >= 3
    case Chasing(_, losses, total) => losses >= 2 && total >= 4
    case FatigueTrading(_, tradeCount, wrDrop) => tradeCount > 10 && wrDrop > 20.0
    case FomoClustering(_, count) => count >= 6
  }

  lemma RevengeSignalsShape(s: seq<Position>)
    ensures |RevengeSignals(s)| <= 1
    ensures forall x :: x in RevengeSignals(s) ==> x.RevengeTrading? && Raised(x)
  {
    match ScanFrom(|s| - 3, 0, RevengeAt(s))
    case None =>
    case Some(i) =>
      assert RevengeAt(s)(i);
  }

  lemma FomoSignalsShape(s: seq<Position>)
    ensures |FomoSignals(s)| <= 1
    ensures forall x :: x in FomoSignals(s) ==> x.FomoClustering? && Raised(x)
  {
    match ScanFrom(|s| - 5, 0, FomoAt(s))
    case None =>
    case Some(i) =>
      assert FomoAt(s)(i);
  }

  lemma ChasingSignalsShape(s: seq<Position>)
    ensures forall x :: x in ChasingSignals(s) ==> x.Chasing? && Raised(x)
  {
    forall x | x in ChasingSignals(s)
      ensures x.Chasing? && Raised(x)
    {
      CollectMembers(Keys(s, Symbol), ChasingReport(s), x);
    }
  }

  lemma FatigueSignalsShape(s: seq<Position>)
    ensures forall x :: x in FatigueSignals(s) ==> x.FatigueTrading? && Raised(x)
  {
    forall x | x in FatigueSignals(s)
      ensures x.FatigueTrading? && Raised(x)
    {
      CollectMembers(Keys(s, CloseDay), FatigueReport(s), x);
    }
  }

  /** At most one revenge and one FOMO report; the reports come grouped by kind in
      the order revenge, chasing, fatigue, FOMO, and each carries the thresholds that
      raised it. */
  lemma OvertradingSignalShape(ps: seq<Position>)
    ensures var sig, s := OvertradingSignalsOf(ps), TimedClosed(ps);
      |RevengeSignals(s)| <= 1 && |FomoSignals(s)| <= 1 &&
      (forall x :: x in sig ==> Raised(x)) &&
      (forall x :: x in RevengeSignals(s) ==> x.RevengeTrading?) &&
      (forall x :: x in ChasingSignals(s) ==> x.Chasing?) &&
      (forall x :: x in FatigueSignals(s) ==> x.FatigueTrading?) &&
      (forall x :: x in FomoSignals(s) ==> x.FomoClustering?)
  {
    var s := TimedClosed(ps);
    RevengeSignalsShape(s);
    ChasingSignalsShape(s);
    FatigueSignalsShape(s);
    FomoSignalsShape(s);
  }
}
