/** The backtest does not look ahead: up to a day, its equity curve and its trades are those of any
    other histories that agree with these through that day. */
module Lookahead {
  import opened Domain
  import opened Sizing
  import opened Backtest
  import opened Evaluation
  import opened BacktestRun

  ghost predicate AgreeUpTo(a: seq<Candle>, b: seq<Candle>, day: int, p: nat) {
    && p <= |a| && p <= |b| && a[..p] == b[..p]
    && (forall i :: 0 <= i < p ==> a[i].day <= day)
    && (forall i :: p <= i < |a| ==> day < a[i].day)
    && (forall i :: p <= i < |b| ==> day < b[i].day)
  }

  ghost predicate AgreeThrough(a: seq<Candle>, b: seq<Candle>, day: int) {
    exists p: nat :: AgreeUpTo(a, b, day, p)
  }

  ghost predicate HistoriesAgree(a: seq<History>, b: seq<History>, day: int) {
    && |a| == |b|
    && forall k :: 0 <= k < |a| ==> a[k].instrument == b[k].instrument && AgreeThrough(a[k].candles, b[k].candles, day)
  }

  ghost predicate MinutesAgree(a: Minutes, b: Minutes, day: int) {
    forall uid :: AgreeThrough(MinutesOf(a, uid), MinutesOf(b, uid), day)
  }

  // ---------------------------------------------------------------- nights and dates

  lemma SameEvaluation(setup: Setup, instrument: Instrument, a: seq<Candle>, b: seq<Candle>, day: int, p: nat,
      exit: nat)
    requires AgreeUpTo(a, b, day, p) && 1 <= exit < p
    ensures Evaluate(setup, instrument, a, exit) == Evaluate(setup, instrument, b, exit)
  {
    hide Screen, BuyPrice, SellPrice;
    assert a[..exit - 1] == a[..p][..exit - 1] == b[..exit - 1];
    assert a[exit] == a[..p][exit] && a[exit - 1] == a[..p][exit - 1];
  }

  lemma {:induction false} SameNightsUpTo(setup: Setup, a: History, b: History, day: int, p: nat, date: int, n: nat)
    requires a.instrument == b.instrument && AgreeUpTo(a.candles, b.candles, day, p) && n <= p
    ensures Nights(setup, a, date, n) == Nights(setup, b, date, n)
  {
    hide Evaluate, AgreeUpTo;
    Agreed(a.candles, b.candles, day, p);
    if n > 1 {
      SameNightsUpTo(setup, a, b, day, p, date, n - 1);
      SameEvaluation(setup, a.instrument, a.candles, b.candles, day, p, n - 1);
    }
  }

  lemma Agreed(a: seq<Candle>, b: seq<Candle>, day: int, p: nat)
    requires AgreeUpTo(a, b, day, p)
    ensures p <= |a| && p <= |b|
  {
  }

  lemma SameNights(setup: Setup, a: History, b: History, day: int, date: int)
    requires a.instrument == b.instrument && AgreeThrough(a.candles, b.candles, day) && date <= day
    ensures Nights(setup, a, date, |a.candles|) == Nights(setup, b, date, |b.candles|)
    ensures TradesOnDate(setup, a, date) <==> TradesOnDate(setup, b, date)
  {
    hide Nights;
    var p: nat :| AgreeUpTo(a.candles, b.candles, day, p);
    SameNightsUpTo(setup, a, b, day, p, date, p);
    NoNightsLater(setup, a, date, p, |a.candles|);
    NoNightsLater(setup, b, date, p, |b.candles|);
    forall i | Counts(setup, a, i) && a.candles[i].day == date ensures Counts(setup, b, i) && b.candles[i].day == date {
      assert a.candles[i] == a.candles[..p][i];
    }
    forall i | Counts(setup, b, i) && b.candles[i].day == date ensures Counts(setup, a, i) && a.candles[i].day == date {
      assert b.candles[i] == b.candles[..p][i];
    }
  }

  lemma {:induction false} SameOnDate(setup: Setup, a: seq<History>, b: seq<History>, day: int, date: int)
    requires HistoriesAgree(a, b, day) && date <= day
    ensures OnDate(setup, a, date) == OnDate(setup, b, date)
  {
    hide Nights, AgreeThrough;
    if a != [] {
      SameOnDate(setup, a[..|a| - 1], b[..|b| - 1], day, date);
      SameNights(setup, a[|a| - 1], b[|b| - 1], day, date);
    }
  }

  lemma SameTradingDate(setup: Setup, a: seq<History>, b: seq<History>, day: int, date: int)
    requires HistoriesAgree(a, b, day) && date <= day
    ensures TradingDate(setup, a, date) ==> TradingDate(setup, b, date)
  {
    hide TradesOnDate, AgreeThrough;
    if TradingDate(setup, a, date) {
      var h :| h in a && TradesOnDate(setup, h, date);
      var k :| 0 <= k < |a| && a[k] == h;
      SameNights(setup, a[k], b[k], day, date);
      assert b[k] in b;
    }
  }

  lemma AgreementIsMutual(a: seq<History>, b: seq<History>, day: int)
    requires HistoriesAgree(a, b, day)
    ensures HistoriesAgree(b, a, day)
  {
    forall k | 0 <= k < |b| ensures AgreeThrough(b[k].candles, a[k].candles, day) {
      var p: nat :| AgreeUpTo(a[k].candles, b[k].candles, day, p);
      assert AgreeUpTo(b[k].candles, a[k].candles, day, p);
    }
  }

  /** The trading dates of a set, listed. */
  ghost predicate Lists(setup: Setup, hs: seq<History>, dates: seq<int>) {
    Ascending(dates) && forall d :: d in dates <==> TradingDate(setup, hs, d)
  }

  /** Both lists of trading dates begin alike. */
  lemma {:induction false} SameDates(
      setup: Setup, a: seq<History>, b: seq<History>, datesA: seq<int>, datesB: seq<int>, day: int, k: nat)
    requires HistoriesAgree(a, b, day) && Lists(setup, a, datesA) && Lists(setup, b, datesB)
    requires k <= |datesA| && (forall i :: 0 <= i < k ==> datesA[i] <= day)
    ensures k <= |datesB| && datesA[..k] == datesB[..k]
  {
    hide TradingDate, HistoriesAgree;
    if k > 0 {
      SameDates(setup, a, b, datesA, datesB, day, k - 1);
      NextDate(setup, a, b, datesA, datesB, day, k - 1);
      assert datesA[..k] == datesA[..k - 1] + [datesA[k - 1]] && datesB[..k] == datesB[..k - 1] + [datesB[k - 1]];
    }
  }

  lemma NextDate(setup: Setup, a: seq<History>, b: seq<History>, datesA: seq<int>, datesB: seq<int>, day: int, k: nat)
    requires HistoriesAgree(a, b, day) && Lists(setup, a, datesA) && Lists(setup, b, datesB)
    requires k < |datesA| && datesA[k] <= day && k <= |datesB| && datesA[..k] == datesB[..k]
    ensures k < |datesB| && datesB[k] == datesA[k]
  {
    hide TradingDate, HistoriesAgree;
    var next := datesA[k];
    SameTradingDate(setup, a, b, day, next);
    assert next in datesA && next in datesB;
    forall i | 0 <= i < k ensures datesA[i] == datesB[i] {
      assert datesA[i] == datesA[..k][i];
    }
    var m :| 0 <= m < |datesB| && datesB[m] == next;
    if k < m {
      AgreementIsMutual(a, b, day);
      SameTradingDate(setup, b, a, day, datesB[k]);
      assert false;
    }
  }

  // ---------------------------------------------------------------- the minutes

  lemma {:induction false} SameVolume(
      a: seq<Candle>, b: seq<Candle>, day: int, p: nat, date: int, limit: real, side: Side, window: Window, n: nat)
    requires AgreeUpTo(a, b, day, p) && n <= p
    ensures ReachableVolume(a, date, limit, side, window, n) == ReachableVolume(b, date, limit, side, window, n)
  {
    if n > 0 {
      SameVolume(a, b, day, p, date, limit, side, window, n - 1);
      assert a[n - 1] == a[..p][n - 1] == b[..p][n - 1];
    }
  }

  lemma {:induction false} NoVolumeLater(
      a: seq<Candle>, date: int, limit: real, side: Side, window: Window, p: nat, n: nat)
    requires p <= n <= |a| && forall i :: p <= i < n ==> a[i].day != date
    ensures ReachableVolume(a, date, limit, side, window, n) == ReachableVolume(a, date, limit, side, window, p)
  {
    if p < n {
      NoVolumeLater(a, date, limit, side, window, p, n - 1);
    }
  }

  lemma {:induction false} SameNotional(
      a: seq<Candle>, b: seq<Candle>, day: int, p: nat, date: int, window: Window, lot: int, n: nat)
    requires AgreeUpTo(a, b, day, p) && n <= p
    ensures WindowNotional(a, date, window, lot, n) == WindowNotional(b, date, window, lot, n)
  {
    if n > 0 {
      SameNotional(a, b, day, p, date, window, lot, n - 1);
      assert a[n - 1] == a[..p][n - 1] == b[..p][n - 1];
    }
  }

  lemma {:induction false} NoNotionalLater(a: seq<Candle>, date: int, window: Window, lot: int, p: nat, n: nat)
    requires p <= n <= |a| && forall i :: p <= i < n ==> a[i].day != date
    ensures WindowNotional(a, date, window, lot, n) == WindowNotional(a, date, window, lot, p)
  {
    if p < n {
      NoNotionalLater(a, date, window, lot, p, n - 1);
    }
  }

  lemma SameShare(a: seq<Candle>, b: seq<Candle>, day: int, date: int, limit: real, side: Side, window: Window,
      rate: real)
    requires AgreeThrough(a, b, day) && date <= day
    ensures Share(a, date, limit, side, window, rate) == Share(b, date, limit, side, window, rate)
  {
    hide ReachableVolume;
    var p: nat :| AgreeUpTo(a, b, day, p);
    SameVolume(a, b, day, p, date, limit, side, window, p);
    NoVolumeLater(a, date, limit, side, window, p, |a|);
    NoVolumeLater(b, date, limit, side, window, p, |b|);
  }

  lemma NoShare(date: int, limit: real, lot: int, side: Side, window: Window, rate: real)
    ensures FillableLots([], date, limit, lot, side, window, rate) == 0
  {
  }

  /** What a date's minutes offer is the same. */
  lemma SameReach(a: seq<Candle>, b: seq<Candle>, day: int, date: int, limit: real, lot: int, side: Side,
      window: Window, rate: real)
    requires AgreeThrough(a, b, day) && date <= day
    ensures WindowNotional(a, date, window, lot, |a|) == WindowNotional(b, date, window, lot, |b|)
    ensures FillableLots(a, date, limit, lot, side, window, rate) ==
      FillableLots(b, date, limit, lot, side, window, rate)
    ensures a == [] || b == [] ==> FillableLots(a, date, limit, lot, side, window, rate) == 0
  {
    hide WindowNotional, Share;
    var p: nat :| AgreeUpTo(a, b, day, p);
    SameNotional(a, b, day, p, date, window, lot, p);
    NoNotionalLater(a, date, window, lot, p, |a|);
    NoNotionalLater(b, date, window, lot, p, |b|);
    SameShare(a, b, day, date, limit, side, window, rate);
    NoShare(date, limit, lot, side, window, rate);
  }

  lemma SameLots(cfg: Config, c: Candidate, a: seq<Candle>, b: seq<Candle>, day: int, equity: real, cash: real, n: int)
    requires AgreeThrough(a, b, day) && c.entryDay <= day && c.exitDay <= day
    ensures LotsTraded(cfg, c, a, equity, cash, n) == LotsTraded(cfg, c, b, equity, cash, n)
  {
    hide WindowNotional, FillableLots, Size, UnconstrainedVolume, AgreeThrough;
    var rate := cfg.sizing.maxParticipation;
    SameReach(a, b, day, c.entryDay, c.buy, c.lot, Buy, cfg.entryWindow, rate);
    SameReach(a, b, day, c.exitDay, c.sell, c.lot, Sell, cfg.exitWindow, rate);
  }

  // ---------------------------------------------------------------- days and the run

  ghost predicate KnownBy(candidates: seq<Candidate>, day: int) {
    forall c :: c in candidates ==> c.entryDay <= day && c.exitDay <= day
  }

  lemma {:induction false} SameDay(cfg: Config, day: seq<Candidate>, a: Minutes, b: Minutes, known: int, equity: real,
      k: nat)
    requires MinutesAgree(a, b, known) && KnownBy(day, known) && k <= |day|
    ensures DayTrades(cfg, day, a, equity, k) == DayTrades(cfg, day, b, equity, k)
  {
    hide LotsTraded, TradeOf, Notionals, AgreeThrough;
    if k > 0 {
      SameDay(cfg, day, a, b, known, equity, k - 1);
      var before, c := DayTrades(cfg, day, a, equity, k - 1), day[k - 1];
      assert c in day;
      SameLots(cfg, c, MinutesOf(a, c.uid), MinutesOf(b, c.uid), known, equity, equity - Notionals(before), |day|);
    }
  }

  lemma {:induction false} SameRun(
      cfg: Config, daysA: seq<seq<Candidate>>, daysB: seq<seq<Candidate>>, a: Minutes, b: Minutes, known: int,
      initial: real, k: nat)
    requires MinutesAgree(a, b, known) && k <= |daysA| && k <= |daysB| && daysA[..k] == daysB[..k]
    requires forall d :: 0 <= d < k ==> KnownBy(daysA[d], known)
    ensures EquityAfter(cfg, daysA, a, initial, k) == EquityAfter(cfg, daysB, b, initial, k)
    ensures TradesBefore(cfg, daysA, a, initial, k) == TradesBefore(cfg, daysB, b, initial, k)
  {
    hide DayTrades, Profits, MinutesAgree;
    if k > 0 {
      assert daysA[..k - 1] == daysA[..k][..k - 1] == daysB[..k - 1];
      SameRun(cfg, daysA, daysB, a, b, known, initial, k - 1);
      assert daysA[k - 1] == daysA[..k][k - 1] == daysB[k - 1];
      var day := Chosen(cfg, daysA[k - 1]);
      SameDay(cfg, day, a, b, known, EquityAfter(cfg, daysA, a, initial, k - 1), |day|);
    }
  }

  ghost predicate SortedByDay(candles: seq<Candle>) {
    forall i, j :: 0 <= i < j < |candles| ==> candles[i].day <= candles[j].day
  }

  lemma {:induction false} NightsAreKnown(setup: Setup, h: History, date: int, n: nat)
    requires n <= |h.candles| && SortedByDay(h.candles)
    ensures KnownBy(Nights(setup, h, date, n), date)
  {
    hide Evaluate;
    if n > 1 {
      NightsAreKnown(setup, h, date, n - 1);
      if Evaluate(setup, h.instrument, h.candles, n - 1).Yes? {
        YesIs(setup, h.instrument, h.candles, n - 1);
      }
    }
  }

  lemma {:induction false} OnDateIsKnown(setup: Setup, hs: seq<History>, date: int)
    requires forall k :: 0 <= k < |hs| ==> SortedByDay(hs[k].candles)
    ensures KnownBy(OnDate(setup, hs, date), date)
  {
    hide Nights;
    if hs != [] {
      OnDateIsKnown(setup, hs[..|hs| - 1], date);
      NightsAreKnown(setup, hs[|hs| - 1], date, |hs[|hs| - 1].candles|);
    }
  }

  lemma RankingIsKnown(candidates: seq<Candidate>, date: int, day: int)
    requires KnownBy(candidates, date) && date <= day
    ensures KnownBy(Ranking(candidates), day)
  {
    RankingKeeps(candidates);
    forall c | c in Ranking(candidates) ensures c in candidates {
      assert c in multiset(Ranking(candidates));
    }
  }

  /** Whatever happens after a day: the trading dates up to it, the equity after each of them and the
      trades on them are the same. */
  lemma NoLookAhead(
      setup: Setup, a: seq<History>, b: seq<History>, minutesA: Minutes, minutesB: Minutes,
      datesA: seq<int>, datesB: seq<int>, day: int, initial: real, k: nat)
    requires HistoriesAgree(a, b, day) && MinutesAgree(minutesA, minutesB, day)
    requires forall i :: 0 <= i < |a| ==> SortedByDay(a[i].candles)
    requires Lists(setup, a, datesA) && Lists(setup, b, datesB)
    requires k <= |datesA| && (forall i :: 0 <= i < k ==> datesA[i] <= day)
    ensures k <= |datesB| && datesA[..k] == datesB[..k]
    ensures EquityAfter(setup.ledger, DaysOf(setup, a, datesA), minutesA, initial, k)
            == EquityAfter(setup.ledger, DaysOf(setup, b, datesB), minutesB, initial, k)
    ensures TradesBefore(setup.ledger, DaysOf(setup, a, datesA), minutesA, initial, k)
            == TradesBefore(setup.ledger, DaysOf(setup, b, datesB), minutesB, initial, k)
  {
    hide HistoriesAgree, MinutesAgree, SortedByDay, Lists, OnDate, Ranking, KnownBy, EquityAfter, TradesBefore;
    SameDates(setup, a, b, datesA, datesB, day, k);
    var daysA, daysB := DaysOf(setup, a, datesA), DaysOf(setup, b, datesB);
    forall d | 0 <= d < k ensures daysA[d] == daysB[d] && KnownBy(daysA[d], day) {
      assert datesA[d] == datesA[..k][d] == datesB[d];
      SameOnDate(setup, a, b, day, datesA[d]);
      OnDateIsKnown(setup, a, datesA[d]);
      RankingIsKnown(OnDate(setup, a, datesA[d]), datesA[d], day);
    }
    assert daysA[..k] == daysB[..k];
    SameRun(setup.ledger, daysA, daysB, minutesA, minutesB, day, initial, k);
  }
}
