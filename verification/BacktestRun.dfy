/** A whole backtest: the accepted nights of all instruments, collected by exit date, ranked, and traded
    date after date. Neither what comes after a date nor the order in which the instruments are visited
    has any effect on what is traded up to that date. */
module BacktestRun {
  import opened RawState
  import opened Domain
  import opened Backtest
  import opened Evaluation

  // ---------------------------------------------------------------- collecting

  function Kept(outcome: Outcome, date: int): seq<Candidate> {
    if outcome.Yes? && outcome.candidate.exitDay == date then [outcome.candidate] else []
  }

  /** The accepted nights among the first n days of an instrument that are left on a date. */
  function Nights(setup: Setup, h: History, date: int, n: nat): seq<Candidate>
    requires n <= |h.candles|
  {
    if n <= 1 then [] else Nights(setup, h, date, n - 1) + Kept(Evaluate(setup, h.instrument, h.candles, n - 1), date)
  }

  function OnDate(setup: Setup, hs: seq<History>, date: int): seq<Candidate> {
    if hs == [] then []
    else OnDate(setup, hs[..|hs| - 1], date) + Nights(setup, hs[|hs| - 1], date, |hs[|hs| - 1].candles|)
  }

  ghost predicate Sane(setup: Setup, h: History) {
    forall i :: 1 <= i < |h.candles| ==> !Evaluate(setup, h.instrument, h.candles, i).InvalidPrice?
  }

  /** From this day on an instrument has enough history for its dates to count as trading dates. */
  predicate Counts(setup: Setup, h: History, i: int) {
    1 <= i < |h.candles| && setup.criteria.shortWindow <= i && setup.criteria.longWindow <= i
  }

  ghost predicate TradesOnDate(setup: Setup, h: History, date: int) {
    TradesWithin(setup, h, date, |h.candles|)
  }

  ghost predicate TradesWithin(setup: Setup, h: History, date: int, n: nat) {
    exists i :: i < n && Counts(setup, h, i) && h.candles[i].day == date
  }

  ghost predicate TradingDate(setup: Setup, hs: seq<History>, date: int) {
    exists h :: h in hs && TradesOnDate(setup, h, date)
  }

  /** A date is traded if and only if some instrument has a candle of it, not its first, after as many days
      as either window needs. */
  lemma TradingDateIff(setup: Setup, hs: seq<History>, date: int)
    ensures TradingDate(setup, hs, date) <==>
            exists h :: h in hs
              && exists i :: && 0 < i < |h.candles| && h.candles[i].day == date
                             && i >= setup.criteria.shortWindow && i >= setup.criteria.longWindow
  {
  }

  type ByDate = map<int, seq<Candidate>>

  function At(byDate: ByDate, date: int): seq<Candidate> {
    if date in byDate then byDate[date] else []
  }

  method CollectOne(setup: Setup, h: History, byDate: ByDate, dates: seq<int>)
      returns (ok: bool, byDate': ByDate, dates': seq<int>)
    ensures ok <==> Sane(setup, h)
    ensures ok ==> forall date :: At(byDate', date) == At(byDate, date) + Nights(setup, h, date, |h.candles|)
    ensures ok ==> forall date :: date in dates' <==> date in dates || TradesOnDate(setup, h, date)
  {
    hide Evaluate, Nights, Kept, At, TradesWithin;
    byDate', dates' := byDate, dates;
    NoNightsYet(setup, h);
    if h.candles == [] {
      return true, byDate, dates;
    }
    for i := 1 to |h.candles|
      invariant forall k :: 1 <= k < i ==> !Evaluate(setup, h.instrument, h.candles, k).InvalidPrice?
      invariant forall date :: At(byDate', date) == At(byDate, date) + Nights(setup, h, date, i)
      invariant forall date :: date in dates' <==> date in dates || TradesWithin(setup, h, date, i)
    {
      if setup.criteria.shortWindow <= i && setup.criteria.longWindow <= i {
        dates' := dates' + [h.candles[i].day];
      }
      OneMoreDate(setup, h, i);
      var outcome := EvaluateCandidate(setup, h.instrument, h.candles, i);
      if outcome.InvalidPrice? {
        return false, byDate', dates';
      }
      OneMoreNight(setup, h, byDate', outcome, i);
      if outcome.Yes? {
        var date := outcome.candidate.exitDay;
        byDate' := byDate'[date := At(byDate', date) + [outcome.candidate]];
      }
    }
    ok := true;
  }

  method Collect(setup: Setup, hs: seq<History>) returns (ok: bool, byDate: ByDate, dates: seq<int>)
    ensures ok <==> forall k :: 0 <= k < |hs| ==> Sane(setup, hs[k])
    ensures ok ==> forall date :: At(byDate, date) == OnDate(setup, hs, date)
    ensures ok ==> forall date :: date in dates <==> TradingDate(setup, hs, date)
  {
    hide Sane, Nights, TradesOnDate, At;
    byDate, dates := map[], [];
    NothingYet();
    for k := 0 to |hs|
      invariant forall j :: 0 <= j < k ==> Sane(setup, hs[j])
      invariant forall date :: At(byDate, date) == OnDate(setup, hs[..k], date)
      invariant forall date :: date in dates <==> TradingDate(setup, hs[..k], date)
    {
      ok, byDate, dates := CollectOne(setup, hs[k], byDate, dates);
      if !ok {
        return;
      }
      assert hs[..k + 1][..k] == hs[..k];
    }
    assert hs[..|hs|] == hs;
    ok := true;
  }

  lemma NoNightsYet(setup: Setup, h: History)
    ensures forall n: nat, date :: n <= 1 && n <= |h.candles| ==>
      Nights(setup, h, date, n) == [] && !TradesWithin(setup, h, date, n)
  {
  }

  lemma OneMoreDate(setup: Setup, h: History, i: nat)
    requires 1 <= i < |h.candles|
    ensures forall date :: TradesWithin(setup, h, date, i + 1) <==>
      TradesWithin(setup, h, date, i) || (Counts(setup, h, i) && h.candles[i].day == date)
  {
    if Counts(setup, h, i) {
      assert TradesWithin(setup, h, h.candles[i].day, i + 1);
    }
  }

  function Added(byDate: ByDate, outcome: Outcome): ByDate {
    if outcome.Yes? then
      var date := outcome.candidate.exitDay;
      byDate[date := At(byDate, date) + [outcome.candidate]]
    else byDate
  }

  lemma OneMoreNight(setup: Setup, h: History, byDate: ByDate, outcome: Outcome, i: nat)
    requires 1 <= i < |h.candles| && outcome == Evaluate(setup, h.instrument, h.candles, i)
    ensures forall date :: Nights(setup, h, date, i + 1) == Nights(setup, h, date, i) + Kept(outcome, date)
    ensures forall date :: At(Added(byDate, outcome), date) == At(byDate, date) + Kept(outcome, date)
  {
    hide Evaluate;
  }

  lemma NothingYet()
    ensures forall date :: At(map[], date) == []
  {
  }

  // ---------------------------------------------------------------- ranking

  /** The higher edge first, ties by identifier. */
  predicate Better(a: Candidate, b: Candidate) {
    a.netEdge > b.netEdge || (a.netEdge == b.netEdge && a.uid < b.uid)
  }

  ghost predicate InOrder(ranked: seq<Candidate>) {
    forall i, j :: 0 <= i < j < |ranked| ==> Better(ranked[i], ranked[j])
  }

  ghost predicate DistinctUids(candidates: seq<Candidate>) {
    forall i, j :: 0 <= i < j < |candidates| ==> candidates[i].uid != candidates[j].uid
  }

  function Inserted(c: Candidate, ranked: seq<Candidate>): seq<Candidate> {
    if ranked != [] && Better(c, ranked[|ranked| - 1]) then Inserted(c, ranked[..|ranked| - 1]) + [ranked[|ranked| - 1]]
    else ranked + [c]
  }

  function Ranking(candidates: seq<Candidate>): seq<Candidate> {
    if candidates == [] then [] else Inserted(candidates[|candidates| - 1], Ranking(candidates[..|candidates| - 1]))
  }

  lemma {:induction false} InsertedKeeps(c: Candidate, ranked: seq<Candidate>)
    ensures multiset(Inserted(c, ranked)) == multiset(ranked) + multiset{c}
  {
    if ranked != [] && Better(c, ranked[|ranked| - 1]) {
      InsertedKeeps(c, ranked[..|ranked| - 1]);
      assert ranked == ranked[..|ranked| - 1] + [ranked[|ranked| - 1]];
    }
  }

  lemma {:induction false} RankingKeeps(candidates: seq<Candidate>)
    ensures multiset(Ranking(candidates)) == multiset(candidates)
  {
    if candidates != [] {
      var front, last := candidates[..|candidates| - 1], candidates[|candidates| - 1];
      assert candidates == front + [last];
      RankingKeeps(front);
      InsertedKeeps(last, Ranking(front));
    }
  }

  lemma {:induction false} InsertedInOrder(c: Candidate, ranked: seq<Candidate>)
    requires InOrder(ranked) && forall x :: x in ranked ==> x.uid != c.uid
    ensures InOrder(Inserted(c, ranked))
  {
    if ranked != [] && Better(c, ranked[|ranked| - 1]) {
      var front, last := ranked[..|ranked| - 1], ranked[|ranked| - 1];
      assert ranked == front + [last];
      InsertedInOrder(c, front);
      InsertedKeeps(c, front);
      forall x | x in Inserted(c, front) ensures Better(x, last) {
        assert x in multiset(Inserted(c, front));
      }
    } else if ranked != [] {
      assert ranked[|ranked| - 1] in ranked;
    }
  }

  lemma {:induction false} RankingInOrder(candidates: seq<Candidate>)
    requires DistinctUids(candidates)
    ensures InOrder(Ranking(candidates))
    ensures forall i, j :: 0 <= i < j < |Ranking(candidates)| ==>
      var a, b := Ranking(candidates)[i], Ranking(candidates)[j];
      a.netEdge > b.netEdge || (a.netEdge == b.netEdge && a.uid < b.uid)
  {
    if candidates != [] {
      var front, last := candidates[..|candidates| - 1], candidates[|candidates| - 1];
      assert candidates == front + [last];
      RankingInOrder(front);
      RankingKeeps(front);
      forall x | x in Ranking(front) ensures x.uid != last.uid {
        assert x in multiset(front);
      }
      InsertedInOrder(last, Ranking(front));
    }
  }

  lemma SameLast(a: seq<Candidate>, b: seq<Candidate>)
    requires InOrder(a) && InOrder(b) && multiset(a) == multiset(b) && a != [] && b != []
    ensures a[|a| - 1] == b[|b| - 1]
  {
    var x, y := a[|a| - 1], b[|b| - 1];
    assert x in multiset(b) && y in multiset(a);
    var i :| 0 <= i < |b| && b[i] == x;
    var j :| 0 <= j < |a| && a[j] == y;
    assert i < |b| - 1 ==> Better(x, y);
    assert j < |a| - 1 ==> Better(y, x);
  }

  /** There is only one way to put the same candidates in order. */
  lemma {:induction false} OneOrder(a: seq<Candidate>, b: seq<Candidate>)
    requires InOrder(a) && InOrder(b) && multiset(a) == multiset(b)
    ensures a == b
  {
    hide Better, InOrder;
    assert |multiset(a)| == |a| && |multiset(b)| == |b|;
    if a != [] {
      SameLast(a, b);
      WithoutLast(a);
      WithoutLast(b);
      OneOrder(a[..|a| - 1], b[..|b| - 1]);
      assert a == a[..|a| - 1] + [a[|a| - 1]] && b == b[..|b| - 1] + [a[|a| - 1]];
    }
  }

  lemma WithoutLast(a: seq<Candidate>)
    requires a != []
    ensures multiset(a[..|a| - 1]) == multiset(a) - multiset{a[|a| - 1]}
    ensures InOrder(a) ==> InOrder(a[..|a| - 1])
  {
    assert a == a[..|a| - 1] + [a[|a| - 1]];
  }

  /** Any arrangement of the candidates in order is their ranking, whatever sorts them and in whatever
      order they were collected. */
  lemma RankingIsTheOrder(candidates: seq<Candidate>, arranged: seq<Candidate>)
    requires DistinctUids(candidates) && multiset(arranged) == multiset(candidates) && InOrder(arranged)
    ensures arranged == Ranking(candidates)
  {
    RankingInOrder(candidates);
    RankingKeeps(candidates);
    OneOrder(arranged, Ranking(candidates));
  }

  // ---------------------------------------------------------------- the run

  ghost predicate Ascending(dates: seq<int>) {
    forall i, j :: 0 <= i < j < |dates| ==> dates[i] < dates[j]
  }

  method SortDates(dates: seq<int>) returns (sorted: seq<int>)
    ensures Ascending(sorted) && forall d :: d in sorted <==> d in dates
  {
    sorted := [];
    for k := 0 to |dates|
      invariant Ascending(sorted) && forall d :: d in sorted <==> d in dates[..k]
    {
      if dates[k] !in sorted {
        sorted := InsertDate(sorted, dates[k]);
      }
    }
  }

  method InsertDate(sorted: seq<int>, d: int) returns (longer: seq<int>)
    requires Ascending(sorted) && d !in sorted
    ensures Ascending(longer) && forall x :: x in longer <==> x in sorted || x == d
  {
    var k := 0;
    while k < |sorted| && sorted[k] < d
      invariant k <= |sorted| && forall j :: 0 <= j < k ==> sorted[j] < d
    {
      k := k + 1;
    }
    assert forall j :: k <= j < |sorted| ==> d < sorted[j];
    assert sorted == sorted[..k] + sorted[k..];
    longer := sorted[..k] + [d] + sorted[k..];
  }

  /** The order the trades are listed in: by exit date, then by identifier. */
  predicate Earlier(a: Trade, b: Trade) {
    || a.candidate.exitDay < b.candidate.exitDay
    || (a.candidate.exitDay == b.candidate.exitDay && a.candidate.uid < b.candidate.uid)
  }

  ghost predicate Listed(trades: seq<Trade>) {
    forall i, j :: 0 <= i < j < |trades| ==> !Earlier(trades[j], trades[i])
  }

  method InsertTrade(listed: seq<Trade>, trade: Trade) returns (longer: seq<Trade>)
    requires Listed(listed)
    ensures Listed(longer) && multiset(longer) == multiset(listed) + multiset{trade}
  {
    var k := |listed|;
    while k > 0 && Earlier(trade, listed[k - 1])
      invariant 0 <= k <= |listed|
      invariant forall j :: k <= j < |listed| ==> Earlier(trade, listed[j])
    {
      k := k - 1;
    }
    longer := listed[..k] + [trade] + listed[k..];
    assert listed == listed[..k] + listed[k..];
    TradeFits(listed, trade, k);
  }

  lemma TradeFits(listed: seq<Trade>, trade: Trade, k: nat)
    requires Listed(listed) && k <= |listed| && (k > 0 ==> !Earlier(trade, listed[k - 1]))
    requires forall j :: k <= j < |listed| ==> Earlier(trade, listed[j])
    ensures Listed(listed[..k] + [trade] + listed[k..])
  {
    var longer := listed[..k] + [trade] + listed[k..];
    forall i, j | 0 <= i < j < |longer| ensures !Earlier(longer[j], longer[i]) {
      assert i < k ==> longer[i] == listed[i];
      assert j > k ==> longer[j] == listed[j - 1];
      assert i > k ==> longer[i] == listed[i - 1];
    }
  }

  method ListTrades(trades: seq<Trade>) returns (listed: seq<Trade>)
    ensures Listed(listed) && multiset(listed) == multiset(trades)
    ensures forall i, j :: 0 <= i < j < |listed| ==>
      var a, b := listed[i].candidate, listed[j].candidate;
      a.exitDay < b.exitDay || (a.exitDay == b.exitDay && a.uid <= b.uid)
  {
    hide Listed;
    listed := [];
    assert Listed(listed) by { NoTrades(); }
    for k := 0 to |trades|
      invariant Listed(listed) && multiset(listed) == multiset(trades[..k])
    {
      assert trades[..k + 1] == trades[..k] + [trades[k]];
      listed := InsertTrade(listed, trades[k]);
    }
    assert trades[..|trades|] == trades;
    ListedByDay(listed);
  }

  lemma ListedByDay(listed: seq<Trade>)
    requires Listed(listed)
    ensures forall i, j :: 0 <= i < j < |listed| ==>
      var a, b := listed[i].candidate, listed[j].candidate;
      a.exitDay < b.exitDay || (a.exitDay == b.exitDay && a.uid <= b.uid)
  {
  }

  lemma NoTrades()
    ensures Listed([])
  {
  }

  /** What the ledger is given for each date. */
  function DaysOf(setup: Setup, hs: seq<History>, dates: seq<int>): seq<seq<Candidate>> {
    seq(|dates|, i requires 0 <= i < |dates| => Ranking(OnDate(setup, hs, dates[i])))
  }

  /** The backtest stops at the first unusable price; otherwise its points are the ledger's equity after
      each trading date and its trades are the ledger's, listed by exit date and identifier. */
  method RunWithMinuteCandles(setup: Setup, hs: seq<History>, minutes: Minutes, initial: real)
      returns (ok: bool, dates: seq<int>, points: seq<real>, trades: seq<Trade>)
    ensures ok <==> forall k :: 0 <= k < |hs| ==> Sane(setup, hs[k])
    ensures ok ==> Ascending(dates) && forall d :: d in dates <==> TradingDate(setup, hs, d)
    ensures ok ==> |points| == |dates| + 1
    ensures ok ==> forall d :: 0 <= d <= |dates| ==>
      points[d] == EquityAfter(setup.ledger, DaysOf(setup, hs, dates), minutes, initial, d)
    ensures ok ==> Listed(trades)
    ensures ok ==>
      multiset(trades) == multiset(TradesBefore(setup.ledger, DaysOf(setup, hs, dates), minutes, initial, |dates|))
  {
    hide Sane, TradingDate, OnDate, Ranking, EquityAfter, TradesBefore, Ascending, Listed;
    var collected, byDate, seen := Collect(setup, hs);
    ok, dates, points, trades := collected, [], [], [];
    if !collected {
      return;
    }
    dates := SortDates(seen);
    var days := seq(|dates|, i requires 0 <= i < |dates| => Ranking(At(byDate, dates[i])));
    assert days == DaysOf(setup, hs, dates);
    var _, made, curve := Run(setup.ledger, days, minutes, initial);
    trades := ListTrades(made);
    points := curve;
  }

  // ---------------------------------------------------------------- the order of the instruments

  ghost predicate DailyCandles(candles: seq<Candle>) {
    forall i, j :: 0 <= i < j < |candles| ==> candles[i].day < candles[j].day
  }

  ghost predicate OnePerInstrument(hs: seq<History>) {
    && (forall i, j :: 0 <= i < j < |hs| ==> hs[i].instrument.uid != hs[j].instrument.uid)
    && forall i :: 0 <= i < |hs| ==> DailyCandles(hs[i].candles)
  }

  lemma YesIs(setup: Setup, instrument: Instrument, candles: seq<Candle>, exit: nat)
    requires 1 <= exit < |candles| && Evaluate(setup, instrument, candles, exit).Yes?
    ensures var c := Evaluate(setup, instrument, candles, exit).candidate;
            c.uid == instrument.uid && c.exitDay == candles[exit].day && c.entryDay == candles[exit - 1].day
  {
    hide Screen, BuyPrice, SellPrice;
  }

  /** Days after a date bring no night that is left on it. */
  lemma {:induction false} NoNightsLater(setup: Setup, h: History, date: int, m: nat, n: nat)
    requires m <= n <= |h.candles| && forall i :: m <= i < n ==> h.candles[i].day != date
    ensures Nights(setup, h, date, n) == Nights(setup, h, date, m)
  {
    hide Evaluate;
    if m < n && 1 < n {
      NoNightsLater(setup, h, date, m, n - 1);
      if Evaluate(setup, h.instrument, h.candles, n - 1).Yes? {
        YesIs(setup, h.instrument, h.candles, n - 1);
      }
    }
  }

  lemma {:induction false} OneNight(setup: Setup, h: History, date: int, n: nat)
    requires n <= |h.candles| && DailyCandles(h.candles)
    ensures |Nights(setup, h, date, n)| <= 1
    ensures forall c :: c in Nights(setup, h, date, n) ==> c.uid == h.instrument.uid
  {
    hide Evaluate;
    if n > 1 {
      OneNight(setup, h, date, n - 1);
      if Evaluate(setup, h.instrument, h.candles, n - 1).Yes? {
        YesIs(setup, h.instrument, h.candles, n - 1);
        if h.candles[n - 1].day == date {
          NoNightsLater(setup, h, date, 0, n - 1);
        }
      }
    }
  }

  lemma {:induction false} OnePerUid(setup: Setup, hs: seq<History>, date: int)
    requires OnePerInstrument(hs)
    ensures DistinctUids(OnDate(setup, hs, date))
    ensures forall c :: c in OnDate(setup, hs, date) ==> exists h :: h in hs && h.instrument.uid == c.uid
  {
    hide Nights;
    if hs != [] {
      var front, last := hs[..|hs| - 1], hs[|hs| - 1];
      OnePerUid(setup, front, date);
      OneNight(setup, last, date, |last.candles|);
      forall c | c in OnDate(setup, front, date) ensures c.uid != last.instrument.uid {
        var h :| h in front && h.instrument.uid == c.uid;
      }
    }
  }

  lemma {:induction false} OnDateOfBoth(setup: Setup, a: seq<History>, b: seq<History>, date: int)
    ensures OnDate(setup, a + b, date) == OnDate(setup, a, date) + OnDate(setup, b, date)
  {
    hide Nights;
    if b == [] {
      assert a + b == a;
    } else {
      assert (a + b)[..|a + b| - 1] == a + b[..|b| - 1];
      OnDateOfBoth(setup, a, b[..|b| - 1], date);
    }
  }

  lemma {:induction false} SameNights(setup: Setup, a: seq<History>, b: seq<History>, date: int)
    requires multiset(a) == multiset(b)
    ensures multiset(OnDate(setup, a, date)) == multiset(OnDate(setup, b, date))
  {
    hide Nights;
    assert |multiset(a)| == |a| && |multiset(b)| == |b|;
    if a != [] {
      var last := a[|a| - 1];
      assert last in multiset(b);
      var i :| 0 <= i < |b| && b[i] == last;
      assert a[..|a| - 1] + a[|a|..] == a[..|a| - 1];
      Without(setup, a, |a| - 1, date);
      Without(setup, b, i, date);
      SameNights(setup, a[..|a| - 1], b[..i] + b[i + 1..], date);
    }
  }

  lemma Without(setup: Setup, b: seq<History>, i: nat, date: int)
    requires i < |b|
    ensures multiset(b[..i] + b[i + 1..]) == multiset(b) - multiset{b[i]}
    ensures multiset(OnDate(setup, b, date))
            == multiset(OnDate(setup, b[..i] + b[i + 1..], date)) + multiset(Nights(setup, b[i], date, |b[i].candles|))
  {
    hide Nights, OnDate;
    var front, back := b[..i], b[i + 1..];
    assert b == front + ([b[i]] + back);
    OnDateOfBoth(setup, front, back, date);
    OnDateOfBoth(setup, front, [b[i]] + back, date);
    OnDateOfBoth(setup, [b[i]], back, date);
    OnDateOfOne(setup, b[i], date);
  }

  lemma OnDateOfOne(setup: Setup, h: History, date: int)
    ensures OnDate(setup, [h], date) == Nights(setup, h, date, |h.candles|)
  {
    hide Nights;
    assert [h][..0] == [];
  }

  /** The order in which the map of instruments is visited does not matter. */
  lemma OrderDoesNotMatter(setup: Setup, a: seq<History>, b: seq<History>, dates: seq<int>, date: int)
    requires multiset(a) == multiset(b) && OnePerInstrument(a) && OnePerInstrument(b)
    ensures DaysOf(setup, a, dates) == DaysOf(setup, b, dates)
    ensures TradingDate(setup, a, date) <==> TradingDate(setup, b, date)
  {
    hide OnDate, Ranking, TradesOnDate, InOrder;
    forall i | 0 <= i < |dates| ensures Ranking(OnDate(setup, a, dates[i])) == Ranking(OnDate(setup, b, dates[i])) {
      SameNights(setup, a, b, dates[i]);
      OnePerUid(setup, a, dates[i]);
      OnePerUid(setup, b, dates[i]);
      RankingInOrder(OnDate(setup, b, dates[i]));
      RankingKeeps(OnDate(setup, b, dates[i]));
      RankingIsTheOrder(OnDate(setup, a, dates[i]), Ranking(OnDate(setup, b, dates[i])));
    }
    assert forall h :: h in a <==> h in multiset(a);
    assert forall h :: h in b <==> h in multiset(b);
  }
}
