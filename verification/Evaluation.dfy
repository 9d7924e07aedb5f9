/** Which nights a backtest trades. Every night is judged on the days before its entry, the accepted
    ones of a date are ranked, and the ledger trades them date by date. */
module Evaluation {
  import opened Arithmetic
  import opened RawState
  import opened Domain
  import opened Backtest
  import Money

  datatype Moments = Moments(mean: real, stdDev: real, tStat: real, winRate: real)

  /** Floating-point statistics of overnight returns; only what they are computed from matters here. */
  datatype Statistics = Statistics(moments: seq<real> -> Moments, quantile: seq<real> -> real)

  datatype Criteria = Criteria(
    shortWindow: int, longWindow: int, minTStat: real, minWinRate: real, minNetEdge: real, minAdv: real,
    entrySlippage: real, exitSlippage: real, riskBuffer: real, tickBps: real, maxTickBps: real, zeroCommission: bool)

  datatype Setup = Setup(ledger: Config, criteria: Criteria, statistics: Statistics)

  datatype Instrument = Instrument(uid: int, lot: int, tick: real, spread: real, maxSpread: real)

  datatype History = History(instrument: Instrument, candles: seq<Candle>)

  // ---------------------------------------------------------------- one night

  datatype Screening = Unusable | Declined | Passed(netEdge: real, q05Abs: real)

  datatype Outcome = InvalidPrice | No | Yes(candidate: Candidate)

  const ADV_WINDOW := 20

  function OvernightReturn(open: real, previousClose: real): Option<real> {
    if open <= 0.0 || previousClose <= 0.0 then None else Some(open / previousClose - 1.0)
  }

  /** The overnight returns within the first n days, none if one of the prices is not positive. */
  function Returns(history: seq<Candle>, n: nat): Option<seq<real>>
    requires n <= |history|
  {
    if n < 2 then Some([])
    else
      match Returns(history, n - 1)
      case None => None
      case Some(before) =>
        match OvernightReturn(history[n - 1].open, history[n - 2].close)
        case None => None
        case Some(last) => Some(before + [last])
  }

  function Rolling(statistics: Statistics, values: seq<real>, window: int): Option<Moments> {
    if window <= 0 || |values| < window then None else Some(statistics.moments(values[|values| - window..]))
  }

  function Turnover(days: seq<Candle>, lot: int): real {
    if days == [] then 0.0
    else Turnover(days[..|days| - 1], lot) + days[|days| - 1].volume * lot as real * days[|days| - 1].close
  }

  function AverageTurnover(history: seq<Candle>, lot: int): real {
    var recent := if |history| > ADV_WINDOW then history[|history| - ADV_WINDOW..] else history;
    if lot <= 0 || history == [] then 0.0 else Turnover(recent, lot) / |recent| as real
  }

  function NetEdge(setup: Setup, instrument: Instrument, mean: real): real {
    var c := setup.criteria;
    mean * 10000.0 - (instrument.spread + c.entrySlippage + c.exitSlippage + setup.ledger.commissionBps + c.riskBuffer)
  }

  /** The verdict on an entry after the given days. */
  function Screen(setup: Setup, instrument: Instrument, history: seq<Candle>): Screening {
    match Returns(history, |history|)
    case None => Unusable
    case Some(overnight) => Judge(setup, instrument, history, overnight)
  }

  function Judge(setup: Setup, instrument: Instrument, history: seq<Candle>, overnight: seq<real>): (verdict: Screening)
    ensures !verdict.Unusable?
  {
    var c := setup.criteria;
    var short := Rolling(setup.statistics, overnight, c.shortWindow);
    var long := Rolling(setup.statistics, overnight, c.longWindow);
    if short.None? || long.None? || short.value.stdDev == 0.0 then Declined
    else if
      || (c.zeroCommission && setup.ledger.commissionBps > 0.0)
      || short.value.mean <= 0.0 || long.value.mean <= 0.0
      || short.value.tStat < c.minTStat || short.value.winRate < c.minWinRate
      || NetEdge(setup, instrument, short.value.mean) < c.minNetEdge
      || instrument.spread > instrument.maxSpread || c.tickBps > c.maxTickBps
      || AverageTurnover(history, instrument.lot) < c.minAdv
    then Declined
    else
      var tail := setup.statistics.quantile(overnight);
      Passed(NetEdge(setup, instrument, short.value.mean), if tail < 0.0 then -tail else tail)
  }

  /** The costs that the edge is left of. */
  function Costs(setup: Setup, instrument: Instrument): seq<real> {
    [instrument.spread, setup.criteria.entrySlippage, setup.criteria.exitSlippage, setup.ledger.commissionBps,
     setup.criteria.riskBuffer]
  }

  /** No cost can rise without taking as much off the edge. */
  lemma CostsLowerTheEdge(setup: Setup, instrument: Instrument, setup': Setup, instrument': Instrument, mean: real)
    requires forall k :: 0 <= k < 5 ==> Costs(setup, instrument)[k] <= Costs(setup', instrument')[k]
    ensures NetEdge(setup', instrument', mean) <= NetEdge(setup, instrument, mean)
    ensures forall k :: 0 <= k < 5 ==>
      NetEdge(setup', instrument', mean)
      <= NetEdge(setup, instrument, mean) - (Costs(setup', instrument')[k] - Costs(setup, instrument)[k])
  {
    var a, b := Costs(setup, instrument), Costs(setup', instrument');
    assert a[0] <= b[0] && a[1] <= b[1] && a[2] <= b[2] && a[3] <= b[3] && a[4] <= b[4];
  }

  /** A night passes if and only if both windows can be computed, vary and rise on average, the mean of the
      short one pays for all costs with the required margin, and no gate is missed. */
  lemma PassedIff(setup: Setup, instrument: Instrument, history: seq<Candle>, overnight: seq<real>)
    ensures
      var c, n := setup.criteria, |overnight|;
      var judged := Judge(setup, instrument, history, overnight);
      judged.Passed? <==>
        && 0 < c.shortWindow <= n && 0 < c.longWindow <= n
        && (c.zeroCommission ==> setup.ledger.commissionBps <= 0.0)
        && instrument.spread <= instrument.maxSpread && c.tickBps <= c.maxTickBps
        && c.minAdv <= AverageTurnover(history, instrument.lot)
        && var short := setup.statistics.moments(overnight[n - c.shortWindow..]);
           var long := setup.statistics.moments(overnight[n - c.longWindow..]);
           && short.stdDev != 0.0 && 0.0 < short.mean && 0.0 < long.mean
           && c.minTStat <= short.tStat && c.minWinRate <= short.winRate
           && instrument.spread + c.entrySlippage + c.exitSlippage + setup.ledger.commissionBps + c.riskBuffer
              + c.minNetEdge <= short.mean * 10000.0
    ensures
      var judged := Judge(setup, instrument, history, overnight);
      judged.Passed? && 0 < setup.criteria.shortWindow <= |overnight| ==>
        var short := setup.statistics.moments(overnight[|overnight| - setup.criteria.shortWindow..]);
        && judged.netEdge == NetEdge(setup, instrument, short.mean) && 0.0 <= judged.q05Abs
        && setup.statistics.quantile(overnight) in {judged.q05Abs, -judged.q05Abs}
  {
  }

  function Rounded(price: real, tick: real, mode: Money.RoundMode): real {
    match Money.RoundToTick(price, tick, mode)
    case None => price
    case Some(rounded) => rounded
  }

  function Slipped(price: real, bps: real): real {
    price * (1.0 + bps / 10000.0)
  }

  function BuyPrice(setup: Setup, instrument: Instrument, close: real): real {
    Rounded(Slipped(close, setup.criteria.entrySlippage), instrument.tick, Money.Ceil)
  }

  function SellPrice(setup: Setup, instrument: Instrument, open: real): real {
    Rounded(Slipped(open, -setup.criteria.exitSlippage), instrument.tick, Money.Floor)
  }

  /** A night has prices to trade at. */
  predicate Priced(candles: seq<Candle>, exit: nat)
    requires 1 <= exit < |candles|
  {
    candles[exit - 1].close > 0.0 && candles[exit].open > 0.0
  }

  /** There are enough days before the exit to look at the night at all. */
  predicate LongEnough(setup: Setup, exit: nat) {
    setup.criteria.shortWindow <= exit && 2 <= exit
  }

  /** The night that is entered on the day before `exit` and left on the day `exit`. */
  function Evaluate(setup: Setup, instrument: Instrument, candles: seq<Candle>, exit: nat): Outcome
    requires 1 <= exit < |candles|
  {
    if !LongEnough(setup, exit) then No
    else
      match Screen(setup, instrument, candles[..exit - 1])
      case Unusable => InvalidPrice
      case Declined => No
      case Passed(netEdge, q05Abs) =>
        if !Priced(candles, exit) then InvalidPrice
        else Yes(Candidate(
          instrument.uid, candles[exit - 1].day, candles[exit].day,
          BuyPrice(setup, instrument, candles[exit - 1].close), SellPrice(setup, instrument, candles[exit].open),
          netEdge, instrument.lot, q05Abs))
  }

  method EvaluateCandidate(setup: Setup, instrument: Instrument, candles: seq<Candle>, exit: nat)
      returns (outcome: Outcome)
    requires 1 <= exit < |candles|
    ensures outcome == Evaluate(setup, instrument, candles, exit)
  {
    hide Judge, BuyPrice, SellPrice;
    if exit < setup.criteria.shortWindow || exit - 1 <= 0 {
      return No;
    }
    var history := candles[..exit - 1];
    var overnight: seq<real> := [];
    for j := 1 to |history|
      invariant Returns(history, j) == Some(overnight)
    {
      var r := OvernightReturn(history[j].open, history[j - 1].close);
      if r.None? {
        StaysNone(history, j + 1, |history|);
        return InvalidPrice;
      }
      overnight := overnight + [r.value];
    }
    var screening := Judge(setup, instrument, history, overnight);
    if screening.Declined? {
      return No;
    }
    var entry, last := candles[exit - 1], candles[exit];
    if OvernightReturn(last.open, entry.close).None? {
      return InvalidPrice;
    }
    outcome := Yes(Candidate(
      instrument.uid, entry.day, last.day,
      BuyPrice(setup, instrument, entry.close), SellPrice(setup, instrument, last.open),
      screening.netEdge, instrument.lot, screening.q05Abs));
  }

  lemma {:induction false} StaysNone(history: seq<Candle>, m: nat, n: nat)
    requires m <= n <= |history| && Returns(history, m).None?
    ensures Returns(history, n).None?
  {
    if m < n {
      StaysNone(history, m, n - 1);
    }
  }

  predicate Usable(history: seq<Candle>, j: nat)
    requires 1 <= j < |history|
  {
    history[j].open > 0.0 && history[j - 1].close > 0.0
  }

  /** An overnight return takes the close to the next open. */
  lemma ReturnTakesCloseToOpen(open: real, previousClose: real)
    ensures OvernightReturn(open, previousClose).Some? <==> open > 0.0 && previousClose > 0.0
    ensures OvernightReturn(open, previousClose).Some? ==>
      previousClose * (1.0 + OvernightReturn(open, previousClose).value) == open
  {
  }

  /** The average turnover is that of the last twenty days, or of all if there are fewer. */
  lemma AverageTimesDays(history: seq<Candle>, lot: int)
    ensures lot <= 0 || history == [] ==> AverageTurnover(history, lot) == 0.0
    ensures lot > 0 && 0 < |history| <= 20 ==>
      AverageTurnover(history, lot) * |history| as real == Turnover(history, lot)
    ensures lot > 0 && 20 < |history| ==>
      AverageTurnover(history, lot) * 20.0 == Turnover(history[|history| - 20..], lot)
  {
  }

  /** Turnover adds up over days, each day's being its units times its close. */
  lemma {:induction false} TurnoverAdds(a: seq<Candle>, b: seq<Candle>, lot: int)
    ensures Turnover(a + b, lot) == Turnover(a, lot) + Turnover(b, lot)
    ensures |a| == 1 ==> Turnover(a, lot) == a[0].close * (a[0].volume * lot as real)
    ensures a == [] ==> Turnover(a, lot) == 0.0
  {
    if b == [] {
      assert a + b == a;
    } else {
      TurnoverAdds(a, b[..|b| - 1], lot);
      assert (a + b)[..|a + b| - 1] == a + b[..|b| - 1];
    }
    if |a| == 1 {
      assert a[..0] == [];
    }
  }

  lemma SlippedBy(price: real, bps: real)
    ensures (Slipped(price, bps) - price) * 10000.0 == price * bps
  {
  }

  /** A night is traded if and only if there is enough history, the days before the entry pass the screening,
      and both its prices are positive; the candidate is then of those two days, priced with slippage. */
  lemma YesIff(setup: Setup, instrument: Instrument, candles: seq<Candle>, exit: nat)
    requires 1 <= exit < |candles|
    ensures
      var entry, last := candles[exit - 1], candles[exit];
      var outcome := Evaluate(setup, instrument, candles, exit);
      && (outcome.Yes? <==>
            && 2 <= exit && setup.criteria.shortWindow <= exit && Screen(setup, instrument, candles[..exit - 1]).Passed?
            && 0.0 < entry.close && 0.0 < last.open)
      && (outcome.Yes? ==>
            var c := outcome.candidate;
            && c.uid == instrument.uid && c.lot == instrument.lot && c.entryDay == entry.day && c.exitDay == last.day
            && c.buy == BuyPrice(setup, instrument, entry.close) && c.sell == SellPrice(setup, instrument, last.open)
            && Screen(setup, instrument, candles[..exit - 1]) == Passed(c.netEdge, c.q05Abs))
  {
    hide Screen, BuyPrice, SellPrice;
  }

  /** Returns are unusable if and only if one of the prices they are computed from is not positive. */
  lemma {:induction false} UsableIff(history: seq<Candle>, n: nat)
    requires n <= |history|
    ensures Returns(history, n).Some? <==> forall j :: 1 <= j < n ==> Usable(history, j)
    ensures Returns(history, n).Some? && 1 <= n ==> |Returns(history, n).value| == n - 1
  {
    if n >= 2 {
      UsableIff(history, n - 1);
      assert Usable(history, n - 1) <==> OvernightReturn(history[n - 1].open, history[n - 2].close).Some?;
    }
  }

  /** The backtest pays at least the close plus slippage, and gets at most the open less slippage, each
      within a tick. */
  lemma PricesAreConservative(setup: Setup, instrument: Instrument, close: real, open: real)
    ensures var tick := if instrument.tick > 0.0 then instrument.tick else 0.0;
            var exact := Slipped(close, setup.criteria.entrySlippage);
            exact <= BuyPrice(setup, instrument, close) <= exact + tick
    ensures var tick := if instrument.tick > 0.0 then instrument.tick else 0.0;
            var exact := Slipped(open, -setup.criteria.exitSlippage);
            exact - tick <= SellPrice(setup, instrument, open) <= exact
  {
    hide Rounded, Slipped;
    var buy, sell := Slipped(close, setup.criteria.entrySlippage), Slipped(open, -setup.criteria.exitSlippage);
    if instrument.tick > 0.0 {
      RoundedWithin(buy, instrument.tick);
      RoundedWithin(sell, instrument.tick);
    } else {
      Unrounded(buy, instrument.tick);
      Unrounded(sell, instrument.tick);
    }
  }

  lemma RoundedWithin(price: real, tick: real)
    requires tick > 0.0
    ensures price <= Rounded(price, tick, Money.Ceil) <= price + tick
    ensures price - tick <= Rounded(price, tick, Money.Floor) <= price
  {
    Money.FloorsToTick(price, tick, 0, 0.0);
    Money.CeilsToTick(price, tick, 0, 0.0);
  }

  lemma Unrounded(price: real, tick: real)
    requires tick <= 0.0
    ensures Rounded(price, tick, Money.Ceil) == price == Rounded(price, tick, Money.Floor)
  {
  }

  /** Two histories that agree before the entry day are judged alike: the edge is the same, and so is
      the decision if and only if the night was turned down or has prices in both or in neither. */
  lemma JudgedOnThePast(setup: Setup, instrument: Instrument, a: seq<Candle>, b: seq<Candle>, exit: nat)
    requires 1 <= exit < |a| && exit < |b| && a[..exit - 1] == b[..exit - 1]
    ensures var x, y := Evaluate(setup, instrument, a, exit), Evaluate(setup, instrument, b, exit);
            && (x.Yes? && y.Yes? ==>
                  && x.candidate.netEdge == y.candidate.netEdge
                  && x.candidate.q05Abs == y.candidate.q05Abs)
            && (x.No? <==> y.No?)
            && ((x.Yes? <==> y.Yes?) <==>
                  (|| !LongEnough(setup, exit) || !Screen(setup, instrument, a[..exit - 1]).Passed?
                   || (Priced(a, exit) <==> Priced(b, exit))))
  {
    hide Screen, BuyPrice, SellPrice;
  }
}
