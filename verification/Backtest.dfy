/** The backtest's ledger: day by day, candidates are sized against the equity of the morning and the
    cash that is left, limited by what the minute candles could have filled, and closed the next day. */
module Backtest {
  import opened Arithmetic
  import opened Domain
  import opened Sizing

  /** A candle of a minute or of a day. */
  datatype Candle = Candle(day: int, time: int, open: real, high: real, low: real, close: real, volume: real)

  datatype Window = Window(start: int, end: int) {
    /** A window of zero to zero is no window. */
    predicate Contains(time: int) {
      (start == 0 && end == 0) || start <= time <= end
    }
  }

  /** `uid` stands for the instrument's identifier, of which only the order matters. */
  datatype Candidate = Candidate(
    uid: int, entryDay: int, exitDay: int, buy: real, sell: real, netEdge: real, lot: int, q05Abs: real)

  datatype Config = Config(
    sizing: SizingConfig, minuteModel: bool, commissionBps: real, entryWindow: Window, exitWindow: Window,
    maxPositions: nat)

  datatype Trade = Trade(candidate: Candidate, lots: int, notional: real, pnl: real)

  // ---------------------------------------------------------------- what the minutes allow

  predicate Reachable(m: Candle, day: int, limit: real, side: Side, window: Window) {
    m.day == day && window.Contains(m.time) && if side.Buy? then m.low <= limit else m.high >= limit
  }

  function ReachableVolume(minutes: seq<Candle>, day: int, limit: real, side: Side, window: Window, n: nat): real
    requires n <= |minutes|
  {
    if n == 0 then 0.0
    else ReachableVolume(minutes, day, limit, side, window, n - 1)
         + if Reachable(minutes[n - 1], day, limit, side, window) then minutes[n - 1].volume else 0.0
  }

  function WindowNotional(minutes: seq<Candle>, day: int, window: Window, lot: int, n: nat): real
    requires n <= |minutes|
  {
    if n == 0 then 0.0
    else WindowNotional(minutes, day, window, lot, n - 1)
         + if minutes[n - 1].day == day && window.Contains(minutes[n - 1].time)
           then minutes[n - 1].volume * lot as real * minutes[n - 1].close else 0.0
  }

  /** A minute counts if it is of that day and within the window, both ends included, and there is one. */
  predicate Inside(m: Candle, day: int, window: Window) {
    m.day == day && (window.start <= m.time <= window.end || window == Window(0, 0))
  }

  /** One more minute adds its turnover if it is inside the window, and nothing otherwise. */
  lemma WindowGrows(minutes: seq<Candle>, m: Candle, day: int, window: Window, lot: int)
    ensures WindowNotional([], day, window, lot, 0) == 0.0
    ensures WindowNotional(minutes + [m], day, window, lot, |minutes| + 1)
            == WindowNotional(minutes, day, window, lot, |minutes|)
               + if Inside(m, day, window) then m.close * (m.volume * lot as real) else 0.0
  {
    SameWindow(minutes, minutes + [m], day, window, lot, |minutes|);
  }

  lemma {:induction false} SameWindow(a: seq<Candle>, b: seq<Candle>, day: int, window: Window, lot: int, n: nat)
    requires n <= |a| && n <= |b| && a[..n] == b[..n]
    ensures WindowNotional(a, day, window, lot, n) == WindowNotional(b, day, window, lot, n)
  {
    if n > 0 {
      assert a[n - 1] == a[..n][n - 1] == b[n - 1];
      assert a[..n - 1] == a[..n][..n - 1] && b[..n - 1] == b[..n][..n - 1];
      SameWindow(a, b, day, window, lot, n - 1);
    }
  }

  /** One more minute adds its volume if it is inside the window and its price came to the limit. */
  lemma ReachGrows(minutes: seq<Candle>, m: Candle, day: int, limit: real, side: Side, window: Window)
    ensures ReachableVolume([], day, limit, side, window, 0) == 0.0
    ensures ReachableVolume(minutes + [m], day, limit, side, window, |minutes| + 1)
            == ReachableVolume(minutes, day, limit, side, window, |minutes|)
               + if !Inside(m, day, window) || (side.Buy? && limit < m.low) || (side.Sell? && m.high < limit)
                 then 0.0 else m.volume
  {
    SameReach(minutes, minutes + [m], day, limit, side, window, |minutes|);
  }

  lemma {:induction false} SameReach(a: seq<Candle>, b: seq<Candle>, day: int, limit: real, side: Side, window: Window,
      n: nat)
    requires n <= |a| && n <= |b| && a[..n] == b[..n]
    ensures ReachableVolume(a, day, limit, side, window, n) == ReachableVolume(b, day, limit, side, window, n)
  {
    if n > 0 {
      assert a[n - 1] == a[..n][n - 1] == b[n - 1];
      assert a[..n - 1] == a[..n][..n - 1] && b[..n - 1] == b[..n][..n - 1];
      SameReach(a, b, day, limit, side, window, n - 1);
    }
  }

  /** A buyer who pays more, or a seller who asks for less, is never served less. */
  lemma {:induction false} BetterLimitReachesMore(minutes: seq<Candle>, day: int, limit: real, better: real, side: Side,
      window: Window, n: nat)
    requires n <= |minutes| && forall k :: 0 <= k < n ==> minutes[k].volume >= 0.0
    requires if side.Buy? then limit <= better else better <= limit
    ensures 0.0 <= ReachableVolume(minutes, day, limit, side, window, n)
                <= ReachableVolume(minutes, day, better, side, window, n)
  {
    if n > 0 {
      BetterLimitReachesMore(minutes, day, limit, better, side, window, n - 1);
    }
  }

  method WindowVolume(minutes: seq<Candle>, day: int, window: Window, lot: int) returns (total: real)
    ensures total == WindowNotional(minutes, day, window, lot, |minutes|)
  {
    total := 0.0;
    for k := 0 to |minutes|
      invariant total == WindowNotional(minutes, day, window, lot, k)
    {
      if minutes[k].day != day || !window.Contains(minutes[k].time) {
        continue;
      }
      total := total + minutes[k].volume * lot as real * minutes[k].close;
    }
  }

  /** The participation share of the volume that the limit price reached. */
  function Share(minutes: seq<Candle>, day: int, limit: real, side: Side, window: Window, rate: real): real {
    ReachableVolume(minutes, day, limit, side, window, |minutes|) * rate
  }

  /** The most lots that stay within the participation share. */
  function FillableLots(minutes: seq<Candle>, day: int, limit: real, lot: int, side: Side, window: Window,
      rate: real): int {
    if limit <= 0.0 || lot <= 0 then 0 else Share(minutes, day, limit, side, window, rate).Floor
  }

  method FillableMinuteLots(minutes: seq<Candle>, day: int, limit: real, lot: int, side: Side, window: Window,
      rate: real)
      returns (lots: int, capacity: real)
    ensures lots == FillableLots(minutes, day, limit, lot, side, window, rate)
    ensures limit > 0.0 && lot > 0 ==>
      lots as real <= ReachableVolume(minutes, day, limit, side, window, |minutes|) * rate < (lots + 1) as real
    ensures limit <= 0.0 || lot <= 0 ==> lots == 0
    ensures capacity == if limit <= 0.0 || lot <= 0 then 0.0
                        else Share(minutes, day, limit, side, window, rate) * (limit * lot as real)
  {
    hide Share;
    if limit <= 0.0 || lot <= 0 {
      return 0, 0.0;
    }
    var each := limit * lot as real;
    PositiveTimes(limit, lot);
    capacity := 0.0;
    for k := 0 to |minutes|
      invariant capacity == Capacity(minutes, day, limit, side, window, rate, each, k)
    {
      var m := minutes[k];
      if m.day != day || !window.Contains(m.time) {
        continue;
      }
      if !(if side.Buy? then m.low <= limit else m.high >= limit) {
        continue;
      }
      capacity := capacity + m.volume * each * rate;
    }
    AllCapacity(minutes, day, limit, side, window, rate, each);
    WholeShares(Share(minutes, day, limit, side, window, rate), each, capacity);
    ShareIs(minutes, day, limit, side, window, rate);
    lots := (capacity / each).Floor;
  }

  function Capacity(minutes: seq<Candle>, day: int, limit: real, side: Side, window: Window, rate: real, each: real,
      n: nat): real
    requires n <= |minutes|
  {
    if n == 0 then 0.0
    else Capacity(minutes, day, limit, side, window, rate, each, n - 1)
         + if Reachable(minutes[n - 1], day, limit, side, window) then minutes[n - 1].volume * each * rate else 0.0
  }

  lemma {:induction false} CapacityIsShare(
      minutes: seq<Candle>, day: int, limit: real, side: Side, window: Window, rate: real, each: real, n: nat)
    requires n <= |minutes|
    ensures Capacity(minutes, day, limit, side, window, rate, each, n)
            == ReachableVolume(minutes, day, limit, side, window, n) * rate * each
  {
    if n > 0 {
      CapacityIsShare(minutes, day, limit, side, window, rate, each, n - 1);
      OneMoreMinute(ReachableVolume(minutes, day, limit, side, window, n - 1), minutes[n - 1].volume, rate, each);
    }
  }

  lemma AllCapacity(minutes: seq<Candle>, day: int, limit: real, side: Side, window: Window, rate: real, each: real)
    ensures Capacity(minutes, day, limit, side, window, rate, each, |minutes|)
            == Share(minutes, day, limit, side, window, rate) * each
  {
    CapacityIsShare(minutes, day, limit, side, window, rate, each, |minutes|);
  }

  lemma ShareIs(minutes: seq<Candle>, day: int, limit: real, side: Side, window: Window, rate: real)
    ensures Share(minutes, day, limit, side, window, rate)
            == ReachableVolume(minutes, day, limit, side, window, |minutes|) * rate
  {
  }

  lemma OneMoreMinute(volume: real, more: real, rate: real, each: real)
    ensures (volume + more) * rate * each == volume * rate * each + more * each * rate
  {
  }

  lemma WholeShares(share: real, each: real, capacity: real)
    requires each != 0.0 && capacity == share * each
    ensures (capacity / each).Floor == share.Floor
  {
    assert share * each / each == share;
  }

  // ---------------------------------------------------------------- one candidate

  type Minutes = map<int, seq<Candle>>

  function MinutesOf(minutes: Minutes, uid: int): seq<Candle> {
    if uid in minutes then minutes[uid] else []
  }

  function UnconstrainedVolume(equity: real, rate: real): real {
    if equity <= 0.0 || rate <= 0.0 then 0.0 else equity / rate * 10.0
  }

  function Fewer(a: int, b: int): int { if b < a then b else a }

  function MinuteLots(cfg: Config, c: Candidate, minutes: seq<Candle>, requested: int): nat {
    if minutes == [] then 0
    else
      var rate := cfg.sizing.maxParticipation;
      var lots := Fewer(Fewer(requested, FillableLots(minutes, c.entryDay, c.buy, c.lot, Buy, cfg.entryWindow, rate)),
                        FillableLots(minutes, c.exitDay, c.sell, c.lot, Sell, cfg.exitWindow, rate));
      if lots <= 0 then 0 else lots
  }

  /** The minute model trades so many lots if and only if they were asked for, there are minutes, and both
      days' windows can fill them. */
  lemma MinuteLotsIff(cfg: Config, c: Candidate, minutes: seq<Candle>, requested: int, n: int)
    requires 0 < n
    ensures n <= MinuteLots(cfg, c, minutes, requested) <==>
            && minutes != [] && n <= requested
            && n <= FillableLots(minutes, c.entryDay, c.buy, c.lot, Buy, cfg.entryWindow, cfg.sizing.maxParticipation)
            && n <= FillableLots(minutes, c.exitDay, c.sell, c.lot, Sell, cfg.exitWindow, cfg.sizing.maxParticipation)
  {
    hide FillableLots;
  }

  /** Where no volume is known the participation share is ten times the equity, so that it never binds. */
  lemma UnconstrainedNeverBinds(equity: real, rate: real)
    ensures equity > 0.0 && rate > 0.0 ==> UnconstrainedVolume(equity, rate) * rate == 10.0 * equity
    ensures equity <= 0.0 || rate <= 0.0 ==> UnconstrainedVolume(equity, rate) == 0.0
  {
  }

  lemma MinutesAre(minutes: Minutes, uid: int)
    ensures MinutesOf(minutes, uid) == [] || (uid in minutes && MinutesOf(minutes, uid) == minutes[uid])
    ensures uid in minutes ==> MinutesOf(minutes, uid) == minutes[uid]
  {
  }

  /** The input of the sizer for one of a day's n candidates. */
  function InputFor(c: Candidate, equity: real, cash: real, n: int, entryVolume: real, exitVolume: real): SizingInput {
    SizingInput(equity, cash, n, 0.0, 0.0, c.buy, c.lot, entryVolume, exitVolume, c.q05Abs)
  }

  function SizedFor(cfg: Config, c: Candidate, minutes: seq<Candle>, equity: real, cash: real, n: int): Sized {
    var entry := WindowNotional(minutes, c.entryDay, cfg.entryWindow, c.lot, |minutes|);
    var exit := WindowNotional(minutes, c.exitDay, cfg.exitWindow, c.lot, |minutes|);
    var free := UnconstrainedVolume(equity, cfg.sizing.maxParticipation);
    if entry > 0.0 && exit > 0.0 then Size(cfg.sizing, InputFor(c, equity, cash, n, entry, exit))
    else if cfg.minuteModel then LotsBelowOne
    else Size(cfg.sizing, InputFor(c, equity, cash, n, free, free))
  }

  function LotsTraded(cfg: Config, c: Candidate, minutes: seq<Candle>, equity: real, cash: real, n: int): int {
    var sized := SizedFor(cfg, c, minutes, equity, cash, n);
    if !sized.Lots? then 0
    else if cfg.minuteModel then MinuteLots(cfg, c, minutes, sized.lots)
    else sized.lots
  }

  method MinuteExecution(cfg: Config, c: Candidate, minutes: seq<Candle>, requested: int) returns (lots: int)
    requires requested > 0
    ensures lots == MinuteLots(cfg, c, minutes, requested)
  {
    hide FillableLots;
    if minutes == [] {
      return 0;
    }
    var rate := cfg.sizing.maxParticipation;
    var entryLots, _ := FillableMinuteLots(minutes, c.entryDay, c.buy, c.lot, Buy, cfg.entryWindow, rate);
    var exitLots, _ := FillableMinuteLots(minutes, c.exitDay, c.sell, c.lot, Sell, cfg.exitWindow, rate);
    lots := if entryLots < requested then entryLots else requested;
    lots := if exitLots < lots then exitLots else lots;
    if lots <= 0 {
      lots := 0;
    }
  }

  /** How many lots of one candidate are traded, given the cash that is left. */
  method LotsFor(cfg: Config, c: Candidate, minutes: seq<Candle>, equity: real, cash: real, n: int) returns (lots: int)
    ensures lots == LotsTraded(cfg, c, minutes, equity, cash, n)
  {
    hide Size, MinuteLots;
    var entryVolume := WindowVolume(minutes, c.entryDay, cfg.entryWindow, c.lot);
    var exitVolume := WindowVolume(minutes, c.exitDay, cfg.exitWindow, c.lot);
    if entryVolume <= 0.0 || exitVolume <= 0.0 {
      if cfg.minuteModel {
        return 0;
      }
      entryVolume := UnconstrainedVolume(equity, cfg.sizing.maxParticipation);
      exitVolume := entryVolume;
    }
    var sized := Size(cfg.sizing, InputFor(c, equity, cash, n, entryVolume, exitVolume));
    if !sized.Lots? {
      return 0;
    }
    SizedIsPositive(cfg, c, equity, cash, n, entryVolume, exitVolume);
    lots := sized.lots;
    if cfg.minuteModel {
      lots := MinuteExecution(cfg, c, minutes, sized.lots);
    }
  }

  lemma SizedIsPositive(cfg: Config, c: Candidate, equity: real, cash: real, n: int, entryVolume: real,
      exitVolume: real)
    requires Size(cfg.sizing, InputFor(c, equity, cash, n, entryVolume, exitVolume)).Lots?
    ensures Size(cfg.sizing, InputFor(c, equity, cash, n, entryVolume, exitVolume)).lots >= 1
  {
    SizedNotional(cfg.sizing, InputFor(c, equity, cash, n, entryVolume, exitVolume));
  }

  /** The lots are within the participation share of what both windows reached. */
  ghost predicate WithinMinutes(cfg: Config, c: Candidate, minutes: seq<Candle>, lots: int) {
    && lots as real <= Share(minutes, c.entryDay, c.buy, Buy, cfg.entryWindow, cfg.sizing.maxParticipation)
    && lots as real <= Share(minutes, c.exitDay, c.sell, Sell, cfg.exitWindow, cfg.sizing.maxParticipation)
  }

  /** Without the minute model, and with volume in both windows, what is traded is the most lots within the
      sizer's limits, for the equity of the morning, no exposure yet, and the cash that is left. */
  lemma TradedIsMost(cfg: Config, c: Candidate, minutes: seq<Candle>, equity: real, cash: real, n: int, lots: int)
    requires !cfg.minuteModel && c.buy > 0.0 && c.lot > 0
    requires WindowNotional(minutes, c.entryDay, cfg.entryWindow, c.lot, |minutes|) > 0.0
    requires WindowNotional(minutes, c.exitDay, cfg.exitWindow, c.lot, |minutes|) > 0.0
    requires LotsTraded(cfg, c, minutes, equity, cash, n) > 0
    ensures
      var entry := WindowNotional(minutes, c.entryDay, cfg.entryWindow, c.lot, |minutes|);
      var exit := WindowNotional(minutes, c.exitDay, cfg.exitWindow, c.lot, |minutes|);
      var input := SizingInput(equity, cash, n, 0.0, 0.0, c.buy, c.lot, entry, exit, c.q05Abs);
      lots <= LotsTraded(cfg, c, minutes, equity, cash, n) <==> Fits(cfg.sizing, input, lots)
  {
    hide Size, Fits, WindowNotional;
    var entry := WindowNotional(minutes, c.entryDay, cfg.entryWindow, c.lot, |minutes|);
    var exit := WindowNotional(minutes, c.exitDay, cfg.exitWindow, c.lot, |minutes|);
    SizeIsLargest(cfg.sizing, InputFor(c, equity, cash, n, entry, exit));
  }

  /** The bounds a backtest is configured with. */
  predicate Prudent(cfg: Config) {
    cfg.sizing.sizeFactor <= 1.0 && 0.0 <= cfg.sizing.cashBuffer <= 1.0
  }

  /** What is traded fits an equal share of the exposure, the cash that is left, and the minutes. */
  lemma TradedBounds(cfg: Config, c: Candidate, minutes: seq<Candle>, equity: real, cash: real, n: int)
    requires n > 0 && Prudent(cfg)
    ensures
      var lots := LotsTraded(cfg, c, minutes, equity, cash, n);
      var notional := c.buy * lots as real * c.lot as real;
      && 0 <= lots
      && (lots > 0 ==>
            && notional > 0.0 && notional * n as real <= RemainingExposure(cfg.sizing, equity, 0.0)
            && notional <= AtLeastZero(cash) && (cfg.minuteModel ==> WithinMinutes(cfg, c, minutes, lots)))
  {
    hide Size, RemainingExposure, AtLeastZero, WithinMinutes, MinuteLots, WindowNotional;
    var sized, lots := SizedFor(cfg, c, minutes, equity, cash, n), LotsTraded(cfg, c, minutes, equity, cash, n);
    if sized.Lots? {
      SizedForBounds(cfg, c, minutes, equity, cash, n);
      if cfg.minuteModel {
        MinuteLotsBounds(cfg, c, minutes, sized.lots);
      }
      if lots > 0 {
        FewerLots(c.buy * c.lot as real, lots, sized.lots, n, RemainingExposure(cfg.sizing, equity, 0.0),
          AtLeastZero(cash));
        Reordered(c.buy, lots, c.lot);
      }
    }
  }

  lemma MinuteLotsBounds(cfg: Config, c: Candidate, minutes: seq<Candle>, requested: int)
    requires requested > 0
    ensures var lots := MinuteLots(cfg, c, minutes, requested);
            0 <= lots <= requested && (lots > 0 ==> WithinMinutes(cfg, c, minutes, lots))
  {
    hide Share;
  }

  lemma SizedForBounds(cfg: Config, c: Candidate, minutes: seq<Candle>, equity: real, cash: real, n: int)
    requires n > 0 && Prudent(cfg) && SizedFor(cfg, c, minutes, equity, cash, n).Lots?
    ensures
      var sized, each := SizedFor(cfg, c, minutes, equity, cash, n), c.buy * c.lot as real;
      && sized.lots >= 1 && each > 0.0
      && each * sized.lots as real * n as real <= RemainingExposure(cfg.sizing, equity, 0.0)
      && each * sized.lots as real <= AtLeastZero(cash)
  {
    hide Size, RemainingExposure, AtLeastZero, WindowNotional;
    var entry := WindowNotional(minutes, c.entryDay, cfg.entryWindow, c.lot, |minutes|);
    var exit := WindowNotional(minutes, c.exitDay, cfg.exitWindow, c.lot, |minutes|);
    var free := UnconstrainedVolume(equity, cfg.sizing.maxParticipation);
    if entry > 0.0 && exit > 0.0 {
      SizedBounds(cfg, c, equity, cash, n, entry, exit);
    } else {
      SizedBounds(cfg, c, equity, cash, n, free, free);
    }
  }

  lemma SizedBounds(cfg: Config, c: Candidate, equity: real, cash: real, n: int, entryVolume: real, exitVolume: real)
    requires n > 0 && Prudent(cfg)
    requires Size(cfg.sizing, InputFor(c, equity, cash, n, entryVolume, exitVolume)).Lots?
    ensures
      var sized, each := Size(cfg.sizing, InputFor(c, equity, cash, n, entryVolume, exitVolume)), c.buy * c.lot as real;
      && sized.lots >= 1 && each > 0.0
      && each * sized.lots as real * n as real <= RemainingExposure(cfg.sizing, equity, 0.0)
      && each * sized.lots as real <= AtLeastZero(cash)
  {
    hide Target, CapLimit, LiquidityLimit, RiskLimit, ExposureLimit, CashLimit, SizeFactor, RemainingExposure;
    var input := InputFor(c, equity, cash, n, entryVolume, exitVolume);
    LotIsWorth(input);
    SizedNotional(cfg.sizing, input);
    var notional := Size(cfg.sizing, input).notional;
    WithinShare(cfg.sizing, input, notional);
    WithinCash(cfg.sizing, input, notional);
    Shrinks(AtLeastZero(cash), cfg.sizing.cashBuffer);
  }

  lemma FewerLots(each: real, lots: int, sized: int, n: int, exposure: real, cash: real)
    requires each > 0.0 && 0 < lots <= sized && n > 0
    requires each * sized as real * n as real <= exposure && each * sized as real <= cash
    ensures each * lots as real > 0.0
    ensures each * lots as real * n as real <= exposure && each * lots as real <= cash
  {
    Scaled(lots as real, sized as real, each);
    Scaled(each * lots as real, each * sized as real, n as real);
  }

  lemma Reordered(buy: real, lots: int, lot: int)
    ensures buy * lots as real * lot as real == buy * lot as real * lots as real
  {
  }

  // ---------------------------------------------------------------- one day

  function Notionals(trades: seq<Trade>): real {
    if trades == [] then 0.0 else Notionals(trades[..|trades| - 1]) + trades[|trades| - 1].notional
  }

  function Profits(trades: seq<Trade>): real {
    if trades == [] then 0.0 else Profits(trades[..|trades| - 1]) + trades[|trades| - 1].pnl
  }

  lemma OneMoreTrade(trades: seq<Trade>, trade: Trade)
    ensures Notionals(trades + [trade]) == Notionals(trades) + trade.notional
    ensures Profits(trades + [trade]) == Profits(trades) + trade.pnl
  {
    assert (trades + [trade])[..|trades|] == trades;
  }

  lemma {:induction false} AllTrades(before: seq<Trade>, more: seq<Trade>)
    ensures Profits(before + more) == Profits(before) + Profits(more)
  {
    if more == [] {
      assert before + more == before;
    } else {
      AllTrades(before, more[..|more| - 1]);
      assert (before + more)[..|before + more| - 1] == before + more[..|more| - 1];
    }
  }

  function TradeOf(cfg: Config, c: Candidate, lots: int): Trade {
    var notional := c.buy * lots as real * c.lot as real;
    Trade(c, lots, notional,
      notional * ((if c.buy != 0.0 then c.sell / c.buy else 0.0) - 1.0 - cfg.commissionBps / 10000.0))
  }

  /** A trade earns its units times the difference of the prices, less the round trip's commission on what
      was paid for them. */
  lemma TradeEarns(cfg: Config, c: Candidate, lots: int)
    requires c.buy > 0.0
    ensures
      var trade := TradeOf(cfg, c, lots);
      && trade.candidate == c && trade.lots == lots && trade.notional == c.buy * lots as real * c.lot as real
      && trade.pnl == (c.sell - c.buy) * lots as real * c.lot as real - trade.notional * cfg.commissionBps / 10000.0
  {
    var units, fee := lots as real * c.lot as real, cfg.commissionBps / 10000.0;
    var trade := TradeOf(cfg, c, lots);
    assert c.buy * lots as real * c.lot as real == c.buy * units;
    assert (c.sell - c.buy) * lots as real * c.lot as real == (c.sell - c.buy) * units;
    assert c.sell / c.buy * c.buy == c.sell;
    calc {
      trade.pnl;
      c.buy * units * (c.sell / c.buy - 1.0 - fee);
      c.sell / c.buy * c.buy * units - c.buy * units - c.buy * units * fee;
      (c.sell - c.buy) * units - c.buy * units * fee;
    }
  }

  /** The trades of a day's first k candidates: each is sized against the equity of the morning and
      the cash that those before it have left. */
  function DayTrades(cfg: Config, day: seq<Candidate>, minutes: Minutes, equity: real, k: nat): seq<Trade>
    requires k <= |day|
  {
    if k == 0 then []
    else
      var before, c := DayTrades(cfg, day, minutes, equity, k - 1), day[k - 1];
      var lots := LotsTraded(cfg, c, MinutesOf(minutes, c.uid), equity, equity - Notionals(before), |day|);
      if lots <= 0 then before else before + [TradeOf(cfg, c, lots)]
  }

  method RunDay(cfg: Config, day: seq<Candidate>, minutes: Minutes, equity: real)
      returns (trades: seq<Trade>, pnl: real)
    ensures trades == DayTrades(cfg, day, minutes, equity, |day|) && pnl == Profits(trades)
  {
    hide LotsTraded, Notionals, Profits;
    var cash := equity;
    pnl, trades := 0.0, [];
    NoTradesYet();
    for k := 0 to |day|
      invariant trades == DayTrades(cfg, day, minutes, equity, k)
      invariant pnl == Profits(trades) && cash == equity - Notionals(trades)
    {
      var c := day[k];
      var lots := LotsFor(cfg, c, MinutesOf(minutes, c.uid), equity, cash, |day|);
      if lots <= 0 {
        continue;
      }
      var trade := TradeOf(cfg, c, lots);
      OneMoreTrade(trades, trade);
      pnl := pnl + trade.pnl;
      cash := cash - trade.notional;
      trades := trades + [trade];
    }
  }

  lemma NoTradesYet()
    ensures Notionals([]) == 0.0 && Profits([]) == 0.0
  {
  }

  ghost predicate Executable(cfg: Config, minutes: Minutes, trade: Trade) {
    && trade.lots >= 1 && trade.notional > 0.0
    && (cfg.minuteModel ==> WithinMinutes(cfg, trade.candidate, MinutesOf(minutes, trade.candidate.uid), trade.lots))
  }

  /** What the first k candidates of a day have left: no less than no cash, and an equal share of the
      exposure for each of the others. */
  ghost predicate DayKept(cfg: Config, minutes: Minutes, trades: seq<Trade>, equity: real, n: int, k: nat) {
    && Notionals(trades) * n as real <= k as real * RemainingExposure(cfg.sizing, equity, 0.0)
    && 0.0 <= Notionals(trades) <= AtLeastZero(equity)
    && forall j :: 0 <= j < |trades| ==> Executable(cfg, minutes, trades[j])
  }

  lemma {:induction false} DayKeeps(cfg: Config, day: seq<Candidate>, minutes: Minutes, equity: real, k: nat)
    requires Prudent(cfg) && k <= |day|
    ensures DayKept(cfg, minutes, DayTrades(cfg, day, minutes, equity, k), equity, |day|, k)
  {
    hide LotsTraded, Notionals, RemainingExposure, Executable, DayKept, TradeOf;
    if k == 0 {
      NoTradesKept(cfg, minutes, equity, |day|);
    } else {
      DayKeeps(cfg, day, minutes, equity, k - 1);
      var before, c := DayTrades(cfg, day, minutes, equity, k - 1), day[k - 1];
      var cash := equity - Notionals(before);
      var lots := LotsTraded(cfg, c, MinutesOf(minutes, c.uid), equity, cash, |day|);
      if lots > 0 {
        TradeBounds(cfg, c, MinutesOf(minutes, c.uid), equity, cash, |day|);
        TradeKept(cfg, minutes, before, TradeOf(cfg, c, lots), equity, |day|, k - 1);
      } else {
        NoTradeKept(cfg, minutes, before, equity, |day|, k - 1);
      }
    }
  }

  lemma TradeBounds(cfg: Config, c: Candidate, minutes: seq<Candle>, equity: real, cash: real, n: int)
    requires n > 0 && Prudent(cfg) && LotsTraded(cfg, c, minutes, equity, cash, n) > 0
    ensures var trade := TradeOf(cfg, c, LotsTraded(cfg, c, minutes, equity, cash, n));
            && trade.candidate == c && trade.lots >= 1 && trade.notional > 0.0
            && trade.notional * n as real <= RemainingExposure(cfg.sizing, equity, 0.0)
            && trade.notional <= AtLeastZero(cash) && (cfg.minuteModel ==> WithinMinutes(cfg, c, minutes, trade.lots))
  {
    hide LotsTraded, RemainingExposure, AtLeastZero, WithinMinutes;
    TradedBounds(cfg, c, minutes, equity, cash, n);
  }

  lemma NoTradesKept(cfg: Config, minutes: Minutes, equity: real, n: int)
    ensures DayKept(cfg, minutes, [], equity, n, 0)
  {
  }

  lemma TradeKept(cfg: Config, minutes: Minutes, trades: seq<Trade>, trade: Trade, equity: real, n: int, k: nat)
    requires DayKept(cfg, minutes, trades, equity, n, k)
    requires trade.lots >= 1 && trade.notional > 0.0
    requires cfg.minuteModel ==>
      WithinMinutes(cfg, trade.candidate, MinutesOf(minutes, trade.candidate.uid), trade.lots)
    requires trade.notional * n as real <= RemainingExposure(cfg.sizing, equity, 0.0)
    requires trade.notional <= AtLeastZero(equity - Notionals(trades))
    ensures DayKept(cfg, minutes, trades + [trade], equity, n, k + 1)
  {
    hide Notionals, RemainingExposure, WithinMinutes;
    OneMoreTrade(trades, trade);
    OneMoreShare(Notionals(trades), trade.notional, n, k, RemainingExposure(cfg.sizing, equity, 0.0));
  }

  lemma NoTradeKept(cfg: Config, minutes: Minutes, trades: seq<Trade>, equity: real, n: int, k: nat)
    requires DayKept(cfg, minutes, trades, equity, n, k)
    ensures DayKept(cfg, minutes, trades, equity, n, k + 1)
  {
    hide Notionals, RemainingExposure, Executable;
    ExposureIsNatural(cfg.sizing, equity, 0.0);
    OneMoreShare(Notionals(trades), 0.0, n, k, RemainingExposure(cfg.sizing, equity, 0.0));
  }

  /** The day's notionals together stay within the exposure cap of the morning's equity; the cash
      never runs out, not even between two trades; and every trade was within reach of its minutes. */
  lemma DayStaysWithin(cfg: Config, day: seq<Candidate>, minutes: Minutes, equity: real, k: nat)
    requires Prudent(cfg) && k <= |day|
    ensures
      var trades := DayTrades(cfg, day, minutes, equity, k);
      && Notionals(trades) <= RemainingExposure(cfg.sizing, equity, 0.0)
      && Notionals(trades) <= AtLeastZero(equity)
      && forall j :: 0 <= j < |trades| ==> Executable(cfg, minutes, trades[j])
  {
    hide LotsTraded, Notionals, RemainingExposure, Executable, DayTrades;
    DayKeeps(cfg, day, minutes, equity, k);
    var trades, remaining := DayTrades(cfg, day, minutes, equity, k), RemainingExposure(cfg.sizing, equity, 0.0);
    ExposureIsNatural(cfg.sizing, equity, 0.0);
    if k > 0 {
      FirstOfMany(Notionals(trades), remaining, |day|, k);
    } else {
      NoTradesMade(cfg, day, minutes, equity);
    }
  }

  lemma NoTradesMade(cfg: Config, day: seq<Candidate>, minutes: Minutes, equity: real)
    ensures Notionals(DayTrades(cfg, day, minutes, equity, 0)) == 0.0
  {
  }

  lemma FirstOfMany(spent: real, remaining: real, n: int, k: nat)
    requires 0 < k <= n && spent * n as real <= k as real * remaining && 0.0 <= remaining
    ensures spent <= remaining
  {
    ScaledAtLeastZero(k as real, n as real, remaining);
    assert n as real * remaining == remaining * n as real;
    Scaled(spent, remaining, n as real);
  }

  // ---------------------------------------------------------------- the whole run

  /** The best ranked candidates that there are positions for. */
  function Chosen(cfg: Config, day: seq<Candidate>): seq<Candidate> {
    if |day| > cfg.maxPositions then day[..cfg.maxPositions] else day
  }

  lemma ChosenAreFirst(cfg: Config, day: seq<Candidate>)
    ensures Chosen(cfg, day) <= day && |Chosen(cfg, day)| <= cfg.maxPositions
    ensures |Chosen(cfg, day)| == cfg.maxPositions || Chosen(cfg, day) == day
  {
  }

  /** The equity after the first d days: each day starts from what the one before it left. */
  function EquityAfter(cfg: Config, days: seq<seq<Candidate>>, minutes: Minutes, initial: real, d: nat): real
    requires d <= |days|
    decreases d, 0
  {
    if d == 0 then initial
    else EquityAfter(cfg, days, minutes, initial, d - 1) + Profits(TradesOn(cfg, days, minutes, initial, d - 1))
  }

  function TradesOn(cfg: Config, days: seq<seq<Candidate>>, minutes: Minutes, initial: real, d: nat): seq<Trade>
    requires d < |days|
    decreases d, 1
  {
    var day := Chosen(cfg, days[d]);
    DayTrades(cfg, day, minutes, EquityAfter(cfg, days, minutes, initial, d), |day|)
  }

  function TradesBefore(cfg: Config, days: seq<seq<Candidate>>, minutes: Minutes, initial: real, d: nat): seq<Trade>
    requires d <= |days|
  {
    if d == 0 then []
    else TradesBefore(cfg, days, minutes, initial, d - 1) + TradesOn(cfg, days, minutes, initial, d - 1)
  }

  /** The loop over the days: its points are the equity after each of them. */
  method Run(cfg: Config, days: seq<seq<Candidate>>, minutes: Minutes, initial: real)
      returns (equity: real, trades: seq<Trade>, points: seq<real>)
    ensures |points| == |days| + 1 && equity == points[|days|]
    ensures forall d :: 0 <= d <= |days| ==> points[d] == EquityAfter(cfg, days, minutes, initial, d)
    ensures trades == TradesBefore(cfg, days, minutes, initial, |days|)
  {
    hide DayTrades, Profits, Chosen;
    equity, trades, points := initial, [], [initial];
    for d := 0 to |days|
      invariant |points| == d + 1 && equity == points[d]
      invariant forall k :: 0 <= k <= d ==> points[k] == EquityAfter(cfg, days, minutes, initial, k)
      invariant trades == TradesBefore(cfg, days, minutes, initial, d)
    {
      var day, pnl := RunDay(cfg, Chosen(cfg, days[d]), minutes, equity);
      assert day == TradesOn(cfg, days, minutes, initial, d);
      trades := trades + day;
      equity := equity + pnl;
      points := points + [equity];
    }
  }

  /** Every trade's profit and nothing else ends up in the equity. */
  lemma {:induction false} EquityIsProfits(cfg: Config, days: seq<seq<Candidate>>, minutes: Minutes, initial: real,
      d: nat)
    requires d <= |days|
    ensures EquityAfter(cfg, days, minutes, initial, d) ==
      initial + Profits(TradesBefore(cfg, days, minutes, initial, d))
  {
    hide DayTrades;
    if d > 0 {
      EquityIsProfits(cfg, days, minutes, initial, d - 1);
      AllTrades(TradesBefore(cfg, days, minutes, initial, d - 1), TradesOn(cfg, days, minutes, initial, d - 1));
    }
  }
}
