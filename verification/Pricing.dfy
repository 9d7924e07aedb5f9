/** The limit prices shared by sizing and placing. */
module Pricing {
  import opened RawState
  import opened Domain
  import opened Money

  function LimitBuyPrice(bid: real, ask: real, tick: real, improveTicks: int): Option<real> {
    var improve := if improveTicks < 0 then 0 else improveTicks;
    if tick <= 0.0 then None
    else
      var candidate := bid + tick * improve as real;
      if candidate <= ask - tick then RoundToTick(candidate, tick, Floor) else RoundToTick(bid, tick, Floor)
  }

  function LimitSellPrice(bid: real, ask: real, tick: real, improveTicks: int): Option<real> {
    var improve := if improveTicks < 0 then 0 else improveTicks;
    if tick <= 0.0 then None
    else
      var candidate := ask - tick * improve as real;
      if candidate >= bid + tick then RoundToTick(candidate, tick, Ceil) else RoundToTick(ask, tick, Ceil)
  }

  function LimitPrice(side: Side, bid: real, ask: real, tick: real, improveTicks: int): Option<real> {
    if side.Buy? then LimitBuyPrice(bid, ask, tick, improveTicks) else LimitSellPrice(bid, ask, tick, improveTicks)
  }

  lemma NeedsTick(bid: real, ask: real, tick: real, improveTicks: int)
    ensures LimitBuyPrice(bid, ask, tick, improveTicks).Some? ==> tick > 0.0
    ensures LimitSellPrice(bid, ask, tick, improveTicks).Some? ==> tick > 0.0
  {
  }

  lemma Improvement(improve: int, tick: real)
    requires improve >= 0 && tick > 0.0
    ensures tick * improve as real >= 0.0
  {
  }

  /** Limit orders are passive: priced on the tick grid they never reach the other side of an
      uncrossed book, and never fall a whole tick behind their own side. */
  lemma BuyPriceDoesNotCross(bid: real, ask: real, tick: real, improveTicks: int)
    requires bid < ask && tick > 0.0
    ensures var buy := LimitBuyPrice(bid, ask, tick, improveTicks).value;
            bid - tick < buy < ask && (exists steps :: OnGrid(buy, tick, steps))
  {
    var gain := tick * (if improveTicks < 0 then 0 else improveTicks) as real;
    Improvement(if improveTicks < 0 then 0 else improveTicks, tick);
    var basis := if bid + gain <= ask - tick then bid + gain else bid;
    assert LimitBuyPrice(bid, ask, tick, improveTicks) == RoundToTick(basis, tick, Floor);
    FloorsToTick(basis, tick, 0, 0.0);
    assert OnGrid(RoundToTick(basis, tick, Floor).value, tick, FloorOf(basis / tick));
  }

  lemma SellPriceDoesNotCross(bid: real, ask: real, tick: real, improveTicks: int)
    requires bid < ask && tick > 0.0
    ensures var sell := LimitSellPrice(bid, ask, tick, improveTicks).value;
            bid < sell < ask + tick && (exists steps :: OnGrid(sell, tick, steps))
  {
    var gain := tick * (if improveTicks < 0 then 0 else improveTicks) as real;
    Improvement(if improveTicks < 0 then 0 else improveTicks, tick);
    var basis := if ask - gain >= bid + tick then ask - gain else ask;
    assert LimitSellPrice(bid, ask, tick, improveTicks) == RoundToTick(basis, tick, Ceil);
    CeilsToTick(basis, tick, 0, 0.0);
    assert OnGrid(RoundToTick(basis, tick, Ceil).value, tick, CeilOf(basis / tick));
  }
}
