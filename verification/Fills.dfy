/** How the engine turns cumulative snapshots of an order into an aggregate over a whole chain. */
module Fills {
  import opened Arithmetic
  import opened RawState
  import opened Domain

  function FillDeltaLots(previous: Order, current: Order): int {
    if current.filled < previous.filled then 0 else current.filled - previous.filled
  }

  lemma DeltaLotsAreGained(previous: Order, current: Order)
    ensures FillDeltaLots(previous, current) > 0 <==> previous.filled < current.filled
    ensures previous.filled + FillDeltaLots(previous, current)
            == if current.filled > previous.filled then current.filled else previous.filled
  {
  }

  function FillDeltaAvg(previous: Order, current: Order, deltaLots: int): real {
    if deltaLots <= 0 then 0.0
    else if previous.filled <= 0 then (if current.avg > 0.0 then current.avg else current.limit)
    else if Value(current) > Value(previous) then (Value(current) - Value(previous)) / deltaLots as real
    else if current.avg > 0.0 then current.avg
    else current.limit
  }

  function Times(price: real, lots: int): real {
    price * lots as real
  }

  /** An aggregate of a negative number of lots, which no broker causes, could grow to zero lots and
      have no average; the division then panics, here the average stays. */
  function MergeAggregateFill(aggregate: Order, previous: Order, current: Order): Order {
    var deltaLots := current.filled - previous.filled;
    var withLots :=
      if deltaLots > 0 then
        var lots := aggregate.filled + deltaLots;
        var deltaValue := Times(FillDeltaAvg(previous, current, deltaLots), deltaLots);
        aggregate.(filled := lots,
          avg := if lots != 0 then (Value(aggregate) + deltaValue) / lots as real else aggregate.avg)
      else aggregate;
    var deltaCommission := current.commission - previous.commission;
    if deltaCommission > 0.0 then withLots.(commission := aggregate.commission + deltaCommission) else withLots
  }

  function AggregatedOrderFill(order: Order): Order {
    match ReadAggregate(order.raw)
    case None => order
    case Some(state) =>
      order.(quantity := if state.quantity > 0 then state.quantity else order.quantity,
             filled := state.filled, avg := state.avg, commission := state.commission)
  }

  /** The chain's own size is the one the aggregate remembers, the order's if it remembers none. */
  lemma AggregateKeepsItsSize(order: Order)
    ensures ReadAggregate(order.raw).None? ==> AggregatedOrderFill(order) == order
    ensures ReadAggregate(order.raw).Some? ==>
      var state, start := ReadAggregate(order.raw).value, AggregatedOrderFill(order);
      && (0 < state.quantity ==> AggregateStateOf(start) == state)
      && (state.quantity <= 0 ==> AggregateStateOf(start) == state.(quantity := order.quantity))
  {
  }

  function AggregateStateOf(aggregate: Order): AggregateState {
    AggregateState(aggregate.quantity, aggregate.filled, aggregate.avg, aggregate.commission)
  }

  function MergeOrderState(base: Order, state: Order): Order {
    base.(broker := state.broker, filled := state.filled, avg := state.avg, status := state.status,
          commission := state.commission, raw := state.raw)
  }

  lemma MergedValue(aggregate: Order, previous: Order, current: Order)
    requires 0 <= aggregate.filled && previous.filled < current.filled
    ensures var deltaLots := current.filled - previous.filled;
            Value(MergeAggregateFill(aggregate, previous, current))
            == Value(aggregate) + FillDeltaAvg(previous, current, deltaLots) * deltaLots as real
  {
    var deltaLots := current.filled - previous.filled;
    QuotientTimes(Value(aggregate) + FillDeltaAvg(previous, current, deltaLots) * deltaLots as real,
                  aggregate.filled + deltaLots);
  }

  /** A merge of two snapshots of a broker that honours its contract adds exactly their difference. */
  lemma MergeAdds(aggregate: Order, previous: Order, current: Order)
    requires 0 <= aggregate.filled && 0 <= previous.filled
    requires Advances(FillOf(previous), FillOf(current))
    ensures FillOf(MergeAggregateFill(aggregate, previous, current))
            == FillOf(aggregate).Plus(FillOf(current).Minus(FillOf(previous)))
  {
    if previous.filled < current.filled {
      var deltaLots := current.filled - previous.filled;
      MergedValue(aggregate, previous, current);
      PositiveTimes(current.avg, current.filled);
      if previous.filled == 0 {
        assert Value(previous) == 0.0;
      } else {
        QuotientTimes(Value(current) - Value(previous), deltaLots);
      }
    }
  }

  lemma ObservationMerges(before: Order, previous: Order, order: Order, state: Order)
    requires 0 <= FillOf(before).lots && 0 <= order.filled && FillOf(previous) == FillOf(order)
    requires Advances(FillOf(order), FillOf(state))
    ensures before.filled >= 0
    ensures var merged := MergeAggregateFill(before, previous, state);
            && FillOf(merged) == FillOf(before).Plus(FillOf(state).Minus(FillOf(order)))
            && Advances(FillOf(before), FillOf(merged))
            && SameOrder(before, merged) && 0 <= merged.filled
  {
    MergeAdds(before, previous, state);
  }

  lemma AggregateKeepsIdentity(order: Order)
    ensures AggregatedOrderFill(order).client == order.client
    ensures AggregatedOrderFill(order).status == order.status && AggregatedOrderFill(order).limit == order.limit
  {
  }

  lemma SameFill(order: Order, status: Status, raw: Raw)
    ensures FillOf(order.(status := status, raw := raw)) == FillOf(order)
  {
  }

  /** With a positive limit price a merge is exact only for such snapshots: the limit price stands
      in for a missing average, and a value that did not grow with the lots is miscounted. */
  lemma MergeIsExact(aggregate: Order, previous: Order, current: Order)
    requires 0 <= aggregate.filled && 0 <= previous.filled && 0.0 < current.limit
    ensures FillOf(MergeAggregateFill(aggregate, previous, current))
            == FillOf(aggregate).Plus(FillOf(current).Minus(FillOf(previous)))
            <==> Advances(FillOf(previous), FillOf(current))
  {
    if Advances(FillOf(previous), FillOf(current)) {
      MergeAdds(aggregate, previous, current);
    } else if previous.filled < current.filled {
      var deltaLots := current.filled - previous.filled;
      MergedValue(aggregate, previous, current);
      PositiveTimes(current.avg, current.filled);
      PositiveTimes(current.avg, deltaLots);
      PositiveTimes(current.limit, deltaLots);
      PositiveTimes(current.limit - current.avg, deltaLots);
    }
  }

  /** The aggregate's commission is what the broker last reported exactly while reports never fall;
      a report that falls back is never given back, so a later rise is counted twice. */
  lemma CommissionRatchets(aggregate: Order, a: Order, b: Order, c: Order)
    requires 0 <= aggregate.filled && a.filled == b.filled == c.filled
    requires b.commission < a.commission < c.commission
    ensures MergeAggregateFill(MergeAggregateFill(aggregate, a, b), b, c).commission
            == aggregate.commission + (c.commission - a.commission) + (a.commission - b.commission)
  {
  }
}
