/** What the scheduler books: the difference between two reports of one aggregate. */
module Deltas {
  import opened Arithmetic
  import opened RawState
  import opened Domain
  import opened Fills
  import opened Positions

  /** What an execution report adds to the aggregate the order row already held. */
  function FillDelta(previous: Order, current: Order): Order {
    var before := AggregatedOrderFill(previous);
    var lots, commission := Clamp(current.filled - before.filled), current.commission - before.commission;
    current.(
      filled := lots,
      commission := if commission < 0.0 then 0.0 else commission,
      avg := if lots > 0 then (Value(current) - Value(before)) / lots as real else current.avg)
  }

  /** A delta is never negative, whatever the two reports say. */
  lemma DeltaIsNatural(previous: Order, current: Order)
    ensures
      var before, delta := AggregatedOrderFill(previous), FillDelta(previous, current);
      && 0 <= delta.filled && 0.0 <= delta.commission
      && (before.filled <= current.filled ==> before.filled + delta.filled == current.filled)
      && (before.filled >= current.filled ==> delta.filled == 0 && delta.avg == current.avg)
      && (before.commission <= current.commission ==> before.commission + delta.commission == current.commission)
      && (before.commission >= current.commission ==> delta.commission == 0.0)
  {
  }

  function EntryFillDelta(previous: Order, current: Order): Order {
    FillDelta(previous, current).(quantity := Clamp(current.quantity - AggregatedOrderFill(previous).filled))
  }

  /** A delta carries exactly the difference of two aggregates, and a position fed with it becomes
      partial exactly when the aggregate is. */
  lemma DeltaIsExact(previous: Order, current: Order)
    requires Advances(FillOf(AggregatedOrderFill(previous)), FillOf(current))
    ensures
      var before, delta := AggregatedOrderFill(previous), EntryFillDelta(previous, current);
      && EntryFillOf(delta) == FillOf(current).Minus(FillOf(before))
      && 0 <= delta.filled == current.filled - before.filled
      && (delta.filled < delta.quantity <==> current.filled < current.quantity)
  {
    var before, delta := AggregatedOrderFill(previous), EntryFillDelta(previous, current);
    assert FillOf(before).lots == before.filled && FillOf(current).lots == current.filled;
    if delta.filled > 0 {
      QuotientTimes(Value(current) - Value(before), delta.filled);
      PositiveTimes(delta.avg, delta.filled);
    } else {
      TimesNothing(if delta.avg > 0.0 then delta.avg else delta.limit, Clamp(delta.filled));
    }
  }

  /** The same for an exit: the sale has the lots, proceeds and commission of the difference. */
  lemma SaleIsExact(previous: Order, current: Order, at: int)
    requires Advances(FillOf(AggregatedOrderFill(previous)), FillOf(current))
    ensures
      var before, sale := AggregatedOrderFill(previous), SaleOf(FillDelta(previous, current), at);
      Fill(sale.lots, sale.avg * sale.lots as real, sale.commission) == FillOf(current).Minus(FillOf(before))
  {
    var before, delta := AggregatedOrderFill(previous), FillDelta(previous, current);
    assert FillOf(before).lots == before.filled && FillOf(current).lots == current.filled;
    if delta.filled > 0 {
      QuotientTimes(Value(current) - Value(before), delta.filled);
    } else {
      TimesNothing(delta.avg, delta.filled);
    }
  }
}
