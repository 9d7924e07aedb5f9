/** Decimal division keeps sixteen digits. The aggregate is averaged and multiplied out again at every
    merge, so its value drifts from the sum of the fills, but only this much. */
module Rounding {
  import opened Arithmetic
  import opened RawState
  import opened Domain
  import opened Fills

  /** A decimal quotient with the error that rounding it made. */
  function Quotient(x: real, n: int, error: real): real
    requires n != 0
  {
    x / n as real + error
  }

  function RoundedDeltaAvg(previous: Order, current: Order, lots: int, error: real): real
    requires lots != 0
  {
    if previous.filled <= 0 then (if current.avg > 0.0 then current.avg else current.limit)
    else if Value(current) > Value(previous) then Quotient(Value(current) - Value(previous), lots, error)
    else if current.avg > 0.0 then current.avg
    else current.limit
  }

  /** An order as it was seen before and as it is seen now, and the errors of the two divisions that
      merging the difference takes. */
  datatype Observation = Observation(previous: Order, current: Order, deltaError: real, meanError: real)

  /** The merge as it is computed. */
  function RoundedMerge(aggregate: Order, o: Observation): Order {
    var lots := o.current.filled - o.previous.filled;
    if lots <= 0 then aggregate
    else
      var value := Value(aggregate) + Times(RoundedDeltaAvg(o.previous, o.current, lots, o.deltaError), lots);
      var total := aggregate.filled + lots;
      aggregate.(filled := total, avg := if total != 0 then Quotient(value, total, o.meanError) else aggregate.avg)
  }

  /** Without rounding it is the engine's merge, but for the commission, which is never divided. */
  lemma RoundedWithoutError(aggregate: Order, o: Observation)
    requires o.deltaError == 0.0 && o.meanError == 0.0
    ensures RoundedMerge(aggregate, o)
            == MergeAggregateFill(aggregate, o.previous, o.current).(commission := aggregate.commission)
  {
    hide Value, Times;
    var lots := o.current.filled - o.previous.filled;
    if lots > 0 {
      assert RoundedDeltaAvg(o.previous, o.current, lots, 0.0) == FillDeltaAvg(o.previous, o.current, lots);
    }
  }

  /** No division is off by more than a unit, and the broker honours its contract. */
  predicate Usual(o: Observation, unit: real) {
    && Within(o.deltaError, unit) && Within(o.meanError, unit)
    && 0 <= o.previous.filled && Advances(FillOf(o.previous), FillOf(o.current))
  }

  predicate AllUsual(all: seq<Observation>, unit: real) {
    forall k :: 0 <= k < |all| ==> Usual(all[k], unit)
  }

  function Merged(start: Order, all: seq<Observation>): Order {
    if all == [] then start else RoundedMerge(Merged(start, all[..|all| - 1]), all[|all| - 1])
  }

  function Growth(all: seq<Observation>): real {
    if all == [] then 0.0
    else Growth(all[..|all| - 1]) + Value(all[|all| - 1].current) - Value(all[|all| - 1].previous)
  }

  predicate Within(x: real, bound: real) {
    -bound <= x <= bound
  }

  /** So many units per lot. */
  function Bound(unit: real, units: nat, lots: int): real {
    unit * units as real * lots as real
  }

  lemma TimesLots(x: real, unit: real, n: int)
    requires Within(x, unit) && n >= 0
    ensures Within(x * n as real, unit * n as real)
  {
  }

  /** A rounded quotient times its divisor is off by at most a unit per lot. */
  lemma MultipliedOut(unit: real, x: real, n: int, error: real)
    requires Within(error, unit) && n > 0
    ensures Within(Times(Quotient(x, n, error), n) - x, Times(unit, n))
  {
    TimesLots(error, unit, n);
    QuotientTimes(x, n);
    Distributes(x / n as real, error, n);
  }

  lemma Distributes(x: real, y: real, n: int)
    ensures (x + y) * n as real == x * n as real + y * n as real
  {
  }

  lemma DeltaDrifts(unit: real, o: Observation)
    requires Usual(o, unit) && o.previous.filled < o.current.filled && 0.0 <= unit
    ensures
      var lots := o.current.filled - o.previous.filled;
      Within(Times(RoundedDeltaAvg(o.previous, o.current, lots, o.deltaError), lots)
             - (Value(o.current) - Value(o.previous)),
             Times(unit, lots))
  {
    var lots := o.current.filled - o.previous.filled;
    assert FillOf(o.previous).lots == o.previous.filled && FillOf(o.current).lots == o.current.filled;
    assert FillOf(o.previous).value == Value(o.previous) && FillOf(o.current).value == Value(o.current);
    if o.previous.filled == 0 {
      TimesNothing(o.previous.avg, o.previous.filled);
      PositiveTimes(o.current.avg, o.current.filled);
      TimesLots(0.0, unit, lots);
      TimesNothing(0.0, lots - lots);
    } else {
      MultipliedOut(unit, Value(o.current) - Value(o.previous), lots, o.deltaError);
    }
  }

  lemma BoundGrows(unit: real, n: nat, before: int, lots: int)
    requires 0.0 <= unit && 0 <= before && 0 < lots
    ensures Bound(unit, n + 1, before) + Times(unit, lots) + Times(unit, before + lots) <=
      Bound(unit, n + 2, before + lots)
  {
    var k, b, l := n as real, before as real, lots as real;
    assert (n + 1) as real == k + 1.0 && (n + 2) as real == k + 2.0 && (before + lots) as real == b + l;
    assert unit * (k + 1.0) * b + unit * l + unit * (b + l) == unit * ((k + 1.0) * b + l + b + l);
    assert (k + 2.0) * (b + l) == (k + 1.0) * b + l + b + l + k * l;
    Grows(unit, (k + 1.0) * b + l + b + l, k * l);
    assert unit * (k + 2.0) * (b + l) == unit * ((k + 2.0) * (b + l));
  }

  lemma Grows(unit: real, x: real, more: real)
    requires 0.0 <= unit && 0.0 <= more
    ensures unit * x <= unit * (x + more)
  {
  }

  lemma BoundIsNatural(unit: real, n: nat, lots: int)
    requires 0.0 <= unit && 0 <= lots
    ensures 0.0 <= Bound(unit, n, lots) <= Bound(unit, n + 1, lots)
  {
    var k, l := n as real, lots as real;
    assert (n + 1) as real == k + 1.0;
    NaturalProduct(unit, k);
    NaturalProduct(unit * k, l);
    NaturalProduct(unit, l);
    assert unit * (k + 1.0) * l == unit * k * l + unit * l;
  }

  /** One more observation adds the rounding of its own average and that of the aggregate's. */
  lemma StepDrifts(unit: real, aggregate: Order, o: Observation, n: nat, exact: real)
    requires Usual(o, unit) && 0.0 <= unit && 0 <= aggregate.filled
    requires Within(Value(aggregate) - exact, Bound(unit, n + 1, aggregate.filled))
    ensures
      var merged := RoundedMerge(aggregate, o);
      && aggregate.filled <= merged.filled
      && Within(Value(merged) - (exact + Value(o.current) - Value(o.previous)), Bound(unit, n + 2, merged.filled))
  {
    hide RoundedDeltaAvg, Bound, Value, Quotient, FillOf, Advances, Times;
    SameFills(o.previous, o.current);
    var lots := o.current.filled - o.previous.filled;
    if lots <= 0 {
      BoundIsNatural(unit, n + 1, aggregate.filled);
    } else {
      var delta := Times(RoundedDeltaAvg(o.previous, o.current, lots, o.deltaError), lots);
      DeltaDrifts(unit, o);
      MultipliedOut(unit, Value(aggregate) + delta, aggregate.filled + lots, o.meanError);
      BoundGrows(unit, n, aggregate.filled, lots);
      MergedIs(aggregate, o, lots, delta);
    }
  }

  lemma ValueIs(order: Order)
    ensures Value(order) == Times(order.avg, order.filled)
  {
  }

  lemma MergedIs(aggregate: Order, o: Observation, lots: int, delta: real)
    requires lots == o.current.filled - o.previous.filled && 0 < lots && 0 <= aggregate.filled
    requires delta == Times(RoundedDeltaAvg(o.previous, o.current, lots, o.deltaError), lots)
    ensures RoundedMerge(aggregate, o).filled == aggregate.filled + lots
    ensures Value(RoundedMerge(aggregate, o))
            == Times(Quotient(Value(aggregate) + delta, aggregate.filled + lots, o.meanError), aggregate.filled + lots)
  {
    hide RoundedDeltaAvg, Quotient, Times, Value;
    ValueIs(RoundedMerge(aggregate, o));
    assert RoundedMerge(aggregate, o).avg == Quotient(Value(aggregate) + delta, aggregate.filled + lots, o.meanError);
  }

  lemma SameFills(previous: Order, current: Order)
    requires Advances(FillOf(previous), FillOf(current))
    ensures previous.filled <= current.filled
    ensures previous.filled == current.filled ==> Value(previous) == Value(current)
  {
    assert FillOf(previous).lots == previous.filled && FillOf(current).lots == current.filled;
  }

  /** After n observations the aggregate's value is off by at most n + 1 units per lot it holds. */
  lemma {:induction false} DriftIsBounded(unit: real, start: Order, all: seq<Observation>)
    requires AllUsual(all, unit) && 0.0 <= unit && 0 <= start.filled
    ensures start.filled <= Merged(start, all).filled
    ensures Within(Value(Merged(start, all)) - (Value(start) + Growth(all)),
        Bound(unit, |all| + 1, Merged(start, all).filled))
  {
    hide RoundedMerge, Value, Bound, Usual;
    var n := |all|;
    if n == 0 {
      BoundIsNatural(unit, 1, start.filled);
    } else {
      var before := all[..n - 1];
      assert AllUsual(before, unit) && Usual(all[n - 1], unit);
      DriftIsBounded(unit, start, before);
      StepDrifts(unit, Merged(start, before), all[n - 1], n - 1, Value(start) + Growth(before));
    }
  }
}
