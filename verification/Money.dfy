/** Rounding of decimals: to ticks, and to the units-and-nanos pairs of the broker's protocol. */
module Money {
  import opened RawState

  datatype RoundMode = Nearest | Floor | Ceil

  function FloorOf(x: real): int {
    x.Floor
  }

  function CeilOf(x: real): int {
    -((-x).Floor)
  }

  /** To the nearest integer, halves away from zero. */
  function RoundOf(x: real): int {
    if x < 0.0 then -((-x + 0.5).Floor) else (x + 0.5).Floor
  }

  /** Nothing else is nearer, and of two that are as near it is the one further from zero. */
  lemma HalvesGoAway(x: real)
    ensures 0.0 <= x ==> x - 0.5 < RoundOf(x) as real <= x + 0.5
    ensures x <= 0.0 ==> x - 0.5 <= RoundOf(x) as real < x + 0.5
  {
  }

  /** So many whole ticks. */
  function Grid(steps: int, tick: real): real {
    steps as real * tick
  }

  function RoundToTick(price: real, tick: real, mode: RoundMode): Option<real> {
    if tick <= 0.0 then None
    else
      var steps := price / tick;
      var whole := match mode
        case Floor => FloorOf(steps)
        case Ceil => CeilOf(steps)
        case Nearest => RoundOf(steps);
      Some(Grid(whole, tick))
  }

  predicate OnGrid(price: real, tick: real, steps: int) {
    price == Grid(steps, tick)
  }

  lemma PriceInTicks(price: real, tick: real)
    requires tick > 0.0
    ensures price / tick * tick == price
  {
  }

  lemma Ordered(a: int, b: int)
    requires a <= b
    ensures a as real <= b as real
  {
  }

  lemma FloorIsNext(x: real, n: int)
    ensures x.Floor as real <= x < x.Floor as real + 1.0
    ensures n <= x.Floor || x < n as real
  {
    if n > x.Floor {
      Ordered(x.Floor + 1, n);
    }
  }

  /** Scaling by a positive tick keeps order and whole steps; the products are named so that the
      arithmetic stays linear. */
  lemma ScaledByTick(a: real, b: real, tick: real, atA: real, atB: real)
    requires tick > 0.0 && atA == a * tick && atB == b * tick
    ensures a <= b ==> atA <= atB
    ensures a < b ==> atA < atB
    ensures a + 1.0 == b ==> atA + tick == atB
  {
    var gap := (b - a) * tick;
    assert gap == atB - atA;
    if a < b {
      assert gap > 0.0;
    }
  }

  lemma WholeTicksBelow(exact: real, below: real, given: real, tick: real, price: real, down: real, mark: real)
    requires tick > 0.0 && price == exact * tick && down == below * tick && mark == given * tick
    requires below <= exact < below + 1.0
    requires given <= below || exact < given
    ensures down <= price < down + tick
    ensures mark <= price ==> mark <= down
  {
    var next := (below + 1.0) * tick;
    ScaledByTick(below, exact, tick, down, price);
    ScaledByTick(exact, below + 1.0, tick, price, next);
    ScaledByTick(below, below + 1.0, tick, down, next);
    ScaledByTick(given, below, tick, mark, down);
    ScaledByTick(exact, given, tick, price, mark);
  }

  /** Floor yields the largest multiple of the tick that is not above the price. */
  lemma FloorsToTick(price: real, tick: real, steps: int, mark: real)
    requires tick > 0.0 && OnGrid(mark, tick, steps)
    ensures var down := RoundToTick(price, tick, Floor).value;
            down <= price < down + tick && (mark <= price ==> mark <= down)
  {
    var exact := price / tick;
    PriceInTicks(price, tick);
    FloorIsNext(exact, steps);
    if steps <= exact.Floor {
      Ordered(steps, exact.Floor);
    }
    WholeTicksBelow(exact, exact.Floor as real, steps as real, tick, price, RoundToTick(price, tick, Floor).value,
      mark);
  }

  lemma Negated(price: real, tick: real)
    requires tick > 0.0
    ensures (-price) / tick == -(price / tick)
  {
  }

  /** Ceil yields the smallest multiple of the tick that is not below the price. */
  lemma CeilsToTick(price: real, tick: real, steps: int, mark: real)
    requires tick > 0.0 && OnGrid(mark, tick, steps)
    ensures var up := RoundToTick(price, tick, Ceil).value;
            up - tick < price <= up && (price <= mark ==> up <= mark)
  {
    hide RoundToTick;
    OnNegatedGrid(mark, tick, steps);
    FloorsToTick(-price, tick, -steps, -mark);
    CeilIsNegatedFloor(price, tick);
  }

  lemma OnNegatedGrid(mark: real, tick: real, steps: int)
    requires tick > 0.0 && OnGrid(mark, tick, steps)
    ensures OnGrid(-mark, tick, -steps)
  {
    NegatedGrid(steps, tick);
  }

  lemma Rounds(price: real, tick: real, steps: real)
    requires tick > 0.0 && steps == price / tick
    ensures RoundToTick(price, tick, Floor) == Some(Grid(steps.Floor, tick))
    ensures RoundToTick(price, tick, Ceil) == Some(Grid(-((-steps).Floor), tick))
  {
    hide Grid;
  }

  /** Rounding up is rounding the negated price down. */
  lemma CeilIsNegatedFloor(price: real, tick: real)
    requires tick > 0.0
    ensures RoundToTick(price, tick, Ceil).value == -RoundToTick(-price, tick, Floor).value
  {
    hide RoundToTick, Grid;
    var steps := price / tick;
    var below := (-steps).Floor;
    Negated(price, tick);
    NegatedGrid(below, tick);
    Rounds(price, tick, steps);
    Rounds(-price, tick, -steps);
  }

  lemma NegatedGrid(steps: int, tick: real)
    ensures Grid(-steps, tick) == -Grid(steps, tick)
  {
  }

  // ---------------------------------------------------------------- units and nanos

  datatype Quotation = Quotation(units: int, nano: int)

  const BILLION: int := 1_000_000_000

  function TruncateOf(x: real): int {
    if x < 0.0 then -((-x).Floor) else x.Floor
  }

  function QuotationToDecimal(q: Quotation): real {
    q.units as real + q.nano as real / BILLION as real
  }

  function DecimalToQuotation(d: real): Quotation {
    var units := TruncateOf(d);
    var nano := RoundOf((d - units as real) * BILLION as real);
    if nano == BILLION then Quotation(units + 1, 0)
    else if nano == -BILLION then Quotation(units - 1, 0)
    else Quotation(units, nano)
  }

  /** The fields of a quotation fit the protocol and never disagree in sign. */
  predicate WellFormed(q: Quotation) {
    -BILLION < q.nano < BILLION && (q.units > 0 ==> q.nano >= 0) && (q.units < 0 ==> q.nano <= 0)
  }

  lemma NearestInteger(x: real)
    ensures -0.5 <= RoundOf(x) as real - x <= 0.5
  {
  }

  lemma FloorOfWhole(n: int, x: real)
    requires n as real == x
    ensures x.Floor == n
  {
  }

  lemma WholeRoundsToItself(x: real)
    ensures RoundOf(x) as real == x <==> x == x.Floor as real
  {
    if x == x.Floor as real {
      assert if x < 0.0 then (-x + 0.5).Floor == -x.Floor else (x + 0.5).Floor == x.Floor;
    } else if RoundOf(x) as real == x {
      FloorOfWhole(RoundOf(x), x);
    }
  }

  /** The fraction left after truncation, in nanos, and the decimal in nanos differ by a whole number. */
  lemma ShiftedWhole(x: real, n: int)
    ensures x + n as real == (x + n as real).Floor as real <==> x == x.Floor as real
  {
    assert (x + n as real).Floor == x.Floor + n;
  }

  /** Conversion keeps the value to within half a nano, and keeps it exactly when it has at most
      nine decimal places; the result never needs the range error. */
  lemma QuotationRoundTrip(d: real)
    ensures WellFormed(DecimalToQuotation(d))
    ensures var back := QuotationToDecimal(DecimalToQuotation(d));
            -0.5 <= (back - d) * BILLION as real <= 0.5
    ensures QuotationToDecimal(DecimalToQuotation(d)) == d
            <==> d * BILLION as real == (d * BILLION as real).Floor as real
  {
    var units := TruncateOf(d);
    var scaled := (d - units as real) * BILLION as real;
    NearestInteger(scaled);
    WholeRoundsToItself(scaled);
    ShiftedWhole(scaled, units * BILLION);
    var back := QuotationToDecimal(DecimalToQuotation(d));
    assert back * 1000000000.0 == (units * BILLION) as real + RoundOf(scaled) as real;
    assert d * 1000000000.0 == scaled + (units * BILLION) as real;
  }

  lemma DecimalRoundTrip(q: Quotation)
    requires WellFormed(q)
    ensures DecimalToQuotation(QuotationToDecimal(q)) == q
  {
    var d := QuotationToDecimal(q);
    assert TruncateOf(d) == q.units;
    assert (d - q.units as real) * BILLION as real == q.nano as real;
  }
}
