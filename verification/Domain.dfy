/** The values every other module speaks about: orders, their statuses and identities, and the
    triple (lots, value, commission) in which fills are counted. */
module Domain {
  import opened RawState

  datatype Side = Buy | Sell

  datatype Status = New | Sent | PartiallyFilled | Filled | Cancelled | Rejected | Expired | Failed

  predicate IsTerminal(status: Status) {
    status in {Filled, Cancelled, Rejected, Expired, Failed}
  }

  predicate IsActive(status: Status) {
    status in {New, Sent, PartiallyFilled}
  }

  /** An order is either over or active, whatever its status. */
  lemma OverOrActive(status: Status)
    ensures IsTerminal(status) <==> !IsActive(status)
    ensures IsActive(status) <==> status == New || status == Sent || status == PartiallyFilled
  {
  }

  /** A client order id is a digest of these four values; the digest is taken to be injective. */
  datatype ClientId = ClientId(date: int, instrument: string, side: Side, attempt: int)

  /** What all attempts of one cancel/replace chain share. */
  datatype Chain = Chain(date: int, instrument: string, side: Side)

  function ChainOf(id: ClientId): Chain {
    Chain(id.date, id.instrument, id.side)
  }

  /** The broker's own order number; the empty string of a draft is NoId. */
  datatype BrokerId = NoId | Id(number: nat)

  /** What the broker answers about one order. */
  datatype Report = Report(broker: BrokerId, filled: int, avg: real, status: Status, commission: real, raw: Raw)

  /** An acknowledged post: what was asked for, and the answer. */
  datatype Ack = Ack(client: ClientId, quantity: int, limit: real, report: Report)

  /** What the broker said: the state of an order, yes to a cancel, or yes to a post. */
  datatype Event = StateAnswered(report: Report) | CancelAnswered(order: BrokerId) | PostAnswered(ack: Ack)

  datatype Order = Order(
    client: ClientId, broker: BrokerId, limit: real, quantity: int, filled: int, avg: real,
    status: Status, commission: real, raw: Raw, created: int)

  /** Two observations of one order: its identity and terms are the same. */
  ghost predicate SameOrder(a: Order, b: Order) {
    b == a.(filled := b.filled, avg := b.avg, status := b.status, commission := b.commission, raw := b.raw)
  }

  lemma SameOrderReflexive(order: Order)
    ensures SameOrder(order, order)
  {
  }

  lemma SameOrderMeans(a: Order, b: Order)
    requires SameOrder(a, b)
    ensures a.client == b.client && a.broker == b.broker && a.limit == b.limit && a.quantity == b.quantity
    ensures a.created == b.created
  {
  }

  lemma SameOrderOnwards(a: Order, b: Order, c: Order)
    requires SameOrder(a, b) && SameOrder(b, c)
    ensures SameOrder(a, c) && forall status, raw :: SameOrder(a, c.(status := status, raw := raw))
  {
  }

  datatype Fill = Fill(lots: int, value: real, commission: real) {
    function Plus(other: Fill): Fill {
      Fill(lots + other.lots, value + other.value, commission + other.commission)
    }

    function Minus(other: Fill): Fill {
      Fill(lots - other.lots, value - other.value, commission - other.commission)
    }
  }

  const ZERO := Fill(0, 0.0, 0.0)

  lemma PlusMinus(a: Fill, b: Fill)
    ensures a.Plus(b).Minus(b) == a && a.Minus(a) == ZERO && a.Plus(b) == b.Plus(a)
    ensures a.Plus(ZERO) == a == a.Minus(ZERO)
  {
  }

  function Value(order: Order): real {
    order.avg * order.filled as real
  }

  function FillOf(order: Order): Fill {
    Fill(order.filled, Value(order), order.commission)
  }

  function Reported(report: Report): Fill {
    Fill(report.filled, report.avg * report.filled as real, report.commission)
  }

  /** Observation `later` of an order adds to `earlier` the way a broker that honours its contract
      reports: lots and commission never shrink, and the value grows exactly when the lots do. */
  predicate Advances(earlier: Fill, later: Fill) {
    && earlier.commission <= later.commission
    && (|| (earlier.lots == later.lots && earlier.value == later.value)
        || (earlier.lots < later.lots && earlier.value < later.value))
  }
}
