/** The paper broker: orders are filled against the best price of a real order book whenever their
    state is asked for, and every fill is written down as an operation. */
module Paper {
  import opened Arithmetic
  import opened RawState
  import opened Domain
  import opened Fills
  import opened Ledger
  import OverExecution

  datatype PaperOrder = PaperOrder(side: Side, limit: real, quantity: int, filled: int, avg: real, status: Status)

  datatype Level = Level(price: real, lots: int)

  datatype Market = Market(bids: seq<Level>, asks: seq<Level>)

  datatype Operation = Operation(order: ClientId, side: Side, payment: real)

  /** The best level of the other side, if the limit price reaches it. */
  function FillLevel(order: PaperOrder, market: Market): Option<Level> {
    match order.side
    case Buy =>
      if market.asks != [] && market.asks[0].price > 0.0 && order.limit >= market.asks[0].price
      then Some(market.asks[0]) else None
    case Sell =>
      if market.bids != [] && market.bids[0].price > 0.0 && order.limit <= market.bids[0].price
      then Some(market.bids[0]) else None
  }

  function WeightedAvg(avg: real, lots: int, price: real, more: int): real {
    if lots <= 0 then price
    else if lots + more <= 0 then 0.0
    else (avg * lots as real + price * more as real) / (lots + more) as real
  }

  // ---------------------------------------------------------------- what the broker keeps

  /** The price paid or got is never worse than the limit. */
  predicate WithinLimit(order: PaperOrder) {
    order.filled > 0 ==>
      order.avg > 0.0 && if order.side.Buy? then order.avg <= order.limit else order.limit <= order.avg
  }

  predicate Proper(order: PaperOrder) {
    0 <= order.filled <= order.quantity && WithinLimit(order)
  }

  function Signed(side: Side, amount: real): real {
    if side.Buy? then -amount else amount
  }

  /** Everything paid for, or got for, one order. */
  function Paid(operations: seq<Operation>, id: ClientId): real {
    if operations == [] then 0.0
    else
      var last := operations[|operations| - 1];
      Paid(operations[..|operations| - 1], id) + if last.order == id then last.payment else 0.0
  }

  predicate Settled(operations: seq<Operation>, id: ClientId, order: PaperOrder) {
    Paid(operations, id) == Signed(order.side, order.avg * order.filled as real)
  }

  lemma PaidMore(operations: seq<Operation>, operation: Operation, id: ClientId)
    ensures Paid(operations + [operation], id)
            == Paid(operations, id) + if operation.order == id then operation.payment else 0.0
  {
    assert (operations + [operation])[..|operations|] == operations;
  }

  lemma AveragesTimes(avg: real, lots: int, price: real, more: int)
    requires 0 <= lots && 0 < more
    ensures WeightedAvg(avg, lots, price, more) * (lots + more) as real == avg * lots as real + price * more as real
  {
    if lots > 0 {
      QuotientTimes(avg * lots as real + price * more as real, lots + more);
    } else {
      TimesNothing(avg, lots);
    }
  }

  /** An average stays between any bounds its parts keep. */
  lemma AverageBetween(avg: real, lots: int, price: real, more: int, bound: real)
    requires 0 <= lots && 0 < more
    ensures price <= bound && (lots > 0 ==> avg <= bound) ==> WeightedAvg(avg, lots, price, more) <= bound
    ensures price >= bound && (lots > 0 ==> avg >= bound) ==> WeightedAvg(avg, lots, price, more) >= bound
  {
    if lots > 0 {
      AveragesTimes(avg, lots, price, more);
      Bounded(avg, lots, price, more, WeightedAvg(avg, lots, price, more), bound);
    }
  }

  lemma Bounded(avg: real, lots: int, price: real, more: int, mean: real, bound: real)
    requires 0 < lots && 0 < more && mean * (lots + more) as real == avg * lots as real + price * more as real
    ensures price <= bound && avg <= bound ==> mean <= bound
    ensures price >= bound && avg >= bound ==> mean >= bound
  {
    var m, n := lots as real, more as real;
    assert mean * (m + n) == avg * m + price * n;
    assert (mean - bound) * (m + n) == (avg - bound) * m + (price - bound) * n;
    Sign(mean - bound, m + n);
    Sign(avg - bound, m);
    Sign(price - bound, n);
  }

  lemma Sign(x: real, n: real)
    requires n > 0.0
    ensures x <= 0.0 <==> x * n <= 0.0
    ensures x >= 0.0 <==> x * n >= 0.0
  {
  }

  /** A fill of at most what is left, at a price within the limit. */
  function AfterFill(order: PaperOrder, lots: int, price: real): PaperOrder {
    var filled := order.filled + lots;
    order.(avg := WeightedAvg(order.avg, order.filled, price, lots), filled := filled,
           status := if filled >= order.quantity then Filled else PartiallyFilled)
  }

  lemma FillIsProper(order: PaperOrder, lots: int, price: real)
    requires Proper(order) && 0 < lots <= order.quantity - order.filled && price > 0.0
    requires if order.side.Buy? then price <= order.limit else order.limit <= price
    ensures Proper(AfterFill(order, lots, price))
    ensures AfterFill(order, lots, price).avg * (order.filled + lots) as real ==
      order.avg * order.filled as real + price * lots as real
    ensures price * lots as real > 0.0
  {
    AveragesTimes(order.avg, order.filled, price, lots);
    AverageBetween(order.avg, order.filled, price, lots, order.limit);
    AverageIsPositive(order.avg, order.filled, price, lots);
    PositiveTimes(price, lots);
  }

  lemma AverageIsPositive(avg: real, lots: int, price: real, more: int)
    requires 0 <= lots && 0 < more && price > 0.0 && (lots > 0 ==> avg > 0.0)
    ensures WeightedAvg(avg, lots, price, more) > 0.0
  {
    if lots > 0 {
      PositiveTimes(avg, lots);
      PositiveTimes(price, more);
      AveragesTimes(avg, lots, price, more);
      PositiveTimes(WeightedAvg(avg, lots, price, more), lots + more);
    }
  }

  /** How many lots an order gets from a market. */
  function FillLots(order: PaperOrder, market: Market): nat {
    var level := FillLevel(order, market);
    if IsTerminal(order.status) || order.filled >= order.quantity || level.None? || level.value.lots <= 0 then 0
    else if order.quantity - order.filled < level.value.lots then order.quantity - order.filled
    else level.value.lots
  }

  function Simulated(order: PaperOrder, market: Market): PaperOrder {
    if FillLots(order, market) == 0 then order
    else AfterFill(order, FillLots(order, market), FillLevel(order, market).value.price)
  }

  /** An order that is not over is filled at once as far as the best level of the other side goes, and
      gets nothing if and only if that level is out of reach or empty. */
  lemma SimulatedFills(order: PaperOrder, market: Market)
    requires Proper(order) && !IsTerminal(order.status) && order.filled < order.quantity
    ensures
      var other := if order.side.Buy? then market.asks else market.bids;
      var reached := other != [] && other[0].price > 0.0 && other[0].lots > 0
                     && if order.side.Buy? then other[0].price <= order.limit else order.limit <= other[0].price;
      var after := Simulated(order, market);
      && (after == order <==> !reached)
      && (reached ==>
            && (after.status == Filled <==> order.filled + other[0].lots >= order.quantity)
            && after.filled == (if after.status == Filled then order.quantity else order.filled + other[0].lots)
            && after.avg * after.filled as real ==
                 order.avg * order.filled as real + other[0].price * (after.filled - order.filled) as real)
  {
    if FillLots(order, market) > 0 {
      FillIsProper(order, FillLots(order, market), FillLevel(order, market).value.price);
    }
  }

  // ---------------------------------------------------------------- the broker's books

  type Orders = map<ClientId, PaperOrder>

  /** Every order listed once, monotone, bounded and paid for. */
  ghost predicate Kept(ids: seq<ClientId>, orders: Orders, operations: seq<Operation>) {
    && (forall i, j :: 0 <= i < j < |ids| ==> ids[i] != ids[j])
    && (forall id :: id in orders <==> id in ids)
    && (forall id :: id in orders ==> Proper(orders[id]) && Settled(operations, id, orders[id]))
    && (forall k :: 0 <= k < |operations| ==> operations[k].order in orders)
  }

  function Listed(id: ClientId, order: PaperOrder): BrokerOrder {
    BrokerOrder(id, order.limit, order.quantity, order.filled, order.avg, 0.0, order.status, ZERO)
  }

  /** The paper broker's orders as the book the execution engine's contract speaks of. */
  ghost function BookOf(ids: seq<ClientId>, orders: Orders): Book
    requires forall i :: 0 <= i < |ids| ==> ids[i] in orders
  {
    seq(|ids|, i requires 0 <= i < |ids| => Listed(ids[i], orders[ids[i]]))
  }

  lemma KeptIsListed(ids: seq<ClientId>, orders: Orders, operations: seq<Operation>)
    requires Kept(ids, orders, operations)
    ensures forall i :: 0 <= i < |ids| ==> ids[i] in orders
  {
    assert forall i :: 0 <= i < |ids| ==> ids[i] in ids;
  }

  /** Chains of the paper broker never execute more than was ordered. */
  lemma PaperNeverOverExecutes(ids: seq<ClientId>, orders: Orders, operations: seq<Operation>, later: Book, rows: Rows,
      chain: Chain, quantity: int)
    requires Kept(ids, orders, operations)
    requires forall i :: 0 <= i < |ids| ==> ids[i] in orders
    requires WithinOrder(BookOf(ids, orders), rows, chain, quantity)
    requires Evolved(BookOf(ids, orders), later) && |later| == |ids|
    ensures Total(later, rows, chain, Executed).lots <= quantity
  {
    OverExecution.NeverMoreThanOrdered(BookOf(ids, orders), later, rows, chain, quantity);
  }

  lemma {:induction false} NeverPaid(operations: seq<Operation>, id: ClientId)
    requires forall k :: 0 <= k < |operations| ==> operations[k].order != id
    ensures Paid(operations, id) == 0.0
  {
    if operations != [] {
      NeverPaid(operations[..|operations| - 1], id);
    }
  }

  lemma PostSettles(operations: seq<Operation>, orders: Orders, id: ClientId, order: PaperOrder)
    requires id !in orders && order.filled == 0 && forall k :: 0 <= k < |operations| ==> operations[k].order in orders
    ensures Settled(operations, id, order)
  {
    NeverPaid(operations, id);
    TimesNothing(order.avg, order.filled);
  }

  lemma PostKeeps(ids: seq<ClientId>, orders: Orders, operations: seq<Operation>, id: ClientId, order: PaperOrder)
    requires Kept(ids, orders, operations) && id !in orders && Proper(order) && order.filled == 0
    ensures Kept(ids + [id], orders[id := order], operations)
    ensures BookOf(ids + [id], orders[id := order]) == BookOf(ids, orders) + [Listed(id, order)]
  {
    hide Settled, Proper;
    PostSettles(operations, orders, id, order);
    forall i, j | 0 <= i < j < |ids + [id]| ensures (ids + [id])[i] != (ids + [id])[j] {
      assert ids[i] in ids;
    }
  }

  /** A fresh record under an old id keeps the books right if and only if nothing was paid for the old one. */
  lemma RepostKeepsIff(ids: seq<ClientId>, orders: Orders, operations: seq<Operation>, id: ClientId, order: PaperOrder)
    requires Kept(ids, orders, operations) && id in orders && Proper(order) && order.filled == 0
    ensures Kept(ids, orders[id := order], operations) <==> Paid(operations, id) == 0.0
  {
    hide Paid, Proper;
    TimesNothing(order.avg, order.filled);
    assert Settled(operations, id, order) <==> Paid(operations, id) == 0.0;
  }

  /** An order whose record moves the way the contract allows moves the whole book that way. */
  lemma MoveKeeps(ids: seq<ClientId>, orders: Orders, operations: seq<Operation>, id: ClientId, order: PaperOrder)
    requires Kept(ids, orders, operations) && id in orders
    requires Honours(Listed(id, orders[id]), Listed(id, order))
    ensures forall i :: 0 <= i < |ids| ==> ids[i] in orders
    ensures Evolved(BookOf(ids, orders), BookOf(ids, orders[id := order]))
  {
    KeptIsListed(ids, orders, operations);
    var before, after := BookOf(ids, orders), BookOf(ids, orders[id := order]);
    forall i | 0 <= i < |ids| ensures Honours(before[i], after[i]) {
      if ids[i] != id {
        assert Proper(orders[ids[i]]);
      }
    }
  }

  lemma CancelKeeps(ids: seq<ClientId>, orders: Orders, operations: seq<Operation>, id: ClientId)
    requires Kept(ids, orders, operations) && id in orders
    ensures var order := orders[id].(status := Cancelled);
            Kept(ids, orders[id := order], operations) && Honours(Listed(id, orders[id]), Listed(id, order))
  {
    hide Proper, Settled, Honours;
    CancelIsProper(orders[id], operations, id);
  }

  lemma CancelIsProper(order: PaperOrder, operations: seq<Operation>, id: ClientId)
    requires Proper(order) && Settled(operations, id, order)
    ensures Proper(order.(status := Cancelled)) && Settled(operations, id, order.(status := Cancelled))
    ensures Honours(Listed(id, order), Listed(id, order.(status := Cancelled)))
  {
    hide Paid;
  }

  predicate Fillable(order: PaperOrder, lots: int, price: real) {
    && !IsTerminal(order.status) && 0 < lots <= order.quantity - order.filled && price > 0.0
    && if order.side.Buy? then price <= order.limit else order.limit <= price
  }

  function Booking(id: ClientId, order: PaperOrder, lots: int, price: real): Operation {
    Operation(id, order.side, Signed(order.side, price * lots as real))
  }

  lemma FillHonours(id: ClientId, order: PaperOrder, lots: int, price: real)
    requires Proper(order) && Fillable(order, lots, price)
    ensures Honours(Listed(id, order), Listed(id, AfterFill(order, lots, price)))
  {
    hide WeightedAvg;
    FillIsProper(order, lots, price);
  }

  lemma FillSettles(operations: seq<Operation>, id: ClientId, order: PaperOrder, lots: int, price: real)
    requires Proper(order) && Fillable(order, lots, price) && Settled(operations, id, order)
    ensures Settled(operations + [Booking(id, order, lots, price)], id, AfterFill(order, lots, price))
  {
    hide WeightedAvg, Proper;
    FillIsProper(order, lots, price);
    PaidMore(operations, Booking(id, order, lots, price), id);
  }

  lemma FillKeeps(ids: seq<ClientId>, orders: Orders, operations: seq<Operation>, id: ClientId, lots: int, price: real)
    requires Kept(ids, orders, operations) && id in orders && Fillable(orders[id], lots, price)
    ensures Kept(ids, orders[id := AfterFill(orders[id], lots, price)],
        operations + [Booking(id, orders[id], lots, price)])
    ensures Honours(Listed(id, orders[id]), Listed(id, AfterFill(orders[id], lots, price)))
  {
    hide AfterFill, Settled, Honours, Fillable, WithinLimit;
    var order, operation := AfterFill(orders[id], lots, price), Booking(id, orders[id], lots, price);
    FillHonours(id, orders[id], lots, price);
    FillSettles(operations, id, orders[id], lots, price);
    FillStaysProper(orders[id], lots, price);
    forall other | other in orders ensures Settled(operations + [operation], other, orders[id := order][other]) {
      if other != id {
        assert Settled(operations, other, orders[other]);
        SettledStill(operations, operation, other, orders[other]);
      }
    }
  }

  lemma FillStaysProper(order: PaperOrder, lots: int, price: real)
    requires Proper(order) && Fillable(order, lots, price)
    ensures Proper(AfterFill(order, lots, price))
  {
    FillIsProper(order, lots, price);
  }

  lemma SettledStill(operations: seq<Operation>, operation: Operation, id: ClientId, order: PaperOrder)
    requires Settled(operations, id, order) && operation.order != id
    ensures Settled(operations + [operation], id, order)
  {
    PaidMore(operations, operation, id);
  }

  /** Posting an id again replaces its record by a fresh one. That is a move the contract allows if and
      only if the old order was neither filled at all nor over, and asked for as many lots at that price. */
  lemma DuplicatePostIff(id: ClientId, order: PaperOrder, lots: nat, limit: real)
    requires Proper(order)
    ensures Honours(Listed(id, order), Listed(id, PaperOrder(order.side, limit, lots, 0, 0.0, Sent)))
            <==> order.filled == 0 && !IsTerminal(order.status) && order.quantity == lots && order.limit == limit
  {
    TimesNothing(0.0, 0);
    if order.filled == 0 {
      TimesNothing(order.avg, order.filled);
    }
  }

  // ---------------------------------------------------------------- the broker

  function Operated(operations: seq<Operation>, id: ClientId, order: PaperOrder, market: Market): seq<Operation> {
    if FillLots(order, market) == 0 then operations
    else operations + [Booking(id, order, FillLots(order, market), FillLevel(order, market).value.price)]
  }

  /** A fill is paid for at the best price of the other side: cash goes out for a buy and comes in for a sale. */
  lemma FillIsPaid(operations: seq<Operation>, id: ClientId, order: PaperOrder, market: Market)
    ensures FillLots(order, market) == 0 ==> Operated(operations, id, order, market) == operations
    ensures FillLots(order, market) > 0 ==>
      var price := if order.side.Buy? then market.asks[0].price else market.bids[0].price;
      var paid := Booking(id, order, FillLots(order, market), price);
      && Operated(operations, id, order, market) == operations + [paid]
      && paid.order == id && paid.side == order.side
      && (order.side.Sell? ==> 0.0 < paid.payment == price * FillLots(order, market) as real)
      && (order.side.Buy? ==> 0.0 > paid.payment == 0.0 - price * FillLots(order, market) as real)
  {
    if FillLots(order, market) > 0 {
      var price := if order.side.Buy? then market.asks[0].price else market.bids[0].price;
      assert FillLevel(order, market).value.price == price;
      PositiveTimes(price, FillLots(order, market));
    }
  }

  /** The book shows what the paper broker keeps, free of commission and acknowledged empty. */
  lemma BookShows(ids: seq<ClientId>, orders: Orders, i: nat)
    requires (forall i :: 0 <= i < |ids| ==> ids[i] in orders) && i < |ids|
    ensures
      var listed, order := BookOf(ids, orders)[i], orders[ids[i]];
      && listed.client == ids[i] && listed.limit == order.limit && listed.quantity == order.quantity
      && listed.filled == order.filled && listed.avg == order.avg && listed.status == order.status
      && listed.commission == 0.0 && listed.ack == ZERO
  {
  }

  class PaperBroker {
    var ids: seq<ClientId>
    var orders: Orders
    var operations: seq<Operation>

    constructor ()
      ensures Valid() && ids == [] && orders == map[] && operations == []
    {
      ids, orders, operations := [], map[], [];
    }

    ghost predicate Valid()
      reads this
    {
      Kept(ids, orders, operations)
    }

    ghost function AsBook(): Book
      reads this
      requires Valid()
    {
      KeptIsListed(ids, orders, operations);
      BookOf(ids, orders)
    }

    /** A new id joins the book with nothing executed. An id that is posted again loses its old record;
        its operations stay, so the books are right only if they came to nothing. */
    method PostLimitOrder(id: ClientId, side: Side, lots: int, limit: real) returns (order: PaperOrder)
      requires Valid() && 0 <= lots
      modifies this
      ensures order == PaperOrder(side, limit, lots, 0, 0.0, Sent) && operations == old(operations)
      ensures orders == old(orders)[id := order]
      ensures id !in old(orders) ==> Valid() && AsBook() == old(AsBook()) + [Listed(id, order)]
      ensures id in old(orders) ==> ids == old(ids) && (Valid() <==> Paid(operations, id) == 0.0)
    {
      hide Kept, BookOf;
      order := PaperOrder(side, limit, lots, 0, 0.0, Sent);
      if id !in orders {
        PostKeeps(ids, orders, operations, id, order);
        ids := ids + [id];
      } else {
        RepostKeepsIff(ids, orders, operations, id, order);
      }
      orders := orders[id := order];
    }

    /** Cancels whatever is there, also an order that is already filled. */
    method CancelOrder(id: ClientId) returns (ok: bool)
      requires Valid()
      modifies this
      ensures Valid() && ok == (id in old(orders)) && operations == old(operations)
      ensures Evolved(old(AsBook()), AsBook()) && ids == old(ids)
      ensures orders == if ok then old(orders)[id := old(orders)[id].(status := Cancelled)] else old(orders)
    {
      hide Kept, BookOf, Evolved;
      Still(ids, orders, operations);
      ok := id in orders;
      if ok {
        CancelKeeps(ids, orders, operations, id);
        MoveKeeps(ids, orders, operations, id, orders[id].(status := Cancelled));
        orders := orders[id := orders[id].(status := Cancelled)];
      }
    }

    /** Asking for an order's state is what fills it. */
    method GetOrderState(id: ClientId, market: Option<Market>) returns (state: Option<PaperOrder>)
      requires Valid()
      modifies this
      ensures Valid() && Evolved(old(AsBook()), AsBook()) && ids == old(ids)
      ensures state.Some? ==> id in orders && state.value == orders[id]
      ensures state.Some? <==> id in old(orders) && (market.Some? || IsTerminal(old(orders)[id].status))
      ensures orders ==
        if id in old(orders) && market.Some? then old(orders)[id := Simulated(old(orders)[id], market.value)]
          else old(orders)
      ensures operations ==
        if id in old(orders) && market.Some? then Operated(old(operations), id, old(orders)[id], market.value)
          else old(operations)
    {
      hide Kept, BookOf, Evolved;
      Still(ids, orders, operations);
      state := None;
      if id !in orders {
        return;
      }
      if IsTerminal(orders[id].status) {
        return Some(orders[id]);
      }
      if market.None? {
        return;
      }
      SimulateOrderBookFill(id, market.value);
      state := Some(orders[id]);
    }

    method SimulateOrderBookFill(id: ClientId, market: Market)
      requires Valid() && id in orders
      modifies this
      ensures Valid() && Evolved(old(AsBook()), AsBook()) && ids == old(ids)
      ensures orders == old(orders)[id := Simulated(old(orders)[id], market)]
      ensures operations == Operated(old(operations), id, old(orders)[id], market)
    {
      hide Kept, BookOf, Evolved;
      Still(ids, orders, operations);
      var order := orders[id];
      if IsTerminal(order.status) || order.filled >= order.quantity {
        return;
      }
      var level := FillLevel(order, market);
      if level.None? || level.value.lots <= 0 {
        return;
      }
      var remaining := order.quantity - order.filled;
      var lots := if remaining < level.value.lots then remaining else level.value.lots;
      FillKeeps(ids, orders, operations, id, lots, level.value.price);
      MoveKeeps(ids, orders, operations, id, AfterFill(order, lots, level.value.price));
      orders := orders[id := AfterFill(order, lots, level.value.price)];
      operations := operations + [Booking(id, order, lots, level.value.price)];
    }
  }

  lemma Still(ids: seq<ClientId>, orders: Orders, operations: seq<Operation>)
    requires Kept(ids, orders, operations)
    ensures forall i :: 0 <= i < |ids| ==> ids[i] in orders
    ensures Evolved(BookOf(ids, orders), BookOf(ids, orders))
  {
    KeptIsListed(ids, orders, operations);
    forall i | 0 <= i < |ids| ensures BookOf(ids, orders)[i].Sound() {
      assert Proper(orders[ids[i]]);
    }
    EvolvedReflexive(BookOf(ids, orders));
  }
}
