/** Positions: entry fills open and grow them, exit fills close them and book their profit. */
module Positions {
  import opened Arithmetic
  import opened RawState
  import opened Domain
  import opened Fills

  datatype PositionStatus =
    | NoPosition | EntrySignalled | EntryOrderSent | EntryPartiallyFilled | EntryFilled | HoldingOvernight
    | ExitOrderSent | ExitPartiallyFilled | ExitFilled | ExitFailed | Quarantine

  datatype Position = Position(
    instrument: string, openDate: int, lots: int, lotSize: int, exitLots: int, avgBuy: real, avgSell: real,
    status: PositionStatus, gross: real, net: real, commission: real, edgeBps: real,
    openedAt: Option<int>, closedAt: Option<int>, updated: int)

  datatype PositionError = Booked | StoreUnavailable | ExitFillExceedsLots

  /** Statuses in which a further entry fill joins the position. */
  predicate TakesEntryFills(status: PositionStatus) {
    status in {EntrySignalled, EntryOrderSent, EntryPartiallyFilled, EntryFilled, HoldingOvernight}
  }

  /** A position takes entry fills from its signal until its exit order is out. */
  lemma EntryFillsUntilExit(status: PositionStatus)
    ensures TakesEntryFills(status) <==>
            status !in {NoPosition, ExitOrderSent, ExitPartiallyFilled, ExitFilled, ExitFailed, Quarantine}
  {
  }

  predicate IsEntryOf(position: Position, chain: Chain) {
    position.openDate == chain.date && position.instrument == chain.instrument && TakesEntryFills(position.status)
  }

  function Clamp(n: int): nat {
    if n < 0 then 0 else n
  }

  /** What a position holds, counted like a fill. */
  function Bought(position: Position): Fill {
    Fill(position.lots, position.avgBuy * position.lots as real, position.commission)
  }

  /** What an execution report brings in; without an average price the limit price stands in. */
  function EntryFillOf(order: Order): Fill {
    var price := if order.avg > 0.0 then order.avg else order.limit;
    Fill(Clamp(order.filled), price * Clamp(order.filled) as real, order.commission)
  }

  // ---------------------------------------------------------------- sales

  datatype Sale = Sale(lots: nat, avg: real, commission: real, at: int)

  function SaleOf(order: Order, at: int): Sale {
    Sale(Clamp(order.filled), order.avg, order.commission, at)
  }

  function UnitsPerLot(position: Position): int {
    if position.lotSize <= 0 then 1 else position.lotSize
  }

  function EdgeBps(net: real, avgBuy: real, lots: int, units: int): real {
    var base := avgBuy * lots as real * units as real;
    if base > 0.0 then net / base * 10000.0 else 0.0
  }

  function Average(avg: real, lots: int, price: real, more: int): real {
    if more > 0 && lots + more != 0 then (avg * lots as real + price * more as real) / (lots + more) as real else avg
  }

  function Gain(price: real, bought: real, lots: int, units: int): real {
    (price - bought) * (lots * units) as real
  }

  /** The position after a sale. A sale of more than the position holds changes nothing. */
  function Sold(position: Position, sale: Sale): Position {
    if sale.lots > position.lots then position
    else
      var units := UnitsPerLot(position);
      var exitLots, left := position.exitLots + sale.lots, position.lots - sale.lots;
      var commission := position.commission + sale.commission;
      var gross := position.gross + Gain(sale.avg, position.avgBuy, sale.lots, units);
      var baseLots := if exitLots <= 0 then position.lots else exitLots;
      position.(
        lots := left, exitLots := exitLots,
        avgSell := Average(position.avgSell, position.exitLots, sale.avg, sale.lots),
        commission := commission, gross := gross, net := gross - commission,
        edgeBps := if position.avgBuy > 0.0 then EdgeBps(gross - commission, position.avgBuy, baseLots, units)
                   else position.edgeBps,
        status := if left > 0 then ExitPartiallyFilled else ExitFilled,
        closedAt := if left > 0 then None else Some(sale.at), updated := sale.at)
  }

  function SoldAll(position: Position, sales: seq<Sale>): Position {
    if sales == [] then position
    else Sold(SoldAll(position, sales[..|sales| - 1]), sales[|sales| - 1])
  }

  /** None of the sales exceeds what is left when it arrives. */
  predicate Accepted(position: Position, sales: seq<Sale>) {
    forall k :: 0 <= k < |sales| ==> sales[k].lots <= SoldAll(position, sales[..k]).lots
  }

  function Lots(sales: seq<Sale>): nat {
    if sales == [] then 0 else Lots(sales[..|sales| - 1]) + sales[|sales| - 1].lots
  }

  function Proceeds(sales: seq<Sale>): real {
    if sales == [] then 0.0
    else Proceeds(sales[..|sales| - 1]) + sales[|sales| - 1].avg * sales[|sales| - 1].lots as real
  }

  function Commission(sales: seq<Sale>): real {
    if sales == [] then 0.0 else Commission(sales[..|sales| - 1]) + sales[|sales| - 1].commission
  }

  /** One sale of the same lots, proceeds and commission, at the time of the last. */
  function Combined(sales: seq<Sale>): Sale {
    Sale(Lots(sales), if Lots(sales) == 0 then 0.0 else Proceeds(sales) / Lots(sales) as real, Commission(sales),
         if sales == [] then 0 else sales[|sales| - 1].at)
  }

  // ---------------------------------------------------------------- profit does not depend on the path

  lemma GainsAdd(first: real, second: real, both: real, bought: real, m: int, n: int, units: int)
    requires both * (m + n) as real == first * m as real + second * n as real
    ensures Gain(first, bought, m, units) + Gain(second, bought, n, units) == Gain(both, bought, m + n, units)
  {
    var x, y, u := m as real, n as real, units as real;
    assert (m * units) as real == x * u && (n * units) as real == y * u && ((m + n) * units) as real == (x + y) * u;
    calc {
      (first - bought) * (x * u) + (second - bought) * (y * u);
      (first * x + second * y - bought * (x + y)) * u;
      (both - bought) * ((x + y) * u);
    }
  }

  lemma AverageTimes(avg: real, lots: int, price: real, more: int)
    requires 0 <= lots && 0 <= more
    ensures Average(avg, lots, price, more) * (lots + more) as real == avg * lots as real + price * more as real
  {
    if more > 0 {
      QuotientTimes(avg * lots as real + price * more as real, lots + more);
    } else {
      assert price * more as real == 0.0;
    }
  }

  lemma AveragesMerge(avg: real, lots: int, first: real, m: int, second: real, n: int, both: real)
    requires 0 <= lots && 0 <= m && 0 <= n
    requires both * (m + n) as real == first * m as real + second * n as real
    ensures Average(Average(avg, lots, first, m), lots + m, second, n) == Average(avg, lots, both, m + n)
  {
    AverageTimes(avg, lots, first, m);
  }

  /** Two sales in a row leave the same record as one sale of both. */
  lemma TwoSalesAreOne(position: Position, first: Sale, second: Sale, both: Sale)
    requires 0 <= position.exitLots && first.lots + second.lots <= position.lots
    requires both.lots == first.lots + second.lots && both.commission == first.commission + second.commission
      && both.at == second.at
    requires both.avg * both.lots as real == first.avg * first.lots as real + second.avg * second.lots as real
    ensures Sold(Sold(position, first), second) == Sold(position, both)
  {
    hide EdgeBps, Gain, Average;
    GainsAdd(first.avg, second.avg, both.avg, position.avgBuy, first.lots, second.lots, UnitsPerLot(position));
    AveragesMerge(position.avgSell, position.exitLots, first.avg, first.lots, second.avg, second.lots, both.avg);
  }

  lemma {:induction false} SoldAllLots(position: Position, sales: seq<Sale>)
    requires Accepted(position, sales)
    ensures SoldAll(position, sales).lots == position.lots - Lots(sales)
    ensures SoldAll(position, sales).exitLots == position.exitLots + Lots(sales)
  {
    if sales != [] {
      AcceptedBefore(position, sales);
      SoldAllLots(position, sales[..|sales| - 1]);
    }
  }

  lemma AcceptedBefore(position: Position, sales: seq<Sale>)
    requires sales != []
    ensures var before := sales[..|sales| - 1];
            Accepted(position, sales) <==>
            (Accepted(position, before) && sales[|sales| - 1].lots <= SoldAll(position, before).lots)
  {
    hide Sold, SoldAll;
    var before := sales[..|sales| - 1];
    assert forall k :: 0 <= k < |before| ==> sales[..k] == before[..k] && sales[k] == before[k];
  }

  lemma AcceptedFits(position: Position, sales: seq<Sale>)
    requires Accepted(position, sales) && sales != []
    ensures Lots(sales) <= position.lots
  {
    AcceptedBefore(position, sales);
    SoldAllLots(position, sales[..|sales| - 1]);
  }

  /** A run of sales goes through to the end exactly when it does not sell more than is held. */
  lemma {:induction false} AcceptedIffEnough(position: Position, sales: seq<Sale>)
    requires 0 <= position.lots
    ensures Accepted(position, sales) <==> Lots(sales) <= position.lots
  {
    if sales != [] {
      var before := sales[..|sales| - 1];
      AcceptedBefore(position, sales);
      AcceptedIffEnough(position, before);
      if Accepted(position, before) {
        SoldAllLots(position, before);
      }
    }
  }

  /** Path independence: any accepted run of sales leaves, in every field, the record that one sale
      of the same lots, proceeds and commission would have left. */
  lemma {:induction false} PathIndependence(position: Position, sales: seq<Sale>)
    requires Accepted(position, sales) && sales != [] && 0 <= position.exitLots
    ensures SoldAll(position, sales) == Sold(position, Combined(sales))
  {
    hide Sold, Combined, Accepted;
    var before, last := sales[..|sales| - 1], sales[|sales| - 1];
    AcceptedBefore(position, sales);
    SoldAllLots(position, before);
    CombinedValue(sales);
    if before == [] {
      assert Lots(before) == 0 && Proceeds(before) == 0.0 && Commission(before) == 0.0;
      SaleRestated(position, last, Combined(sales));
    } else {
      PathIndependence(position, before);
      CombinedValue(before);
      TwoSalesAreOne(position, Combined(before), last, Combined(sales));
    }
  }

  lemma CombinedValue(sales: seq<Sale>)
    ensures Combined(sales).lots == Lots(sales) && Combined(sales).commission == Commission(sales)
    ensures sales != [] ==> Combined(sales).at == sales[|sales| - 1].at
    ensures Combined(sales).avg * Combined(sales).lots as real == Proceeds(sales)
  {
    NothingSold(sales);
    if Lots(sales) > 0 {
      QuotientTimes(Proceeds(sales), Lots(sales));
    }
  }

  lemma {:induction false} NothingSold(sales: seq<Sale>)
    ensures Lots(sales) == 0 ==> Proceeds(sales) == 0.0
  {
    if sales != [] {
      NothingSold(sales[..|sales| - 1]);
      if Lots(sales) == 0 {
        TimesNothing(sales[|sales| - 1].avg, sales[|sales| - 1].lots);
      }
    }
  }

  lemma SaleRestated(position: Position, a: Sale, b: Sale)
    requires a.lots == b.lots && a.commission == b.commission && a.at == b.at
      && a.avg * a.lots as real == b.avg * b.lots as real
    ensures Sold(position, a) == Sold(position, b)
  {
    if a.lots > 0 {
      assert a.avg == b.avg;
    }
  }

  /** The books of an accepted run: lots are conserved, gross profit is lot size times lots sold
      times the difference of the average prices, and net is gross less all commission. */
  lemma ProfitOfRun(position: Position, sales: seq<Sale>)
    requires Accepted(position, sales) && sales != []
    requires position.exitLots == 0 && position.gross == 0.0
    ensures
      var after := SoldAll(position, sales);
      && after.lots + after.exitLots == position.lots
      && after.exitLots == Lots(sales)
      && after.avgSell * after.exitLots as real == Proceeds(sales)
      && after.gross == (after.avgSell - position.avgBuy) * after.exitLots as real
                        * (if 0 < position.lotSize then position.lotSize else 1) as real
      && after.commission == position.commission + Commission(sales)
      && after.net == after.gross - after.commission
      && (after.status == ExitFilled <==> Lots(sales) == position.lots)
  {
    hide Sold, Combined, Accepted, SoldAll;
    PathIndependence(position, sales);
    AcceptedFits(position, sales);
    CombinedValue(sales);
    SoldBooks(position, Combined(sales));
  }

  lemma SoldBooks(position: Position, sale: Sale)
    requires sale.lots <= position.lots && position.exitLots == 0 && position.gross == 0.0
    ensures
      var after := Sold(position, sale);
      && after.lots + after.exitLots == position.lots
      && after.exitLots == sale.lots
      && after.avgSell * after.exitLots as real == sale.avg * sale.lots as real
      && after.gross == (after.avgSell - position.avgBuy) * after.exitLots as real
                        * (if 0 < position.lotSize then position.lotSize else 1) as real
      && after.commission == position.commission + sale.commission
      && after.net == after.gross - after.commission
      && (after.status == ExitFilled <==> sale.lots == position.lots)
  {
    hide EdgeBps, Gain, Average;
    AverageTimes(position.avgSell, 0, sale.avg, sale.lots);
    GainIs(sale.avg, position.avgBuy, sale.lots, UnitsPerLot(position));
    FirstAverage(position.avgSell, sale.avg, sale.lots);
  }

  /** What selling lots at a price does to the books, in the position's own lot size; a lot size that is
      not positive counts as one. The edge is the net profit in basis points of what the lots had cost. */
  ghost predicate BooksSale(given: Position, after: Position, lots: nat, price: real, commission: real) {
    var units := if 0 < given.lotSize then given.lotSize else 1;
    var base := given.avgBuy * (if after.exitLots > 0 then after.exitLots else given.lots) as real * units as real;
    && after.lots == given.lots - lots && after.exitLots == given.exitLots + lots
    && after.avgSell * after.exitLots as real == given.avgSell * given.exitLots as real + price * lots as real
    && after.gross == given.gross + (price - given.avgBuy) * lots as real * units as real
    && after.commission == given.commission + commission && after.net == after.gross - after.commission
    && (if given.avgBuy <= 0.0 then after.edgeBps == given.edgeBps
        else if base > 0.0 then after.edgeBps * base == after.net * 10000.0
        else after.edgeBps == 0.0)
  }

  lemma SoldBooksSale(position: Position, sale: Sale)
    requires sale.lots <= position.lots && 0 <= position.exitLots
    ensures BooksSale(position, Sold(position, sale), sale.lots, sale.avg, sale.commission)
    ensures
      var after := Sold(position, sale);
      && after == position.(lots := after.lots, exitLots := after.exitLots, avgSell := after.avgSell,
                            status := after.status, gross := after.gross, net := after.net,
                            commission := after.commission, edgeBps := after.edgeBps, closedAt := after.closedAt,
                            updated := sale.at)
      && after.status == (if after.lots > 0 then ExitPartiallyFilled else ExitFilled)
      && after.closedAt == (if after.lots > 0 then None else Some(sale.at))
  {
    hide EdgeBps, Gain, Average;
    AverageTimes(position.avgSell, position.exitLots, sale.avg, sale.lots);
    GainIs(sale.avg, position.avgBuy, sale.lots, UnitsPerLot(position));
    var after := Sold(position, sale);
    EdgeIs(after.net, position.avgBuy, if after.exitLots > 0 then after.exitLots else position.lots,
      UnitsPerLot(position));
  }

  lemma EdgeIs(net: real, avgBuy: real, lots: int, units: int)
    ensures var base := avgBuy * lots as real * units as real;
            if base > 0.0 then EdgeBps(net, avgBuy, lots, units) * base == net * 10000.0
            else EdgeBps(net, avgBuy, lots, units) == 0.0
  {
  }

  lemma FirstAverage(avg: real, price: real, lots: nat)
    ensures Average(avg, 0, price, lots) == if lots > 0 then price else avg
  {
    if lots > 0 {
      AverageTimes(avg, 0, price, lots);
    }
  }

  lemma GainIs(price: real, bought: real, lots: int, units: int)
    ensures Gain(price, bought, lots, units) == (price - bought) * lots as real * units as real
  {
  }

  // ---------------------------------------------------------------- the position table

  /** At most one position of a trade takes entry fills. */
  ghost predicate OneEntry(rows: seq<Position>, chain: Chain) {
    forall j, k :: 0 <= j < |rows| && 0 <= k < |rows| && IsEntryOf(rows[j], chain) && IsEntryOf(rows[k], chain) ==>
      j == k
  }

  /** What the entry position of a trade holds; nothing when there is none. */
  function Held(rows: seq<Position>, chain: Chain): Fill {
    if rows == [] then ZERO
    else if IsEntryOf(rows[|rows| - 1], chain) then Bought(rows[|rows| - 1])
    else Held(rows[..|rows| - 1], chain)
  }

  lemma {:induction false} HeldIs(rows: seq<Position>, chain: Chain, i: nat)
    requires OneEntry(rows, chain) && i < |rows| && IsEntryOf(rows[i], chain)
    ensures Held(rows, chain) == Bought(rows[i])
  {
    if i < |rows| - 1 {
      HeldIs(rows[..|rows| - 1], chain, i);
    }
  }

  lemma {:induction false} HeldNothing(rows: seq<Position>, chain: Chain)
    requires forall j :: 0 <= j < |rows| ==> !IsEntryOf(rows[j], chain)
    ensures Held(rows, chain) == ZERO
  {
    if rows != [] {
      HeldNothing(rows[..|rows| - 1], chain);
    }
  }

  /** Nothing but one entry of this trade was changed or added. */
  ghost predicate OnlyEntry(rows: seq<Position>, rows': seq<Position>, chain: Chain) {
    rows' == rows || exists entry: nat :: EntryWritten(rows, rows', chain, entry)
  }

  predicate EntryWritten(rows: seq<Position>, rows': seq<Position>, chain: Chain, entry: nat) {
    && entry < |rows'| && IsEntryOf(rows'[entry], chain)
    && if entry < |rows| then IsEntryOf(rows[entry], chain) && rows' == rows[entry := rows'[entry]]
       else rows' == rows + [rows'[entry]]
  }

  /** Entries of another day or another instrument are what they were. */
  lemma OtherEntriesKept(rows: seq<Position>, rows': seq<Position>, chain: Chain, other: Chain)
    requires OnlyEntry(rows, rows', chain) && (other.date != chain.date || other.instrument != chain.instrument)
    ensures Held(rows', other) == Held(rows, other)
    ensures forall j :: 0 <= j < |rows'| && IsEntryOf(rows'[j], other) ==> j < |rows| && rows[j] == rows'[j]
  {
    hide Bought;
    if rows' != rows {
      var entry: nat :| EntryWritten(rows, rows', chain, entry);
      if entry < |rows| {
        HeldElsewhere(rows, rows', other, entry);
      } else {
        assert rows'[..|rows'| - 1] == rows;
      }
      forall j | 0 <= j < |rows'| && IsEntryOf(rows'[j], other) ensures j < |rows| && rows[j] == rows'[j] {
        assert j != entry;
      }
    }
  }

  lemma {:induction false} HeldElsewhere(rows: seq<Position>, rows': seq<Position>, other: Chain, entry: nat)
    requires |rows'| == |rows| && (forall j :: 0 <= j < |rows| && j != entry ==> rows'[j] == rows[j])
    requires entry < |rows| ==> !IsEntryOf(rows[entry], other) && !IsEntryOf(rows'[entry], other)
    ensures Held(rows', other) == Held(rows, other)
  {
    if rows != [] {
      HeldElsewhere(rows[..|rows| - 1], rows'[..|rows'| - 1], other, entry);
    }
  }

  lemma EntryJoins(existing: Position, order: Order, joined: Position)
    requires
      var price := if order.avg > 0.0 then order.avg else order.limit;
      && joined.avgBuy == Average(existing.avgBuy, existing.lots, price, Clamp(order.filled))
      && joined.lots == existing.lots + Clamp(order.filled)
      && joined.commission == existing.commission + order.commission
    ensures Bought(existing).lots == existing.lots && Bought(joined).lots == joined.lots
    ensures 0 <= existing.lots ==> Bought(joined) == Bought(existing).Plus(EntryFillOf(order))
  {
    if 0 <= existing.lots {
      var price := if order.avg > 0.0 then order.avg else order.limit;
      AverageTimes(existing.avgBuy, existing.lots, price, Clamp(order.filled));
    }
  }

  lemma EntryOpens(opening: Position, order: Order)
    requires opening.avgBuy == (if order.avg > 0.0 then order.avg else order.limit)
    requires opening.lots == Clamp(order.filled) && opening.commission == order.commission
    ensures Bought(opening) == ZERO.Plus(EntryFillOf(order)) && 0 <= Bought(opening).lots
  {
  }

  /** The table and the operations that write it; a position's number is its place in the table. */
  class PositionManager {
    var rows: seq<Position>

    /** The entry position of the trade that was updated longest ago. */
    method FindEntryPosition(chain: Chain) returns (found: Option<nat>)
      ensures found.Some? ==> found.value < |rows| && IsEntryOf(rows[found.value], chain)
      ensures found.Some? ==>
        forall j :: 0 <= j < |rows| && IsEntryOf(rows[j], chain) ==> rows[found.value].updated <= rows[j].updated
      ensures found.None? ==> forall j :: 0 <= j < |rows| ==> !IsEntryOf(rows[j], chain)
    {
      found := None;
      for i := 0 to |rows|
        invariant found.Some? ==> found.value < |rows| && IsEntryOf(rows[found.value], chain)
        invariant found.Some? ==>
          forall j :: 0 <= j < i && IsEntryOf(rows[j], chain) ==> rows[found.value].updated <= rows[j].updated
        invariant found.None? ==> forall j :: 0 <= j < i ==> !IsEntryOf(rows[j], chain)
      {
        if IsEntryOf(rows[i], chain) && (found.None? || rows[i].updated < rows[found.value].updated) {
          found := Some(i);
        }
      }
    }

    method UpsertPosition(id: nat, position: Position) returns (ok: bool)
      requires id < |rows|
      modifies this
      ensures rows == if ok then old(rows)[id := position] else old(rows)
    {
      ok := *;
      if ok {
        rows := rows[id := position];
      }
    }

    /** An entry fill joins the trade's entry position, or opens one. */
    method OnEntryFill(lotSize: int, order: Order, now: int) returns (err: PositionError, ghost entry: nat)
      requires OneEntry(rows, ChainOf(order.client)) && 0 <= Held(rows, ChainOf(order.client)).lots
      modifies this
      ensures 0 <= Held(rows, ChainOf(order.client)).lots
      ensures err in {Booked, StoreUnavailable}
      ensures err.StoreUnavailable? ==> rows == old(rows)
      ensures OneEntry(rows, ChainOf(order.client)) && OnlyEntry(old(rows), rows, ChainOf(order.client))
      ensures err.Booked? ==>
        var chain := ChainOf(order.client);
        && entry < |rows| && IsEntryOf(rows[entry], chain)
        && rows == (if entry < |old(rows)| then old(rows)[entry := rows[entry]] else old(rows) + [rows[entry]])
        && Held(rows, chain) == Held(old(rows), chain).Plus(EntryFillOf(order))
        && Bought(rows[entry]) == Held(rows, chain)
        && (0 <= order.filled ==> (rows[entry].status.EntryPartiallyFilled? <==> order.filled < order.quantity))
        && rows[entry].lotSize == (if 0 < lotSize then lotSize else 1) && rows[entry].updated == now
        && (if entry < |old(rows)| then
              && rows[entry] == old(rows)[entry].(
                   avgBuy := rows[entry].avgBuy, lots := rows[entry].lots, lotSize := rows[entry].lotSize,
                   commission := rows[entry].commission, openedAt := rows[entry].openedAt,
                   status := rows[entry].status, updated := now)
              && rows[entry].openedAt
                 == (if old(rows)[entry].openedAt.Some? then old(rows)[entry].openedAt else Some(now))
              && (rows[entry].status.HoldingOvernight? <==>
                    old(rows)[entry].status.HoldingOvernight? && order.filled >= order.quantity)
            else
              && rows[entry].openedAt == Some(now) && rows[entry].closedAt.None? && rows[entry].exitLots == 0
              && rows[entry].avgSell == rows[entry].gross == rows[entry].net == rows[entry].edgeBps == 0.0)
    {
      hide Bought, EntryFillOf, Held, Average;
      var chain := ChainOf(order.client);
      var lot := if lotSize <= 0 then 1 else lotSize;
      var fillLots := Clamp(order.filled);
      var fillPrice := if order.avg > 0.0 then order.avg else order.limit;
      var found := FindEntryPosition(chain);
      var stored: bool := *;
      err := if stored then Booked else StoreUnavailable;
      entry := |rows|;
      if found.Some? {
        var existing := rows[found.value];
        var total := existing.lots + fillLots;
        existing := existing.(
          avgBuy := Average(existing.avgBuy, existing.lots, fillPrice, fillLots), lots := total, lotSize := lot,
          commission := existing.commission + order.commission,
          openedAt := if existing.openedAt.None? then Some(now) else existing.openedAt,
          status := if order.filled < order.quantity then EntryPartiallyFilled
                    else if existing.status != HoldingOvernight then EntryFilled else HoldingOvernight,
          updated := now);
        if stored {
          entry := found.value;
          HeldIs(rows, chain, entry);
          EntryJoins(rows[entry], order, existing);
          rows := rows[found.value := existing];
          HeldIs(rows, chain, entry);
          assert EntryWritten(old(rows), rows, chain, entry);
        }
      } else {
        var position := Position(
          order.client.instrument, order.client.date, fillLots, lot, 0, fillPrice, 0.0,
          if fillLots < order.quantity then EntryPartiallyFilled else EntryFilled,
          0.0, 0.0, order.commission, 0.0, Some(now), None, now);
        if stored {
          HeldNothing(rows, chain);
          EntryOpens(position, order);
          rows := rows + [position];
          HeldIs(rows, chain, entry);
          assert EntryWritten(old(rows), rows, chain, entry);
        }
      }
    }

    /** An exit fill closes part or all of a position, which the caller hands in by value. */
    method OnExitFill(id: nat, given: Position, order: Order, now: int) returns (position: Position, err: PositionError)
      requires id < |rows|
      modifies this
      ensures err.ExitFillExceedsLots? <==> order.filled > given.lots
      ensures !err.Booked? ==> rows == old(rows) && position == given
      ensures err.Booked? ==> rows == old(rows)[id := position]
      ensures err.Booked? && 0 <= given.lots ==> position == Sold(given, SaleOf(order, now))
      ensures err.Booked? && 0 <= given.lots && 0 <= given.exitLots ==>
        BooksSale(given, position, if order.filled > 0 then order.filled else 0, order.avg, order.commission)
    {
      hide EdgeBps, Gain, BooksSale;
      position := given;
      if order.filled > position.lots {
        return position, ExitFillExceedsLots;
      }
      var units := if position.lotSize <= 0 then 1 else position.lotSize;
      var executed := if order.filled < 0 then 0 else order.filled;
      var previousExitLots := position.exitLots;
      position := position.(exitLots := position.exitLots + executed);
      if executed > 0 {
        position := position.(avgSell := Average(position.avgSell, previousExitLots, order.avg, executed));
      }
      position := position.(commission := position.commission + order.commission);
      position := position.(gross := position.gross + Gain(order.avg, position.avgBuy, executed, units));
      position := position.(net := position.gross - position.commission);
      if position.avgBuy > 0.0 {
        var baseLots := if position.exitLots <= 0 then position.lots else position.exitLots;
        position := position.(edgeBps := EdgeBps(position.net, position.avgBuy, baseLots, units));
      }
      if executed < position.lots {
        position := position.(lots := position.lots - executed, status := ExitPartiallyFilled, closedAt := None);
      } else {
        position := position.(lots := 0, status := ExitFilled, closedAt := Some(now));
      }
      position := position.(updated := now);
      if 0 <= given.lots && 0 <= given.exitLots {
        SoldBooksSale(given, SaleOf(order, now));
      }
      var stored := UpsertPosition(id, position);
      if !stored {
        return given, StoreUnavailable;
      }
      err := Booked;
    }
  }
}
