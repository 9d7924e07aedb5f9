/** The scheduler's side of an exit: the position's lots are offered in one chain of orders, and every
    report of the chain is booked as a sale. */
module ExitMonitor {
  import opened Arithmetic
  import opened RawState
  import opened Domain
  import opened Fills
  import opened Ledger
  import opened Gateway
  import opened Execution
  import opened Positions
  import opened Deltas
  import opened Ticks
  import R = Refinement

  /** The position is its origin after these sales, and the sales make up the aggregate. */
  ghost predicate SoldOff(position: Position, origin: Position, sales: seq<Sale>, aggregate: Order) {
    && Accepted(origin, sales) && position == SoldAll(origin, sales) && position.lots == origin.lots - Lots(sales)
    && Fill(Lots(sales), Proceeds(sales), Commission(sales)) == FillOf(aggregate)
  }

  /** The whole aggregate as one sale. */
  function OneSale(aggregate: Order, at: int): Sale {
    Sale(Clamp(aggregate.filled), aggregate.avg, aggregate.commission, at)
  }

  lemma NothingSoldYet(origin: Position, aggregate: Order)
    requires FillOf(aggregate) == ZERO
    ensures SoldOff(origin, origin, [], aggregate)
  {
  }

  /** Booking a delta as a sale keeps position and aggregate in step; it is never more than the
      position has left. */
  lemma SaleKeepsStep(position: Position, origin: Position, sales: seq<Sale>, start: Order, kept: Order, sale: Sale)
    requires SoldOff(position, origin, sales, start)
    requires Fill(sale.lots, sale.avg * sale.lots as real, sale.commission) == FillOf(kept).Minus(FillOf(start))
    requires kept.filled <= origin.lots
    ensures sale.lots <= position.lots
    ensures SoldOff(Sold(position, sale), origin, sales + [sale], kept)
  {
    hide Sold, SoldAll, Value;
    var all := sales + [sale];
    assert all[..|all| - 1] == sales;
    AcceptedBefore(origin, all);
    SoldAllLast(origin, all);
    SoldAllLots(origin, all);
    assert FillOf(kept).lots == kept.filled && FillOf(start).lots == start.filled;
  }

  lemma SoldAllLast(origin: Position, sales: seq<Sale>)
    requires sales != []
    ensures SoldAll(origin, sales) == Sold(SoldAll(origin, sales[..|sales| - 1]), sales[|sales| - 1])
  {
  }

  lemma StepAs(position: Position, origin: Position, sales: seq<Sale>, kept: Order, aggregate: Order)
    requires SoldOff(position, origin, sales, kept) && FillOf(aggregate) == FillOf(kept)
    ensures SoldOff(position, origin, sales, aggregate)
  {
  }

  lemma IsARun(position: Position, origin: Position, sales: seq<Sale>, aggregate: Order)
    requires SoldOff(position, origin, sales, aggregate)
    ensures Accepted(origin, sales) && position == SoldAll(origin, sales)
  {
  }

  lemma NoSales(origin: Position)
    ensures SoldAll(origin, []) == origin && Fill(Lots([]), Proceeds([]), Commission([])) == ZERO
  {
  }

  /** However many ticks and replacements it took, the position ends up, in every field, as if the
      whole aggregate had been one sale. */
  lemma AsOneSale(position: Position, origin: Position, sales: seq<Sale>, aggregate: Order)
    requires SoldOff(position, origin, sales, aggregate) && 0 <= origin.exitLots
    ensures
      if sales == [] then position == origin && FillOf(aggregate) == ZERO
      else position == Sold(origin, OneSale(aggregate, sales[|sales| - 1].at))
  {
    hide Sold, SoldAll, Combined, Accepted, Lots, Proceeds, Commission;
    if sales == [] {
      NoSales(origin);
    } else {
      PathIndependence(origin, sales);
      CombinedValue(sales);
      assert FillOf(aggregate).lots == aggregate.filled && FillOf(aggregate).value == Value(aggregate);
      SaleRestated(origin, Combined(sales), OneSale(aggregate, sales[|sales| - 1].at));
    }
  }

  lemma NotMoreThanOrdered(book: Book, rows: Rows, last: Order, aggregate: Order)
    requires Tracks(book, rows, last, aggregate.quantity, FillOf(aggregate))
    ensures aggregate.filled <= aggregate.quantity
  {
    RemainingLots(book, rows, last, aggregate.quantity, FillOf(aggregate));
  }

  lemma PlacedIsSound(book: Book, rows: Rows, placed: Order)
    requires Tracks(book, rows, placed, placed.quantity, FillOf(placed)) && 0 <= placed.filled
    ensures placed.filled <= placed.quantity
  {
    NotMoreThanOrdered(book, rows, placed, placed);
  }

  lemma FirstSale(placed: Order, nothing: Order, at: int)
    requires 0 <= placed.filled && nothing == placed.(filled := 0, avg := 0.0, commission := 0.0)
    ensures FillOf(nothing) == ZERO
    ensures var sale := SaleOf(placed, at);
            Fill(sale.lots, sale.avg * sale.lots as real, sale.commission) == FillOf(placed).Minus(FillOf(nothing))
    ensures placed.filled == 0 && placed.commission == 0.0 ==> FillOf(placed) == ZERO
  {
    if placed.filled == 0 {
      TimesNothing(placed.avg, placed.filled);
    }
  }

  lemma NoNews(start: Order, kept: Order)
    requires Advances(FillOf(start), FillOf(kept)) && kept.filled <= start.filled && kept.commission <= start.commission
    ensures FillOf(kept) == FillOf(start)
  {
    assert FillOf(start).lots == start.filled && FillOf(kept).lots == kept.filled;
  }

  lemma NothingNew(start: Order, kept: Order)
    requires FillOf(kept) == FillOf(start)
    ensures kept.filled == start.filled && kept.commission == start.commission
  {
  }

  lemma StillFits(book: Book, rows: Rows, next: Order, kept: Order, first: Order, monitored: Order)
    requires Tracks(book, rows, next, AggregatedOrderFill(next).quantity, FillOf(AggregatedOrderFill(next)))
    requires AggregateStateOf(AggregatedOrderFill(next)) == AggregateStateOf(kept)
    ensures kept.filled <= AggregatedOrderFill(next).quantity
  {
    NotMoreThanOrdered(book, rows, next, AggregatedOrderFill(next));
  }

  // ---------------------------------------------------------------- placing what is on record

  /** The position after an order that was on record was placed again: its lots are sold once more, or
      the position is only marked if the row knows of none. */
  ghost predicate BookedAgain(given: Position, position: Position, placed: Order) {
    if placed.filled > 0 || placed.commission > 0.0
    then placed.filled <= given.lots && exists at :: position == Sold(given, SaleOf(placed, at))
    else position == given.(status := ExitOrderSent)
  }

  /** A row of an active exit order of the same instrument, of the day or the day before. */
  predicate OutFor(c: ClientId, row: Order, id: ClientId) {
    && c.instrument == id.instrument && c.side == id.side && id.date - 1 <= c.date <= id.date
    && row.broker.Id? && IsActive(row.status)
  }

  lemma ActiveAre(rows: Rows, id: ClientId)
    ensures (exists c :: c in rows && OutFor(c, rows[c], id)) <==>
            exists c :: && c in rows && rows[c].status in {New, Sent, PartiallyFilled} && rows[c].broker.Id?
                        && c.instrument == id.instrument && c.side == id.side
                        && (c.date == id.date || c.date == id.date - 1)
  {
  }

  /** A second placement of a chain's first order takes from the position what that order's row knows, on
      top of what the chain has executed. */
  lemma SoldTwice(position: Position, again: Position, origin: Position, sales: seq<Sale>, aggregate: Order,
      placed: Order)
    requires SoldOff(position, origin, sales, aggregate) && BookedAgain(position, again, placed) && 0 <= placed.filled
    ensures origin.lots - again.lots == aggregate.filled + placed.filled
  {
    hide SoldAll, Proceeds, Commission, Accepted, Gain, EdgeBps;
    assert FillOf(aggregate).lots == aggregate.filled;
  }

  /** A position that is its origin after the sales of a chain stays so, up to its status, through a
      second placement of the chain's first order if and only if that order's row knows of no fill and no
      commission. Otherwise the same lots are sold twice. */
  lemma SoldTwiceIff(position: Position, again: Position, origin: Position, sales: seq<Sale>, aggregate: Order,
      placed: Order)
    requires SoldOff(position, origin, sales, aggregate) && BookedAgain(position, again, placed)
    requires 0 <= placed.filled && 0.0 <= placed.commission
    ensures again == position.(status := again.status) <==> placed.filled == 0 && placed.commission == 0.0
    ensures origin.lots - again.lots == aggregate.filled + placed.filled
    ensures again.commission == position.commission + placed.commission
  {
    hide SoldAll, Proceeds, Commission, Accepted, Gain, EdgeBps;
    SoldTwice(position, again, origin, sales, aggregate, placed);
  }

  class ExitDesk {
    const engine: Engine
    const positions: PositionManager

    constructor (engine: Engine, positions: PositionManager)
      ensures this.engine == engine && this.positions == positions
    {
      this.engine, this.positions := engine, positions;
    }

    /** Offers all lots of a position. What was executed on the way in is booked at once; otherwise
        the position is marked as having its exit order out. An order that is on record already comes
        back from there, and all that its row knows is booked once more. */
    method PlaceExitOrder(id: ClientId, entry: nat, book: OrderBook, instrument: Instrument, improveTicks: int)
        returns (placed: Order, err: Error, ghost origin: Position, ghost sales: seq<Sale>)
      requires engine.Consistent() && id.attempt == 1 && id.side.Sell?
      requires entry < |positions.rows| && 0 < positions.rows[entry].lots
      modifies engine.broker, engine.store, engine.clock, positions
      ensures |positions.rows| == |old(positions.rows)|
      ensures origin in {old(positions.rows)[entry], old(positions.rows)[entry].(status := ExitOrderSent)}
      ensures id in old(engine.store.rows) ==>
        && engine.broker.book == old(engine.broker.book) && engine.store.rows == old(engine.store.rows)
        && engine.store.sent == old(engine.store.sent)
      ensures id in old(engine.store.rows) && err.NoError? ==>
        && placed == old(engine.store.rows)[id]
        && BookedAgain(old(positions.rows)[entry], positions.rows[entry], placed)
      ensures !err.NoError? ==> positions.rows == old(positions.rows)
      ensures Unused(old(engine.store.rows), ChainOf(id)) && err.NoError? ==>
        && placed.client == id && AggregatedOrderFill(placed) == placed && placed.quantity == origin.lots
        && id in engine.store.rows && engine.store.rows[id] == placed
        && Tracks(engine.broker.book, engine.store.rows, placed, placed.quantity, FillOf(placed))
        && SoldOff(positions.rows[entry], origin, sales, placed)
      ensures SentToday(engine.store.sent, id) <= SentToday(old(engine.store.sent), id) + 1
      ensures err.BudgetExceeded? ==>
        && instrument.freeOrderLimit > 0
        && instrument.freeOrderLimit - SentToday(old(engine.store.sent), id) < engine.RequiredFor(id.side)
    {
      hide Tracks, FillOf, Value, SoldOff, SentToday, Sold, Unused;
      var given := positions.rows[entry];
      origin, sales := given, [];
      ghost var newly := Unused(engine.store.rows, ChainOf(id));
      placed, err := PlaceFirst(engine, id, given.lots, book, instrument, improveTicks);
      if !err.NoError? {
        return;
      }
      if newly {
        PlacedIsSound(engine.broker.book, engine.store.rows, placed);
      }
      var now := engine.clock.Now();
      ghost var nothing := placed.(filled := 0, avg := 0.0, commission := 0.0);
      if placed.filled > 0 || placed.commission > 0.0 {
        var position, outcome := positions.OnExitFill(entry, given, placed, now);
        if !outcome.Booked? {
          err := PositionFailed;
          return;
        }
        sales := [SaleOf(placed, now)];
        if newly {
          FirstSale(placed, nothing, now);
          NothingSoldYet(origin, nothing);
          SaleKeepsStep(origin, origin, [], nothing, placed, SaleOf(placed, now));
          assert [] + sales == sales;
        }
      } else {
        var stored := positions.UpsertPosition(entry, given.(status := ExitOrderSent));
        if !stored {
          err := PositionFailed;
          return;
        }
        origin := positions.rows[entry];
        if newly {
          FirstSale(placed, nothing, now);
          NothingSoldYet(origin, placed);
        }
      }
    }

    /** Any number of ticks over an exit, until one fails: the position stays what its origin becomes by
        selling the aggregate, and no report of the chain is ever refused as more than it holds. */
    method MonitorExit(first: Order, cfg: MonitorConfig, entry: nat, ticks: nat, ghost origin: Position,
        ghost already: seq<Sale>)
        returns (err: Error, ghost last: Order, ghost aggregate: Order, ghost lost: Fill, ghost sales: seq<Sale>,
            ghost rounds: seq<R.Round>)
      requires Tracks(engine.broker.book, engine.store.rows, first, AggregatedOrderFill(first).quantity,
          FillOf(AggregatedOrderFill(first)))
      requires first.client in engine.store.rows && engine.store.rows[first.client] == first
      requires entry < |positions.rows| && SoldOff(positions.rows[entry], origin, already, AggregatedOrderFill(first))
      requires 0 < AggregatedOrderFill(first).quantity <= TWO53
      requires AggregatedOrderFill(first).quantity <= origin.lots
      modifies engine.broker, engine.store, engine.clock, positions
      ensures Stands(Origin(old(engine.broker.book), old(engine.store.sent), first, cfg, engine),
                     engine.broker.book, engine.store.rows, engine.store.sent, aggregate, err, lost)
      ensures ticks > 0 && IsActive(first.status) ==> first.broker in engine.broker.looked
      ensures entry < |positions.rows| && already <= sales
      ensures Accepted(origin, sales) && positions.rows[entry] == SoldAll(origin, sales)
      ensures err.NoError? ==>
        && lost == ZERO && SoldOff(positions.rows[entry], origin, sales, aggregate)
        && Tracks(engine.broker.book, engine.store.rows, last, aggregate.quantity, FillOf(aggregate))
        && RanTo(first, rounds, last, old(engine.broker.heard), engine.broker.heard)
        && last.client == first.client.(attempt := last.client.attempt)
        && Paced(first, cfg, last, engine.clock.time)
      ensures err.WaitFailed? ==>
        && R.Follows(first, rounds) && old(engine.broker.heard) + R.HeardIn(rounds) <= engine.broker.heard
        && AggregateStateOf(R.MemoryRun(first, rounds).aggregate) == AggregateStateOf(aggregate)
      ensures LosesExactly(engine.store.rows, R.MemoryRun(first, rounds).current, err, lost)
    {
      hide Tracks, FillOf, Value, AggregatedOrderFill, SoldOff, Advances, SentToday, Stands, Underway, Sold,
        RanTo, RoundTicks, R.Follows, R.MemoryRun, R.HeardIn, R.Heard, R.Concerns, R.Tick, Ticked, LosesExactly, Paced;
      ghost var o := Origin(engine.broker.book, engine.store.sent, first, cfg, engine);
      err, lost, sales, last, aggregate, rounds := NoError, ZERO, already, first, AggregatedOrderFill(first), [];
      ghost var idle, heard := false, engine.broker.heard;
      RunStarts(first, heard);
      Begins(o, engine.broker.book, engine.store.rows, engine.store.sent, engine.clock.time);
      for tick := 0 to ticks
        invariant Underway(o, engine.broker.book, engine.store.rows, engine.store.sent, engine.clock.time, last, idle)
        invariant if tick == 0 then last == first else IsActive(first.status) ==> first.broker in engine.broker.looked
        invariant entry < |positions.rows| && already <= sales
        invariant aggregate == AggregatedOrderFill(last) && SoldOff(positions.rows[entry], origin, sales, aggregate)
        invariant RanTo(first, rounds, last, heard, engine.broker.heard)
        invariant err.NoError? && lost == ZERO
      {
        var listed, monitored;
        ghost var next, kept, round;
        ghost var heard1 := engine.broker.heard;
        UnderwayMeans(o, engine.broker.book, engine.store.rows, engine.store.sent, engine.clock.time, last, idle);
        listed, monitored, err, next, idle, kept, lost, round := Tick(engine, first, cfg, o, last, idle);
        IsARun(positions.rows[entry], origin, sales, aggregate);
        if !err.NoError? {
          rounds := TickLoses(first, rounds, last, round, kept, engine.store.rows, err, lost, heard, heard1);
          aggregate := kept;
          return;
        }
        UnderwayMeans(o, engine.broker.book, engine.store.rows, engine.store.sent, engine.clock.time, next, idle);
        if listed.Some? {
          ghost var time := engine.clock.time;
          StillFits(engine.broker.book, engine.store.rows, next, kept, first, monitored);
          err, sales := BookExit(listed.value, monitored, entry, kept, origin, sales);
          UnderwayLater(o, engine.broker.book, engine.store.rows, engine.store.sent, time, engine.clock.time, next,
            idle);
          if !err.NoError? {
            IsARun(positions.rows[entry], origin, sales, aggregate);
            LosesNone(engine.store.rows, R.MemoryRun(first, rounds).current, err);
            StandsElse(o, engine.broker.book, engine.store.rows, engine.store.sent, kept, err);
            aggregate := kept;
            return;
          }
        }
        if listed.Some? {
          TickRunsOn(first, rounds, last, round, next, kept, heard, heard1, engine.broker.heard);
          rounds := rounds + [round];
        }
        last, aggregate := next, AggregatedOrderFill(next);
        Renamed(aggregate, kept);
        StepAs(positions.rows[entry], origin, sales, kept, aggregate);
      }
      IsARun(positions.rows[entry], origin, sales, aggregate);
      UnderwayMeans(o, engine.broker.book, engine.store.rows, engine.store.sent, engine.clock.time, last, idle);
      StandsNow(o, engine.broker.book, engine.store.rows, engine.store.sent, engine.clock.time, last, idle);
      LosesNone(engine.store.rows, R.MemoryRun(first, rounds).current, err);
    }

    /** Books what a report of the chain's aggregate added to what its row had held. */
    method BookExit(order: Order, monitored: Order, entry: nat, ghost kept: Order, ghost origin: Position,
        ghost already: seq<Sale>)
        returns (err: Error, ghost sales: seq<Sale>)
      requires entry < |positions.rows| && SoldOff(positions.rows[entry], origin, already, AggregatedOrderFill(order))
      requires AggregateStateOf(monitored) == AggregateStateOf(kept)
      requires Advances(FillOf(AggregatedOrderFill(order)), FillOf(kept)) && kept.filled <= origin.lots
      modifies engine.clock, positions
      ensures old(engine.clock.time) <= engine.clock.time && |positions.rows| == |old(positions.rows)|
      ensures already <= sales && err in {NoError, PositionFailed}
      ensures FillOf(kept) == FillOf(AggregatedOrderFill(order)) ==>
        positions.rows == old(positions.rows) && sales == already
      ensures if err.NoError? then SoldOff(positions.rows[entry], origin, sales, kept)
              else SoldOff(positions.rows[entry], origin, sales, AggregatedOrderFill(order))
    {
      hide FillOf, Value, AggregatedOrderFill, SoldOff, Advances, Sold, FillDelta;
      var start := AggregatedOrderFill(order);
      sales, err := already, NoError;
      Renamed(monitored, kept);
      if FillOf(kept) == FillOf(start) {
        NothingNew(start, kept);
      }
      if monitored.filled > start.filled || monitored.commission > start.commission {
        var fill := FillDelta(order, monitored);
        var now := engine.clock.Now();
        SaleIsExact(order, monitored, now);
        SaleKeepsStep(positions.rows[entry], origin, already, start, kept, SaleOf(fill, now));
        var given := positions.rows[entry];
        var position, outcome := positions.OnExitFill(entry, given, fill, now);
        if !outcome.Booked? {
          err := PositionFailed;
          return;
        }
        sales := already + [SaleOf(fill, now)];
      } else {
        NoNews(start, kept);
        StepAs(positions.rows[entry], origin, already, start, kept);
      }
    }

    /** An exit order of yesterday or today is still out. */
    predicate HasActiveOrder(id: ClientId)
      reads engine.store
    {
      exists c :: c in engine.store.rows && OutFor(c, engine.store.rows[c], id)
    }

    /** A whole exit of a position: nothing while an exit order is out; otherwise the check of the day's
        free orders, the first order and, unless that came from the records, its monitoring. The position
        ends as if all that was executed had been one sale. Rows are never deleted, so the rows of a chain
        include that of its first order. */
    method RunExit(id: ClientId, entry: nat, book: OrderBook, cfg: MonitorConfig, ticks: nat)
        returns (err: Error, skipped: bool, refused: bool, ghost aggregate: Order, ghost lost: Fill,
            ghost origin: Position, ghost sales: seq<Sale>)
      requires engine.Consistent() && id.attempt == 1 && id.side.Sell?
      requires Unused(engine.store.rows, ChainOf(id)) || id in engine.store.rows
      requires entry < |positions.rows| && 0 < positions.rows[entry].lots <= TWO53
        && 0 <= positions.rows[entry].exitLots
      modifies engine.broker, engine.store, engine.clock, positions
      ensures skipped <==> old(HasActiveOrder(id))
      ensures skipped <==>
        exists c :: && c in old(engine.store.rows) && old(engine.store.rows)[c].status in {New, Sent, PartiallyFilled}
                    && old(engine.store.rows)[c].broker.Id? && c.instrument == id.instrument && c.side == Sell
                    && (c.date == id.date || c.date == id.date - 1)
      ensures refused == (!skipped && Short(cfg, SentToday(old(engine.store.sent), id)))
      ensures
        var attempts := if cfg.maxAttempts > 1 then cfg.maxAttempts else 1;
        var needed := attempts + if engine.cancelCounts then attempts - 1 else 0;
        refused <==> && !skipped && 0 <= cfg.instrument.freeOrderLimit
                     && (cfg.instrument.freeOrderLimit > 0 ==>
                           cfg.instrument.freeOrderLimit < SentToday(old(engine.store.sent), id) + needed)
      ensures skipped || refused ==> positions.rows == old(positions.rows)
      ensures skipped || refused || id in old(engine.store.rows) ==>
        engine.broker.book == old(engine.broker.book) && engine.store.rows == old(engine.store.rows)
      ensures entry < |positions.rows|
      ensures origin in {old(positions.rows)[entry], old(positions.rows)[entry].(status := ExitOrderSent)}
      ensures !skipped && id in old(engine.store.rows) && err.NoError? ==>
        BookedAgain(old(positions.rows)[entry], positions.rows[entry], old(engine.store.rows)[id])
      ensures !skipped && Unused(old(engine.store.rows), ChainOf(id)) && err.NoError? ==>
        && aggregate.quantity == origin.lots
        && WithinOrder(engine.broker.book, engine.store.rows, ChainOf(id), origin.lots)
        && Conserved(engine.broker.book, engine.store.rows, ChainOf(id), FillOf(aggregate))
        && (if sales == [] then positions.rows[entry] == origin && FillOf(aggregate) == ZERO
            else positions.rows[entry] == Sold(origin, OneSale(aggregate, sales[|sales| - 1].at)))
      ensures err.BudgetExceeded? ==> refused
    {
      hide Tracks, FillOf, SoldOff, SentToday, Conserved, WithinOrder, AggregatedOrderFill, Sold, Unused,
        BookedAgain, OutFor;
      var given := positions.rows[entry];
      lost, sales, origin := ZERO, [], given;
      aggregate := Order(id, NoId, 0.0, given.lots, 0, 0.0, New, 0.0, Malformed(""), 0);
      err, refused := NoError, false;
      skipped := HasActiveOrder(id);
      ActiveAre(engine.store.rows, id);
      CheckIff(cfg.instrument.freeOrderLimit, SentToday(engine.store.sent, id),
        OrderBudgetNeeded(cfg.maxAttempts, engine.cancelCounts));
      if skipped {
        return;
      }
      err := CheckFreeOrders(cfg.instrument.freeOrderLimit, SentToday(engine.store.sent, id),
                             OrderBudgetNeeded(cfg.maxAttempts, engine.cancelCounts));
      refused := !err.NoError?;
      if refused {
        return;
      }
      var recorded := id in engine.store.rows;
      Used(engine.store.rows, id);
      var first;
      first, err, origin, sales := PlaceExitOrder(id, entry, book, cfg.instrument, cfg.improveTicks);
      if !err.NoError? || recorded {
        return;
      }
      ghost var sent, before, last, rounds := engine.store.sent, engine.broker.book, first, [];
      err, last, aggregate, lost, sales, rounds := MonitorExit(first, cfg, entry, ticks, origin, sales);
      StandsWhole(Origin(before, sent, first, cfg, engine), engine.broker.book, engine.store.rows, engine.store.sent,
        aggregate, err, lost);
      if err.NoError? {
        AsOneSale(positions.rows[entry], origin, sales, aggregate);
      }
    }

    predicate Short(cfg: MonitorConfig, sent: int) {
      var needed := OrderBudgetNeeded(cfg.maxAttempts, engine.cancelCounts);
      !CheckFreeOrders(cfg.instrument.freeOrderLimit, sent, needed).NoError?
    }
  }
}
