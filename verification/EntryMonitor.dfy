/** The scheduler's side of an entry: it checks the day's orders, places the first order of a chain,
    lets the engine look at the chain once per tick, and books what is new into the position. */
module EntryMonitor {
  import opened Arithmetic
  import opened RawState
  import opened Domain
  import opened Fills
  import opened Ledger
  import opened Gateway
  import opened Execution
  import opened Positions
  import opened Deltas
  import opened Ticks
  import R = Refinement

  // ---------------------------------------------------------------- the entry desk

  /** The trade's position, if there is one, is partial exactly when the order is. */
  ghost predicate Shows(positions: seq<Position>, chain: Chain, order: Order) {
    forall j :: 0 <= j < |positions| && IsEntryOf(positions[j], chain) ==>
      (positions[j].status.EntryPartiallyFilled? <==> order.filled < order.quantity)
  }

  /** The position and what it is owed make up the aggregate. */
  ghost predicate InStep(positions: seq<Position>, chain: Chain, aggregate: Order, owed: Fill) {
    && OneEntry(positions, chain) && 0 <= Held(positions, chain).lots
    && Held(positions, chain).Plus(owed) == FillOf(aggregate)
    && 0 <= owed.lots && (owed.lots == 0 ==> Shows(positions, chain, aggregate))
  }

  lemma StillBooked(positions: seq<Position>, chain: Chain, start: Order, kept: Order, owed: Fill)
    requires InStep(positions, chain, start, owed)
    requires Advances(FillOf(start), FillOf(kept)) && kept.quantity == start.quantity
    ensures InStep(positions, chain, kept, owed.Plus(FillOf(kept).Minus(FillOf(start))))
    ensures OneEntry(positions, chain) && 0 <= Held(positions, chain).lots
  {
    assert FillOf(start).lots == start.filled && FillOf(kept).lots == kept.filled;
  }

  /** What a position is owed when what the aggregate gained was not booked. */
  function Unreported(owed: Fill, start: Order, kept: Order): Fill {
    owed.Plus(FillOf(kept).Minus(FillOf(start)))
  }

  /** Nothing new is owed if and only if the aggregate is the one the tick started from, which is when
      there is nothing to book. */
  lemma UnreportedIff(owed: Fill, start: Order, kept: Order)
    ensures Unreported(owed, start, kept) == owed <==> FillOf(kept) == FillOf(start)
    ensures Advances(FillOf(start), FillOf(kept)) ==>
      (FillOf(kept) == FillOf(start) <==> kept.filled <= start.filled && kept.commission <= start.commission)
  {
    assert FillOf(start).lots == start.filled && FillOf(kept).lots == kept.filled;
  }

  lemma NowBooked(before: seq<Position>, after: seq<Position>, chain: Chain, start: Order, kept: Order, delta: Order,
      owed: Fill)
    requires InStep(before, chain, start, owed)
    requires OneEntry(after, chain) && 0 <= Held(after, chain).lots
    requires Held(after, chain) == Held(before, chain).Plus(EntryFillOf(delta))
    requires EntryFillOf(delta) == FillOf(kept).Minus(FillOf(start))
    requires delta.filled < delta.quantity <==> kept.filled < kept.quantity
    requires Shows(after, chain, delta)
    ensures InStep(after, chain, kept, owed)
  {
    hide Held, FillOf, EntryFillOf, OneEntry, IsEntryOf;
  }

  lemma InStepAs(positions: seq<Position>, chain: Chain, kept: Order, aggregate: Order, owed: Fill)
    requires InStep(positions, chain, kept, owed) && AggregateStateOf(aggregate) == AggregateStateOf(kept)
    ensures InStep(positions, chain, aggregate, owed)
  {
  }

  /** What the booking of a first order leaves out: nothing if the broker filled any of it, and the
      commission if it did not. */
  function Unbooked(placed: Order): Fill {
    if placed.filled > 0 then ZERO else Fill(0, 0.0, placed.commission)
  }

  lemma UnbookedIs(placed: Order)
    requires 0 <= placed.filled && (placed.filled > 0 ==> placed.avg > 0.0)
    ensures Unbooked(placed) == if placed.filled > 0 then FillOf(placed).Minus(EntryFillOf(placed)) else FillOf(placed)
  {
    if placed.filled == 0 {
      TimesNothing(placed.avg, placed.filled);
    }
  }

  ghost predicate NoEntry(positions: seq<Position>, chain: Chain) {
    forall j :: 0 <= j < |positions| ==> !IsEntryOf(positions[j], chain)
  }

  lemma NothingBooked(positions: seq<Position>, placed: Order)
    requires NoEntry(positions, ChainOf(placed.client)) && 0 <= placed.filled
    ensures InStep(positions, ChainOf(placed.client), placed, FillOf(placed))
    ensures Held(positions, ChainOf(placed.client)) == ZERO
  {
    HeldNothing(positions, ChainOf(placed.client));
  }

  lemma FirstBooked(positions: seq<Position>, placed: Order)
    requires OneEntry(positions, ChainOf(placed.client)) && 0 <= Held(positions, ChainOf(placed.client)).lots
    requires Held(positions, ChainOf(placed.client)) == ZERO.Plus(EntryFillOf(placed))
    requires Shows(positions, ChainOf(placed.client), placed) && 0 <= placed.filled
    ensures InStep(positions, ChainOf(placed.client), placed, FillOf(placed).Minus(EntryFillOf(placed)))
  {
    hide Held, OneEntry, Shows, Value;
    assert FillOf(placed).lots == EntryFillOf(placed).lots == placed.filled;
  }

  /** No position yet, and an acknowledgement that makes sense. */
  ghost predicate NewlyPlaced(positions: seq<Position>, placed: Order) {
    NoEntry(positions, ChainOf(placed.client)) && 0 <= placed.filled && (placed.filled > 0 ==> placed.avg > 0.0)
  }

  /** What a position holds after an order was placed: whatever the order has filled comes on top. */
  function Rebooked(held: Fill, placed: Order): Fill {
    if placed.filled > 0 then held.Plus(EntryFillOf(placed)) else held
  }

  /** A position that had its share of an order already keeps it through another placement if and only
      if the order has no lots. */
  lemma RebookedIff(held: Fill, placed: Order)
    ensures Rebooked(held, placed) == held <==> placed.filled <= 0
  {
  }

  // ---------------------------------------------------------------- many entries side by side

  /** One entry the scheduler works on: the row of its latest order, and what its position is owed. */
  datatype Entry = Entry(row: Order, owed: Fill)

  /** Its chain is tracked, its row is what the store holds, and its position is in step. */
  ghost predicate OnDesk(book: Book, rows: Rows, positions: seq<Position>, e: Entry) {
    && e.row.client in rows && rows[e.row.client] == e.row
    && Tracks(book, rows, e.row, AggregatedOrderFill(e.row).quantity, FillOf(AggregatedOrderFill(e.row)))
    && InStep(positions, ChainOf(e.row.client), AggregatedOrderFill(e.row), e.owed)
    && 0 < AggregatedOrderFill(e.row).quantity <= TWO53
  }

  /** Entries of different days or instruments. */
  predicate Apart(desk: seq<Entry>) {
    forall i, j :: 0 <= i < |desk| && 0 <= j < |desk| && i != j ==> ApartFrom(desk[i], desk[j])
  }

  predicate ApartFrom(e: Entry, other: Entry) {
    e.row.client.date != other.row.client.date || e.row.client.instrument != other.row.client.instrument
  }

  /** Work on one entry leaves every other entry on the desk as it was. */
  lemma OthersStayOnDesk(
      book: Book, rows: Rows, positions: seq<Position>, book': Book, rows': Rows, positions': seq<Position>,
      done: Entry, e: Entry)
    requires Isolated(book, rows, book', rows', ChainOf(done.row.client))
    requires OnlyEntry(positions, positions', ChainOf(done.row.client))
    requires OnDesk(book, rows, positions, e) && ApartFrom(done, e)
    ensures OnDesk(book', rows', positions', e)
  {
    hide Tracks, FillOf, AggregatedOrderFill, OnlyEntry;
    OtherChainsStayTracked(book, rows, book', rows', ChainOf(done.row.client), e.row,
      AggregatedOrderFill(e.row).quantity, FillOf(AggregatedOrderFill(e.row)));
    OtherEntriesKept(positions, positions', ChainOf(done.row.client), ChainOf(e.row.client));
    OtherInStep(positions, positions', ChainOf(e.row.client), AggregatedOrderFill(e.row), e.owed);
  }

  lemma NothingBookedYet(positions: seq<Position>, chain: Chain)
    ensures OnlyEntry(positions, positions, chain)
  {
  }

  lemma OtherInStep(positions: seq<Position>, positions': seq<Position>, chain: Chain, aggregate: Order, owed: Fill)
    requires InStep(positions, chain, aggregate, owed)
    requires Held(positions', chain) == Held(positions, chain)
    requires forall j :: 0 <= j < |positions'| && IsEntryOf(positions'[j], chain) ==>
      j < |positions| && positions[j] == positions'[j]
    ensures InStep(positions', chain, aggregate, owed)
  {
    hide Held;
  }

  class EntryDesk {
    const engine: Engine
    const positions: PositionManager

    constructor (engine: Engine, positions: PositionManager)
      ensures this.engine == engine && this.positions == positions
    {
      this.engine, this.positions := engine, positions;
    }

    /** Books a fill; what could not be booked stays owed to the position. */
    method RecordEntryFill(fill: Order, lotSize: int, now: int) returns (err: Error, ghost booked: bool)
      requires OneEntry(positions.rows, ChainOf(fill.client)) && 0 <= Held(positions.rows, ChainOf(fill.client)).lots
      requires 0 <= fill.filled
      modifies positions
      ensures OneEntry(positions.rows, ChainOf(fill.client)) && 0 <= Held(positions.rows, ChainOf(fill.client)).lots
      ensures err == if booked then NoError else PositionFailed
      ensures OnlyEntry(old(positions.rows), positions.rows, ChainOf(fill.client))
      ensures !booked ==> positions.rows == old(positions.rows)
      ensures booked ==>
        && Held(positions.rows, ChainOf(fill.client)) ==
             Held(old(positions.rows), ChainOf(fill.client)).Plus(EntryFillOf(fill))
        && Shows(positions.rows, ChainOf(fill.client), fill)
    {
      var outcome;
      ghost var entry;
      outcome, entry := positions.OnEntryFill(lotSize, fill, now);
      booked := outcome.Booked?;
      err := if outcome.Booked? then NoError else PositionFailed;
    }

    /** Places the first order of an entry. What was executed on the way in is booked at once, unless
        it is only a commission: then the position never hears of it. An order that is on record
        already comes back from there, and its lots are booked once more. */
    method PlaceEntryOrder(id: ClientId, lots: int, book: OrderBook, instrument: Instrument, improveTicks: int,
        lotSize: int)
        returns (placed: Order, err: Error, ghost owed: Fill)
      requires engine.Consistent() && Keyed(engine.store.rows) && id.attempt == 1 && id.side.Buy?
      requires OneEntry(positions.rows, ChainOf(id)) && 0 <= Held(positions.rows, ChainOf(id)).lots
      requires Unused(engine.store.rows, ChainOf(id)) ==> NoEntry(positions.rows, ChainOf(id))
      modifies engine.broker, engine.store, engine.clock, positions
      ensures id in old(engine.store.rows) ==>
        && engine.broker.book == old(engine.broker.book) && engine.store.rows == old(engine.store.rows)
        && engine.store.sent == old(engine.store.sent)
      ensures id in old(engine.store.rows) && err.NoError? ==>
        && placed == old(engine.store.rows)[id]
        && Held(positions.rows, ChainOf(id)) == Rebooked(Held(old(positions.rows), ChainOf(id)), placed)
      ensures Unused(old(engine.store.rows), ChainOf(id)) && err in {NoError, PositionFailed} ==>
        && placed.client == id && placed.quantity == lots && AggregatedOrderFill(placed) == placed
        && id in engine.store.rows && engine.store.rows[id] == placed
        && Tracks(engine.broker.book, engine.store.rows, placed, lots, FillOf(placed))
        && InStep(positions.rows, ChainOf(id), placed, owed)
      ensures Unused(old(engine.store.rows), ChainOf(id)) && err.NoError? ==> owed == Unbooked(placed)
      ensures SentToday(engine.store.sent, id) <= SentToday(old(engine.store.sent), id) + 1
      ensures err.BudgetExceeded? ==>
        && instrument.freeOrderLimit > 0
        && instrument.freeOrderLimit - SentToday(old(engine.store.sent), id) < engine.RequiredFor(id.side)
    {
      hide Tracks, FillOf, Value, SentToday, Unbooked, NoEntry, InStep, Held, EntryFillOf, OneEntry, Unused, Rebooked;
      placed, err := PlaceFirst(engine, id, lots, book, instrument, improveTicks);
      owed := FillOf(placed);
      if !err.NoError? {
        if err.PositionFailed? {
          err := StoreFailed;
        }
        return;
      }
      err, owed := BookFirst(placed, lotSize);
    }

    /** Books what a placed order had executed: of a new order that is what its acknowledgement told, of
        one that was on record already it is all that its row knows. */
    method BookFirst(placed: Order, lotSize: int) returns (err: Error, ghost owed: Fill)
      requires OneEntry(positions.rows, ChainOf(placed.client))
        && 0 <= Held(positions.rows, ChainOf(placed.client)).lots
      modifies engine.clock, positions
      ensures err in {NoError, PositionFailed}
      ensures err.NoError? ==>
        Held(positions.rows, ChainOf(placed.client)) ==
          Rebooked(Held(old(positions.rows), ChainOf(placed.client)), placed)
      ensures NewlyPlaced(old(positions.rows), placed) ==>
        InStep(positions.rows, ChainOf(placed.client), placed, owed) && (err.NoError? ==> owed == Unbooked(placed))
    {
      hide FillOf, Value, EntryFillOf, Held, Unbooked, OnlyEntry, Fill.Plus, Fill.Minus;
      err, owed := NoError, FillOf(placed);
      ghost var before := positions.rows;
      if NewlyPlaced(before, placed) {
        NothingBooked(before, placed);
        UnbookedIs(placed);
      }
      if placed.filled > 0 {
        var now := engine.clock.Now();
        ghost var booked;
        err, booked := RecordEntryFill(placed, lotSize, now);
        if booked && NewlyPlaced(before, placed) {
          owed := FillOf(placed).Minus(EntryFillOf(placed));
          FirstBooked(positions.rows, placed);
        }
      }
    }

    /** Books what a report of the chain's aggregate added to what its row had held. */
    method BookEntry(order: Order, monitored: Order, lotSize: int, ghost kept: Order, ghost owed: Fill)
        returns (err: Error, ghost owes: Fill)
      requires InStep(positions.rows, ChainOf(order.client), AggregatedOrderFill(order), owed)
      requires AggregateStateOf(monitored) == AggregateStateOf(kept)
        && ChainOf(monitored.client) == ChainOf(order.client)
      requires Advances(FillOf(AggregatedOrderFill(order)), FillOf(kept))
        && kept.quantity == AggregatedOrderFill(order).quantity
      modifies engine.clock, positions
      ensures InStep(positions.rows, ChainOf(order.client), kept, owes)
      ensures err in {NoError, PositionFailed}
      ensures owes == if err.NoError? then owed else Unreported(owed, AggregatedOrderFill(order), kept)
      ensures err.NoError? <==> owes == owed
      ensures OnlyEntry(old(positions.rows), positions.rows, ChainOf(order.client))
      ensures old(engine.clock.time) <= engine.clock.time
    {
      hide FillOf, Value, AggregatedOrderFill, InStep, Advances, EntryFillOf;
      var start := AggregatedOrderFill(order);
      owes, err := Unreported(owed, start, kept), NoError;
      UnreportedIff(owed, start, kept);
      StillBooked(positions.rows, ChainOf(order.client), start, kept, owed);
      Renamed(monitored, kept);
      if monitored.filled > start.filled || monitored.commission > start.commission {
        DeltaIsExact(order, monitored);
        var fill := EntryFillDelta(order, monitored);
        var now := engine.clock.Now();
        ghost var before, booked := positions.rows, false;
        err, booked := RecordEntryFill(fill, lotSize, now);
        if booked {
          owes := owed;
          NowBooked(before, positions.rows, ChainOf(order.client), start, kept, fill, owed);
        }
      }
    }

    /** Any number of ticks over an entry, until one fails. `last` is the row the chain ends with and
        `aggregate` what it has executed as far as that was seen; the position and what it is owed
        always make up the aggregate, and a tick without an error owes nothing new. */
    method MonitorEntry(first: Order, cfg: MonitorConfig, lotSize: int, ticks: nat, ghost owed: Fill)
        returns (err: Error, ghost last: Order, ghost aggregate: Order, ghost lost: Fill, ghost owes: Fill,
            ghost before: Order, ghost rounds: seq<R.Round>)
      requires Tracks(engine.broker.book, engine.store.rows, first, AggregatedOrderFill(first).quantity,
          FillOf(AggregatedOrderFill(first)))
      requires first.client in engine.store.rows && engine.store.rows[first.client] == first
      requires InStep(positions.rows, ChainOf(first.client), AggregatedOrderFill(first), owed)
      requires 0 < AggregatedOrderFill(first).quantity <= TWO53
      modifies engine.broker, engine.store, engine.clock, positions
      ensures Stands(Origin(old(engine.broker.book), old(engine.store.sent), first, cfg, engine),
                     engine.broker.book, engine.store.rows, engine.store.sent, aggregate, err, lost)
      ensures ticks > 0 && IsActive(first.status) ==> first.broker in engine.broker.looked
      ensures InStep(positions.rows, ChainOf(first.client), aggregate, owes)
      ensures Advances(FillOf(before), FillOf(aggregate)) && before.quantity == aggregate.quantity
      ensures owes == Unreported(owed, before, aggregate) && (owes == owed <==> FillOf(aggregate) == FillOf(before))
      ensures err.NoError? ==>
        && last.client in engine.store.rows && engine.store.rows[last.client] == last
        && aggregate == AggregatedOrderFill(last) && owes == owed && lost == ZERO
        && Tracks(engine.broker.book, engine.store.rows, last, aggregate.quantity, FillOf(aggregate))
        && RanTo(first, rounds, last, old(engine.broker.heard), engine.broker.heard)
        && last.client == first.client.(attempt := last.client.attempt)
        && Paced(first, cfg, last, engine.clock.time)
      ensures err.WaitFailed? ==>
        && R.Follows(first, rounds) && old(engine.broker.heard) + R.HeardIn(rounds) <= engine.broker.heard
        && AggregateStateOf(R.MemoryRun(first, rounds).aggregate) == AggregateStateOf(aggregate)
      ensures LosesExactly(engine.store.rows, R.MemoryRun(first, rounds).current, err, lost)
    {
      hide Tracks, FillOf, Value, AggregatedOrderFill, InStep, Advances, SentToday, Stands, Underway, AggregateStateOf,
        RanTo, RoundTicks, R.Follows, R.MemoryRun, R.HeardIn, R.Heard, R.Concerns, R.Tick, Ticked, LosesExactly, Paced;
      ghost var o := Origin(engine.broker.book, engine.store.sent, first, cfg, engine);
      err, lost, owes, last, aggregate, rounds := NoError, ZERO, owed, first, AggregatedOrderFill(first), [];
      ghost var heard := engine.broker.heard;
      RunStarts(first, heard);
      ghost var idle := false;
      before := aggregate;
      AdvancesReflexive(aggregate);
      UnreportedIff(owed, before, aggregate);
      Begins(o, engine.broker.book, engine.store.rows, engine.store.sent, engine.clock.time);
      for tick := 0 to ticks
        invariant Underway(o, engine.broker.book, engine.store.rows, engine.store.sent, engine.clock.time, last, idle)
        invariant if tick == 0 then last == first else IsActive(first.status) ==> first.broker in engine.broker.looked
        invariant aggregate == AggregatedOrderFill(last)
          && InStep(positions.rows, ChainOf(first.client), aggregate, owed)
        invariant before == aggregate && Advances(FillOf(before), FillOf(aggregate))
        invariant RanTo(first, rounds, last, heard, engine.broker.heard)
        invariant err.NoError? && owes == owed && lost == ZERO
      {
        var listed, monitored;
        ghost var next, kept, round;
        ghost var heard1 := engine.broker.heard;
        UnderwayMeans(o, engine.broker.book, engine.store.rows, engine.store.sent, engine.clock.time, last, idle);
        listed, monitored, err, next, idle, kept, lost, round := Tick(engine, first, cfg, o, last, idle);
        UnreportedIff(owed, before, kept);
        if !err.NoError? {
          rounds := TickLoses(first, rounds, last, round, kept, engine.store.rows, err, lost, heard, heard1);
          owes := Unreported(owed, before, kept);
          StillBooked(positions.rows, ChainOf(first.client), aggregate, kept, owed);
          aggregate := kept;
          return;
        }
        if listed.Some? {
          ghost var time := engine.clock.time;
          err, owes := BookEntry(listed.value, monitored, lotSize, kept, owed);
          UnderwayLater(o, engine.broker.book, engine.store.rows, engine.store.sent, time, engine.clock.time, next,
            idle);
          if !err.NoError? {
            LosesNone(engine.store.rows, R.MemoryRun(first, rounds).current, err);
            StandsElse(o, engine.broker.book, engine.store.rows, engine.store.sent, kept, err);
            aggregate := kept;
            return;
          }
        }
        if listed.Some? {
          TickRunsOn(first, rounds, last, round, next, kept, heard, heard1, engine.broker.heard);
          rounds := rounds + [round];
        }
        last, aggregate := next, AggregatedOrderFill(next);
        InStepAs(positions.rows, ChainOf(first.client), kept, aggregate, owed);
        before := aggregate;
        AdvancesReflexive(aggregate);
        UnreportedIff(owed, before, aggregate);
      }
      UnderwayMeans(o, engine.broker.book, engine.store.rows, engine.store.sent, engine.clock.time, last, idle);
      StandsNow(o, engine.broker.book, engine.store.rows, engine.store.sent, engine.clock.time, last, idle);
      LosesNone(engine.store.rows, R.MemoryRun(first, rounds).current, err);
    }

    /** What an entry may need for itself and for the exit it leads to. */
    function EntryNeeds(cfg: MonitorConfig): int {
      OrderBudgetNeeded(cfg.maxAttempts, engine.cancelCounts)
      + OrderBudgetNeeded(engine.maxExitAttempts, engine.cancelCounts)
    }

    predicate Short(cfg: MonitorConfig, sent: int) {
      !CheckFreeOrders(cfg.instrument.freeOrderLimit, sent, EntryNeeds(cfg)).NoError?
    }

    /** The trade has an order that was neither refused nor failed: no other one is placed. */
    predicate HasOrder(chain: Chain)
      reads engine.store
    {
      exists c :: c in engine.store.rows && ChainOf(c) == chain && engine.store.rows[c].status !in {Failed, Rejected}
    }

    /** A whole entry: nothing if the trade has its order already; otherwise the check of the day's free
        orders, the first order and, unless that came from the records, its monitoring. With one free
        order more than the check asks for, or with cancels not counted, the exit's allowance is whole at
        the end. Rows are never deleted, so a trade's rows include that of its first order. */
    method RunEntry(id: ClientId, lots: int, book: OrderBook, cfg: MonitorConfig, lotSize: int, ticks: nat)
        returns (err: Error, skipped: bool, refused: bool, ghost aggregate: Order, ghost lost: Fill, ghost owes: Fill,
            ghost placed: Order)
      requires engine.Consistent() && Keyed(engine.store.rows) && id.attempt == 1 && id.side.Buy?
      requires OneEntry(positions.rows, ChainOf(id)) && 0 <= Held(positions.rows, ChainOf(id)).lots
      requires Unused(engine.store.rows, ChainOf(id)) ==> NoEntry(positions.rows, ChainOf(id))
      requires Unused(engine.store.rows, ChainOf(id)) || id in engine.store.rows
      requires 0 < lots <= TWO53
      modifies engine.broker, engine.store, engine.clock, positions
      ensures skipped <==> old(HasOrder(ChainOf(id)))
      ensures skipped <==>
        exists c :: && c in old(engine.store.rows) && old(engine.store.rows)[c].status !in {Failed, Rejected}
                    && c == ClientId(id.date, id.instrument, Buy, c.attempt)
      ensures refused == (!skipped && Short(cfg, SentToday(old(engine.store.sent), id)))
      ensures
        var attempts, exits := if cfg.maxAttempts > 1 then cfg.maxAttempts else 1,
          if engine.maxExitAttempts > 1 then engine.maxExitAttempts else 1;
        var needed := attempts + exits + if engine.cancelCounts then attempts - 1 + exits - 1 else 0;
        refused <==> && !skipped && 0 <= cfg.instrument.freeOrderLimit
                     && (cfg.instrument.freeOrderLimit > 0 ==>
                           cfg.instrument.freeOrderLimit < SentToday(old(engine.store.sent), id) + needed)
      ensures skipped || refused || id in old(engine.store.rows) ==>
        engine.broker.book == old(engine.broker.book) && engine.store.rows == old(engine.store.rows)
      ensures !skipped && Unused(old(engine.store.rows), ChainOf(id)) && err.NoError? ==>
        && aggregate.quantity == lots
        && WithinOrder(engine.broker.book, engine.store.rows, ChainOf(id), lots)
        && Conserved(engine.broker.book, engine.store.rows, ChainOf(id), FillOf(aggregate))
        && InStep(positions.rows, ChainOf(id), aggregate, Unbooked(placed))
      ensures err.BudgetExceeded? ==> refused
      ensures !refused && !skipped && cfg.instrument.freeOrderLimit > 0 ==>
        cfg.instrument.freeOrderLimit - SentToday(engine.store.sent, id)
        >= OrderBudgetNeeded(engine.maxExitAttempts, engine.cancelCounts) - engine.CancelCost()
      ensures
        (&& !refused && !skipped && cfg.instrument.freeOrderLimit > 0
         && cfg.instrument.freeOrderLimit - SentToday(old(engine.store.sent), id)
            >= EntryNeeds(cfg) + engine.CancelCost()) ==>
        cfg.instrument.freeOrderLimit - SentToday(engine.store.sent, id)
        >= OrderBudgetNeeded(engine.maxExitAttempts, engine.cancelCounts)
    {
      hide Tracks, InStep, FillOf, SentToday, Conserved, WithinOrder, Unbooked, AggregatedOrderFill, OneEntry, Held,
        NoEntry, Unused;
      lost, owes := ZERO, ZERO;
      placed := Order(id, NoId, 0.0, lots, 0, 0.0, New, 0.0, Malformed(""), 0);
      aggregate, refused, err := placed, false, NoError;
      skipped := HasOrder(ChainOf(id));
      CheckIff(cfg.instrument.freeOrderLimit, SentToday(engine.store.sent, id), EntryNeeds(cfg));
      if skipped {
        return;
      }
      err := CheckFreeOrders(cfg.instrument.freeOrderLimit, SentToday(engine.store.sent, id), EntryNeeds(cfg));
      refused := !err.NoError?;
      if refused {
        return;
      }
      var first;
      var recorded := id in engine.store.rows;
      Used(engine.store.rows, id);
      first, err, owes := PlaceEntryOrder(id, lots, book, cfg.instrument, cfg.improveTicks, lotSize);
      placed, aggregate := first, first;
      if !err.NoError? || recorded {
        return;
      }
      ghost var sent, before, last, since, rounds := engine.store.sent, engine.broker.book, first, first, [];
      err, last, aggregate, lost, owes, since, rounds := MonitorEntry(first, cfg, lotSize, ticks, owes);
      StandsWhole(Origin(before, sent, first, cfg, engine), engine.broker.book, engine.store.rows, engine.store.sent,
        aggregate, err, lost);
    }

    /** One scheduler tick over all entries, in the order the store lists them, until one fails: every
        other entry is left on the desk, whatever happened to the failed one. */
    method MonitorEntryOrders(orders: seq<Order>, cfgs: seq<MonitorConfig>, lotSizes: seq<int>, ghost desk: seq<Entry>)
        returns (err: Error, failed: nat, ghost after: seq<Entry>)
      requires |cfgs| == |orders| == |lotSizes| == |desk| && Apart(desk)
      requires forall i :: 0 <= i < |orders| ==>
        && desk[i].row == orders[i]
        && OnDesk(engine.broker.book, engine.store.rows, positions.rows, desk[i])
      modifies engine.broker, engine.store, engine.clock, positions
      ensures |after| == |desk|
      ensures if err.NoError? then failed == |desk| else failed < |desk|
      ensures forall i :: 0 <= i < |desk| && i <= failed ==> orders[i].broker in engine.broker.looked
      ensures forall i :: 0 <= i < |desk| && i != failed ==>
        && OnDesk(engine.broker.book, engine.store.rows, positions.rows, after[i])
        && ChainOf(after[i].row.client) == ChainOf(desk[i].row.client) && after[i].owed == desk[i].owed
    {
      hide OnDesk, Isolated, OnlyEntry;
      after, err, failed := desk, NoError, |orders|;
      for i := 0 to |orders|
        invariant |after| == |desk| && err.NoError? && failed == |desk| && Apart(after)
        invariant forall j :: 0 <= j < |desk| ==>
          && OnDesk(engine.broker.book, engine.store.rows, positions.rows, after[j])
          && ChainOf(after[j].row.client) == ChainOf(desk[j].row.client) && after[j].owed == desk[j].owed
        invariant forall j :: i <= j < |desk| ==> after[j] == desk[j]
        invariant forall j :: 0 <= j < i ==> orders[j].broker in engine.broker.looked
      {
        ghost var book, rows, held, e := engine.broker.book, engine.store.rows, positions.rows, after[i];
        ghost var next;
        err, next := MonitorOneEntry(orders[i], cfgs[i], lotSizes[i], e);
        forall j | 0 <= j < |desk| && j != i
          ensures OnDesk(engine.broker.book, engine.store.rows, positions.rows, after[j])
        {
          assert ApartFrom(e, after[j]);
          OthersStayOnDesk(book, rows, held, engine.broker.book, engine.store.rows, positions.rows, e, after[j]);
        }
        if !err.NoError? {
          failed := i;
          return;
        }
        after := after[i := next];
      }
    }

    method MonitorOneEntry(order: Order, cfg: MonitorConfig, lotSize: int, ghost e: Entry)
        returns (err: Error, ghost next: Entry)
      requires e.row == order && OnDesk(engine.broker.book, engine.store.rows, positions.rows, e)
      modifies engine.broker, engine.store, engine.clock, positions
      ensures old(engine.broker.looked) + {order.broker} <= engine.broker.looked
      ensures Isolated(old(engine.broker.book), old(engine.store.rows), engine.broker.book, engine.store.rows,
          ChainOf(order.client))
      ensures OnlyEntry(old(positions.rows), positions.rows, ChainOf(order.client))
      ensures err.NoError? ==>
        && OnDesk(engine.broker.book, engine.store.rows, positions.rows, next)
        && ChainOf(next.row.client) == ChainOf(order.client) && next.owed == e.owed
    {
      hide Tracks, Isolated, OnlyEntry, Concluded, FillOf, AggregatedOrderFill, InStep, Advances, R.Concerns, R.Heard,
        R.Tick, Carries, Ticked, LosesExactly, Closed, Idle, Spent, SentToday;
      next := e;
      var start := AggregatedOrderFill(order);
      AggregateKeepsIdentity(order);
      var monitored;
      ghost var latest, kept, lost, round;
      monitored, err, latest, kept, lost, round := engine.MonitorOnce(order, cfg);
      if !err.NoError? {
        NothingBookedYet(positions.rows, ChainOf(order.client));
        return;
      }
      NextTickStarts(engine.broker.book, engine.store.rows, start, latest, kept, lost);
      ConcludedStands(engine.broker.book, engine.store.rows, start, latest, kept, err, lost);
      ghost var row, owes := engine.store.rows[latest.client], e.owed;
      err, owes := BookEntry(order, monitored, lotSize, kept, e.owed);
      if err.NoError? {
        InStepAs(positions.rows, ChainOf(order.client), kept, AggregatedOrderFill(row), e.owed);
        next := Entry(row, e.owed);
      }
    }
  }
}
