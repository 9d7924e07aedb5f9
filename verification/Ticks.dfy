/** A chain monitored tick by tick: every tick reads whatever active order the store lists and starts
    from the aggregate the store holds for it. */
module Ticks {
  import opened Arithmetic
  import opened RawState
  import opened Domain
  import opened Fills
  import opened Ledger
  import opened Gateway
  import opened Execution
  import R = Refinement

  // ---------------------------------------------------------------- between ticks

  /** What the last tick stored is what the next one starts from, so long as the lots survive being
      written as JSON numbers. */
  lemma NextTickStarts(book: Book, rows: Rows, start: Order, latest: Order, aggregate: Order, lost: Fill)
    requires Concluded(book, rows, start, latest, aggregate, NoError, lost)
    requires 0 < start.quantity <= TWO53
    ensures latest.client in rows && lost == ZERO
    ensures
      var row := rows[latest.client];
      && row.client == latest.client && row.broker == latest.broker && row.created == latest.created
      && AggregateStateOf(AggregatedOrderFill(row)) == AggregateStateOf(aggregate)
      && Tracks(book, rows, row, start.quantity, FillOf(AggregatedOrderFill(row)))
  {
    TrackedWithinOrder(book, rows, latest, start.quantity, FillOf(aggregate));
    RemainingLots(book, rows, latest, start.quantity, FillOf(aggregate));
    var row := rows[latest.client];
    var raw :| row.raw == WithAggregate(raw, AggregateStateOf(aggregate));
    SmallIsRepresentable(aggregate.quantity);
    SmallIsRepresentable(aggregate.filled);
    AggregateRoundTrip(raw, AggregateStateOf(aggregate));
    Renamed(AggregatedOrderFill(row), aggregate);
    Restated(book, rows, latest, row, start.quantity, FillOf(aggregate));
  }

  /** The scheduler lists every active order; of a tracked chain that is at most the latest one. */
  lemma OnlyLatestIsActive(book: Book, rows: Rows, last: Order, quantity: int, fill: Fill, id: ClientId)
    requires Tracks(book, rows, last, quantity, fill)
    requires id in rows && ChainOf(id) == ChainOf(last.client) && IsActive(rows[id].status)
    ensures id == last.client
  {
  }

  // ---------------------------------------------------------------- a monitored chain

  /** What was on the broker's book and the day's counters when monitoring began. */
  datatype Origin = Origin(book: Book, sent: Counters, first: Order, cfg: MonitorConfig, engine: Engine)

  function Attempts(o: Origin, last: Order): int {
    last.client.attempt - o.first.client.attempt
  }

  function Allowed(o: Origin): int {
    o.engine.RepostsLeft(o.first, o.cfg)
  }

  /** Every replacement of a dated first order waited for its turn, and none is dated ahead of the clock. */
  ghost predicate Paced(first: Order, cfg: MonitorConfig, last: Order, time: int) {
    var replacements := last.client.attempt - first.client.attempt;
    && (0 < first.created ==> 0 < last.created && Spaced(replacements, cfg, first.created, last.created))
    && (replacements != 0 ==> last.created <= time)
  }

  lemma PacedFurther(first: Order, cfg: MonitorConfig, last: Order, next: Order, time: int, later: int)
    requires Paced(first, cfg, last, time) && time <= later && first.client.attempt <= last.client.attempt
    requires
      if next.client.attempt == last.client.attempt then next.created == last.created
      else
        && next.client.attempt == last.client.attempt + 1 && next.created <= later
        && (last.created != 0 ==> cfg.quotes && 0 < cfg.repostAfter && last.created + cfg.repostAfter <= next.created)
    ensures Paced(first, cfg, next, later)
  {
    hide Spaced;
    SpacedFurther(last.client.attempt - first.client.attempt, cfg, first.created, last.created, next.created);
  }

  lemma PacedSince(first: Order, cfg: MonitorConfig, time: int)
    ensures Paced(first, cfg, first, time)
  {
  }

  /** `last` is the chain's latest row; `idle` says that a cancel was paid for without a replacement. */
  ghost predicate Underway(o: Origin, book: Book, rows: Rows, sent: Counters, time: int, last: Order, idle: bool) {
    && last.client in rows && rows[last.client] == last
    && AggregatedOrderFill(last).quantity == AggregatedOrderFill(o.first).quantity
    && Tracks(book, rows, last, AggregatedOrderFill(last).quantity, FillOf(AggregatedOrderFill(last)))
    && last.client == o.first.client.(attempt := last.client.attempt)
    && 0 <= Attempts(o, last) <= Allowed(o) && |book| - |o.book| <= Attempts(o, last)
    && Paced(o.first, o.cfg, last, time)
    && SentToday(sent, o.first.client) <=
         SentToday(o.sent, o.first.client) + o.engine.SpentOnReposts(Allowed(o)) + o.engine.CancelCost()
    && (!IsTerminal(last.status) ==>
          && (idle ==> Idle(book, last.broker, o.cfg.deadline, time) && Attempts(o, last) < Allowed(o))
          && SentToday(sent, o.first.client)
             <= SentToday(o.sent, o.first.client) + o.engine.SpentOnReposts(Attempts(o, last))
                + (if idle then o.engine.CancelCost() else 0))
  }

  /** A chain has not posted more than its attempts, and what it has cost the day's counter is bounded,
      so that it can only have run out of orders if there were too few for it to begin with. */
  ghost predicate Costs(o: Origin, book: Book, sent: Counters, err: Error) {
    && |book| - |o.book| <= Allowed(o)
    && SentToday(sent, o.first.client) <=
         SentToday(o.sent, o.first.client) + o.engine.SpentOnReposts(Allowed(o)) + o.engine.CancelCost()
    && (err.BudgetExceeded? ==>
          && o.cfg.instrument.freeOrderLimit > 0 && Allowed(o) > 0
          && o.cfg.instrument.freeOrderLimit - SentToday(o.sent, o.first.client)
             < o.engine.SpentOnReposts(Allowed(o) - 1) + o.engine.CancelCost()
               + o.engine.RequiredFor(o.first.client.side))
  }

  /** What holds whenever a tick returns, with or without an error: `aggregate` is what the chain has
      executed as far as it was seen, less `lost` when a wait failed, the chain fits its order, and its
      costs are bounded. */
  ghost predicate Stands(o: Origin, book: Book, rows: Rows, sent: Counters, aggregate: Order, err: Error, lost: Fill) {
    && aggregate.quantity == AggregatedOrderFill(o.first).quantity
    && WithinOrder(book, rows, ChainOf(o.first.client), aggregate.quantity)
    && Conserved(book, rows, ChainOf(o.first.client), FillOf(aggregate).Plus(lost))
    && (lost == ZERO || err.WaitFailed?)
    && Costs(o, book, sent, err)
  }

  lemma Begins(o: Origin, book: Book, rows: Rows, sent: Counters, time: int)
    requires o.book == book && o.sent == sent && o.first.client in rows && rows[o.first.client] == o.first
    requires Tracks(book, rows, o.first, AggregatedOrderFill(o.first).quantity, FillOf(AggregatedOrderFill(o.first)))
    ensures Underway(o, book, rows, sent, time, o.first, false)
  {
    hide Tracks, FillOf, Paced;
    PacedSince(o.first, o.cfg, time);
  }

  lemma StandsNow(o: Origin, book: Book, rows: Rows, sent: Counters, time: int, last: Order, idle: bool)
    requires Underway(o, book, rows, sent, time, last, idle)
    ensures forall err: Error :: !err.BudgetExceeded? ==>
      Stands(o, book, rows, sent, AggregatedOrderFill(last), err, ZERO)
  {
    hide Tracks, WithinOrder, Conserved, FillOf, SentToday;
    TrackedWithinOrder(book, rows, last, AggregatedOrderFill(last).quantity, FillOf(AggregatedOrderFill(last)));
    FillAlgebra(FillOf(AggregatedOrderFill(last)), last, last);
  }

  lemma UnderwayMeans(o: Origin, book: Book, rows: Rows, sent: Counters, time: int, last: Order, idle: bool)
    requires Underway(o, book, rows, sent, time, last, idle)
    ensures last.client in rows && rows[last.client] == last && ChainOf(last.client) == ChainOf(o.first.client)
    ensures AggregatedOrderFill(last).quantity == AggregatedOrderFill(o.first).quantity
    ensures Tracks(book, rows, last, AggregatedOrderFill(last).quantity, FillOf(AggregatedOrderFill(last)))
    ensures last.client == o.first.client.(attempt := last.client.attempt) && Paced(o.first, o.cfg, last, time)
  {
  }

  lemma UnderwayLater(o: Origin, book: Book, rows: Rows, sent: Counters, time: int, later: int, last: Order, idle: bool)
    requires Underway(o, book, rows, sent, time, last, idle) && time <= later
    ensures Underway(o, book, rows, sent, later, last, idle)
  {
    hide Tracks, SentToday, FillOf, Paced;
    PacedFurther(o.first, o.cfg, last, last, time, later);
  }

  lemma StandsWhole(o: Origin, book: Book, rows: Rows, sent: Counters, aggregate: Order, err: Error, lost: Fill)
    requires Stands(o, book, rows, sent, aggregate, err, lost)
    ensures lost == ZERO ==> Conserved(book, rows, ChainOf(o.first.client), FillOf(aggregate))
  {
    FillAlgebra(FillOf(aggregate), aggregate, aggregate);
  }

  lemma StandsElse(o: Origin, book: Book, rows: Rows, sent: Counters, aggregate: Order, err: Error)
    requires Stands(o, book, rows, sent, aggregate, NoError, ZERO) && !err.BudgetExceeded?
    ensures Stands(o, book, rows, sent, aggregate, err, ZERO)
  {
  }

  /** A tick over a row: what it asked was about the row, was heard, and made the next row of it. */
  ghost predicate RoundTicks(last: Order, round: R.Round, next: Order, kept: Order,
      heard: seq<Event>, heard': seq<Event>) {
    && R.Concerns(round, last) && heard' == heard + R.Heard(round)
    && Carries(next, R.Tick(last, round)) && AggregateStateOf(kept) == Ticked(last, round)
  }

  /** The row is what a run in memory over the same rounds would hold, and so is its aggregate. */
  ghost predicate RanTo(first: Order, rounds: seq<R.Round>, row: Order, heard: seq<Event>, heard': seq<Event>) {
    var m := R.MemoryRun(first, rounds);
    && R.Follows(first, rounds) && heard' == heard + R.HeardIn(rounds)
    && Carries(row, m.current) && FillOf(R.LastSeen(m)) == FillOf(m.current)
    && AggregateStateOf(AggregatedOrderFill(row)) == AggregateStateOf(m.aggregate)
  }

  lemma RunStarts(first: Order, heard: seq<Event>)
    ensures RanTo(first, [], first, heard, heard)
  {
    hide AggregatedOrderFill, FillOf;
  }

  /** One more tick, over the row, is one more round of the run. */
  lemma TickRunsOn(first: Order, rounds: seq<R.Round>, last: Order, round: R.Round, next: Order, kept: Order,
      heard: seq<Event>, heard1: seq<Event>, heard2: seq<Event>)
    requires RanTo(first, rounds, last, heard, heard1) && RoundTicks(last, round, next, kept, heard1, heard2)
    requires AggregateStateOf(AggregatedOrderFill(next)) == AggregateStateOf(kept)
    ensures RanTo(first, rounds + [round], next, heard, heard2)
  {
    hide R.MemoryRound, R.MemoryRun, R.Held, R.LastSeen, R.Tick, R.Follows, R.Concerns, R.Heard, R.HeardIn, FillOf,
      AggregatedOrderFill;
    RoundOfRow(first, rounds, last, round, heard, heard1);
    R.OneMoreRound(first, rounds, round);
  }

  /** What a round makes of the row it makes of the order in memory. */
  lemma RoundOfRow(first: Order, rounds: seq<R.Round>, last: Order, round: R.Round,
      heard: seq<Event>, heard1: seq<Event>)
    requires RanTo(first, rounds, last, heard, heard1) && R.Concerns(round, last)
    ensures
      var m := R.MemoryRound(R.MemoryRun(first, rounds), round);
      && R.Concerns(round, R.MemoryRun(first, rounds).current)
      && R.Alike(R.Tick(last, round), m.current) && FillOf(R.LastSeen(m)) == FillOf(m.current)
      && AggregateStateOf(m.aggregate) == Ticked(last, round)
  {
    hide R.MemoryRound, R.MemoryRun, R.Held, R.LastSeen, R.Tick, R.Follows, R.HeardIn, FillOf, AggregatedOrderFill;
    var row := R.Held(last, AggregatedOrderFill(last));
    HeldIsSeen(last, AggregatedOrderFill(last));
    R.RoundDependsOn(R.MemoryRun(first, rounds), row, round);
    R.TickIsRound(last, round);
  }

  /** A tick whose wait failed had polled the order; what was lost is what its row shows beyond that. */
  lemma TickLoses(first: Order, rounds: seq<R.Round>, last: Order, round: R.Round, kept: Order, rows: Rows, err: Error,
      lost: Fill, heard: seq<Event>, heard1: seq<Event>)
      returns (longer: seq<R.Round>)
    requires RanTo(first, rounds, last, heard, heard1) && LosesExactly(rows, R.Tick(last, round), err, lost)
    requires err.WaitFailed? ==> R.Concerns(round, last) && AggregateStateOf(kept) == Ticked(last, round)
    ensures LosesExactly(rows, R.MemoryRun(first, longer).current, err, lost)
    ensures err.WaitFailed? ==>
      && R.Follows(first, longer) && heard + R.HeardIn(longer) == heard1 + R.Heard(round)
      && AggregateStateOf(R.MemoryRun(first, longer).aggregate) == AggregateStateOf(kept)
  {
    hide R.MemoryRound, R.MemoryRun, R.LastSeen, R.Tick, R.Follows, R.Concerns, R.Heard, R.HeardIn, FillOf,
      AggregatedOrderFill, Ticked;
    longer := rounds;
    if err.WaitFailed? {
      RoundOfRow(first, rounds, last, round, heard, heard1);
      R.OneMoreRound(first, rounds, round);
      longer := rounds + [round];
      LosesAlike(rows, R.Tick(last, round), R.MemoryRun(first, longer).current, err, lost);
    }
  }

  lemma LosesNone(rows: Rows, polled: Order, err: Error)
    requires !err.WaitFailed?
    ensures LosesExactly(rows, polled, err, ZERO)
  {
  }

  /** One of the active orders the store lists for a trade, if there is one. */
  method ListActiveOrder(store: Store, chain: Chain) returns (listed: Option<Order>)
    ensures listed.None? ==> forall id ::
      id in store.rows && ChainOf(id) == chain && store.rows[id].broker.Id? ==> !IsActive(store.rows[id].status)
    ensures listed.Some? ==> exists id ::
      && id in store.rows && ChainOf(id) == chain && listed.value == store.rows[id]
      && IsActive(store.rows[id].status) && store.rows[id].broker.Id?
  {
    if id :| id in store.rows && ChainOf(id) == chain && IsActive(store.rows[id].status) && store.rows[id].broker.Id? {
      return Some(store.rows[id]);
    }
    return None;
  }

  /** The engine looks at the chain's latest order, which is active. */
  method TickLatest(engine: Engine, order: Order, cfg: MonitorConfig, ghost o: Origin, ghost idle: bool)
      returns (monitored: Order, err: Error, ghost next: Order, ghost idle': bool, ghost kept: Order, ghost lost: Fill,
          ghost round: R.Round)
    requires o.engine == engine && o.cfg == cfg && IsActive(order.status)
    requires Underway(o, engine.broker.book, engine.store.rows, engine.store.sent, engine.clock.time, order, idle)
    requires 0 < AggregatedOrderFill(order).quantity <= TWO53
    modifies engine.broker, engine.store, engine.clock
    ensures old(engine.broker.looked) + {order.broker} <= engine.broker.looked
    ensures Stands(o, engine.broker.book, engine.store.rows, engine.store.sent, kept, err, lost)
    ensures kept.quantity == AggregatedOrderFill(order).quantity
      && Advances(FillOf(AggregatedOrderFill(order)), FillOf(kept))
    ensures err.NoError? ==>
      && RoundTicks(order, round, next, kept, old(engine.broker.heard), engine.broker.heard)
      && Underway(o, engine.broker.book, engine.store.rows, engine.store.sent, engine.clock.time, next, idle')
      && AggregateStateOf(AggregatedOrderFill(next)) == AggregateStateOf(kept) && lost == ZERO
      && AggregateStateOf(monitored) == AggregateStateOf(kept) && ChainOf(monitored.client) == ChainOf(order.client)
    ensures err.WaitFailed? ==>
      && round.Poll? && old(engine.broker.heard) + R.Heard(round) <= engine.broker.heard
      && R.Concerns(round, order) && AggregateStateOf(kept) == Ticked(order, round)
    ensures LosesExactly(engine.store.rows, R.Tick(order, round), err, lost)
  {
    hide Tracks, Concluded, FillOf, Value, AggregatedOrderFill, Advances, SentToday, WithinOrder, Conserved,
      Evolved, Spent, Idle, Ticked, Carries, R.Concerns, R.Heard, R.Tick, Closed, Underway, Stands, Costs, Isolated,
      Paced;
    UnderwayMeans(o, engine.broker.book, engine.store.rows, engine.store.sent, engine.clock.time, order, idle);
    next, idle' := order, idle;
    AggregateKeepsIdentity(order);
    ghost var book0, rows0, time0, sent0 := engine.broker.book, engine.store.rows, engine.clock.time, engine.store.sent;
    ghost var latest;
    monitored, err, latest, kept, lost, round := engine.MonitorOnce(order, cfg);
    ghost var start := AggregatedOrderFill(order);
    ConcludedStands(engine.broker.book, engine.store.rows, start, latest, kept, err, lost);
    SameCounter(order.client, o.first.client);
    UnderwaySpends(o, book0, rows0, sent0, time0, order, idle, engine.broker.book, engine.store.sent, err);
    TickStands(o, engine.broker.book, engine.store.rows, engine.store.sent, kept, err, lost);
    if err.NoError? {
      IdleStays(book0, engine.broker.book, order.broker, cfg.deadline, time0, engine.clock.time);
      NextTickStarts(engine.broker.book, engine.store.rows, start, latest, kept, lost);
      next := engine.store.rows[latest.client];
      idle' := latest.client == order.client
        && (idle || SentToday(engine.store.sent, order.client) > SentToday(sent0, order.client));
      StillUnderway(o, book0, rows0, sent0, time0, order, idle,
                    engine.broker.book, engine.store.rows, engine.store.sent, engine.clock.time, next, idle');
    }
  }

  /** One tick: the engine looks once at the order the store lists, which is the chain's latest. */
  method Tick(engine: Engine, first: Order, cfg: MonitorConfig, ghost o: Origin, ghost last: Order, ghost idle: bool)
      returns (listed: Option<Order>, monitored: Order, err: Error, ghost next: Order, ghost idle': bool,
          ghost kept: Order, ghost lost: Fill, ghost round: R.Round)
    requires o.engine == engine && o.first == first && o.cfg == cfg
    requires Underway(o, engine.broker.book, engine.store.rows, engine.store.sent, engine.clock.time, last, idle)
    requires 0 < AggregatedOrderFill(first).quantity <= TWO53
    modifies engine.broker, engine.store, engine.clock
    ensures listed.None? ==> err.NoError? && next == last && idle' == idle && kept == AggregatedOrderFill(last)
    ensures listed.None? ==> engine.broker.heard == old(engine.broker.heard)
    ensures listed.Some? && err.NoError? ==>
      RoundTicks(last, round, next, kept, old(engine.broker.heard), engine.broker.heard)
    ensures err.WaitFailed? ==>
      && listed.Some? && round.Poll? && old(engine.broker.heard) + R.Heard(round) <= engine.broker.heard
      && R.Concerns(round, last) && AggregateStateOf(kept) == Ticked(last, round)
    ensures LosesExactly(engine.store.rows, R.Tick(last, round), err, lost)
    ensures listed.Some? ==> listed.value == last && last.broker in engine.broker.looked
    ensures listed.Some? <==> IsActive(last.status)
    ensures old(engine.broker.looked) <= engine.broker.looked
    ensures Stands(o, engine.broker.book, engine.store.rows, engine.store.sent, kept, err, lost)
    ensures kept.quantity == AggregatedOrderFill(last).quantity
      && Advances(FillOf(AggregatedOrderFill(last)), FillOf(kept))
    ensures err.NoError? ==>
      && Underway(o, engine.broker.book, engine.store.rows, engine.store.sent, engine.clock.time, next, idle')
      && AggregateStateOf(AggregatedOrderFill(next)) == AggregateStateOf(kept) && lost == ZERO
      && (listed.Some? ==>
            AggregateStateOf(monitored) == AggregateStateOf(kept) && ChainOf(monitored.client) == ChainOf(first.client))
  {
    hide Tracks, FillOf, AggregatedOrderFill, Advances, Ticked, R.Concerns, R.Heard, R.Tick, Underway, Stands,
      RoundTicks;
    round := R.Poll(NO_LOOK);
    UnderwayMeans(o, engine.broker.book, engine.store.rows, engine.store.sent, engine.clock.time, last, idle);
    next, idle', kept, lost, monitored, err := last, idle, AggregatedOrderFill(last), ZERO, first, NoError;
    StandsNow(o, engine.broker.book, engine.store.rows, engine.store.sent, engine.clock.time, last, idle);
    AdvancesReflexive(kept);
    listed := ListActiveOrder(engine.store, ChainOf(first.client));
    LatestIsListed(engine.broker.book, engine.store.rows, last, kept.quantity, FillOf(kept), listed);
    if listed.Some? {
      monitored, err, next, idle', kept, lost, round := TickLatest(engine, listed.value, cfg, o, idle);
    }
  }

  /** What the scheduler lists of a tracked chain is its latest row, if that is active. */
  lemma LatestIsListed(book: Book, rows: Rows, last: Order, quantity: int, fill: Fill, listed: Option<Order>)
    requires Tracks(book, rows, last, quantity, fill) && last.client in rows && rows[last.client] == last
    requires listed.None? ==> forall id ::
      id in rows && ChainOf(id) == ChainOf(last.client) && rows[id].broker.Id? ==> !IsActive(rows[id].status)
    requires listed.Some? ==> exists id ::
      && id in rows && ChainOf(id) == ChainOf(last.client) && listed.value == rows[id] && IsActive(rows[id].status)
    ensures listed.Some? <==> IsActive(last.status)
    ensures listed.Some? ==> listed.value == last
  {
    if listed.Some? {
      var id :| id in rows && ChainOf(id) == ChainOf(last.client) && listed.value == rows[id]
                && IsActive(rows[id].status);
      OnlyLatestIsActive(book, rows, last, quantity, fill, id);
    }
  }

  /** How far one tick can move the counter and the book, from the engine's contract. */
  lemma UnderwaySpends(
      o: Origin, book0: Book, rows0: Rows, sent0: Counters, time0: int, last: Order, idle: bool,
      book: Book, sent: Counters, err: Error)
    requires Underway(o, book0, rows0, sent0, time0, last, idle) && !IsTerminal(last.status)
    requires var spent := Spent(last, o.cfg, book0, time0);
             && |book| <= |book0| + 1 && (spent ==> |book| == |book0|)
             && SentToday(sent, o.first.client)
                <= SentToday(sent0, o.first.client) + o.engine.CancelCost() + (if spent then 0 else 1)
             && (err.BudgetExceeded? ==>
                   && !spent && o.cfg.instrument.freeOrderLimit > 0
                   && o.cfg.instrument.freeOrderLimit - SentToday(sent0, o.first.client)
                      < o.engine.CancelCost() + o.engine.RequiredFor(o.first.client.side))
    ensures Costs(o, book, sent, err)
  {
    hide Tracks, FillOf, AggregatedOrderFill, Idle, SentToday;
    SpentBefore(o, last, book0, time0, idle);
  }

  lemma TickStands(o: Origin, book: Book, rows: Rows, sent: Counters, kept: Order, err: Error, lost: Fill)
    requires Costs(o, book, sent, err) && kept.quantity == AggregatedOrderFill(o.first).quantity
    requires WithinOrder(book, rows, ChainOf(o.first.client), kept.quantity)
    requires Conserved(book, rows, ChainOf(o.first.client), FillOf(kept).Plus(lost))
      && (lost == ZERO || err.WaitFailed?)
    ensures Stands(o, book, rows, sent, kept, err, lost)
  {
  }

  lemma StillUnderway(
      o: Origin, book0: Book, rows0: Rows, sent0: Counters, time0: int, last: Order, idle: bool,
      book: Book, rows: Rows, sent: Counters, time: int, next: Order, idle': bool)
    requires Underway(o, book0, rows0, sent0, time0, last, idle) && !IsTerminal(last.status)
    requires Costs(o, book, sent, NoError)
    requires next.client in rows && rows[next.client] == next
    requires AggregatedOrderFill(next).quantity == AggregatedOrderFill(o.first).quantity
    requires Tracks(book, rows, next, AggregatedOrderFill(next).quantity, FillOf(AggregatedOrderFill(next)))
    requires
      var spent := Spent(last, o.cfg, book0, time0);
      var before, after := SentToday(sent0, o.first.client), SentToday(sent, o.first.client);
      if next.client == last.client then
        && |book| == |book0| && next.broker == last.broker && after <= before + o.engine.CancelCost()
        && idle' == (idle || after > before)
        && (Idle(book0, last.broker, o.cfg.deadline, time0) ==> Idle(book, next.broker, o.cfg.deadline, time))
        && (after > before ==> Idle(book, next.broker, o.cfg.deadline, time) && (spent ==> IsTerminal(next.status)))
      else
        && !spent && !idle' && |book| <= |book0| + 1 && after <= before + o.engine.CancelCost() + 1
        && next.client == last.client.(attempt := last.client.attempt + 1)
    requires
      && time0 <= time
      && if next.client == last.client then next.created == last.created
         else
           && next.created <= time
           && (last.created != 0 ==>
                 o.cfg.quotes && 0 < o.cfg.repostAfter && last.created + o.cfg.repostAfter <= next.created)
    ensures Underway(o, book, rows, sent, time, next, idle')
  {
    hide Tracks, FillOf, AggregatedOrderFill, Idle, SentToday, Spent, Paced;
    SpentBefore(o, last, book0, time0, idle);
    PacedFurther(o.first, o.cfg, last, next, time0, time);
  }

  lemma SpentBefore(o: Origin, last: Order, book: Book, time: int, idle: bool)
    requires idle ==> Idle(book, last.broker, o.cfg.deadline, time)
    requires o.first.client.attempt <= last.client.attempt
    ensures idle ==> Spent(last, o.cfg, book, time)
    ensures !Spent(last, o.cfg, book, time) ==> Attempts(o, last) < Allowed(o)
  {
    hide Idle;
  }

  lemma ConcludedStands(book: Book, rows: Rows, start: Order, latest: Order, kept: Order, err: Error, lost: Fill)
    requires Concluded(book, rows, start, latest, kept, err, lost)
    ensures WithinOrder(book, rows, ChainOf(start.client), kept.quantity)
    ensures Conserved(book, rows, ChainOf(start.client), FillOf(kept).Plus(lost))
    ensures kept.quantity == start.quantity && Advances(FillOf(start), FillOf(kept))
      && (lost == ZERO || err.WaitFailed?)
  {
  }

  // ---------------------------------------------------------------- the first order

  /** A first order that was just acknowledged opens a tracked chain. */
  lemma PlacedIsTracked(book: Book, rows: Rows, book': Book, rows': Rows, placed: Order, id: ClientId, quantity: int)
    requires PostedOnce(book, rows) && PostStep(book, rows, book', rows', id, quantity)
    requires PostAcknowledged(book, rows, book', rows', placed, id, quantity)
    requires id.attempt == 1 && Unused(rows, ChainOf(id))
    ensures Tracks(book', rows', placed, quantity, FillOf(placed))
    ensures 0 <= placed.filled && 0.0 <= placed.commission && (placed.filled > 0 ==> placed.avg > 0.0)
  {
    var n := |book|;
    forall j | 0 <= j < n ensures book'[j].client == book[j].client && ChainOf(book'[j].client) != ChainOf(id) {
      assert Honours(book[j], book'[j]);
      assert book[j].client in rows;
    }
    PlacedOnce(book, rows, book', rows', placed);
    FirstIsTracked(book', rows', placed);
    PositivePrice(placed, book'[n]);
  }

  lemma PositivePrice(placed: Order, order: BrokerOrder)
    requires order.Sound() && FillOf(placed) == order.Done()
    ensures 0 <= placed.filled && 0.0 <= placed.commission && (placed.filled > 0 ==> placed.avg > 0.0)
  {
    assert FillOf(placed).lots == placed.filled && FillOf(placed).value == placed.avg * placed.filled as real;
    PositiveTimes(placed.avg, placed.filled);
    PositiveTimes(order.avg, order.filled);
  }

  lemma FirstIsTracked(book: Book, rows: Rows, placed: Order)
    requires AllSound(book) && PostedOnce(book, rows) && Latest(rows, placed.client) && placed.client.attempt == 1
    requires |book| > 0 && placed.broker == Id(|book| - 1) && book[|book| - 1].client == placed.client
    requires placed.client in rows && rows[placed.client] == placed
    requires book[|book| - 1].quantity == placed.quantity && FillOf(placed) == book[|book| - 1].Done()
    requires forall j :: 0 <= j < |book| - 1 ==> ChainOf(book[j].client) != ChainOf(placed.client)
    ensures Tracks(book, rows, placed, placed.quantity, FillOf(placed))
  {
    hide Sum, PostedOnce, Latest, Advances;
    var n, chain := |book| - 1, ChainOf(placed.client);
    OnlyOrder(book, rows, chain, n, NONE, Missed);
    OnlyOrder(book, rows, chain, n, NONE, Seen);
    OnlyOrder(book, rows, chain, n, n, Missed);
    OnlyOrder(book, rows, chain, n, n, Seen);
    assert FillOf(placed).lots == placed.filled;
    AdvancesReflexive(placed);
  }

  lemma PlacedOnce(book: Book, rows: Rows, book': Book, rows': Rows, placed: Order)
    requires PostedOnce(book, rows) && |book'| == |book| + 1 && book'[|book|].client == placed.client
    requires forall j :: 0 <= j < |book| ==> book'[j].client == book[j].client
    requires placed.client !in rows && rows' == rows[placed.client := placed]
    ensures PostedOnce(book', rows')
  {
    forall j | 0 <= j < |book| ensures book'[j].client != placed.client {
      assert book[j].client in rows;
    }
  }

  lemma OnlyOrder(book: Book, rows: Rows, chain: Chain, n: nat, skip: int, column: Column)
    requires n + 1 == |book| && forall j :: 0 <= j < n ==> ChainOf(book[j].client) != chain
    ensures Sum(book, rows, chain, |book|, skip, column) == Term(book, rows, chain, n, skip, column)
  {
    NoneOfChain(book, rows, chain, n, skip, column);
  }

  lemma {:induction false} NoneOfChain(book: Book, rows: Rows, chain: Chain, n: nat, skip: int, column: Column)
    requires n <= |book| && forall j :: 0 <= j < n ==> ChainOf(book[j].client) != chain
    ensures Sum(book, rows, chain, n, skip, column) == ZERO
  {
    hide Part, Fill.Plus;
    if n > 0 {
      NoneOfChain(book, rows, chain, n - 1, skip, column);
      PlusNothing(ZERO);
    }
  }

  /** The store has no order of the chain. */
  ghost predicate Unused(rows: Rows, chain: Chain) {
    forall c :: c in rows ==> ChainOf(c) != chain
  }

  lemma Used(rows: Rows, id: ClientId)
    ensures id in rows ==> !Unused(rows, ChainOf(id))
  {
  }

  /** Every row is filed under its own id. */
  ghost predicate Keyed(rows: Rows) {
    forall c :: c in rows ==> rows[c].client == c
  }

  /** Places the first order of a chain. If the store has it already, that row is what comes back and
      nothing is posted. */
  method PlaceFirst(engine: Engine, id: ClientId, lots: int, book: OrderBook, instrument: Instrument, improveTicks: int)
      returns (placed: Order, err: Error)
    requires engine.Consistent() && id.attempt == 1
    modifies engine.broker, engine.store, engine.clock
    ensures id in old(engine.store.rows) ==>
      && engine.broker.book == old(engine.broker.book) && engine.store.rows == old(engine.store.rows)
      && engine.store.sent == old(engine.store.sent)
      && (err.NoError? ==> placed == old(engine.store.rows)[id])
    ensures err.NoError? && id !in old(engine.store.rows) ==> placed.client == id
    ensures err.NoError? && Unused(old(engine.store.rows), ChainOf(id)) ==>
      && placed.client == id && placed.quantity == lots && AggregatedOrderFill(placed) == placed
      && 0 <= placed.filled && 0.0 <= placed.commission && (placed.filled > 0 ==> placed.avg > 0.0)
      && id in engine.store.rows && engine.store.rows[id] == placed
      && Tracks(engine.broker.book, engine.store.rows, placed, lots, FillOf(placed))
    ensures SentToday(engine.store.sent, id) <= SentToday(old(engine.store.sent), id) + 1
    ensures err.BudgetExceeded? ==>
      && instrument.freeOrderLimit > 0
      && instrument.freeOrderLimit - SentToday(old(engine.store.sent), id) < engine.RequiredFor(id.side)
  {
    hide Tracks, FillOf, Value, Evolved;
    ghost var before, rows := engine.broker.book, engine.store.rows;
    placed, err := engine.Place(id, lots, book, instrument, improveTicks);
    if err.NoError? && Unused(rows, ChainOf(id)) {
      PlacedIsTracked(before, rows, engine.broker.book, engine.store.rows, placed, id, lots);
      TrackedWithinOrder(engine.broker.book, engine.store.rows, placed, lots, FillOf(placed));
    }
  }

  // ---------------------------------------------------------------- the check before a trade

  /** A trade may start only when this many orders are left for the day; a negative limit is none, and
      an unconfigured one refuses every trade. */
  function CheckFreeOrders(limit: int, sent: int, needed: int): Error {
    if limit < 0 then NoError
    else if limit == 0 then PolicyUnspecified
    else if limit - sent < needed then BudgetExceeded
    else NoError
  }

  /** A trade is let through without a limit, or with as many orders left as it needs. */
  lemma CheckIff(limit: int, sent: int, needed: int)
    ensures CheckFreeOrders(limit, sent, needed).NoError? <==> limit < 0 || (0 < limit && sent + needed <= limit)
    ensures CheckFreeOrders(limit, sent, needed).PolicyUnspecified? <==> limit == 0
    ensures CheckFreeOrders(limit, sent, needed) in {NoError, PolicyUnspecified, BudgetExceeded}
  {
  }
}
