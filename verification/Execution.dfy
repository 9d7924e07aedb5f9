/** The cancel/replace execution engine: an order is posted, polled, cancelled, waited on until it is
    terminal and reposted for what is left, while the broker fills it whenever it likes. */
module Execution {
  import opened RawState
  import opened Domain
  import opened Fills
  import opened Ledger
  import opened Gateway
  import opened Pricing
  import R = Refinement

  datatype Error =
    | NoError | OrdersDisabled | StoreFailed | BrokerFailed | QuoteFailed | QuoteStale
    | EmptyOrderBook | InvalidTick | BudgetExceeded | PolicyUnspecified | WaitFailed | Interrupted | PositionFailed

  datatype Mode = Backtest | Paper | Sandbox | LiveReadonly | LiveTrade {
    predicate AllowsBrokerOrders() {
      Sandbox? || LiveTrade?
    }
  }

  /** Best prices of an order book and the quote's time stamp, 0 when it has none. */
  datatype OrderBook = OrderBook(bid: Option<real>, ask: Option<real>, time: int)

  /** A positive daily limit is enforced, a negative one means no limit, zero is unconfigured. */
  datatype Instrument = Instrument(tick: real, freeOrderLimit: int)

  datatype MonitorConfig = MonitorConfig(
    deadline: Option<int>, poll: int, maxAttempts: int, repostAfter: int,
    instrument: Instrument, improveTicks: int, quotes: bool)

  datatype RepostResult = RepostResult(current: Option<Order>, changed: bool, cancelled: Option<Order>)

  const HALF_SECOND: int := 500_000_000

  /** What stands in for an answer that did not come. */
  const NO_ANSWER := Report(NoId, 0, 0.0, New, 0.0, Malformed(""))

  const NO_LOOK := R.Snapshot([], NO_ANSWER, None)

  /** Orders one side of a trade may need for that many attempts: a post each, and under the
      cancel-counting policy a cancel before every repost. */
  function OrderBudgetNeeded(attempts: int, cancelCounts: bool): int {
    var n := if attempts <= 0 then 1 else attempts;
    if cancelCounts then n + (n - 1) else n
  }

  function QuoteContext(bid: real, ask: real, time: int): Json {
    var quote := map["best_bid" := Decimal(bid), "best_ask" := Decimal(ask), "mid" := Decimal((bid + ask) / 2.0)];
    Object(if time == 0 then quote else quote["quote_ts" := Number(time as real)])
  }

  /** The mid price is as far from the bid as from the ask, and only a dated quote says when it was. */
  lemma QuoteTells(bid: real, ask: real, time: int)
    ensures
      var quote := QuoteContext(bid, ask, time).fields;
      && quote.Keys == {"best_bid", "best_ask", "mid"} + (if time == 0 then {} else {"quote_ts"})
      && quote["best_bid"] == Decimal(bid) && quote["best_ask"] == Decimal(ask)
      && quote["mid"].Decimal? && quote["mid"].decimal - bid == ask - quote["mid"].decimal
      && (time != 0 ==> quote["quote_ts"] == Number(time as real))
  {
  }

  function OrderContext(book: OrderBook): Raw
    requires book.bid.Some? && book.ask.Some?
  {
    Parsed(Object(map["local_quote" := QuoteContext(book.bid.value, book.ask.value, book.time)]))
  }

  function FillQuote(book: OrderBook, now: int, deltaLots: int): Json
    requires book.bid.Some? && book.ask.Some?
  {
    Object(map["quote" := QuoteContext(book.bid.value, book.ask.value, book.time),
               "recorded_at" := Number(now as real), "filled_lots_delta" := Number(deltaLots as real)])
  }

  /** A two-sided quote noted between these times, beside the lots that had just been filled. */
  ghost predicate Notes(quote: Json, from: int, to: int, deltaLots: int) {
    exists book: OrderBook, now: int ::
      book.bid.Some? && book.ask.Some? && from <= now <= to && quote == FillQuote(book, now, deltaLots)
  }

  /** The limit is the one that a two-sided quote gives for that side. */
  predicate Quoted(book: OrderBook, instrument: Instrument, side: Side, improveTicks: int, limit: real) {
    && book.bid.Some? && book.ask.Some?
    && LimitPrice(side, book.bid.value, book.ask.value, instrument.tick, improveTicks) == Some(limit)
  }

  /** What is quoted rests: it neither crosses the book nor falls a tick behind its own side. */
  lemma QuotedRests(book: OrderBook, instrument: Instrument, side: Side, improveTicks: int, limit: real)
    requires Quoted(book, instrument, side, improveTicks, limit) && book.bid.value < book.ask.value
    ensures instrument.tick > 0.0
    ensures side.Buy? ==> book.bid.value - instrument.tick < limit < book.ask.value
    ensures side.Sell? ==> book.bid.value < limit < book.ask.value + instrument.tick
  {
    hide LimitBuyPrice, LimitSellPrice;
    NeedsTick(book.bid.value, book.ask.value, instrument.tick, improveTicks);
    BuyPriceDoesNotCross(book.bid.value, book.ask.value, instrument.tick, improveTicks);
    SellPriceDoesNotCross(book.bid.value, book.ask.value, instrument.tick, improveTicks);
  }

  /** A new order's raw state holds no aggregate. */
  lemma NothingAggregated(book: OrderBook)
    requires book.bid.Some? && book.ask.Some?
    ensures forall answer :: ReadAggregate(MergeRaw(OrderContext(book), answer)).None?
  {
  }

  /** The aggregate was written into the row's raw state. */
  ghost predicate Stored(rows: Rows, id: ClientId, aggregate: AggregateState) {
    id in rows && exists raw :: rows[id].raw == WithAggregate(raw, aggregate)
  }

  /** What one attempt to post can do to the broker's book and the stored rows. */
  ghost predicate PostStep(book: Book, rows: Rows, book': Book, rows': Rows, id: ClientId, quantity: int) {
    && |book| <= |book'| <= |book| + 1 && Evolved(book, book') && AllSound(book')
    && (id in rows ==> book' == book && rows' == rows)
    && (rows' == rows || (id in rows' && id !in rows && rows' == rows[id := rows'[id]] && rows'[id].client == id))
    && (|book'| > |book| ==>
          && id in rows'
          && var order := book'[|book|];
             order.client == id && order.quantity == quantity && order.ack == order.Done())
  }

  /** What a post leaves of the draft's row and of the day's counter, by how it ended: row and
      reservation are written together and undone together, unless the store `failed` to undo them. */
  ghost predicate Settled(rows: Rows, rows': Rows, sent: Counters, sent': Counters, id: ClientId, limit: int,
      required: int, err: Error, failed: bool) {
    && (id in rows || id !in rows' || err in {OrdersDisabled, BudgetExceeded} ==> rows' == rows && sent' == sent)
    && (err.BrokerFailed? ==> id !in rows && id in rows')
    && (id !in rows && id in rows' ==>
          && (limit > 0 ==> 1 <= limit - SentToday(sent, id) && required <= limit - SentToday(sent, id))
          && (if err.BrokerFailed? && !failed then rows'[id].status.Failed? && Counted(sent, sent', id, 0)
              else (!err.NoError? ==> rows'[id].status.Sent?) && Counted(sent, sent', id, 1)))
    && (err.StoreFailed? ==> failed)
  }

  lemma SettledUnposted(rows: Rows, sent: Counters, id: ClientId, limit: int, required: int, err: Error, failed: bool)
    requires !err.BrokerFailed? && (err.StoreFailed? ==> failed)
    ensures Settled(rows, rows, sent, sent, id, limit, required, err, failed)
  {
  }

  lemma SettledPosted(rows: Rows, rows': Rows, sent: Counters, sent': Counters, id: ClientId, limit: int,
      required: int, err: Error, failed: bool)
    requires id !in rows && id in rows' && err in {NoError, StoreFailed, BrokerFailed} && (err.StoreFailed? ==> failed)
    requires limit > 0 ==> SentToday(sent, id) + 1 <= limit && SentToday(sent, id) + required <= limit
    requires if err.BrokerFailed? && !failed then
               rows'[id].status.Failed? && sent' == Incremented(Incremented(sent, id, 1), id, -1)
             else (!err.NoError? ==> rows'[id].status.Sent?) && sent' == Incremented(sent, id, 1)
    ensures Settled(rows, rows', sent, sent', id, limit, required, err, failed)
    ensures SentToday(sent', id) <= SentToday(sent, id) + 1 && (limit > 0 ==> SentToday(sent', id) <= limit)
  {
  }

  /** The broker's last answer is that it took this order. */
  ghost predicate Joins(heard: seq<Event>, heard': seq<Event>, placed: Order, context: Raw) {
    && |heard'| == |heard| + 1 && heard <= heard' && heard'[|heard|].PostAnswered?
    && placed == R.Newcomer(heard'[|heard|].ack, context, placed.created).Placed()
  }

  ghost predicate PostAcknowledged(book: Book, rows: Rows, book': Book, rows': Rows, placed: Order, id: ClientId,
      quantity: int) {
    && |book'| == |book| + 1
    && placed.client == id && placed.broker == Id(|book|) && placed.quantity == quantity
    && FillOf(placed) == book'[|book|].Done()
    && rows' == rows[id := placed]
  }

  /** What a repost leaves behind, by how it ended. `latest` is the order as it was last seen, and
      `left` what the aggregate would be if it knew that. */
  ghost predicate RepostOutcome(
      book: Book, book': Book, rows': Rows, order: Order, deadline: Option<int>, time: int,
      quantity: int, fill: Fill, result: RepostResult, err: Error, latest: Order)
  {
    && |book'| <= |book| + 1 && Evolved(book, book')
    && SameOrder(order, latest) && Advances(FillOf(order), FillOf(latest))
    && latest.client in rows' && SameTerms(rows'[latest.client], latest)
    && (result.cancelled.Some? ==> result.cancelled == Some(latest) && result.current.Some?)
    && result.changed == result.cancelled.Some?
    && (result.cancelled.None? && !err.WaitFailed? ==> latest == order)
    && var left := fill.Plus(FillOf(latest).Minus(FillOf(order)));
    && (!err.NoError? ==>
          && WithinOrder(book', rows', ChainOf(order.client), quantity)
          && Conserved(book', rows', ChainOf(order.client), left))
    && (err.NoError? && result.cancelled.None? ==> Tracks(book', rows', order, quantity, fill))
    && (err.NoError? && result.cancelled.Some? ==>
          && Tracks(book', rows', result.current.value, quantity, left)
          && (|| Abandoned(book, book', order, deadline, time, result, latest)
              || (IsTerminal(latest.status) && Replaced(rows', order, quantity - left.lots, result.current.value))))
    && (result.cancelled.Some? && fill.lots + latest.filled - order.filled >= quantity ==>
          err.NoError? && result.current == Some(latest))
  }

  /** What a repost heard: of the cancelled order until the wait was over, and of its replacement. A wait
      that failed had seen the order up to `latest`. */
  ghost predicate Ended(heard: seq<Event>, heard': seq<Event>, order: Order, result: RepostResult, err: Error,
      latest: Order, looks: seq<Report>, next: Option<R.Newcomer>) {
    && heard <= heard' && latest == SeenAfter(order, looks) && AllAbout(looks, order.broker)
    && (err.WaitFailed? ==> result.cancelled.None?)
    && (err.NoError? && result.cancelled.None? ==> heard' == heard)
    && (err.NoError? && result.cancelled.Some? ==>
          && looks != [] && heard' == heard + R.EndAnswers(order.broker, looks, next)
          && (if next.None? then result.current == Some(latest)
              else result.current == Some(next.value.Placed()) && 0 <= next.value.ack.report.filled
                   && next.value.ack.client == order.client.(attempt := order.client.attempt + 1)))
  }

  /** The order is over at the broker, all of it has been seen, and its row says so. */
  ghost predicate Finished(book: Book, rows: Rows, order: Order) {
    && order.broker.Id? && order.broker.number < |book| && order.client in rows
    && IsTerminal(book[order.broker.number].status) && order.filled == book[order.broker.number].filled
    && IsTerminal(order.status) && IsTerminal(rows[order.client].status)
  }

  /** Cancelled but not replaced: the order is finished, or the deadline has come. */
  ghost predicate Abandoned(book: Book, book': Book, order: Order, deadline: Option<int>, time: int,
      result: RepostResult, latest: Order) {
    result.current == Some(latest) && |book'| == |book| && Idle(book', order.broker, deadline, time)
  }

  ghost predicate Replaced(rows': Rows, order: Order, quantity: int, next: Order) {
    && next.client == order.client.(attempt := order.client.attempt + 1)
    && next.client in rows' && rows'[next.client] == next && next.quantity == quantity
  }

  lemma Declined(book: Book, rows: Rows, order: Order, quantity: int, fill: Fill)
    requires Tracks(book, rows, order, quantity, fill)
    ensures forall deadline, time, current, err: Error | current in {None, Some(order)}
      && (err.NoError? || current.None?) && !err.WaitFailed? ::
      RepostOutcome(book, book, rows, order, deadline, time, quantity, fill, RepostResult(current, false, None), err,
        order)
  {
    EvolvedReflexive(book);
    TrackedWithinOrder(book, rows, order, quantity, fill);
    assert fill.Plus(FillOf(order).Minus(FillOf(order))) == fill;
  }

  /** The order was cancelled without a successor: it is finished, or the deadline has come. */
  ghost predicate Idle(book: Book, id: BrokerId, deadline: Option<int>, time: int) {
    && id.Id? && id.number < |book|
    && (Due(deadline, time) || IsTerminal(book[id.number].status))
  }

  ghost predicate NotReplaced(book: Book, book': Book, order: Order, latest: Order, deadline: Option<int>, time: int,
      changed: bool) {
    && latest.broker == order.broker && |book'| == |book|
    && (changed ==> Idle(book', order.broker, deadline, time))
  }

  /** Nothing was handed back: the order is as it was, or the repost failed before its wait was over. */
  lemma OutcomeDeclined(book: Book, book': Book, rows': Rows, order: Order, deadline: Option<int>, time: int,
      quantity: int, fill: Fill, result: RepostResult, err: Error, latest: Order)
    requires RepostOutcome(book, book', rows', order, deadline, time, quantity, fill, result, err, latest)
    requires result.cancelled.None?
    ensures !result.changed && |book'| <= |book| + 1 && Evolved(book, book')
    ensures latest.client == order.client && order.client in rows' && FillOf(rows'[order.client]) == FillOf(latest)
    ensures Advances(FillOf(order), FillOf(latest)) && (!err.WaitFailed? ==> latest == order)
    ensures if err.NoError? then Tracks(book', rows', order, quantity, fill)
            else WithinOrder(book', rows', ChainOf(order.client), quantity)
                 && Conserved(book', rows', ChainOf(order.client), fill.Plus(FillOf(latest).Minus(FillOf(order))))
  {
    hide Tracks, WithinOrder, Conserved, FillOf, Evolved, Advances;
    RowShows(rows', latest);
  }

  /** The order was cancelled: what it gained is owed to the aggregate, and the chain goes on with it or
      with its replacement unless the repost failed afterwards. */
  lemma OutcomeCancelled(book: Book, book': Book, rows': Rows, order: Order, deadline: Option<int>, time: int,
      quantity: int, fill: Fill, result: RepostResult, err: Error, latest: Order)
    requires RepostOutcome(book, book', rows', order, deadline, time, quantity, fill, result, err, latest)
    requires result.cancelled.Some?
    ensures result.changed && |book'| <= |book| + 1 && Evolved(book, book')
    ensures result.cancelled == Some(latest) && result.current.Some? && SameOrder(order, latest)
    ensures order.client in rows' && SameTerms(rows'[order.client], latest)
    ensures Advances(FillOf(order), FillOf(latest))
    ensures var left := fill.Plus(FillOf(latest).Minus(FillOf(order)));
            if err.NoError? then Tracks(book', rows', result.current.value, quantity, left)
            else WithinOrder(book', rows', ChainOf(order.client), quantity)
                 && Conserved(book', rows', ChainOf(order.client), left)
    ensures err.NoError? ==>
      if result.current.value.client == order.client then
        && NotReplaced(book, book', order, result.current.value, deadline, time, true)
        && result.current == Some(latest)
      else result.current.value.client == NextAttempt(order) && IsTerminal(latest.status)
    ensures fill.lots + latest.filled - order.filled >= quantity ==> err.NoError? && result.current == Some(latest)
  {
    hide Tracks, WithinOrder, Conserved, FillOf, Evolved, Advances, SameTerms, Idle;
  }

  /** What shrinks while an engine waits: the time to the deadline or, without one, the patience. */
  function Left(deadline: Option<int>, time: int, patience: nat): int {
    if deadline.Some? then deadline.value - time else patience
  }

  /** No tick will replace this order any more. */
  ghost predicate Spent(order: Order, cfg: MonitorConfig, book: Book, time: int) {
    cfg.maxAttempts <= order.client.attempt || Idle(book, order.broker, cfg.deadline, time)
  }

  /** An order is over: at the broker, or because it was withdrawn at the deadline. */
  ghost predicate Closed(book: Book, asked: set<BrokerId>, id: BrokerId, deadline: Option<int>, time: int) {
    && id.Id? && id.number < |book|
    && (IsTerminal(book[id.number].status) || (Due(deadline, time) && id in asked))
  }

  lemma IdleStays(book: Book, later: Book, id: BrokerId, deadline: Option<int>, time: int, later': int)
    requires Evolved(book, later) && time <= later'
    ensures Idle(book, id, deadline, time) ==> Idle(later, id, deadline, later')
  {
    if id.Id? && id.number < |book| && IsTerminal(book[id.number].status) {
      TerminalStays(book, later, id.number);
    }
  }

  lemma IdleIsClosed(book: Book, asked: set<BrokerId>, id: BrokerId, deadline: Option<int>, time: int)
    requires Idle(book, id, deadline, time) && id in asked
    ensures Closed(book, asked, id, deadline, time)
  {
  }

  lemma SameCounter(a: ClientId, b: ClientId)
    requires ChainOf(a) == ChainOf(b)
    ensures forall sent :: SentToday(sent, a) == SentToday(sent, b)
  {
  }

  /** A draft, at most one new order on the broker's book, and whatever the draft's row says afterwards. */
  lemma PostKeeps(book: Book, rows: Rows, book': Book, rows': Rows, id: ClientId, quantity: int)
    requires AllSound(book) && PostedOnce(book, rows) && id !in rows
    requires AllSound(book') && Evolved(book, book') && |book'| <= |book| + 1
    requires |book'| > |book| ==>
      book'[|book|].client == id && book'[|book|].quantity == quantity && book'[|book|].ack == book'[|book|].Done()
    requires id in rows' && rows' == rows[id := rows'[id]] && rows'[id].client == id
    ensures PostedOnce(book', rows') && PostStep(book, rows, book', rows', id, quantity)
  {
    forall j | 0 <= j < |book| ensures book'[j].client == book[j].client && book[j].client in rows {
      assert Honours(book[j], book'[j]);
    }
  }

  /** No round `before` this began when a repost of an order with attempts left was due, counting from when
      it was `posted` or last tried, unless the deadline has come or one was turned down. */
  ghost predicate Prompt(cfg: MonitorConfig, order: Order, posted: int, before: int, declined: bool, time: int) {
    0 < cfg.repostAfter && cfg.quotes && order.client.attempt < cfg.maxAttempts && !declined ==>
      before < posted + cfg.repostAfter || Due(cfg.deadline, time)
  }

  /** Reposts so far neither came too soon nor were left out. */
  ghost predicate OnTime(first: Order, cfg: MonitorConfig, order: Order, from: int, posted: int, before: int,
      declined: bool, time: int) {
    && from <= posted <= time && from <= before
    && Spaced(order.client.attempt - first.client.attempt, cfg, from, posted)
    && Prompt(cfg, order, posted, before, declined, time)
  }

  lemma OnTimeAtFirst(order: Order, cfg: MonitorConfig, from: int, time: int)
    requires from <= time
    ensures OnTime(order, cfg, order, from, time, from, false, time)
  {
  }

  /** One more round, from an order to itself or to its replacement. */
  lemma OnTimeFurther(first: Order, cfg: MonitorConfig, order: Order, next: Order, from: int, posted: int, before: int,
      declined: bool, time: int, posted': int, declined': bool, time': int)
    requires OnTime(first, cfg, order, from, posted, before, declined, time)
    requires 0 <= next.client.attempt - order.client.attempt <= 1
    requires time <= time' && (declined ==> declined') && posted' in {posted, time'}
    requires next.client.attempt > order.client.attempt ==>
      cfg.quotes && 0 < cfg.repostAfter && posted + cfg.repostAfter <= time' == posted'
    requires
      (&& cfg.quotes && order.client.attempt < cfg.maxAttempts
       && 0 < cfg.repostAfter && posted + cfg.repostAfter <= time) ==>
      posted' == time' || Due(cfg.deadline, time') || declined'
    ensures OnTime(first, cfg, next, from, posted', time, declined', time')
  {
    SpacedFurther(order.client.attempt - first.client.attempt, cfg, from, posted, posted');
  }

  lemma OnTimeToTheEnd(first: Order, cfg: MonitorConfig, order: Order, latest: Order, from: int, posted: int,
      before: int, declined: bool, time: int, declined': bool, time': int)
    requires OnTime(first, cfg, order, from, posted, before, declined, time)
    requires 0 <= latest.client.attempt - order.client.attempt <= 1 && time <= time' && (declined ==> declined')
    requires latest.client.attempt > order.client.attempt ==>
      cfg.quotes && 0 < cfg.repostAfter && posted + cfg.repostAfter <= time'
    ensures from <= posted <= time' && from <= before && Prompt(cfg, latest, posted, before, declined', time')
    ensures Spaced(latest.client.attempt - first.client.attempt, cfg, from, time')
  {
    SpacedFurther(order.client.attempt - first.client.attempt, cfg, from, posted, time');
  }

  /** An order keeps its age; its replacement was posted in between. */
  ghost predicate Aged(order: Order, latest: Order, from: int, to: int) {
    if latest.client == order.client then latest.created == order.created else from <= latest.created <= to
  }

  /** Time enough has passed for so many replacements, each waiting for its turn. */
  ghost predicate Spaced(replacements: int, cfg: MonitorConfig, from: int, to: int) {
    && (replacements != 0 ==> cfg.quotes && 0 < cfg.repostAfter)
    && (0 < cfg.repostAfter ==> from + replacements * cfg.repostAfter <= to)
  }

  lemma SpacedFurther(n: int, cfg: MonitorConfig, from: int, to: int, later: int)
    ensures from <= to ==> Spaced(0, cfg, from, to)
    ensures Spaced(n, cfg, from, to) && to <= later ==> Spaced(n, cfg, from, later)
    ensures Spaced(n, cfg, from, to) && cfg.quotes && 0 < cfg.repostAfter && to + cfg.repostAfter <= later ==>
              Spaced(n + 1, cfg, from, later)
  {
    assert (n + 1) * cfg.repostAfter == n * cfg.repostAfter + cfg.repostAfter;
  }

  function NextAttempt(order: Order): ClientId {
    order.client.(attempt := order.client.attempt + 1)
  }

  lemma NextIsNew(book: Book, rows: Rows, order: Order, quantity: int, fill: Fill)
    requires Tracks(book, rows, order, quantity, fill)
    ensures NextAttempt(order) !in rows && AllSound(book) && PostedOnce(book, rows) && order.client in rows
  {
  }

  /** What the broker did to the other orders meanwhile, before it took the new one. */
  lemma MovedMeanwhile(book: Book, rows: Rows, order: Order, book': Book, quantity: int, fill: Fill)
    requires Tracks(book, rows, order, quantity, fill) && Finished(book, rows, order)
    requires |book| <= |book'| && Evolved(book, book') && AllSound(book')
    ensures var moved := book'[..|book|];
            Tracks(moved, rows, order, quantity, fill) && Finished(moved, rows, order)
  {
    hide FillOf;
    var moved := book'[..|book|];
    BrokerMoveKeeps(book, moved, rows, order, quantity, fill);
    assert Honours(book[order.broker.number], moved[order.broker.number]);
  }

  lemma ReplacementTracks(book: Book, rows: Rows, cancelled: Order, book': Book, rows': Rows, next: Order,
      quantity: int, fill: Fill)
    requires Tracks(book, rows, cancelled, quantity, fill) && Finished(book, rows, cancelled)
    requires PostStep(book, rows, book', rows', NextAttempt(cancelled), quantity - fill.lots)
    requires PostAcknowledged(book, rows, book', rows', next, NextAttempt(cancelled), quantity - fill.lots)
    ensures Tracks(book', rows', next, quantity, fill) && 0 <= next.filled
  {
    hide FillOf;
    MovedMeanwhile(book, rows, cancelled, book', quantity, fill);
    var moved := book'[..|book|];
    assert book' == moved + [book'[|book|]];
    ReplacementKeeps(moved, rows, cancelled, next, book'[|book|], quantity, fill);
    TrackedWithinOrder(book', rows', next, quantity, fill);
  }

  /** A post that failed left at most a draft, and at most an order that nothing knows the number of. */
  lemma ReplacementBroken(book: Book, rows: Rows, cancelled: Order, book': Book, rows': Rows, quantity: int, fill: Fill)
    requires Tracks(book, rows, cancelled, quantity, fill) && Finished(book, rows, cancelled)
    requires PostStep(book, rows, book', rows', NextAttempt(cancelled), quantity - fill.lots)
    requires var id := NextAttempt(cancelled); id in rows' ==> rows'[id].broker == NoId
    ensures WithinOrder(book', rows', ChainOf(cancelled.client), quantity)
    ensures Conserved(book', rows', ChainOf(cancelled.client), fill)
  {
    hide FillOf;
    MovedMeanwhile(book, rows, cancelled, book', quantity, fill);
    NextIsNew(book, rows, cancelled, quantity, fill);
    var id, moved := NextAttempt(cancelled), book'[..|book|];
    if |book'| > |book| {
      assert book' == moved + [book'[|book|]];
      UnrecordedReplacement(moved, rows, cancelled, rows'[id], book'[|book|], quantity, fill);
    } else {
      assert book' == moved;
      TrackedWithinOrder(moved, rows, cancelled, quantity, fill);
      if rows' != rows {
        DraftRowKeeps(moved, rows, rows'[id], ChainOf(cancelled.client), quantity, fill);
      }
    }
  }

  lemma PostIsolated(book: Book, rows: Rows, book': Book, rows': Rows, id: ClientId, quantity: int)
    requires PostStep(book, rows, book', rows', id, quantity) && PostedOnce(book', rows')
    ensures Isolated(book, rows, book', rows', ChainOf(id))
  {
  }

  lemma StoredIsolated(book: Book, rows: Rows, rows': Rows, id: ClientId, chain: Chain)
    requires AllSound(book) && PostedOnce(book, rows) && ChainOf(id) == chain
    requires id in rows' && rows' == rows[id := rows'[id]]
    ensures Isolated(book, rows, book, rows', chain)
  {
    EvolvedReflexive(book);
    RowIsolated(book, rows, book, rows', id, chain);
  }

  lemma IsolatedMeans(book: Book, rows: Rows, book': Book, rows': Rows, chain: Chain)
    requires Isolated(book, rows, book', rows', chain)
    ensures Evolved(book, book') && AllSound(book') && PostedOnce(book', rows')
  {
  }

  lemma RowShows(rows: Rows, order: Order)
    requires order.client in rows
    ensures SameTerms(rows[order.client], order) ==> FillOf(rows[order.client]) == FillOf(order)
  {
  }

  lemma AdvancesReflexive(order: Order)
    ensures Advances(FillOf(order), FillOf(order))
  {
  }

  /** How a monitoring step leaves its chain. Whatever the error: at most one order live, no more
      capacity than was ordered, and `aggregate`, which started out as `start`, is the sum of the
      last-seen fills, short of them only by `lost` when a wait failed. Without an error the latest
      order is tracked and its row holds the aggregate. */
  ghost predicate Concluded(book: Book, rows: Rows, start: Order, latest: Order, aggregate: Order, err: Error,
      lost: Fill) {
    && WithinOrder(book, rows, ChainOf(start.client), start.quantity)
    && Conserved(book, rows, ChainOf(start.client), FillOf(aggregate).Plus(lost))
    && (lost == ZERO || (err.WaitFailed? && lost.lots >= 0))
    && aggregate.quantity == start.quantity && Advances(FillOf(start), FillOf(aggregate))
    && (err.NoError? ==>
          && Tracks(book, rows, latest, start.quantity, FillOf(aggregate))
          && Stored(rows, latest.client, AggregateStateOf(aggregate)))
  }

  lemma Concludes(book: Book, rows: Rows, start: Order, latest: Order, aggregate: Order, err: Error)
    requires Tracks(book, rows, latest, start.quantity, FillOf(aggregate))
    requires ChainOf(latest.client) == ChainOf(start.client)
    requires SameOrder(start, aggregate) && Advances(FillOf(start), FillOf(aggregate))
    requires err.NoError? ==> Stored(rows, latest.client, AggregateStateOf(aggregate))
    ensures Concluded(book, rows, start, latest, aggregate, err, ZERO)
  {
    TrackedWithinOrder(book, rows, latest, start.quantity, FillOf(aggregate));
    FillAlgebra(FillOf(aggregate), aggregate, aggregate);
  }

  lemma ConcludesBroken(book: Book, rows: Rows, start: Order, latest: Order, aggregate: Order, err: Error, lost: Fill)
    requires WithinOrder(book, rows, ChainOf(start.client), start.quantity)
    requires Conserved(book, rows, ChainOf(start.client), FillOf(aggregate).Plus(lost))
    requires SameOrder(start, aggregate) && Advances(FillOf(start), FillOf(aggregate))
    requires !err.NoError? && (lost == ZERO || (err.WaitFailed? && lost.lots >= 0))
    ensures Concluded(book, rows, start, latest, aggregate, err, lost)
  {
  }

  /** Status, raw state and identity of the returned aggregate do not matter to its conclusion. */
  lemma ConcludesAs(book: Book, rows: Rows, start: Order, latest: Order, aggregate: Order, err: Error, lost: Fill,
      shown: Order)
    requires Concluded(book, rows, start, latest, aggregate, err, lost)
    requires AggregateStateOf(shown) == AggregateStateOf(aggregate)
    ensures Concluded(book, rows, start, latest, shown, err, lost) && FillOf(shown) == FillOf(aggregate)
  {
    hide Tracks, WithinOrder, Conserved, Advances;
    Renamed(aggregate, shown);
  }

  lemma ConcludedTracks(book: Book, rows: Rows, start: Order, latest: Order, aggregate: Order, lost: Fill)
    requires Concluded(book, rows, start, latest, aggregate, NoError, lost)
    ensures Tracks(book, rows, latest, start.quantity, FillOf(aggregate))
    ensures lost == ZERO && aggregate.quantity == start.quantity && Advances(FillOf(start), FillOf(aggregate))
  {
  }

  /** Only a failed wait loses anything, and then what the cancelled order's row shows beyond the poll. */
  ghost predicate LosesExactly(rows: Rows, polled: Order, err: Error, lost: Fill) {
    && (err.WaitFailed? ==> polled.client in rows && lost == FillOf(rows[polled.client]).Minus(FillOf(polled)))
    && (!err.WaitFailed? ==> lost == ZERO)
  }

  lemma LosesNothing(rows: Rows, polled: Order, other: Order, err: Error, lost: Fill)
    requires LosesExactly(rows, polled, err, lost) && (err.WaitFailed? ==> polled == other)
    ensures LosesExactly(rows, other, err, lost) && (err.WaitFailed? ==> other.client in rows)
    ensures lost == ZERO <==> (err.WaitFailed? ==> FillOf(rows[other.client]) == FillOf(other))
  {
  }

  /** What a polled order has in the tick's row is what it has in the order. */
  lemma LosesAlike(rows: Rows, polled: Order, told: Order, err: Error, lost: Fill)
    requires LosesExactly(rows, polled, err, lost) && polled.client == told.client && FillOf(polled) == FillOf(told)
    ensures LosesExactly(rows, told, err, lost)
    ensures lost == ZERO <==> (err.WaitFailed? ==> FillOf(rows[told.client]) == FillOf(told))
  {
  }

  lemma ConcludesLonger(book: Book, rows: Rows, start: Order, middle: Order, latest: Order, aggregate: Order,
      err: Error, lost: Fill)
    requires Concluded(book, rows, middle, latest, aggregate, err, lost)
    requires SameOrder(start, middle) && Advances(FillOf(start), FillOf(middle))
    ensures Concluded(book, rows, start, latest, aggregate, err, lost)
  {
  }

  lemma FillAlgebra(fill: Fill, a: Order, b: Order)
    ensures fill.Plus(ZERO) == fill
    ensures FillOf(a).lots == a.filled && FillOf(b).lots == b.filled && FillOf(a).Minus(FillOf(a)) == ZERO
    ensures Advances(FillOf(a), FillOf(b)) ==> FillOf(b).Minus(FillOf(a)).lots >= 0
  {
  }

  lemma Renamed(a: Order, b: Order)
    requires a.filled == b.filled && a.avg == b.avg && a.commission == b.commission
    ensures FillOf(a) == FillOf(b)
  {
  }

  lemma AdvancesTransitive(a: Fill, b: Fill, c: Fill)
    requires Advances(a, b) && Advances(b, c)
    ensures Advances(a, c)
  {
  }

  /** What was gained in two observations is gained in one. */
  lemma Telescopes(fill: Fill, a: Order, b: Order, c: Order)
    requires Advances(FillOf(a), FillOf(b)) && Advances(FillOf(b), FillOf(c))
    ensures Advances(FillOf(a), FillOf(c))
    ensures fill.Plus(FillOf(b).Minus(FillOf(a))).Plus(FillOf(c).Minus(FillOf(b)))
            == fill.Plus(FillOf(c).Minus(FillOf(a)))
  {
    hide FillOf;
  }

  lemma RowStatusSet(row: Order, order: Order, status: Status)
    requires SameTerms(row, order)
    ensures SameTerms(row, row.(status := status, filled := order.filled, raw := order.raw))
  {
  }

  // ---------------------------------------------------------------- what a round comes to

  /** The memory holds this order and this aggregate. */
  ghost predicate Comes(m: R.Memory, current: Order, aggregate: Order) {
    m.current == current && AggregateStateOf(m.aggregate) == AggregateStateOf(aggregate)
  }

  ghost predicate ComesSeen(m: R.Memory, current: Order, aggregate: Order) {
    Comes(m, current, aggregate) && FillOf(R.LastSeen(m)) == FillOf(current)
  }

  /** A row as it was told to be: identity, terms, fills and raw state. */
  ghost predicate Carries(row: Order, told: Order) {
    SameTerms(row, told) && row.raw == told.raw
  }

  function Looked(looks: seq<Report>, quote: Option<Json>): R.Snapshot
    requires looks != []
  {
    R.Snapshot(looks[..|looks| - 1], looks[|looks| - 1], quote)
  }

  /** The order after these answers about it. */
  function SeenAfter(order: Order, looks: seq<Report>): Order {
    if looks == [] then order else R.Observed(order, Looked(looks, None))
  }

  predicate AllAbout(looks: seq<Report>, id: BrokerId) {
    forall k :: 0 <= k < |looks| ==> looks[k].broker == id
  }

  lemma SeenOnce(order: Order, report: Report)
    ensures SeenAfter(order, []) == order && R.StateAnswers([]) == []
    ensures SeenAfter(order, [report]) == order.(filled := report.filled, avg := report.avg, status := report.status,
                                            commission := report.commission, raw := Refreshed(order.raw, report.raw))
    ensures R.StateAnswers([report]) == [StateAnswered(report)] && Looked([report], None).Reports() == [report]
    ensures FillOf(SeenAfter(order, [report])) == Reported(report)
  {
    hide Refreshed, RefreshedBy;
    R.OneAnswer(order.raw, report.raw);
    assert [report][..0] + [report] == [report];
    assert R.Answers([report]) == [report.raw];
  }

  lemma SeenMore(order: Order, looks: seq<Report>, report: Report)
    ensures SeenAfter(order, looks + [report]) == SeenAfter(SeenAfter(order, looks), [report])
    ensures R.StateAnswers(looks + [report]) == R.StateAnswers(looks) + R.StateAnswers([report])
  {
    hide Refreshed, RefreshedBy;
    SeenOnce(SeenAfter(order, looks), report);
    var longer := looks + [report];
    assert longer[..|looks|] == looks && longer[|looks|] == report;
    assert R.Answers(longer) == R.Answers(looks) + [report.raw];
    R.OneMoreAnswer(order.raw, R.Answers(looks), report.raw);
    if looks == [] {
      R.OneAnswer(order.raw, report.raw);
      assert R.Answers(looks) == [];
    } else {
      assert looks[..|looks| - 1] + [looks[|looks| - 1]] == looks;
    }
  }

  /** Looking at an order, noting a quote and merging the fill is what a poll in memory does. */
  lemma LooksAs(order: Order, previous: Order, before: Order, looks: seq<Report>, quote: Option<Json>,
      aggregate: Order)
    requires looks != [] && FillOf(previous) == FillOf(order)
    requires AggregateStateOf(aggregate) ==
      AggregateStateOf(MergeAggregateFill(before, previous, SeenAfter(order, looks)))
    ensures
      var state := SeenAfter(order, looks);
      Comes(R.Polled(R.Held(order, before), Looked(looks, quote)),
            state.(raw := WithAggregate(R.Noted(state.raw, quote), AggregateStateOf(aggregate))), aggregate)
  {
    hide MergeAggregateFill, WithAggregate, Refreshed, RefreshedBy, R.Noted, FillOf;
    var state := SeenAfter(order, looks);
    var raw := R.Noted(state.raw, quote);
    NotedLater(order, looks, quote);
    R.MergeIgnoresRaw(before, order, state, raw, state.created);
    R.MergeDependsOnFill(before, before, order, previous, state);
    assert R.LastSeen(R.Held(order, before)) == order;
  }

  lemma NotedLater(order: Order, looks: seq<Report>, quote: Option<Json>)
    requires looks != []
    ensures var state := SeenAfter(order, looks);
            R.Observed(order, Looked(looks, quote)) == state.(raw := R.Noted(state.raw, quote))
  {
    hide RefreshedBy;
  }

  /** The order a chain goes on with or, when the last look filled it, the cancelled order as stored. */
  function Closing(latest: Order, aggregate: Order): Order {
    if aggregate.filled >= aggregate.quantity then latest.(raw := aggregate.raw) else latest
  }

  function Adopted(next: Order, aggregate: Order): Order {
    next.(raw := WithAggregate(CarryFillQuotes(next.raw, aggregate.raw), AggregateStateOf(aggregate)))
  }

  /** A cancelled order that adopts its own aggregate is left as it is. */
  lemma AdoptsItself(order: Order, looks: seq<Report>, quote: Option<Json>, aggregate: Order)
    requires looks != []
    requires aggregate.raw == WithAggregate(R.Noted(SeenAfter(order, looks).raw, quote), AggregateStateOf(aggregate))
    ensures Adopted(SeenAfter(order, looks), aggregate) == SeenAfter(order, looks).(raw := aggregate.raw)
  {
    hide WithAggregate, CarryFillQuotes, RefreshedBy, Refreshed;
    var n := |looks| - 1;
    assert looks[..n] + [looks[n]] == looks && R.Answers(looks) == R.Answers(looks[..n]) + [looks[n].raw];
    R.OneMoreAnswer(order.raw, R.Answers(looks[..n]), looks[n].raw);
    CarriedOntoItself(RefreshedBy(order.raw, R.Answers(looks[..n])), looks[n].raw, quote, AggregateStateOf(aggregate));
  }

  /** A cancelled order after its last look, and whatever order the chain goes on with. */
  lemma EndsAs(order: Order, previous: Order, before: Order, looks: seq<Report>, quote: Option<Json>,
      aggregate: Order, next: Order)
    requires looks != [] && FillOf(previous) == FillOf(order)
    requires AggregateStateOf(aggregate) ==
      AggregateStateOf(MergeAggregateFill(before, previous, SeenAfter(order, looks)))
    requires aggregate.raw == WithAggregate(R.Noted(SeenAfter(order, looks).raw, quote), AggregateStateOf(aggregate))
    ensures
      var m, last := R.Held(order, before), Looked(looks, quote);
      && Comes(R.Ended(m, last, None), SeenAfter(order, looks).(raw := aggregate.raw), aggregate)
      && Comes(R.Ended(m, last, Some(next)), Adopted(next, aggregate), aggregate)
    ensures Adopted(SeenAfter(order, looks), aggregate) == SeenAfter(order, looks).(raw := aggregate.raw)
  {
    hide MergeAggregateFill, WithAggregate, CarryFillQuotes, FillOf, R.Polled, R.Held, RefreshedBy;
    LooksAs(order, previous, before, looks, quote, aggregate);
    AdoptsItself(order, looks, quote, aggregate);
  }

  lemma LastLook(order: Order, looks: seq<Report>, quote: Option<Json>)
    requires looks != [] && AllAbout(looks, order.broker)
    ensures R.About(Looked(looks, quote), order.broker) && Looked(looks, quote).Reports() == looks
    ensures Reported(Looked(looks, quote).last) == FillOf(SeenAfter(order, looks))
  {
    hide RefreshedBy;
    assert looks[..|looks| - 1] + [looks[|looks| - 1]] == looks;
  }

  function EndRound(poll: R.Snapshot, last: R.Snapshot, next: Option<R.Newcomer>): R.Round {
    if next.None? then R.Withdraw(poll, last) else R.Replace(poll, last, next.value)
  }

  /** A round was taken: it concerns the order, was heard, and led from the order and its aggregate to
      this order and this aggregate. */
  ghost predicate Taken(round: R.Round, order: Order, before: Order, current: Order, aggregate: Order,
      heard: seq<Event>, heard': seq<Event>) {
    && R.Concerns(round, order) && heard' == heard + R.Heard(round)
    && Comes(R.MemoryRound(R.Held(order, before), round), current, aggregate)
  }

  /** The part of a round after its poll. */
  ghost predicate EndTaken(last: R.Snapshot, next: Option<R.Newcomer>, order: Order, before: Order, ended: Order,
      aggregate: Order, heard: seq<Event>, heard': seq<Event>) {
    && R.About(last, order.broker) && Advances(FillOf(order), Reported(last.last))
    && (next.Some? ==> next.value.ack.client == order.client.(attempt := order.client.attempt + 1)
                       && 0 <= next.value.ack.report.filled)
    && Comes(R.Ended(R.Held(order, before), last, R.PlacedOf(next)), ended, aggregate)
    && heard' == heard + R.EndAnswers(order.broker, last.Reports(), next)
  }

  lemma LooksTaken(order: Order, previous: Order, before: Order, looks: seq<Report>, quote: Option<Json>,
      aggregate: Order, next: Option<R.Newcomer>, heard: seq<Event>, heard': seq<Event>)
    requires looks != [] && AllAbout(looks, order.broker) && FillOf(previous) == FillOf(order)
    requires var cancelled := SeenAfter(order, looks);
             && Advances(FillOf(order), FillOf(cancelled))
             && AggregateStateOf(aggregate) == AggregateStateOf(MergeAggregateFill(before, previous, cancelled))
             && aggregate.raw == WithAggregate(R.Noted(cancelled.raw, quote), AggregateStateOf(aggregate))
    requires next.Some? ==> next.value.ack.client == order.client.(attempt := order.client.attempt + 1)
                            && 0 <= next.value.ack.report.filled
    requires heard' == heard + R.EndAnswers(order.broker, looks, next)
    ensures var ended := if next.None? then SeenAfter(order, looks).(raw := aggregate.raw)
                         else Adopted(next.value.Placed(), aggregate);
            EndTaken(Looked(looks, quote), next, order, before, ended, aggregate, heard, heard')
    ensures Adopted(SeenAfter(order, looks), aggregate) == SeenAfter(order, looks).(raw := aggregate.raw)
  {
    hide MergeAggregateFill, WithAggregate, FillOf, Reported, Advances, R.Ended, R.Held, R.EndAnswers, SeenAfter,
      Adopted;
    EndsAs(order, previous, before, looks, quote, aggregate, if next.None? then order else next.value.Placed());
    LastLook(order, looks, quote);
  }

  lemma PollTaken(order: Order, previous: Order, before: Order, report: Report, quote: Option<Json>, aggregate: Order,
      current: Order, heard: seq<Event>)
    requires FillOf(previous) == FillOf(order) && report.broker == order.broker
    requires var state := SeenAfter(order, [report]);
             && Advances(FillOf(order), FillOf(state))
             && AggregateStateOf(aggregate) == AggregateStateOf(MergeAggregateFill(before, previous, state))
             && current == state.(raw := WithAggregate(R.Noted(state.raw, quote), AggregateStateOf(aggregate)))
    ensures var round := R.Poll(Looked([report], quote));
            Taken(round, order, before, current, aggregate, heard, heard + [StateAnswered(report)])
    ensures FillOf(current) == Reported(report) && SeenAfter(order, [report]).status == report.status
  {
    hide R.Polled, R.Held, MergeAggregateFill, WithAggregate, Refreshed, FillOf, Reported, Advances;
    SeenOnce(order, report);
    LooksAs(order, previous, before, [report], quote, aggregate);
    R.SameButRaw(SeenAfter(order, [report]), current);
  }

  lemma ExpireTaken(order: Order, before: Order, poll: R.Snapshot, current: Order, aggregate: Order,
      heard: seq<Event>, heard': seq<Event>)
    requires Taken(R.Poll(poll), order, before, current, aggregate, heard, heard')
    ensures Taken(R.Expire(poll), order, before, current, aggregate, heard, heard' + [CancelAnswered(order.broker)])
  {
    hide R.Polled, R.Held, R.StateAnswers;
    assert poll.Reports()[|poll.earlier|] == poll.last;
  }

  lemma EndsRound(order: Order, before: Order, poll: R.Snapshot, current: Order, polled: Order, last: R.Snapshot,
      next: Option<R.Newcomer>, ended: Order, aggregate: Order, heard: seq<Event>, heard1: seq<Event>,
      heard2: seq<Event>)
    requires Taken(R.Poll(poll), order, before, current, polled, heard, heard1)
    requires EndTaken(last, next, current, polled, ended, aggregate, heard1, heard2)
    requires FillOf(current) == Reported(poll.last) && SameOrder(order, current)
    ensures Taken(EndRound(poll, last, next), order, before, ended, aggregate, heard, heard2)
  {
    hide R.Polled, R.Ended, R.Held, R.StateAnswers, R.EndAnswers, FillOf, Reported, Advances;
    var m := R.Polled(R.Held(order, before), poll);
    HeldIsSeen(current, polled);
    PollIsSeen(order, before, poll);
    R.EndDependsOn(m, R.Held(current, polled), last, R.PlacedOf(next));
    assert poll.Reports()[|poll.earlier|] == poll.last;
  }

  lemma TakenHeard(round: R.Round, order: Order, before: Order, current: Order, aggregate: Order,
      heard: seq<Event>, heard': seq<Event>)
    requires Taken(round, order, before, current, aggregate, heard, heard')
    ensures heard' == heard + R.Heard(round)
  {
  }

  lemma TakenAlike(round: R.Round, order: Order, before: Order, current: Order, aggregate: Order, shown: Order,
      heard: seq<Event>, heard': seq<Event>)
    requires Taken(round, order, before, current, aggregate, heard, heard')
    requires AggregateStateOf(shown) == AggregateStateOf(aggregate)
    ensures Taken(round, order, before, current, shown, heard, heard')
  {
    hide R.Concerns, R.Heard, R.MemoryRound;
  }

  lemma HeldIsSeen(order: Order, aggregate: Order)
    ensures R.Held(order, aggregate).current == R.LastSeen(R.Held(order, aggregate)) == order
    ensures R.Held(order, aggregate).aggregate == aggregate
  {
  }

  lemma PollIsSeen(order: Order, before: Order, s: R.Snapshot)
    ensures var m := R.Polled(R.Held(order, before), s); FillOf(R.LastSeen(m)) == FillOf(m.current)
  {
    hide MergeAggregateFill, WithAggregate, FillOf, R.Held;
    var m := R.Held(order, before);
    R.PollDependsOn(m, m, s);
  }

  /** The aggregate that a tick leaves. */
  function Ticked(order: Order, round: R.Round): AggregateState {
    AggregateStateOf(R.MemoryRound(R.Held(order, AggregatedOrderFill(order)), round).aggregate)
  }

  /** A tick makes of the order's row what the round makes of the order. */
  lemma TickTaken(order: Order, round: R.Round, current: Order, aggregate: Order, heard: seq<Event>, heard': seq<Event>)
    requires Taken(round, order, AggregatedOrderFill(order), current, aggregate, heard, heard')
    ensures R.Tick(order, round) == current && R.Concerns(round, order) && heard' == heard + R.Heard(round)
    ensures AggregateStateOf(aggregate) == Ticked(order, round)
  {
    hide R.MemoryRound, R.Held, R.Tick, AggregatedOrderFill;
    R.TickIsRound(order, round);
  }

  lemma RowCarries(latest: Order, ended: Order, aggregate: Order, book: Book, rows: Rows, quantity: int)
    requires ended == latest.(raw := ended.raw) && Tracks(book, rows, latest, quantity, FillOf(aggregate))
    requires latest.client in rows && rows[latest.client].raw == ended.raw
    ensures Carries(rows[latest.client], ended)
  {
    SameFill(latest, latest.status, ended.raw);
  }

  lemma RunBegins(order: Order)
    ensures ComesSeen(R.MemoryRun(order, []), order, AggregatedOrderFill(order))
    ensures R.Follows(order, []) && R.HeardIn([]) == []
  {
  }

  lemma RunGoesOn(order: Order, rounds: seq<R.Round>, current: Order, before: Order, round: R.Round, ended: Order,
      aggregate: Order, heard: seq<Event>, heard1: seq<Event>, heard2: seq<Event>)
    requires ComesSeen(R.MemoryRun(order, rounds), current, before) && R.Follows(order, rounds)
    requires Taken(round, current, before, ended, aggregate, heard1, heard2) && heard1 == heard + R.HeardIn(rounds)
    ensures
      var longer := rounds + [round];
      && ComesSeen(R.MemoryRun(order, longer), ended, aggregate) && R.Follows(order, longer)
      && heard2 == heard + R.HeardIn(longer)
  {
    hide R.MemoryRound, R.Held, R.LastSeen, FillOf, R.MemoryRun, R.Follows, R.Concerns, R.Heard, R.HeardIn;
    HeldIsSeen(current, before);
    R.RoundDependsOn(R.MemoryRun(order, rounds), R.Held(current, before), round);
    R.OneMoreRound(order, rounds, round);
  }

  /** A round that ended without an error, or in a failed wait, is one more round of the run. */
  lemma RunOrBreak(order: Order, rounds: seq<R.Round>, current: Order, before: Order, round: R.Round, ended: Order,
      aggregate: Order, err: Error, heard: seq<Event>, heard1: seq<Event>, heard2: seq<Event>)
      returns (longer: seq<R.Round>)
    requires ComesSeen(R.MemoryRun(order, rounds), current, before) && R.Follows(order, rounds)
    requires heard1 == heard + R.HeardIn(rounds)
    requires err.NoError? ==> Taken(round, current, before, ended, aggregate, heard1, heard2)
    requires err.WaitFailed? ==>
      heard1 + R.Heard(round) <= heard2
      && Taken(round, current, before, ended, aggregate, heard1, heard1 + R.Heard(round))
    ensures err.NoError? ==>
      ComesSeen(R.MemoryRun(order, longer), ended, aggregate) && heard2 == heard + R.HeardIn(longer)
    ensures err.NoError? || err.WaitFailed? ==>
      && R.Follows(order, longer) && R.MemoryRun(order, longer).current == ended
      && AggregateStateOf(R.MemoryRun(order, longer).aggregate) == AggregateStateOf(aggregate)
    ensures err.WaitFailed? ==> heard + R.HeardIn(longer) <= heard2
  {
    hide R.MemoryRun, R.Follows, R.Heard, R.HeardIn, Taken;
    longer := rounds;
    if err.NoError? || err.WaitFailed? {
      RunGoesOn(order, rounds, current, before, round, ended, aggregate, heard, heard1,
        if err.NoError? then heard2 else heard1 + R.Heard(round));
      longer := rounds + [round];
    }
  }

  class Engine {
    const mode: Mode
    const cancelCounts: bool
    const maxExitAttempts: int
    const maxQuoteAge: int
    const broker: Broker
    const store: Store
    const clock: Clock

    constructor (mode: Mode, cancelCounts: bool, maxExitAttempts: int, maxQuoteAge: int, broker: Broker, store: Store,
        clock: Clock)
      ensures this.mode == mode && this.cancelCounts == cancelCounts && this.maxExitAttempts == maxExitAttempts
      ensures this.maxQuoteAge == maxQuoteAge && this.broker == broker && this.store == store && this.clock == clock
    {
      this.mode := mode;
      this.cancelCounts := cancelCounts;
      this.maxExitAttempts := maxExitAttempts;
      this.maxQuoteAge := maxQuoteAge;
      this.broker := broker;
      this.store := store;
      this.clock := clock;
    }

    /** No client order id has been posted twice, and every posted one is on record. */
    ghost predicate Consistent()
      reads broker, store
    {
      AllSound(broker.book) && PostedOnce(broker.book, store.rows)
    }

    function CancelCost(): int {
      if cancelCounts then 1 else 0
    }

    /** An entry is posted only if the exit it leads to can still be afforded. */
    function EntryFreeOrderRequired(): int {
      if maxExitAttempts <= 0 then 1 else 1 + OrderBudgetNeeded(maxExitAttempts, cancelCounts)
    }

    /** What n reposts add to the day's counter. */
    function SpentOnReposts(n: int): int {
      n + if cancelCounts then n else 0
    }

    function RepostsLeft(order: Order, cfg: MonitorConfig): int {
      if order.client.attempt < cfg.maxAttempts then cfg.maxAttempts - order.client.attempt else 0
    }

    function RequiredFor(side: Side): int {
      if side.Buy? then EntryFreeOrderRequired() else 1
    }

    /** Beside the post itself, an entry needs what its exit may spend: a post for every attempt and, if
        cancels count, a cancel before every attempt but the first. */
    lemma RequiredMeans(side: Side)
      ensures RequiredFor(side) == 1 + if side.Sell? || maxExitAttempts <= 0 then 0
                                       else maxExitAttempts + if cancelCounts then maxExitAttempts - 1 else 0
    {
    }

    /** Without counted cancels a repost costs its post, with them twice that; attempts that are used up, or
        were never allowed, leave none. */
    lemma RepostsMean(order: Order, cfg: MonitorConfig, n: int)
      ensures cancelCounts ==> CancelCost() == 1 && SpentOnReposts(n) == 2 * n
      ensures !cancelCounts ==> CancelCost() == 0 && SpentOnReposts(n) == n
      ensures order.client.attempt + RepostsLeft(order, cfg)
              == if order.client.attempt > cfg.maxAttempts then order.client.attempt else cfg.maxAttempts
    {
    }

    // -------------------------------------------------------------- placing

    method PlaceLimit(id: ClientId, limit: real, quantity: int, raw: Raw, freeOrderLimit: int, required: int)
        returns (placed: Order, err: Error)
      requires Consistent()
      modifies broker, store, clock
      ensures Consistent() && old(clock.time) <= clock.time && clock.patience <= old(clock.patience)
        && clock.declined == old(clock.declined)
        && broker.asked == old(broker.asked) && broker.looked == old(broker.looked)
      ensures PostStep(old(broker.book), old(store.rows), broker.book, store.rows, id, quantity)
      ensures err.NoError? && id in old(store.rows) ==> placed == old(store.rows)[id]
      ensures err.NoError? && id !in old(store.rows) ==>
        PostAcknowledged(old(broker.book), old(store.rows), broker.book, store.rows, placed, id, quantity)
        && placed.limit == limit && Joins(old(broker.heard), broker.heard, placed, raw)
        && old(clock.time) <= placed.created <= clock.time
      ensures old(broker.heard) <= broker.heard && !err.WaitFailed?
      ensures id in old(store.rows) ==> broker.heard == old(broker.heard)
      ensures err in {OrdersDisabled, BudgetExceeded} ==>
        broker.book == old(broker.book) && broker.heard == old(broker.heard)
      ensures |broker.book| > |old(broker.book)| ==> broker.book[|old(broker.book)|].limit == limit
      ensures !err.NoError? && id !in old(store.rows) && id in store.rows ==>
        var row := store.rows[id];
        && row == Order(id, NoId, limit, quantity, 0, 0.0, row.status, 0.0, raw, row.created)
        && old(clock.time) <= row.created <= clock.time
      ensures Settled(old(store.rows), store.rows, old(store.sent), store.sent, id, freeOrderLimit, required, err,
          store.failures > old(store.failures))
      ensures mode.Backtest? || mode.LiveReadonly? <==> err.OrdersDisabled?
      ensures err in {NoError, OrdersDisabled, BudgetExceeded, StoreFailed, BrokerFailed}
      ensures SentToday(store.sent, id) <= SentToday(old(store.sent), id) + 1
      ensures id in old(store.rows) ==> store.sent == old(store.sent)
      ensures freeOrderLimit > 0 ==>
        SentToday(store.sent, id) <= SentToday(old(store.sent), id) || SentToday(store.sent, id) <= freeOrderLimit
      ensures err.BudgetExceeded? ==>
        freeOrderLimit > 0 && freeOrderLimit - SentToday(old(store.sent), id) < (if required < 1 then 1 else required)
    {
      hide Honours, AllSound, PostedOnce, Evolved, MergeRaw, Settled, Counted, Incremented;
      placed := Order(id, NoId, limit, quantity, 0, 0.0, New, 0.0, raw, 0);
      EvolvedReflexive(broker.book);
      ghost var book, rows, sent, failures := broker.book, store.rows, store.sent, store.failures;
      if !mode.AllowsBrokerOrders() && !mode.Paper? {
        SettledUnposted(rows, sent, id, freeOrderLimit, required, OrdersDisabled, false);
        return placed, OrdersDisabled;
      }
      var listed := store.ListOrders();
      SettledUnposted(rows, sent, id, freeOrderLimit, required, NoError, false);
      SettledUnposted(rows, sent, id, freeOrderLimit, required, StoreFailed, true);
      if !listed {
        return placed, StoreFailed;
      }
      if id in store.rows {
        return store.rows[id], NoError;
      }
      var now := clock.Now();
      var draft := placed.(status := Sent, created := now);
      var outcome := store.DraftAndReserve(draft, required, freeOrderLimit);
      if !outcome.Reserved? {
        SettledUnposted(rows, sent, id, freeOrderLimit, required, BudgetExceeded, false);
        return placed, if outcome.Insufficient? then BudgetExceeded else StoreFailed;
      }
      var ack := broker.PostLimitOrder(id, quantity, limit);
      if ack.None? {
        var _ := store.FailAndRelease(draft.(status := Failed));
        PostKeeps(book, rows, broker.book, store.rows, id, quantity);
        SettledPosted(rows, store.rows, sent, store.sent, id, freeOrderLimit, required, BrokerFailed,
          store.failures > failures);
        return placed, BrokerFailed;
      }
      placed := draft.(broker := ack.value.broker, filled := ack.value.filled, avg := ack.value.avg,
                       status := ack.value.status, commission := ack.value.commission,
                       raw := MergeRaw(raw, ack.value.raw));
      var stored := store.UpsertOrder(placed);
      PostKeeps(book, rows, broker.book, store.rows, id, quantity);
      err := if stored then NoError else StoreFailed;
      SettledPosted(rows, store.rows, sent, store.sent, id, freeOrderLimit, required, err, store.failures > failures);
    }

    /** A quote that is not older than the engine accepts at that time. */
    predicate Fresh(book: OrderBook, time: int) {
      maxQuoteAge > 0 ==> book.time != 0 && time - book.time <= maxQuoteAge
    }

    /** Only an engine with an age limit finds a quote stale: one without a date, or dated too long ago. */
    lemma StaleIff(book: OrderBook, time: int)
      ensures !Fresh(book, time) <==> maxQuoteAge > 0 && (book.time == 0 || maxQuoteAge < time - book.time)
    {
    }

    /** It was fresh at the moment it was priced. */
    ghost predicate FreshWithin(book: OrderBook, from: int, to: int) {
      exists at :: from <= at <= to && Fresh(book, at)
    }

    /** Prices an order from the quote, after checking that the quote is fresh and two-sided. */
    method Priced(book: OrderBook, instrument: Instrument, side: Side, improveTicks: int)
        returns (limit: real, err: Error)
      modifies clock
      ensures old(clock.time) <= clock.time && clock.patience <= old(clock.patience)
        && clock.declined == old(clock.declined)
      ensures err in {NoError, QuoteStale, EmptyOrderBook, InvalidTick}
      ensures err.QuoteStale? <==> maxQuoteAge > 0 && (book.time == 0 || maxQuoteAge < clock.time - book.time)
      ensures err.EmptyOrderBook? ==> book.bid.None? || book.ask.None?
      ensures err.InvalidTick? ==>
        && book.bid.Some? && book.ask.Some?
        && LimitPrice(side, book.bid.value, book.ask.value, instrument.tick, improveTicks).None?
      ensures err.NoError? ==> Quoted(book, instrument, side, improveTicks, limit) && Fresh(book, clock.time)
    {
      limit := 0.0;
      if maxQuoteAge > 0 {
        var now := clock.Now();
        if book.time == 0 || now - book.time > maxQuoteAge {
          return limit, QuoteStale;
        }
      }
      if book.bid.None? || book.ask.None? {
        return limit, EmptyOrderBook;
      }
      var price := LimitPrice(side, book.bid.value, book.ask.value, instrument.tick, improveTicks);
      if price.None? {
        return limit, InvalidTick;
      }
      return price.value, NoError;
    }

    /** PlaceEntry and PlaceExit differ in the price rule and in how many free orders must be left. */
    method Place(id: ClientId, quantity: int, book: OrderBook, instrument: Instrument, improveTicks: int)
        returns (placed: Order, err: Error)
      requires Consistent()
      modifies broker, store, clock
      ensures Consistent() && old(clock.time) <= clock.time && clock.patience <= old(clock.patience)
        && clock.declined == old(clock.declined)
        && broker.asked == old(broker.asked) && broker.looked == old(broker.looked)
      ensures PostStep(old(broker.book), old(store.rows), broker.book, store.rows, id, quantity)
      ensures err.NoError? && id in old(store.rows) ==> placed == old(store.rows)[id]
      ensures err.NoError? && id !in old(store.rows) ==>
        PostAcknowledged(old(broker.book), old(store.rows), broker.book, store.rows, placed, id, quantity)
        && ReadAggregate(placed.raw).None? && Quoted(book, instrument, id.side, improveTicks, placed.limit)
        && Joins(old(broker.heard), broker.heard, placed, OrderContext(book))
        && old(clock.time) <= placed.created <= clock.time
      ensures Settled(old(store.rows), store.rows, old(store.sent), store.sent, id, instrument.freeOrderLimit,
          RequiredFor(id.side), err, store.failures > old(store.failures))
      ensures mode.Backtest? || mode.LiveReadonly? ==>
        err in {OrdersDisabled, QuoteStale, EmptyOrderBook, InvalidTick}
      ensures err in {OrdersDisabled, BudgetExceeded, QuoteStale, EmptyOrderBook, InvalidTick} ==>
        && store.rows == old(store.rows) && store.sent == old(store.sent)
        && broker.book == old(broker.book) && broker.heard == old(broker.heard)
      ensures old(broker.heard) <= broker.heard && !err.WaitFailed?
      ensures id in old(store.rows) ==> broker.heard == old(broker.heard)
      ensures id in old(store.rows) ==> store.sent == old(store.sent)
      ensures |broker.book| > |old(broker.book)| ==>
        && Quoted(book, instrument, id.side, improveTicks, broker.book[|old(broker.book)|].limit)
        && FreshWithin(book, old(clock.time), clock.time)
      ensures !err.NoError? && id !in old(store.rows) && id in store.rows ==>
        var row := store.rows[id];
        && Quoted(book, instrument, id.side, improveTicks, row.limit) && old(clock.time) <= row.created <= clock.time
        && row == Order(id, NoId, row.limit, quantity, 0, 0.0, row.status, 0.0, OrderContext(book), row.created)
      ensures SentToday(store.sent, id) <= SentToday(old(store.sent), id) + 1
      ensures err.BudgetExceeded? ==>
        && instrument.freeOrderLimit > 0
        && instrument.freeOrderLimit - SentToday(old(store.sent), id) < RequiredFor(id.side)
    {
      EvolvedReflexive(broker.book);
      placed := Order(id, NoId, 0.0, quantity, 0, 0.0, New, 0.0, Malformed(""), 0);
      var limit;
      limit, err := Priced(book, instrument, id.side, improveTicks);
      if !err.NoError? {
        return;
      }
      ghost var at := clock.time;
      assert Fresh(book, at);
      NothingAggregated(book);
      placed, err := PlaceLimit(id, limit, quantity, OrderContext(book), instrument.freeOrderLimit,
        RequiredFor(id.side));
    }

    // -------------------------------------------------------------- refreshing and cancelling

    /** Reads the order's state at the broker and writes it to the order's row, keeping the local
        part of the raw state. */
    method Refresh(order: Order) returns (state: Order, err: Error, ghost report: Report)
      requires Consistent()
      modifies broker, store
      ensures AllSound(broker.book) && Evolved(old(broker.book), broker.book) && |broker.book| == |old(broker.book)|
      ensures store.sent == old(store.sent) && broker.asked == old(broker.asked)
        && broker.looked == old(broker.looked) + {order.broker}
      ensures err.NoError? ==>
        && order.broker.Id? && order.broker.number < |broker.book|
        && SameOrder(order, state)
        && FillOf(state) == broker.book[order.broker.number].Done()
        && state.status == broker.book[order.broker.number].status
        && report.broker == order.broker && state == SeenAfter(order, [report])
        && broker.heard == old(broker.heard) + [StateAnswered(report)]
        && store.rows == old(store.rows)[order.client := Upserted(old(store.rows), state)]
      ensures old(broker.heard) <= broker.heard
      ensures !err.NoError? ==> store.rows == old(store.rows) && !err.BudgetExceeded? && !err.WaitFailed?
    {
      state, report := order, NO_ANSWER;
      var reply := broker.GetOrderState(order.broker);
      if reply.None? {
        err := BrokerFailed;
        return;
      }
      var answer := reply.value;
      report := answer;
      SeenOnce(order, report);
      state := order.(filled := answer.filled, avg := answer.avg, status := answer.status,
                      commission := answer.commission, raw := Refreshed(order.raw, answer.raw));
      var stored := store.UpsertOrder(state);
      err := if stored then NoError else StoreFailed;
    }

    method Cancel(order: Order) returns (err: Error)
      requires Consistent()
      modifies broker, store
      ensures AllSound(broker.book) && Evolved(old(broker.book), broker.book) && |broker.book| == |old(broker.book)|
      ensures broker.asked == old(broker.asked) + {order.broker} && broker.looked == old(broker.looked)
      ensures err.NoError? ==>
        && SentToday(store.sent, order.client) == SentToday(old(store.sent), order.client) + CancelCost()
        && order.broker.Id? && broker.heard == old(broker.heard) + [CancelAnswered(order.broker)]
        && (order.client in old(store.rows) ==>
              && order.client in store.rows
              && store.rows[order.client] == old(store.rows)[order.client].(
                   status := Cancelled, filled := order.filled, raw := order.raw))
      ensures old(broker.heard) <= broker.heard
      ensures !err.NoError? ==> store.sent == old(store.sent) && !err.BudgetExceeded? && !err.WaitFailed?
      ensures
        || store.rows == old(store.rows)
        || (order.client in old(store.rows)
            && store.rows == old(store.rows)[order.client := AsCancelled(old(store.rows)[order.client], order)])
    {
      var ok := broker.CancelOrder(order.broker);
      if !ok {
        return BrokerFailed;
      }
      ok := store.CancelAndCount(order, cancelCounts);
      err := if ok then NoError else StoreFailed;
    }

    /** Refresh for an order the chain is tracked by: the broker may have moved, the row is
        overwritten, and the aggregate owes exactly the difference of the two observations. */
    method RefreshTracked(order: Order, ghost quantity: int, ghost fill: Fill)
        returns (state: Order, err: Error, ghost report: Report)
      requires Tracks(broker.book, store.rows, order, quantity, fill)
      modifies broker, store
      ensures order.broker.Id? && order.broker.number < |broker.book|
      ensures err.NoError? ==>
        && SameOrder(order, state)
        && FillOf(state) == broker.book[order.broker.number].Done()
        && state.status == broker.book[order.broker.number].status
        && Advances(FillOf(order), FillOf(state))
        && order.client in store.rows && store.rows[order.client].status == state.status
        && report.broker == order.broker && state == SeenAfter(order, [report])
        && broker.heard == old(broker.heard) + [StateAnswered(report)]
        && Tracks(broker.book, store.rows, state, quantity, fill.Plus(FillOf(state).Minus(FillOf(order))))
      ensures old(broker.heard) <= broker.heard
      ensures !err.NoError? ==>
        Tracks(broker.book, store.rows, order, quantity, fill) && !err.BudgetExceeded? && !err.WaitFailed?
      ensures |broker.book| == |old(broker.book)| && Evolved(old(broker.book), broker.book)
      ensures store.sent == old(store.sent) && broker.asked == old(broker.asked)
        && broker.looked == old(broker.looked) + {order.broker}
      ensures Isolated(old(broker.book), old(store.rows), broker.book, store.rows, ChainOf(order.client))
    {
      ghost var book, rows := broker.book, store.rows;
      state, err, report := Refresh(order);
      RowIsolated(book, rows, broker.book, store.rows, order.client, ChainOf(order.client));
      BrokerMoveKeeps(book, broker.book, rows, order, quantity, fill);
      if err.NoError? {
        ObservationKeeps(broker.book, rows, order, state, Upserted(rows, state), quantity, fill);
      }
    }

    /** Cancel for an order the chain is tracked by. */
    method CancelTracked(order: Order, ghost quantity: int, ghost fill: Fill) returns (err: Error)
      requires Tracks(broker.book, store.rows, order, quantity, fill)
      modifies broker, store
      ensures Tracks(broker.book, store.rows, order, quantity, fill)
      ensures |broker.book| == |old(broker.book)| && Evolved(old(broker.book), broker.book)
      ensures broker.asked == old(broker.asked) + {order.broker} && broker.looked == old(broker.looked)
      ensures SentToday(store.sent, order.client)
              == SentToday(old(store.sent), order.client) + if err.NoError? then CancelCost() else 0
      ensures order.client in store.rows
        && store.rows[order.client].raw in {order.raw, old(store.rows)[order.client].raw}
      ensures !err.BudgetExceeded? && !err.WaitFailed? && old(broker.heard) <= broker.heard
      ensures err.NoError? ==> broker.heard == old(broker.heard) + [CancelAnswered(order.broker)]
      ensures Isolated(old(broker.book), old(store.rows), broker.book, store.rows, ChainOf(order.client))
    {
      ghost var book, rows := broker.book, store.rows;
      err := Cancel(order);
      RowIsolated(book, rows, broker.book, store.rows, order.client, ChainOf(order.client));
      BrokerMoveKeeps(book, broker.book, rows, order, quantity, fill);
      if store.rows != rows {
        TrackedRowTouched(broker.book, rows, store.rows[order.client], order, quantity, fill);
      }
    }

    // -------------------------------------------------------------- reposting

    method DeadlinePassed(deadline: Option<int>) returns (passed: bool)
      modifies clock
      ensures old(clock.time) <= clock.time && clock.patience == old(clock.patience)
        && clock.declined == old(clock.declined)
      ensures passed == Due(deadline, clock.time)
    {
      if deadline.None? {
        return false;
      }
      var now := clock.Now();
      passed := deadline.value <= now;
    }

    /** Polls a cancelled order until it is terminal or the deadline has come. `latest` is the last
        state that reached the store, also when the wait fails. */
    method WaitTerminal(order: Order, deadline: Option<int>, poll: int, ghost quantity: int, ghost fill: Fill)
        returns (current: Order, err: Error, ghost latest: Order, ghost looks: seq<Report>)
      requires Tracks(broker.book, store.rows, order, quantity, fill) && poll > 0
      modifies broker, store, clock
      ensures SameOrder(order, latest) && latest == SeenAfter(order, looks) && AllAbout(looks, order.broker)
      ensures old(broker.heard) <= broker.heard
      ensures err.NoError? ==> looks != [] && broker.heard == old(broker.heard) + R.StateAnswers(looks)
      ensures Advances(FillOf(order), FillOf(latest))
      ensures Tracks(broker.book, store.rows, latest, quantity, fill.Plus(FillOf(latest).Minus(FillOf(order))))
      ensures |broker.book| == |old(broker.book)| && Evolved(old(broker.book), broker.book)
      ensures store.sent == old(store.sent) && broker.asked == old(broker.asked) && old(broker.looked) <= broker.looked
      ensures old(clock.time) <= clock.time && clock.patience <= old(clock.patience) && err in {NoError, WaitFailed}
        && clock.declined == old(clock.declined)
      ensures err.NoError? ==>
        && current == latest
        && (Due(deadline, clock.time) || Finished(broker.book, store.rows, current))
      ensures Isolated(old(broker.book), old(store.rows), broker.book, store.rows, ChainOf(order.client))
    {
      hide Tracks, Honours, Isolated, SeenAfter, R.StateAnswers, FillOf, Advances, Evolved;
      current, latest, looks := order, order, [];
      SeenOnce(order, NO_ANSWER);
      AdvancesReflexive(order);
      FillAlgebra(fill, order, order);
      TrackedWithinOrder(broker.book, store.rows, order, quantity, fill);
      EvolvedReflexive(broker.book);
      IsolatedReflexive(broker.book, store.rows, ChainOf(order.client));
      while true
        invariant current == latest
        invariant SameOrder(order, latest) && latest == SeenAfter(order, looks) && AllAbout(looks, order.broker)
        invariant broker.heard == old(broker.heard) + R.StateAnswers(looks)
        invariant Advances(FillOf(order), FillOf(latest))
        invariant Tracks(broker.book, store.rows, latest, quantity, fill.Plus(FillOf(latest).Minus(FillOf(order))))
        invariant |broker.book| == |old(broker.book)| && Evolved(old(broker.book), broker.book)
        invariant Isolated(old(broker.book), old(store.rows), broker.book, store.rows, ChainOf(order.client))
        invariant store.sent == old(store.sent) && broker.asked == old(broker.asked)
          && old(broker.looked) <= broker.looked
        invariant old(clock.time) <= clock.time && clock.patience <= old(clock.patience)
          && clock.declined == old(clock.declined)
        decreases Left(deadline, clock.time, clock.patience)
      {
        ghost var book, rows := broker.book, store.rows;
        var state;
        ghost var report;
        state, err, report := RefreshTracked(current, quantity, fill.Plus(FillOf(latest).Minus(FillOf(order))));
        IsolatedTransitive(old(broker.book), old(store.rows), book, rows, broker.book, store.rows,
          ChainOf(order.client));
        EvolvedTransitive(old(broker.book), book, broker.book);
        if !err.NoError? {
          err := WaitFailed;
          return;
        }
        SeenMore(order, looks, report);
        SeenOnce(latest, report);
        Telescopes(fill, order, latest, state);
        looks := looks + [report];
        current := MergeOrderState(current, state);
        latest := current;
        if IsTerminal(current.status) {
          return;
        }
        var passed := DeadlinePassed(deadline);
        if passed {
          return;
        }
        var completed := clock.Sleep(poll);
        if !completed {
          err := WaitFailed;
          return;
        }
      }
    }

    method EnsureRepostBudget(order: Order, instrument: Instrument) returns (err: Error)
      ensures err in {NoError, PolicyUnspecified, StoreFailed, BudgetExceeded}
      ensures err.BudgetExceeded? ==>
        && instrument.freeOrderLimit > 0
        && instrument.freeOrderLimit - SentToday(store.sent, order.client) < 1 + CancelCost()
      ensures err.NoError? && instrument.freeOrderLimit >= 0 ==>
        1 + CancelCost() <= instrument.freeOrderLimit - SentToday(store.sent, order.client)
    {
      if instrument.freeOrderLimit < 0 {
        return NoError;
      }
      if instrument.freeOrderLimit == 0 {
        return PolicyUnspecified;
      }
      var read: bool := *;
      if !read {
        return StoreFailed;
      }
      var remaining := instrument.freeOrderLimit - SentToday(store.sent, order.client);
      err := if remaining < 1 + CancelCost() then BudgetExceeded else NoError;
    }

    /** Posts the next attempt for what a finished order left. Either the chain moves on to the new
        order, or it stays within its size and its aggregate stays right: whether the post was
        refused, its answer was lost, or it could not be recorded. */
    method PostReplacement(cancelled: Order, cfg: MonitorConfig, book: OrderBook, remaining: int, ghost quantity: int,
        ghost fill: Fill)
        returns (next: Order, err: Error, ghost newcomer: R.Newcomer)
      requires Tracks(broker.book, store.rows, cancelled, quantity, fill)
      requires Finished(broker.book, store.rows, cancelled)
      requires remaining == quantity - fill.lots
      modifies broker, store, clock
      ensures old(clock.time) <= clock.time && clock.patience <= old(clock.patience)
        && clock.declined == old(clock.declined)
        && broker.asked == old(broker.asked) && broker.looked == old(broker.looked)
      ensures |broker.book| <= |old(broker.book)| + 1 && Evolved(old(broker.book), broker.book)
      ensures |broker.book| > |old(broker.book)| ==>
        && broker.book[|old(broker.book)|].quantity == remaining
        && Quoted(book, cfg.instrument, cancelled.client.side, cfg.improveTicks, broker.book[|old(broker.book)|].limit)
        && FreshWithin(book, old(clock.time), clock.time)
      ensures cancelled.client in store.rows && store.rows[cancelled.client] == old(store.rows)[cancelled.client]
      ensures err.NoError? ==>
        && next.client == cancelled.client.(attempt := cancelled.client.attempt + 1)
        && next.client in store.rows && store.rows[next.client] == next && next.quantity == remaining
        && Tracks(broker.book, store.rows, next, quantity, fill)
        && next == newcomer.Placed() && 0 <= next.filled && old(clock.time) <= next.created <= clock.time
        && broker.heard == old(broker.heard) + [PostAnswered(newcomer.ack)]
      ensures old(broker.heard) <= broker.heard && !err.WaitFailed?
      ensures !err.NoError? ==>
        && WithinOrder(broker.book, store.rows, ChainOf(cancelled.client), quantity)
        && Conserved(broker.book, store.rows, ChainOf(cancelled.client), fill)
      ensures SentToday(store.sent, cancelled.client) <= SentToday(old(store.sent), cancelled.client) + 1
      ensures err.BudgetExceeded? ==>
        && cfg.instrument.freeOrderLimit > 0
        && cfg.instrument.freeOrderLimit - SentToday(old(store.sent), cancelled.client) <
             RequiredFor(cancelled.client.side)
      ensures Isolated(old(broker.book), old(store.rows), broker.book, store.rows, ChainOf(cancelled.client))
    {
      hide Tracks, WithinOrder, Conserved, Finished, PostedOnce, AllSound, Evolved, Isolated, FillOf, Value;
      newcomer := R.Newcomer(Ack(cancelled.client, 0, 0.0, NO_ANSWER), Malformed(""), 0);
      ghost var before, rows, heard := broker.book, store.rows, broker.heard;
      NextIsNew(before, rows, cancelled, quantity, fill);
      next, err := Place(NextAttempt(cancelled), remaining, book, cfg.instrument, cfg.improveTicks);
      PostIsolated(before, rows, broker.book, store.rows, NextAttempt(cancelled), remaining);
      if err.NoError? {
        ReplacementTracks(before, rows, cancelled, broker.book, store.rows, next, quantity, fill);
        newcomer := R.Newcomer(broker.heard[|heard|].ack, OrderContext(book), next.created);
      } else {
        ReplacementBroken(before, rows, cancelled, broker.book, store.rows, quantity, fill);
      }
    }

    /** The market data callback. */
    method AskQuote() returns (book: Option<OrderBook>)
      modifies clock
      ensures clock.quotesAsked == old(clock.quotesAsked) + 1
      ensures clock.time == old(clock.time) && clock.patience <= old(clock.patience)
        && clock.declined == old(clock.declined)
      ensures book.Some? ==> clock.patience < old(clock.patience)
    {
      clock.quotesAsked := clock.quotesAsked + 1;
      var alive := clock.Endure();
      book := *;
      book := if alive then book else None;
    }

    /** Cancel followed by the wait for its outcome. `cancelled` is absent when either step failed. */
    method CancelAndWait(order: Order, deadline: Option<int>, poll: int, ghost quantity: int, ghost fill: Fill)
        returns (cancelled: Option<Order>, err: Error, ghost latest: Order, ghost looks: seq<Report>)
      requires Tracks(broker.book, store.rows, order, quantity, fill) && poll > 0
      modifies broker, store, clock
      ensures SameOrder(order, latest) && Advances(FillOf(order), FillOf(latest))
      ensures latest == SeenAfter(order, looks) && AllAbout(looks, order.broker) && old(broker.heard) <= broker.heard
      ensures err.NoError? ==>
        looks != [] && broker.heard == old(broker.heard) + R.EndAnswers(order.broker, looks, None)
      ensures Tracks(broker.book, store.rows, latest, quantity, fill.Plus(FillOf(latest).Minus(FillOf(order))))
      ensures |broker.book| == |old(broker.book)| && Evolved(old(broker.book), broker.book)
      ensures order.broker.Id? && order.broker.number < |broker.book|
      ensures old(clock.time) <= clock.time && clock.patience <= old(clock.patience)
        && broker.asked == old(broker.asked) + {order.broker} && old(broker.looked) <= broker.looked
        && clock.declined == old(clock.declined)
      ensures err.NoError? <==> cancelled.Some?
      ensures cancelled.None? && !err.WaitFailed? ==> latest == order
      ensures cancelled.Some? ==>
        && cancelled.value == latest
        && (Due(deadline, clock.time) || Finished(broker.book, store.rows, latest))
      ensures SentToday(store.sent, order.client) <= SentToday(old(store.sent), order.client) + CancelCost()
      ensures !err.BudgetExceeded?
      ensures Isolated(old(broker.book), old(store.rows), broker.book, store.rows, ChainOf(order.client))
    {
      hide Tracks, Isolated, R.StateAnswers;
      cancelled, latest, looks := None, order, [];
      assert fill.Plus(FillOf(order).Minus(FillOf(order))) == fill;
      err := CancelTracked(order, quantity, fill);
      if !err.NoError? {
        return;
      }
      ghost var book, rows := broker.book, store.rows;
      var current;
      current, err, latest, looks := WaitTerminal(order, deadline, poll, quantity, fill);
      IsolatedTransitive(old(broker.book), old(store.rows), book, rows, broker.book, store.rows, ChainOf(order.client));
      if err.NoError? {
        cancelled := Some(current);
      }
    }

    /** Cancels the order, waits for its end, and posts a replacement for what is then left. */
    method CancelAndReplace(order: Order, cfg: MonitorConfig, remaining: int, ghost quantity: int, ghost fill: Fill)
        returns (result: RepostResult, err: Error, ghost latest: Order, ghost looks: seq<Report>,
            ghost next: Option<R.Newcomer>)
      requires Tracks(broker.book, store.rows, order, quantity, fill)
      requires cfg.poll > 0
      requires remaining == quantity - fill.lots
      modifies broker, store, clock
      ensures old(clock.time) <= clock.time && clock.patience <= old(clock.patience)
      ensures RepostOutcome(old(broker.book), broker.book, store.rows, order, cfg.deadline, clock.time, quantity, fill,
          result, err, latest)
      ensures Ended(old(broker.heard), broker.heard, order, result, err, latest, looks, next)
      ensures err.NoError? ==>
        result.cancelled.Some? && Aged(order, result.current.value, old(clock.time), clock.time)
      ensures old(clock.declined) <= clock.declined
      ensures err.NoError? && result.current == Some(latest) && fill.lots + latest.filled - order.filled < quantity ==>
        Due(cfg.deadline, clock.time) || clock.declined > old(clock.declined)
      ensures broker.asked == old(broker.asked) + {order.broker} && old(broker.looked) <= broker.looked
      ensures SentToday(store.sent, order.client) <= SentToday(old(store.sent), order.client) + CancelCost() + 1
      ensures err.NoError? && result.current == Some(latest) ==>
        SentToday(store.sent, order.client) <= SentToday(old(store.sent), order.client) + CancelCost()
      ensures err.BudgetExceeded? ==>
        && cfg.instrument.freeOrderLimit > 0
        && cfg.instrument.freeOrderLimit - SentToday(old(store.sent), order.client)
           < CancelCost() + RequiredFor(order.client.side)
      ensures Isolated(old(broker.book), old(store.rows), broker.book, store.rows, ChainOf(order.client))
    {
      hide Tracks, Isolated, WithinOrder, Conserved, Evolved, FillOf, Value, SameTerms, Advances,
        R.StateAnswers, SeenAfter;
      result, next := RepostResult(None, false, None), None;
      FillAlgebra(fill, order, order);
      var cancelled;
      cancelled, err, latest, looks := CancelAndWait(order, cfg.deadline, cfg.poll, quantity, fill);
      FillAlgebra(fill, order, latest);
      ghost var left := fill.Plus(FillOf(latest).Minus(FillOf(order)));
      TrackedWithinOrder(broker.book, store.rows, latest, quantity, left);
      if cancelled.None? {
        return;
      }
      result := RepostResult(cancelled, true, cancelled);
      var rest := if cancelled.value.filled > order.filled then remaining - (cancelled.value.filled - order.filled)
        else remaining;
      if rest <= 0 {
        return;
      }
      var passed := DeadlinePassed(cfg.deadline);
      if passed {
        return;
      }
      var book := AskQuote();
      if book.None? {
        err := QuoteFailed;
        return;
      }
      var allowed := clock.RepostAllowed();
      if !allowed {
        return;
      }
      ghost var settled, settledRows := broker.book, store.rows;
      var posted;
      ghost var newcomer;
      posted, err, newcomer := PostReplacement(cancelled.value, cfg, book.value, rest, quantity, left);
      IsolatedTransitive(old(broker.book), old(store.rows), settled, settledRows, broker.book, store.rows,
        ChainOf(order.client));
      if err.NoError? {
        result, next := result.(current := Some(posted)), Some(newcomer);
      }
    }

    /** A repost checks that it is affordable, timely and wanted before it cancels anything.
        `latest` is the order as last seen; what it gained meanwhile is owed to the aggregate, and is
        handed to the caller only when the wait succeeded. */
    method Repost(order: Order, cfg: MonitorConfig, remaining: int, ghost quantity: int, ghost fill: Fill)
        returns (result: RepostResult, err: Error, ghost latest: Order, ghost looks: seq<Report>,
            ghost next: Option<R.Newcomer>)
      requires Tracks(broker.book, store.rows, order, quantity, fill)
      requires cfg.poll > 0
      requires remaining == quantity - fill.lots
      modifies broker, store, clock
      ensures old(clock.time) <= clock.time && clock.patience <= old(clock.patience)
      ensures RepostOutcome(old(broker.book), broker.book, store.rows, order, cfg.deadline, clock.time, quantity, fill,
          result, err, latest)
      ensures Ended(old(broker.heard), broker.heard, order, result, err, latest, looks, next)
      ensures SentToday(store.sent, order.client) <= SentToday(old(store.sent), order.client) + CancelCost() + 1
      ensures err.NoError? && result.current == Some(latest) ==>
        SentToday(store.sent, order.client) <= SentToday(old(store.sent), order.client) + CancelCost()
      ensures result.cancelled.Some? ==> broker.asked == old(broker.asked) + {order.broker}
      ensures err.NoError? && result.cancelled.None? ==>
        result.current == Some(order) && (Due(cfg.deadline, clock.time) || clock.declined > old(clock.declined))
      ensures old(clock.declined) <= clock.declined
      ensures err.NoError? && result.current == Some(latest) && fill.lots + latest.filled - order.filled < quantity ==>
        Due(cfg.deadline, clock.time) || clock.declined > old(clock.declined)
      ensures err.NoError? && result.cancelled.Some? ==>
        result.current.Some? && Aged(order, result.current.value, old(clock.time), clock.time)
      ensures err.NoError? && cfg.deadline.None? ==> clock.patience < old(clock.patience)
      ensures broker.asked == old(broker.asked) || broker.asked == old(broker.asked) + {order.broker}
      ensures old(broker.looked) <= broker.looked
      ensures err.NoError? && result.cancelled.None? ==>
        broker.asked == old(broker.asked) && broker.book == old(broker.book) && store.rows == old(store.rows)
          && store.sent == old(store.sent)
      ensures err.BudgetExceeded? ==>
        && cfg.instrument.freeOrderLimit > 0
        && cfg.instrument.freeOrderLimit - SentToday(old(store.sent), order.client)
           < CancelCost() + RequiredFor(order.client.side)
      ensures Isolated(old(broker.book), old(store.rows), broker.book, store.rows, ChainOf(order.client))
    {
      hide Tracks, RepostOutcome, Isolated;
      latest, looks, next := order, [], None;
      result := RepostResult(None, false, None);
      Declined(broker.book, store.rows, order, quantity, fill);
      TrackedWithinOrder(broker.book, store.rows, order, quantity, fill);
      IsolatedReflexive(broker.book, store.rows, ChainOf(order.client));
      err := EnsureRepostBudget(order, cfg.instrument);
      if !err.NoError? {
        return;
      }
      var passed := DeadlinePassed(cfg.deadline);
      if passed {
        result := RepostResult(Some(order), false, None);
        return;
      }
      var book := AskQuote();
      if book.None? {
        err := QuoteFailed;
        return;
      }
      var allowed := clock.RepostAllowed();
      if !allowed {
        result := RepostResult(Some(order), false, None);
        return;
      }
      result, err, latest, looks, next := CancelAndReplace(order, cfg, remaining, quantity, fill);
    }

    // -------------------------------------------------------------- monitoring

    /** A fill that was noticed is annotated with the quote of the moment, if there is one. */
    method CaptureFillQuote(raw: Raw, quotes: bool, deltaLots: int) returns (annotated: Raw, ghost quote: Option<Json>)
      modifies clock
      ensures old(clock.time) <= clock.time && clock.patience <= old(clock.patience)
        && clock.declined == old(clock.declined)
      ensures ReadAggregate(annotated) == ReadAggregate(raw) && annotated == R.Noted(raw, quote)
      ensures clock.quotesAsked == old(clock.quotesAsked) + if quotes && 0 < deltaLots then 1 else 0
      ensures quote.None? ==> annotated == raw
      ensures quote.Some? ==>
        && quotes && 0 < deltaLots && annotated == WithFillQuote(raw, quote.value)
        && Notes(quote.value, old(clock.time), clock.time, deltaLots)
    {
      annotated, quote := raw, None;
      if deltaLots <= 0 || !quotes {
        return;
      }
      var book := AskQuote();
      if book.None? || book.value.bid.None? || book.value.ask.None? {
        return;
      }
      var now := clock.Now();
      FillQuotesKeepAggregate(raw, FillQuote(book.value, now, deltaLots), raw);
      quote := Some(FillQuote(book.value, now, deltaLots));
      annotated := WithFillQuote(raw, FillQuote(book.value, now, deltaLots));
    }

    /** Puts the aggregate into the order's raw state and writes status, filled lots and raw state
        to the order's row, which has already seen the same fills. */
    method StoreAggregate(order: Order, aggregate: Order) returns (stored: Order, err: Error)
      requires order.client in store.rows && SameTerms(store.rows[order.client], order)
      modifies store
      ensures store.sent == old(store.sent) && err in {NoError, StoreFailed}
      ensures store.failures == old(store.failures) + if err.StoreFailed? then 1 else 0
      ensures stored == order.(raw := WithAggregate(order.raw, AggregateStateOf(aggregate)))
      ensures order.client in store.rows && SameTerms(old(store.rows)[order.client], store.rows[order.client])
      ensures store.rows == old(store.rows)[order.client := store.rows[order.client]]
      ensures store.rows == old(store.rows) || store.rows[order.client].status == order.status
      ensures err.NoError? ==>
        store.rows[order.client].raw == stored.raw && Stored(store.rows, order.client, AggregateStateOf(aggregate))
    {
      stored := order.(raw := WithAggregate(order.raw, AggregateStateOf(aggregate)));
      var ok := store.UpdateOrderStatus(order.client, order.status, order.filled, stored.raw);
      err := if ok then NoError else StoreFailed;
    }

    /** One poll: refresh, merge what is new into the aggregate, and store the aggregate with the
        order. When only the last step fails the returned aggregate is still right. */
    method Observe(order: Order, previous: Order, before: Order, cfg: MonitorConfig)
        returns (current: Order, aggregate: Order, refreshed: bool, err: Error, ghost poll: R.Snapshot)
      requires Tracks(broker.book, store.rows, order, before.quantity, FillOf(before))
      requires FillOf(previous) == FillOf(order)
      modifies broker, store, clock
      ensures old(clock.time) <= clock.time && clock.patience <= old(clock.patience) && store.sent == old(store.sent)
        && !err.BudgetExceeded? && clock.declined == old(clock.declined)
      ensures broker.asked == old(broker.asked) && broker.looked == old(broker.looked) + {order.broker}
      ensures |broker.book| == |old(broker.book)| && Evolved(old(broker.book), broker.book)
      ensures SameOrder(order, current) && SameOrder(before, aggregate)
      ensures Advances(FillOf(before), FillOf(aggregate))
      ensures Tracks(broker.book, store.rows, current, before.quantity, FillOf(aggregate))
      ensures err.NoError? ==> refreshed && Stored(store.rows, current.client, AggregateStateOf(aggregate))
      ensures err.NoError? ==> aggregate.status == current.status == store.rows[current.client].status
      ensures err.NoError? ==>
        && store.rows[current.client].raw == current.raw
        && FillOf(current) == Reported(poll.last) && current.status == poll.last.status
        && Taken(R.Poll(poll), order, before, current, aggregate, old(broker.heard), broker.heard)
      ensures old(broker.heard) <= broker.heard && !err.WaitFailed?
      ensures order.broker.Id? && order.broker.number < |broker.book|
      ensures err.NoError? ==> current.status == broker.book[order.broker.number].status
      ensures !refreshed ==> !err.NoError? && aggregate == before && current == order
      ensures refreshed ==> broker.heard != old(broker.heard)
      ensures err.NoError? ==> aggregate.raw == current.raw
      ensures err.NoError? ==>
        clock.quotesAsked == old(clock.quotesAsked) + if cfg.quotes && order.filled < current.filled then 1 else 0
      ensures err.NoError? && poll.quote.Some? ==> cfg.quotes && order.filled < current.filled
      ensures Isolated(old(broker.book), old(store.rows), broker.book, store.rows, ChainOf(order.client))
    {
      hide Tracks, Isolated, Honours, FillOf, Value, MergeAggregateFill, FillDeltaAvg, WithAggregate, SeenAfter,
        Reported, Advances, Taken, R.Noted;
      current, aggregate, refreshed, poll := order, before, false, NO_LOOK;
      AdvancesReflexive(before);
      TrackedWithinOrder(broker.book, store.rows, order, before.quantity, FillOf(before));
      var state;
      ghost var report;
      state, err, report := RefreshTracked(order, before.quantity, FillOf(before));
      if !err.NoError? {
        return;
      }
      refreshed := true;
      ObservationMerges(before, previous, order, state);
      FillAlgebra(FillOf(before), previous, order);
      aggregate := MergeAggregateFill(before, previous, state);
      TrackedWithinOrder(broker.book, store.rows, state, before.quantity, FillOf(aggregate));
      var raw;
      ghost var quote;
      raw, quote := CaptureFillQuote(state.raw, cfg.quotes, FillDeltaLots(previous, state));
      SameFill(aggregate, state.status, aggregate.raw);
      aggregate := aggregate.(status := state.status);
      SameFill(state, state.status, raw);
      poll := Looked([report], quote);
      current := MergeOrderState(order, state.(raw := raw));
      ghost var rows := store.rows;
      current, err := StoreAggregate(current, aggregate);
      SameFill(aggregate, aggregate.status, current.raw);
      SameFill(state, state.status, current.raw);
      aggregate := aggregate.(raw := current.raw);
      PollTaken(order, previous, before, report, quote, aggregate, current, old(broker.heard));
      StoredIsolated(broker.book, rows, store.rows, order.client, ChainOf(order.client));
      IsolatedTransitive(old(broker.book), old(store.rows), broker.book, rows, broker.book, store.rows,
        ChainOf(order.client));
      TrackedRowTouched(broker.book, rows, store.rows[current.client], state, before.quantity, FillOf(aggregate));
      Restated(broker.book, store.rows, state, current, before.quantity, FillOf(aggregate));
    }

    /** At the deadline the rest is cancelled and the order marked expired; fills the cancel races
        with are not looked at again. */
    method Expire(order: Order, before: Order) returns (aggregate: Order, err: Error)
      requires Tracks(broker.book, store.rows, order, before.quantity, FillOf(before))
      requires Stored(store.rows, order.client, AggregateStateOf(before)) && store.rows[order.client].raw == order.raw
      modifies broker, store
      ensures |broker.book| == |old(broker.book)| && Evolved(old(broker.book), broker.book)
      ensures SentToday(store.sent, order.client) <= SentToday(old(store.sent), order.client) + CancelCost()
      ensures Tracks(broker.book, store.rows, order, before.quantity, FillOf(before))
      ensures Stored(store.rows, order.client, AggregateStateOf(before))
      ensures broker.asked == old(broker.asked) + {order.broker} && broker.looked == old(broker.looked)
      ensures aggregate == if err.NoError? then before.(status := Expired) else before
      ensures err.NoError? ==>
        && order.client in store.rows && store.rows[order.client].status.Expired?
        && store.rows[order.client].raw == order.raw
        && order.broker.Id? && order.broker.number < |broker.book|
      ensures !err.BudgetExceeded? && !err.WaitFailed? && old(broker.heard) <= broker.heard
      ensures err.NoError? ==> broker.heard == old(broker.heard) + [CancelAnswered(order.broker)]
      ensures Isolated(old(broker.book), old(store.rows), broker.book, store.rows, ChainOf(order.client))
    {
      hide Tracks, Isolated, Honours, FillOf, Value, WithAggregate;
      TrackedWithinOrder(broker.book, store.rows, order, before.quantity, FillOf(before));
      aggregate := before;
      err := CancelTracked(order, before.quantity, FillOf(before));
      if !err.NoError? {
        return;
      }
      TrackedWithinOrder(broker.book, store.rows, order, before.quantity, FillOf(before));
      ghost var rows := store.rows;
      var ok := store.UpdateOrderStatus(order.client, Expired, order.filled, order.raw);
      if !ok {
        return aggregate, StoreFailed;
      }
      StoredIsolated(broker.book, rows, store.rows, order.client, ChainOf(order.client));
      IsolatedTransitive(old(broker.book), old(store.rows), broker.book, rows, broker.book, store.rows,
        ChainOf(order.client));
      RowStatusSet(rows[order.client], order, Expired);
      TrackedRowTouched(broker.book, rows, store.rows[order.client], order, before.quantity, FillOf(before));
      aggregate := before.(status := Expired);
    }

    /** The part of a monitoring round that both monitors begin with: observe, stop when the order is
        filled or over, and withdraw it at the deadline. */
    method Poll(order: Order, previous: Order, before: Order, cfg: MonitorConfig)
        returns (current: Order, aggregate: Order, refreshed: bool, over: bool, err: Error, ghost round: R.Round)
      requires Tracks(broker.book, store.rows, order, before.quantity, FillOf(before))
      requires FillOf(previous) == FillOf(order)
      modifies broker, store, clock
      ensures old(clock.time) <= clock.time && clock.patience <= old(clock.patience) && !err.BudgetExceeded?
        && broker.looked == old(broker.looked) + {order.broker} && clock.declined == old(clock.declined)
      ensures |broker.book| == |old(broker.book)| && Evolved(old(broker.book), broker.book)
      ensures SameOrder(order, current) && SameOrder(before, aggregate) && Advances(FillOf(before), FillOf(aggregate))
      ensures Tracks(broker.book, store.rows, current, before.quantity, FillOf(aggregate))
      ensures err.NoError? ==> refreshed && Stored(store.rows, current.client, AggregateStateOf(aggregate))
      ensures err.NoError? ==>
        && current.client in store.rows && store.rows[current.client].raw == current.raw
        && FillOf(current) == Reported(round.poll.last) && !R.Ends(round) && (!over ==> round.Poll?)
        && Taken(round, order, before, current, aggregate, old(broker.heard), broker.heard)
      ensures old(broker.heard) <= broker.heard && !err.WaitFailed?
      ensures !refreshed ==> !err.NoError? && aggregate == before && current == order
      ensures refreshed ==> broker.heard != old(broker.heard)
      ensures err.NoError? ==>
        && aggregate.raw == current.raw
        && aggregate.status == if aggregate.filled >= aggregate.quantity then Filled
                               else if round.Expire? then Expired else current.status
      ensures !err.NoError? ==> over
      ensures over && err.NoError? ==>
        && IsTerminal(aggregate.status)
        && if aggregate.filled >= aggregate.quantity then aggregate.status.Filled?
           else Closed(broker.book, broker.asked, order.broker, cfg.deadline, clock.time)
                && order.client in store.rows && IsTerminal(store.rows[order.client].status)
      ensures !over ==>
        && aggregate.filled < aggregate.quantity && !IsTerminal(aggregate.status)
        && !IsTerminal(round.poll.last.status)
      ensures !over ==>
        && store.sent == old(store.sent) && broker.asked == old(broker.asked)
        && !Idle(broker.book, order.broker, cfg.deadline, clock.time) && !Due(cfg.deadline, clock.time)
      ensures broker.asked != old(broker.asked) ==>
        Due(cfg.deadline, clock.time) && aggregate.filled < aggregate.quantity
      ensures over && err.NoError? && aggregate.filled < aggregate.quantity && !IsTerminal(round.poll.last.status) ==>
        Due(cfg.deadline, clock.time)
      ensures cfg.deadline.Some? && !over ==> clock.time < cfg.deadline.value
      ensures broker.asked != old(broker.asked) ==> cfg.deadline.Some? && cfg.deadline.value <= clock.time
      ensures SentToday(store.sent, order.client) <= SentToday(old(store.sent), order.client) + CancelCost()
      ensures err.NoError? && SentToday(store.sent, order.client) > SentToday(old(store.sent), order.client) ==>
        aggregate.filled < aggregate.quantity && Idle(broker.book, order.broker, cfg.deadline, clock.time)
      ensures Isolated(old(broker.book), old(store.rows), broker.book, store.rows, ChainOf(order.client))
    {
      hide Tracks, Isolated, Honours, FillOf, Value, WithAggregate, Advances, Reported, Taken;
      over := true;
      ghost var poll;
      current, aggregate, refreshed, err, poll := Observe(order, previous, before, cfg);
      round := R.Poll(poll);
      if !err.NoError? {
        return;
      }
      TakenAlike(round, order, before, current, aggregate, aggregate.(status := Filled), old(broker.heard),
        broker.heard);
      if aggregate.filled >= aggregate.quantity {
        SameFill(aggregate, Filled, aggregate.raw);
        aggregate := aggregate.(status := Filled);
        return;
      }
      if IsTerminal(current.status) {
        return;
      }
      ghost var book, rows := broker.book, store.rows;
      var passed := DeadlinePassed(cfg.deadline);
      if passed {
        SameFill(aggregate, Expired, aggregate.raw);
        TakenAlike(round, order, before, current, aggregate, aggregate.(status := Expired), old(broker.heard),
          broker.heard);
        ExpireTaken(order, before, poll, current, aggregate.(status := Expired), old(broker.heard), broker.heard);
        round := R.Expire(poll);
        aggregate, err := Expire(current, aggregate);
        EvolvedTransitive(old(broker.book), book, broker.book);
        IsolatedTransitive(old(broker.book), old(store.rows), book, rows, broker.book, store.rows,
          ChainOf(order.client));
        return;
      }
      over := false;
    }

    /** Merges what the cancelled order gained while it was being cancelled, and stores it. */
    method Absorb(order: Order, previous: Order, before: Order, result: RepostResult, cfg: MonitorConfig,
        ghost reposted: bool)
        returns (aggregate: Order, err: Error, ghost quote: Option<Json>)
      requires result.cancelled.Some? && result.current.Some? && SameOrder(order, result.cancelled.value)
      requires FillOf(previous) == FillOf(order) && 0 <= order.filled && 0 <= FillOf(before).lots
      requires Advances(FillOf(order), FillOf(result.cancelled.value))
      requires order.client in store.rows && SameTerms(store.rows[order.client], result.cancelled.value)
      requires AllSound(broker.book) && PostedOnce(broker.book, store.rows)
      requires reposted && result.current.value.client != order.client ==> IsTerminal(result.cancelled.value.status)
      requires
        var left := FillOf(before).Plus(FillOf(result.cancelled.value).Minus(FillOf(order)));
        if reposted then Tracks(broker.book, store.rows, result.current.value, before.quantity, left)
        else WithinOrder(broker.book, store.rows, ChainOf(order.client), before.quantity)
             && Conserved(broker.book, store.rows, ChainOf(order.client), left)
      modifies store, clock
      ensures old(clock.time) <= clock.time && clock.patience <= old(clock.patience) && store.sent == old(store.sent)
        && err in {NoError, StoreFailed} && clock.declined == old(clock.declined)
      ensures store.failures == old(store.failures) + if err.StoreFailed? then 1 else 0
      ensures FillOf(aggregate) == FillOf(before).Plus(FillOf(result.cancelled.value).Minus(FillOf(order)))
      ensures Advances(FillOf(before), FillOf(aggregate)) && SameOrder(before, aggregate)
      ensures
        if reposted then Tracks(broker.book, store.rows, result.current.value, before.quantity, FillOf(aggregate))
        else WithinOrder(broker.book, store.rows, ChainOf(order.client), before.quantity)
             && Conserved(broker.book, store.rows, ChainOf(order.client), FillOf(aggregate))
      ensures err.NoError? ==> Stored(store.rows, order.client, AggregateStateOf(aggregate))
      ensures err.NoError? ==> order.client in store.rows && store.rows[order.client].raw == aggregate.raw
      ensures
        var cancelled := result.cancelled.value;
        && AggregateStateOf(aggregate) == AggregateStateOf(MergeAggregateFill(before, previous, cancelled))
        && aggregate.raw == WithAggregate(R.Noted(cancelled.raw, quote), AggregateStateOf(aggregate))
      ensures Isolated(old(broker.book), old(store.rows), broker.book, store.rows, ChainOf(order.client))
    {
      hide Tracks, Isolated, Honours, FillOf, Value, MergeAggregateFill, FillDeltaAvg, WithAggregate, WithinOrder,
        Conserved;
      var cancelled := result.cancelled.value;
      ObservationMerges(before, previous, order, cancelled);
      aggregate := MergeAggregateFill(before, previous, cancelled);
      var raw;
      raw, quote := CaptureFillQuote(cancelled.raw, cfg.quotes, FillDeltaLots(previous, cancelled));
      SameFill(cancelled, cancelled.status, raw);
      ghost var rows := store.rows;
      var stored;
      stored, err := StoreAggregate(cancelled.(raw := raw), aggregate);
      SameFill(aggregate, aggregate.status, stored.raw);
      StoredIsolated(broker.book, rows, store.rows, order.client, ChainOf(order.client));
      if reposted && store.rows != rows {
        TrackedRowTouched(broker.book, rows, store.rows[order.client], result.current.value, before.quantity,
          FillOf(aggregate));
      } else if !reposted {
        SafeRowTouched(broker.book, rows, store.rows[order.client], ChainOf(order.client), before.quantity,
          FillOf(aggregate));
      }
      aggregate := aggregate.(raw := stored.raw);
    }

    /** The order that carries the chain on inherits the fill quotes and the aggregate. */
    method Adopt(order: Order, aggregate: Order) returns (current: Order, err: Error)
      requires Tracks(broker.book, store.rows, order, aggregate.quantity, FillOf(aggregate))
      modifies store
      ensures store.sent == old(store.sent) && err in {NoError, StoreFailed}
        && store.failures == old(store.failures) + if err.StoreFailed? then 1 else 0
      ensures current == Adopted(order, aggregate)
      ensures Tracks(broker.book, store.rows, current, aggregate.quantity, FillOf(aggregate))
        && FillOf(current) == FillOf(order)
      ensures err.NoError? ==> Stored(store.rows, current.client, AggregateStateOf(aggregate))
      ensures err.NoError? ==> current.client in store.rows && store.rows[current.client].raw == current.raw
      ensures Isolated(old(broker.book), old(store.rows), broker.book, store.rows, ChainOf(order.client))
    {
      hide Tracks, Isolated, Honours, FillOf, Value, WithAggregate;
      TrackedWithinOrder(broker.book, store.rows, order, aggregate.quantity, FillOf(aggregate));
      var carried := order.(raw := CarryFillQuotes(order.raw, aggregate.raw));
      SameFill(order, order.status, carried.raw);
      ghost var rows := store.rows;
      current, err := StoreAggregate(carried, aggregate);
      SameFill(order, order.status, current.raw);
      StoredIsolated(broker.book, rows, store.rows, order.client, ChainOf(order.client));
      TrackedRowTouched(broker.book, rows, store.rows[order.client], order, aggregate.quantity, FillOf(aggregate));
      Restated(broker.book, store.rows, order, current, aggregate.quantity, FillOf(aggregate));
    }

    method RepostDue(order: Order, after: int) returns (due: bool)
      modifies clock
      ensures due ==> after > 0
      ensures order.created != 0 ==>
        && (due ==> order.created + after <= clock.time)
        && (after > 0 && order.created + after <= old(clock.time) ==> due)
      ensures old(clock.time) <= clock.time && clock.patience <= old(clock.patience)
        && clock.declined == old(clock.declined)
    {
      if after <= 0 {
        return false;
      }
      if order.created == 0 {
        due := *;
        return;
      }
      var now := clock.Now();
      due := now - order.created >= after;
    }

    /** Merges what a cancelled order gained and hands the aggregate to the order that carries the chain on,
        if the repost did not fail after its wait. */
    method CarryOn(order: Order, previous: Order, before: Order, reposted: RepostResult, failed: Error,
        cfg: MonitorConfig, ghost heard: seq<Event>, ghost looks: seq<Report>, ghost next: Option<R.Newcomer>)
        returns (result: RepostResult, aggregate: Order, err: Error, ghost latest: Order, ghost last: R.Snapshot)
      requires reposted.cancelled.Some? && reposted.current.Some? && SameOrder(order, reposted.cancelled.value)
      requires FillOf(previous) == FillOf(order) && ChainOf(before.client) == ChainOf(order.client)
      requires 0 <= order.filled && 0 <= FillOf(before).lots
      requires Advances(FillOf(order), FillOf(reposted.cancelled.value))
      requires order.client in store.rows && SameTerms(store.rows[order.client], reposted.cancelled.value)
      requires AllSound(broker.book) && PostedOnce(broker.book, store.rows)
      requires failed.NoError? ==>
        && Ended(heard, broker.heard, order, reposted, failed, reposted.cancelled.value, looks, next)
        && reposted.current.value.client in {order.client, NextAttempt(order)}
        && (reposted.current.value.client != order.client ==> IsTerminal(reposted.cancelled.value.status))
      requires
        var left := FillOf(before).Plus(FillOf(reposted.cancelled.value).Minus(FillOf(order)));
        && (if failed.NoError? then Tracks(broker.book, store.rows, reposted.current.value, before.quantity, left)
            else WithinOrder(broker.book, store.rows, ChainOf(order.client), before.quantity)
                 && Conserved(broker.book, store.rows, ChainOf(order.client), left))
        && (left.lots >= before.quantity ==> failed.NoError? && reposted.current == reposted.cancelled)
      modifies store, clock
      ensures old(clock.time) <= clock.time && clock.patience <= old(clock.patience) && store.sent == old(store.sent)
        && clock.declined == old(clock.declined)
      ensures SameOrder(before, aggregate)
      ensures err == if store.failures > old(store.failures) then StoreFailed else failed
      ensures Concluded(broker.book, store.rows, before, latest, aggregate, err, ZERO)
      ensures err.NoError? ==>
        && result == reposted.(current := Some(latest))
        && latest.client == reposted.current.value.client && latest.broker == reposted.current.value.broker
        && latest.created == reposted.current.value.created
        && aggregate.filled == before.filled + reposted.cancelled.value.filled - order.filled
        && EndTaken(last, next, order, before, Closing(latest, aggregate), aggregate, heard, broker.heard)
        && latest.client in store.rows && store.rows[latest.client].raw == Closing(latest, aggregate).raw
        && (aggregate.filled >= aggregate.quantity ==> latest.client == order.client)
      ensures Isolated(old(broker.book), old(store.rows), broker.book, store.rows, ChainOf(order.client))
    {
      hide Tracks, FillOf, Value, WithAggregate, WithinOrder, Conserved, Advances, Evolved, SameTerms, Concluded,
        Stored, Isolated, SeenAfter, EndTaken, R.EndAnswers, CarryFillQuotes, MergeAggregateFill, AllSound, PostedOnce;
      result, last, latest := reposted, NO_LOOK, reposted.cancelled.value;
      FillAlgebra(FillOf(before), order, latest);
      ghost var quote;
      aggregate, err, quote := Absorb(order, previous, before, reposted, cfg, failed.NoError?);
      FillAlgebra(FillOf(aggregate), before, aggregate);
      FillAlgebra(FillOf(before), order, reposted.cancelled.value);
      if !failed.NoError? {
        err := if err.NoError? then failed else err;
        ConcludesBroken(broker.book, store.rows, before, latest, aggregate, err, ZERO);
        return;
      }
      latest := reposted.current.value;
      LooksTaken(order, previous, before, looks, quote, aggregate, next, heard, broker.heard);
      last := Looked(looks, quote);
      if !err.NoError? || aggregate.filled >= aggregate.quantity {
        Concludes(broker.book, store.rows, before, latest, aggregate, err);
        return;
      }
      ghost var rows := store.rows;
      var adopted;
      adopted, err := Adopt(reposted.current.value, aggregate);
      latest := adopted;
      IsolatedTransitive(old(broker.book), old(store.rows), broker.book, rows, broker.book, store.rows,
        ChainOf(order.client));
      Concludes(broker.book, store.rows, before, latest, aggregate, err);
      result := result.(current := Some(adopted));
    }

    /** The part of a monitoring round that replaces an order: repost it, merge what it gained while
        it was being cancelled, and hand the aggregate to the order that carries the chain on. */
    method RepostAndAbsorb(order: Order, previous: Order, before: Order, cfg: MonitorConfig)
        returns (result: RepostResult, aggregate: Order, err: Error, ghost latest: Order, ghost lost: Fill,
            ghost last: R.Snapshot, ghost next: Option<R.Newcomer>)
      requires Tracks(broker.book, store.rows, order, before.quantity, FillOf(before))
      requires Stored(store.rows, order.client, AggregateStateOf(before))
      requires FillOf(previous) == FillOf(order) && ChainOf(before.client) == ChainOf(order.client)
      requires cfg.poll > 0 && before.filled < before.quantity
      modifies broker, store, clock
      ensures old(clock.time) <= clock.time && clock.patience <= old(clock.patience) && SameOrder(before, aggregate)
        && old(broker.looked) <= broker.looked
      ensures |broker.book| <= |old(broker.book)| + 1 && Evolved(old(broker.book), broker.book)
      ensures Concluded(broker.book, store.rows, before, latest, aggregate, err, lost)
      ensures err.NoError? && cfg.deadline.None? ==> clock.patience < old(clock.patience)
      ensures LosesExactly(store.rows, order, err, lost) && (err.WaitFailed? ==> aggregate == before)
      ensures old(broker.heard) <= broker.heard
      ensures old(clock.declined) <= clock.declined
      ensures err.NoError? && !result.changed ==> broker.heard == old(broker.heard)
      ensures err.NoError? && latest.client == order.client && aggregate.filled < aggregate.quantity ==>
        Due(cfg.deadline, clock.time) || clock.declined > old(clock.declined)
      ensures err.NoError? && result.changed ==>
        && EndTaken(last, next, order, before, Closing(latest, aggregate), aggregate, old(broker.heard), broker.heard)
        && latest.client in store.rows && store.rows[latest.client].raw == Closing(latest, aggregate).raw
      ensures err.NoError? ==>
        && (if result.changed then
              && result.current == Some(latest)
              && result.cancelled.Some? && result.cancelled.value.client == order.client
              && broker.asked == old(broker.asked) + {order.broker}
            else
              && result.cancelled.None? && latest == order && aggregate == before
              && store.sent == old(store.sent) && store.rows == old(store.rows)
              && broker.book == old(broker.book) && broker.asked == old(broker.asked))
        && (if latest.client == order.client then
              NotReplaced(old(broker.book), broker.book, order, latest, cfg.deadline, clock.time, result.changed)
            else latest.client == order.client.(attempt := order.client.attempt + 1))
        && (latest.client == order.client ==>
              SentToday(store.sent, order.client) <= SentToday(old(store.sent), order.client) + CancelCost())
        && (aggregate.filled >= aggregate.quantity ==> latest.client == order.client)
        && Aged(order, latest, old(clock.time), clock.time)
      ensures SentToday(store.sent, order.client) <= SentToday(old(store.sent), order.client) + CancelCost() + 1
      ensures err.BudgetExceeded? ==>
        && cfg.instrument.freeOrderLimit > 0
        && cfg.instrument.freeOrderLimit - SentToday(old(store.sent), order.client)
           < CancelCost() + RequiredFor(order.client.side)
      ensures Isolated(old(broker.book), old(store.rows), broker.book, store.rows, ChainOf(order.client))
    {
      hide Tracks, FillOf, Value, WithAggregate, WithinOrder, Conserved, Advances, Evolved, SameTerms, Concluded,
        Stored, Isolated, SeenAfter, EndTaken, R.EndAnswers, CarryFillQuotes, MergeAggregateFill,
        RepostOutcome;
      next, last := None, NO_LOOK;
      TrackedWithinOrder(broker.book, store.rows, order, before.quantity, FillOf(before));
      AdvancesReflexive(before);
      aggregate, lost := before, ZERO;
      FillAlgebra(FillOf(before), before, before);
      ghost var looks;
      result, err, latest, looks, next :=
        Repost(order, cfg, before.quantity - before.filled, before.quantity, FillOf(before));
      FillAlgebra(FillOf(before), order, latest);
      if result.cancelled.None? {
        OutcomeDeclined(old(broker.book), broker.book, store.rows, order, cfg.deadline, clock.time, before.quantity,
          FillOf(before), result, err, latest);
      } else {
        OutcomeCancelled(old(broker.book), broker.book, store.rows, order, cfg.deadline, clock.time, before.quantity,
          FillOf(before), result, err, latest);
      }
      IsolatedMeans(old(broker.book), old(store.rows), broker.book, store.rows, ChainOf(order.client));
      ghost var book, rows := broker.book, store.rows;
      if result.cancelled.None? {
        if err.NoError? {
          Concludes(broker.book, store.rows, before, latest, before, err);
        } else {
          lost := FillOf(latest).Minus(FillOf(order));
          ConcludesBroken(broker.book, store.rows, before, latest, before, err, lost);
        }
        return;
      }
      var failed, reposted := err, result;
      result, aggregate, err, latest, last :=
        CarryOn(order, previous, before, reposted, failed, cfg, old(broker.heard), looks, next);
      IsolatedTransitive(old(broker.book), old(store.rows), book, rows, broker.book, store.rows, ChainOf(order.client));
    }

    /** The part of a tick after its poll: the order is replaced, if that is still wanted, and the row of
        whichever order carries the chain on is what the whole tick makes of the one it began with. */
    method EndTick(order: Order, current: Order, polled: Order, cfg: MonitorConfig, ghost poll: R.Snapshot,
        ghost heard: seq<Event>)
        returns (result: Order, err: Error, ghost latest: Order, ghost lost: Fill, ghost round: R.Round)
      requires
        var start := AggregatedOrderFill(order);
        && SameOrder(order, current) && SameOrder(start, polled) && Advances(FillOf(start), FillOf(polled))
        && Tracks(broker.book, store.rows, current, start.quantity, FillOf(polled))
        && Taken(R.Poll(poll), order, start, current, polled, heard, broker.heard)
        && FillOf(current) == Reported(poll.last)
      requires Stored(store.rows, current.client, AggregateStateOf(polled))
      requires current.client in store.rows && Carries(store.rows[current.client], current)
      requires cfg.poll > 0 && polled.filled < polled.quantity && !IsTerminal(polled.status)
        && polled.status == current.status && polled.raw == current.raw
      modifies broker, store, clock
      ensures |broker.book| <= |old(broker.book)| + 1 && Evolved(old(broker.book), broker.book)
      ensures old(clock.time) <= clock.time && old(broker.looked) <= broker.looked && old(broker.heard) <= broker.heard
      ensures clock.patience <= old(clock.patience)
      ensures Concluded(broker.book, store.rows, AggregatedOrderFill(order), latest, result, err, lost)
      ensures LosesExactly(store.rows, current, err, lost)
      ensures err.WaitFailed? ==> round == R.Poll(poll) && AggregateStateOf(result) == AggregateStateOf(polled)
      ensures err.NoError? ==>
        && R.Concerns(round, order) && broker.heard == heard + R.Heard(round)
        && latest.client in store.rows && Carries(store.rows[latest.client], R.Tick(order, round))
        && AggregateStateOf(result) == Ticked(order, round)
      ensures err.NoError? && latest.client == order.client && result.filled < result.quantity ==>
        Due(cfg.deadline, clock.time) || clock.declined > old(clock.declined)
      ensures err.NoError? ==>
        && result.raw == R.Tick(order, round).raw && !round.Expire?
        && result.status == if result.filled >= result.quantity then Filled else R.Tick(order, round).status
      ensures err.NoError? ==>
        && round.poll == poll && (latest.client != order.client ==> R.Ends(round))
        && Aged(order, latest, old(clock.time), clock.time)
      ensures err.NoError? ==>
        && result.client == latest.client
        && (result.filled >= result.quantity ==> result.status.Filled?)
        && (if latest.client == order.client then latest.broker == order.broker && |broker.book| == |old(broker.book)|
            else latest.client == NextAttempt(order) && order.broker in broker.asked)
        && (latest.client == order.client && IsTerminal(result.status) && result.filled < result.quantity ==>
              Closed(broker.book, broker.asked, order.broker, cfg.deadline, clock.time))
        && (latest.client == order.client ==>
              SentToday(store.sent, order.client) <= SentToday(old(store.sent), order.client) + CancelCost())
        && (latest.client == order.client ==>
              || SentToday(store.sent, order.client) <= SentToday(old(store.sent), order.client)
              || Idle(broker.book, latest.broker, cfg.deadline, clock.time))
      ensures SentToday(store.sent, order.client) <= SentToday(old(store.sent), order.client) + CancelCost() + 1
      ensures err.BudgetExceeded? ==>
        && cfg.instrument.freeOrderLimit > 0
        && cfg.instrument.freeOrderLimit - SentToday(old(store.sent), order.client)
           < CancelCost() + RequiredFor(order.client.side)
      ensures Isolated(old(broker.book), old(store.rows), broker.book, store.rows, ChainOf(order.client))
    {
      hide Tracks, FillOf, Value, AggregatedOrderFill, WithAggregate, WithinOrder, Conserved, Advances, Evolved,
        Concluded, Stored, Isolated, R.Concerns, R.Heard, R.Tick, Reported, Taken, EndTaken, Carries, Ticked,
        SentToday, RequiredFor, Idle, Closed, SameOrder;
      ghost var start, quantity, last, next := AggregatedOrderFill(order), polled.quantity, NO_LOOK, None;
      SameOrderMeans(order, current);
      SameOrderMeans(start, polled);
      AggregateKeepsIdentity(order);
      round := R.Poll(poll);
      TickTaken(order, round, current, polled, heard, broker.heard);
      var outcome;
      outcome, result, err, latest, lost, last, next := RepostAndAbsorb(current, current, polled, cfg);
      SameOrderMeans(polled, result);
      ConcludesLonger(broker.book, store.rows, start, polled, latest, result, err, lost);
      if !err.NoError? {
        return;
      }
      ConcludedTracks(broker.book, store.rows, start, latest, result, lost);
      if outcome.changed {
        round := EndRound(poll, last, next);
        EndsRound(order, start, poll, current, polled, last, next, Closing(latest, result), result, heard,
          old(broker.heard), broker.heard);
        TickTaken(order, round, Closing(latest, result), result, heard, broker.heard);
        RowCarries(latest, Closing(latest, result), result, broker.book, store.rows, quantity);
        if latest.client == order.client {
          IdleIsClosed(broker.book, broker.asked, order.broker, cfg.deadline, clock.time);
        }
      }
      if result.filled >= result.quantity {
        ConcludesAs(broker.book, store.rows, start, latest, result, err, lost, result.(status := Filled));
        result := result.(status := Filled);
      } else if outcome.changed {
        var carried := outcome.current.value;
        ghost var shown := result.(broker := carried.broker, client := carried.client, status := carried.status,
                                   raw := carried.raw);
        ConcludesAs(broker.book, store.rows, start, latest, result, err, lost, shown);
        result := result.(broker := carried.broker, client := carried.client, status := carried.status,
                          raw := carried.raw);
      }
    }

    /** One scheduler tick over one order row. The aggregate is read from the row's raw state and
        written back to the row of whichever order carries the chain on (`latest`). `kept` is the
        aggregate the chain is known to have: it is what is returned, except that a failed refresh
        hands the order itself back. */
    method MonitorOnce(order: Order, given: MonitorConfig)
        returns (result: Order, err: Error, ghost latest: Order, ghost kept: Order, ghost lost: Fill,
            ghost round: R.Round)
      requires
        var start := AggregatedOrderFill(order);
        Tracks(broker.book, store.rows, order, start.quantity, FillOf(start))
      modifies broker, store, clock
      ensures |broker.book| <= |old(broker.book)| + 1 && Evolved(old(broker.book), broker.book)
      ensures old(clock.time) <= clock.time && clock.patience <= old(clock.patience)
        && old(broker.looked) + {order.broker} <= broker.looked
      ensures Concluded(broker.book, store.rows, AggregatedOrderFill(order), latest, kept, err, lost)
      ensures AggregateStateOf(result) == AggregateStateOf(kept)
              || (!err.NoError? && result == order && kept == AggregatedOrderFill(order))
      ensures broker.heard == old(broker.heard) ==> result == order
      ensures err.NoError? ==>
        && result.raw == R.Tick(order, round).raw
        && result.status == if result.filled >= result.quantity then Filled
                            else if round.Expire? then Expired else R.Tick(order, round).status
      ensures old(broker.heard) <= broker.heard
      ensures err.NoError? ==>
        && R.Concerns(round, order) && broker.heard == old(broker.heard) + R.Heard(round)
        && latest.client in store.rows && Carries(store.rows[latest.client], R.Tick(order, round))
        && AggregateStateOf(kept) == Ticked(order, round)
      ensures err.WaitFailed? ==>
        && round.Poll? && R.Concerns(round, order) && old(broker.heard) + R.Heard(round) <= broker.heard
        && R.Tick(order, round).client == order.client && order.client in store.rows
        && AggregateStateOf(kept) == Ticked(order, round)
      ensures LosesExactly(store.rows, R.Tick(order, round), err, lost)
      ensures
        (err.NoError? && (R.Ends(round) || latest.client != order.client))
        || (broker.asked != old(broker.asked) && !Due(given.deadline, clock.time)) ==>
        && given.quotes && order.client.attempt < given.maxAttempts
        && 0 < given.repostAfter && (order.created != 0 ==> order.created + given.repostAfter <= clock.time)
      ensures
        && err.NoError? && kept.filled < kept.quantity && !IsTerminal(round.poll.last.status)
        && given.quotes && order.client.attempt < given.maxAttempts
        && 0 < given.repostAfter && order.created != 0 && order.created + given.repostAfter <= old(clock.time) ==>
        latest.client == NextAttempt(order) || Due(given.deadline, clock.time) || clock.declined > old(clock.declined)
      ensures err.NoError? && R.Ends(round) && kept.filled < kept.quantity ==>
        latest.client == NextAttempt(order) || Due(given.deadline, clock.time) || clock.declined > old(clock.declined)
      ensures err.NoError? ==>
        && Aged(order, latest, old(clock.time), clock.time)
        && (latest.client != order.client && order.created != 0 ==>
              order.created + given.repostAfter <= latest.created)
      ensures lost == ZERO <==>
        (err.WaitFailed? ==> FillOf(store.rows[order.client]) == FillOf(R.Tick(order, round)))
      ensures err.NoError? ==>
        && result.client == latest.client
        && AggregateStateOf(result) == AggregateStateOf(kept)
        && (result.filled >= result.quantity ==> result.status.Filled?)
        && latest.client in {order.client, order.client.(attempt := order.client.attempt + 1)}
        && (latest.client != order.client ==>
              order.broker in broker.asked && !Spent(order, given, old(broker.book), old(clock.time)))
        && (latest.client == order.client && IsTerminal(result.status) && result.filled < result.quantity ==>
              Closed(broker.book, broker.asked, order.broker, given.deadline, clock.time))
        && (latest.client == order.client ==> latest.broker == order.broker && |broker.book| == |old(broker.book)|)
        && (latest.client == order.client ==>
              SentToday(store.sent, order.client) <= SentToday(old(store.sent), order.client) + CancelCost())
      ensures SentToday(store.sent, order.client) <= SentToday(old(store.sent), order.client) + CancelCost() + 1
      ensures Spent(order, given, old(broker.book), old(clock.time)) ==>
        && |broker.book| == |old(broker.book)|
        && SentToday(store.sent, order.client) <= SentToday(old(store.sent), order.client) + CancelCost()
      ensures
        (&& err.NoError? && latest.client == order.client
         && SentToday(store.sent, order.client) > SentToday(old(store.sent), order.client)) ==>
        && Idle(broker.book, latest.broker, given.deadline, clock.time)
        && (Spent(order, given, old(broker.book), old(clock.time)) ==>
              order.client in store.rows && IsTerminal(store.rows[order.client].status))
      ensures err.BudgetExceeded? ==>
        && given.instrument.freeOrderLimit > 0 && !Spent(order, given, old(broker.book), old(clock.time))
        && given.instrument.freeOrderLimit - SentToday(old(store.sent), order.client)
           < CancelCost() + RequiredFor(order.client.side)
      ensures Isolated(old(broker.book), old(store.rows), broker.book, store.rows, ChainOf(order.client))
    {
      hide Tracks, FillOf, Value, AggregatedOrderFill, WithAggregate, WithinOrder, Conserved, Advances, Evolved,
        Concluded, Stored, Isolated, R.Concerns, R.Heard, R.Tick, Reported, Taken, EndTaken, Carries, Ticked,
        SentToday, RequiredFor, Idle, Closed, SameOrder;
      var cfg := given.(poll := if given.poll <= 0 then HALF_SECOND else given.poll,
                        maxAttempts := if given.maxAttempts <= 0 then 1 else given.maxAttempts);
      var start := AggregatedOrderFill(order);
      ghost var quantity := start.quantity;
      AggregateKeepsIdentity(order);
      TrackedWithinOrder(broker.book, store.rows, order, quantity, FillOf(start));
      lost := ZERO;
      var current, aggregate, refreshed, over;
      current, aggregate, refreshed, over, err, round := Poll(order, order, start, cfg);
      SameOrderMeans(order, current);
      SameOrderMeans(start, aggregate);
      IdleStays(old(broker.book), broker.book, order.broker, cfg.deadline, old(clock.time), clock.time);
      latest, kept := current, aggregate;
      Concludes(broker.book, store.rows, start, current, aggregate, err);
      result := if refreshed then aggregate else order;
      if err.NoError? {
        TickTaken(order, round, current, aggregate, old(broker.heard), broker.heard);
        RowCarries(current, current, aggregate, broker.book, store.rows, quantity);
      }
      if over {
        return;
      }
      ghost var book, rows := broker.book, store.rows;
      var due := RepostDue(current, cfg.repostAfter);
      if !due || current.client.attempt >= cfg.maxAttempts || !cfg.quotes {
        return;
      }
      result, err, latest, lost, round := EndTick(order, current, aggregate, cfg, round.poll, old(broker.heard));
      kept := result;
      IsolatedTransitive(old(broker.book), old(store.rows), book, rows, broker.book, store.rows, ChainOf(order.client));
    }

    /** What one round of a chain that goes on costs, and where it leaves the order. */
    ghost predicate Pays(book: Book, book': Book, paid: int, order: Order, next: Order, cfg: MonitorConfig, time: int) {
      && next.client == order.client.(attempt := next.client.attempt)
      && 0 <= next.client.attempt - order.client.attempt <= 1
      && (next.client != order.client || paid > 0 ==> order.client.attempt < cfg.maxAttempts)
      && |book'| - |book| <= next.client.attempt - order.client.attempt
      && (if next.client != order.client then paid <= CancelCost() + 1
          else
            && paid <= CancelCost() && next.broker == order.broker
            && (paid > 0 ==> Idle(book', next.broker, cfg.deadline, time)))
    }

    /** What a run of the monitor has cost so far, at an order that may be `idle`: cancelled, and paid for. */
    ghost predicate Spends(order: Order, given: MonitorConfig, book0: Book, sent0: int, book: Book, sent: int,
        current: Order, idle: bool, time: int) {
      var reposts := current.client.attempt - order.client.attempt;
      && 1 <= order.client.attempt && current.client == order.client.(attempt := current.client.attempt)
      && 0 <= reposts <= RepostsLeft(order, given) && |book| - |book0| <= reposts
      && (idle ==> Idle(book, current.broker, given.deadline, time) && reposts < RepostsLeft(order, given))
      && sent <= sent0 + SpentOnReposts(reposts) + (if idle then CancelCost() else 0)
    }

    lemma SpendsNothing(order: Order, given: MonitorConfig, book: Book, sent: int, time: int)
      requires 1 <= order.client.attempt
      ensures Spends(order, given, book, sent, book, sent, order, false, time)
    {
    }

    lemma SpendsOn(order: Order, given: MonitorConfig, book0: Book, sent0: int, book: Book, sent: int,
        current: Order, idle: bool, time: int)
      requires Spends(order, given, book0, sent0, book, sent, current, idle, time)
      ensures current.client == order.client.(attempt := current.client.attempt)
      ensures order.client.attempt <= current.client.attempt
    {
    }

    lemma SpendsFurther(order: Order, given: MonitorConfig, cfg: MonitorConfig, book0: Book, sent0: int, book: Book,
        sent: int, current: Order, idle: bool, time: int, book': Book, sent': int, next: Order, time': int)
      requires Spends(order, given, book0, sent0, book, sent, current, idle, time)
      requires cfg.deadline == given.deadline
        && cfg.maxAttempts == if given.maxAttempts <= 0 then 1 else given.maxAttempts
      requires !Idle(book, current.broker, cfg.deadline, time)
      requires Pays(book, book', sent' - sent, current, next, cfg, time')
      ensures
        Spends(order, given, book0, sent0, book', sent', next, next.client == current.client && sent' > sent, time')
    {
      hide Idle;
    }

    /** How far the last round can take the costs. */
    lemma SpendsAtMost(order: Order, given: MonitorConfig, cfg: MonitorConfig, book0: Book, sent0: int, book: Book,
        sent: int, current: Order, idle: bool, time: int, book': Book, sent': int, err: Error)
      requires Spends(order, given, book0, sent0, book, sent, current, idle, time)
      requires cfg.deadline == given.deadline && cfg.instrument == given.instrument
        && cfg.maxAttempts == if given.maxAttempts <= 0 then 1 else given.maxAttempts
      requires
        && |book'| <= |book| + (if current.client.attempt < cfg.maxAttempts then 1 else 0)
        && sent' <= sent + CancelCost() + (if Spent(current, cfg, book, time) then 0 else 1)
        && (err.BudgetExceeded? ==>
              && cfg.instrument.freeOrderLimit > 0 && !Spent(current, cfg, book, time)
              && cfg.instrument.freeOrderLimit - sent < CancelCost() + RequiredFor(order.client.side))
      ensures |book'| - |book0| <= RepostsLeft(order, given)
      ensures sent' <= sent0 + SpentOnReposts(RepostsLeft(order, given)) + CancelCost()
      ensures err.BudgetExceeded? ==>
        && given.instrument.freeOrderLimit > 0 && RepostsLeft(order, given) > 0
        && given.instrument.freeOrderLimit - sent0
           < SpentOnReposts(RepostsLeft(order, given) - 1) + CancelCost() + RequiredFor(order.client.side)
    {
      hide Idle, RequiredFor;
    }

    /** The part of a monitoring round after its poll, when the order is due: it is replaced, if that is
        still wanted, and the memory and the stored rows are what the whole round makes of them. */
    method RepostRound(ghost order: Order, ghost before: Order, current: Order, polled: Order, cfg: MonitorConfig,
        ghost poll: R.Snapshot, ghost heard: seq<Event>)
        returns (next: Order, aggregate: Order, over: bool, err: Error, ghost latest: Order, ghost lost: Fill,
            ghost round: R.Round, ghost ended: Order)
      requires
        && SameOrder(order, current) && SameOrder(before, polled) && Advances(FillOf(before), FillOf(polled))
        && Tracks(broker.book, store.rows, current, before.quantity, FillOf(polled))
        && Taken(R.Poll(poll), order, before, current, polled, heard, broker.heard)
        && FillOf(current) == Reported(poll.last) && ChainOf(before.client) == ChainOf(order.client)
      requires Stored(store.rows, current.client, AggregateStateOf(polled))
      requires current.client in store.rows && Carries(store.rows[current.client], current)
      requires cfg.poll > 0 && polled.filled < polled.quantity && !IsTerminal(polled.status)
        && polled.status == current.status && polled.raw == current.raw
      modifies broker, store, clock
      ensures old(clock.time) <= clock.time && clock.patience <= old(clock.patience)
        && old(broker.heard) <= broker.heard && old(clock.declined) <= clock.declined
      ensures |broker.book| <= |old(broker.book)| + 1 && Evolved(old(broker.book), broker.book)
      ensures !err.NoError? ==> over
      ensures over ==> Concluded(broker.book, store.rows, before, latest, aggregate, err, lost)
      ensures over && err.NoError? ==>
        && latest.client in store.rows && Carries(store.rows[latest.client], ended)
        && aggregate.filled >= aggregate.quantity && aggregate.status.Filled?
      ensures err.NoError? ==> Taken(round, order, before, ended, aggregate, heard, broker.heard)
      ensures !err.NoError? ==>
        round == R.Poll(poll) && ended == current
        && (err.WaitFailed? ==> Taken(round, order, before, ended, aggregate, heard, old(broker.heard)))
      ensures LosesExactly(store.rows, ended, err, lost)
      ensures err.NoError? ==>
        round.poll == poll
        && (latest.client == order.client || (R.Ends(round) && latest.client == NextAttempt(order)))
      ensures err.NoError? && latest.client == order.client && aggregate.filled < aggregate.quantity ==>
        Due(cfg.deadline, clock.time) || clock.declined > old(clock.declined)
      ensures !over ==>
        && ended == next == latest && lost == ZERO && aggregate.filled < aggregate.quantity
        && aggregate.status == next.status && aggregate.raw == next.raw
        && !IsTerminal(polled.status)
        && Tracks(broker.book, store.rows, next, before.quantity, FillOf(aggregate))
        && SameOrder(before, aggregate) && Advances(FillOf(before), FillOf(aggregate))
        && (cfg.deadline.None? ==> clock.patience < old(clock.patience))
        && Pays(old(broker.book), broker.book,
                SentToday(store.sent, order.client) - SentToday(old(store.sent), order.client),
                order, next, cfg.(maxAttempts := order.client.attempt + 1), clock.time)
      ensures SentToday(store.sent, order.client) <= SentToday(old(store.sent), order.client) + CancelCost() + 1
      ensures err.BudgetExceeded? ==>
        && cfg.instrument.freeOrderLimit > 0
        && cfg.instrument.freeOrderLimit - SentToday(old(store.sent), order.client)
           < CancelCost() + RequiredFor(order.client.side)
      ensures Isolated(old(broker.book), old(store.rows), broker.book, store.rows, ChainOf(order.client))
    {
      hide Tracks, FillOf, Value, WithAggregate, WithinOrder, Conserved, Advances, Evolved, Concluded, Stored,
        RequiredFor, SentToday, Isolated, Closed, R.Heard, Reported, Taken, EndTaken, Carries, SameOrder, Idle;
      SameOrderMeans(order, current);
      SameOrderMeans(before, polled);
      next, over, ended, round := current, true, current, R.Poll(poll);
      var outcome;
      ghost var last, newcomer;
      outcome, aggregate, err, latest, lost, last, newcomer := RepostAndAbsorb(current, current, polled, cfg);
      SameOrderMeans(polled, aggregate);
      SameOrderOnwards(before, polled, aggregate);
      ConcludesLonger(broker.book, store.rows, before, polled, latest, aggregate, err, lost);
      if !err.NoError? {
        return;
      }
      ConcludedTracks(broker.book, store.rows, before, latest, aggregate, lost);
      if outcome.changed {
        ended, round := Closing(latest, aggregate), EndRound(poll, last, newcomer);
        EndsRound(order, before, poll, current, polled, last, newcomer, ended, aggregate, heard, old(broker.heard),
          broker.heard);
        RowCarries(latest, ended, aggregate, broker.book, store.rows, before.quantity);
      }
      TakenAlike(round, order, before, ended, aggregate, aggregate.(status := Filled), heard, broker.heard);
      TakenAlike(round, order, before, ended, aggregate, aggregate.(status := ended.status, raw := ended.raw), heard,
        broker.heard);
      if aggregate.filled >= aggregate.quantity {
        ConcludesAs(broker.book, store.rows, before, latest, aggregate, err, ZERO, aggregate.(status := Filled));
        aggregate := aggregate.(status := Filled);
        return;
      }
      over := false;
      if outcome.changed {
        next := outcome.current.value;
        SameFill(aggregate, next.status, next.raw);
        aggregate := aggregate.(status := next.status, raw := next.raw);
      }
    }

    /** One round of the monitoring loop: poll, then replace the order if that is due, or else sleep. A
        round that does not shorten the wait was due, and starts the count anew. */
    method MonitorRound(order: Order, previous: Order, before: Order, cfg: MonitorConfig, lastPost: int)
        returns (next: Order, aggregate: Order, seen: map<ClientId, Order>, posted: int, over: bool, err: Error,
                 ghost latest: Order, ghost lost: Fill, ghost round: R.Round, ghost ended: Order)
      requires Tracks(broker.book, store.rows, order, before.quantity, FillOf(before)) && cfg.poll > 0
      requires FillOf(previous) == FillOf(order) && ChainOf(before.client) == ChainOf(order.client)
      modifies broker, store, clock
      ensures old(clock.time) <= clock.time && clock.patience <= old(clock.patience)
      ensures !err.NoError? ==> over
      ensures over ==> Concluded(broker.book, store.rows, before, latest, aggregate, err, lost)
      ensures over && err.NoError? ==>
        && IsTerminal(aggregate.status) && latest.client in store.rows && Carries(store.rows[latest.client], ended)
        && if aggregate.filled >= aggregate.quantity then aggregate.status.Filled?
           else Closed(broker.book, broker.asked, latest.broker, cfg.deadline, clock.time)
      ensures old(broker.heard) <= broker.heard
      ensures err.NoError? ==> Taken(round, order, before, ended, aggregate, old(broker.heard), broker.heard)
      ensures err.WaitFailed? ==>
        && old(broker.heard) + R.Heard(round) <= broker.heard
        && Taken(round, order, before, ended, aggregate, old(broker.heard), old(broker.heard) + R.Heard(round))
      ensures LosesExactly(store.rows, ended, err, lost)
      ensures
        (err.NoError? && (R.Ends(round) || latest.client != order.client))
        || (broker.asked != old(broker.asked) && !Due(cfg.deadline, clock.time)) ==>
        && cfg.quotes && order.client.attempt < cfg.maxAttempts
        && 0 < cfg.repostAfter && lastPost + cfg.repostAfter <= clock.time
      ensures
        && err.NoError? && aggregate.filled < aggregate.quantity && !IsTerminal(round.poll.last.status)
        && cfg.quotes && order.client.attempt < cfg.maxAttempts
        && 0 < cfg.repostAfter && lastPost + cfg.repostAfter <= old(clock.time) ==>
        latest.client == NextAttempt(order) || Due(cfg.deadline, clock.time) || clock.declined > old(clock.declined)
      ensures err.NoError? && R.Ends(round) && aggregate.filled < aggregate.quantity ==>
        latest.client == NextAttempt(order) || Due(cfg.deadline, clock.time) || clock.declined > old(clock.declined)
      ensures err.NoError? ==>
        latest.client == order.client || (R.Ends(round) && latest.client == NextAttempt(order))
      ensures old(clock.declined) <= clock.declined
      ensures !over ==>
        && aggregate.filled < aggregate.quantity && !IsTerminal(round.poll.last.status)
        && posted in {lastPost, clock.time}
        && (R.Ends(round) || clock.declined > old(clock.declined) ==> posted == clock.time)
        && (posted != lastPost ==> 0 < cfg.repostAfter && lastPost + cfg.repostAfter <= clock.time)
      ensures !over ==> ended == next == latest
      ensures !over ==>
        && lost == ZERO && !Due(cfg.deadline, old(clock.time))
        && Tracks(broker.book, store.rows, next, before.quantity, FillOf(aggregate))
        && SameOrder(before, aggregate) && Advances(FillOf(before), FillOf(aggregate))
        && next.client in seen && FillOf(seen[next.client]) == FillOf(next)
        && Pays(old(broker.book), broker.book,
                SentToday(store.sent, order.client) - SentToday(old(store.sent), order.client),
                order, next, cfg, clock.time)
        && !Idle(old(broker.book), order.broker, cfg.deadline, old(clock.time))
        && (Left(cfg.deadline, clock.time, clock.patience) < Left(cfg.deadline, old(clock.time), old(clock.patience))
            || (&& Left(cfg.deadline, clock.time, clock.patience)
                   == Left(cfg.deadline, old(clock.time), old(clock.patience))
                && 0 < cfg.repostAfter <= old(clock.time) - lastPost && posted == clock.time))
      ensures |broker.book| <= |old(broker.book)| + if order.client.attempt < cfg.maxAttempts then 1 else 0
      ensures SentToday(store.sent, order.client)
              <= SentToday(old(store.sent), order.client) + CancelCost()
                 + if Spent(order, cfg, old(broker.book), old(clock.time)) then 0 else 1
      ensures err.BudgetExceeded? ==>
        && cfg.instrument.freeOrderLimit > 0 && !Spent(order, cfg, old(broker.book), old(clock.time))
        && cfg.instrument.freeOrderLimit - SentToday(old(store.sent), order.client)
           < CancelCost() + RequiredFor(order.client.side)
      ensures Isolated(old(broker.book), old(store.rows), broker.book, store.rows, ChainOf(order.client))
    {
      hide Tracks, FillOf, Value, WithAggregate, WithinOrder, Conserved, Advances, Evolved, Concluded, Stored,
        RequiredFor, SentToday, Isolated, Closed, R.Heard, Reported, Taken, EndTaken, Carries;
      posted, seen, lost := lastPost, map[], ZERO;
      var current, refreshed;
      current, aggregate, refreshed, over, err, round := Poll(order, previous, before, cfg);
      next, latest, ended := current, current, current;
      IdleStays(old(broker.book), broker.book, order.broker, cfg.deadline, old(clock.time), clock.time);
      Concludes(broker.book, store.rows, before, current, aggregate, err);
      if err.NoError? {
        RowCarries(current, current, aggregate, broker.book, store.rows, before.quantity);
      }
      if over {
        return;
      }
      seen := map[current.client := current];
      ghost var book, rows := broker.book, store.rows;
      var due := false;
      if cfg.repostAfter > 0 {
        var now := clock.Now();
        due := now - lastPost >= cfg.repostAfter;
      }
      if due && current.client.attempt < cfg.maxAttempts && cfg.quotes {
        TakenHeard(round, order, before, current, aggregate, old(broker.heard), broker.heard);
        next, aggregate, over, err, latest, lost, round, ended :=
          RepostRound(order, before, current, aggregate, cfg, round.poll, old(broker.heard));
        IsolatedTransitive(old(broker.book), old(store.rows), book, rows, broker.book, store.rows,
          ChainOf(order.client));
        if over {
          return;
        }
        seen := map[next.client := next];
        posted := clock.Now();
      } else {
        var completed := clock.Sleep(cfg.poll);
        if !completed {
          err, over := Interrupted, true;
          Concludes(broker.book, store.rows, before, current, aggregate, err);
        }
      }
    }

    /** Monitors an order until it is filled, finished or expired, keeping the aggregate in memory and
        the last observation of every order of the chain in `seen`. No repost is left out: the round
        `before` the last, if it left attempts, began when none was due since the last was `posted`, unless
        the deadline came or the caller turned one down. It ends because every round that
        does not sleep is followed by one that does, and sleeping brings the deadline nearer, or without
        a deadline the end of the caller's context. */
    method MonitorUntil(order: Order, given: MonitorConfig)
        returns (aggregate: Order, err: Error, ghost latest: Order, ghost lost: Fill, ghost rounds: seq<R.Round>,
            ghost posted: int, ghost before: int)
      requires
        var start := AggregatedOrderFill(order);
        Tracks(broker.book, store.rows, order, start.quantity, FillOf(start))
      modifies broker, store, clock
      ensures Concluded(broker.book, store.rows, AggregatedOrderFill(order), latest, aggregate, err, lost)
      ensures err.NoError? ==> IsTerminal(aggregate.status)
      ensures old(clock.time) <= posted <= clock.time && old(clock.time) <= before
      ensures err.NoError? ==>
        Prompt(given, latest, posted, before, clock.declined > old(clock.declined), clock.time)
      ensures old(broker.heard) <= broker.heard
      ensures err.NoError? ==>
        && broker.heard == old(broker.heard) + R.HeardIn(rounds)
        && latest.client in store.rows
        && Carries(store.rows[latest.client], R.MemoryRun(order, rounds).current)
      ensures err.NoError? || err.WaitFailed? ==>
        && R.Follows(order, rounds)
        && AggregateStateOf(R.MemoryRun(order, rounds).aggregate) == AggregateStateOf(aggregate)
      ensures err.WaitFailed? ==>
        old(broker.heard) + R.HeardIn(rounds) <= broker.heard && R.MemoryRun(order, rounds).current.client in store.rows
      ensures LosesExactly(store.rows, R.MemoryRun(order, rounds).current, err, lost)
      ensures
        var polled := R.MemoryRun(order, rounds).current;
        lost == ZERO <==> (err.WaitFailed? ==> FillOf(store.rows[polled.client]) == FillOf(polled))
      ensures err.NoError? ==>
        if aggregate.filled >= aggregate.quantity then aggregate.status.Filled?
        else Closed(broker.book, broker.asked, latest.broker, given.deadline, clock.time)
      ensures err.NoError? ==>
        && latest.client == order.client.(attempt := latest.client.attempt)
        && order.client.attempt <= latest.client.attempt
        && Spaced(latest.client.attempt - order.client.attempt, given, old(clock.time), clock.time)
      ensures |broker.book| - |old(broker.book)| <= RepostsLeft(order, given)
      ensures SentToday(store.sent, order.client)
              <= SentToday(old(store.sent), order.client) + SpentOnReposts(RepostsLeft(order, given)) + CancelCost()
      ensures err.BudgetExceeded? ==>
        && given.instrument.freeOrderLimit > 0 && RepostsLeft(order, given) > 0
        && given.instrument.freeOrderLimit - SentToday(old(store.sent), order.client)
           < SpentOnReposts(RepostsLeft(order, given) - 1) + CancelCost() + RequiredFor(order.client.side)
      ensures Isolated(old(broker.book), old(store.rows), broker.book, store.rows, ChainOf(order.client))
    {
      hide Tracks, FillOf, Value, AggregatedOrderFill, WithAggregate, WithinOrder, Conserved, Advances, Evolved,
        Concluded, Stored, RequiredFor, SentToday, Isolated, Closed, R.Follows, R.Heard, R.HeardIn, R.MemoryRun,
        R.LastSeen, LosesExactly, Carries, Taken, Spaced, SameOrder, AggregateStateOf, Prompt, Spends, OnTime,
        SpentOnReposts, RepostsLeft, Pays, Idle, Spent, ComesSeen, Comes;
      var cfg := given.(poll := if given.poll <= 0 then HALF_SECOND else given.poll,
                        maxAttempts := if given.maxAttempts <= 0 then 1 else given.maxAttempts);
      var start := AggregatedOrderFill(order);
      ghost var quantity, deadline := start.quantity, cfg.deadline;
      AggregateKeepsIdentity(order);
      TrackedWithinOrder(broker.book, store.rows, order, quantity, FillOf(start));
      IsolatedReflexive(broker.book, store.rows, ChainOf(order.client));
      AdvancesReflexive(start);
      RunBegins(order);
      var lastPost := clock.Now();
      var current := order;
      aggregate, latest, lost, rounds, posted, before := start, order, ZERO, [], lastPost, old(clock.time);
      var seen := map[order.client := order];
      SameOrderReflexive(start);
      SpendsNothing(order, given, broker.book, SentToday(store.sent, order.client), clock.time);
      OnTimeAtFirst(order, given, before, clock.time);
      ghost var idle := false;
      while true
        invariant posted == lastPost && old(clock.declined) <= clock.declined
        invariant OnTime(order, given, current, old(clock.time), posted, before, clock.declined > old(clock.declined),
                         clock.time)
        invariant Tracks(broker.book, store.rows, current, quantity, FillOf(aggregate))
        invariant SameOrder(start, aggregate) && Advances(FillOf(start), FillOf(aggregate)) && lost == ZERO
        invariant current.client in seen && FillOf(seen[current.client]) == FillOf(current)
          && ComesSeen(R.MemoryRun(order, rounds), current, aggregate)
        invariant R.Follows(order, rounds) && broker.heard == old(broker.heard) + R.HeardIn(rounds)
        invariant Isolated(old(broker.book), old(store.rows), broker.book, store.rows, ChainOf(order.client))
        invariant Spends(order, given, old(broker.book), SentToday(old(store.sent), order.client), broker.book,
                         SentToday(store.sent, order.client), current, idle, clock.time)
        decreases Left(deadline, clock.time, clock.patience), if clock.time - lastPost >= cfg.repostAfter then 1 else 0
      {
        ghost var book0, rows0, time0, sent0, polled, earlier, declined0 :=
          broker.book, store.rows, clock.time, store.sent, current, aggregate, clock.declined > old(clock.declined);
        var next, observed, over;
        ghost var round, ended;
        ghost var heard := broker.heard;
        SpendsOn(order, given, old(broker.book), SentToday(old(store.sent), order.client), broker.book,
          SentToday(store.sent, order.client), current, idle, clock.time);
        SameCounter(current.client, order.client);
        SameOrderMeans(start, aggregate);
        next, aggregate, observed, lastPost, over, err, latest, lost, round, ended :=
          MonitorRound(current, seen[current.client], aggregate, cfg, lastPost);
        IsolatedTransitive(old(broker.book), old(store.rows), book0, rows0, broker.book, store.rows,
          ChainOf(order.client));
        rounds := RunOrBreak(order, rounds, polled, earlier, round, ended, aggregate, err, old(broker.heard), heard,
          broker.heard);
        SpendsAtMost(order, given, cfg, old(broker.book), SentToday(old(store.sent), order.client), book0,
          SentToday(sent0, order.client), polled, idle, time0, broker.book, SentToday(store.sent, order.client), err);
        if over {
          ConcludesLonger(broker.book, store.rows, start, earlier, latest, aggregate, err, lost);
          LosesNothing(store.rows, ended, R.MemoryRun(order, rounds).current, err, lost);
          OnTimeToTheEnd(order, given, polled, if err.NoError? then latest else polled, old(clock.time), posted, before,
            declined0, time0, clock.declined > old(clock.declined), clock.time);
          return;
        }
        AdvancesTransitive(FillOf(start), FillOf(earlier), FillOf(aggregate));
        SameOrderOnwards(start, earlier, aggregate);
        OnTimeFurther(order, given, polled, next, old(clock.time), posted, before, declined0, time0, lastPost,
          clock.declined > old(clock.declined), clock.time);
        posted, before := lastPost, time0;
        SpendsFurther(order, given, cfg, old(broker.book), SentToday(old(store.sent), order.client), book0,
          SentToday(sent0, order.client), polled, idle, time0, broker.book, SentToday(store.sent, order.client), next,
          clock.time);
        idle := next.client == current.client && SentToday(store.sent, order.client) > SentToday(sent0, order.client);
        seen := seen + observed;
        current := next;
      }
    }
  }
}
