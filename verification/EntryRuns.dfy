/** One entry chain as a machine of small steps. What the broker, the store and the clock decide is in
    the steps, so that a run can be written down; each step does to the book, the rows and the counter
    what the engine's methods do in that place. */
module EntryRuns {
  import opened RawState
  import opened Domain
  import opened Fills
  import opened Ledger
  import opened Gateway
  import opened Execution
  import opened Positions
  import opened Ticks
  import R = Refinement

  /** `freeOrders` is the day's limit, as everywhere: positive if there is one. */
  datatype Terms = Terms(
    id: ClientId, lots: int, price: real, freeOrders: int, entryAttempts: int, exitAttempts: int, cancelCounts: bool)
  {
    function CancelCost(): int { if cancelCounts then 1 else 0 }

    function ExitNeeds(): int { OrderBudgetNeeded(exitAttempts, cancelCounts) }

    function EntryNeeds(): int { OrderBudgetNeeded(entryAttempts, cancelCounts) + ExitNeeds() }

    predicate Leaves(sent: int, needed: int) { freeOrders > 0 ==> freeOrders - sent >= needed }
  }

  datatype Stage =
    | NotPlaced
    | Waiting                   // between two ticks
    | Polled                    // looked at, the aggregate stored
    | Asked(previous: Order)    // a cancel was accepted
    | Settled(previous: Order)  // and the order is over
    | Reported                  // the engine is done with the tick
    | Broken(err: Error)        // the tick ended in an error

  /** `asks` counts the cancels of the current order, `late` says that the deadline has come, `start` is
      the aggregate the tick began with and `booked` what the position has. The tick began with `row`; since
      then it heard `poll`, `looks` after a cancel, and the acknowledgement of `next`. */
  datatype State = State(
    stage: Stage, book: Book, rows: Rows, sent: int, current: Order, aggregate: Order, start: Order, booked: Fill,
    asks: nat, late: bool, row: Order, poll: R.Snapshot, looks: seq<Report>, next: Option<R.Newcomer>)

  datatype Step =
    | Place(order: BrokerOrder)
    | Move(book: Book)
    | Poll
    | Expire
    | Cancel
    | CancelFails
    | Look
    | TimeUp
    | WaitFails
    | Replace(order: BrokerOrder)
    | PostFails(taken: Option<BrokerOrder>, released: bool)
    | Abandon
    | Record(stored: bool)

  const NO_RAW := Malformed("")

  function ReportOf(id: BrokerId, at: BrokerOrder): Report {
    Report(id, at.filled, at.avg, at.status, at.commission, NO_RAW)
  }

  function NewcomerOf(order: BrokerOrder, number: nat): R.Newcomer {
    R.Newcomer(Ack(order.client, order.quantity, order.limit, ReportOf(Id(number), order)), NO_RAW, 0)
  }

  /** The row of an order that was just acknowledged. */
  function RowOf(order: BrokerOrder, number: nat): Order {
    NewcomerOf(order, number).Placed()
  }

  function SeenAs(order: Order, at: BrokerOrder): Order {
    R.Observed(order, R.Snapshot([], ReportOf(order.broker, at), None))
  }

  /** An order as it may be acknowledged. */
  predicate Acceptable(order: BrokerOrder, id: ClientId, lots: int) {
    order.client == id && order.quantity == lots && order.Sound() && order.ack == order.Done()
  }

  predicate Placed(s: State) {
    s.current.broker.Id? && s.current.broker.number < |s.book| && s.current.client in s.rows
  }

  /** The order as the broker has it now. */
  function AtBroker(s: State): BrokerOrder
    requires Placed(s)
  {
    s.book[s.current.broker.number]
  }

  function PlaceFirst(t: Terms, s: State, order: BrokerOrder): State {
    var row := RowOf(order, |s.book|);
    s.(stage := Waiting, book := s.book + [order], rows := s.rows[order.client := row], sent := s.sent + 1,
       current := row, aggregate := row, start := row,
       booked := if row.filled > 0 then EntryFillOf(row) else ZERO)
  }

  /** Reads the row and its aggregate, looks at the order, and stores what the aggregate has become. */
  function PollOrder(s: State): State
    requires Placed(s)
  {
    var row := s.rows[s.current.client];
    var start, state := AggregatedOrderFill(row), SeenAs(row, AtBroker(s));
    var aggregate := MergeAggregateFill(start, row, state);
    var current := R.Annotated(state, aggregate);
    s.(stage := if aggregate.filled >= aggregate.quantity || IsTerminal(current.status) then Reported else Polled,
       rows := s.rows[current.client := current], current := current, aggregate := aggregate, start := start,
       row := row, poll := R.Snapshot([], ReportOf(row.broker, AtBroker(s)), None), looks := [], next := None)
  }

  function Withdrawn(t: Terms, s: State, stage: Stage, status: Status): State {
    s.(stage := stage, rows := s.rows[s.current.client := s.current.(status := status)],
       sent := s.sent + t.CancelCost(), asks := s.asks + 1)
  }

  /** The last look at a cancelled order overwrites its row; the aggregate does not know yet. */
  function LookAgain(s: State, previous: Order): State
    requires Placed(s)
  {
    var current := SeenAs(s.current, AtBroker(s));
    s.(stage := if IsTerminal(current.status) then Settled(previous) else Asked(previous),
       rows := s.rows[current.client := current], current := current,
       looks := s.looks + [ReportOf(s.current.broker, AtBroker(s))])
  }

  function Absorbed(s: State, previous: Order): Order {
    MergeAggregateFill(s.aggregate, previous, s.current)
  }

  /** The cancelled order's gain is merged and stored, and the order that goes on inherits it. */
  function Carry(s: State, previous: Order, next: Order): State {
    var total := Absorbed(s, previous);
    var ended := R.Annotated(s.current, total);
    var current := R.Successor(next, ended, total);
    s.(stage := Reported, rows := s.rows[ended.client := ended][current.client := current], current := current,
       aggregate := total)
  }

  function ReplaceOrder(s: State, previous: Order, order: BrokerOrder): State {
    Carry(s, previous, RowOf(order, |s.book|))
      .(book := s.book + [order], sent := s.sent + 1, asks := 0, next := Some(NewcomerOf(order, |s.book|)))
  }

  function NextId(s: State): ClientId {
    s.current.client.(attempt := s.current.client.attempt + 1)
  }

  /** A post that was refused, or taken with the answer lost on the way: its draft stays, failed if the
      reservation could be given back. */
  function BreakPost(t: Terms, s: State, previous: Order, taken: Option<BrokerOrder>, released: bool, missing: int)
      : State
  {
    var draft := Order(NextId(s), NoId, if taken.Some? then taken.value.limit else t.price, missing, 0, 0.0,
                       if released then Failed else Sent, 0.0, NO_RAW, 0);
    var absorbed := Carry(s, previous, s.current);
    absorbed.(stage := Broken(BrokerFailed), sent := if released then s.sent else s.sent + 1,
              book := s.book + if taken.Some? then [taken.value] else [],
              rows := absorbed.rows[draft.client := draft])
  }

  /** A step that is not enabled changes nothing. */
  function Take(t: Terms, s: State, step: Step): State {
    match step
    case Place(order) =>
      if s.stage.NotPlaced? && t.Leaves(s.sent, t.EntryNeeds()) && Acceptable(order, t.id, t.lots)
      then PlaceFirst(t, s, order) else s
    case Move(book) => if |book| == |s.book| && Evolved(s.book, book) then s.(book := book) else s
    case Poll =>
      if s.stage.Waiting? && Placed(s) && IsActive(s.rows[s.current.client].status) then PollOrder(s) else s
    case Expire => if s.stage.Polled? then Withdrawn(t, s, Reported, Expired).(late := true) else s
    case Cancel =>
      if s.stage.Polled? && !s.late && s.current.client.attempt < t.entryAttempts
        && t.Leaves(s.sent, 1 + t.CancelCost())
      then Withdrawn(t, s, Asked(s.current), Cancelled) else s
    case CancelFails => if s.stage.Polled? then s.(stage := Broken(BrokerFailed)) else s
    case Look => if s.stage.Asked? && Placed(s) then LookAgain(s, s.stage.previous) else s
    case TimeUp =>
      if s.stage.Asked? && s.looks != [] then Carry(s, s.stage.previous, s.current).(late := true) else s
    case WaitFails => if s.stage.Asked? then s.(stage := Broken(WaitFailed)) else s
    case Replace(order) =>
      if s.stage.Settled? && !s.late && t.Leaves(s.sent, 1 + t.ExitNeeds())
         && Absorbed(s, s.stage.previous).filled < s.aggregate.quantity
         && Acceptable(order, NextId(s), s.aggregate.quantity - Absorbed(s, s.stage.previous).filled)
      then ReplaceOrder(s, s.stage.previous, order) else s
    case PostFails(taken, released) =>
      var missing := s.aggregate.quantity - if s.stage.Settled? then Absorbed(s, s.stage.previous).filled else 0;
      if s.stage.Settled? && t.Leaves(s.sent, 1 + t.ExitNeeds()) && 0 < missing
         && (taken.Some? ==> Acceptable(taken.value, NextId(s), missing))
      then BreakPost(t, s, s.stage.previous, taken, released, missing) else s
    case Abandon => if s.stage.Settled? then Carry(s, s.stage.previous, s.current) else s
    case Record(stored) =>
      if !s.stage.Reported? then s
      else if !stored then s.(stage := Broken(PositionFailed))
      else s.(stage := Waiting, booked := s.booked.Plus(FillOf(s.aggregate).Minus(FillOf(s.start))))
  }

  // ---------------------------------------------------------------- when a step is taken

  /** Lots that are still to be ordered once the last look is known. */
  function Missing(s: State): int
    requires s.stage.Settled?
  {
    s.aggregate.quantity - Absorbed(s, s.stage.previous).filled
  }

  /** Under a daily limit, a repost begins with two orders left if cancels count, and with one otherwise. */
  lemma CancelIff(t: Terms, s: State)
    ensures Take(t, s, Cancel) != s <==>
            && s.stage.Polled? && !s.late && s.current.client.attempt < t.entryAttempts
            && (t.freeOrders > 0 ==> s.sent + (if t.cancelCounts then 2 else 1) <= t.freeOrders)
    ensures Take(t, s, CancelFails) == if s.stage.Polled? then s.(stage := Broken(BrokerFailed)) else s
    ensures Take(t, s, WaitFails) == if s.stage.Asked? then s.(stage := Broken(WaitFailed)) else s
  {
    hide Absorbed, PollOrder, Carry;
  }

  /** It is completed only if, beside its own post, the exit can still be paid for: a post for each of its
      attempts and, if cancels count, a cancel before each but the first. */
  lemma ReplaceIff(t: Terms, s: State, order: BrokerOrder)
    ensures
      var exits := if t.exitAttempts > 1 then t.exitAttempts else 1;
      Take(t, s, Replace(order)) != s <==>
        && s.stage.Settled? && !s.late && 0 < Missing(s) && Acceptable(order, NextId(s), Missing(s))
        && (t.freeOrders > 0 ==> s.sent + 1 + exits + (if t.cancelCounts then exits - 1 else 0) <= t.freeOrders)
  {
    hide Absorbed, PollOrder;
  }

  /** A post that fails leaves a draft for what was missing, with the reservation if that was not released,
      and on the broker's book the order if it was taken. */
  lemma PostFailsIff(t: Terms, s: State, taken: Option<BrokerOrder>, released: bool)
    ensures
      var exits := if t.exitAttempts > 1 then t.exitAttempts else 1;
      var s' := Take(t, s, PostFails(taken, released));
      if && s.stage.Settled? && 0 < Missing(s) && (taken.Some? ==> Acceptable(taken.value, NextId(s), Missing(s)))
         && (t.freeOrders > 0 ==> s.sent + 1 + exits + (if t.cancelCounts then exits - 1 else 0) <= t.freeOrders)
      then
        && s'.stage == Broken(BrokerFailed) && s'.sent - s.sent == (if released then 0 else 1)
        && s'.book == (if taken.None? then s.book else s.book + [taken.value])
        && NextId(s) in s'.rows
        && s'.rows[NextId(s)] == Order(NextId(s), NoId, if taken.None? then t.price else taken.value.limit, Missing(s),
                                       0, 0.0, if released then Failed else Sent, 0.0, NO_RAW, 0)
      else s' == s
  {
    hide Absorbed, PollOrder;
  }

  /** The ends of a wait: the deadline after a look, or the caller's refusal once the order is over. */
  lemma WaitEndsIff(t: Terms, s: State)
    ensures Take(t, s, TimeUp) ==
            if s.stage.Asked? && s.looks != [] then Carry(s, s.stage.previous, s.current).(late := true) else s
    ensures s.stage.Settled? ==> Take(t, s, Abandon).stage == Reported
    ensures !s.stage.Settled? ==> Take(t, s, Abandon) == s
    ensures s.stage.Asked? && s.looks != [] ==> Take(t, s, TimeUp).stage == Reported && Take(t, s, TimeUp).late
  {
    hide Absorbed, PollOrder, R.Annotated, R.Successor;
  }

  /** A poll goes on only with an order that is neither filled nor over. */
  lemma PollGoesOnIff(t: Terms, s: State)
    requires s.stage.Waiting? && Placed(s) && IsActive(s.rows[s.current.client].status)
    ensures var s' := Take(t, s, Poll);
            && s'.stage in {Polled, Reported}
            && (s'.stage == Polled <==> s'.aggregate.filled < s'.aggregate.quantity && IsActive(s'.current.status))
  {
    hide MergeAggregateFill, AggregatedOrderFill, R.Annotated, SeenAs;
    OverOrActive(PollOrder(s).current.status);
  }

  /** The first order's fill is booked, and a commission only together with lots. */
  lemma PlaceBooks(t: Terms, s: State, order: BrokerOrder)
    requires s.stage.NotPlaced? && t.Leaves(s.sent, t.EntryNeeds()) && Acceptable(order, t.id, t.lots)
    ensures var s' := Take(t, s, Place(order));
            && s'.stage == Waiting && s'.sent == s.sent + 1 && s'.booked.lots == order.filled
            && (order.filled > 0 ==> s'.booked.commission == order.commission)
            && (order.filled == 0 ==> s'.booked == ZERO)
  {
    hide R.Annotated;
  }

  function Begin(t: Terms, sent: int): State {
    var nothing := Order(t.id, NoId, t.price, t.lots, 0, 0.0, New, 0.0, NO_RAW, 0);
    State(NotPlaced, [], map[], sent, nothing, nothing, nothing, ZERO, 0, false, nothing, NO_LOOK, [], None)
  }

  function After(t: Terms, s: State, steps: seq<Step>): State {
    if steps == [] then s else Take(t, After(t, s, steps[..|steps| - 1]), steps[|steps| - 1])
  }

  lemma AfterBoth(t: Terms, s: State, a: seq<Step>, b: seq<Step>)
    ensures After(t, s, a + b) == After(t, After(t, s, a), b)
  {
    hide Take;
    if b == [] {
      assert a + b == a;
    } else {
      AfterBoth(t, s, a, b[..|b| - 1]);
      assert (a + b)[..|a + b| - 1] == a + b[..|b| - 1];
    }
  }

  lemma StepAfter(t: Terms, s: State, steps: seq<Step>, step: Step)
    ensures After(t, s, steps + [step]) == Take(t, After(t, s, steps), step)
  {
    hide Take;
    assert (steps + [step])[..|steps|] == steps;
  }

  lemma NoSteps(t: Terms, s: State)
    ensures After(t, s, []) == s
  {
  }

  // ---------------------------------------------------------------- what a run costs

  function Most(t: Terms): int {
    if t.entryAttempts <= 0 then 1 else t.entryAttempts
  }

  /** The row says that the order is over: no tick will look at it again. */
  predicate Over(s: State) {
    s.current.client in s.rows && !IsActive(s.rows[s.current.client].status)
  }

  /** An order is cancelled once; a second time only at the deadline, after a cancel that brought no end,
      and then it was not the last attempt. */
  predicate AsksFit(t: Terms, s: State) {
    var last := s.current.client.attempt >= Most(t);
    match s.stage
    case NotPlaced => s.asks == 0
    case Polled => s.asks == 0 || (s.asks == 1 && s.late && !last)
    case Asked(_) => s.asks == 1 && !last
    case Settled(_) => s.asks == 1 && !last && IsTerminal(s.current.status)
    case Broken(_) => s.asks <= 1 || (s.asks == 2 && !last)
    case _ => s.asks == 0 || (s.asks == 1 && (Over(s) || (s.late && !last))) || (s.asks == 2 && !last && Over(s))
  }

  predicate Costed(t: Terms, s: State, sent: int) {
    && AsksFit(t, s) && (s.current.client in s.rows ==> s.rows[s.current.client].client == s.current.client)
    && (if s.stage.NotPlaced? then s.sent == sent && s.current.client.attempt == t.id.attempt
        else
          && 1 <= s.current.client.attempt <= Most(t)
          && s.sent <= sent + s.current.client.attempt + t.CancelCost() * (s.current.client.attempt - 1 + s.asks)
                       + if s.stage.Broken? && s.current.client.attempt < Most(t) && s.asks <= 1 then 1 else 0)
  }

  /** A step that looks at the order or carries the chain on. */
  predicate Looks(step: Step) {
    step.Poll? || step.Look? || step.TimeUp? || step.Replace? || step.PostFails? || step.Abandon?
  }

  lemma LookCosts(t: Terms, s: State, step: Step, sent: int)
    requires t.id.attempt == 1 && Costed(t, s, sent) && Looks(step)
    ensures Costed(t, Take(t, s, step), sent)
  {
    hide R.Noted, RefreshedBy, WithAggregate, CarryFillQuotes, FillDeltaAvg, Value, Times, ReadAggregate, Evolved,
      OrderBudgetNeeded, EntryFillOf, FillOf;
  }

  lemma OtherCosts(t: Terms, s: State, step: Step, sent: int)
    requires t.id.attempt == 1 && Costed(t, s, sent) && !Looks(step)
    ensures Costed(t, Take(t, s, step), sent)
  {
    hide R.Noted, RefreshedBy, WithAggregate, CarryFillQuotes, FillDeltaAvg, Value, Times, ReadAggregate, Evolved,
      OrderBudgetNeeded, EntryFillOf, FillOf;
  }

  lemma StepCosts(t: Terms, s: State, step: Step, sent: int)
    requires t.id.attempt == 1 && Costed(t, s, sent)
    ensures Costed(t, Take(t, s, step), sent)
  {
    hide Take, Costed;
    if Looks(step) {
      LookCosts(t, s, step, sent);
    } else {
      OtherCosts(t, s, step, sent);
    }
  }

  /** Over any run the day's counter grows by at most one post and one counted cancel per attempt. */
  lemma {:induction false} RunCosts(t: Terms, sent: int, steps: seq<Step>)
    requires t.id.attempt == 1
    ensures Costed(t, After(t, Begin(t, sent), steps), sent)
    ensures After(t, Begin(t, sent), steps).sent <= sent + Most(t) + t.CancelCost() * Most(t)
  {
    hide Take, Costed;
    if steps == [] {
      BeginCosts(t, sent);
    } else {
      RunCosts(t, sent, steps[..|steps| - 1]);
      StepCosts(t, After(t, Begin(t, sent), steps[..|steps| - 1]), steps[|steps| - 1], sent);
    }
    CostIsBounded(t, After(t, Begin(t, sent), steps), sent);
  }

  lemma CostIsBounded(t: Terms, s: State, sent: int)
    requires Costed(t, s, sent)
    ensures s.sent <= sent + Most(t) + t.CancelCost() * Most(t)
  {
  }

  lemma BeginCosts(t: Terms, sent: int)
    ensures Costed(t, Begin(t, sent), sent)
  {
  }

  // ---------------------------------------------------------------- the chain stays tracked

  /** What the aggregate will be once it knows of the last look. */
  function Known(s: State): Fill {
    match s.stage
    case Asked(previous) => FillOf(s.aggregate).Plus(FillOf(s.current).Minus(FillOf(previous)))
    case Settled(previous) => FillOf(s.aggregate).Plus(FillOf(s.current).Minus(FillOf(previous)))
    case _ => FillOf(s.aggregate)
  }

  predicate Before(previous: Order, current: Order) {
    0 <= previous.filled && Advances(FillOf(previous), FillOf(current))
  }

  /** The chain is tracked, with the aggregate that the row of its latest order reads back. */
  ghost predicate Kept(t: Terms, s: State) {
    match s.stage
    case NotPlaced => s.book == [] && s.rows == map[]
    case Broken(_) => true
    case _ =>
      && Tracks(s.book, s.rows, s.current, t.lots, Known(s))
      && s.aggregate.quantity == t.lots && 0 <= s.aggregate.filled
      && (s.stage.Asked? || s.stage.Settled? ==> Before(s.stage.previous, s.current))
      && (s.stage.Settled? ==> Ended(s))
      && (s.stage.Waiting? || s.stage.Polled? || s.stage.Reported? ==> ReadsBack(s))
      && (s.stage.Polled? ==> s.rows[s.current.client] == s.current)
  }

  predicate ReadsBack(s: State) {
    s.current.client in s.rows
      && AggregateStateOf(AggregatedOrderFill(s.rows[s.current.client])) == AggregateStateOf(s.aggregate)
  }

  predicate Ended(s: State) {
    && Placed(s) && IsTerminal(AtBroker(s).status) && s.current.filled == AtBroker(s).filled
    && IsTerminal(s.current.status) && s.rows[s.current.client] == s.current
  }

  lemma PlaceKeeps(t: Terms, s: State, order: BrokerOrder)
    requires t.id.attempt == 1 && 0 < t.lots && s.book == [] && s.rows == map[] && Acceptable(order, t.id, t.lots)
    ensures Kept(t, PlaceFirst(t, s, order))
  {
    hide Tracks, EntryFillOf;
    var row := RowOf(order, 0);
    FirstIsTracked([order], map[order.client := row], row);
    assert s.book + [order] == [order] && s.rows[order.client := row] == map[order.client := row];
    NothingToRead(order);
  }

  lemma NothingToRead(order: BrokerOrder)
    ensures forall number :: AggregatedOrderFill(RowOf(order, number)) == RowOf(order, number)
  {
  }

  lemma MoveKeeps(t: Terms, s: State, book: Book)
    requires Kept(t, s) && |book| == |s.book| && Evolved(s.book, book)
    ensures Kept(t, s.(book := book))
  {
    hide Tracks, FillOf, AggregatedOrderFill;
    if !s.stage.NotPlaced? && !s.stage.Broken? {
      BrokerMoveKeeps(s.book, book, s.rows, s.current, t.lots, Known(s));
      if s.stage.Settled? {
        assert Honours(AtBroker(s), book[s.current.broker.number]);
      }
    }
  }

  /** What the machine holds is what its row says. */
  lemma RowTracked(t: Terms, s: State, fill: Fill)
    requires Tracks(s.book, s.rows, s.current, t.lots, fill)
    ensures Placed(s) && Tracks(s.book, s.rows, s.rows[s.current.client], t.lots, fill)
    ensures SameTerms(s.rows[s.current.client], s.current) && 0 <= s.current.filled
    ensures 0 <= fill.lots <= t.lots
  {
    TrackedWithinOrder(s.book, s.rows, s.current, t.lots, fill);
    RemainingLots(s.book, s.rows, s.current, t.lots, fill);
    Restated(s.book, s.rows, s.current, s.rows[s.current.client], t.lots, fill);
  }

  lemma SeenFill(order: Order, at: BrokerOrder)
    ensures FillOf(SeenAs(order, at)) == at.Done() && SeenAs(order, at).status == at.status
    ensures SameOrder(order, SeenAs(order, at))
  {
    hide R.Noted, RefreshedBy;
  }

  /** A look at the order moves the chain on by what the order gained. */
  lemma LookTracks(book: Book, rows: Rows, order: Order, quantity: int, fill: Fill, raw: Raw)
    requires Tracks(book, rows, order, quantity, fill)
    ensures order.broker.Id? && order.broker.number < |book|
    ensures var seen := SeenAs(order, book[order.broker.number]).(raw := raw);
            && Tracks(book, rows[order.client := seen], seen, quantity, fill.Plus(FillOf(seen).Minus(FillOf(order))))
            && Advances(FillOf(order), FillOf(seen)) && FillOf(seen) == book[order.broker.number].Done()
  {
    hide FillOf;
    TrackedWithinOrder(book, rows, order, quantity, fill);
    var at := book[order.broker.number];
    SeenFill(order, at);
    var seen := SeenAs(order, at).(raw := raw);
    SameFill(SeenAs(order, at), seen.status, raw);
    ObservationKeeps(book, rows, order, seen, seen, quantity, fill);
  }

  lemma ReadableAggregate(order: Order, aggregate: Order)
    requires 0 < aggregate.quantity <= TWO53 && 0 <= aggregate.filled <= aggregate.quantity
    ensures AggregateStateOf(AggregatedOrderFill(R.Annotated(order, aggregate))) == AggregateStateOf(aggregate)
  {
    SmallIsRepresentable(aggregate.quantity);
    SmallIsRepresentable(aggregate.filled);
    R.ReadsBack(order, aggregate);
  }

  lemma PollKeeps(t: Terms, s: State)
    requires 0 < t.lots <= TWO53 && s.stage.Waiting? && Kept(t, s)
    ensures Placed(s) && Kept(t, PollOrder(s))
  {
    hide Tracks, FillOf, AggregatedOrderFill, MergeAggregateFill, Advances, R.Observed, R.Annotated;
    RowTracked(t, s, FillOf(s.aggregate));
    var row := s.rows[s.current.client];
    var start, state := AggregatedOrderFill(row), SeenAs(row, AtBroker(s));
    var aggregate := MergeAggregateFill(start, row, state);
    Renamed(start, s.aggregate);
    LookTracks(s.book, s.rows, row, t.lots, FillOf(start), R.Annotated(state, aggregate).raw);
    SeenFill(row, AtBroker(s));
    LotsOf(start);
    LotsOf(row);
    LotsOf(s.current);
    ObservationMerges(start, row, row, state);
    AnnotatedIs(state, aggregate);
    RowTracked(t, PollOrder(s), FillOf(aggregate));
    LotsOf(aggregate);
    ReadableAggregate(state, aggregate);
  }

  lemma LotsOf(order: Order)
    ensures FillOf(order).lots == order.filled
  {
  }

  lemma AnnotatedIs(order: Order, aggregate: Order)
    ensures R.Annotated(order, aggregate) == order.(raw := R.Annotated(order, aggregate).raw)
    ensures FillOf(R.Annotated(order, aggregate)) == FillOf(order)
  {
    hide WithAggregate;
  }

  lemma WithdrawKeeps(t: Terms, s: State, stage: Stage, status: Status)
    requires 0 < t.lots <= TWO53 && s.stage.Polled? && Kept(t, s)
    requires stage == Reported || stage == Asked(s.current)
    ensures Kept(t, Withdrawn(t, s, stage, status))
  {
    hide Tracks, FillOf, Advances;
    RowTracked(t, s, FillOf(s.aggregate));
    var row := s.current.(status := status);
    SameFill(s.current, status, s.current.raw);
    SameRaw(s.current, row);
    TrackedRowTouched(s.book, s.rows, row, s.current, t.lots, FillOf(s.aggregate));
    FillAlgebra(FillOf(s.aggregate), s.current, s.current);
    AdvancesReflexive(s.current);
  }

  lemma SameRaw(a: Order, b: Order)
    requires b == a.(status := b.status)
    ensures AggregateStateOf(AggregatedOrderFill(b)) == AggregateStateOf(AggregatedOrderFill(a))
    ensures FillOf(a) == FillOf(b)
  {
    hide ReadAggregate;
  }

  lemma LookKeeps(t: Terms, s: State)
    requires s.stage.Asked? && Kept(t, s)
    ensures Placed(s) && Kept(t, LookAgain(s, s.stage.previous))
  {
    hide Tracks, FillOf, Advances, R.Observed;
    RowTracked(t, s, Known(s));
    LookTracks(s.book, s.rows, s.current, t.lots, Known(s), SeenAs(s.current, AtBroker(s)).raw);
    SeenFill(s.current, AtBroker(s));
    Telescopes(FillOf(s.aggregate), s.stage.previous, s.current, SeenAs(s.current, AtBroker(s)));
    LotsOf(SeenAs(s.current, AtBroker(s)));
  }

  /** The merge of the last look brings the aggregate to what is known. */
  lemma AbsorbKnows(t: Terms, s: State)
    requires (s.stage.Asked? || s.stage.Settled?) && Kept(t, s)
    ensures Placed(s)
    ensures var total := Absorbed(s, s.stage.previous);
            && FillOf(total) == Known(s) && total.quantity == t.lots && 0 <= total.filled <= t.lots
            && total.filled == Known(s).lots
  {
    hide Tracks, FillOf, MergeAggregateFill, Advances;
    RowTracked(t, s, Known(s));
    var total := Absorbed(s, s.stage.previous);
    LotsOf(s.aggregate);
    ObservationMerges(s.aggregate, s.stage.previous, s.stage.previous, s.current);
    LotsOf(total);
  }

  lemma CarryKeeps(t: Terms, s: State)
    requires 0 < t.lots <= TWO53 && (s.stage.Asked? || s.stage.Settled?) && Kept(t, s)
    ensures Kept(t, Carry(s, s.stage.previous, s.current))
  {
    hide Tracks, FillOf, MergeAggregateFill, Advances, WithAggregate, CarryFillQuotes, AggregatedOrderFill;
    RowTracked(t, s, Known(s));
    AbsorbKnows(t, s);
    var s' := Carry(s, s.stage.previous, s.current);
    assert s'.rows == s.rows[s.current.client := s'.current];
    SameFill(s.current, s.current.status, s'.current.raw);
    TrackedRowTouched(s.book, s.rows, s'.current, s.current, t.lots, Known(s));
    Restated(s.book, s'.rows, s.current, s'.current, t.lots, Known(s));
    ReadableAggregate(s.current.(raw := CarryFillQuotes(s.current.raw, R.Annotated(s.current, s'.aggregate).raw)),
      s'.aggregate);
  }

  lemma ReplaceKeeps(t: Terms, s: State, order: BrokerOrder)
    requires 0 < t.lots <= TWO53 && s.stage.Settled? && Kept(t, s)
    requires Acceptable(order, NextId(s), s.aggregate.quantity - Absorbed(s, s.stage.previous).filled)
    ensures Kept(t, ReplaceOrder(s, s.stage.previous, order))
  {
    hide Tracks, FillOf, MergeAggregateFill, Advances, WithAggregate, CarryFillQuotes, AggregatedOrderFill;
    RowTracked(t, s, Known(s));
    AbsorbKnows(t, s);
    var s' := ReplaceOrder(s, s.stage.previous, order);
    var ended, next := R.Annotated(s.current, s'.aggregate), s'.current;
    var row := RowOf(order, |s.book|);
    assert s'.rows == s.rows[ended.client := ended][next.client := next];
    SameFill(s.current, s.current.status, ended.raw);
    RowFill(order, |s.book|);
    SameFill(row, row.status, next.raw);
    TrackedRowTouched(s.book, s.rows, ended, s.current, t.lots, Known(s));
    Restated(s.book, s.rows[ended.client := ended], s.current, ended, t.lots, Known(s));
    ReplacementKeeps(s.book, s.rows[ended.client := ended], ended, next, order, t.lots, Known(s));
    ReadableAggregate(row.(raw := CarryFillQuotes(row.raw, ended.raw)), s'.aggregate);
  }

  lemma RowFill(order: BrokerOrder, number: nat)
    ensures FillOf(RowOf(order, number)) == order.Done()
  {
  }

  lemma LateKeeps(t: Terms, s: State)
    requires Kept(t, s)
    ensures Kept(t, s.(late := true))
  {
    hide Tracks, FillOf;
  }

  lemma RecordKeeps(t: Terms, s: State, booked: Fill)
    requires Kept(t, s) && s.stage.Reported?
    ensures Kept(t, s.(stage := Waiting, booked := booked))
  {
    hide Tracks, FillOf;
  }

  lemma StepKeeps(t: Terms, s: State, step: Step)
    requires t.id.attempt == 1 && 0 < t.lots <= TWO53 && Kept(t, s)
    ensures Kept(t, Take(t, s, step))
  {
    hide Tracks, PlaceFirst, PollOrder, Withdrawn, LookAgain, Carry, Absorbed, ReadsBack, Ended, Before, Known,
      Acceptable, FillOf, Evolved;
    match step
    case Place(order) => if s.stage.NotPlaced? && Acceptable(order, t.id, t.lots) { PlaceKeeps(t, s, order); }
    case Move(book) => if |book| == |s.book| && Evolved(s.book, book) { MoveKeeps(t, s, book); }
    case Poll => if s.stage.Waiting? { PollKeeps(t, s); }
    case Expire =>
      if s.stage.Polled? {
        WithdrawKeeps(t, s, Reported, Expired);
        LateKeeps(t, Withdrawn(t, s, Reported, Expired));
      }
    case Cancel => if s.stage.Polled? { WithdrawKeeps(t, s, Asked(s.current), Cancelled); }
    case Look => if s.stage.Asked? { LookKeeps(t, s); }
    case TimeUp =>
      if s.stage.Asked? {
        CarryKeeps(t, s);
        LateKeeps(t, Carry(s, s.stage.previous, s.current));
      }
    case Replace(order) =>
      if s.stage.Settled? && Acceptable(order, NextId(s), s.aggregate.quantity - Absorbed(s, s.stage.previous).filled) {
        ReplaceKeeps(t, s, order);
      }
    case Abandon => if s.stage.Settled? { CarryKeeps(t, s); }
    case Record(_) =>
      if s.stage.Reported? {
        RecordKeeps(t, s, s.booked.Plus(FillOf(s.aggregate).Minus(FillOf(s.start))));
      }
    case _ =>
  }

  /** Every run, whatever the steps, leaves the chain tracked between ticks, with the aggregate that its
      latest row reads back. */
  lemma {:induction false} RunKeeps(t: Terms, sent: int, steps: seq<Step>)
    requires t.id.attempt == 1 && 0 < t.lots <= TWO53
    ensures Kept(t, After(t, Begin(t, sent), steps))
  {
    hide Take, Kept;
    if steps == [] {
      BeginKeeps(t, sent);
    } else {
      RunKeeps(t, sent, steps[..|steps| - 1]);
      StepKeeps(t, After(t, Begin(t, sent), steps[..|steps| - 1]), steps[|steps| - 1]);
    }
  }

  lemma BeginKeeps(t: Terms, sent: int)
    ensures Kept(t, Begin(t, sent))
  {
  }

  // ---------------------------------------------------------------- a tick is a tick

  /** What the tick has come to as a round. The machine notes no quotes. */
  function RoundOf(s: State): R.Round {
    if s.looks == [] then R.Poll(s.poll) else EndRound(s.poll, Looked(s.looks, None), s.next)
  }

  /** The poll concerned the row, and led to this order and the tick's aggregate. */
  ghost predicate PollTold(s: State, polled: Order) {
    && R.Concerns(R.Poll(s.poll), s.row) && polled == R.Tick(s.row, R.Poll(s.poll))
    && FillOf(polled) == Domain.Reported(s.poll.last) && s.next.None?
    && s.aggregate == MergeAggregateFill(AggregatedOrderFill(s.row), s.row, R.Observed(s.row, s.poll))
  }

  /** Every stage of a tick is that far into the round; when the engine reports, the row is what the
      round's tick makes of the row it began with. */
  ghost predicate TickTold(s: State) {
    match s.stage
    case Polled => s.looks == [] && PollTold(s, s.current)
    case Asked(previous) => LooksTold(s, previous)
    case Settled(previous) => s.looks != [] && LooksTold(s, previous)
    case Reported =>
      && R.Concerns(RoundOf(s), s.row) && s.current.client in s.rows
      && R.Alike(s.rows[s.current.client], R.Tick(s.row, RoundOf(s)))
    case _ => true
  }

  ghost predicate LooksTold(s: State, previous: Order) {
    PollTold(s, previous) && s.current == SeenAfter(previous, s.looks) && AllAbout(s.looks, s.row.broker)
  }

  lemma PollTells(t: Terms, s: State)
    requires 0 < t.lots <= TWO53 && s.stage.Waiting? && Kept(t, s)
    ensures Placed(s) && TickTold(PollOrder(s))
  {
    hide Tracks, AggregatedOrderFill, MergeAggregateFill, Advances, WithAggregate, Refreshed, RefreshedBy, FillOf;
    RowTracked(t, s, FillOf(s.aggregate));
    var row := s.rows[s.current.client];
    var s' := PollOrder(s);
    LookTracks(s.book, s.rows, row, t.lots, FillOf(s.aggregate), s'.current.raw);
    SeenFill(row, AtBroker(s));
    AnnotatedIs(SeenAs(row, AtBroker(s)), s'.aggregate);
    ReportedIs(row.broker, AtBroker(s));
    PollAbout(s'.poll);
  }

  lemma ReportedIs(id: BrokerId, at: BrokerOrder)
    ensures Domain.Reported(ReportOf(id, at)) == at.Done()
  {
  }

  lemma PollAbout(poll: R.Snapshot)
    requires poll.earlier == []
    ensures R.About(poll, poll.last.broker)
  {
  }

  lemma WithdrawTells(t: Terms, s: State, stage: Stage, status: Status)
    requires s.stage.Polled? && TickTold(s) && (stage == Reported || stage == Asked(s.current))
    ensures TickTold(Withdrawn(t, s, stage, status))
  {
    hide R.Tick, R.Concerns, MergeAggregateFill, AggregatedOrderFill, R.Observed;
    SameFill(s.current, status, s.current.raw);
  }

  lemma LookTells(s: State)
    requires s.stage.Asked? && Placed(s) && TickTold(s)
    ensures TickTold(LookAgain(s, s.stage.previous))
  {
    hide R.Concerns, MergeAggregateFill, AggregatedOrderFill, RefreshedBy, WithAggregate, FillOf, Domain.Reported;
    var report := ReportOf(s.current.broker, AtBroker(s));
    SeenMore(s.stage.previous, s.looks, report);
    SeenOnce(s.current, report);
    assert [report][..0] == [];
  }

  /** The end of a round, for the order that goes on: the cancelled one, or its replacement. */
  lemma EndTells(t: Terms, s: State, next: Option<R.Newcomer>)
    requires (s.stage.Asked? || s.stage.Settled?) && Kept(t, s) && TickTold(s) && s.looks != []
    requires next.Some? ==> next.value.ack.client == NextId(s) && 0 <= next.value.ack.report.filled
    ensures
      var order := if next.None? then s.current else next.value.Placed();
      TickTold(Carry(s, s.stage.previous, order).(next := next))
  {
    hide Tracks, MergeAggregateFill, AggregatedOrderFill, RefreshedBy, WithAggregate, CarryFillQuotes, FillOf,
      Domain.Reported, Advances, Known;
    var previous, last := s.stage.previous, Looked(s.looks, None);
    var total := Absorbed(s, previous);
    var ended := R.Annotated(s.current, total);
    LastLook(previous, s.looks, None);
    SameOrders(previous, s.looks);
    assert R.Observed(previous, last) == s.current;
    var order := if next.None? then s.current else next.value.Placed();
    var carried := R.Successor(order, ended, total);
    if next.None? {
      AdoptsItself(previous, s.looks, None, total.(raw := ended.raw));
      assert carried == ended;
    }
    R.AlikeItself(carried);
  }

  lemma SameOrders(order: Order, looks: seq<Report>)
    ensures SeenAfter(order, looks).client == order.client && SeenAfter(order, looks).broker == order.broker
  {
  }

  lemma StepTells(t: Terms, s: State, step: Step)
    requires t.id.attempt == 1 && 0 < t.lots <= TWO53 && Kept(t, s) && TickTold(s)
    ensures TickTold(Take(t, s, step))
  {
    hide Kept, TickTold, Take;
    match step
    case Poll => PollStepTells(t, s);
    case Expire => WithdrawStepTells(t, s, step);
    case Cancel => WithdrawStepTells(t, s, step);
    case Look => LookStepTells(t, s);
    case TimeUp => EndStepTells(t, s, step);
    case Abandon => EndStepTells(t, s, step);
    case Replace(order) => ReplaceStepTells(t, s, order);
    case _ => OtherStepTells(t, s, step);
  }

  lemma PollStepTells(t: Terms, s: State)
    requires 0 < t.lots <= TWO53 && Kept(t, s) && TickTold(s)
    ensures TickTold(Take(t, s, Poll))
  {
    hide Kept, TickTold, PollOrder;
    if s.stage.Waiting? {
      PollTells(t, s);
    }
  }

  lemma WithdrawStepTells(t: Terms, s: State, step: Step)
    requires (step.Expire? || step.Cancel?) && TickTold(s)
    ensures TickTold(Take(t, s, step))
  {
    hide TickTold, Withdrawn;
    if s.stage.Polled? {
      WithdrawTells(t, s, Reported, Expired);
      WithdrawTells(t, s, Asked(s.current), Cancelled);
      LaterTells(Withdrawn(t, s, Reported, Expired));
    }
  }

  lemma LaterTells(s: State)
    requires TickTold(s)
    ensures TickTold(s.(late := true))
  {
    hide R.Tick, R.Concerns, MergeAggregateFill, AggregatedOrderFill, R.Observed, FillOf, R.Alike;
  }

  lemma LookStepTells(t: Terms, s: State)
    requires TickTold(s)
    ensures TickTold(Take(t, s, Look))
  {
    hide TickTold, LookAgain;
    if s.stage.Asked? && Placed(s) {
      LookTells(s);
    }
  }

  lemma EndStepTells(t: Terms, s: State, step: Step)
    requires (step.TimeUp? || step.Abandon?) && Kept(t, s) && TickTold(s)
    ensures TickTold(Take(t, s, step))
  {
    hide Kept, TickTold, Carry, R.Tick;
    LooksFirst(s);
    if (s.stage.Asked? || s.stage.Settled?) && s.looks != [] {
      EndTells(t, s, None);
      NothingNext(s, s.stage.previous, s.current);
      LaterTells(Carry(s, s.stage.previous, s.current));
    }
  }

  lemma LooksFirst(s: State)
    requires TickTold(s)
    ensures s.stage.Settled? ==> s.looks != []
    ensures s.stage.Asked? || s.stage.Settled? ==> s.next.None?
  {
    hide R.Tick, R.Concerns, MergeAggregateFill, AggregatedOrderFill, R.Observed, FillOf, R.Alike;
  }

  lemma NothingNext(s: State, previous: Order, next: Order)
    requires s.next.None?
    ensures Carry(s, previous, next).(next := None) == Carry(s, previous, next)
  {
  }

  lemma ReplaceStepTells(t: Terms, s: State, order: BrokerOrder)
    requires Kept(t, s) && TickTold(s)
    ensures TickTold(Take(t, s, Replace(order)))
  {
    hide Kept, TickTold, Carry, R.Tick, Absorbed;
    LooksFirst(s);
    if Take(t, s, Replace(order)) != s {
      EndTells(t, s, Some(NewcomerOf(order, |s.book|)));
      BookedTells(Carry(s, s.stage.previous, RowOf(order, |s.book|)).(next := Some(NewcomerOf(order, |s.book|))),
        s.book + [order], s.sent + 1);
    }
  }

  lemma BookedTells(s: State, book: Book, sent: int)
    requires TickTold(s)
    ensures TickTold(s.(book := book, sent := sent, asks := 0))
  {
    hide R.Tick, R.Concerns, MergeAggregateFill, AggregatedOrderFill, R.Observed, FillOf, R.Alike;
  }

  lemma OtherStepTells(t: Terms, s: State, step: Step)
    requires TickTold(s)
    requires step.Place? || step.Move? || step.CancelFails? || step.WaitFails? || step.PostFails? || step.Record?
    ensures TickTold(Take(t, s, step))
  {
    hide Absorbed, Acceptable, Evolved, R.Tick, R.Concerns, MergeAggregateFill, AggregatedOrderFill, R.Observed, FillOf,
      R.Alike, R.Successor, R.Annotated;
  }

  /** In every run, the row that a tick of the machine ends with is the one that the engine's tick makes,
      from what was heard, of the row it began with. */
  lemma {:induction false} RunTells(t: Terms, sent: int, steps: seq<Step>)
    requires t.id.attempt == 1 && 0 < t.lots <= TWO53
    ensures TickTold(After(t, Begin(t, sent), steps))
    ensures
      var s := After(t, Begin(t, sent), steps);
      s.stage.Reported? ==>
        && R.Concerns(RoundOf(s), s.row) && s.current.client in s.rows
        && R.Alike(s.rows[s.current.client], R.Tick(s.row, RoundOf(s)))
  {
    hide Take, Kept, R.Tick, R.Concerns, R.Alike;
    if steps != [] {
      var before := steps[..|steps| - 1];
      RunKeeps(t, sent, before);
      RunTells(t, sent, before);
      StepTells(t, After(t, Begin(t, sent), before), steps[|steps| - 1]);
    }
  }
}
