/** One aggregate, kept two ways. The long-running monitor holds it in a variable, with the last
    observation of every order in a map; the scheduler's ticks hold nothing and find it again in the
    raw state of the order's row. Over the same observations and replacements both come to the same. */
module Refinement {
  import opened RawState
  import opened Domain
  import opened Fills

  /** What is learnt about an order: the answer that counts, every answer of the broker on the way there,
      and the quote noted if there was a fill. */
  datatype Snapshot = Snapshot(earlier: seq<Report>, last: Report, quote: Option<Json>) {
    function Reports(): seq<Report> {
      earlier + [last]
    }
  }

  /** A replacement: what was acknowledged, what else its raw state began with, and when it was drafted. */
  datatype Newcomer = Newcomer(ack: Ack, context: Raw, created: int) {
    function Placed(): Order {
      Order(ack.client, ack.report.broker, ack.limit, ack.quantity, ack.report.filled, ack.report.avg,
        ack.report.status, ack.report.commission, MergeRaw(context, ack.report.raw), created)
    }
  }

  /** A round polls the current order; it may then withdraw it at the deadline, or cancel it, look at it
      until it is over and, unless that filled the order, carry on with `next`. */
  datatype Round =
    | Poll(poll: Snapshot)
    | Expire(poll: Snapshot)
    | Withdraw(poll: Snapshot, last: Snapshot)
    | Replace(poll: Snapshot, last: Snapshot, next: Newcomer)

  predicate Ends(round: Round) {
    round.Withdraw? || round.Replace?
  }

  function PlacedOf(next: Option<Newcomer>): Option<Order> {
    if next.Some? then Some(next.value.Placed()) else None
  }

  function NextOf(round: Round): Option<Newcomer> {
    if round.Replace? then Some(round.next) else None
  }

  function Noted(raw: Raw, quote: Option<Json>): Raw {
    if quote.Some? then WithFillQuote(raw, quote.value) else raw
  }

  function Answers(reports: seq<Report>): seq<Raw> {
    seq(|reports|, i requires 0 <= i < |reports| => reports[i].raw)
  }

  function Observed(order: Order, s: Snapshot): Order {
    order.(filled := s.last.filled, avg := s.last.avg, status := s.last.status, commission := s.last.commission,
           raw := Noted(RefreshedBy(order.raw, Answers(s.Reports())), s.quote))
  }

  function Annotated(order: Order, aggregate: Order): Order {
    order.(raw := WithAggregate(order.raw, AggregateStateOf(aggregate)))
  }

  function Successor(next: Order, cancelled: Order, aggregate: Order): Order {
    Annotated(next.(raw := CarryFillQuotes(next.raw, cancelled.raw)), aggregate)
  }

  // ---------------------------------------------------------------- what a round hears

  function StateAnswers(reports: seq<Report>): seq<Event> {
    seq(|reports|, i requires 0 <= i < |reports| => StateAnswered(reports[i]))
  }

  /** Yes to the cancel, the answers of the wait, and yes to the replacement if there is one. */
  function EndAnswers(order: BrokerId, reports: seq<Report>, next: Option<Newcomer>): seq<Event> {
    [CancelAnswered(order)] + StateAnswers(reports) + if next.Some? then [PostAnswered(next.value.ack)] else []
  }

  /** Everything the broker answers in a round, in order. */
  function Heard(round: Round): seq<Event> {
    StateAnswers(round.poll.Reports()) +
    if Ends(round) then EndAnswers(round.poll.last.broker, round.last.Reports(), NextOf(round))
    else if round.Expire? then [CancelAnswered(round.poll.last.broker)]
    else []
  }

  function HeardIn(rounds: seq<Round>): seq<Event> {
    if rounds == [] then [] else HeardIn(rounds[..|rounds| - 1]) + Heard(rounds[|rounds| - 1])
  }

  predicate About(s: Snapshot, order: BrokerId) {
    forall i :: 0 <= i < |s.Reports()| ==> s.Reports()[i].broker == order
  }

  /** The round asks once about this order, goes on asking about it after the cancel, and the replacement
      is its next attempt; what is reported of an order never falls. */
  predicate Concerns(round: Round, order: Order) {
    && round.poll.earlier == [] && About(round.poll, order.broker)
    && Advances(FillOf(order), Reported(round.poll.last))
    && (Ends(round) ==>
          About(round.last, order.broker) && Advances(Reported(round.poll.last), Reported(round.last.last)))
    && (round.Replace? ==>
          && round.next.ack.client == order.client.(attempt := order.client.attempt + 1)
          && 0 <= round.next.ack.report.filled)
  }

  // ---------------------------------------------------------------- in memory

  datatype Memory = Memory(current: Order, seen: map<ClientId, Order>, aggregate: Order)

  function LastSeen(m: Memory): Order {
    if m.current.client in m.seen then m.seen[m.current.client] else m.current
  }

  function Polled(m: Memory, s: Snapshot): Memory {
    var state := Observed(m.current, s);
    var aggregate := MergeAggregateFill(m.aggregate, LastSeen(m), state);
    Memory(Annotated(state, aggregate), m.seen[state.client := state], aggregate)
  }

  /** The last look at a cancelled order, and the order that carries on, if any. */
  function Ended(m: Memory, last: Snapshot, next: Option<Order>): Memory {
    var polled := Polled(m, last);
    if next.None? then polled
    else
      var current := Successor(next.value, polled.current, polled.aggregate);
      Memory(current, polled.seen[current.client := current], polled.aggregate)
  }

  function MemoryRound(m: Memory, round: Round): Memory {
    match round
    case Poll(poll) => Polled(m, poll)
    case Expire(poll) => Polled(m, poll)
    case Withdraw(poll, last) => Ended(Polled(m, poll), last, None)
    case Replace(poll, last, next) => Ended(Polled(m, poll), last, Some(next.Placed()))
  }

  function MemoryRun(order: Order, rounds: seq<Round>): Memory {
    if rounds == [] then Memory(order, map[order.client := order], AggregatedOrderFill(order))
    else MemoryRound(MemoryRun(order, rounds[..|rounds| - 1]), rounds[|rounds| - 1])
  }

  /** Every round concerns the order the monitor then holds. */
  predicate Follows(order: Order, rounds: seq<Round>) {
    forall k :: 0 <= k < |rounds| ==> Concerns(rounds[k], MemoryRun(order, rounds[..k]).current)
  }

  lemma OneMoreRound(order: Order, rounds: seq<Round>, round: Round)
    ensures MemoryRun(order, rounds + [round]) == MemoryRound(MemoryRun(order, rounds), round)
    ensures HeardIn(rounds + [round]) == HeardIn(rounds) + Heard(round)
    ensures Follows(order, rounds) && Concerns(round, MemoryRun(order, rounds).current) ==>
      Follows(order, rounds + [round])
  {
    hide MemoryRound, Heard, Concerns;
    var longer := rounds + [round];
    assert longer[..|rounds|] == rounds;
    assert forall k :: 0 <= k < |rounds| ==> longer[..k] == rounds[..k];
  }

  // ---------------------------------------------------------------- in the store

  /** A tick starts from the row alone and leaves the row of the order that carries the chain on. */
  function Tick(row: Order, round: Round): Order {
    var state := Observed(row, round.poll);
    var aggregate := MergeAggregateFill(AggregatedOrderFill(row), row, state);
    var current := Annotated(state, aggregate);
    match round
    case Poll(_) => current
    case Expire(_) => current
    case Withdraw(_, last) =>
      var cancelled := Observed(current, last);
      Annotated(cancelled, MergeAggregateFill(aggregate, current, cancelled))
    case Replace(_, last, next) =>
      var cancelled := Observed(current, last);
      var total := MergeAggregateFill(aggregate, current, cancelled);
      Successor(next.Placed(), Annotated(cancelled, total), total)
  }

  function StoredRun(order: Order, rounds: seq<Round>): Order {
    if rounds == [] then order
    else Tick(StoredRun(order, rounds[..|rounds| - 1]), rounds[|rounds| - 1])
  }

  // ---------------------------------------------------------------- they agree

  predicate Readable(aggregate: Order) {
    0 < aggregate.quantity && Representable(aggregate.quantity) && Representable(aggregate.filled)
  }

  /** At the end of every round the aggregate's lots survive being written as JSON numbers. */
  predicate AlwaysReadable(order: Order, rounds: seq<Round>) {
    forall k :: 0 <= k <= |rounds| ==> Readable(MemoryRun(order, rounds[..k]).aggregate)
  }

  predicate Agree(m: Memory, row: Order) {
    && row == m.current
    && AggregateStateOf(AggregatedOrderFill(row)) == AggregateStateOf(m.aggregate)
    && LastSeen(m).filled == row.filled && LastSeen(m).avg == row.avg && LastSeen(m).commission == row.commission
  }

  lemma MergeDependsOn(a: Order, a': Order, previous: Order, previous': Order, current: Order)
    requires AggregateStateOf(a) == AggregateStateOf(a')
    requires previous.filled == previous'.filled && previous.avg == previous'.avg
      && previous.commission == previous'.commission
    ensures AggregateStateOf(MergeAggregateFill(a, previous, current)) ==
      AggregateStateOf(MergeAggregateFill(a', previous', current))
  {
    hide Value, Times, FillDeltaAvg;
    SameValue(a, a');
    SameDeltaAvg(previous, previous', current, current.filled - previous.filled);
  }

  lemma SameValue(a: Order, b: Order)
    requires a.filled == b.filled && a.avg == b.avg
    ensures Value(a) == Value(b)
  {
  }

  lemma SameDeltaAvg(previous: Order, previous': Order, current: Order, lots: int)
    requires previous.filled == previous'.filled && previous.avg == previous'.avg
    ensures FillDeltaAvg(previous, current, lots) == FillDeltaAvg(previous', current, lots)
  {
    hide Value;
    SameValue(previous, previous');
  }

  /** Of the last observation only the fill matters. */
  lemma MergeDependsOnFill(a: Order, a': Order, previous: Order, previous': Order, current: Order)
    requires AggregateStateOf(a) == AggregateStateOf(a') && FillOf(previous) == FillOf(previous')
    ensures AggregateStateOf(MergeAggregateFill(a, previous, current)) ==
      AggregateStateOf(MergeAggregateFill(a', previous', current))
  {
    hide Value, Times;
    SameValue(a, a');
    assert FillOf(previous).lots == previous.filled && FillOf(previous').lots == previous'.filled;
    assert Value(previous) == Value(previous');
  }

  /** What the monitor knows when it holds just an order and its aggregate. */
  function Held(order: Order, aggregate: Order): Memory {
    Memory(order, map[order.client := order], aggregate)
  }

  /** Orders that differ in status only, as a row may from the order it was told. */
  predicate Alike(a: Order, b: Order) {
    && a.client == b.client && a.broker == b.broker && a.limit == b.limit && a.quantity == b.quantity
    && a.created == b.created && FillOf(a) == FillOf(b) && a.raw == b.raw
  }

  /** A round depends only on the order, on what was last seen filled of it, and on the aggregate. */
  lemma RoundDependsOn(m: Memory, m': Memory, round: Round)
    requires Alike(m.current, m'.current) && FillOf(LastSeen(m)) == FillOf(LastSeen(m'))
    requires AggregateStateOf(m.aggregate) == AggregateStateOf(m'.aggregate)
    ensures var n, n' := MemoryRound(m, round), MemoryRound(m', round);
            && n.current == n'.current
            && AggregateStateOf(n.aggregate) == AggregateStateOf(n'.aggregate)
            && FillOf(LastSeen(n)) == FillOf(n.current)
  {
    hide MergeAggregateFill, WithAggregate, RefreshedBy, Noted, CarryFillQuotes, Alike, Polled, Observed, FillOf;
    PollDependsOn(m, m', round.poll);
    if Ends(round) {
      var p, p' := Polled(m, round.poll), Polled(m', round.poll);
      AlikeItself(p.current);
      PollDependsOn(p, p', round.last);
    }
  }

  lemma AlikeItself(order: Order)
    ensures Alike(order, order)
  {
  }

  lemma PollDependsOn(m: Memory, m': Memory, s: Snapshot)
    requires Alike(m.current, m'.current) && FillOf(LastSeen(m)) == FillOf(LastSeen(m'))
    requires AggregateStateOf(m.aggregate) == AggregateStateOf(m'.aggregate)
    ensures var n, n' := Polled(m, s), Polled(m', s);
            && n.current == n'.current && LastSeen(n) == LastSeen(n')
            && AggregateStateOf(n.aggregate) == AggregateStateOf(n'.aggregate)
            && FillOf(LastSeen(n)) == FillOf(n.current)
  {
    hide MergeAggregateFill, WithAggregate, RefreshedBy, Noted;
    var state, state' := Observed(m.current, s), Observed(m'.current, s);
    assert state' == state;
    MergeDependsOnFill(m.aggregate, m'.aggregate, LastSeen(m), LastSeen(m'), state);
  }

  /** A tick does to the row what a round in memory does to the order. */
  lemma TickIsRound(row: Order, round: Round)
    ensures Tick(row, round) == MemoryRound(Held(row, AggregatedOrderFill(row)), round).current
  {
    hide MergeAggregateFill, AggregatedOrderFill, WithAggregate, RefreshedBy, Noted, CarryFillQuotes;
    var m := Polled(Held(row, AggregatedOrderFill(row)), round.poll);
    if Ends(round) {
      SameButRaw(LastSeen(m), m.current);
      MergeDependsOnFill(m.aggregate, m.aggregate, LastSeen(m), m.current, Observed(m.current, round.last));
    }
  }

  lemma EndDependsOn(m: Memory, m': Memory, last: Snapshot, next: Option<Order>)
    requires m.current == m'.current && FillOf(LastSeen(m)) == FillOf(LastSeen(m'))
    requires AggregateStateOf(m.aggregate) == AggregateStateOf(m'.aggregate)
    ensures var n, n' := Ended(m, last, next), Ended(m', last, next);
            n.current == n'.current && AggregateStateOf(n.aggregate) == AggregateStateOf(n'.aggregate)
  {
    hide MergeAggregateFill, WithAggregate, RefreshedBy, Noted, CarryFillQuotes, FillOf;
    PollDependsOn(m, m', last);
  }

  lemma MergeIgnoresRaw(aggregate: Order, previous: Order, current: Order, raw: Raw, created: int)
    ensures MergeAggregateFill(aggregate, previous, current.(raw := raw, created := created)) ==
      MergeAggregateFill(aggregate, previous, current)
  {
    hide Value, Times;
    SameValue(current.(raw := raw, created := created), current);
  }

  lemma OneAnswer(raw: Raw, answer: Raw)
    ensures RefreshedBy(raw, []) == raw && RefreshedBy(raw, [answer]) == Refreshed(raw, answer)
  {
    hide Refreshed;
    assert [answer][..0] == [];
  }

  lemma OneMoreAnswer(raw: Raw, answers: seq<Raw>, answer: Raw)
    ensures RefreshedBy(raw, answers + [answer]) == Refreshed(RefreshedBy(raw, answers), answer)
  {
    hide Refreshed;
    assert (answers + [answer])[..|answers|] == answers;
  }

  lemma SameButRaw(a: Order, b: Order)
    requires b == a.(raw := b.raw)
    ensures FillOf(a) == FillOf(b)
  {
  }

  lemma ReadsBack(order: Order, aggregate: Order)
    requires Readable(aggregate)
    ensures AggregateStateOf(AggregatedOrderFill(Annotated(order, aggregate))) == AggregateStateOf(aggregate)
  {
    AggregateRoundTrip(order.raw, AggregateStateOf(aggregate));
  }

  lemma RoundsAgree(m: Memory, row: Order, round: Round)
    requires Agree(m, row) && Readable(MemoryRound(m, round).aggregate)
    ensures Agree(MemoryRound(m, round), Tick(row, round))
  {
    hide MergeAggregateFill, AggregatedOrderFill, WithAggregate, RefreshedBy, Noted, CarryFillQuotes, Readable;
    var state := Observed(row, round.poll);
    MergeDependsOn(m.aggregate, AggregatedOrderFill(row), LastSeen(m), row, state);
    var polled := Polled(m, round.poll);
    if !Ends(round) {
      ReadsBack(state, polled.aggregate);
    } else {
      var cancelled := Observed(polled.current, round.last);
      var inStore := MergeAggregateFill(AggregatedOrderFill(row), row, state);
      MergeDependsOn(polled.aggregate, inStore, LastSeen(polled), polled.current, cancelled);
      var total := Polled(polled, round.last).aggregate;
      if round.Withdraw? {
        ReadsBack(cancelled, total);
        return;
      }
      var next := round.next.Placed();
      ReadsBack(next.(raw := CarryFillQuotes(next.raw, Polled(polled, round.last).current.raw)), total);
    }
  }

  /** After the same rounds the stored row is the order the monitor holds in memory, and the aggregate
      read from that row is the aggregate the monitor holds in memory. */
  lemma {:induction false} StoredRunRefinesMemory(order: Order, rounds: seq<Round>)
    requires AlwaysReadable(order, rounds)
    ensures Agree(MemoryRun(order, rounds), StoredRun(order, rounds))
  {
    if rounds != [] {
      var before := rounds[..|rounds| - 1];
      assert forall k :: 0 <= k <= |before| ==> before[..k] == rounds[..k];
      assert rounds[..|rounds|] == rounds;
      StoredRunRefinesMemory(order, before);
      RoundsAgree(MemoryRun(order, before), StoredRun(order, before), rounds[|rounds| - 1]);
    }
  }

  // ---------------------------------------------------------------- what was heard decides

  /** Fills counted straight from what the broker says: `fill` in all, `last` of the order at work. */
  datatype Tally = Tally(fill: Fill, last: Fill)

  function Told(t: Tally, event: Event): Tally {
    match event
    case StateAnswered(report) => Tally(t.fill.Plus(Reported(report).Minus(t.last)), Reported(report))
    case CancelAnswered(_) => t
    case PostAnswered(ack) => Tally(t.fill, Reported(ack.report))
  }

  function Counted(t: Tally, heard: seq<Event>): Tally {
    if heard == [] then t else Told(Counted(t, heard[..|heard| - 1]), heard[|heard| - 1])
  }

  lemma {:induction false} CountedOn(t: Tally, a: seq<Event>, b: seq<Event>)
    ensures Counted(t, a + b) == Counted(Counted(t, a), b)
  {
    hide Told;
    if b == [] {
      assert a + b == a;
    } else {
      CountedOn(t, a, b[..|b| - 1]);
      assert (a + b)[..|a + b| - 1] == a + b[..|b| - 1];
    }
  }

  lemma CountedOne(t: Tally, event: Event)
    ensures Counted(t, [event]) == Told(t, event) && Counted(t, []) == t
  {
    hide Told;
    assert [event][..0] == [];
  }

  /** However often the broker is asked, the last answer is what counts. */
  lemma {:induction false} CountedAnswers(t: Tally, reports: seq<Report>)
    requires reports != []
    ensures var last := Reported(reports[|reports| - 1]);
            Counted(t, StateAnswers(reports)) == Tally(t.fill.Plus(last.Minus(t.last)), last)
  {
    hide Reported;
    var n := |reports| - 1;
    var before := reports[..n];
    assert StateAnswers(reports)[..n] == StateAnswers(before);
    if before != [] {
      CountedAnswers(t, before);
    }
  }

  /** The memory counts as the tally does, and the last observation of its order is the order. */
  predicate Counts(m: Memory, t: Tally) {
    && t == Tally(FillOf(m.aggregate), FillOf(m.current)) && FillOf(LastSeen(m)) == FillOf(m.current)
    && 0 <= m.aggregate.filled && 0 <= m.current.filled
  }

  lemma PollCounts(m: Memory, t: Tally, s: Snapshot)
    requires Counts(m, t) && Advances(FillOf(m.current), Reported(s.last))
    ensures Counts(Polled(m, s), Counted(t, StateAnswers(s.Reports())))
    ensures FillOf(Polled(m, s).current) == Reported(s.last)
  {
    hide MergeAggregateFill, WithAggregate, RefreshedBy, Noted;
    CountedAnswers(t, s.Reports());
    var state := Observed(m.current, s);
    assert FillOf(state) == Reported(s.last);
    SameButRaw(state, Polled(m, s).current);
    LotsOf(m.current);
    LotsOf(LastSeen(m));
    LotsOf(state);
    ObservationMerges(m.aggregate, LastSeen(m), m.current, state);
  }

  lemma LotsOf(order: Order)
    ensures FillOf(order).lots == order.filled
  {
  }

  lemma RoundCounts(m: Memory, t: Tally, round: Round)
    requires Counts(m, t) && Concerns(round, m.current)
    ensures Counts(MemoryRound(m, round), Counted(t, Heard(round)))
  {
    hide Polled, Counts, Observed, StateAnswers, Told, Reported, FillOf, WithAggregate, CarryFillQuotes;
    PollCounts(m, t, round.poll);
    var polls := StateAnswers(round.poll.Reports());
    var polled, u := Polled(m, round.poll), Counted(t, polls);
    var id := round.poll.last.broker;
    if round.Poll? {
      assert Heard(round) == polls;
    } else {
      CountedOn(t, polls, Heard(round)[|polls|..]);
      CountedOne(u, CancelAnswered(id));
      CancelIsNoFill(u, id);
      if round.Expire? {
        assert Heard(round) == polls + [CancelAnswered(id)];
      } else {
        EndCounts(polled, u, id, round.last, NextOf(round));
        assert Heard(round) == polls + EndAnswers(id, round.last.Reports(), NextOf(round));
      }
    }
  }

  lemma CancelIsNoFill(t: Tally, id: BrokerId)
    ensures Told(t, CancelAnswered(id)) == t
  {
  }

  lemma EndCounts(m: Memory, t: Tally, id: BrokerId, last: Snapshot, next: Option<Newcomer>)
    requires Counts(m, t) && Advances(FillOf(m.current), Reported(last.last))
    requires next.Some? ==> 0 <= next.value.ack.report.filled
    ensures Counts(Ended(m, last, PlacedOf(next)),
                   Counted(t, EndAnswers(id, last.Reports(), next)))
  {
    hide Polled, Counts, StateAnswers, Reported, FillOf;
    PollCounts(m, t, last);
    var answers := StateAnswers(last.Reports());
    CountedOne(t, CancelAnswered(id));
    CountedOn(t, [CancelAnswered(id)], answers);
    if next.Some? {
      CountedOn(t, [CancelAnswered(id)] + answers, [PostAnswered(next.value.ack)]);
      CountedOne(Counted(t, [CancelAnswered(id)] + answers), PostAnswered(next.value.ack));
      NewcomerCounts(Polled(m, last), Counted(t, [CancelAnswered(id)] + answers), next.value);
    } else {
      assert EndAnswers(id, last.Reports(), next) == [CancelAnswered(id)] + answers;
    }
  }

  lemma NewcomerCounts(m: Memory, t: Tally, next: Newcomer)
    requires Counts(m, t) && 0 <= next.ack.report.filled
    ensures var current := Successor(next.Placed(), m.current, m.aggregate);
            Counts(Memory(current, m.seen[current.client := current], m.aggregate), Told(t, PostAnswered(next.ack)))
  {
    hide WithAggregate, CarryFillQuotes;
  }

  /** Over any run the aggregate holds exactly the fills that the broker was heard to report. */
  lemma {:induction false} RunCounts(order: Order, rounds: seq<Round>)
    requires Follows(order, rounds) && 0 <= order.filled && 0 <= AggregatedOrderFill(order).filled
    ensures Counts(MemoryRun(order, rounds),
                   Counted(Tally(FillOf(AggregatedOrderFill(order)), FillOf(order)), HeardIn(rounds)))
  {
    hide MemoryRound, Heard, Counts, Concerns, FillOf, Told;
    var t := Tally(FillOf(AggregatedOrderFill(order)), FillOf(order));
    if rounds == [] {
      BeginsCounted(order);
    } else {
      var before, round := rounds[..|rounds| - 1], rounds[|rounds| - 1];
      assert forall k :: 0 <= k < |before| ==> before[..k] == rounds[..k];
      assert forall k :: 0 <= k < |before| ==> Concerns(rounds[k], MemoryRun(order, rounds[..k]).current);
      RunCounts(order, before);
      RoundCounts(MemoryRun(order, before), Counted(t, HeardIn(before)), round);
      CountedOn(t, HeardIn(before), Heard(round));
    }
  }

  lemma BeginsCounted(order: Order)
    requires 0 <= order.filled && 0 <= AggregatedOrderFill(order).filled
    ensures Counts(MemoryRun(order, []), Tally(FillOf(AggregatedOrderFill(order)), FillOf(order)))
  {
    hide AggregatedOrderFill, FillOf;
  }

  /** Two runs that hear the same come to the same fills, wherever the rounds of either begin and end. */
  lemma HeardDecides(order: Order, a: seq<Round>, b: seq<Round>)
    requires Follows(order, a) && Follows(order, b) && HeardIn(a) == HeardIn(b)
    requires 0 <= order.filled && 0 <= AggregatedOrderFill(order).filled
    ensures FillOf(MemoryRun(order, a).aggregate) == FillOf(MemoryRun(order, b).aggregate)
  {
    hide AggregatedOrderFill, MemoryRun, Counts, FillOf, Counted, HeardIn, Follows;
    RunCounts(order, a);
    RunCounts(order, b);
    var t := Counted(Tally(FillOf(AggregatedOrderFill(order)), FillOf(order)), HeardIn(b));
    CountedFill(MemoryRun(order, a), t);
    CountedFill(MemoryRun(order, b), t);
  }

  /** Ticks that start from the row each time, and one run that never lets go of the aggregate, hear the
      same and so come to the same. */
  lemma TicksComeToOneRun(order: Order, ticks: seq<Round>, run: seq<Round>)
    requires Follows(order, ticks) && Follows(order, run) && HeardIn(ticks) == HeardIn(run)
    requires AlwaysReadable(order, ticks) && 0 <= order.filled && 0 <= AggregatedOrderFill(order).filled
    ensures FillOf(AggregatedOrderFill(StoredRun(order, ticks))) == FillOf(MemoryRun(order, run).aggregate)
  {
    hide AggregatedOrderFill, MemoryRun, StoredRun, Agree, FillOf, HeardIn, Follows, AlwaysReadable;
    HeardDecides(order, ticks, run);
    StoredRunRefinesMemory(order, ticks);
    AgreeingFills(MemoryRun(order, ticks), StoredRun(order, ticks));
  }

  lemma AgreeingFills(m: Memory, row: Order)
    requires Agree(m, row)
    ensures FillOf(AggregatedOrderFill(row)) == FillOf(m.aggregate)
  {
    hide AggregatedOrderFill;
    SameValue(m.aggregate, AggregatedOrderFill(row));
  }

  lemma CountedFill(m: Memory, t: Tally)
    requires Counts(m, t)
    ensures FillOf(m.aggregate) == t.fill
  {
  }
}
