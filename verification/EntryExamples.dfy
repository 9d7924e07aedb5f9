/** Runs of one entry that end where one would not expect: six lots on an order of five, an exit that can
    no longer be afforded, fills that the position is owed or that nobody will ever learn of. */
module EntryExamples {
  import opened RawState
  import opened Domain
  import opened Fills
  import opened Ledger
  import opened Gateway
  import opened Execution
  import opened Positions
  import opened EntryRuns
  import E = ExitMonitor
  import R = Refinement

  const PRICE := 10.0

  function AtBrokers(t: Terms, k: int, quantity: int, filled: int, status: Status, ack: int): BrokerOrder {
    BrokerOrder(t.id.(attempt := k), t.price, quantity, filled, PRICE, 0.0, status, Fill(ack, PRICE * ack as real, 0.0))
  }

  /** Between ticks, attempt k is at work on what is left of the order: its acknowledgement had c lots,
      which is all it has so far, and the aggregate knows of a lots. */
  ghost predicate Live(t: Terms, s: State, k: nat, c: int, a: int) {
    && Kept(t, s) && s.stage.Waiting? && !s.late && s.asks == 0 && 1 <= k == |s.book|
    && s.current.client == t.id.(attempt := k) && s.current.broker == Id(k - 1) && s.current.filled == c
    && s.aggregate.quantity == t.lots && s.aggregate.filled == a
    && s.current.client in s.rows && IsActive(s.rows[s.current.client].status)
    && s.book[k - 1] == AtBrokers(t, k, t.lots - a, c, Sent, c)
  }

  predicate Good(t: Terms) {
    t.id.attempt == 1 && 0 < t.lots <= TWO53
  }

  lemma FirstIsLive(t: Terms, sent: int)
    requires Good(t) && t.Leaves(sent, t.EntryNeeds())
    ensures var s := Take(t, Begin(t, sent), Place(AtBrokers(t, 1, t.lots, 0, Sent, 0)));
            s.sent == sent + 1 && s.booked == ZERO && s.book == [AtBrokers(t, 1, t.lots, 0, Sent, 0)]
              && Live(t, s, 1, 0, 0)
  {
    hide Tracks, OrderBudgetNeeded;
    BeginKeeps(t, sent);
    StepKeeps(t, Begin(t, sent), Place(AtBrokers(t, 1, t.lots, 0, Sent, 0)));
  }

  // ---------------------------------------------------------------- one tick that replaces the order

  predicate Replaceable(t: Terms, s: State, k: nat, c: int, a: int, f: int, ack: int) {
    && c <= f <= t.lots - a && f - c < t.lots - a && 0 <= ack <= t.lots - a - (f - c) && 0 <= a
    && k < t.entryAttempts && t.Leaves(s.sent, 1 + t.CancelCost())
    && t.Leaves(s.sent + t.CancelCost(), 1 + t.ExitNeeds())
  }

  /** The order as the broker ends it, with f lots. */
  function EndedBook(t: Terms, book: Book, k: nat, c: int, a: int, f: int): Book
    requires 1 <= k == |book|
  {
    book[k - 1 := AtBrokers(t, k, t.lots - a, f, Cancelled, c)]
  }

  /** Poll, cancel, the broker ends the order with f lots, one more look, and a replacement for what is
      then missing that had `ack` lots when it was acknowledged. */
  function ReplaceTick(t: Terms, book: Book, k: nat, c: int, a: int, f: int, ack: int): seq<Step>
    requires 1 <= k == |book|
  {
    [Poll, Cancel, Move(EndedBook(t, book, k, c, a, f)), Look,
     Replace(AtBrokers(t, k + 1, t.lots - a - (f - c), ack, Sent, ack)), Record(true)]
  }

  lemma PollSees(t: Terms, s: State, k: nat, c: int, a: int)
    requires Good(t) && Live(t, s, k, c, a) && 0 <= c && a < t.lots
    ensures var s' := Take(t, s, Poll);
            && Kept(t, s') && s'.stage.Polled? && s'.sent == s.sent && s'.book == s.book && s'.asks == 0 && !s'.late
            && s'.current.client == s.current.client && s'.current.broker == s.current.broker && s'.current.filled == c
            && s'.aggregate.quantity == t.lots && s'.aggregate.filled == a && s'.booked == s.booked
  {
    hide Tracks, ReadAggregate, R.Noted, RefreshedBy, WithAggregate, Value, Times, FillDeltaAvg, Evolved;
    StepKeeps(t, s, Poll);
    KeptRow(t, s);
  }

  lemma KeptRow(t: Terms, s: State)
    requires Kept(t, s) && s.stage.Waiting?
    ensures Placed(s) && s.rows[s.current.client].client == s.current.client
      && s.rows[s.current.client].broker == s.current.broker
    ensures s.rows[s.current.client].filled == s.current.filled
    ensures AggregatedOrderFill(s.rows[s.current.client]).filled == s.aggregate.filled
    ensures AggregatedOrderFill(s.rows[s.current.client]).quantity == s.aggregate.quantity
  {
    hide Tracks, ReadAggregate;
    RowTracked(t, s, FillOf(s.aggregate));
    LotsOf(s.current);
    LotsOf(s.rows[s.current.client]);
  }

  /** The broker's part: the order ends with f lots. */
  lemma EndIsAllowed(t: Terms, s: State, k: nat, c: int, a: int, f: int)
    requires Kept(t, s) && (s.stage.Asked? || s.stage.Waiting?) && 1 <= k == |s.book|
      && s.book[k - 1] == AtBrokers(t, k, t.lots - a, c, Sent, c)
    requires 0 <= c <= f <= t.lots - a
    ensures Evolved(s.book, EndedBook(t, s.book, k, c, a, f))
  {
    hide FillOf, AggregatedOrderFill;
    TrackedWithinOrder(s.book, s.rows, s.current, t.lots, Known(s));
    EvolvedReflexive(s.book);
  }

  lemma ReplaceGoesOn(t: Terms, s: State, k: nat, c: int, a: int, f: int, ack: int)
    requires Good(t) && Live(t, s, k, c, a) && 0 <= c && Replaceable(t, s, k, c, a, f, ack)
    ensures var s' := After(t, s, ReplaceTick(t, s.book, k, c, a, f, ack));
            && Live(t, s', k + 1, ack, a + f - c) && s'.sent == s.sent + 1 + t.CancelCost()
            && s'.book == EndedBook(t, s.book, k, c, a, f) + [AtBrokers(t, k + 1, t.lots - a - (f - c), ack, Sent, ack)]
  {
    hide Take, Live, Kept, Evolved;
    LiveIs(t, s, k, c, a);
    var steps := ReplaceTick(t, s.book, k, c, a, f, ack);
    var s1 := Take(t, s, Poll);
    PollSees(t, s, k, c, a);
    var s2 := Take(t, s1, Cancel);
    var s3 := Take(t, s2, steps[2]);
    var s4 := Take(t, s3, Look);
    CancelLooks(t, s1, k, c, a, f);
    var s5 := Take(t, s4, steps[4]);
    var s6 := Take(t, s5, Record(true));
    ReplaceCarries(t, s4, k, c, a, f, ack);
    SixSteps(t, s, steps);
  }

  lemma LiveIs(t: Terms, s: State, k: nat, c: int, a: int)
    requires Live(t, s, k, c, a)
    ensures Kept(t, s) && 1 <= k == |s.book| && s.book[k - 1] == AtBrokers(t, k, t.lots - a, c, Sent, c)
    ensures s.current.client == t.id.(attempt := k) && s.current.broker == Id(k - 1)
  {
  }

  lemma SixSteps(t: Terms, s: State, steps: seq<Step>)
    requires |steps| == 6
    ensures After(t, s, steps)
            == Take(t, Take(t, Take(t, Take(t, Take(t, Take(t, s,
                 steps[0]), steps[1]), steps[2]), steps[3]), steps[4]), steps[5])
  {
    hide Take, After;
    StepAfter(t, s, [], steps[0]);
    NoSteps(t, s);
    StepAfter(t, s, [] + [steps[0]], steps[1]);
    StepAfter(t, s, [] + [steps[0]] + [steps[1]], steps[2]);
    StepAfter(t, s, [] + [steps[0]] + [steps[1]] + [steps[2]], steps[3]);
    StepAfter(t, s, [] + [steps[0]] + [steps[1]] + [steps[2]] + [steps[3]], steps[4]);
    StepAfter(t, s, [] + [steps[0]] + [steps[1]] + [steps[2]] + [steps[3]] + [steps[4]], steps[5]);
    assert steps == [] + [steps[0]] + [steps[1]] + [steps[2]] + [steps[3]] + [steps[4]] + [steps[5]];
  }

  /** Polled with c lots, the order is cancelled and ends with f. */
  ghost predicate CancelSeen(t: Terms, s: State, k: nat, c: int, a: int, f: int) {
    && Kept(t, s) && s.stage.Settled? && s.stage.previous.filled == c && !s.late && 1 <= k == |s.book|
    && s.current.client == t.id.(attempt := k) && s.current.broker == Id(k - 1) && s.current.filled == f
    && s.aggregate.quantity == t.lots && s.aggregate.filled == a
  }

  lemma CancelLooks(t: Terms, s: State, k: nat, c: int, a: int, f: int)
    requires Good(t) && Kept(t, s) && s.stage.Polled? && !s.late && 1 <= k == |s.book| && k < t.entryAttempts
    requires s.current.client == t.id.(attempt := k) && s.current.broker == Id(k - 1) && s.current.filled == c
    requires s.book[k - 1] == AtBrokers(t, k, t.lots - a, c, Sent, c) && 0 <= c <= f <= t.lots - a
    requires s.aggregate.quantity == t.lots && s.aggregate.filled == a && t.Leaves(s.sent, 1 + t.CancelCost())
    ensures var s' := Take(t, Take(t, Take(t, s, Cancel), Move(EndedBook(t, s.book, k, c, a, f))), Look);
            && CancelSeen(t, s', k, c, a, f) && s'.sent == s.sent + t.CancelCost()
            && s'.book == EndedBook(t, s.book, k, c, a, f)
  {
    hide Tracks, R.Noted, RefreshedBy, Evolved, FillOf, AggregatedOrderFill, MergeAggregateFill;
    var s2 := Take(t, s, Cancel);
    StepKeeps(t, s, Cancel);
    EndIsAllowed(t, s2, k, c, a, f);
    var s3 := Take(t, s2, Move(EndedBook(t, s.book, k, c, a, f)));
    StepKeeps(t, s2, Move(EndedBook(t, s.book, k, c, a, f)));
    StepKeeps(t, s3, Look);
    LookKeeps(t, s3);
  }

  lemma ReplaceCarries(t: Terms, s: State, k: nat, c: int, a: int, f: int, ack: int)
    requires Good(t) && CancelSeen(t, s, k, c, a, f) && 0 <= c <= f && f - c < t.lots - a
      && 0 <= ack <= t.lots - a - (f - c) && 0 <= a
    requires t.Leaves(s.sent, 1 + t.ExitNeeds())
    ensures var order := AtBrokers(t, k + 1, t.lots - a - (f - c), ack, Sent, ack);
            var s' := Take(t, Take(t, s, Replace(order)), Record(true));
            && Live(t, s', k + 1, ack, a + f - c) && s'.sent == s.sent + 1 && s'.book == s.book + [order]
  {
    hide Tracks, WithAggregate, CarryFillQuotes, AggregatedOrderFill, Value, Times, FillDeltaAvg, Evolved, FillOf;
    var order := AtBrokers(t, k + 1, t.lots - a - (f - c), ack, Sent, ack);
    var s5 := Take(t, s, Replace(order));
    StepKeeps(t, s, Replace(order));
    StepKeeps(t, s5, Record(true));
  }

  // ---------------------------------------------------------------- five ordered, six executed

  /** Five lots, three attempts, no limit on the day's orders. */
  const FIVE := Terms(ClientId(0, "share", Buy, 1), 5, PRICE, -1, 3, 1, false)

  const SIX: Ledger.Book :=
    [AtBrokers(FIVE, 1, 5, 2, Cancelled, 0), AtBrokers(FIVE, 2, 3, 1, Cancelled, 1),
     AtBrokers(FIVE, 3, 3, 3, Filled, 0)]

  /** Two of five lots are filled before the first cancel. The replacement for three is acknowledged with
      one lot executed and cancelled before another fill: the aggregate still says two, so the next
      replacement is again for three, and the broker fills it. The chain is tracked to the end. */
  lemma SixOfFive() returns (steps: seq<Step>)
    ensures var s := After(FIVE, Begin(FIVE, 0), steps);
            && s.stage.Waiting? && Kept(FIVE, s) && s.aggregate.quantity == 5 && s.aggregate.filled == 2
            && Total(s.book, s.rows, ChainOf(FIVE.id), Executed).lots == 6
  {
    hide Take, Live, Kept, Evolved, Total;
    var begin := Begin(FIVE, 0);
    var first := Place(AtBrokers(FIVE, 1, 5, 0, Sent, 0));
    FirstIsLive(FIVE, 0);
    StepAfter(FIVE, begin, [], first);
    NoSteps(FIVE, begin);
    var s1 := Take(FIVE, begin, first);
    ReplaceGoesOn(FIVE, s1, 1, 0, 0, 2, 1);
    var two := ReplaceTick(FIVE, s1.book, 1, 0, 0, 2, 1);
    var s2 := After(FIVE, s1, two);
    ReplaceGoesOn(FIVE, s2, 2, 1, 2, 1, 0);
    var three := ReplaceTick(FIVE, s2.book, 2, 1, 2, 1, 0);
    var s3 := After(FIVE, s2, three);
    AfterBoth(FIVE, begin, [first], two);
    AfterBoth(FIVE, begin, [first] + two, three);
    LiveIs(FIVE, s3, 3, 0, 2);
    assert s3.book[..2] == SIX[..2];
    LastFills(s3);
    steps := [first] + two + three + [Move(SIX)];
    StepAfter(FIVE, begin, [first] + two + three, Move(SIX));
    assert [] + [first] == [first];
    SixExecuted(s3.(book := SIX));
  }

  lemma LastFills(s: State)
    requires Live(FIVE, s, 3, 0, 2) && s.book[..2] == SIX[..2]
    ensures var s' := Take(FIVE, s, Move(SIX));
            s' == s.(book := SIX) && Kept(FIVE, s') && s'.stage.Waiting? && s'.aggregate.quantity == 5
              && s'.aggregate.filled == 2
  {
    hide Tracks, FillOf, AggregatedOrderFill;
    RowTracked(FIVE, s, FillOf(s.aggregate));
    TrackedWithinOrder(s.book, s.rows, s.current, 5, FillOf(s.aggregate));
    EvolvedReflexive(s.book);
    assert s.book == s.book[..2] + [s.book[2]] && SIX == SIX[..2] + [SIX[2]];
    assert Evolved(s.book, SIX);
    StepKeeps(FIVE, s, Move(SIX));
  }

  lemma SixExecuted(s: State)
    requires s.book == SIX
    ensures Total(s.book, s.rows, ChainOf(FIVE.id), Executed).lots == 6
  {
    hide Fill.Plus;
    ThreeTerms(s.book, s.rows, ChainOf(FIVE.id), Executed);
    PlusLots(Term(SIX, s.rows, ChainOf(FIVE.id), 0, NONE, Executed),
             Term(SIX, s.rows, ChainOf(FIVE.id), 1, NONE, Executed),
             Term(SIX, s.rows, ChainOf(FIVE.id), 2, NONE, Executed));
  }

  lemma PlusLots(a: Fill, b: Fill, c: Fill)
    ensures a.Plus(b).Plus(c).lots == a.lots + b.lots + c.lots
  {
  }

  lemma ThreeTerms(book: Ledger.Book, rows: Rows, chain: Chain, column: Column)
    requires |book| == 3
    ensures Total(book, rows, chain, column)
            == Term(book, rows, chain, 0, NONE, column).Plus(Term(book, rows, chain, 1, NONE, column))
               .Plus(Term(book, rows, chain, 2, NONE, column))
  {
    hide Term, Fill.Plus;
    NothingPlus(Term(book, rows, chain, 0, NONE, column));
    assert Sum(book, rows, chain, 0, NONE, column) == ZERO;
    assert Sum(book, rows, chain, 1, NONE, column) == Term(book, rows, chain, 0, NONE, column);
    assert Sum(book, rows, chain, 2, NONE, column) ==
      Sum(book, rows, chain, 1, NONE, column).Plus(Term(book, rows, chain, 1, NONE, column));
  }

  lemma NothingPlus(fill: Fill)
    ensures ZERO.Plus(fill) == fill
  {
  }

  // ---------------------------------------------------------------- the exit's allowance

  /** The first k attempts of an entry that never fills: k posts, and a cancel before each but the first. */
  lemma {:induction false} Attempts(t: Terms, sent: int, k: nat) returns (steps: seq<Step>)
    requires Good(t) && t.Leaves(sent, t.EntryNeeds()) && 1 <= k <= Most(t)
    ensures var s := After(t, Begin(t, sent), steps);
            Live(t, s, k, 0, 0) && s.sent == sent + k + t.CancelCost() * (k - 1)
  {
    hide Take, Live, Kept;
    if k == 1 {
      var first := Place(AtBrokers(t, 1, t.lots, 0, Sent, 0));
      FirstIsLive(t, sent);
      StepAfter(t, Begin(t, sent), [], first);
      NoSteps(t, Begin(t, sent));
      steps := [] + [first];
    } else {
      var before := Attempts(t, sent, k - 1);
      var s := After(t, Begin(t, sent), before);
      LiveIs(t, s, k - 1, 0, 0);
      ReplaceGoesOn(t, s, k - 1, 0, 0, 0, 0);
      AfterBoth(t, Begin(t, sent), before, ReplaceTick(t, s.book, k - 1, 0, 0, 0, 0));
      steps := before + ReplaceTick(t, s.book, k - 1, 0, 0, 0, 0);
    }
  }

  /** And then the deadline: the last attempt is cancelled as well. */
  lemma AttemptsAndDeadline(t: Terms, sent: int) returns (steps: seq<Step>)
    requires Good(t) && t.Leaves(sent, t.EntryNeeds())
    ensures var s := After(t, Begin(t, sent), steps);
            s.stage.Reported? && s.sent == sent + Most(t) + t.CancelCost() * Most(t)
  {
    hide Take, Live, Kept;
    var before := Attempts(t, sent, Most(t));
    var s := After(t, Begin(t, sent), before);
    PollSees(t, s, Most(t), 0, 0);
    StepAfter(t, Begin(t, sent), before, Poll);
    StepAfter(t, Begin(t, sent), before + [Poll], Expire);
    steps := before + [Poll] + [Expire];
    ExpireCosts(t, Take(t, s, Poll));
  }

  lemma ExpireCosts(t: Terms, s: State)
    requires s.stage.Polled?
    ensures Take(t, s, Expire).stage.Reported? && Take(t, s, Expire).sent == s.sent + t.CancelCost()
  {
  }

  /** Every run of an entry whose check passed leaves the exit its orders if and only if cancels are not
      counted or there was one order more than the check asks for: the cancel at the deadline is not part
      of what was checked. */
  lemma ExitAllowanceIff(t: Terms, sent: int)
    requires Good(t) && t.freeOrders > 0 && t.Leaves(sent, t.EntryNeeds())
    ensures (forall steps :: t.Leaves(After(t, Begin(t, sent), steps).sent, t.ExitNeeds()))
            <==> !t.cancelCounts || t.Leaves(sent, t.EntryNeeds() + 1)
  {
    hide After, Begin;
    if !t.cancelCounts || t.Leaves(sent, t.EntryNeeds() + 1) {
      forall steps ensures t.Leaves(After(t, Begin(t, sent), steps).sent, t.ExitNeeds()) {
        RunCosts(t, sent, steps);
      }
    } else {
      var steps := AttemptsAndDeadline(t, sent);
      assert !t.Leaves(After(t, Begin(t, sent), steps).sent, t.ExitNeeds());
    }
  }

  // ---------------------------------------------------------------- fills that go astray

  /** The order filled by n lots, still at work. */
  function PartlyFilled(t: Terms, n: int): Ledger.Book {
    [AtBrokers(t, 1, t.lots, n, PartiallyFilled, 0)]
  }

  lemma FillIsAllowed(t: Terms, n: int)
    requires 0 < n <= t.lots
    ensures Evolved([AtBrokers(t, 1, t.lots, 0, Sent, 0)], PartlyFilled(t, n))
  {
  }

  /** A tick sees a fill and stores it, and then its cancel fails: the position is not told, and is owed
      the fill from then on. */
  lemma OwedRun(t: Terms, sent: int) returns (steps: seq<Step>)
    requires Good(t) && 1 < t.lots && t.Leaves(sent, t.EntryNeeds())
    ensures var s := After(t, Begin(t, sent), steps);
            s.stage == Broken(BrokerFailed) && s.aggregate.filled == 1 && s.booked == ZERO
  {
    hide Take, Live, Kept, Evolved;
    var begin, first := Begin(t, sent), Place(AtBrokers(t, 1, t.lots, 0, Sent, 0));
    FirstIsLive(t, sent);
    FillIsAllowed(t, 1);
    steps := [] + [first] + [Move(PartlyFilled(t, 1))] + [Poll] + [CancelFails];
    StepAfter(t, begin, [], first);
    NoSteps(t, begin);
    StepAfter(t, begin, [] + [first], Move(PartlyFilled(t, 1)));
    StepAfter(t, begin, [] + [first] + [Move(PartlyFilled(t, 1))], Poll);
    StepAfter(t, begin, [] + [first] + [Move(PartlyFilled(t, 1))] + [Poll], CancelFails);
    FillIsStored(t, Take(t, begin, first));
  }

  lemma FillIsStored(t: Terms, s: State)
    requires Good(t) && 1 < t.lots && Live(t, s, 1, 0, 0) && s.booked == ZERO && Evolved(s.book, PartlyFilled(t, 1))
    ensures var s' := Take(t, Take(t, Take(t, s, Move(PartlyFilled(t, 1))), Poll), CancelFails);
            s'.stage == Broken(BrokerFailed) && s'.aggregate.filled == 1 && s'.booked == ZERO
  {
    hide Tracks, ReadAggregate, R.Noted, RefreshedBy, WithAggregate, Value, Times, FillDeltaAvg, Evolved;
    StepKeeps(t, s, Move(PartlyFilled(t, 1)));
    KeptRow(t, Take(t, s, Move(PartlyFilled(t, 1))));
  }

  /** A cancelled order gains a lot, which the wait writes into its row; then the wait fails. The aggregate
      is no longer the sum of the fills that the rows show. */
  lemma LostRun(t: Terms, sent: int) returns (steps: seq<Step>)
    requires Good(t) && 1 < t.entryAttempts && t.Leaves(sent, t.EntryNeeds())
    ensures var s := After(t, Begin(t, sent), steps);
            && s.stage == Broken(WaitFailed) && s.aggregate.filled == 0
            && s.current.client in s.rows && s.rows[s.current.client].filled == 1
            && !Conserved(s.book, s.rows, ChainOf(t.id), FillOf(s.aggregate))
  {
    hide Take, Live, Kept, Evolved, Conserved;
    var begin, first := Begin(t, sent), Place(AtBrokers(t, 1, t.lots, 0, Sent, 0));
    FirstIsLive(t, sent);
    FillIsAllowed(t, 1);
    var s1 := Take(t, begin, first);
    PollSees(t, s1, 1, 0, 0);
    LiveIs(t, s1, 1, 0, 0);
    var before := [] + [first] + [Poll] + [Cancel] + [Move(PartlyFilled(t, 1))] + [Look];
    steps := before + [WaitFails];
    StepAfter(t, begin, [], first);
    NoSteps(t, begin);
    StepAfter(t, begin, [] + [first], Poll);
    StepAfter(t, begin, [] + [first] + [Poll], Cancel);
    StepAfter(t, begin, [] + [first] + [Poll] + [Cancel], Move(PartlyFilled(t, 1)));
    StepAfter(t, begin, [] + [first] + [Poll] + [Cancel] + [Move(PartlyFilled(t, 1))], Look);
    StepAfter(t, begin, before, WaitFails);
    FillIsLost(t, Take(t, s1, Poll));
  }

  lemma FillIsLost(t: Terms, s: State)
    requires Good(t) && Kept(t, s) && s.stage.Polled? && !s.late && 1 < t.entryAttempts
    requires s.current.client == t.id && s.current.broker == Id(0) && s.current.filled == 0 && s.aggregate.filled == 0
    requires s.book == [AtBrokers(t, 1, t.lots, 0, Sent, 0)] && Evolved(s.book, PartlyFilled(t, 1))
    requires t.Leaves(s.sent, 1 + t.CancelCost())
    ensures var s' := Take(t, Take(t, Take(t, Take(t, s, Cancel), Move(PartlyFilled(t, 1))), Look), WaitFails);
            && s'.stage == Broken(WaitFailed) && s'.aggregate.filled == 0
            && s'.current.client in s'.rows && s'.rows[s'.current.client].filled == 1
            && !Conserved(s'.book, s'.rows, ChainOf(t.id), FillOf(s'.aggregate))
  {
    hide Tracks, R.Noted, RefreshedBy, Evolved, AggregatedOrderFill, MergeAggregateFill, Value, Total;
    var s2 := Take(t, s, Cancel);
    var s3 := Take(t, s2, Move(PartlyFilled(t, 1)));
    StepKeeps(t, s, Cancel);
    StepKeeps(t, s2, Move(PartlyFilled(t, 1)));
    LookKeeps(t, s3);
    var s4 := Take(t, s3, Look);
    TrackedWithinOrder(s4.book, s4.rows, s4.current, t.lots, Known(s4));
  }

  /** An acknowledgement may charge for an order without filling any of it; the position never hears of
      that commission. */
  lemma UnbookedRun(t: Terms, sent: int, commission: real) returns (steps: seq<Step>)
    requires Good(t) && t.Leaves(sent, t.EntryNeeds()) && commission > 0.0
    ensures var s := After(t, Begin(t, sent), steps);
            s.stage.Waiting? && FillOf(s.aggregate).commission == commission && s.booked == ZERO
  {
    hide OrderBudgetNeeded;
    var order := AtBrokers(t, 1, t.lots, 0, Sent, 0).(commission := commission,
      ack := Fill(0, PRICE * 0 as real, commission));
    steps := [] + [Place(order)];
    StepAfter(t, Begin(t, sent), [], Place(order));
    NoSteps(t, Begin(t, sent));
  }

  // ---------------------------------------------------------------- lots sold twice

  /** Every row is of the chain. */
  ghost predicate OneChain(t: Terms, s: State) {
    && ChainOf(s.current.client) == ChainOf(t.id)
    && forall c :: c in s.rows ==> ChainOf(c) == ChainOf(t.id) && s.rows[c].client == c
  }

  lemma StepInChain(t: Terms, s: State, step: Step)
    requires OneChain(t, s)
    ensures OneChain(t, Take(t, s, step))
  {
    hide R.Noted, RefreshedBy, WithAggregate, CarryFillQuotes, FillDeltaAvg, Value, Times, ReadAggregate, Evolved,
      OrderBudgetNeeded, EntryFillOf, FillOf;
  }

  lemma {:induction false} RunInChain(t: Terms, sent: int, steps: seq<Step>)
    ensures OneChain(t, After(t, Begin(t, sent), steps))
  {
    hide Take;
    if steps != [] {
      RunInChain(t, sent, steps[..|steps| - 1]);
      StepInChain(t, After(t, Begin(t, sent), steps[..|steps| - 1]), steps[|steps| - 1]);
    }
  }

  /** The first order has one lot when it is replaced; the broker ends the replacement without any. No order
      is out then, so the exit is placed again on the same day: the first order's row comes back, and its
      lot is sold a second time. */
  lemma SoldTwiceRun(t: Terms, sent: int) returns (steps: seq<Step>)
    requires Good(t) && t.id.side.Sell? && 1 < t.lots && 1 < t.entryAttempts && t.Leaves(sent, t.EntryNeeds())
    ensures
      var s := After(t, Begin(t, sent), steps);
      && s.stage.Waiting? && s.aggregate.filled == 1 && t.id in s.rows && s.rows[t.id].filled == 1
      && (forall c :: c in s.rows ==> !E.OutFor(c, s.rows[c], t.id))
      && forall position, again, origin, sales ::
           E.SoldOff(position, origin, sales, s.aggregate) && E.BookedAgain(position, again, s.rows[t.id]) ==>
             origin.lots - again.lots == 2
  {
    hide Take, Live, Kept, Evolved, E.SoldOff, E.BookedAgain;
    var begin, first := Begin(t, sent), Place(AtBrokers(t, 1, t.lots, 0, Sent, 0));
    FirstIsLive(t, sent);
    StepAfter(t, begin, [], first);
    NoSteps(t, begin);
    var s1 := Take(t, begin, first);
    ReplaceGoesOn(t, s1, 1, 0, 0, 1, 0);
    var tick := ReplaceTick(t, s1.book, 1, 0, 0, 1, 0);
    var s2 := After(t, s1, tick);
    AfterBoth(t, begin, [] + [first], tick);
    LiveIs(t, s2, 2, 0, 1);
    var before, over := [] + [first] + tick, Move(EndedBook(t, s2.book, 2, 0, 1, 0));
    steps := before + [over] + [Poll] + [Record(true)];
    StepAfter(t, begin, before, over);
    StepAfter(t, begin, before + [over], Poll);
    StepAfter(t, begin, before + [over] + [Poll], Record(true));
    EndsWithoutLots(t, s2);
    RunInChain(t, sent, steps);
    var s := After(t, begin, steps);
    NothingOut(t, s);
    forall position, again, origin, sales
      | E.SoldOff(position, origin, sales, s.aggregate) && E.BookedAgain(position, again, s.rows[t.id])
      ensures origin.lots - again.lots == 2
    {
      E.SoldTwice(position, again, origin, sales, s.aggregate, s.rows[t.id]);
    }
  }

  lemma EndsWithoutLots(t: Terms, s: State)
    requires Good(t) && Live(t, s, 2, 0, 1) && 1 < t.lots && s.book[0] == AtBrokers(t, 1, t.lots, 1, Cancelled, 0)
    ensures
      var s' := Take(t, Take(t, Take(t, s, Move(EndedBook(t, s.book, 2, 0, 1, 0))), Poll), Record(true));
      && Kept(t, s') && s'.stage.Waiting? && s'.aggregate.filled == 1 && s'.current.client == t.id.(attempt := 2)
      && s'.current.client in s'.rows && IsTerminal(s'.rows[s'.current.client].status)
      && t.id in s'.rows && s'.rows[t.id].filled == 1
  {
    hide Tracks, R.Noted, RefreshedBy, Evolved, FillOf, AggregatedOrderFill, MergeAggregateFill, WithAggregate;
    EndIsAllowed(t, s, 2, 0, 1, 0);
    var s1 := Take(t, s, Move(EndedBook(t, s.book, 2, 0, 1, 0)));
    StepKeeps(t, s, Move(EndedBook(t, s.book, 2, 0, 1, 0)));
    KeptRow(t, s1);
    var s2 := Take(t, s1, Poll);
    StepKeeps(t, s1, Poll);
    StepKeeps(t, s2, Record(true));
    MergesNothing(AggregatedOrderFill(s1.rows[s1.current.client]), s1.rows[s1.current.client], AtBroker(s1));
    FirstRow(t, s);
  }

  lemma MergesNothing(aggregate: Order, row: Order, at: BrokerOrder)
    requires row.filled == at.filled
    ensures MergeAggregateFill(aggregate, row, SeenAs(row, at)).filled == aggregate.filled
    ensures MergeAggregateFill(aggregate, row, SeenAs(row, at)).quantity == aggregate.quantity
  {
    hide R.Noted, RefreshedBy, Value, Times, FillDeltaAvg;
  }

  /** The row of a replaced order shows what it ended with. */
  lemma FirstRow(t: Terms, s: State)
    requires Live(t, s, 2, 0, 1) && s.book[0] == AtBrokers(t, 1, t.lots, 1, Cancelled, 0) && t.id.attempt == 1
    ensures t.id in s.rows && s.rows[t.id].filled == 1
  {
    hide FillOf, AggregatedOrderFill;
    assert s.book[0].client == t.id;
  }

  lemma NothingOut(t: Terms, s: State)
    requires Kept(t, s) && OneChain(t, s) && s.stage.Waiting? && s.current.client in s.rows
    requires IsTerminal(s.rows[s.current.client].status)
    ensures forall c :: c in s.rows ==> !E.OutFor(c, s.rows[c], t.id)
  {
    hide FillOf, AggregatedOrderFill;
    assert Latest(s.rows, s.current.client);
  }
}
