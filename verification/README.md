# An overnight trading bot: its order execution, books and daily cycle

The bot buys in the evening, holds overnight and sells in the morning. It talks to a broker that
fills orders whenever it likes, keeps its state in a database, and can be stopped at any moment.
This project models the parts where that can go wrong and proves what they keep.

## What is modelled

* **Execution** (`Domain`, `Fills`, `Ledger`, `Gateway`, `Execution`, `Ticks`). An order of Q lots is
  posted, polled, cancelled, waited on until it is over and posted again for what is left. The broker
  is a class that may move any order within its contract between any two calls, refuse a post, or
  accept it and lose the answer; the store may fail on every write. `Tracks` is the invariant of a
  chain of such orders, `Concluded` and `Stands` are what every return of the monitor leaves behind,
  with or without an error. A deadline is optional, as in the source; without one a wait ends because
  its context does (`Clock.patience`).
* **Runs of an entry** (`EntryRuns`, `EntryExamples`). The same chain as a machine of small steps, in
  which what the broker, the store and the clock decide is part of the step: an invariant and a cost
  bound over every run, ticks that make of the row what the engine's tick makes of it (`RunTells`), and
  concrete runs that end where one would not expect.
* **What can be executed twice** (`OverExecution`). Lots that a replacement had already executed when
  it was acknowledged never reach the aggregate (`real.go` fills them in at
  `internal/tinvest/real.go:684-705`). The exact bound, and that none is exceeded where no
  acknowledgement carries lots, as with the paper broker.
* **The aggregate in the store** (`RawState`, `Refinement`, `Rounding`). The aggregate is written into
  the order row's JSON and read back from it at the next tick; the run over the store is shown to
  equal the run in memory. The engine's methods return the rounds they took, and those are exactly what
  the broker was heard to answer (`Broker.heard`), so ticks and one long run that hear the same end with
  the same fills. The drift of the decimal division is bounded.
* **Positions** (`Positions`, `Deltas`, `EntryMonitor`, `ExitMonitor`). Cumulative reports become
  deltas, deltas become positions. An entry's position is its chain's aggregate; an exit leaves the
  position as if everything had been sold at once.
* **Posting once** (`Posting`). The same `placeLimit` as a machine of small steps with concurrent
  callers, volatile locks, durable rows and crashes anywhere.
* **Daily cycle and halt** (`Schedule`, `SystemStateRow`, `Scheduler`). A step, the round of the loop
  that halts the system on any error of the step, and runs over any number of days.
* **Sizing and allocation** (`Sizing`, `Allocation`, `Money`, `Pricing`), **paper broker** (`Paper`),
  **reconciliation** (`Reconciliation`).
* **Backtest** (`Backtest`, `Evaluation`, `BacktestRun`, `Lookahead`). The ledger's bounds and
  conservation, and the run as a whole: it looks at nothing that comes after a day to trade on it, and
  does not depend on the order a map is visited in.

Classes whose methods change state in the source are classes here, and their methods are proved
against the functions and invariants that the lemmas are about. Where a method of the source makes a
choice that depends on the outside (an error, a clock, a quote), the method here chooses freely. The broker
remembers which orders it was asked to cancel and asked about (`asked`, `looked`) and every answer that
arrived (`heard`), so that contracts can say that a step was taken, and on what.

## Results that differ from what the documentation or a reader would expect

* A chain executes at most the ordered lots *plus* what its replacements had executed when they were
  acknowledged (`NeverMoreThanOrderedIff`). `EntryExamples.SixOfFive` is a run that executes six lots of
  an order of five, with every tick without an error and the chain tracked to the end.
* A first order acknowledged with a commission but no lots never brings that commission to the
  position (`UnbookedRun`, `Unbooked`; `internal/scheduler/scheduler.go:576`). The exit side does book
  it (`internal/scheduler/scheduler.go:739`).
* Placing an order that is on record returns its row, and what that row knows is booked once more: by an
  entry unless the row has no lots (`RebookedIff`), by an exit unless it has neither lots nor commission
  (`SoldTwiceIff`). `SoldTwiceRun` is a run of an exit that gets there: its first order sells one lot and is
  replaced, the replacement ends without any, and the next placement sells that lot again.
* A tick that ends in an error may have stored more in the aggregate than the position has; what is
  `owed` stays owed, because later ticks only book what is new. It owes nothing new if and only if the
  aggregate is the one the tick started from (`UnreportedIff`, `EntryDesk.MonitorEntry`); `OwedRun` is a
  run that ends with a lot owed.
* When a wait for a cancelled order fails, what it had already seen is in the order's row but not in
  the aggregate. What is lost is exactly what the row of the cancelled order shows beyond the poll before
  the cancel, so nothing is lost if and only if the row still shows the fill of that poll (`MonitorOnce`,
  `MonitorUntil` and `MonitorEntry`, by `LosesExactly`); `LostRun` is a run that ends with a lot lost.
* With cancels counted as free orders, the cancel at the deadline is not part of the budget that was
  checked. Every run of a checked entry leaves the exit its orders if and only if cancels are not
  counted or there was one order more than the check asks for (`ExitAllowanceIff`, and `RunEntry` for
  the method). The daily limit itself can be exceeded by cancels: as many acknowledged posts as the day
  allows and then a counted cancel of the last one (`WithinLimitIff`). The counter an
  entry reserves its exit on is that of the entry's day; the exit is made on the next day's counter.
* An acceptance lost on its way back is released from the counter although it was used
  (`QuietCounterIsExact` for the exact condition, `LostAcceptanceIsReleased` for the run). In every
  reachable state the counter falls short of what was accepted by no more than that
  (`AcceptedWithinCounter`).
* The configuration check does not order the morning's last window against the evening's first
  (`internal/config/config.go:334-351`); the daily cycle needs that (`Windows.Ordered`). Besides the
  three windows one expects, RECONCILE must also not be slept through after a night in HOLD
  (`SleptThroughTheMorning`).
* The report at the hard deadline with positions left goes out only from RECONCILE and REPORT, where no
  step without an error ends (`DeadlineReportIff`). A report that cannot be sent halts the system until
  an operator lifts the halt (`FailedReportHalts`). Only a crash in the middle of a step leaves it in
  REPORT; then every phase is refused, and halts it, but the night's and that of a hard deadline with
  positions left, which halts it with the report sent (`CrashedReport`).
* Lifting a halt can be undone by a heartbeat decided before it (`UnhaltIsUndoneIff`, `UnhaltUndone`).
* An aggregate kept at the root of a raw state with a quote but no local part is lost on refresh
  (`AggregateSurvivesRefresh`).

## Model

| member | source | states |
|---|---|---|
| Execution.Engine.PlaceLimit | internal/execution/engine.go:160-231 | An id with a row is returned from the store and nothing is posted; otherwise a draft row and its reservation are written together, only if under a positive limit as many orders as required are left; an acknowledged post ends up in row and result at the given limit and quantity, counted once; a refused one leaves its row failed and the counter as it was, or, if the store could not undo it, the row sent and counted; a refusal for budget or mode touches nothing, and means exactly that |
| Execution.Engine.Refresh | internal/execution/engine.go:246-273 | The order as the broker was asked for it now, written over its own row only; terms, identity and the local part of the raw state kept; on failure no row changes |
| Execution.Engine.Cancel | internal/execution/engine.go:275-297 | The broker was asked to cancel; on success one cancel counted under the counting policy, nothing otherwise, and the row marked cancelled with the caller's fills |
| Execution.Engine.WaitTerminal | internal/execution/engine.go:541-559 | Terminates by the deadline, or without one when the context ends; keeps the chain tracked with the aggregate owed exactly what was gained; returns either after the deadline or with the order over at the broker, fully seen, and its row saying so |
| Execution.Engine.EnsureRepostBudget | internal/execution/engine.go:575-595 | Passes only with a post, and a counted cancel, to spare; refuses for budget only when they are not |
| Execution.Engine.PostReplacement | internal/execution/engine.go:513-538 | The replacement is for exactly what is missing, at the price the quote gives, and the chain is tracked by it; if it was refused, lost or not recorded the chain still fits its order and the aggregate is still right |
| Execution.Engine.CancelAndReplace | internal/execution/engine.go:501-539 | A cancelled order that left lots is replaced, unless the deadline came while waiting or the caller turned the repost down |
| Execution.Engine.Repost | internal/execution/engine.go:481-539 | With or without a deadline, by how it ends: nothing touched because the deadline came or the caller declined, cancelled without successor (nothing left, deadline come, or declined), replaced for the remainder, or failed with the chain within its order; nothing is replaced or given up without a cancel; costs at most a cancel and a post |
| Execution.Engine.MonitorOnce | internal/execution/engine.go:396-479 | Every return, error or not: the chain fits its order and the aggregate plus what a failed wait lost is the sum of last-seen fills; an order is cancelled before the deadline or replaced only if reposts are configured, attempts are left and it was posted at least the repost time ago, and one that is that old, live and unfilled is replaced unless the deadline comes, the caller declines, or the cancel brings its last fill; a replacement is dated by its post; without error the latest order is tracked, its row is what `Refinement.Tick` makes, from exactly the answers heard, of the row it started from, a replaced order was cancelled, and an unfilled order is called over only when it is over at the broker or was withdrawn at the deadline; a failed wait loses what the order's row shows beyond its poll, and nothing if and only if it shows the same; no other chain is touched; bounds on posts and counter |
| Execution.Engine.MonitorUntil | internal/execution/engine.go:299-394 | Terminates; same conclusion as MonitorOnce over the whole run: the aggregate and the last row are those of `Refinement.MemoryRun` over rounds that are exactly the answers heard, and a failed wait loses nothing if and only if the cancelled order's row shows the fill it was polled with; n replacements take at least n times the repost time, and no round but the last lets a due repost pass unless the caller declined one; without error it returns only when the order is filled, over at the broker, or withdrawn at the deadline; posts no more than the attempts left; counter bounded; runs out of orders only if there were too few at the start |
| Execution.Engine.MonitorRound | internal/execution/engine.go:312-392 | One round of the loop, and what was heard in it: a repost happens only when one is due, counting from the last post or try, with quotes and attempts left, and happens when it is due unless the deadline comes or the caller declines; it goes on only with a tracked order, before the deadline and with nothing lost, pays at most a cancel and a post, and either brings the end of the wait nearer or starts the repost count anew |
| Execution.Engine.RepostRound | internal/execution/engine.go:353-388 | The half of a round that reposts: memory and stored rows are what the whole round makes of them, and an unfilled order is kept only because the deadline came or the caller declined |
| Execution.Engine.Expire | internal/execution/engine.go:339-351 | At the deadline the order is cancelled and its row expired, aggregate unchanged: filled means as last seen |
| Execution.Engine.Place | internal/execution/engine.go:102-154 | What is posted carries the passive price of a two-sided quote that was fresh at the moment it was priced; where the mode allows no orders, or the quote is refused, nothing is posted or written; a failed post leaves a draft of exactly what was asked for |
| Execution.Engine.Priced | internal/execution/engine.go:620-640 | Refused as stale if and only if there is an age limit and the quote has no date or is older; as empty only if a side is missing; as untradable only if the price rule has no price |
| Execution.QuotedRests | internal/execution/pricing.go:19-47 | A quoted limit rests on its own side of an uncrossed book, within a tick |
| Execution.Engine.RequiredMeans | internal/execution/engine.go:597-618 | An entry is posted only if its exit can still be paid for: a post for each of its attempts and, if cancels count, a cancel before each but the first |
| Execution.Engine.Poll | internal/execution/engine.go:299-351 | The half of a round both monitors share: goes on only with an order that is neither filled nor over, before the deadline |
| Execution.Engine.CaptureFillQuote | internal/execution/engine.go:806-837 | A quote is asked for if and only if lots were filled and quotes are on, and what is noted, beside those lots, is a two-sided quote of that moment |
| Ledger.TrackedWithinOrder | internal/execution/engine.go:481-559 | At most one order of a tracked chain is live and the chain's capacity is at most the ordered lots plus missed ones |
| Ledger.RemainingLots | internal/execution/engine.go:365 | What is still to be ordered is what the latest order has left plus what its own acknowledgement hid; the aggregate never exceeds the order |
| Ledger.NeverOverExecutes | internal/execution/engine.go:481-559 | Whatever the broker does with the orders it holds, the chain executes at most the ordered lots plus missed ones |
| Ledger.BrokerMoveKeeps | internal/execution/engine.go:246-273 | No move of the broker between two calls breaks the invariant |
| Ledger.ObservationKeeps | internal/execution/engine.go:299-338 | Overwriting the row with an observation keeps the chain tracked when the aggregate gains the difference |
| Ledger.ReplacementKeeps | internal/execution/engine.go:501-538 | A replacement for what is missing keeps the chain tracked with the same aggregate |
| Ledger.UnrecordedReplacement | internal/execution/engine.go:196-231 | A replacement that was posted but not recorded leaves capacity and aggregate right |
| Ledger.OtherChainsStayTracked | internal/execution/engine.go:901-909 | Whatever is done for one chain, every other tracked chain stays tracked |
| OverExecution.WorstCase | internal/execution/engine.go:501-538 | The broker can bring a live chain to exactly the ordered lots plus what earlier replacements missed |
| OverExecution.NeverMoreThanOrderedIff | internal/execution/engine.go:501-538 | A live chain can never exceed the order if and only if no earlier replacement had executed anything when acknowledged |
| OverExecution.NeverMoreThanOrdered | internal/execution/engine.go:501-538 | Where no acknowledgement of the chain carries lots, a chain that fits its order never executes more than was ordered |
| EntryRuns.RunKeeps | internal/execution/engine.go:396-559 | Over every run of an entry, step by step, until it ends in an error: whatever the broker, the store and the clock decide, the chain is tracked with its aggregate, and between looks the row reads that aggregate back |
| EntryRuns.RunCosts | internal/execution/engine.go:575-614 | Over every run, errors included, an entry adds to the day's counter at most a post and a counted cancel for each of its attempts |
| EntryRuns.RunTells | internal/execution/engine.go:396-479 | In every run of the machine, when the engine reports, the row is the one that `Refinement.Tick` makes, from what was heard since the tick began, of the row it began with |
| EntryRuns.CancelIff | internal/execution/engine.go:481-500 | In a run, a repost begins only before the deadline, with attempts left, and with orders to spare |
| EntryRuns.ReplaceIff | internal/execution/engine.go:513-539 | In a run, a cancelled order is replaced only for what is missing, before the deadline, and with the exit's orders to spare |
| EntryRuns.PostFailsIff | internal/execution/engine.go:196-212 | A post that fails in a run leaves a draft of what was missing, failed and uncounted if the store could undo it, sent and counted otherwise |
| EntryExamples.SixOfFive | internal/tinvest/real.go:684-705 | A run from the first post through two replacements, aggregate stored at every tick, after which the chain is still tracked and six lots of an order of five are executed |
| EntryExamples.ExitAllowanceIff | internal/scheduler/scheduler.go:1609-1647 | After a passed check every run leaves the exit its orders if and only if cancels are not counted or there was one order more than the check asks for |
| EntryExamples.OwedRun | internal/scheduler/scheduler.go:607-643 | A run whose tick stores a fill and then fails: the position does not have it |
| EntryExamples.LostRun | internal/execution/engine.go:541-559 | A run whose wait writes a fill into the row and then fails: the aggregate is not the sum of the rows' fills |
| EntryExamples.UnbookedRun | internal/scheduler/scheduler.go:568-581 | A run in which a first order is charged for without a fill and the position never hears of it |
| EntryExamples.SoldTwiceRun | internal/scheduler/scheduler.go:683-758 | A run of an exit after which no order is out, one lot was executed, and a second placement leaves the position two lots lower |
| Fills.MergeAdds | internal/execution/engine.go:960-995 | Merging two observations of an honest broker adds exactly their difference in lots, value and commission |
| Fills.MergeIsExact | internal/execution/engine.go:960-995 | With a positive limit price a merge is exact if and only if the observations advance as the contract says |
| Fills.CommissionRatchets | internal/execution/engine.go:970-972 | Commission that goes down and up again is counted twice |
| RawState.RoundsToItself | internal/execution/engine.go:770-784 | An integer survives a JSON number if and only if its float spacing divides it |
| RawState.RoundsToNearest | internal/execution/engine.go:770-784 | Larger integers are stored as the nearest multiple of the float's spacing, the even one of two |
| RawState.AggregateRoundTrip | internal/execution/engine.go:731-784 | Writing the aggregate and reading it back is the identity if and only if its lots survive as JSON numbers, whatever raw state it is written into |
| RawState.AggregateSurvivesRefresh | internal/execution/engine.go:665-707 | A stored aggregate outlives a refresh if and only if it was written next to a broker part, into a local part, or at a root without quote or local entry |
| RawState.AggregateSurvivesRefreshes | internal/execution/engine.go:665-707 | Then it outlives every further refresh as well |
| RawState.FillQuotesKeepAggregate | internal/execution/engine.go:786-837 | Appending and carrying fill quotes leaves the stored aggregate alone |
| Refinement.RoundsAgree | internal/execution/engine.go:396-479 | One round in memory and one tick over the store lead from agreeing states to agreeing states |
| Refinement.StoredRunRefinesMemory | internal/execution/engine.go:299-479 | Over the same observations and replacements, the run over the store ends with the same order and the same aggregate as the run in memory |
| Refinement.TickIsRound | internal/execution/engine.go:396-479 | A tick leaves in the row exactly the order that a round in memory, begun from the aggregate the row holds, goes on with |
| Refinement.RoundDependsOn | internal/execution/engine.go:299-394 | A round depends only on the order, but not on its status, on what was last seen filled of it and on the aggregate, not on which other rows are remembered |
| Refinement.RunCounts | internal/execution/engine.go:299-394 | Over any run of rounds about its orders the aggregate holds exactly the fills that the answers, in order, report: an answer counts by what it adds to the last one, a replacement starts from its acknowledgement |
| Refinement.HeardDecides | internal/execution/engine.go:299-479 | Two runs that hear the same answers come to the same fills, wherever the rounds of either begin and end |
| Refinement.TicksComeToOneRun | internal/execution/engine.go:299-479 | Ticks that start from the stored row each time and one run in memory that hear the same end with the same fills |
| Rounding.DriftIsBounded | internal/execution/engine.go:960-995 | After n merges with rounded divisions the aggregate's value is off by at most n + 1 units of the last digit per lot |
| Rounding.RoundedWithoutError | internal/execution/engine.go:960-995 | With both errors zero the rounded merge is the merge of the engine, commission aside |
| Ticks.NextTickStarts | internal/execution/engine.go:709-729 | What a tick stored is what the next one starts from, up to 2^53 lots |
| Ticks.OnlyLatestIsActive | internal/scheduler/scheduler.go:596-617 | Of all active orders the store lists, at most the latest belongs to a tracked chain |
| Ticks.PlacedIsTracked | internal/execution/engine.go:102-154 | A first acknowledged order opens a tracked chain |
| Ticks.PlaceFirst | internal/execution/engine.go:102-127 | For a fresh chain a tracked chain with a row equal to the order and no aggregate in it, at the cost of at most one free order; for an id on record its row, with nothing posted |
| Ticks.Tick | internal/scheduler/scheduler.go:607-630 | One tick over whatever active order is listed: it is the chain's latest, it is listed if and only if its row is active, and then the broker was asked about it; what stands after the tick stands with or without an error |
| Deltas.DeltaIsExact | internal/scheduler/scheduler.go:1731-1752 | The booked delta is the difference of the two aggregates, and is partial exactly when the aggregate is |
| Deltas.SaleIsExact | internal/scheduler/scheduler.go:1754-1771 | The booked sale has the lots, proceeds and commission of the difference |
| Deltas.DeltaIsNatural | internal/scheduler/scheduler.go:1731-1771 | A delta is never negative, whatever two reports say: lots or commission that went down bring nothing |
| Positions.PositionManager.FindEntryPosition | internal/position/manager.go:88-108 | The position of the trade that takes entry fills and was updated longest ago, or none when there is none |
| Positions.PositionManager.OnEntryFill | internal/position/manager.go:26-86 | The trade's one entry position gains exactly the fill's lots, value and commission, or is opened with them and with no sale yet; lot size as given, or one; partial exactly when the fill leaves lots, and held overnight only if it was; every other field and position stays |
| Positions.PositionManager.OnExitFill | internal/position/manager.go:110-168 | An overfill is refused and changes nothing; otherwise lots, average, gross, net, commission and edge become what selling these lots at this price makes of them in the position's own lot size |
| Positions.SoldBooksSale | internal/position/manager.go:110-168 | A sale changes nothing but what it books: gross by price difference times lots times lot size, edge as net in basis points of what the lots cost |
| Positions.TwoSalesAreOne | internal/position/manager.go:133-162 | Two sales in a row leave the record that one sale of both would |
| Positions.AcceptedIffEnough | internal/position/manager.go:116-129 | A run of sales is accepted to the end if and only if it does not sell more than is held |
| Positions.PathIndependence | internal/position/manager.go:110-168 | Any accepted run of sales leaves, in every field, the record of one combined sale |
| Positions.ProfitOfRun | internal/position/manager.go:133-150 | Lots are conserved, gross profit is lot size (one if it is not positive) times lots sold times the difference of the averages, net is gross less all commission |
| Positions.OtherEntriesKept | internal/position/manager.go:88-108 | Booking one trade leaves the entry positions of others alone |
| EntryMonitor.EntryDesk.PlaceEntryOrder | internal/scheduler/scheduler.go:568-581 | The first order's chain is tracked and its position in step, except for a commission that came without lots; an id on record changes nothing at the broker or in the store and its lots are booked once more |
| EntryMonitor.RebookedIff | internal/scheduler/scheduler.go:568-581 | A second placement leaves the position if and only if the recorded row has no lots |
| EntryMonitor.EntryDesk.BookEntry | internal/scheduler/scheduler.go:633-641 | After booking, position plus what it is owed is the aggregate; without an error nothing new is owed, and with one exactly what the tick's report added |
| EntryMonitor.UnreportedIff | internal/scheduler/scheduler.go:627-641 | A failed booking owes nothing new if and only if the aggregate is the one the tick started from, which is when the scheduler finds nothing to book |
| EntryMonitor.EntryDesk.MonitorEntry | internal/scheduler/scheduler.go:591-648 | After any number of ticks and reposts the position has the aggregate's lots, value and commission less what it is owed, and is partial exactly when the aggregate is below the order; the aggregate is that of one run in memory over exactly the answers heard; each replacement was posted at least the repost time after the order it replaced; ticks without an error owe nothing new, and one with an error owes nothing new if and only if the aggregate is the one it started from |
| EntryMonitor.EntryDesk.RunEntry | internal/scheduler/scheduler.go:451-648 | Skipped if and only if the trade has an order that was neither refused nor failed; refused if and only if the limit is unconfigured, or positive with fewer orders left than posts and counted cancels of all attempts of the entry and the exit come to, and then nothing is touched; after a passed check no post or repost of the entry runs out of free orders, and the exit allowance is left but for one counted cancel, whole when there was one order more than the check asks for or cancels are not counted |
| EntryMonitor.EntryDesk.MonitorEntryOrders | internal/scheduler/scheduler.go:607-643 | A tick over all entries asks the broker about each until one fails, and keeps every one of them tracked and in step, except the one that failed |
| EntryMonitor.OthersStayOnDesk | internal/scheduler/scheduler.go:607-643 | Work on one entry leaves every other entry as it was |
| ExitMonitor.SaleKeepsStep | internal/scheduler/scheduler.go:806-826 | Booking the next delta of a tracked exit is never an overfill and keeps position and aggregate in step |
| ExitMonitor.AsOneSale | internal/scheduler/scheduler.go:806-826 | However many ticks and reposts it took, the position is what one sale of the aggregate makes of it |
| ExitMonitor.ExitDesk.PlaceExitOrder | internal/scheduler/scheduler.go:735-758 | All lots are offered in a tracked chain, and what was executed or charged on the way in is booked; an id on record changes nothing at the broker or in the store, and what its row knows is sold once more |
| ExitMonitor.SoldTwiceIff | internal/scheduler/scheduler.go:735-758 | A second placement of a booked chain leaves what was sold if and only if the recorded row has neither lots nor commission; otherwise exactly those are booked twice |
| ExitMonitor.ExitDesk.BookExit | internal/scheduler/scheduler.go:809-825 | Booking a report either sells the difference or, when the store fails, leaves the position; a report with nothing new writes nothing |
| ExitMonitor.ExitDesk.MonitorExit | internal/scheduler/scheduler.go:763-826 | Over any number of ticks the position stays its origin after a run of sales that make up the aggregate, which is that of one run in memory over exactly the answers heard |
| ExitMonitor.ExitDesk.RunExit | internal/scheduler/scheduler.go:683-826 | Skipped if and only if an active exit order of today or yesterday has a number at the broker; refused if and only if the limit is unconfigured, or positive with fewer orders left than posts and counted cancels of the exit come to; a new exit's position ends as if all that was executed had been one sale, and a checked exit never runs out of free orders; an exit on record is booked once more |
| Posting.StepKeeps | internal/execution/engine.go:160-231 | Every step of every caller, and a crash, keeps: callers past the lock know where their order stands, no id is posted twice |
| Posting.PostedAtMostOnce | internal/execution/engine.go:160-244 | Over all interleavings and crashes the broker is asked to post an id at most once |
| Posting.CounterIsExact | internal/repository/mysql/repository.go:600-654 | In every reachable state the counter is reservations less releases plus counted cancels |
| Posting.AcknowledgedWithinCounter | internal/execution/engine.go:188-212 | In every reachable state acknowledged posts plus counted cancels are within the counter |
| Posting.AcceptedWithinCounter | internal/execution/engine.go:188-212 | In every reachable state accepted posts plus counted cancels are within the counter but for acceptances that were lost and whose reservations were given back |
| Posting.WithinLimitIff | internal/execution/engine.go:275-297 | The counter stays within a positive limit in every run if and only if cancels are not counted; the run that exceeds it posts as many orders as the day allows, all acknowledged, and cancels the last |
| Posting.QuietCounterIsExact | internal/execution/engine.go:196-212 | Without faults and with every caller done the counter is acknowledged posts plus counted cancels; it is accepted posts plus cancels if and only if no acceptance was lost |
| Posting.LostAcceptanceIsReleased | internal/execution/engine.go:196-212 | A run without faults after which the broker has an order that the counter does not know of |
| Posting.ReservesIff | internal/repository/mysql/repository.go:612-654 | A reservation is granted if and only if, under a positive limit, the order itself and all that was required are still free; otherwise nothing is written |
| Posting.CancelsAreOfAccepted | internal/execution/engine.go:275-297 | In every reachable state no cancel is counted but of an order the broker had accepted |
| Schedule.IllegalIffStuck | internal/scheduler/scheduler.go:154-231 | A step is refused as illegal if and only if the state has no way into the phase of the clock |
| Schedule.LegalStepSettles | internal/scheduler/scheduler.go:154-231 | A legal step leaves the state its phase calls for, or REPORT if the report could not be sent, and never sends the hard deadline's report |
| Schedule.FailedIff | internal/scheduler/scheduler.go:864-949 | A step fails if and only if a report was due, nothing critical was found and it could not be sent |
| Schedule.NightTick | internal/scheduler/scheduler.go:154-231 | By the clock, before the exit watch: asleep, from whatever state |
| Schedule.WatchTick | internal/scheduler/scheduler.go:154-231 | From the exit watch to the exit window: WAIT_EXIT from the states that may wait, refused from any other |
| Schedule.ExitTick | internal/scheduler/scheduler.go:154-193 | In the exit window: MONITOR_EXIT, or halted if the reconciliation was critical, from the states that may place exits, refused from any other |
| Schedule.LastExitTick | internal/scheduler/scheduler.go:154-193 | From the window's end to the hard deadline: the same from the states that may monitor exits |
| Schedule.DeadlineTick | internal/scheduler/scheduler.go:1212-1242 | From the hard deadline to the signal time: positions left halt the system from any state; otherwise the day is reconciled and reported once, halted if critical, failed in REPORT if the report does not go out |
| Schedule.MissedTick | internal/scheduler/scheduler.go:864-949 | After the signal time a machine that has not reported the day does that first |
| Schedule.SignalTick | internal/scheduler/scheduler.go:178-193 | From the signal time to the entry window: prepared states stay, the others prepare up to WAIT_ENTRY or are refused |
| Schedule.EntryTick | internal/scheduler/scheduler.go:178-203 | In the entry window: MONITOR_ENTRY, or HOLD once its end was seen, or halted if critical, from the states that may enter, refused from any other |
| Schedule.HoldTick | internal/scheduler/scheduler.go:178-203 | After the entry window: HOLD, or halted if critical, from the states that may hold, refused from any other |
| Schedule.HaltedTick | internal/scheduler/scheduler.go:170-177 | A halted system stays as it is at any time of the day |
| Schedule.StuckOnlyAfterSkip | internal/scheduler/scheduler.go:205-231 | A settled machine gets stuck only by sleeping through a window it had to keep |
| Schedule.NeverIllegal | internal/scheduler/scheduler.go:154-231 | Over any number of days a machine in INIT or SLEEP, with whatever reports were sent up to then, never asks for an illegal transition so long as it keeps its windows |
| Schedule.NeverIllegalWhenDense | internal/scheduler/scheduler.go:132-145 | The same for a clock whose ticks are no further apart than the three windows are long |
| Schedule.SleptThroughPlaceExit | internal/statemachine/system.go:94-116 | A run refused because it slept through PLACE_EXIT |
| Schedule.SleptThroughReconcile | internal/statemachine/system.go:94-116 | A run refused because it slept through RECONCILE |
| Schedule.SleptThroughPlaceEntry | internal/statemachine/system.go:94-116 | A run refused because it slept through PLACE_ENTRY |
| Schedule.SleptThroughTheMorning | internal/scheduler/scheduler.go:184-193 | A run from HOLD refused at PLACE_ENTRY, because the signal phase only beats the heart |
| Schedule.DeadlineReportIff | internal/scheduler/scheduler.go:1212-1242 | With positions left at the hard deadline the report goes out exactly from RECONCILE and REPORT, if it can be sent |
| Schedule.FailedReportHalts | internal/scheduler/scheduler.go:132-145 | After a report that could not be sent the system is halted, the day unmarked, and every later round stopped |
| Schedule.CrashedReport | internal/scheduler/scheduler.go:925-949 | After a crash in REPORT the next round is refused, and halts the system, unless it falls into the night or finds positions left at a hard deadline; the report goes out only in that last case |
| Schedule.HaltedForever | internal/scheduler/scheduler.go:132-145 | However many rounds pass, a halt stays until it is lifted |
| Scheduler.DailyScheduler.Tick | internal/scheduler/scheduler.go:154-203 | The tick as it runs does to the row and the sent reports what the step function says; between the hard deadline and the signal time a monitoring or reconciling machine is halted if positions are left, and otherwise has the day reported, or was critical, or failed to report |
| Scheduler.DailyScheduler.Round | internal/scheduler/scheduler.go:132-145 | The loop's round as it runs is the round function: any error but the halt itself halts the system |
| Scheduler.DailyScheduler.TransitionTo | internal/scheduler/scheduler.go:1685-1700 | Reads the row and stops, beats, moves or refuses as the step function says, and writes the row in full |
| Scheduler.DailyScheduler.Run | internal/scheduler/scheduler.go:132-145 | The scheduler's loop, started in INIT or SLEEP with whatever reports were sent up to then, is never refused over ticks that keep their windows |
| SystemStateRow.Repository.SaveSystemState | internal/repository/mysql/repository.go:668-686 | The assignments evaluated from left to right have the effect of evaluating them all at once |
| SystemStateRow.Repository.Unhalt | internal/repository/mysql/repository.go:720-750 | Refused without a halt, otherwise the row starts over |
| SystemStateRow.System.Transition | internal/statemachine/system.go:61-73 | Stopped when halted, refused when illegal, otherwise the row moves unless it was halted |
| SystemStateRow.System.Heartbeat | internal/statemachine/system.go:79-88 | A halted row is saved as halted again, any other as the given state |
| SystemStateRow.System.Recover | internal/statemachine/system.go:28-59 | Halts exactly in a trading state with a critical difference at the broker, starts preparation over, keeps every other row as it is |
| SystemStateRow.HaltSticks | internal/repository/mysql/repository.go:668-686 | In every interleaving of decided saves and halts a halted row stays halted in HALTED |
| SystemStateRow.ReasonStays | internal/repository/mysql/repository.go:668-686 | Until somebody halts again or lifts the halt, a halted row keeps its reason through every interleaving of saves |
| SystemStateRow.MoveIsDecidedIff | internal/statemachine/system.go:61-73 | A move is decided if and only if the row it reads is not halted and the transition is legal |
| SystemStateRow.UnhaltIsUndoneIff | internal/statemachine/system.go:79-88 | A lifted halt comes back if and only if a save decided during it arrives afterwards |
| SystemStateRow.UnhaltUndone | internal/statemachine/system.go:79-88 | A run in which a heartbeat is decided during a halt, the halt lifted, and the heartbeat saved: the row is halted again |
| Sizing.SizeIsLargest | internal/risk/sizing.go:66-112 | Lots are granted if and only if one fits and the most that fit are worth the minimal order, and then they are the most that fit all five limits |
| Sizing.FitsMeans | internal/risk/sizing.go:66-98 | The five limits in the portfolio's own terms: share of equity, equal part of the exposure left, share of either window's volume, loss at the 5% quantile within the risk budget, share of the free cash, each scaled by the size factor |
| Sizing.NothingFitsIff | internal/risk/sizing.go:66-112 | Refused for want of a limit if and only if no positive amount keeps within all five, or price or lot is not positive |
| Sizing.SizedNotional | internal/risk/sizing.go:66-112 | A granted size is worth something and within the exposure share and the cash limit |
| Sizing.GrantedWithinRisk | internal/risk/sizing.go:85-88 | What is granted loses no more than the risk budget in a night as bad as the 5% quantile |
| Allocation.RankEntries | internal/scheduler/scheduler.go:375-389 | All ENTER signals, best score first, ties by identifier, then in the order they came in |
| Allocation.ApplyBatchSignalLimits | internal/scheduler/scheduler.go:374-427 | Every signal is untouched, decided in its turn, or cut for want of a slot; without a limit none is cut, with one only those from rank limit less open positions on, so that open positions and those that stay come to no more than the limit; those that stay are among the best ranked; the notionals left in the array add up to what was reserved, and so fit the remaining exposure and the geometric cash bound |
| Allocation.StayingIsSized | internal/scheduler/scheduler.go:411-425 | A signal that stays has the largest lot count the limits allowed in its turn |
| Allocation.DecidedIff | internal/scheduler/scheduler.go:411-425 | A signal stays in its turn if and only if a lot fits and the most that fit are worth a minimal order; it is rejected without a price or a limit; nothing else of it changes |
| Allocation.EnteredIsByRank | internal/scheduler/scheduler.go:374-427 | Added up along the array, the signals that stay are worth what they are worth added up by rank |
| Allocation.EnteredIsSpent | internal/scheduler/scheduler.go:411-425 | The signals decided in turn are worth exactly what was reserved for them |
| Allocation.SpentWithinExposure | internal/scheduler/scheduler.go:374-427 | What stays fits together into the remaining exposure |
| Allocation.SpentWithinCash | internal/scheduler/scheduler.go:374-427 | k signals that stay leave at least (1 - b)^k of the cash |
| Pricing.BuyPriceDoesNotCross | internal/execution/pricing.go:19-32 | A buy price is on the tick grid, below the ask and within a tick of the bid |
| Pricing.SellPriceDoesNotCross | internal/execution/pricing.go:34-47 | A sell price is on the tick grid, above the bid and within a tick of the ask |
| Money.FloorsToTick | internal/money/money.go:71-85 | Rounding down gives the largest multiple of the tick not above the price |
| Money.CeilsToTick | internal/money/money.go:71-85 | Rounding up gives the smallest multiple of the tick not below the price |
| Money.HalvesGoAway | internal/money/money.go:71-85 | Rounding to the nearest takes halves away from zero |
| Money.QuotationRoundTrip | internal/money/money.go:25-51 | Conversion keeps the value within half a nano and keeps it exactly if and only if it has at most nine decimals |
| Money.DecimalRoundTrip | internal/money/money.go:25-51 | Every well-formed quotation comes back |
| Paper.PaperBroker.PostLimitOrder | internal/tinvest/gateway.go:131-150 | A new order joins the book with nothing executed; an id posted again loses its record, and the books stay right if and only if nothing was paid for the old one |
| Paper.RepostKeepsIff | internal/tinvest/gateway.go:131-150 | A fresh record under an old id keeps every order bounded and paid for if and only if the old one's operations came to nothing |
| Paper.PaperBroker.CancelOrder | internal/tinvest/gateway.go:152-163 | Cancelling moves the book as the execution engine's contract allows, also for a filled order |
| Paper.PaperBroker.GetOrderState | internal/tinvest/paper.go:71-84 | Asking for a state fills the order as the market allows, books it, and stays within the contract |
| Paper.PaperBroker.SimulateOrderBookFill | internal/tinvest/gateway.go:175-207 | The order and the operations become what the market gives them; every order stays bounded, within its limit price, and paid for by its operations, and the book moves within the contract |
| Paper.SimulatedFills | internal/tinvest/gateway.go:175-298 | An open order gets nothing if and only if the other side's best level is out of reach or empty, and otherwise as much of it as is left to fill |
| Paper.FillIsPaid | internal/tinvest/gateway.go:175-207 | A fill is written down as one operation at the best price of the other side: cash out for a buy, in for a sale |
| Paper.FillIsProper | internal/tinvest/gateway.go:265-298 | A fill keeps the average within the limit and adds exactly its value |
| Paper.DuplicatePostIff | internal/tinvest/gateway.go:131-150 | Posting an id again is within the contract if and only if the old order was open, unfilled, as large and at the same limit |
| Paper.PaperNeverOverExecutes | internal/tinvest/gateway.go:131-207 | On the paper broker no chain that fits its order ever executes more than was ordered |
| Reconciliation.CompareOrders | internal/reconciliation/engine.go:84-134 | The differences reported, in order |
| Reconciliation.UnknownAre | internal/reconciliation/engine.go:93-106 | What is reported of the broker's orders: each one that no local order names |
| Reconciliation.MissingAre | internal/reconciliation/engine.go:107-134 | What is reported of the local orders: each one past its grace period without a broker id or not listed at the broker |
| Reconciliation.OrdersAgreeIff | internal/reconciliation/engine.go:84-134 | Nothing is reported if and only if the broker's orders are known here and the orders here are at the broker, but for those created less than the grace period ago |
| Reconciliation.ComparePositions | internal/reconciliation/engine.go:135-172 | The differences reported, whatever order the map is visited in |
| Reconciliation.PositionsReported | internal/reconciliation/engine.go:135-172 | What is reported of positions: each one the broker holds another number of lots of, and each instrument only the broker holds |
| Reconciliation.PositionsAgreeIff | internal/reconciliation/engine.go:135-172 | With one position per instrument and no short holdings nothing is reported if and only if both sides hold the same lots |
| Backtest.FillableMinuteLots | internal/backtest/engine.go:347-372 | The loop's sum over the minutes, divided by a lot's notional, is the most lots within the participation share of the volume the price reached |
| Backtest.ReachGrows | internal/backtest/engine.go:347-372 | A minute serves an order if and only if it is of that day, within the window, and its price came to the limit |
| Backtest.BetterLimitReachesMore | internal/backtest/engine.go:347-372 | Paying more, or asking for less, never reaches less volume |
| Backtest.MinuteLotsIff | internal/backtest/engine.go:329-345 | The minute model trades so many lots if and only if they were asked for and both days' windows can fill them |
| Backtest.LotsFor | internal/backtest/engine.go:253-288 | Window volumes, the sizer and the minutes, in the order the source consults them, give the lots of the specification |
| Backtest.TradedBounds | internal/backtest/engine.go:253-288 | What is traded fits an equal share of the exposure, the cash left, and in the minute model both windows' participation share |
| Backtest.TradedIsMost | internal/backtest/engine.go:253-288 | What is traded without minutes is the most lots within the sizer's limits for the morning's equity and the cash that is left |
| Backtest.TradeEarns | internal/backtest/engine.go:283-286 | A trade earns its units times the difference of the prices, less the round trip's commission on what was paid |
| Backtest.RunDay | internal/backtest/engine.go:248-310 | A day's trades are those of its candidates in turn, each sized with the cash the earlier ones left |
| Backtest.DayStaysWithin | internal/backtest/engine.go:248-310 | After any number of a day's candidates the notionals fit the exposure cap of the morning's equity, the cash has not run out, and every trade was within reach |
| Backtest.Run | internal/backtest/engine.go:239-320 | The points are the equity after each day and the trades are those of the days in turn |
| Backtest.EquityIsProfits | internal/backtest/engine.go:239-320 | After every day the equity is the initial equity plus the profit of every trade so far |
| Evaluation.EvaluateCandidate | internal/backtest/engine.go:446-533 | The loop over the history and the screening give the specification's outcome: invalid price, declined, or the candidate |
| Evaluation.UsableIff | internal/backtest/engine.go:455-463 | The returns exist if and only if every price they are computed from is positive |
| Evaluation.PassedIff | internal/backtest/engine.go:464-497 | A night passes if and only if both windows can be computed, vary and rise, the short mean pays for all costs with the required margin, and no gate is missed |
| Evaluation.CostsLowerTheEdge | internal/backtest/engine.go:472-478 | No cost can rise without taking as much off the edge |
| Evaluation.YesIff | internal/backtest/engine.go:446-533 | A night is traded if and only if there is enough history, the days before its entry pass, and both its prices are positive; the candidate is of those two days |
| Evaluation.AverageTimesDays | internal/features/returns.go:170-185 | The average turnover of the last twenty days, or of all if there are fewer, times their number is what was traded on them |
| Evaluation.JudgedOnThePast | internal/backtest/engine.go:446-533 | Histories that agree before the entry day are judged alike; the decisions agree if and only if the night was turned down or both or neither have prices to trade at |
| Evaluation.PricesAreConservative | internal/backtest/engine.go:498-511 | A buy costs at least the close with slippage and a sale brings at most the open less slippage, each within a tick |
| BacktestRun.CollectOne | internal/backtest/engine.go:204-219 | One instrument adds exactly its accepted nights to each exit date and exactly its dates with enough history; fails if and only if a price is unusable |
| BacktestRun.TradingDateIff | internal/backtest/engine.go:204-219 | A date is traded if and only if some instrument has a candle of it after as many days as either window needs |
| BacktestRun.RunWithMinuteCandles | internal/backtest/engine.go:199-331 | The run fails if and only if some night has an unusable price; otherwise its points and trades are the ledger's over the ascending trading dates, the trades listed by exit date and identifier |
| BacktestRun.ListTrades | internal/backtest/engine.go:321-331 | The trades as they come back: the same ones, by exit date and then identifier |
| BacktestRun.RankingIsTheOrder | internal/backtest/engine.go:240-248 | Any arrangement by descending edge and ascending identifier is the ranking, whatever order the candidates came in |
| BacktestRun.RankingInOrder | internal/backtest/engine.go:240-248 | Ranked candidates come by falling edge, ties by identifier |
| BacktestRun.OrderDoesNotMatter | internal/backtest/engine.go:204-248 | The order in which the map of instruments is visited changes neither the trading dates nor what is traded on them |
| Lookahead.SameLots | internal/backtest/engine.go:253-288 | What a candidate trades depends only on minutes through its exit day |
| Lookahead.NoLookAhead | internal/backtest/engine.go:199-331 | For histories and minutes that agree through a day, the trading dates, the equity after each and the trades up to that day are the same, whatever follows |

## Left out

* Decimals are exact reals. What their rounding does to the aggregate is bounded in `Rounding`, but not
  carried on into positions and limits; the database's eight digits and the rounding in profits and
  sizes are not modelled. Integers are unbounded.
* The broker's contract (`Ledger.Honours`, `BrokerOrder.Sound`) is an assumption about the real
  broker; the paper broker is shown to meet it.
* A client order id is the tuple it is a digest of; the digest is taken to be injective. One account.
* Store failures are atomic: a failed write has no effect. The reconnects and retries behind the
  gateway, the null store and the null gateway are not modelled. A crash between the refresh of a row
  and the storing of the aggregate is a `StoreFailed` whose fill is then owed to nobody; what is
  proved covers the return with that error, in which the aggregate in memory is still right.
* Errors of the engine carry no text; an error inside the wait for a cancelled order is `WaitFailed`.
* Without a deadline a loop ends only because its context does; when that is, is free (`Clock.patience`).
* Chains are followed over ticks for orders of up to 2^53 lots, which is how far a stored aggregate
  survives as a JSON number (`AggregateRoundTrip`).
* The time basis of `repostDue` falls back to a column that is not modelled; then it is free.
- Execution.Engine.Expire: does not look at fills the last cancel races with, as in the source.
- Posting.PostedAtMostOnce: one process at a time; two processes on one database are not modelled.
- Schedule.NeverIllegal: of the errors of a step, a refused transition and a report that cannot be sent are modelled; any other halts the system in the same way, from wherever in the step it occurs.
- Evaluation.EvaluateCandidate: the mean, deviation, t-statistic, win rate and quantile are functions of the returns that are not modelled further; the conversion of returns to floating point is not modelled.
- BacktestRun.RunWithMinuteCandles: histories and minutes come sorted; metrics, reports and the per-instrument configuration lookups are not modelled.
- Reconciliation.ComparePositions: cash and commission comparisons are not modelled.
* Notifications, the commission policy and the reconciliation after a booked fill, quarantine, the
  pre-trade checks and the closing of the entry window's remaining orders (they are cancelled without
  another look) are not modelled.
* Live gateway, sandbox, configuration parsing, command line, health check and SQL beyond the rows
  named above.
