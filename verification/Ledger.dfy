/** One cancel/replace chain as two parties see it: the broker's book and the order rows the engine
    has stored. Sums over the chain are taken column by column. */
module Ledger {
  import opened RawState
  import opened Domain
  import opened Fills

  /** An order at the broker; its number is its position in the book. `ack` is what had already
      been executed when the post was acknowledged. */
  datatype BrokerOrder = BrokerOrder(
    client: ClientId, limit: real, quantity: int, filled: int, avg: real, commission: real, status: Status, ack: Fill)
  {
    function Done(): Fill {
      Fill(filled, avg * filled as real, commission)
    }

    predicate Sound() {
      0 <= ack.lots <= filled <= quantity && 0.0 <= commission && (filled > 0 ==> avg > 0.0)
    }
  }

  type Book = seq<BrokerOrder>
  type Rows = map<ClientId, Order>

  // ---------------------------------------------------------------- the broker's contract

  /** Between two looks at one order: its terms stay, fills advance within its quantity, and a
      terminal status is final and freezes lots and value. Commission may still arrive late. */
  predicate Honours(a: BrokerOrder, b: BrokerOrder) {
    && b.client == a.client && b.limit == a.limit && b.quantity == a.quantity && b.ack == a.ack
    && b.Sound()
    && Advances(a.Done(), b.Done())
    && (IsTerminal(a.status) ==> IsTerminal(b.status) && b.filled == a.filled)
  }

  predicate Evolved(a: Book, b: Book) {
    |a| <= |b| && forall i :: 0 <= i < |a| ==> Honours(a[i], b[i])
  }

  ghost predicate AllSound(book: Book) {
    forall i :: 0 <= i < |book| ==> book[i].Sound()
  }

  lemma HonoursTransitive(a: BrokerOrder, b: BrokerOrder, c: BrokerOrder)
    requires Honours(a, b) && Honours(b, c)
    ensures Honours(a, c)
  {
  }

  lemma EvolvedTransitive(a: Book, b: Book, c: Book)
    requires Evolved(a, b) && Evolved(b, c)
    ensures Evolved(a, c)
  {
    forall i | 0 <= i < |a| ensures Honours(a[i], c[i]) {
      HonoursTransitive(a[i], b[i], c[i]);
    }
  }

  lemma TerminalStays(a: Book, b: Book, i: nat)
    requires Evolved(a, b) && i < |a| && IsTerminal(a[i].status)
    ensures IsTerminal(b[i].status)
  {
    assert Honours(a[i], b[i]);
  }

  lemma EvolvedReflexive(a: Book)
    requires AllSound(a)
    ensures Evolved(a, a)
  {
  }

  // ---------------------------------------------------------------- sums over a chain

  datatype Column =
    | Capacity  // the most an order can ever execute
    | Executed  // what it has executed at the broker
    | Seen      // what its stored row says was executed
    | Missed    // what a replacement had executed when it was acknowledged

  const NONE: int := -1

  predicate Recorded(book: Book, rows: Rows, j: nat)
    requires j < |book|
  {
    book[j].client in rows && rows[book[j].client].broker == Id(j)
  }

  function Part(book: Book, rows: Rows, j: nat, column: Column): Fill
    requires j < |book|
  {
    match column
    case Capacity => Fill(if IsTerminal(book[j].status) then book[j].filled else book[j].quantity, 0.0, 0.0)
    case Executed => book[j].Done()
    case Seen => if Recorded(book, rows, j) then FillOf(rows[book[j].client]) else ZERO
    case Missed => if Recorded(book, rows, j) && book[j].client.attempt > 1 then book[j].ack else ZERO
  }

  function Term(book: Book, rows: Rows, chain: Chain, j: nat, skip: int, column: Column): Fill
    requires j < |book|
  {
    if j != skip && ChainOf(book[j].client) == chain then Part(book, rows, j, column) else ZERO
  }

  function Sum(book: Book, rows: Rows, chain: Chain, n: nat, skip: int, column: Column): Fill
    requires n <= |book|
  {
    if n == 0 then ZERO
    else Sum(book, rows, chain, n - 1, skip, column).Plus(Term(book, rows, chain, n - 1, skip, column))
  }

  function Total(book: Book, rows: Rows, chain: Chain, column: Column): Fill {
    Sum(book, rows, chain, |book|, NONE, column)
  }

  function Others(book: Book, rows: Rows, chain: Chain, i: int, column: Column): Fill {
    Sum(book, rows, chain, |book|, i, column)
  }

  lemma {:induction false} SumCongruent(
      book: Book, rows: Rows, skip: int, column: Column,
      book': Book, rows': Rows, skip': int, column': Column, chain: Chain, n: nat)
    requires n <= |book| && n <= |book'|
    requires forall j :: 0 <= j < n ==>
      Term(book, rows, chain, j, skip, column) == Term(book', rows', chain, j, skip', column')
    ensures Sum(book, rows, chain, n, skip, column) == Sum(book', rows', chain, n, skip', column')
  {
    if n > 0 {
      SumCongruent(book, rows, skip, column, book', rows', skip', column', chain, n - 1);
    }
  }

  lemma {:induction false} SumLots(
      book: Book, rows: Rows, skip: int, column: Column, column': Column, chain: Chain, n: nat)
    requires n <= |book|
    requires forall j :: 0 <= j < n ==>
      Term(book, rows, chain, j, skip, column).lots <= Term(book, rows, chain, j, skip, column').lots
    ensures Sum(book, rows, chain, n, skip, column).lots <= Sum(book, rows, chain, n, skip, column').lots
  {
    if n > 0 {
      SumLots(book, rows, skip, column, column', chain, n - 1);
    }
  }

  /** Taking one order of the chain out of the sum takes out exactly its part. */
  lemma {:induction false} SumSplit(book: Book, rows: Rows, chain: Chain, n: nat, i: nat, column: Column)
    requires i < n <= |book| && ChainOf(book[i].client) == chain
    ensures Sum(book, rows, chain, n, NONE, column) ==
            Sum(book, rows, chain, n, i, column).Plus(Part(book, rows, i, column))
  {
    if n - 1 == i {
      SumCongruent(book, rows, NONE, column, book, rows, i, column, chain, i);
    } else {
      SumSplit(book, rows, chain, n - 1, i, column);
    }
  }

  // ---------------------------------------------------------------- what the engine maintains

  /** No client order id was posted twice, and every posted one has a row. */
  ghost predicate PostedOnce(book: Book, rows: Rows) {
    && (forall j :: 0 <= j < |book| ==> book[j].client in rows)
    && (forall j, k :: 0 <= j < |book| && 0 <= k < |book| && book[j].client == book[k].client ==> j == k)
  }

  ghost predicate OneLive(book: Book, chain: Chain) {
    forall j, k | 0 <= j < |book| && 0 <= k < |book|
      && ChainOf(book[j].client) == chain && ChainOf(book[k].client) == chain
      && !IsTerminal(book[j].status) && !IsTerminal(book[k].status) :: j == k
  }

  /** The chain can never execute more than the ordered lots plus what acknowledgements hid. */
  ghost predicate WithinOrder(book: Book, rows: Rows, chain: Chain, quantity: int) {
    && AllSound(book)
    && OneLive(book, chain)
    && Total(book, rows, chain, Capacity).lots <= quantity + Total(book, rows, chain, Missed).lots
  }

  /** The aggregate, with what acknowledgements hid added back, is the sum of the last-seen fills. */
  ghost predicate Conserved(book: Book, rows: Rows, chain: Chain, fill: Fill) {
    fill.Plus(Total(book, rows, chain, Missed)) == Total(book, rows, chain, Seen)
  }

  ghost predicate SameTerms(row: Order, order: Order) {
    row.client == order.client && row.broker == order.broker && row.quantity == order.quantity
    && row.limit == order.limit && row.created == order.created && FillOf(row) == FillOf(order)
  }

  /** Every order of the chain but number i is finished and its row has seen all of its lots. */
  ghost predicate RestFinished(book: Book, rows: Rows, chain: Chain, i: int) {
    forall j :: 0 <= j < |book| && j != i && ChainOf(book[j].client) == chain ==>
      IsTerminal(book[j].status) && Recorded(book, rows, j) && rows[book[j].client].filled == book[j].filled
  }

  /** Among the chain's rows `id` is the latest attempt, and only its row may still be active. */
  ghost predicate Latest(rows: Rows, id: ClientId) {
    forall c :: c in rows && ChainOf(c) == ChainOf(id) ==>
      rows[c].client == c && c.attempt <= id.attempt && (c != id ==> IsTerminal(rows[c].status))
  }

  /** `current` is the chain's latest order, as last refreshed, of a chain opened for `quantity`
      lots whose aggregate so far is `fill`. */
  ghost predicate Tracks(book: Book, rows: Rows, current: Order, quantity: int, fill: Fill) {
    && AllSound(book) && PostedOnce(book, rows) && Latest(rows, current.client)
    && current.client.attempt >= 1
    && current.broker.Id? && current.broker.number < |book|
    && var i := current.broker.number;
       var chain := ChainOf(current.client);
    && book[i].client == current.client && book[i].quantity == current.quantity
    && SameTerms(rows[current.client], current)
    && 0 <= current.filled && 0 <= fill.lots && Advances(FillOf(current), book[i].Done())
    && RestFinished(book, rows, chain, i)
    && Conserved(book, rows, chain, fill)
    && Others(book, rows, chain, i, Seen).lots + current.quantity
       == quantity + Others(book, rows, chain, i, Missed).lots
  }

  // ---------------------------------------------------------------- chains side by side

  /** What is done for one chain: the broker moves as it may, new orders are of this chain, and the rows
      of every other chain are left alone. */
  ghost predicate Isolated(book: Book, rows: Rows, book': Book, rows': Rows, chain: Chain) {
    && Evolved(book, book') && AllSound(book') && PostedOnce(book', rows')
    && (forall j :: |book| <= j < |book'| ==> ChainOf(book'[j].client) == chain)
    && (forall c :: ChainOf(c) != chain ==> (c in rows' <==> c in rows))
    && (forall c :: ChainOf(c) != chain && c in rows ==> rows'[c] == rows[c])
  }

  lemma IsolatedReflexive(book: Book, rows: Rows, chain: Chain)
    requires AllSound(book) && PostedOnce(book, rows)
    ensures Isolated(book, rows, book, rows, chain)
  {
    EvolvedReflexive(book);
  }

  lemma IsolatedTransitive(a: Book, rowsA: Rows, b: Book, rowsB: Rows, c: Book, rowsC: Rows, chain: Chain)
    requires Isolated(a, rowsA, b, rowsB, chain) && Isolated(b, rowsB, c, rowsC, chain)
    ensures Isolated(a, rowsA, c, rowsC, chain) && Evolved(a, c)
  {
    EvolvedTransitive(a, b, c);
    forall j | |a| <= j < |c| ensures ChainOf(c[j].client) == chain {
      if j < |b| {
        assert Honours(b[j], c[j]);
      }
    }
  }

  /** One row of the chain was written while the broker moved. */
  lemma RowIsolated(book: Book, rows: Rows, book': Book, rows': Rows, id: ClientId, chain: Chain)
    requires Evolved(book, book') && |book'| == |book| && AllSound(book') && PostedOnce(book, rows)
    requires rows' == rows || (id in rows' && rows' == rows[id := rows'[id]])
    requires ChainOf(id) == chain
    ensures Isolated(book, rows, book', rows', chain)
  {
    forall j | 0 <= j < |book| ensures book'[j].client == book[j].client {
      assert Honours(book[j], book'[j]);
    }
  }

  /** Whatever is done for one chain, every other chain that was tracked stays tracked. */
  lemma OtherChainsStayTracked(book: Book, rows: Rows, book': Book, rows': Rows, chain: Chain, other: Order,
      quantity: int, fill: Fill)
    requires Isolated(book, rows, book', rows', chain)
    requires Tracks(book, rows, other, quantity, fill) && ChainOf(other.client) != chain
    ensures Tracks(book', rows', other, quantity, fill)
  {
    var before, mine := book'[..|book|], ChainOf(other.client);
    forall j | 0 <= j < |book| ensures Honours(book[j], before[j]) {}
    BrokerMoveKeeps(book, before, rows, other, quantity, fill);
    var i := other.broker.number;
    OtherSums(before, rows, book', rows', mine, NONE, Missed);
    OtherSums(before, rows, book', rows', mine, NONE, Seen);
    OtherSums(before, rows, book', rows', mine, i, Missed);
    OtherSums(before, rows, book', rows', mine, i, Seen);
  }

  lemma OtherSums(book: Book, rows: Rows, book': Book, rows': Rows, mine: Chain, skip: int, column: Column)
    requires |book| <= |book'| && book'[..|book|] == book
    requires forall j :: |book| <= j < |book'| ==> ChainOf(book'[j].client) != mine
    requires forall c :: ChainOf(c) == mine ==> (c in rows' <==> c in rows) && (c in rows ==> rows'[c] == rows[c])
    ensures Sum(book', rows', mine, |book'|, skip, column) == Sum(book, rows, mine, |book|, skip, column)
  {
    forall j | 0 <= j < |book| ensures book'[j] == book[j] {}
    SumCongruent(book', rows', skip, column, book, rows, skip, column, mine, |book|);
    SumOfNone(book', rows', mine, |book|, |book'|, skip, column);
  }

  lemma {:induction false} SumOfNone(book: Book, rows: Rows, chain: Chain, m: nat, n: nat, skip: int, column: Column)
    requires m <= n <= |book| && forall j :: m <= j < n ==> ChainOf(book[j].client) != chain
    ensures Sum(book, rows, chain, n, skip, column) == Sum(book, rows, chain, m, skip, column)
  {
    hide Part, Fill.Plus;
    if m < n {
      SumOfNone(book, rows, chain, m, n - 1, skip, column);
      PlusNothing(Sum(book, rows, chain, n - 1, skip, column));
    }
  }

  lemma PlusNothing(fill: Fill)
    ensures fill.Plus(ZERO) == fill
  {
  }

  // ---------------------------------------------------------------- consequences

  /** At most one order of a tracked chain is live, and the chain's capacity fits the order. */
  lemma TrackedWithinOrder(book: Book, rows: Rows, current: Order, quantity: int, fill: Fill)
    requires Tracks(book, rows, current, quantity, fill)
    ensures WithinOrder(book, rows, ChainOf(current.client), quantity)
    ensures Conserved(book, rows, ChainOf(current.client), fill)
    ensures current.client in rows && SameTerms(rows[current.client], current)
    ensures 0 <= current.filled && 0 <= fill.lots && 1 <= current.client.attempt
    ensures AllSound(book) && PostedOnce(book, rows) && current.broker.Id? && current.broker.number < |book|
  {
    var i, chain := current.broker.number, ChainOf(current.client);
    SumSplit(book, rows, chain, |book|, i, Capacity);
    SumSplit(book, rows, chain, |book|, i, Missed);
    SumLots(book, rows, i, Capacity, Seen, chain, |book|);
  }

  /** The lots still to be ordered: what the latest order has left, plus what its own
      acknowledgement hid if it was itself a replacement. */
  lemma RemainingLots(book: Book, rows: Rows, current: Order, quantity: int, fill: Fill)
    requires Tracks(book, rows, current, quantity, fill)
    ensures var i := current.broker.number;
            quantity - fill.lots == current.quantity - current.filled + Part(book, rows, i, Missed).lots
    ensures fill.lots <= quantity
  {
    var i, chain := current.broker.number, ChainOf(current.client);
    SumSplit(book, rows, chain, |book|, i, Seen);
    SumSplit(book, rows, chain, |book|, i, Missed);
  }

  /** Whatever a contract-honouring broker does next to the orders it already holds, a chain that
      fits its order keeps fitting it and executes no more than that. */
  lemma NeverOverExecutes(book: Book, later: Book, rows: Rows, chain: Chain, quantity: int)
    requires WithinOrder(book, rows, chain, quantity) && Evolved(book, later) && |later| == |book|
    ensures WithinOrder(later, rows, chain, quantity)
    ensures Total(later, rows, chain, Executed).lots <= quantity + Total(later, rows, chain, Missed).lots
  {
    forall j | 0 <= j < |book|
      ensures Term(later, rows, chain, j, NONE, Missed) == Term(book, rows, chain, j, NONE, Missed)
      ensures Term(later, rows, chain, j, NONE, Capacity).lots <= Term(book, rows, chain, j, NONE, Capacity).lots
      ensures Term(later, rows, chain, j, NONE, Executed).lots <= Term(later, rows, chain, j, NONE, Capacity).lots
    {
      assert Honours(book[j], later[j]);
    }
    SumCongruent(later, rows, NONE, Missed, book, rows, NONE, Missed, chain, |book|);
    CapacityShrinks(book, later, rows, chain, |book|);
    SumLots(later, rows, NONE, Executed, Capacity, chain, |book|);
  }

  lemma {:induction false} CapacityShrinks(book: Book, later: Book, rows: Rows, chain: Chain, n: nat)
    requires n <= |book| && Evolved(book, later)
    ensures Sum(later, rows, chain, n, NONE, Capacity).lots <= Sum(book, rows, chain, n, NONE, Capacity).lots
  {
    if n > 0 {
      CapacityShrinks(book, later, rows, chain, n - 1);
      assert Honours(book[n - 1], later[n - 1]);
    }
  }

  // ---------------------------------------------------------------- steps that keep a chain tracked

  /** The broker moves: nothing the engine believes about the chain is invalidated. */
  lemma BrokerMoveKeeps(book: Book, later: Book, rows: Rows, current: Order, quantity: int, fill: Fill)
    requires Tracks(book, rows, current, quantity, fill)
    requires Evolved(book, later) && |later| == |book|
    ensures Tracks(later, rows, current, quantity, fill)
  {
    var i, chain := current.broker.number, ChainOf(current.client);
    forall j | 0 <= j < |book| ensures Honours(book[j], later[j]) {}
    SumCongruent(later, rows, NONE, Missed, book, rows, NONE, Missed, chain, |book|);
    SumCongruent(later, rows, NONE, Seen, book, rows, NONE, Seen, chain, |book|);
    SumCongruent(later, rows, i, Missed, book, rows, i, Missed, chain, |book|);
    SumCongruent(later, rows, i, Seen, book, rows, i, Seen, chain, |book|);
  }

  /** The current order's row is overwritten by an observation `state` of the same order. */
  lemma ObservationKeeps(book: Book, rows: Rows, current: Order, state: Order, row: Order, quantity: int, fill: Fill)
    requires Tracks(book, rows, current, quantity, fill)
    requires SameTerms(row, state)
    requires state.client == current.client && state.broker == current.broker && state.quantity == current.quantity
    requires FillOf(state) == book[current.broker.number].Done() || FillOf(state) == FillOf(current)
    ensures Tracks(book, rows[state.client := row], state, quantity, fill.Plus(FillOf(state).Minus(FillOf(current))))
    ensures Advances(FillOf(current), FillOf(state))
  {
    var i, chain := current.broker.number, ChainOf(current.client);
    var rows' := rows[state.client := row];
    forall j | 0 <= j < |book| && j != i ensures book[j].client != current.client {}
    SumCongruent(book, rows, i, Missed, book, rows', i, Missed, chain, |book|);
    SumCongruent(book, rows, i, Seen, book, rows', i, Seen, chain, |book|);
    SumSplit(book, rows, chain, |book|, i, Seen);
    SumSplit(book, rows', chain, |book|, i, Seen);
    SumSplit(book, rows, chain, |book|, i, Missed);
    SumSplit(book, rows', chain, |book|, i, Missed);
  }

  /** A replacement for exactly the lots still missing joins a chain whose latest order is finished. */
  lemma ReplacementKeeps(book: Book, rows: Rows, current: Order, posted: Order, order: BrokerOrder, quantity: int,
      fill: Fill)
    requires Tracks(book, rows, current, quantity, fill)
    requires IsTerminal(book[current.broker.number].status)
    requires current.filled == book[current.broker.number].filled && IsTerminal(rows[current.client].status)
    requires order.Sound() && order.ack == order.Done() && order.client == posted.client
      && order.quantity == posted.quantity
    requires posted.client == current.client.(attempt := current.client.attempt + 1)
    requires posted.broker == Id(|book|) && FillOf(posted) == order.Done()
    requires posted.quantity == quantity - fill.lots
    ensures Tracks(book + [order], rows[posted.client := posted], posted, quantity, fill)
  {
    hide Sum, Part, Fill.Plus;
    var n, chain := |book|, ChainOf(current.client);
    var book', rows' := book + [order], rows[posted.client := posted];
    assert posted.client !in rows;
    forall j | 0 <= j < n ensures book'[j] == book[j] && book[j].client != posted.client {}
    JoinedSum(book, rows, order, posted, chain, Missed);
    JoinedSum(book, rows, order, posted, chain, Seen);
    assert FillOf(posted) == order.Done();
    NewcomerFits(book, rows, current, order, posted, quantity, fill);
  }

  /** A new order adds its own part to the sums, and nothing to those that skip it. */
  lemma JoinedSum(book: Book, rows: Rows, order: BrokerOrder, posted: Order, chain: Chain, column: Column)
    requires column.Missed? || column.Seen?
    requires order.client == posted.client && posted.client !in rows && ChainOf(posted.client) == chain
    requires posted.broker == Id(|book|) && forall j :: 0 <= j < |book| ==> book[j].client in rows
    ensures
      var book', rows' := book + [order], rows[posted.client := posted];
      && Total(book', rows', chain, column) == Total(book, rows, chain, column).Plus(Part(book', rows', |book|, column))
      && Others(book', rows', chain, |book|, column) == Total(book, rows, chain, column)
  {
    hide Fill.Plus;
    var n, book', rows' := |book|, book + [order], rows[posted.client := posted];
    forall j | 0 <= j < n ensures book'[j] == book[j] && book[j].client != posted.client {}
    SumCongruent(book, rows, NONE, column, book', rows', NONE, column, chain, n);
    SumCongruent(book, rows, NONE, column, book', rows', n, column, chain, n);
    PlusNothing(Total(book, rows, chain, column));
  }

  lemma NewcomerFits(book: Book, rows: Rows, current: Order, order: BrokerOrder, posted: Order, quantity: int,
      fill: Fill)
    requires Conserved(book, rows, ChainOf(current.client), fill) && FillOf(posted) == order.Done() == order.ack
    requires posted.client == current.client.(attempt := current.client.attempt + 1) && 1 <= current.client.attempt
    requires posted.broker == Id(|book|) && order.client == posted.client && posted.quantity == quantity - fill.lots
    ensures
      var book', rows' := book + [order], rows[posted.client := posted];
      && Part(book', rows', |book|, Missed) == order.ack && Part(book', rows', |book|, Seen) == order.ack
      && Total(book, rows, ChainOf(current.client), Seen).lots + posted.quantity
         == quantity + Total(book, rows, ChainOf(current.client), Missed).lots
      && fill.Plus(Total(book, rows, ChainOf(current.client), Missed).Plus(order.ack))
         == Total(book, rows, ChainOf(current.client), Seen).Plus(order.ack)
  {
    hide Sum;
  }

  /** A replacement whose acknowledgement never reached the store: its draft row has no broker
      number, so nothing is counted for it, and the chain still fits its order. */
  lemma UnrecordedReplacement(book: Book, rows: Rows, current: Order, draft: Order, order: BrokerOrder, quantity: int,
      fill: Fill)
    requires Tracks(book, rows, current, quantity, fill)
    requires IsTerminal(book[current.broker.number].status)
    requires current.filled == book[current.broker.number].filled
    requires order.Sound() && order.client == draft.client && order.quantity == quantity - fill.lots
    requires draft.client == current.client.(attempt := current.client.attempt + 1)
    requires draft.broker == NoId
    ensures WithinOrder(book + [order], rows[draft.client := draft], ChainOf(current.client), quantity)
    ensures Conserved(book + [order], rows[draft.client := draft], ChainOf(current.client), fill)
  {
    var n, i, chain := |book|, current.broker.number, ChainOf(current.client);
    var book', rows' := book + [order], rows[draft.client := draft];
    assert draft.client !in rows;
    forall j | 0 <= j < n ensures book'[j] == book[j] && book[j].client != draft.client {}
    SumCongruent(book, rows, NONE, Missed, book', rows', NONE, Missed, chain, n);
    SumCongruent(book, rows, NONE, Seen, book', rows', NONE, Seen, chain, n);
    SumLots(book', rows', NONE, Capacity, Seen, chain, n);
  }

  /** A draft row that was never posted changes nothing. */
  lemma DraftRowKeeps(book: Book, rows: Rows, draft: Order, chain: Chain, quantity: int, fill: Fill)
    requires PostedOnce(book, rows) && draft.client !in rows
    requires WithinOrder(book, rows, chain, quantity) && Conserved(book, rows, chain, fill)
    ensures WithinOrder(book, rows[draft.client := draft], chain, quantity)
    ensures Conserved(book, rows[draft.client := draft], chain, fill)
  {
    var rows' := rows[draft.client := draft];
    SumCongruent(book, rows, NONE, Missed, book, rows', NONE, Missed, chain, |book|);
    SumCongruent(book, rows, NONE, Seen, book, rows', NONE, Seen, chain, |book|);
    SumCongruent(book, rows, NONE, Capacity, book, rows', NONE, Capacity, chain, |book|);
  }

  /** Status and raw state of any row may be rewritten freely: nothing is counted from them. */
  lemma RowTouchKeeps(book: Book, rows: Rows, row: Order, chain: Chain)
    requires row.client in rows && SameTerms(rows[row.client], row)
    ensures var rows' := rows[row.client := row];
            && Total(book, rows', chain, Seen) == Total(book, rows, chain, Seen)
            && Total(book, rows', chain, Missed) == Total(book, rows, chain, Missed)
            && Total(book, rows', chain, Capacity) == Total(book, rows, chain, Capacity)
            && forall i :: Others(book, rows', chain, i, Seen) == Others(book, rows, chain, i, Seen)
                        && Others(book, rows', chain, i, Missed) == Others(book, rows, chain, i, Missed)
  {
    var rows' := rows[row.client := row];
    SumCongruent(book, rows', NONE, Seen, book, rows, NONE, Seen, chain, |book|);
    SumCongruent(book, rows', NONE, Missed, book, rows, NONE, Missed, chain, |book|);
    SumCongruent(book, rows', NONE, Capacity, book, rows, NONE, Capacity, chain, |book|);
    forall i
      ensures Others(book, rows', chain, i, Seen) == Others(book, rows, chain, i, Seen)
           && Others(book, rows', chain, i, Missed) == Others(book, rows, chain, i, Missed)
    {
      SumCongruent(book, rows', i, Seen, book, rows, i, Seen, chain, |book|);
      SumCongruent(book, rows', i, Missed, book, rows, i, Missed, chain, |book|);
    }
  }

  lemma TrackedRowTouched(book: Book, rows: Rows, row: Order, current: Order, quantity: int, fill: Fill)
    requires row.client in rows && SameTerms(rows[row.client], row)
    requires Tracks(book, rows, current, quantity, fill)
    requires row.client == current.client || IsTerminal(row.status)
    ensures Tracks(book, rows[row.client := row], current, quantity, fill)
  {
    RowTouchKeeps(book, rows, row, ChainOf(current.client));
  }

  lemma Restated(book: Book, rows: Rows, current: Order, restated: Order, quantity: int, fill: Fill)
    requires Tracks(book, rows, current, quantity, fill) && SameTerms(current, restated)
      && restated.filled == current.filled
    ensures Tracks(book, rows, restated, quantity, fill)
  {
  }

  lemma SafeRowTouched(book: Book, rows: Rows, row: Order, chain: Chain, quantity: int, fill: Fill)
    requires row.client in rows && SameTerms(rows[row.client], row)
    requires WithinOrder(book, rows, chain, quantity) && Conserved(book, rows, chain, fill)
    ensures WithinOrder(book, rows[row.client := row], chain, quantity)
    ensures Conserved(book, rows[row.client := row], chain, fill)
  {
    RowTouchKeeps(book, rows, row, chain);
  }
}
