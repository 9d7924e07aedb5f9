/** How many lots a cancel/replace chain can execute at the broker. The engine orders what its
    aggregate is missing, and the aggregate never learns of lots that were already executed when a
    replacement was acknowledged: exactly those can be executed twice. */
module OverExecution {
  import opened Arithmetic
  import opened RawState
  import opened Domain
  import opened Fills
  import opened Ledger

  /** The order completely filled, at whatever price makes its value grow. */
  function FilledUp(order: BrokerOrder): BrokerOrder
    requires order.Sound()
  {
    if order.filled >= order.quantity then order
    else order.(filled := order.quantity, avg := (order.Done().value + 1.0) / order.quantity as real)
  }

  lemma FilledUpIsAllowed(order: BrokerOrder)
    requires order.Sound() && !IsTerminal(order.status)
    ensures Honours(order, FilledUp(order)) && FilledUp(order).filled == order.quantity
  {
    if order.filled < order.quantity {
      QuotientTimes(order.Done().value + 1.0, order.quantity);
    }
  }

  /** What the broker can bring a chain to whose latest order it still works on. */
  lemma WorstCase(book: Book, rows: Rows, current: Order, quantity: int, fill: Fill)
    requires Tracks(book, rows, current, quantity, fill)
    requires !IsTerminal(book[current.broker.number].status)
    ensures
      var i, chain := current.broker.number, ChainOf(current.client);
      var later := book[i := FilledUp(book[i])];
      && Evolved(book, later)
      && Total(later, rows, chain, Executed).lots == quantity + Others(book, rows, chain, i, Missed).lots
  {
    var i, chain := current.broker.number, ChainOf(current.client);
    var later := book[i := FilledUp(book[i])];
    FilledUpIsAllowed(book[i]);
    SumSplit(later, rows, chain, |book|, i, Executed);
    OthersAreFrozen(book, later, rows, i, chain, |book|);
  }

  lemma {:induction false} MissedIsNatural(book: Book, rows: Rows, chain: Chain, n: nat, skip: int)
    requires AllSound(book) && n <= |book|
    ensures Sum(book, rows, chain, n, skip, Missed).lots >= 0
  {
    if n > 0 {
      MissedIsNatural(book, rows, chain, n - 1, skip);
    }
  }

  /** A chain whose latest order is still live can never execute more than was ordered if and only
      if none of its replacements before the latest had executed anything when it was acknowledged. */
  lemma NeverMoreThanOrderedIff(book: Book, rows: Rows, current: Order, quantity: int, fill: Fill)
    requires Tracks(book, rows, current, quantity, fill)
    requires !IsTerminal(book[current.broker.number].status)
    ensures
      var chain := ChainOf(current.client);
      (forall later :: Evolved(book, later) && |later| == |book| ==>
         Total(later, rows, chain, Executed).lots <= quantity)
      <==> Others(book, rows, chain, current.broker.number, Missed).lots == 0
  {
    var i, chain := current.broker.number, ChainOf(current.client);
    WorstCase(book, rows, current, quantity, fill);
    MissedIsNatural(book, rows, chain, |book|, i);
    if Others(book, rows, chain, i, Missed).lots == 0 {
      forall later | Evolved(book, later) && |later| == |book|
        ensures Total(later, rows, chain, Executed).lots <= quantity
      {
        AtMostCapacity(book, later, rows, current, quantity, fill);
      }
    }
  }

  lemma AtMostCapacity(book: Book, later: Book, rows: Rows, current: Order, quantity: int, fill: Fill)
    requires Tracks(book, rows, current, quantity, fill) && Evolved(book, later) && |later| == |book|
    ensures var chain := ChainOf(current.client);
            Total(later, rows, chain, Executed).lots <=
              quantity + Others(book, rows, chain, current.broker.number, Missed).lots
  {
    var i, chain := current.broker.number, ChainOf(current.client);
    assert Honours(book[i], later[i]);
    SumSplit(later, rows, chain, |book|, i, Executed);
    OthersAreFrozen(book, later, rows, i, chain, |book|);
  }

  lemma {:induction false} OthersAreFrozen(book: Book, later: Book, rows: Rows, i: nat, chain: Chain, n: nat)
    requires n <= |book| == |later| && i < |book| && Evolved(book, later)
    requires RestFinished(book, rows, chain, i)
    ensures Sum(later, rows, chain, n, i, Executed).lots == Sum(book, rows, chain, n, i, Seen).lots
  {
    if n > 0 {
      OthersAreFrozen(book, later, rows, i, chain, n - 1);
      assert Honours(book[n - 1], later[n - 1]);
    }
  }

  // ---------------------------------------------------------------- a broker that acknowledges without lots

  ghost predicate AcknowledgesNothing(book: Book, chain: Chain) {
    forall j :: 0 <= j < |book| && ChainOf(book[j].client) == chain ==> book[j].ack.lots == 0
  }

  lemma {:induction false} NothingMissed(book: Book, rows: Rows, chain: Chain, n: nat, skip: int)
    requires n <= |book| && AcknowledgesNothing(book, chain)
    ensures Sum(book, rows, chain, n, skip, Missed).lots == 0
  {
    if n > 0 {
      NothingMissed(book, rows, chain, n - 1, skip);
    }
  }

  /** Where no acknowledgement carries lots, as with the paper broker, a chain that fits its order, as it
      does at every return of the engine, never executes more than was ordered. */
  lemma NeverMoreThanOrdered(book: Book, later: Book, rows: Rows, chain: Chain, quantity: int)
    requires WithinOrder(book, rows, chain, quantity) && AcknowledgesNothing(book, chain)
    requires Evolved(book, later) && |later| == |book|
    ensures Total(later, rows, chain, Executed).lots <= quantity
  {
    NeverOverExecutes(book, later, rows, chain, quantity);
    forall j | 0 <= j < |book| && ChainOf(later[j].client) == chain ensures later[j].ack.lots == 0 {
      assert Honours(book[j], later[j]);
    }
    NothingMissed(later, rows, chain, |later|, NONE);
  }
}
