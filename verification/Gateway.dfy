/** The parties the execution engine talks to: an adversarial broker bound only by its contract, the
    durable store, and a clock that never goes back. */
module Gateway {
  import opened RawState
  import opened Domain
  import opened Ledger

  class Broker {
    var book: Book

    /** The orders the broker was asked to cancel, and those whose state it was asked for, whatever it
        answered. */
    ghost var asked: set<BrokerId>
    ghost var looked: set<BrokerId>

    /** Everything it was heard to answer, in order. Refusals and answers lost on the way are not heard. */
    ghost var heard: seq<Event>

    /** Between two calls anything the contract allows may happen to any order. */
    method Move()
      requires AllSound(book)
      modifies this
      ensures Evolved(old(book), book) && |book| == |old(book)| && AllSound(book)
      ensures asked == old(asked) && looked == old(looked) && heard == old(heard)
    {
      EvolvedReflexive(book);
      var next: Book := *;
      if |next| == |book| && Evolved(book, next) {
        book := next;
      }
    }

    /** A post may be refused, accepted, or accepted with the answer lost on the way. */
    method PostLimitOrder(client: ClientId, quantity: int, limit: real) returns (ack: Option<Report>)
      requires AllSound(book)
      modifies this
      ensures AllSound(book) && asked == old(asked) && looked == old(looked)
      ensures |book| <= |old(book)| + 1 && Evolved(old(book), book)
      ensures |book| == |old(book)| + 1 ==>
        var posted := book[|old(book)|];
        posted.client == client && posted.limit == limit && posted.quantity == quantity && posted.ack == posted.Done()
      ensures ack.Some? ==> |book| == |old(book)| + 1 && Reports(ack.value, |old(book)|)
      ensures heard ==
              old(heard) + if ack.Some? then [PostAnswered(Ack(client, quantity, limit, ack.value))] else []
    {
      Move();
      var order: BrokerOrder := *;
      var refused, lost: bool := *, *;
      var matching := order.client == client && order.limit == limit && order.quantity == quantity;
      if refused || !(order.Sound() && matching && order.ack == order.Done()) {
        return None;
      }
      book := book + [order];
      if lost {
        return None;
      }
      var raw: Raw := *;
      ack := Some(Report(Id(|book| - 1), order.filled, order.avg, order.status, order.commission, raw));
      heard := heard + [PostAnswered(Ack(client, quantity, limit, ack.value))];
    }

    /** Acceptance of a cancel promises nothing about when, or how full, the order ends. */
    method CancelOrder(id: BrokerId) returns (ok: bool)
      requires AllSound(book)
      modifies this
      ensures AllSound(book) && Evolved(old(book), book) && |book| == |old(book)|
      ensures asked == old(asked) + {id} && looked == old(looked) && (ok ==> id.Id? && id.number < |book|)
      ensures heard == old(heard) + if ok then [CancelAnswered(id)] else []
    {
      Move();
      asked := asked + {id};
      ok := *;
      ok := ok && id.Id? && id.number < |book|;
      heard := heard + if ok then [CancelAnswered(id)] else [];
    }

    method GetOrderState(id: BrokerId) returns (state: Option<Report>)
      requires AllSound(book)
      modifies this
      ensures AllSound(book) && Evolved(old(book), book) && |book| == |old(book)|
      ensures asked == old(asked) && looked == old(looked) + {id}
      ensures state.Some? ==> id.Id? && id.number < |book| && Reports(state.value, id.number)
      ensures heard == old(heard) + if state.Some? then [StateAnswered(state.value)] else []
    {
      Move();
      looked := looked + {id};
      var failed: bool := *;
      if failed || id.NoId? || id.number >= |book| {
        return None;
      }
      var raw: Raw := *;
      var order := book[id.number];
      state := Some(Report(id, order.filled, order.avg, order.status, order.commission, raw));
      heard := heard + [StateAnswered(state.value)];
    }

    ghost predicate Reports(report: Report, i: nat)
      reads this
      requires i < |book|
    {
      && report.broker == Id(i) && report.status == book[i].status
      && report.filled == book[i].filled && report.avg == book[i].avg && report.commission == book[i].commission
    }
  }

  // ---------------------------------------------------------------- the durable store

  type Counters = map<(int, string), int>

  function CounterOf(id: ClientId): (int, string) {
    (id.date, id.instrument)
  }

  function SentToday(sent: Counters, id: ClientId): int {
    if CounterOf(id) in sent then sent[CounterOf(id)] else 0
  }

  function Incremented(sent: Counters, id: ClientId, delta: int): Counters {
    sent[CounterOf(id) := SentToday(sent, id) + delta]
  }

  /** A second write of the same client order id leaves the terms of the row as they were. */
  function Upserted(rows: Rows, order: Order): Order {
    if order.client in rows then
      rows[order.client].(broker := order.broker, filled := order.filled, avg := order.avg,
                          status := order.status, commission := order.commission, raw := order.raw)
    else order
  }

  function AsCancelled(row: Order, order: Order): Order {
    row.(status := Cancelled, filled := order.filled, raw := order.raw)
  }

  datatype Reservation = Reserved | Insufficient | Unavailable

  /** The counter of this order's instrument and day moved by n, and no other counter moved. */
  ghost predicate Counted(sent: Counters, sent': Counters, id: ClientId, n: int) {
    forall other: ClientId ::
      SentToday(sent', other)
      == SentToday(sent, other) + if other.date == id.date && other.instrument == id.instrument then n else 0
  }

  /** Row semantics of the store. Each call is one transaction: it may fail, and then does nothing. */
  class Store {
    var rows: Rows
    var sent: Counters

    /** How many of its calls have failed. */
    ghost var failures: nat

    /** Reading the day's orders may fail as well. */
    method ListOrders() returns (ok: bool)
      modifies this
      ensures rows == old(rows) && sent == old(sent) && failures == old(failures) + if ok then 0 else 1
    {
      ok := *;
      failures := failures + if ok then 0 else 1;
    }

    method UpsertOrder(order: Order) returns (ok: bool)
      modifies this
      ensures sent == old(sent) && failures == old(failures) + if ok then 0 else 1
      ensures rows == if ok then old(rows)[order.client := Upserted(old(rows), order)] else old(rows)
    {
      ok := *;
      failures := failures + if ok then 0 else 1;
      if ok {
        rows := rows[order.client := Upserted(rows, order)];
      }
    }

    method UpdateOrderStatus(id: ClientId, status: Status, filled: int, raw: Raw) returns (ok: bool)
      modifies this
      ensures sent == old(sent) && failures == old(failures) + if ok then 0 else 1
      ensures rows == if ok && id in old(rows) then
                        old(rows)[id := old(rows)[id].(status := status, filled := filled, raw := raw)]
                      else old(rows)
    {
      ok := *;
      failures := failures + if ok then 0 else 1;
      if ok && id in rows {
        rows := rows[id := rows[id].(status := status, filled := filled, raw := raw)];
      }
    }

    /** The draft row and the reservation of one free order are written together or not at all. */
    method DraftAndReserve(draft: Order, required: int, limit: int) returns (outcome: Reservation)
      modifies this
      ensures outcome.Reserved? ==>
        && (limit > 0 ==> SentToday(old(sent), draft.client) + 1 <= limit)
        && (limit > 0 ==> SentToday(old(sent), draft.client) + required <= limit)
        && rows == old(rows)[draft.client := Upserted(old(rows), draft)]
        && sent == Incremented(old(sent), draft.client, 1)
      ensures !outcome.Reserved? ==> rows == old(rows) && sent == old(sent)
      ensures outcome.Insufficient? ==>
        limit > 0 && limit - SentToday(old(sent), draft.client) < (if required < 1 then 1 else required)
      ensures failures == old(failures) + if outcome.Unavailable? then 1 else 0
    {
      var available: bool := *;
      if !available {
        failures := failures + 1;
        return Unavailable;
      }
      var needed := if required < 1 then 1 else required;
      if limit > 0 && limit - SentToday(sent, draft.client) < needed {
        return Insufficient;
      }
      rows := rows[draft.client := Upserted(rows, draft)];
      sent := Incremented(sent, draft.client, 1);
      outcome := Reserved;
    }

    /** A refused post: the row is marked failed and the reservation given back, together. */
    method FailAndRelease(failed: Order) returns (ok: bool)
      modifies this
      ensures rows == if ok then old(rows)[failed.client := Upserted(old(rows), failed)] else old(rows)
      ensures sent == if ok then Incremented(old(sent), failed.client, -1) else old(sent)
      ensures failures == old(failures) + if ok then 0 else 1
    {
      ok := *;
      failures := failures + if ok then 0 else 1;
      if ok {
        rows := rows[failed.client := Upserted(rows, failed)];
        sent := Incremented(sent, failed.client, -1);
      }
    }

    /** An accepted cancel: the row is marked cancelled and, if cancels are counted, counted. */
    method CancelAndCount(order: Order, counted: bool) returns (ok: bool)
      modifies this
      ensures rows == if ok && order.client in old(rows) then
                        old(rows)[order.client := AsCancelled(old(rows)[order.client], order)]
                      else old(rows)
      ensures sent == if ok && counted then Incremented(old(sent), order.client, 1) else old(sent)
      ensures failures == old(failures) + if ok then 0 else 1
    {
      ok := *;
      failures := failures + if ok then 0 else 1;
      if ok && order.client in rows {
        rows := rows[order.client := AsCancelled(rows[order.client], order)];
      }
      if ok && counted {
        sent := Incremented(sent, order.client, 1);
      }
    }
  }

  /** The deadline, if there is one, has come. */
  predicate Due(deadline: Option<int>, time: int) {
    deadline.Some? && deadline.value <= time
  }

  /** `patience` is how many more sleeps and quotes the context survives: no process goes on for ever. */
  class Clock {
    var time: int
    var patience: nat

    /** How many reposts the caller's own check has turned down. */
    ghost var declined: nat

    /** How often market data was asked for. */
    ghost var quotesAsked: nat

    method Now() returns (now: int)
      modifies this
      ensures old(time) <= time == now && patience == old(patience) && declined == old(declined)
        && quotesAsked == old(quotesAsked)
    {
      var passed: int := *;
      time := time + if passed > 0 then passed else 0;
      now := time;
    }

    /** A call that ends with the context. */
    method Endure() returns (alive: bool)
      modifies this
      ensures time == old(time) && patience <= old(patience) && (alive ==> patience < old(patience))
      ensures declined == old(declined) && quotesAsked == old(quotesAsked)
    {
      alive := patience > 0;
      patience := if alive then patience - 1 else patience;
    }

    /** The caller's pre-trade check before and after the cancel of a repost. */
    method RepostAllowed() returns (allowed: bool)
      modifies this
      ensures time == old(time) && patience == old(patience) && declined == old(declined) + if allowed then 0 else 1
      ensures quotesAsked == old(quotesAsked)
    {
      allowed := *;
      declined := declined + if allowed then 0 else 1;
    }

    /** Sleeping takes at least the time asked for, unless the context is cancelled. */
    method Sleep(duration: int) returns (completed: bool)
      modifies this
      ensures old(time) <= time && patience <= old(patience) && declined == old(declined)
        && quotesAsked == old(quotesAsked)
      ensures completed ==> patience < old(patience)
      ensures completed && duration > 0 ==> old(time) + duration <= time
    {
      completed := *;
      completed := completed && patience > 0;
      patience := if completed then patience - 1 else patience;
      var passed: int := *;
      time := time + (if passed > 0 then passed else 0) + (if completed && duration > 0 then duration else 0);
    }
  }
}
