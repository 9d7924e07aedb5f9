/** Comparing the local books with the broker's: which differences are reported, and when there are none. */
module Reconciliation {
  import opened RawState

  datatype Kind = UnknownActiveOrder | WithoutBrokerId | MissingLocalOrder | LotsMismatch | UnknownBrokerPosition

  datatype Diff = Diff(kind: Kind, instrument: string, order: int)

  /** Order identifiers are numbers; `broker` is None for a draft, `created` is None when unknown. */
  datatype LocalOrder = LocalOrder(client: int, broker: Option<int>, instrument: string, created: Option<int>)

  datatype BrokerOrder = BrokerOrder(id: int, instrument: string)

  datatype Held = Held(instrument: string, lots: int)

  // ---------------------------------------------------------------- orders

  /** Orders younger than the grace period are still on their way and are not compared. */
  predicate InFlight(order: LocalOrder, now: int, grace: int) {
    grace > 0 && order.created.Some? && order.created.value > now - grace
  }

  /** The grace period of the order is over, or there is none, or its age is not known. */
  predicate Settled(order: LocalOrder, now: int, grace: int) {
    grace <= 0 || (order.created.Some? ==> order.created.value + grace <= now)
  }

  predicate KnownLocally(local: seq<LocalOrder>, id: int) {
    exists k :: 0 <= k < |local| && local[k].broker == Some(id)
  }

  predicate KnownAtBroker(broker: seq<BrokerOrder>, id: int) {
    exists k :: 0 <= k < |broker| && broker[k].id == id
  }

  function UnknownDiffs(local: seq<LocalOrder>, broker: seq<BrokerOrder>, n: nat): seq<Diff>
    requires n <= |broker|
  {
    if n == 0 then []
    else
      var order := broker[n - 1];
      UnknownDiffs(local, broker, n - 1)
      + if KnownLocally(local, order.id) then [] else [Diff(UnknownActiveOrder, order.instrument, order.id)]
  }

  function LocalDiff(broker: seq<BrokerOrder>, order: LocalOrder, now: int, grace: int): seq<Diff> {
    if InFlight(order, now, grace) then []
    else if order.broker.None? then [Diff(WithoutBrokerId, order.instrument, order.client)]
    else if !KnownAtBroker(broker, order.broker.value) then [Diff(MissingLocalOrder, order.instrument, order.client)]
    else []
  }

  function LocalDiffs(local: seq<LocalOrder>, broker: seq<BrokerOrder>, now: int, grace: int, n: nat): seq<Diff>
    requires n <= |local|
  {
    if n == 0 then [] else LocalDiffs(local, broker, now, grace, n - 1) + LocalDiff(broker, local[n - 1], now, grace)
  }

  method LocalBrokerIds(local: seq<LocalOrder>) returns (ids: set<int>)
    ensures forall id :: id in ids <==> KnownLocally(local, id)
  {
    ids := {};
    for k := 0 to |local|
      invariant forall id :: id in ids <==> exists j :: 0 <= j < k && local[j].broker == Some(id)
    {
      if local[k].broker.Some? {
        ids := ids + {local[k].broker.value};
      }
    }
  }

  /** The broker's orders that nothing here knows, and all of the broker's ids. */
  method FindUnknown(local: seq<LocalOrder>, broker: seq<BrokerOrder>, localByBroker: set<int>)
      returns (diffs: seq<Diff>, brokerById: set<int>)
    requires forall id :: id in localByBroker <==> KnownLocally(local, id)
    ensures diffs == UnknownDiffs(local, broker, |broker|)
    ensures forall id :: id in brokerById <==> KnownAtBroker(broker, id)
  {
    hide KnownLocally;
    diffs, brokerById := [], {};
    for k := 0 to |broker|
      invariant forall id :: id in brokerById <==> exists j :: 0 <= j < k && broker[j].id == id
      invariant diffs == UnknownDiffs(local, broker, k)
    {
      brokerById := brokerById + {broker[k].id};
      if broker[k].id !in localByBroker {
        diffs := diffs + [Diff(UnknownActiveOrder, broker[k].instrument, broker[k].id)];
      }
    }
  }

  method FindMissing(local: seq<LocalOrder>, broker: seq<BrokerOrder>, brokerById: set<int>, now: int, grace: int)
      returns (diffs: seq<Diff>)
    requires forall id :: id in brokerById <==> KnownAtBroker(broker, id)
    ensures diffs == LocalDiffs(local, broker, now, grace, |local|)
  {
    hide KnownAtBroker;
    diffs := [];
    for k := 0 to |local|
      invariant diffs == LocalDiffs(local, broker, now, grace, k)
    {
      if InFlight(local[k], now, grace) {
        continue;
      }
      if local[k].broker.None? {
        diffs := diffs + [Diff(WithoutBrokerId, local[k].instrument, local[k].client)];
        continue;
      }
      if local[k].broker.value !in brokerById {
        diffs := diffs + [Diff(MissingLocalOrder, local[k].instrument, local[k].client)];
      }
    }
  }

  method CompareOrders(local: seq<LocalOrder>, broker: seq<BrokerOrder>, now: int, grace: int)
      returns (diffs: seq<Diff>)
    ensures diffs == UnknownDiffs(local, broker, |broker|) + LocalDiffs(local, broker, now, grace, |local|)
  {
    hide KnownLocally, KnownAtBroker;
    var localByBroker := LocalBrokerIds(local);
    var unknown, brokerById := FindUnknown(local, broker, localByBroker);
    var missing := FindMissing(local, broker, brokerById, now, grace);
    diffs := unknown + missing;
  }

  lemma {:induction false} NoUnknownIff(local: seq<LocalOrder>, broker: seq<BrokerOrder>, n: nat)
    requires n <= |broker|
    ensures UnknownDiffs(local, broker, n) == [] <==> forall k :: 0 <= k < n ==> KnownLocally(local, broker[k].id)
  {
    if n > 0 {
      NoUnknownIff(local, broker, n - 1);
    }
  }

  lemma {:induction false} NoLocalIff(local: seq<LocalOrder>, broker: seq<BrokerOrder>, now: int, grace: int, n: nat)
    requires n <= |local|
    ensures LocalDiffs(local, broker, now, grace, n) == [] <==>
            forall k :: 0 <= k < n && !InFlight(local[k], now, grace) ==>
              local[k].broker.Some? && KnownAtBroker(broker, local[k].broker.value)
  {
    if n > 0 {
      NoLocalIff(local, broker, now, grace, n - 1);
    }
  }

  /** The order comparison is silent if and only if every order at the broker is known here and every
      order here is at the broker, unless it was created less than the grace period ago. */
  lemma OrdersAgreeIff(local: seq<LocalOrder>, broker: seq<BrokerOrder>, now: int, grace: int)
    ensures UnknownDiffs(local, broker, |broker|) + LocalDiffs(local, broker, now, grace, |local|) == [] <==>
            && (forall k :: 0 <= k < |broker| ==> exists j :: 0 <= j < |local| && local[j].broker == Some(broker[k].id))
            && (forall k :: 0 <= k < |local| && Settled(local[k], now, grace) ==>
                  exists j :: 0 <= j < |broker| && local[k].broker == Some(broker[j].id))
  {
    NoUnknownIff(local, broker, |broker|);
    NoLocalIff(local, broker, now, grace, |local|);
  }

  /** What is reported of the broker's orders: each one that no local order names. */
  lemma {:induction false} UnknownAre(local: seq<LocalOrder>, broker: seq<BrokerOrder>, n: nat, d: Diff)
    requires n <= |broker|
    ensures d in UnknownDiffs(local, broker, n) <==>
            exists k :: 0 <= k < n && (forall j :: 0 <= j < |local| ==> local[j].broker != Some(broker[k].id))
                        && d == Diff(UnknownActiveOrder, broker[k].instrument, broker[k].id)
  {
    if n > 0 {
      UnknownAre(local, broker, n - 1, d);
    }
  }

  /** What is reported of the local orders: each one past its grace period that has no broker id, or one
      that the broker does not list. */
  lemma {:induction false} MissingAre(local: seq<LocalOrder>, broker: seq<BrokerOrder>, now: int, grace: int, n: nat,
      d: Diff)
    requires n <= |local|
    ensures
      d in LocalDiffs(local, broker, now, grace, n) <==>
      exists k ::
        && 0 <= k < n && Settled(local[k], now, grace)
        && (if local[k].broker.None? then d == Diff(WithoutBrokerId, local[k].instrument, local[k].client)
            else (forall j :: 0 <= j < |broker| ==> local[k].broker != Some(broker[j].id))
                 && d == Diff(MissingLocalOrder, local[k].instrument, local[k].client))
  {
    if n > 0 {
      MissingAre(local, broker, now, grace, n - 1, d);
    }
  }

  // ---------------------------------------------------------------- positions

  function LotsAt(held: seq<Held>, instrument: string, n: nat): int
    requires n <= |held|
  {
    if n == 0 then 0
      else LotsAt(held, instrument, n - 1) + if held[n - 1].instrument == instrument then held[n - 1].lots else 0
  }

  function Lots(held: seq<Held>, instrument: string): int {
    LotsAt(held, instrument, |held|)
  }

  function Instruments(held: seq<Held>): set<string> {
    set k | 0 <= k < |held| :: held[k].instrument
  }

  function MismatchDiffs(positions: seq<Held>, holdings: seq<Held>, n: nat): seq<Diff>
    requires n <= |positions|
  {
    if n == 0 then []
    else
      var p := positions[n - 1];
      MismatchDiffs(positions, holdings, n - 1)
      + if Lots(holdings, p.instrument) != p.lots then [Diff(LotsMismatch, p.instrument, 0)] else []
  }

  function Strange(positions: seq<Held>, holdings: seq<Held>): set<string> {
    set u | u in Instruments(holdings) && Lots(holdings, u) > 0 && Lots(positions, u) == 0
  }

  function StrangeDiffs(instruments: set<string>): set<Diff> {
    set u | u in instruments :: Diff(UnknownBrokerPosition, u, 0)
  }

  /** Lots per instrument, added up entry by entry. */
  method SumLots(held: seq<Held>) returns (lots: map<string, int>)
    ensures lots.Keys == Instruments(held) && forall u :: u in lots ==> lots[u] == Lots(held, u)
  {
    lots := map[];
    for k := 0 to |held|
      invariant lots.Keys == Instruments(held[..k]) && forall u :: u in lots ==> lots[u] == LotsAt(held, u, k)
    {
      var u := held[k].instrument;
      NotHeld(held, u, k);
      lots := lots[u := (if u in lots then lots[u] else 0) + held[k].lots];
      assert Instruments(held[..k + 1]) == Instruments(held[..k]) + {u};
    }
    assert held[..|held|] == held;
  }

  lemma {:induction false} NotHeld(held: seq<Held>, instrument: string, n: nat)
    requires n <= |held|
    ensures instrument !in Instruments(held[..n]) ==> LotsAt(held, instrument, n) == 0
  {
    if n > 0 {
      NotHeld(held, instrument, n - 1);
      assert Instruments(held[..n]) == Instruments(held[..n - 1]) + {held[n - 1].instrument};
    }
  }

  method FindMismatches(positions: seq<Held>, holdings: seq<Held>, brokerLots: map<string, int>)
      returns (diffs: seq<Diff>)
    requires brokerLots.Keys == Instruments(holdings)
    requires forall u :: u in brokerLots ==> brokerLots[u] == Lots(holdings, u)
    ensures diffs == MismatchDiffs(positions, holdings, |positions|)
  {
    diffs := [];
    for k := 0 to |positions|
      invariant diffs == MismatchDiffs(positions, holdings, k)
    {
      var p := positions[k];
      NotHeldAtAll(holdings, p.instrument);
      if (if p.instrument in brokerLots then brokerLots[p.instrument] else 0) != p.lots {
        diffs := diffs + [Diff(LotsMismatch, p.instrument, 0)];
      }
    }
  }

  /** The broker's instruments are visited in whatever order the map yields them; what is reported does
      not depend on it. */
  method FindStrange(positions: seq<Held>, holdings: seq<Held>, brokerLots: map<string, int>) returns (diffs: seq<Diff>)
    requires brokerLots.Keys == Instruments(holdings)
    requires forall u :: u in brokerLots ==> brokerLots[u] == Lots(holdings, u)
    ensures multiset(diffs) == multiset(StrangeDiffs(Strange(positions, holdings)))
  {
    hide Lots, Instruments;
    var localLots := SumLots(positions);
    diffs := [];
    var rest, found := brokerLots.Keys, {};
    while rest != {}
      invariant rest <= Instruments(holdings)
      invariant found == set u | u in Strange(positions, holdings) && u !in rest
      invariant multiset(diffs) == multiset(StrangeDiffs(found))
      decreases rest
    {
      var u :| u in rest;
      rest := rest - {u};
      NotHeldAtAll(positions, u);
      if brokerLots[u] > 0 && (if u in localLots then localLots[u] else 0) == 0 {
        diffs := diffs + [Diff(UnknownBrokerPosition, u, 0)];
        OneStranger(found, u);
        found := found + {u};
      }
    }
    assert found == Strange(positions, holdings);
  }

  lemma OneStranger(found: set<string>, u: string)
    requires u !in found
    ensures multiset(StrangeDiffs(found + {u})) ==
      multiset(StrangeDiffs(found)) + multiset{Diff(UnknownBrokerPosition, u, 0)}
  {
    assert StrangeDiffs(found + {u}) == StrangeDiffs(found) + {Diff(UnknownBrokerPosition, u, 0)};
    assert Diff(UnknownBrokerPosition, u, 0) !in StrangeDiffs(found);
  }

  method ComparePositions(positions: seq<Held>, holdings: seq<Held>) returns (diffs: seq<Diff>)
    ensures multiset(diffs) ==
            multiset(MismatchDiffs(positions, holdings, |positions|))
            + multiset(StrangeDiffs(Strange(positions, holdings)))
  {
    var brokerLots := SumLots(holdings);
    var mismatches := FindMismatches(positions, holdings, brokerLots);
    var strange := FindStrange(positions, holdings, brokerLots);
    diffs := mismatches + strange;
  }

  lemma NotHeldAtAll(held: seq<Held>, instrument: string)
    ensures instrument !in Instruments(held) ==> Lots(held, instrument) == 0
  {
    NotHeld(held, instrument, |held|);
    assert held[..|held|] == held;
  }

  lemma {:induction false} NoMismatchIff(positions: seq<Held>, holdings: seq<Held>, n: nat)
    requires n <= |positions|
    ensures MismatchDiffs(positions, holdings, n) == [] <==>
            forall k :: 0 <= k < n ==> Lots(holdings, positions[k].instrument) == positions[k].lots
  {
    if n > 0 {
      NoMismatchIff(positions, holdings, n - 1);
    }
  }

  /** What is reported of the positions: each one of which the broker holds another number of lots, and
      each instrument of which only the broker holds any. */
  lemma PositionsReported(positions: seq<Held>, holdings: seq<Held>, d: Diff)
    ensures d in MismatchDiffs(positions, holdings, |positions|) <==>
            exists k :: 0 <= k < |positions| && Lots(holdings, positions[k].instrument) != positions[k].lots
                        && d == Diff(LotsMismatch, positions[k].instrument, 0)
    ensures d in StrangeDiffs(Strange(positions, holdings)) <==>
            d == Diff(UnknownBrokerPosition, d.instrument, 0)
            && Lots(holdings, d.instrument) > 0 && Lots(positions, d.instrument) == 0
  {
    hide Lots;
    MismatchesAre(positions, holdings, |positions|, d);
    NotHeldAtAll(holdings, d.instrument);
  }

  lemma {:induction false} MismatchesAre(positions: seq<Held>, holdings: seq<Held>, n: nat, d: Diff)
    requires n <= |positions|
    ensures d in MismatchDiffs(positions, holdings, n) <==>
            exists k :: 0 <= k < n && Lots(holdings, positions[k].instrument) != positions[k].lots
                        && d == Diff(LotsMismatch, positions[k].instrument, 0)
  {
    hide Lots;
    if n > 0 {
      MismatchesAre(positions, holdings, n - 1, d);
    }
  }

  predicate OnePerInstrument(positions: seq<Held>) {
    forall j, k :: 0 <= j < k < |positions| ==> positions[j].instrument != positions[k].instrument
  }

  lemma {:induction false} OnlyOne(positions: seq<Held>, i: nat, n: nat)
    requires OnePerInstrument(positions) && i < |positions| && n <= |positions|
    ensures LotsAt(positions, positions[i].instrument, n) == if i < n then positions[i].lots else 0
  {
    if n > 0 {
      OnlyOne(positions, i, n - 1);
      if n - 1 != i {
        assert positions[n - 1].instrument != positions[i].instrument;
      }
    }
  }

  /** With one position per instrument and no short holdings, the position comparison is silent if and
      only if both sides hold the same lots of every instrument. Without the second assumption a short
      holding nobody knows of stays unreported. */
  lemma PositionsAgreeIff(positions: seq<Held>, holdings: seq<Held>)
    requires OnePerInstrument(positions)
    ensures
      (MismatchDiffs(positions, holdings, |positions|) == [] && StrangeDiffs(Strange(positions, holdings)) == {}) <==>
      (forall u :: Lots(holdings, u) == Lots(positions, u) || (u !in Instruments(positions) && Lots(holdings, u) <= 0))
    ensures
      (forall u :: Lots(holdings, u) >= 0) ==>
      ((MismatchDiffs(positions, holdings, |positions|) == [] && StrangeDiffs(Strange(positions, holdings)) == {}) <==>
       (forall u :: Lots(holdings, u) == Lots(positions, u)))
  {
    NoMismatchIff(positions, holdings, |positions|);
    forall i | 0 <= i < |positions| ensures Lots(positions, positions[i].instrument) == positions[i].lots {
      OnlyOne(positions, i, |positions|);
    }
    forall u ensures u !in Instruments(positions) ==> Lots(positions, u) == 0 {
      NotHeldAtAll(positions, u);
    }
    forall u ensures u !in Instruments(holdings) ==> Lots(holdings, u) == 0 {
      NotHeldAtAll(holdings, u);
    }
    NothingStrangeIff(positions, holdings);
  }

  lemma NothingStrangeIff(positions: seq<Held>, holdings: seq<Held>)
    ensures StrangeDiffs(Strange(positions, holdings)) == {} <==>
            forall u :: Lots(holdings, u) > 0 ==> Lots(positions, u) != 0
  {
    forall u ensures u !in Instruments(holdings) ==> Lots(holdings, u) == 0 {
      NotHeldAtAll(holdings, u);
    }
    if u :| Lots(holdings, u) > 0 && Lots(positions, u) == 0 {
      assert u in Strange(positions, holdings);
      assert Diff(UnknownBrokerPosition, u, 0) in StrangeDiffs(Strange(positions, holdings));
    }
  }
}
