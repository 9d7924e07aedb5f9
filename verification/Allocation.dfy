/** The batch of entry signals of one day: ranked, cut to the free position slots, and sized one after
    another against what is left of exposure and cash. */
module Allocation {
  import opened Arithmetic
  import opened RawState
  import opened Pricing
  import opened Sizing

  datatype Decision = Enter | Skip | Reject

  /** A signal with what is needed to size it. `uid` stands for the instrument's identifier, of which
      only the order matters. */
  datatype Candidate = Candidate(
    decision: Decision, score: real, uid: int, lots: int, notional: real, reason: string,
    bid: Option<real>, ask: Option<real>, tick: real, lot: int, entryVolume: real, exitVolume: real, q05Abs: real)

  const MAX_POSITIONS := "max_positions_reached"

  // ---------------------------------------------------------------- ranking

  /** Higher scores first, ties by identifier. */
  predicate Before(a: Candidate, b: Candidate) {
    a.score > b.score || (a.score == b.score && a.uid < b.uid)
  }

  predicate Within(all: seq<Candidate>, order: seq<nat>) {
    forall i :: 0 <= i < |order| ==> order[i] < |all|
  }

  /** Of two signals, the one with the higher score, else the smaller identifier, else the earlier place. */
  predicate Ahead(all: seq<Candidate>, x: nat, y: nat)
    requires x < |all| && y < |all|
  {
    var a, b := all[x], all[y];
    a.score > b.score || (a.score == b.score && (a.uid < b.uid || (a.uid == b.uid && x < y)))
  }

  predicate Sorted(all: seq<Candidate>, order: seq<nat>)
    requires Within(all, order)
  {
    forall i, j :: 0 <= i < j < |order| ==> Ahead(all, order[i], order[j])
  }

  predicate Ranked(all: seq<Candidate>, order: seq<nat>) {
    Within(all, order) && Sorted(all, order)
  }

  predicate Distinct(order: seq<nat>) {
    forall i, j :: 0 <= i < j < |order| ==> order[i] != order[j]
  }

  ghost predicate Lists(order: seq<nat>, all: seq<Candidate>, n: nat)
    requires n <= |all|
  {
    forall i: nat :: i in order <==> i < n && all[i].decision.Enter?
  }

  /** Puts an index behind all that do not rank after it, so equal ranks keep their order. */
  method Insert(all: seq<Candidate>, order: seq<nat>, index: nat) returns (longer: seq<nat>)
    requires Ranked(all, order) && index < |all| && forall i :: i in order ==> i < index
    ensures Ranked(all, longer) && |longer| == |order| + 1
    ensures forall i :: i in longer <==> i in order || i == index
  {
    var k := |order|;
    while k > 0 && Before(all[index], all[order[k - 1]])
      invariant 0 <= k <= |order|
      invariant forall j :: k <= j < |order| ==> Before(all[index], all[order[j]])
    {
      k := k - 1;
    }
    longer := order[..k] + [index] + order[k..];
    Inserted(all, order, index, k, longer);
  }

  lemma Inserted(all: seq<Candidate>, order: seq<nat>, index: nat, k: nat, longer: seq<nat>)
    requires Ranked(all, order) && index < |all| && (forall i :: i in order ==> i < index) && k <= |order|
    requires longer == order[..k] + [index] + order[k..]
    requires k > 0 ==> !Before(all[index], all[order[k - 1]])
    requires forall j :: k <= j < |order| ==> Before(all[index], all[order[j]])
    ensures Ranked(all, longer)
    ensures forall i :: i in longer <==> i in order || i == index
  {
    hide Before, Ahead;
    forall i, j | 0 <= i < j < |longer|
      ensures longer[i] < |all| && longer[j] < |all| && Ahead(all, longer[i], longer[j])
    {
      PairInserted(all, order, index, k, longer, i, j);
    }
    MembersInserted(order, index, k, longer);
    assert forall i :: 0 <= i < |longer| ==> longer[i] in longer;
  }

  lemma MembersInserted(order: seq<nat>, index: nat, k: nat, longer: seq<nat>)
    requires k <= |order| && longer == order[..k] + [index] + order[k..]
    ensures forall i :: i in longer <==> i in order || i == index
  {
    assert order == order[..k] + order[k..];
  }

  lemma PairInserted(all: seq<Candidate>, order: seq<nat>, index: nat, k: nat, longer: seq<nat>, i: nat, j: nat)
    requires Ranked(all, order) && index < |all| && (forall i :: i in order ==> i < index) && k <= |order|
    requires longer == order[..k] + [index] + order[k..] && i < j < |longer|
    requires k > 0 ==> !Before(all[index], all[order[k - 1]])
    requires forall j :: k <= j < |order| ==> Before(all[index], all[order[j]])
    ensures longer[i] < |all| && longer[j] < |all| && Ahead(all, longer[i], longer[j])
  {
    hide Before, Ahead;
    if j < k {
      assert longer[i] == order[i] && longer[j] == order[j];
    } else if j == k {
      assert longer[i] == order[i] && longer[j] == index;
      assert order[k - 1] in order;
      BehindIsAhead(all, order[k - 1], index);
      if i < k - 1 {
        AheadTrans(all, order[i], order[k - 1], index);
      }
    } else {
      assert longer[j] == order[j - 1];
      BeforeIsAhead(all, index, order[j - 1]);
      if i < k {
        assert longer[i] == order[i];
      } else if i > k {
        assert longer[i] == order[i - 1];
      }
    }
  }

  lemma BehindIsAhead(all: seq<Candidate>, x: nat, y: nat)
    requires x < y < |all| && !Before(all[y], all[x])
    ensures Ahead(all, x, y)
  {
  }

  lemma BeforeIsAhead(all: seq<Candidate>, x: nat, y: nat)
    requires x < |all| && y < |all| && Before(all[x], all[y])
    ensures Ahead(all, x, y)
  {
  }

  lemma AheadTrans(all: seq<Candidate>, x: nat, y: nat, z: nat)
    requires x < |all| && y < |all| && z < |all| && Ahead(all, x, y) && Ahead(all, y, z)
    ensures Ahead(all, x, z)
  {
  }

  /** No signal is listed twice, since none is ahead of itself. */
  lemma RankedIsDistinct(all: seq<Candidate>, order: seq<nat>)
    requires Ranked(all, order)
    ensures Distinct(order)
  {
  }

  /** The ENTER signals, best first. */
  method RankEntries(all: seq<Candidate>) returns (order: seq<nat>)
    ensures Ranked(all, order) && Distinct(order) && Lists(order, all, |all|)
    ensures forall i, j :: 0 <= i < j < |order| ==>
      var a, b := all[order[i]], all[order[j]];
      a.score > b.score || (a.score == b.score && (a.uid < b.uid || (a.uid == b.uid && order[i] < order[j])))
  {
    order := [];
    for i := 0 to |all|
      invariant Ranked(all, order) && Lists(order, all, i)
    {
      if all[i].decision.Enter? {
        order := Insert(all, order, i);
      }
    }
    RankedIsDistinct(all, order);
  }

  // ---------------------------------------------------------------- what the batch may spend

  function Slots(maxPositions: int, open: int, entries: nat): nat {
    if maxPositions <= 0 then entries
    else if maxPositions - open < 0 then 0
    else if maxPositions - open > entries then entries
    else maxPositions - open
  }

  function Power(x: real, n: nat): real {
    if n == 0 then 1.0 else x * Power(x, n - 1)
  }

  datatype Book = Book(equity: real, cash: real, exposure: real, improveTicks: int)

  function InputFor(c: Candidate, price: real, book: Book, selected: int, reserved: real): SizingInput {
    SizingInput(book.equity, book.cash, selected, book.exposure, reserved, price, c.lot, c.entryVolume, c.exitVolume,
      c.q05Abs)
  }

  /** The price the order would be placed at; none for a one-sided quote or an invalid tick. */
  function PriceOf(c: Candidate, improveTicks: int): Option<real> {
    if c.bid.None? || c.ask.None? then None else LimitBuyPrice(c.bid.value, c.ask.value, c.tick, improveTicks)
  }

  /** One of the ranked candidates, once `reserved` was already spent on better ones. */
  function Decide(cfg: SizingConfig, c: Candidate, book: Book, slots: int, reserved: real): Candidate {
    var price := PriceOf(c, book.improveTicks);
    if price.None? then c.(decision := Reject, reason := "no_price")
    else
      match Size(cfg, InputFor(c, price.value, book, slots, reserved))
      case Lots(lots, notional) => c.(lots := lots, notional := notional)
      case LotsBelowOne => c.(decision := Skip, reason := "lots_below_one")
      case BelowMinNotional => c.(decision := Skip, reason := "min_order_notional")
      case NonPositiveLimit => c.(decision := Reject, reason := "non_positive_limit")
  }

  /** What the first r of the ranked candidates spend, and how many of them stay. */
  function Spent(cfg: SizingConfig, all: seq<Candidate>, order: seq<nat>, book: Book, slots: int, r: nat): real
    requires Ranked(all, order) && r <= |order|
  {
    if r == 0 then 0.0
    else
      var reserved := Spent(cfg, all, order, book, slots, r - 1);
      var c := Decide(cfg, all[order[r - 1]], book, slots, reserved);
      if c.decision.Enter? then reserved + c.notional else reserved
  }

  function Stay(cfg: SizingConfig, all: seq<Candidate>, order: seq<nat>, book: Book, slots: int, r: nat): (n: nat)
    requires Ranked(all, order) && r <= |order|
    ensures n <= r
  {
    if r == 0 then 0
    else
      var c := Decide(cfg, all[order[r - 1]], book, slots, Spent(cfg, all, order, book, slots, r - 1));
      Stay(cfg, all, order, book, slots, r - 1) + if c.decision.Enter? then 1 else 0
  }

  lemma SpentStep(cfg: SizingConfig, all: seq<Candidate>, order: seq<nat>, book: Book, slots: int, r: nat)
    requires Ranked(all, order) && r < |order|
    ensures
      var reserved, stay := Spent(cfg, all, order, book, slots, r), Stay(cfg, all, order, book, slots, r);
      var c := Decide(cfg, all[order[r]], book, slots, reserved);
      && Spent(cfg, all, order, book, slots, r + 1) == (if c.decision.Enter? then reserved + c.notional else reserved)
      && Stay(cfg, all, order, book, slots, r + 1) == stay + if c.decision.Enter? then 1 else 0
  {
    hide Decide;
  }

  lemma SpentNothing(cfg: SizingConfig, all: seq<Candidate>, order: seq<nat>, book: Book, slots: int)
    requires Ranked(all, order)
    ensures Spent(cfg, all, order, book, slots, 0) == 0.0 && Stay(cfg, all, order, book, slots, 0) == 0
  {
  }

  // ---------------------------------------------------------------- what is left in the batch

  /** What a signal that stays counts for: itself, or its notional. */
  function Worth(c: Candidate, heads: bool): real {
    if !c.decision.Enter? then 0.0 else if heads then 1.0 else c.notional
  }

  /** All signals of the batch that stay, counted or added up. */
  function Entered(a: seq<Candidate>, heads: bool): real {
    if a == [] then 0.0 else Entered(a[..|a| - 1], heads) + Worth(a[|a| - 1], heads)
  }

  /** The same over the first r of the ranked candidates. */
  function EnteredByRank(a: seq<Candidate>, order: seq<nat>, r: nat, heads: bool): real
    requires Within(a, order) && r <= |order|
  {
    if r == 0 then 0.0 else EnteredByRank(a, order, r - 1, heads) + Worth(a[order[r - 1]], heads)
  }

  lemma {:induction false} OneOut(a: seq<Candidate>, i: nat, heads: bool)
    requires i < |a|
    ensures Entered(a, heads) == Entered(a[i := a[i].(decision := Skip)], heads) + Worth(a[i], heads)
  {
    var b := a[i := a[i].(decision := Skip)];
    if i == |a| - 1 {
      assert b[..|b| - 1] == a[..|a| - 1];
    } else {
      OneOut(a[..|a| - 1], i, heads);
      assert b[..|b| - 1] == a[..|a| - 1][i := a[i].(decision := Skip)];
    }
  }

  lemma {:induction false} NoneEntered(a: seq<Candidate>, heads: bool)
    requires forall i :: 0 <= i < |a| ==> !a[i].decision.Enter?
    ensures Entered(a, heads) == 0.0
  {
    if a != [] {
      NoneEntered(a[..|a| - 1], heads);
    }
  }

  lemma {:induction false} OthersByRank(a: seq<Candidate>, b: seq<Candidate>, order: seq<nat>, r: nat, heads: bool)
    requires Within(a, order) && Within(b, order)
    requires r <= |order| && forall k :: 0 <= k < r ==> a[order[k]] == b[order[k]]
    ensures EnteredByRank(a, order, r, heads) == EnteredByRank(b, order, r, heads)
  {
    if r > 0 {
      OthersByRank(a, b, order, r - 1, heads);
    }
  }

  /** If only the first r ranks stay, adding up by rank is adding up the batch. */
  lemma {:induction false} EnteredIsByRank(a: seq<Candidate>, order: seq<nat>, r: nat, heads: bool)
    requires Within(a, order) && Distinct(order) && r <= |order|
    requires forall i: nat :: i < |a| && a[i].decision.Enter? ==> i in order[..r]
    ensures Entered(a, heads) == EnteredByRank(a, order, r, heads)
    decreases r
  {
    if r == 0 {
      NoneEntered(a, heads);
    } else {
      var last := order[r - 1];
      var b := a[last := a[last].(decision := Skip)];
      assert order[..r] == order[..r - 1] + [last];
      OneOut(a, last, heads);
      EnteredIsByRank(b, order, r - 1, heads);
      OthersByRank(a, b, order, r - 1, heads);
    }
  }

  /** Decided in turn, the first r ranks are worth what was reserved for them. */
  lemma {:induction false} EnteredIsSpent(
      a: seq<Candidate>, cfg: SizingConfig, all: seq<Candidate>, order: seq<nat>, book: Book, slots: int, r: nat)
    requires Ranked(all, order) && Within(a, order) && r <= |order|
    requires forall k :: 0 <= k < r ==>
      a[order[k]] == Decide(cfg, all[order[k]], book, slots, Spent(cfg, all, order, book, slots, k))
    ensures EnteredByRank(a, order, r, false) == Spent(cfg, all, order, book, slots, r)
    ensures EnteredByRank(a, order, r, true) == Stay(cfg, all, order, book, slots, r) as real
  {
    hide Decide, Sorted;
    if r > 0 {
      EnteredIsSpent(a, cfg, all, order, book, slots, r - 1);
    }
  }

  // ---------------------------------------------------------------- the batch in place

  /** The ranked candidates in turn, in place: those with a slot are decided, the others cut. */
  method DecideInTurn(a: array<Candidate>, cfg: SizingConfig, book: Book, order: seq<nat>, slots: int)
    requires Ranked(a[..], order) && Distinct(order) && 0 <= slots <= |order|
    modifies a
    ensures forall i: nat :: i < a.Length && i !in order ==> a[i] == old(a[i])
    ensures forall r :: 0 <= r < slots ==>
      a[order[r]] == Decide(cfg, old(a[..])[order[r]], book, slots, Spent(cfg, old(a[..]), order, book, slots, r))
    ensures forall r :: slots <= r < |order| ==>
      a[order[r]] == old(a[..])[order[r]].(decision := Skip, lots := 0, notional := 0.0, reason := MAX_POSITIONS)
  {
    hide Decide, Sorted, Spent;
    ghost var all := a[..];
    var reserved := 0.0;
    SpentNothing(cfg, all, order, book, slots);
    for rank := 0 to |order|
      invariant forall i: nat :: i < a.Length && i !in order ==> a[i] == all[i]
      invariant forall r :: rank <= r < |order| ==> a[order[r]] == all[order[r]]
      invariant forall r :: 0 <= r < rank && r < slots ==>
        a[order[r]] == Decide(cfg, all[order[r]], book, slots, Spent(cfg, all, order, book, slots, r))
      invariant forall r :: slots <= r < rank ==>
        a[order[r]] == all[order[r]].(decision := Skip, lots := 0, notional := 0.0, reason := MAX_POSITIONS)
      invariant reserved == Spent(cfg, all, order, book, slots, if rank < slots then rank else slots)
    {
      var candidate := a[order[rank]];
      assert forall r :: 0 <= r < |order| && r != rank ==> order[r] != order[rank];
      SpentStep(cfg, all, order, book, slots, rank);
      if rank >= slots {
        a[order[rank]] := candidate.(decision := Skip, lots := 0, notional := 0.0, reason := MAX_POSITIONS);
      } else {
        var sized := Decide(cfg, candidate, book, slots, reserved);
        a[order[rank]] := sized;
        if sized.decision.Enter? {
          reserved := reserved + sized.notional;
        }
      }
    }
  }

  /** What a decided batch is worth in all, and that it fits. */
  lemma EnteredAddsUp(
      a: seq<Candidate>, cfg: SizingConfig, all: seq<Candidate>, order: seq<nat>, book: Book, slots: int)
    requires |a| == |all| && Ranked(all, order) && Distinct(order) && Lists(order, all, |all|) && 0 <= slots <= |order|
    requires forall r :: 0 <= r < slots ==>
      a[order[r]] == Decide(cfg, all[order[r]], book, slots, Spent(cfg, all, order, book, slots, r))
    requires forall i: nat :: i < |a| && a[i].decision.Enter? ==> i in order[..slots]
    ensures Entered(a, false) == Spent(cfg, all, order, book, slots, slots)
    ensures Entered(a, true) == Stay(cfg, all, order, book, slots, slots) as real
    ensures cfg.sizeFactor <= 1.0 ==> Entered(a, false) <= RemainingExposure(cfg, book.equity, book.exposure)
    ensures cfg.sizeFactor <= 1.0 && 0.0 <= cfg.cashBuffer <= 1.0 && 0.0 <= book.cash ==>
      Entered(a, false) <= book.cash * (1.0 - Power(1.0 - cfg.cashBuffer, Stay(cfg, all, order, book, slots, slots)))
  {
    hide Decide, Sorted, Spent, Stay, Before, RemainingExposure, Power, Entered;
    EnteredIsByRank(a, order, slots, false);
    EnteredIsByRank(a, order, slots, true);
    EnteredIsSpent(a, cfg, all, order, book, slots, slots);
    if cfg.sizeFactor <= 1.0 {
      SpentWithinExposure(cfg, all, order, book, slots);
      if 0.0 <= cfg.cashBuffer <= 1.0 && 0.0 <= book.cash {
        SpentWithinCash(cfg, all, order, book, slots, slots);
      }
    }
  }

  /** Every candidate is one of: not an ENTER signal and untouched, decided in its turn, or cut because
      no slot is left. So those that stay are among the best ranked, and with the positions already open
      they are no more than the limit allows. */
  method ApplyBatchSignalLimits(a: array<Candidate>, cfg: SizingConfig, book: Book, maxPositions: int, open: int)
      returns (order: seq<nat>, slots: int)
    modifies a
    ensures Ranked(old(a[..]), order) && Distinct(order) && Lists(order, old(a[..]), a.Length)
    ensures 0 <= slots <= |order| && (maxPositions <= 0 ==> slots == |order|)
    ensures 0 < slots && 0 < maxPositions ==> slots + open <= maxPositions
    ensures slots < |order| ==> 0 < maxPositions <= slots + open
    ensures maxPositions > 0 ==>
      Entered(a[..], true) + open as real <= (if maxPositions > open then maxPositions else open) as real
    ensures forall i: nat :: i < a.Length && i !in order ==> a[i] == old(a[i])
    ensures forall r :: 0 <= r < slots ==>
      a[order[r]] == Decide(cfg, old(a[..])[order[r]], book, slots, Spent(cfg, old(a[..]), order, book, slots, r))
    ensures forall r :: slots <= r < |order| ==>
      a[order[r]] == old(a[..])[order[r]].(decision := Skip, lots := 0, notional := 0.0, reason := MAX_POSITIONS)
    ensures forall i: nat :: i < a.Length && a[i].decision.Enter? ==> i in order[..slots]
    ensures Entered(a[..], false) == Spent(cfg, old(a[..]), order, book, slots, slots)
    ensures Entered(a[..], true) == Stay(cfg, old(a[..]), order, book, slots, slots) as real
    ensures cfg.sizeFactor <= 1.0 ==> Entered(a[..], false) <= RemainingExposure(cfg, book.equity, book.exposure)
    ensures cfg.sizeFactor <= 1.0 && 0.0 <= cfg.cashBuffer <= 1.0 && 0.0 <= book.cash ==>
      Entered(a[..], false)
      <= book.cash * (1.0 - Power(1.0 - cfg.cashBuffer, Stay(cfg, old(a[..]), order, book, slots, slots)))
  {
    hide Decide, Sorted, Spent, Stay, Before, RemainingExposure, Power, Entered;
    order := RankEntries(a[..]);
    slots := Slots(maxPositions, open, |order|);
    DecideInTurn(a, cfg, book, order, slots);
    forall i: nat | i < a.Length && a[i].decision.Enter? ensures i in order[..slots] {
      if i in order {
        var r :| 0 <= r < |order| && order[r] == i;
        assert r < slots;
      }
    }
    EnteredAddsUp(a[..], cfg, old(a[..]), order, book, slots);
  }

  // ---------------------------------------------------------------- what the batch spends at most

  /** What a turn decides, and that it touches nothing else: the signal stays if and only if a lot fits and
      the most that fit are worth a minimal order, and is rejected if it has no price or no limit at all. */
  lemma DecidedIff(cfg: SizingConfig, c: Candidate, book: Book, slots: int, reserved: real)
    requires c.decision.Enter?
    ensures
      var d := Decide(cfg, c, book, slots, reserved);
      && d == c.(decision := d.decision, lots := d.lots, notional := d.notional, reason := d.reason)
      && (!d.decision.Enter? ==> d.lots == c.lots && d.notional == c.notional)
      && (PriceOf(c, book.improveTicks).None? ==> d.decision.Reject?)
    ensures PriceOf(c, book.improveTicks).Some? && PriceOf(c, book.improveTicks).value > 0.0 && c.lot > 0 ==>
      var d := Decide(cfg, c, book, slots, reserved);
      var input := InputFor(c, PriceOf(c, book.improveTicks).value, book, slots, reserved);
      && (d.decision.Enter? <==>
            Fits(cfg, input, 1) && forall n :: Largest(cfg, input, n) ==> Notional(input, n) >= cfg.minOrderNotional)
      && (d.decision.Reject? <==> forall amount :: FitsAmount(cfg, input, amount) ==> amount <= 0.0)
  {
    hide FitsAmount, PriceOf, Target, LotNotional, Largest, Fits, Notional, Size;
    if PriceOf(c, book.improveTicks).Some? {
      var input := InputFor(c, PriceOf(c, book.improveTicks).value, book, slots, reserved);
      NothingFitsIff(cfg, input);
      if input.limitPrice > 0.0 && c.lot > 0 {
        LotIsWorth(input);
        SizeIsLargest(cfg, input);
        QuotientIsLargest(cfg, input);
        LargestIsUnique(cfg, input);
      }
    }
  }

  lemma StayingIsSized(cfg: SizingConfig, c: Candidate, book: Book, slots: int, reserved: real)
    requires c.decision.Enter? && Decide(cfg, c, book, slots, reserved).decision.Enter?
    ensures PriceOf(c, book.improveTicks).Some?
    ensures
      var d := Decide(cfg, c, book, slots, reserved);
      var input := InputFor(c, PriceOf(c, book.improveTicks).value, book, slots, reserved);
      && Size(cfg, input) == Lots(d.lots, d.notional)
      && Largest(cfg, input, d.lots) && d.lots >= 1
  {
    hide Largest, PriceOf;
    SizeIsLargest(cfg, InputFor(c, PriceOf(c, book.improveTicks).value, book, slots, reserved));
  }

  lemma StayingIsBounded(cfg: SizingConfig, c: Candidate, book: Book, slots: int, reserved: real)
    requires c.decision.Enter? && Decide(cfg, c, book, slots, reserved).decision.Enter? && 0 < slots
    requires cfg.sizeFactor <= 1.0
    ensures
      var notional := Decide(cfg, c, book, slots, reserved).notional;
      && notional > 0.0
      && notional * slots as real <= RemainingExposure(cfg, book.equity, book.exposure)
      && (cfg.cashBuffer >= 0.0 ==> notional <= AtLeastZero(book.cash - reserved) * cfg.cashBuffer)
  {
    hide Size, RemainingExposure, AtLeastZero, Largest;
    StayingIsSized(cfg, c, book, slots, reserved);
    var input := InputFor(c, PriceOf(c, book.improveTicks).value, book, slots, reserved);
    SizedNotional(cfg, input);
    WithinShare(cfg, input, Decide(cfg, c, book, slots, reserved).notional);
    WithinCash(cfg, input, Decide(cfg, c, book, slots, reserved).notional);
  }

  lemma {:induction false} SpentByShares(cfg: SizingConfig, all: seq<Candidate>, order: seq<nat>, book: Book,
      slots: int, r: nat)
    requires Ranked(all, order) && Lists(order, all, |all|) && r <= slots <= |order| && cfg.sizeFactor <= 1.0
    ensures Spent(cfg, all, order, book, slots, r) * slots as real
            <= Stay(cfg, all, order, book, slots, r) as real * RemainingExposure(cfg, book.equity, book.exposure)
  {
    hide Decide, RemainingExposure, AtLeastZero, Before, Spent, Stay;
    if r == 0 {
      SpentNothing(cfg, all, order, book, slots);
    } else {
      SpentByShares(cfg, all, order, book, slots, r - 1);
      SpentStep(cfg, all, order, book, slots, r - 1);
      var reserved := Spent(cfg, all, order, book, slots, r - 1);
      var c := all[order[r - 1]];
      assert order[r - 1] in order;
      if Decide(cfg, c, book, slots, reserved).decision.Enter? {
        StayingIsBounded(cfg, c, book, slots, reserved);
        OneMoreShare(reserved, Decide(cfg, c, book, slots, reserved).notional, slots,
                     Stay(cfg, all, order, book, slots, r - 1), RemainingExposure(cfg, book.equity, book.exposure));
      }
    }
  }

  lemma SharesCancel(spent: real, stay: nat, slots: int, remaining: real)
    requires spent * slots as real <= stay as real * remaining && stay <= slots && 0 < slots && remaining >= 0.0
    ensures spent <= remaining
  {
    var s, k := slots as real, stay as real;
    ScaledAtLeastZero(k, s, remaining);
    assert remaining * s == s * remaining;
    Scaled(spent, remaining, s);
  }

  /** Whatever stays fits into what is left of the total exposure. */
  lemma SpentWithinExposure(cfg: SizingConfig, all: seq<Candidate>, order: seq<nat>, book: Book, slots: int)
    requires Ranked(all, order) && Lists(order, all, |all|) && 0 <= slots <= |order| && cfg.sizeFactor <= 1.0
    ensures Spent(cfg, all, order, book, slots, slots) <= RemainingExposure(cfg, book.equity, book.exposure)
  {
    hide RemainingExposure, Spent, Stay, Before;
    ExposureIsNatural(cfg, book.equity, book.exposure);
    if slots == 0 {
      SpentNothing(cfg, all, order, book, slots);
    } else {
      SpentByShares(cfg, all, order, book, slots, slots);
      SharesCancel(Spent(cfg, all, order, book, slots, slots), Stay(cfg, all, order, book, slots, slots), slots,
                   RemainingExposure(cfg, book.equity, book.exposure));
    }
  }

  lemma {:induction false} PowerIsShare(x: real, n: nat)
    requires 0.0 <= x <= 1.0
    ensures 0.0 <= Power(x, n) <= 1.0
  {
    if n > 0 {
      PowerIsShare(x, n - 1);
      var p := Power(x, n - 1);
      NaturalProduct(x, p);
      Shrinks(p, x);
      assert Power(x, n) == x * p <= p <= 1.0;
    }
  }

  /** Each signal that stays takes at most the buffered share of the cash the better ones left, so k of
      them leave at least (1 - b)^k of it. */
  lemma {:induction false} SpentWithinCash(cfg: SizingConfig, all: seq<Candidate>, order: seq<nat>, book: Book,
      slots: int, r: nat)
    requires Ranked(all, order) && Lists(order, all, |all|) && r <= slots <= |order|
    requires cfg.sizeFactor <= 1.0 && 0.0 <= cfg.cashBuffer <= 1.0 && 0.0 <= book.cash
    ensures Spent(cfg, all, order, book, slots, r)
            <= book.cash * (1.0 - Power(1.0 - cfg.cashBuffer, Stay(cfg, all, order, book, slots, r)))
  {
    hide Decide, RemainingExposure, Before;
    if r > 0 {
      SpentWithinCash(cfg, all, order, book, slots, r - 1);
      var reserved, stay := Spent(cfg, all, order, book, slots, r - 1), Stay(cfg, all, order, book, slots, r - 1);
      var c := all[order[r - 1]];
      assert order[r - 1] in order;
      if Decide(cfg, c, book, slots, reserved).decision.Enter? {
        StayingIsBounded(cfg, c, book, slots, reserved);
        PowerIsShare(1.0 - cfg.cashBuffer, stay);
        LeavesAShare(book.cash, reserved, cfg.cashBuffer, Power(1.0 - cfg.cashBuffer, stay),
          Decide(cfg, c, book, slots, reserved).notional);
      }
    }
  }

  lemma LeavesAShare(cash: real, reserved: real, buffer: real, share: real, notional: real)
    requires 0.0 <= cash && 0.0 <= buffer <= 1.0 && 0.0 <= share <= 1.0
    requires reserved <= cash * (1.0 - share) && notional <= AtLeastZero(cash - reserved) * buffer
    ensures reserved + notional <= cash * (1.0 - (1.0 - buffer) * share)
  {
    assert cash * (1.0 - share) == cash - cash * share;
    ScaledAtLeastZero(0.0, cash, share);
    assert reserved <= cash;
    assert reserved + notional <= reserved + (cash - reserved) * buffer;
    assert reserved + (cash - reserved) * buffer == reserved * (1.0 - buffer) + cash * buffer;
    ScaledAtLeastZero(reserved, cash * (1.0 - share), 1.0 - buffer);
    assert cash * (1.0 - share) * (1.0 - buffer) + cash * buffer == cash * (1.0 - (1.0 - buffer) * share);
  }
}
