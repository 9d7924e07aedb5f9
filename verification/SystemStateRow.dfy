/** The one row that holds the system's state: how it is written, and why a halt stays. */
module SystemStateRow {
  import opened Schedule

  datatype Save = Save(state: SystemState, mode: nat, halted: bool, reason: string, context: string)

  /** The upsert as it is meant: all columns from the old row at once. A save that does not halt leaves
      state, flag and reason of a halted row alone. */
  function Upserted(row: Save, save: Save): Save {
    if row.halted && !save.halted then row.(mode := save.mode, context := save.context) else save
  }

  /** The halt an operator or a risk check asks for. */
  function HaltSave(mode: nat, reason: string): Save {
    Save(Halted, mode, true, reason, "{}")
  }

  /** The row as the database keeps it. */
  class Repository {
    var state: SystemState
    var mode: nat
    var halted: bool
    var reason: string
    var context: string

    constructor ()
      ensures Row() == Save(Init, 0, false, "", "{}")
    {
      state, mode, halted, reason, context := Init, 0, false, "", "{}";
    }

    function Row(): Save
      reads this
    {
      Save(state, mode, halted, reason, context)
    }

    /** The database evaluates the assignments from left to right, so the reason is decided by the flag
        that was just written. It comes to the same. */
    method SaveSystemState(save: Save)
      modifies this
      ensures Row() == Upserted(old(Row()), save)
    {
      state := if halted && !save.halted then state else save.state;
      mode := save.mode;
      halted := if halted && !save.halted then halted else save.halted;
      reason := if halted && !save.halted then reason else save.reason;
      context := save.context;
    }

    /** An operator lifts the halt: refused if there is none, otherwise every column is overwritten. */
    method Unhalt() returns (ok: bool)
      modifies this
      ensures ok <==> old(halted) || old(state) == Halted
      ensures Row() == if ok then Save(Init, old(mode), false, "", "{\"manual_unhalt\":true}") else old(Row())
    {
      ok := halted || state == Halted;
      if ok {
        state, halted, reason, context := Init, false, "", "{\"manual_unhalt\":true}";
      }
    }
  }

  // ---------------------------------------------------------------- the state machine over the row

  class System {
    const repo: Repository
    const mode: nat
    const tradesAtBroker: bool

    constructor (repo: Repository, mode: nat, tradesAtBroker: bool)
      ensures this.repo == repo && this.mode == mode && this.tradesAtBroker == tradesAtBroker
    {
      this.repo, this.mode, this.tradesAtBroker := repo, mode, tradesAtBroker;
    }

    method Persist(state: SystemState, halted: bool, reason: string)
      modifies repo
      ensures repo.Row() == Upserted(old(repo.Row()), Save(state, mode, halted, reason, "{}"))
    {
      repo.SaveSystemState(Save(state, mode, halted, reason, "{}"));
    }

    method Halt(reason: string)
      modifies repo
      ensures repo.Row() == HaltSave(mode, reason)
    {
      Persist(Halted, true, reason);
    }

    method Transition(from: SystemState, to: SystemState) returns (outcome: Outcome)
      modifies repo
      ensures outcome.Stopped? <==> (old(repo.halted) || old(repo.state) == Halted) && to != Halted
      ensures !outcome.Failed?
      ensures outcome.Illegal? <==> !outcome.Stopped? && !LegalTransition(from, to)
      ensures outcome.Illegal? ==> outcome == Illegal(from, to)
      ensures repo.Row() == if outcome.Ok? then Upserted(old(repo.Row()), Save(to, mode, false, "", "{}"))
                            else old(repo.Row())
    {
      if (repo.halted || repo.state == Halted) && to != Halted {
        return Stopped;
      }
      if !LegalTransition(from, to) {
        return Illegal(from, to);
      }
      Persist(to, false, "");
      outcome := Ok;
    }

    method Heartbeat(state: SystemState)
      modifies repo
      ensures repo.Row() == Upserted(old(repo.Row()), HeartbeatSave(old(repo.Row()), state, mode))
    {
      if repo.halted || repo.state == Halted {
        repo.SaveSystemState(Save(Halted, mode, true, repo.reason, "{\"heartbeat\"}"));
      } else {
        repo.SaveSystemState(Save(state, mode, false, "", "{\"heartbeat\"}"));
      }
    }

    /** After a restart: trading states are kept if broker and books agree, preparation starts over. */
    method Recover(critical: bool) returns (state: SystemState, ok: bool)
      modifies repo
      ensures old(repo.halted) || old(repo.state) == Halted ==> !ok && state == Halted && repo.Row() == old(repo.Row())
      ensures !old(repo.halted) && old(repo.state) != Halted ==>
        && (repo.halted <==>
              && old(repo.state) in {PlaceEntry, MonitorEntry, PlaceExit, MonitorExit, Hold}
              && tradesAtBroker && critical)
        && (ok <==> !repo.halted)
        && state == repo.state
        && (ok ==>
              state == if old(repo.state) in {Init, SyncInstruments, SyncMarketData, GenerateSignals} then Init
                       else old(repo.state))
        && (!ok ==> state == Halted && repo.Row() == HaltSave(mode, repo.reason))
        && (ok ==> repo.Row() == if old(repo.state) in {Init, SyncInstruments, SyncMarketData, GenerateSignals}
                                 then Save(Init, mode, false, "", "{}") else old(repo.Row()))
    {
      state, ok := repo.state, true;
      if repo.halted || repo.state == Halted {
        return Halted, false;
      }
      if state in {PlaceEntry, MonitorEntry, PlaceExit, MonitorExit, Hold} {
        if tradesAtBroker && critical {
          Halt("critical reconciliation diff during recovery");
          return Halted, false;
        }
      } else if state in {Init, SyncInstruments, SyncMarketData, GenerateSignals} {
        Persist(Init, false, "");
        state := Init;
      }
    }
  }

  /** What a heartbeat will write is decided by the row it reads. */
  function HeartbeatSave(row: Save, state: SystemState, mode: nat): Save {
    if row.halted || row.state == Halted then Save(Halted, mode, true, row.reason, "{\"heartbeat\"}")
    else Save(state, mode, false, "", "{\"heartbeat\"}")
  }

  // ---------------------------------------------------------------- reading and saving are two steps

  /** Between the read that decides a save and the save itself anything may happen. A pending save
      remembers whether it was decided on a halted row. */
  datatype Event =
    | Beat(state: SystemState)         // a heartbeat reads the row and decides
    | Move(to: SystemState)            // a transition reads the row and decides
    | Commit(i: nat)                   // some decided save reaches the database
    | OperatorHalt(reason: string)
    | OperatorUnhalt

  datatype World = World(row: Save, pending: seq<Save>)

  predicate IsHalted(row: Save) {
    row.halted || row.state == Halted
  }

  function Take(w: World, e: Event, mode: nat): World {
    match e
    case Beat(state) => w.(pending := w.pending + [HeartbeatSave(w.row, state, mode)])
    case Move(to) =>
      if IsHalted(w.row) || !LegalTransition(w.row.state, to) then w
      else w.(pending := w.pending + [Save(to, mode, false, "", "{}")])
    case Commit(i) => if i < |w.pending| then w.(row := Upserted(w.row, w.pending[i])) else w
    case OperatorHalt(reason) => w.(row := HaltSave(mode, reason))
    case OperatorUnhalt =>
      if IsHalted(w.row) then w.(row := Save(Init, w.row.mode, false, "", "{\"manual_unhalt\":true}")) else w
  }

  function Run(w: World, events: seq<Event>, mode: nat): World {
    if events == [] then w else Take(Run(w, events[..|events| - 1], mode), events[|events| - 1], mode)
  }

  /** Every save decided so far halts exactly when it names HALTED. */
  ghost predicate Coherent(w: World) {
    && (w.row.halted <==> w.row.state == Halted)
    && forall i :: 0 <= i < |w.pending| ==> (w.pending[i].halted <==> w.pending[i].state == Halted)
  }

  predicate NeverHaltsByMove(e: Event) {
    (e.Move? ==> e.to != Halted) && (e.Beat? ==> e.state != Halted)
  }

  lemma TakeKeepsCoherent(w: World, e: Event, mode: nat)
    requires Coherent(w) && NeverHaltsByMove(e)
    ensures Coherent(Take(w, e, mode))
    ensures w.row.halted && !e.OperatorUnhalt? ==> Take(w, e, mode).row.halted
  {
  }

  lemma {:induction false} RunKeepsCoherent(w: World, events: seq<Event>, mode: nat)
    requires Coherent(w) && forall k :: 0 <= k < |events| ==> NeverHaltsByMove(events[k])
    ensures Coherent(Run(w, events, mode))
  {
    if events != [] {
      RunKeepsCoherent(w, events[..|events| - 1], mode);
      TakeKeepsCoherent(Run(w, events[..|events| - 1], mode), events[|events| - 1], mode);
    }
  }

  /** Sticky halt: from a halted row, in every interleaving of decided saves with each other and with
      further halts, the row stays halted in state HALTED until an operator lifts it. */
  lemma {:induction false} HaltSticks(w: World, events: seq<Event>, mode: nat)
    requires Coherent(w) && w.row.halted
    requires forall k :: 0 <= k < |events| ==> NeverHaltsByMove(events[k]) && !events[k].OperatorUnhalt?
    ensures Run(w, events, mode).row.halted && Run(w, events, mode).row.state == Halted
  {
    if events != [] {
      var before := events[..|events| - 1];
      HaltSticks(w, before, mode);
      RunKeepsCoherent(w, before, mode);
      TakeKeepsCoherent(Run(w, before, mode), events[|events| - 1], mode);
      RunKeepsCoherent(w, events, mode);
    }
  }

  /** A transition is decided if and only if the row it reads is not halted and the move is legal. */
  lemma MoveIsDecidedIff(w: World, to: SystemState, mode: nat)
    ensures var w' := Take(w, Move(to), mode);
            && w'.row == w.row
            && (if !w.row.halted && w.row.state != Halted && LegalTransition(w.row.state, to)
                then w'.pending == w.pending + [Save(to, mode, false, "", "{}")] else w'.pending == w.pending)
  {
  }

  /** Lifting starts a halted row over and leaves any other as it is. */
  lemma LiftsOnlyHalts(w: World, mode: nat)
    ensures var w' := Take(w, OperatorUnhalt, mode);
            && w'.pending == w.pending
            && (if w.row.halted || w.row.state == Halted
                then w'.row == Save(Init, w.row.mode, false, "", "{\"manual_unhalt\":true}") else w'.row == w.row)
  {
  }

  ghost predicate GivesReason(w: World, reason: string) {
    && w.row.halted && w.row.reason == reason
    && forall i :: 0 <= i < |w.pending| && w.pending[i].halted ==> w.pending[i].reason == reason
  }

  /** Until somebody halts again or lifts the halt, a halted row keeps its reason, whatever heartbeats and
      transitions are saved meanwhile. */
  lemma {:induction false} ReasonStays(w: World, events: seq<Event>, mode: nat, reason: string)
    requires GivesReason(w, reason)
    requires forall k :: 0 <= k < |events| ==> !events[k].OperatorHalt? && !events[k].OperatorUnhalt?
    ensures GivesReason(Run(w, events, mode), reason)
  {
    if events != [] {
      ReasonStays(w, events[..|events| - 1], mode, reason);
    }
  }

  /** A heartbeat that was decided while the system was halted. */
  predicate CommitsStaleHalt(pending: seq<Save>, e: Event) {
    e.Commit? && e.i < |pending| && pending[e.i].halted
  }

  /** Nobody decides to halt; saves decided earlier may still arrive. */
  predicate OnlyCommits(events: seq<Event>) {
    forall k :: 0 <= k < |events| ==> events[k].Commit?
  }

  lemma {:induction false} CommitsLeavePending(w: World, events: seq<Event>, mode: nat)
    requires OnlyCommits(events)
    ensures Run(w, events, mode).pending == w.pending
  {
    if events != [] {
      CommitsLeavePending(w, events[..|events| - 1], mode);
    }
  }

  /** Lifting a halt holds only if no save decided during the halt arrives afterwards: the halt comes
      back if and only if one does. */
  lemma {:induction false} UnhaltIsUndoneIff(w: World, events: seq<Event>, mode: nat)
    requires !w.row.halted && OnlyCommits(events)
    ensures Run(w, events, mode).row.halted <==>
            exists k :: 0 <= k < |events| && CommitsStaleHalt(w.pending, events[k])
  {
    if events != [] {
      var before := events[..|events| - 1];
      UnhaltIsUndoneIff(w, before, mode);
      CommitsLeavePending(w, before, mode);
      assert forall k :: 0 <= k < |before| ==> events[k] == before[k];
    }
  }

  /** A heartbeat is decided during a halt, the operator lifts the halt, and the heartbeat is saved. */
  lemma UnhaltUndone(row: Save, state: SystemState, mode: nat)
    requires IsHalted(row)
    ensures var w := Run(World(row, []), [Beat(state), OperatorUnhalt], mode);
            && !IsHalted(w.row) && Run(World(row, []), [Beat(state), OperatorUnhalt, Commit(0)], mode).row.halted
  {
    hide Run, Take, Upserted;
    var w := World(row, []);
    RunOn(w, [], Beat(state), mode);
    RunOn(w, [] + [Beat(state)], OperatorUnhalt, mode);
    RunOn(w, [] + [Beat(state)] + [OperatorUnhalt], Commit(0), mode);
    assert [] + [Beat(state)] + [OperatorUnhalt] == [Beat(state), OperatorUnhalt];
    assert [] + [Beat(state)] + [OperatorUnhalt] + [Commit(0)] == [Beat(state), OperatorUnhalt, Commit(0)];
    StaleBeat(row, state, mode);
  }

  lemma RunOn(w: World, events: seq<Event>, e: Event, mode: nat)
    ensures Run(w, [], mode) == w && Run(w, events + [e], mode) == Take(Run(w, events, mode), e, mode)
  {
    hide Take;
    assert (events + [e])[..|events|] == events;
  }

  lemma StaleBeat(row: Save, state: SystemState, mode: nat)
    requires IsHalted(row)
    ensures var w := Take(Take(World(row, []), Beat(state), mode), OperatorUnhalt, mode);
            !IsHalted(w.row) && Take(w, Commit(0), mode).row.halted
  {
  }
}
