/** The scheduler's tick as it runs: reads and writes of the persisted row, one after another. It does
    to the row what the step function of the daily cycle says. */
module Scheduler {
  import opened Schedule
  import opened SystemStateRow

  class DailyScheduler {
    const windows: Windows
    const repo: Repository
    const system: System
    var sent: set<nat>

    constructor (windows: Windows, repo: Repository, system: System)
      requires system.repo == repo
      ensures this.windows == windows && this.repo == repo && this.system == system && sent == {}
    {
      this.windows, this.repo, this.system := windows, repo, system;
      sent := {};
    }

    ghost predicate Valid()
    {
      system.repo == repo
    }

    function AsRow(outcome: Outcome): Row
      reads this, repo
    {
      Row(repo.state, repo.halted, sent, outcome)
    }

    method TransitionTo(to: SystemState) returns (outcome: Outcome)
      requires Valid() && to != Halted
      modifies repo
      ensures AsRow(outcome) == Go(old(AsRow(Ok)), to)
      ensures outcome.Ok? ==>
        repo.Row() == Save(to, system.mode, false, "", if old(repo.state) == to then "{\"heartbeat\"}" else "{}")
      ensures !outcome.Ok? ==> repo.Row() == old(repo.Row())
    {
      if repo.halted || repo.state == Halted {
        return Stopped;
      }
      if repo.state == to {
        system.Heartbeat(to);
        return Ok;
      }
      outcome := system.Transition(repo.state, to);
    }

    method HaltSystem(halts: bool)
      requires Valid()
      modifies repo
      ensures AsRow(Ok) == HaltIf(old(AsRow(Ok)), halts)
      ensures repo.mode == if halts then system.mode else old(repo.mode)
    {
      if halts {
        system.Halt("critical");
      }
    }

    method SendReport(day: nat, f: Findings) returns (outcome: Outcome)
      requires Valid()
      modifies this, repo
      ensures AsRow(outcome) == SendDailyReport(old(AsRow(Ok)), day, f)
      ensures outcome.Ok? ==> repo.mode == system.mode
    {
      if day in sent {
        outcome := TransitionTo(Sleep);
        return;
      }
      outcome := TransitionTo(Report);
      if !outcome.Ok? {
        return;
      }
      if f.unsent {
        return Failed;
      }
      sent := sent + {day};
      outcome := TransitionTo(Sleep);
    }

    method ReconcileAndSend(day: nat, f: Findings) returns (outcome: Outcome)
      requires Valid()
      modifies this, repo
      ensures AsRow(outcome) == ReconcileAndReport(old(AsRow(Ok)), day, f)
      ensures outcome.Ok? ==> repo.mode == system.mode
    {
      if day in sent {
        outcome := TransitionTo(Sleep);
        return;
      }
      outcome := TransitionTo(Reconcile);
      if outcome.Ok? {
        HaltSystem(f.critical);
        outcome := SendReport(day, f);
      }
    }

    method FailOpenPositionsAtHardDeadline(day: nat, f: Findings) returns (outcome: Outcome)
      requires Valid()
      modifies this, repo
      ensures AsRow(outcome) == HardDeadline(old(AsRow(Ok)), day, f)
      ensures outcome.Ok? ==> repo.mode == system.mode
    {
      if !f.missed {
        outcome := ReconcileAndSend(day, f);
        return;
      }
      var _ := SendReport(day, f);
      HaltSystem(true);
      outcome := Ok;
    }

    /** The states are passed one by one until one is refused. */
    method TransitionSequence(states: seq<SystemState>) returns (outcome: Outcome)
      requires Valid() && Halted !in states
      modifies repo
      ensures AsRow(outcome) == GoAll(old(AsRow(Ok)), states)
      ensures outcome.Ok? && states != [] ==> repo.mode == system.mode
    {
      outcome := Ok;
      for i := 0 to |states|
        invariant AsRow(outcome) == GoAll(old(AsRow(Ok)), states[..i])
        invariant outcome.Ok? && 0 < i ==> repo.mode == system.mode
      {
        assert states[..i + 1][..i] == states[..i];
        if outcome.Ok? {
          outcome := TransitionTo(states[i]);
        }
      }
      assert states[..|states|] == states;
    }

    method PlaceExits(f: Findings) returns (outcome: Outcome)
      requires Valid()
      modifies repo
      ensures AsRow(outcome) == PlaceExitOrders(old(AsRow(Ok)), f)
      ensures outcome.Ok? ==> repo.mode == system.mode
    {
      outcome := TransitionTo(PlaceExit);
      if outcome.Ok? {
        HaltSystem(f.critical);
        outcome := TransitionTo(MonitorExit);
      }
    }

    method MonitorExits(f: Findings) returns (outcome: Outcome)
      requires Valid()
      modifies repo
      ensures AsRow(outcome) == MonitorExitOrders(old(AsRow(Ok)), f)
      ensures outcome.Ok? ==> repo.mode == system.mode
    {
      outcome := TransitionTo(MonitorExit);
      if outcome.Ok? {
        HaltSystem(f.critical);
        if f.again {
          outcome := PlaceExits(f);
        }
      }
    }

    method PlaceEntries(f: Findings) returns (outcome: Outcome)
      requires Valid()
      modifies repo
      ensures AsRow(outcome) == PlaceEntryOrders(old(AsRow(Ok)), f)
      ensures outcome.Ok? ==> repo.mode == system.mode
    {
      outcome := TransitionTo(PlaceEntry);
      if outcome.Ok? {
        HaltSystem(f.critical);
        outcome := TransitionTo(if f.late then Hold else MonitorEntry);
      }
    }

    method MonitorEntries(f: Findings) returns (outcome: Outcome)
      requires Valid()
      modifies repo
      ensures AsRow(outcome) == MonitorEntryOrders(old(AsRow(Ok)), f)
      ensures outcome.Ok? ==> repo.mode == system.mode
    {
      outcome := TransitionTo(MonitorEntry);
      if outcome.Ok? {
        HaltSystem(f.critical);
        if f.late {
          outcome := TransitionTo(Hold);
        }
      }
    }

    method SendMissedDailyReport(t: nat, f: Findings) returns (reported: bool, outcome: Outcome)
      requires Valid()
      modifies this, repo
      ensures reported == ReportMissed(windows, old(AsRow(Ok)), t)
      ensures AsRow(outcome) == if reported then ReconcileAndReport(old(AsRow(Ok)), DayOf(t), f) else old(AsRow(Ok))
      ensures reported && outcome.Ok? ==> repo.mode == system.mode
    {
      reported, outcome := false, Ok;
      if TimeOfDay(t) < windows.signalTime || Phase(windows, TimeOfDay(t)) == Reconcile {
        return;
      }
      if repo.halted || repo.state == Halted || (repo.state != Init && repo.state != Sleep) || DayOf(t) in sent {
        return;
      }
      reported := true;
      outcome := ReconcileAndSend(DayOf(t), f);
    }

    /** One tick of the scheduler, given what it finds on its way. Past the hard deadline it leaves no
        position unnoticed: the system is halted, or else the day was reconciled and its report went out,
        was critical, or failed. */
    method Tick(t: nat, f: Findings) returns (outcome: Outcome)
      requires Valid()
      modifies this, repo
      ensures AsRow(outcome) == Step(windows, old(AsRow(Ok)), t, f)
      ensures outcome.Ok? ==> repo.mode == system.mode
      ensures
        (&& windows.Ordered() && windows.hardDeadline <= TimeOfDay(t) < windows.signalTime
         && !old(repo.halted) && old(repo.state) in {MonitorExit, Reconcile}) ==>
        if f.missed then repo.halted && repo.state == Halted
        else DayOf(t) in sent || (repo.halted && f.critical) || (outcome.Failed? && f.unsent)
    {
      hide ReconcileAndReport, MonitorExitOrders, PlaceExitOrders, MonitorEntryOrders, PlaceEntryOrders,
        HardDeadline, Phase, ReportMissed;
      DeadlineBreaks(windows, AsRow(Ok), t, f);
      var reported;
      reported, outcome := SendMissedDailyReport(t, f);
      if reported {
        return;
      }
      if repo.halted || repo.state == Halted {
        return Stopped;
      }
      match Phase(windows, TimeOfDay(t)) {
        case WaitExit => outcome := TransitionTo(WaitExit);
        case PlaceExit =>
          if repo.state == MonitorExit {
            outcome := MonitorExits(f);
          } else {
            outcome := PlaceExits(f);
          }
        case MonitorExit => outcome := MonitorExits(f);
        case Reconcile => outcome := FailOpenPositionsAtHardDeadline(DayOf(t), f);
        case GenerateSignals =>
          if repo.state in {WaitEntry, PlaceEntry, MonitorEntry, Hold} {
            system.Heartbeat(repo.state);
          } else {
            outcome := TransitionSequence([Init, SyncInstruments, SyncMarketData, GenerateSignals]);
            if outcome.Ok? {
              outcome := TransitionTo(WaitEntry);
            }
            PreparedInSequence(old(AsRow(Ok)));
          }
        case PlaceEntry =>
          if repo.state == MonitorEntry {
            outcome := MonitorEntries(f);
          } else {
            outcome := PlaceEntries(f);
          }
        case Hold =>
          outcome := TransitionTo(Hold);
          if outcome.Ok? {
            HaltSystem(f.critical);
          }
        case _ => system.Heartbeat(Sleep);
      }
    }

    /** One round of the loop: whatever goes wrong in a tick, other than finding the system halted, halts
        the system. */
    method Round(t: nat, f: Findings) returns (outcome: Outcome)
      requires Valid()
      modifies this, repo
      ensures AsRow(outcome) == Schedule.Round(windows, old(AsRow(Ok)), t, f)
    {
      hide Step;
      outcome := Tick(t, f);
      if !outcome.Ok? && !outcome.Stopped? {
        system.Halt("scheduler_error");
      }
    }

    /** The scheduler's loop: over any number of days, as long as no window it had to keep was slept
        through, no tick is refused. */
    method Run(ticks: seq<Schedule.Tick>) returns (outcomes: seq<Outcome>)
      requires Valid() && windows.Ordered() && StartsWell(windows, AsRow(Ok), ticks)
        && KeptAll(windows, AsRow(Ok), ticks)
      modifies this, repo
      ensures |outcomes| == |ticks| && forall k :: 0 <= k < |ticks| ==> !outcomes[k].Illegal?
    {
      hide Schedule.Round, KeptAll, StartsWell, Schedule.Run, GoAll;
      outcomes := [];
      ghost var start := AsRow(Ok);
      RunOfNone(windows, start);
      for i := 0 to |ticks|
        invariant |outcomes| == i && forall k :: 0 <= k < i ==> !outcomes[k].Illegal?
        invariant AsRow(if i == 0 then Ok else outcomes[i - 1]) == Schedule.Run(windows, start, ticks[..i])
      {
        NextTickIsLegal(windows, start, ticks, i);
        var outcome := Round(ticks[i].at, ticks[i].found);
        outcomes := outcomes + [outcome];
      }
    }
  }

  /** What the hard deadline brings, for a machine that was monitoring or reconciling. */
  lemma DeadlineBreaks(w: Windows, r: Row, t: nat, f: Findings)
    ensures
      (&& w.Ordered() && w.hardDeadline <= TimeOfDay(t) < w.signalTime
       && !r.halted && r.state in {MonitorExit, Reconcile}) ==>
      var r' := Step(w, r, t, f);
      if f.missed then r'.halted && r'.state == Halted
      else DayOf(t) in r'.sent || (r'.halted && f.critical) || (r'.outcome.Failed? && f.unsent)
  {
    hide Step, Phase;
    if w.Ordered() && w.hardDeadline <= TimeOfDay(t) < w.signalTime
       && !r.halted && r.state in {MonitorExit, Reconcile} {
      DeadlineTick(w, r, t, f);
    }
  }

  lemma RunOfNone(w: Windows, start: Row)
    ensures Schedule.Run(w, start, []) == start
  {
  }

  lemma NextTickIsLegal(w: Windows, start: Row, ticks: seq<Schedule.Tick>, i: nat)
    requires i < |ticks| && w.Ordered() && StartsWell(w, start, ticks) && KeptAll(w, start, ticks)
    ensures
      var next := Round(w, Schedule.Run(w, start, ticks[..i]).(outcome := Ok), ticks[i].at, ticks[i].found);
      next == Schedule.Run(w, start, ticks[..i + 1]) && !next.outcome.Illegal?
  {
    hide Round, Kept, Startable;
    var prefix := ticks[..i + 1];
    assert prefix[..i] == ticks[..i];
    assert forall k :: 0 < k < |prefix| ==> prefix[..k] == ticks[..k];
    RoundForgetsOutcome(w, Schedule.Run(w, start, ticks[..i]), ticks[i].at, ticks[i].found);
    NeverIllegal(w, start, prefix);
  }

  lemma RoundForgetsOutcome(w: Windows, r: Row, t: nat, f: Findings)
    ensures Round(w, r, t, f) == Round(w, r.(outcome := Ok), t, f)
  {
  }

  function GoAll(r: Row, states: seq<SystemState>): Row {
    if states == [] then r else Go(GoAll(r, states[..|states| - 1]), states[|states| - 1])
  }

  lemma PreparedInSequence(r: Row)
    ensures PrepareSignals(r) == Go(GoAll(r, [Init, SyncInstruments, SyncMarketData, GenerateSignals]), WaitEntry)
  {
    hide Go;
    var four := [Init, SyncInstruments, SyncMarketData, GenerateSignals];
    assert four[..3] == [Init, SyncInstruments, SyncMarketData] && four[..3][..2] == [Init, SyncInstruments];
    assert four[..3][..2][..1] == [Init] && [Init][..0] == [];
    assert GoAll(r, [Init]) == Go(r, Init);
    assert GoAll(r, [Init, SyncInstruments]) == Go(GoAll(r, [Init]), SyncInstruments);
  }
}
