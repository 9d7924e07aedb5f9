/** The daily cycle: a persisted state machine driven only by the clock, over any number of days. */
module Schedule {

  datatype SystemState =
    | Init | SyncInstruments | SyncMarketData | GenerateSignals | WaitEntry | PlaceEntry | MonitorEntry | Hold
    | WaitExit | PlaceExit | MonitorExit | Reconcile | Report | Sleep | Halted

  function Successors(from: SystemState): set<SystemState> {
    match from
    case Init =>
      {SyncInstruments, WaitExit, PlaceExit, MonitorExit, GenerateSignals, PlaceEntry, Hold, Reconcile, Sleep}
    case SyncInstruments => {SyncMarketData, Init}
    case SyncMarketData => {GenerateSignals, Init}
    case GenerateSignals => {WaitEntry, PlaceEntry, Hold, Sleep}
    case WaitEntry => {PlaceEntry, Sleep}
    case PlaceEntry => {MonitorEntry, Hold, WaitExit, PlaceExit, MonitorExit, Reconcile}
    case MonitorEntry => {Hold, WaitExit, PlaceExit, MonitorExit, Reconcile}
    case Hold => {WaitExit, PlaceExit, MonitorExit, Reconcile}
    case WaitExit => {PlaceExit}
    case PlaceExit => {MonitorExit, Reconcile}
    case MonitorExit => {PlaceExit, Reconcile}
    case Reconcile => {Report, Halted, GenerateSignals, Sleep}
    case Report => {Sleep}
    case Sleep => {Init, WaitExit, PlaceExit, MonitorExit, GenerateSignals, PlaceEntry, Hold, Reconcile}
    case Halted => {}
  }

  predicate LegalTransition(from: SystemState, to: SystemState) {
    from == to || to == Halted || to in Successors(from)
  }

  /** The same table by where a transition leads. */
  lemma EntersFrom(from: SystemState, to: SystemState)
    requires from != to && to != Halted
    ensures
      match to
      case Init => LegalTransition(from, to) <==> from in {SyncInstruments, SyncMarketData, Sleep}
      case SyncInstruments => LegalTransition(from, to) <==> from == Init
      case SyncMarketData => LegalTransition(from, to) <==> from == SyncInstruments
      case GenerateSignals => LegalTransition(from, to) <==> from in {Init, SyncMarketData, Reconcile, Sleep}
      case WaitEntry => LegalTransition(from, to) <==> from == GenerateSignals
      case PlaceEntry => LegalTransition(from, to) <==> from in {Init, GenerateSignals, WaitEntry, Sleep}
      case MonitorEntry => LegalTransition(from, to) <==> from == PlaceEntry
      case Hold => LegalTransition(from, to) <==> from in {Init, GenerateSignals, PlaceEntry, MonitorEntry, Sleep}
      case WaitExit => LegalTransition(from, to) <==> from in {Init, PlaceEntry, MonitorEntry, Hold, Sleep}
      case PlaceExit =>
        LegalTransition(from, to) <==> from in {Init, PlaceEntry, MonitorEntry, Hold, WaitExit, MonitorExit, Sleep}
      case MonitorExit =>
        LegalTransition(from, to) <==> from in {Init, PlaceEntry, MonitorEntry, Hold, PlaceExit, Sleep}
      case Reconcile =>
        LegalTransition(from, to) <==> from in {Init, PlaceEntry, MonitorEntry, Hold, PlaceExit, MonitorExit, Sleep}
      case Report => LegalTransition(from, to) <==> from == Reconcile
      case _ => LegalTransition(from, to) <==> from in {Init, GenerateSignals, WaitEntry, Reconcile, Report}
  {
  }

  // ---------------------------------------------------------------- the clock

  const DAY: int := 86_400

  function DayOf(t: nat): nat { t / DAY }

  function TimeOfDay(t: nat): nat { t % DAY }

  datatype Windows = Windows(
    exitWatch: nat, exitNotBefore: nat, exitStart: nat, exitEnd: nat, hardDeadline: nat,
    signalTime: nat, entryStart: nat, noNewEntry: nat)
  {
    function ExitOpens(): nat {
      if exitNotBefore > exitStart then exitNotBefore else exitStart
    }

    /** The order the cycle needs; the configuration check does not compare the morning's last time
        with the evening's first two. */
    predicate Ordered() {
      exitWatch <= exitNotBefore <= exitStart < exitEnd <= hardDeadline <= signalTime <= entryStart < noNewEntry <= DAY
    }
  }

  function Phase(w: Windows, tod: nat): SystemState {
    if w.exitWatch <= tod < w.ExitOpens() then WaitExit
    else if w.ExitOpens() <= tod < w.exitEnd then PlaceExit
    else if w.exitEnd <= tod < w.hardDeadline then MonitorExit
    else if w.hardDeadline <= tod < w.signalTime then Reconcile
    else if w.signalTime <= tod < w.entryStart then GenerateSignals
    else if w.entryStart <= tod < w.noNewEntry then PlaceEntry
    else if w.noNewEntry <= tod then Hold
    else Sleep
  }

  // ---------------------------------------------------------------- one step

  /** Failed: the day's report could not be sent, or not be marked as sent. */
  datatype Outcome = Ok | Stopped | Illegal(from: SystemState, to: SystemState) | Failed

  /** The persisted row, the days whose report was sent, and how the step stands. */
  datatype Row = Row(state: SystemState, halted: bool, sent: set<nat>, outcome: Outcome)

  /** What a step finds besides the clock: the entry deadline passing while it works, an exit that
      must be placed again, positions still open at the hard deadline, a critical reconciliation, a
      report that does not go out. */
  datatype Findings = Findings(late: bool, again: bool, missed: bool, critical: bool, unsent: bool)

  function Go(r: Row, to: SystemState): Row {
    if r.outcome != Ok then r
    else if r.halted || r.state == Halted then r.(outcome := Stopped)
    else if !LegalTransition(r.state, to) then r.(outcome := Illegal(r.state, to))
    else r.(state := to)
  }

  function Heartbeat(r: Row, state: SystemState): Row {
    if r.outcome != Ok then r
    else if r.halted || r.state == Halted then r.(state := Halted, halted := true)
    else r.(state := state)
  }

  function HaltIf(r: Row, halts: bool): Row {
    if r.outcome == Ok && halts then r.(state := Halted, halted := true) else r
  }

  function SendDailyReport(r: Row, day: nat, f: Findings): Row {
    if day in r.sent then Go(r, Sleep)
    else
      var reporting := Go(r, Report);
      if reporting.outcome != Ok then reporting
      else if f.unsent then reporting.(outcome := Failed)
      else Go(reporting.(sent := reporting.sent + {day}), Sleep)
  }

  function ReconcileAndReport(r: Row, day: nat, f: Findings): Row {
    if day in r.sent then Go(r, Sleep)
    else SendDailyReport(HaltIf(Go(r, Reconcile), f.critical), day, f)
  }

  /** When positions are left at the hard deadline the report is attempted, its failure only logged,
      and the system halted. */
  function HardDeadline(r: Row, day: nat, f: Findings): Row {
    if f.missed then HaltIf(SendDailyReport(r, day, f).(outcome := r.outcome), true)
    else ReconcileAndReport(r, day, f)
  }

  function PrepareSignals(r: Row): Row {
    Go(Go(Go(Go(Go(r, Init), SyncInstruments), SyncMarketData), GenerateSignals), WaitEntry)
  }

  function MonitorEntryOrders(r: Row, f: Findings): Row {
    var monitoring := HaltIf(Go(r, MonitorEntry), f.critical);
    if f.late then Go(monitoring, Hold) else monitoring
  }

  function PlaceEntryOrders(r: Row, f: Findings): Row {
    Go(HaltIf(Go(r, PlaceEntry), f.critical), if f.late then Hold else MonitorEntry)
  }

  function PlaceExitOrders(r: Row, f: Findings): Row {
    Go(HaltIf(Go(r, PlaceExit), f.critical), MonitorExit)
  }

  function MonitorExitOrders(r: Row, f: Findings): Row {
    var monitoring := HaltIf(Go(r, MonitorExit), f.critical);
    if f.again then PlaceExitOrders(monitoring, f) else monitoring
  }

  predicate ReportMissed(w: Windows, r: Row, t: nat) {
    && w.signalTime <= TimeOfDay(t) && Phase(w, TimeOfDay(t)) != Reconcile
    && !r.halted && r.state in {Init, Sleep} && DayOf(t) !in r.sent
  }

  function Step(w: Windows, row: Row, t: nat, f: Findings): Row {
    var r := row.(outcome := Ok);
    if ReportMissed(w, r, t) then ReconcileAndReport(r, DayOf(t), f)
    else if r.halted || r.state == Halted then r.(outcome := Stopped)
    else
      match Phase(w, TimeOfDay(t))
      case WaitExit => Go(r, WaitExit)
      case PlaceExit => if r.state == MonitorExit then MonitorExitOrders(r, f) else PlaceExitOrders(r, f)
      case MonitorExit => MonitorExitOrders(r, f)
      case Reconcile => HardDeadline(r, DayOf(t), f)
      case GenerateSignals =>
        if r.state in {WaitEntry, PlaceEntry, MonitorEntry, Hold} then Heartbeat(r, r.state) else PrepareSignals(r)
      case PlaceEntry => if r.state == MonitorEntry then MonitorEntryOrders(r, f) else PlaceEntryOrders(r, f)
      case Hold => HaltIf(Go(r, Hold), f.critical)
      case _ => Heartbeat(r, Sleep)
  }

  /** One round of the loop: whatever goes wrong in a step, other than finding the system halted, halts
      the system. */
  function Round(w: Windows, row: Row, t: nat, f: Findings): Row {
    var r := Step(w, row, t, f);
    if r.outcome.Ok? || r.outcome.Stopped? then r else r.(state := Halted, halted := true)
  }

  // ---------------------------------------------------------------- exactly when a step is illegal

  /** Where a step without failures leaves the machine. */
  predicate Resting(state: SystemState) {
    state in {Init, Sleep, WaitExit, MonitorExit, WaitEntry, MonitorEntry, Hold, Halted}
  }

  /** The state has no way into what the clock now asks for. */
  predicate Stuck(state: SystemState, phase: SystemState) {
    match state
    case WaitExit => phase in {MonitorExit, Reconcile, GenerateSignals, PlaceEntry, Hold}
    case MonitorExit => phase in {WaitExit, GenerateSignals, PlaceEntry, Hold}
    case WaitEntry => phase in {Hold, WaitExit, PlaceExit, MonitorExit, Reconcile}
    case Hold => phase == PlaceEntry
    case _ => false
  }

  /** Reports are sent for no later day than today, and once today's is sent the morning is over. */
  predicate Tidy(w: Windows, r: Row, t: nat) {
    && (forall d :: d in r.sent ==> d <= DayOf(t))
    && (DayOf(t) in r.sent && TimeOfDay(t) < w.signalTime ==>
          w.hardDeadline <= TimeOfDay(t) && (r.state in {Init, Sleep} || r.halted))
  }

  /** Where a legal step in each phase leaves the machine, unless it was halted. */
  predicate Settled(phase: SystemState, state: SystemState) {
    match phase
    case WaitExit => state == WaitExit
    case PlaceExit => state == MonitorExit
    case MonitorExit => state == MonitorExit
    case GenerateSignals => state in {WaitEntry, MonitorEntry, Sleep}
    case PlaceEntry => state in {MonitorEntry, Hold, Sleep}
    case Hold => state in {Hold, Sleep}
    case _ => state == Sleep
  }

  predicate Ready(w: Windows, r: Row, t: nat) {
    Resting(r.state) && Tidy(w, r, t) && !r.halted && r.state != Halted
  }

  /** What a step is by the phase it is taken in, once it is known that no report was missed. */
  function PhaseStep(r: Row, phase: SystemState, day: nat, f: Findings): Row {
    match phase
    case WaitExit => Go(r, WaitExit)
    case PlaceExit => if r.state == MonitorExit then MonitorExitOrders(r, f) else PlaceExitOrders(r, f)
    case MonitorExit => MonitorExitOrders(r, f)
    case Reconcile => HardDeadline(r, day, f)
    case GenerateSignals =>
      if r.state in {WaitEntry, PlaceEntry, MonitorEntry, Hold} then Heartbeat(r, r.state) else PrepareSignals(r)
    case PlaceEntry => if r.state == MonitorEntry then MonitorEntryOrders(r, f) else PlaceEntryOrders(r, f)
    case Hold => HaltIf(Go(r, Hold), f.critical)
    case _ => Heartbeat(r, Sleep)
  }

  lemma MorningStep(r: Row, phase: SystemState, day: nat, f: Findings)
    requires r.outcome == Ok && Resting(r.state) && !r.halted && r.state != Halted
    requires phase in {WaitExit, PlaceExit, MonitorExit}
    ensures var r' := PhaseStep(r, phase, day, f);
            && (r'.outcome.Illegal? <==> Stuck(r.state, phase)) && r'.sent == r.sent && !r'.outcome.Failed?
            && (!r'.outcome.Illegal? ==> if r'.halted then r'.state == Halted else Settled(phase, r'.state))
  {
  }

  lemma EveningStep(r: Row, phase: SystemState, day: nat, f: Findings)
    requires r.outcome == Ok && Resting(r.state) && !r.halted && r.state != Halted
    requires phase in {GenerateSignals, PlaceEntry, Hold, Sleep}
    ensures var r' := PhaseStep(r, phase, day, f);
            && (r'.outcome.Illegal? <==> Stuck(r.state, phase)) && r'.sent == r.sent && !r'.outcome.Failed?
            && (!r'.outcome.Illegal? ==>
                  if r'.halted then r'.state == Halted
                  else Settled(phase, r'.state) || (r.state == Hold == r'.state && phase == GenerateSignals))
            && (!r'.outcome.Illegal? && r'.state == Hold && phase == PlaceEntry ==> f.late)
  {
    hide PrepareSignals, MonitorEntryOrders, PlaceEntryOrders;
    if phase == GenerateSignals {
      if r.state !in {WaitEntry, MonitorEntry, Hold} {
        PreparingStep(r);
      }
    } else if phase == PlaceEntry {
      EntryStep(r, f);
    }
  }

  lemma PreparingStep(r: Row)
    requires r.outcome == Ok && Resting(r.state) && !r.halted && r.state != Halted
    requires r.state !in {WaitEntry, MonitorEntry, Hold}
    ensures var r' := PrepareSignals(r);
            && (r'.outcome.Illegal? <==> Stuck(r.state, GenerateSignals)) && r'.sent == r.sent && !r'.outcome.Failed?
            && !r'.halted && (!r'.outcome.Illegal? ==> r'.state == WaitEntry)
  {
  }

  lemma EntryStep(r: Row, f: Findings)
    requires r.outcome == Ok && Resting(r.state) && !r.halted && r.state != Halted
    ensures var r' := if r.state == MonitorEntry then MonitorEntryOrders(r, f) else PlaceEntryOrders(r, f);
            && (r'.outcome.Illegal? <==> Stuck(r.state, PlaceEntry)) && r'.sent == r.sent && !r'.outcome.Failed?
            && (!r'.outcome.Illegal? ==> if r'.halted then r'.state == Halted else r'.state in {MonitorEntry, Hold})
            && (!r'.outcome.Illegal? && r'.state == Hold ==> f.late)
  {
  }

  /** A step that failed to send the report left the machine in REPORT and the day unmarked. */
  predicate Unsent(r: Row, r': Row) {
    r'.state == Report && !r'.halted && r'.sent == r.sent
  }

  lemma ReportStep(r: Row, day: nat, f: Findings)
    requires r.outcome == Ok && !r.halted && r.state in {Init, Sleep}
    ensures var r' := ReconcileAndReport(r, day, f);
            && !r'.outcome.Illegal? && (r'.outcome.Failed? <==> f.unsent && !f.critical && day !in r.sent)
            && (if r'.outcome.Failed? then Unsent(r, r') else r'.state == if r'.halted then Halted else Sleep)
            && (r'.sent == r.sent || r'.sent == r.sent + {day})
  {
  }

  lemma ReconcileStep(r: Row, day: nat, f: Findings)
    requires r.outcome == Ok && Resting(r.state) && !r.halted && r.state != Halted
    requires day in r.sent ==> r.state in {Init, Sleep}
    ensures var r' := HardDeadline(r, day, f);
            && (r'.outcome.Illegal? <==> Stuck(r.state, Reconcile) && !f.missed)
            && (r'.outcome.Failed? <==>
                  f.unsent && !f.critical && !f.missed && day !in r.sent && !Stuck(r.state, Reconcile))
            && (r'.outcome.Failed? ==> Unsent(r, r'))
            && (!r'.outcome.Illegal? && !r'.outcome.Failed? ==>
                  r'.state == if r'.halted then Halted else Sleep)
            && (r'.sent == r.sent || r'.sent == r.sent + {day})
            && (f.missed ==> r'.sent == r.sent && r'.halted)
  {
  }

  lemma StepIs(w: Windows, r: Row, t: nat, f: Findings)
    requires !r.halted && r.state != Halted
    ensures Step(w, r, t, f) ==
            if ReportMissed(w, r, t) then ReconcileAndReport(r.(outcome := Ok), DayOf(t), f)
            else PhaseStep(r.(outcome := Ok), Phase(w, TimeOfDay(t)), DayOf(t), f)
    ensures Phase(w, TimeOfDay(t)) in {WaitExit, PlaceExit, MonitorExit, Reconcile, GenerateSignals, PlaceEntry, Hold,
        Sleep}
    ensures ReportMissed(w, r, t) ==> r.state in {Init, Sleep}
  {
    hide ReconcileAndReport, Go, PlaceExitOrders, MonitorExitOrders, HardDeadline, PrepareSignals, Heartbeat,
      HaltIf, MonitorEntryOrders, PlaceEntryOrders;
  }

  /** A step is refused as illegal if and only if the state is stuck in the phase. With positions left
      at the hard deadline there is no refusal: the failed report is only logged. */
  lemma IllegalIffStuck(w: Windows, r: Row, t: nat, f: Findings)
    requires w.Ordered() && Ready(w, r, t)
    ensures var phase := Phase(w, TimeOfDay(t));
            Step(w, r, t, f).outcome.Illegal? <==> Stuck(r.state, phase) && !(phase == Reconcile && f.missed)
  {
    hide Step, PhaseStep, ReconcileAndReport;
    StepIs(w, r, t, f);
    var ok, phase := r.(outcome := Ok), Phase(w, TimeOfDay(t));
    if ReportMissed(w, r, t) {
      ReportStep(ok, DayOf(t), f);
    } else if phase == Reconcile {
      ReconcileStep(ok, DayOf(t), f);
      ReconcileIs(ok, DayOf(t), f);
    } else if phase in {WaitExit, PlaceExit, MonitorExit} {
      MorningStep(ok, phase, DayOf(t), f);
    } else {
      EveningStep(ok, phase, DayOf(t), f);
    }
  }

  lemma ReconcileIs(r: Row, day: nat, f: Findings)
    ensures PhaseStep(r, Reconcile, day, f) == HardDeadline(r, day, f)
  {
  }

  /** A legal step leaves the machine settled in its phase, the reports tidy, and the hard deadline with
      positions left never gets its report out. */
  lemma LegalStepSettles(w: Windows, r: Row, t: nat, f: Findings)
    requires w.Ordered() && Ready(w, r, t) && !Step(w, r, t, f).outcome.Illegal?
    ensures var r' := Step(w, r, t, f);
            && (if r'.outcome.Failed? then Unsent(r, r')
                else if r'.halted then r'.state == Halted
                else Ready(w, r', t) && (Settled(Phase(w, TimeOfDay(t)), r'.state)
                     || (r.state == Hold == r'.state && Phase(w, TimeOfDay(t)) == GenerateSignals)))
            && (r'.state == Hold && Phase(w, TimeOfDay(t)) == PlaceEntry ==> f.late)
            && (Phase(w, TimeOfDay(t)) == Reconcile && f.missed ==> r'.sent == r.sent)
  {
    hide Step, PhaseStep, ReconcileAndReport, HardDeadline;
    StepIs(w, r, t, f);
    var ok, phase := r.(outcome := Ok), Phase(w, TimeOfDay(t));
    if ReportMissed(w, r, t) {
      ReportStep(ok, DayOf(t), f);
    } else if phase == Reconcile {
      ReconcileStep(ok, DayOf(t), f);
      ReconcileIs(ok, DayOf(t), f);
    } else if phase in {WaitExit, PlaceExit, MonitorExit} {
      MorningStep(ok, phase, DayOf(t), f);
    } else {
      EveningStep(ok, phase, DayOf(t), f);
    }
  }

  /** A step fails if and only if a report was due and did not go out: it was missed earlier, or the
      hard deadline has come with nothing left open and a state that may reconcile. */
  lemma FailedIff(w: Windows, r: Row, t: nat, f: Findings)
    requires w.Ordered() && Ready(w, r, t)
    ensures
      var due := ReportMissed(w, r, t)
                 || (Phase(w, TimeOfDay(t)) == Reconcile && !f.missed && !Stuck(r.state, Reconcile));
      Step(w, r, t, f).outcome.Failed? <==> due && f.unsent && !f.critical && DayOf(t) !in r.sent
  {
    hide Step, PhaseStep, ReconcileAndReport, HardDeadline;
    StepIs(w, r, t, f);
    var ok, phase := r.(outcome := Ok), Phase(w, TimeOfDay(t));
    if ReportMissed(w, r, t) {
      ReportStep(ok, DayOf(t), f);
    } else if phase == Reconcile {
      ReconcileStep(ok, DayOf(t), f);
      ReconcileIs(ok, DayOf(t), f);
    } else if phase in {WaitExit, PlaceExit, MonitorExit} {
      MorningStep(ok, phase, DayOf(t), f);
    } else {
      EveningStep(ok, phase, DayOf(t), f);
    }
  }

  // ---------------------------------------------------------------- the day by the clock

  /** The row that may be worked on. */
  predicate Running(r: Row) {
    !r.halted && r.state != Halted
  }

  /** A step found the reports critical: the system is halted, and nothing was reported. */
  predicate HaltedBy(r: Row, r': Row) {
    r'.halted && r'.state == Halted && r'.sent == r.sent && r'.outcome in {Ok, Stopped}
  }

  /** Reconciled and reported: halted if that was critical, failed in REPORT if the report did not go
      out, asleep with the day marked otherwise. */
  predicate ReportedBy(r: Row, r': Row, day: nat, f: Findings) {
    if f.critical then HaltedBy(r, r')
    else if f.unsent then r' == r.(state := Report, outcome := Failed)
    else r' == r.(state := Sleep, sent := r.sent + {day}, outcome := Ok)
  }

  lemma HaltedTick(w: Windows, r: Row, t: nat, f: Findings)
    requires !Running(r)
    ensures Step(w, r, t, f) == r.(outcome := Stopped)
  {
    hide ReconcileAndReport, Go, PlaceExitOrders, MonitorExitOrders, HardDeadline, PrepareSignals, Heartbeat,
      HaltIf, MonitorEntryOrders, PlaceEntryOrders;
  }

  lemma NightTick(w: Windows, r: Row, t: nat, f: Findings)
    requires w.Ordered() && Running(r) && TimeOfDay(t) < w.exitWatch
    ensures Step(w, r, t, f) == r.(state := Sleep, outcome := Ok)
  {
    hide Step, Go, ReconcileAndReport;
    StepIs(w, r, t, f);
  }

  lemma WatchTick(w: Windows, r: Row, t: nat, f: Findings)
    requires w.Ordered() && Running(r) && w.exitWatch <= TimeOfDay(t) < w.exitStart
    ensures Step(w, r, t, f) ==
            if r.state in {Init, PlaceEntry, MonitorEntry, Hold, WaitExit, Sleep}
            then r.(state := WaitExit, outcome := Ok)
            else r.(outcome := Illegal(r.state, WaitExit))
  {
    hide Step, ReconcileAndReport;
    StepIs(w, r, t, f);
  }

  lemma ExitTick(w: Windows, r: Row, t: nat, f: Findings)
    requires w.Ordered() && Running(r) && w.exitStart <= TimeOfDay(t) < w.exitEnd
    ensures var r' := Step(w, r, t, f);
            if r.state !in {Init, PlaceEntry, MonitorEntry, Hold, WaitExit, PlaceExit, MonitorExit, Sleep}
            then r' == r.(outcome := Illegal(r.state, PlaceExit))
            else if f.critical then
              HaltedBy(r, r') && r'.outcome == if r.state == MonitorExit && !f.again then Ok else Stopped
            else r' == r.(state := MonitorExit, outcome := Ok)
  {
    hide Step, ReconcileAndReport;
    StepIs(w, r, t, f);
  }

  lemma LastExitTick(w: Windows, r: Row, t: nat, f: Findings)
    requires w.Ordered() && Running(r) && w.exitEnd <= TimeOfDay(t) < w.hardDeadline
    ensures var r' := Step(w, r, t, f);
            if r.state !in {Init, PlaceEntry, MonitorEntry, Hold, PlaceExit, MonitorExit, Sleep}
            then r' == r.(outcome := Illegal(r.state, MonitorExit))
            else if f.critical then HaltedBy(r, r') && r'.outcome == if f.again then Stopped else Ok
            else r' == r.(state := MonitorExit, outcome := Ok)
  {
    hide Step, ReconcileAndReport;
    StepIs(w, r, t, f);
  }

  /** From the hard deadline on: positions left halt the system, whatever the state; otherwise the day is
      reconciled and reported once. */
  lemma DeadlineTick(w: Windows, r: Row, t: nat, f: Findings)
    requires w.Ordered() && Running(r) && w.hardDeadline <= TimeOfDay(t) < w.signalTime
    ensures var r', day := Step(w, r, t, f), DayOf(t);
            if f.missed then
              && r'.halted && r'.state == Halted && r'.outcome == Ok
              && r'.sent == r.sent + if r.state in {Reconcile, Report} && !f.unsent then {day} else {}
            else if day in r.sent then
              r' == if r.state in {Init, GenerateSignals, WaitEntry, Reconcile, Report, Sleep}
                    then r.(state := Sleep, outcome := Ok) else r.(outcome := Illegal(r.state, Sleep))
            else if r.state in {Init, PlaceEntry, MonitorEntry, Hold, PlaceExit, MonitorExit, Reconcile, Sleep}
            then ReportedBy(r, r', day, f)
            else r' == r.(outcome := Illegal(r.state, Reconcile))
  {
    hide Step;
    StepIs(w, r, t, f);
  }

  /** After the signal time a machine that never reported the day does that first. */
  lemma MissedTick(w: Windows, r: Row, t: nat, f: Findings)
    requires w.Ordered() && w.signalTime <= TimeOfDay(t)
    requires !r.halted && r.state in {Init, Sleep} && DayOf(t) !in r.sent
    ensures ReportedBy(r, Step(w, r, t, f), DayOf(t), f)
  {
    hide Step;
    StepIs(w, r, t, f);
  }

  lemma SignalTick(w: Windows, r: Row, t: nat, f: Findings)
    requires w.Ordered() && Running(r) && w.signalTime <= TimeOfDay(t) < w.entryStart
    requires r.state in {Init, Sleep} ==> DayOf(t) in r.sent
    ensures Step(w, r, t, f) ==
            if r.state in {WaitEntry, PlaceEntry, MonitorEntry, Hold} then r.(outcome := Ok)
            else if r.state in {Init, SyncInstruments, SyncMarketData, Sleep}
            then r.(state := WaitEntry, outcome := Ok)
            else r.(outcome := Illegal(r.state, Init))
  {
    hide Step, ReconcileAndReport, PrepareSignals;
    StepIs(w, r, t, f);
    PreparedFrom(r.(outcome := Ok));
  }

  lemma PreparedFrom(r: Row)
    requires r.outcome == Ok && Running(r)
    ensures PrepareSignals(r) ==
            if r.state in {Init, SyncInstruments, SyncMarketData, Sleep} then r.(state := WaitEntry)
            else r.(outcome := Illegal(r.state, Init))
  {
    assert r.state in {Init, SyncInstruments, SyncMarketData, Sleep} ==> Go(r, Init) == r.(state := Init);
  }

  lemma EntryTick(w: Windows, r: Row, t: nat, f: Findings)
    requires w.Ordered() && Running(r) && w.entryStart <= TimeOfDay(t) < w.noNewEntry
    requires r.state in {Init, Sleep} ==> DayOf(t) in r.sent
    ensures var r' := Step(w, r, t, f);
            if r.state !in {Init, GenerateSignals, WaitEntry, PlaceEntry, MonitorEntry, Sleep}
            then r' == r.(outcome := Illegal(r.state, PlaceEntry))
            else if f.critical then HaltedBy(r, r')
            else r' == r.(state := if f.late then Hold else MonitorEntry, outcome := Ok)
  {
    hide Step, ReconcileAndReport;
    StepIs(w, r, t, f);
  }

  lemma HoldTick(w: Windows, r: Row, t: nat, f: Findings)
    requires w.Ordered() && Running(r) && w.noNewEntry <= TimeOfDay(t)
    requires r.state in {Init, Sleep} ==> DayOf(t) in r.sent
    ensures var r' := Step(w, r, t, f);
            if r.state !in {Init, GenerateSignals, PlaceEntry, MonitorEntry, Hold, Sleep}
            then r' == r.(outcome := Illegal(r.state, Hold))
            else if f.critical then HaltedBy(r, r')
            else r' == r.(state := Hold, outcome := Ok)
  {
    hide Step, ReconcileAndReport;
    StepIs(w, r, t, f);
  }

  // ---------------------------------------------------------------- any number of days

  datatype Tick = Tick(at: nat, found: Findings)

  function Run(w: Windows, start: Row, ticks: seq<Tick>): Row {
    if ticks == [] then start
    else Round(w, Run(w, start, ticks[..|ticks| - 1]), ticks[|ticks| - 1].at, ticks[|ticks| - 1].found)
  }

  /** Between two moments a whole window of some day went by. */
  ghost predicate Skipped(opens: nat, closes: nat, t: nat, t': nat) {
    exists d: nat :: t < d * DAY + opens && d * DAY + closes <= t'
  }

  /** The windows a machine in this state must not sleep through. */
  ghost predicate Kept(w: Windows, state: SystemState, t: nat, t': nat) {
    && (state == WaitExit ==> !Skipped(w.ExitOpens(), w.exitEnd, t, t'))
    && (state == MonitorExit ==> !Skipped(w.hardDeadline, w.signalTime, t, t'))
    && (state == WaitEntry ==> !Skipped(w.entryStart, w.noNewEntry, t, t'))
    && (state == Hold ==> !Skipped(w.hardDeadline, w.signalTime, t, t'))
  }

  /** Time goes forward, past what a tick itself found out about it. */
  predicate Later(w: Windows, tick: Tick, t': nat) {
    tick.at <= t' && (tick.found.late ==> DayOf(tick.at) * DAY + w.noNewEntry <= t')
  }

  /** What is known before a tick at t' about the tick before it. */
  ghost predicate Rested(w: Windows, r: Row, tick: Tick) {
    if r.halted then r.state == Halted
    else Ready(w, r, tick.at) && (Settled(Phase(w, TimeOfDay(tick.at)), r.state))
         && (r.state == Hold && Phase(w, TimeOfDay(tick.at)) == PlaceEntry ==> tick.found.late)
  }

  lemma TimeSplits(t: nat)
    ensures t == DayOf(t) * DAY + TimeOfDay(t) && TimeOfDay(t) < DAY
  {
  }

  lemma DaysApart(t: nat, t': nat)
    requires t <= t'
    ensures DayOf(t) <= DayOf(t')
    ensures DayOf(t) < DayOf(t') ==> DayOf(t) * DAY + DAY <= DayOf(t') * DAY
  {
    TimeSplits(t);
    TimeSplits(t');
  }

  /** A settled machine gets stuck only by sleeping through a window it had to keep: PLACE_EXIT after
      WAIT_EXIT, RECONCILE after MONITOR_EXIT or HOLD, PLACE_ENTRY after WAIT_ENTRY. */
  lemma StuckOnlyAfterSkip(w: Windows, r: Row, tick: Tick, t': nat)
    requires w.Ordered() && Rested(w, r, tick) && !r.halted && Later(w, tick, t')
    requires Stuck(r.state, Phase(w, TimeOfDay(t'))) || (r.state == Hold && Phase(w, TimeOfDay(t')) == GenerateSignals)
    ensures !Kept(w, r.state, tick.at, t')
  {
    var t := tick.at;
    TimeSplits(t);
    TimeSplits(t');
    DaysApart(t, t');
    var d := if r.state == WaitEntry then DayOf(t) else if r.state == MonitorExit then DayOf(t) else DayOf(t');
    match r.state
    case WaitExit => assert t < d * DAY + w.ExitOpens() && d * DAY + w.exitEnd <= t';
    case MonitorExit => assert t < d * DAY + w.hardDeadline && d * DAY + w.signalTime <= t';
    case WaitEntry => assert t < d * DAY + w.entryStart && d * DAY + w.noNewEntry <= t';
    case Hold => assert t < d * DAY + w.hardDeadline && d * DAY + w.signalTime <= t';
    case _ =>
  }

  /** Later the same row is still tidy: on a new day nothing was sent, on the same day the morning does
      not come back. */
  lemma TidyLater(w: Windows, r: Row, tick: Tick, t': nat)
    requires w.Ordered() && Rested(w, r, tick) && !r.halted && tick.at <= t'
    ensures Ready(w, r, t')
  {
    TimeSplits(tick.at);
    TimeSplits(t');
    DaysApart(tick.at, t');
  }

  ghost predicate KeptAll(w: Windows, start: Row, ticks: seq<Tick>) {
    forall k :: 0 < k < |ticks| ==>
      Later(w, ticks[k - 1], ticks[k].at) && Kept(w, Run(w, start, ticks[..k]).state, ticks[k - 1].at, ticks[k].at)
  }

  /** In INIT or SLEEP, as after a restart or a lifted halt, with no report sent that the clock has not
      come to yet. */
  predicate Startable(w: Windows, start: Row, t: nat) {
    start.state in {Init, Sleep} && !start.halted && Tidy(w, start, t)
  }

  ghost predicate StartsWell(w: Windows, start: Row, ticks: seq<Tick>) {
    ticks != [] ==> Startable(w, start, ticks[0].at)
  }

  /** Legal daily cycle: over any number of days and whatever the ticks find, a machine started in INIT or
      SLEEP never asks for an illegal transition so long as it keeps its windows. */
  lemma {:induction false} NeverIllegal(w: Windows, start: Row, ticks: seq<Tick>)
    requires w.Ordered() && StartsWell(w, start, ticks) && KeptAll(w, start, ticks) && ticks != []
    ensures !Run(w, start, ticks).outcome.Illegal?
    ensures Rested(w, Run(w, start, ticks), ticks[|ticks| - 1])
  {
    hide Step, Settled, Kept, Stuck, Phase;
    var n := |ticks|;
    var before, tick := ticks[..n - 1], ticks[n - 1];
    var r := Run(w, start, before);
    if n == 1 {
      StartIsReady(w, start, tick);
    } else {
      assert forall k :: 0 < k < n - 1 ==> before[..k] == ticks[..k];
      assert before == ticks[..n - 1];
      NeverIllegal(w, start, before);
      assert Later(w, ticks[n - 2], tick.at) && Kept(w, r.state, ticks[n - 2].at, tick.at);
      if r.halted {
        HaltedStays(w, r, tick);
        return;
      }
      TidyLater(w, r, ticks[n - 2], tick.at);
      var phase := Phase(w, TimeOfDay(tick.at));
      if Stuck(r.state, phase) || (r.state == Hold && phase == GenerateSignals) {
        StuckOnlyAfterSkip(w, r, ticks[n - 2], tick.at);
        assert false;
      }
    }
    IllegalIffStuck(w, r, tick.at, tick.found);
    LegalStepSettles(w, r, tick.at, tick.found);
  }

  lemma StartIsReady(w: Windows, start: Row, tick: Tick)
    requires Startable(w, start, tick.at)
    ensures Ready(w, start, tick.at) && !Stuck(start.state, Phase(w, TimeOfDay(tick.at)))
  {
  }

  lemma HaltedStays(w: Windows, r: Row, tick: Tick)
    requires r.halted && r.state == Halted
    ensures Round(w, r, tick.at, tick.found) == r.(outcome := Stopped)
  {
  }

  /** Nothing but lifting the halt ends it: however many days pass, every round is stopped. */
  lemma {:induction false} HaltedForever(w: Windows, r: Row, ticks: seq<Tick>)
    requires r.halted && r.state == Halted
    ensures Run(w, r, ticks) == if ticks == [] then r else r.(outcome := Stopped)
  {
    hide Round;
    if ticks != [] {
      HaltedForever(w, r, ticks[..|ticks| - 1]);
      HaltedStays(w, Run(w, r, ticks[..|ticks| - 1]), ticks[|ticks| - 1]);
    }
  }

  // ---------------------------------------------------------------- a clock that does not pause

  /** No pause between ticks is longer than one of the three windows. */
  predicate Dense(w: Windows, ticks: seq<Tick>) {
    forall k :: 0 < k < |ticks| ==>
      && Later(w, ticks[k - 1], ticks[k].at)
      && ticks[k].at - ticks[k - 1].at <= w.exitEnd - w.ExitOpens()
      && ticks[k].at - ticks[k - 1].at <= w.signalTime - w.hardDeadline
      && ticks[k].at - ticks[k - 1].at <= w.noNewEntry - w.entryStart
  }

  lemma DenseKeepsWindows(w: Windows, start: Row, ticks: seq<Tick>)
    requires w.Ordered() && Dense(w, ticks)
    ensures KeptAll(w, start, ticks)
  {
  }

  lemma NeverIllegalWhenDense(w: Windows, start: Row, ticks: seq<Tick>)
    requires w.Ordered() && StartsWell(w, start, ticks) && Dense(w, ticks) && ticks != []
    ensures !Run(w, start, ticks).outcome.Illegal?
  {
    DenseKeepsWindows(w, start, ticks);
    NeverIllegal(w, start, ticks);
  }

  // ---------------------------------------------------------------- what goes wrong otherwise

  const USUAL := Windows(32400, 34200, 34200, 36000, 39600, 64800, 66600, 67800)

  const QUIET := Findings(false, false, false, false, false)

  const ASLEEP := Row(Sleep, false, {}, Ok)

  lemma StepAt(r: Row, t: nat, day: nat, phase: SystemState)
    requires day * DAY <= t < day * DAY + DAY && Phase(USUAL, t - day * DAY) == phase
    requires !r.halted && r.state != Halted
    requires t - day * DAY < USUAL.signalTime || r.state !in {Init, Sleep} || day in r.sent
    ensures Step(USUAL, r, t, QUIET) == PhaseStep(r.(outcome := Ok), phase, day, QUIET)
  {
    hide PhaseStep, Step;
    PhaseAt(t, day, phase);
    StepIs(USUAL, r, t, QUIET);
  }

  /** Where undisturbed phases lead an unhalted row, and where they are refused. */
  lemma QuietFrom(r: Row, day: nat)
    requires r.outcome == Ok && !r.halted
    ensures r.state == Sleep ==> PhaseStep(r, PlaceExit, day, QUIET) == r.(state := MonitorExit)
    ensures r.state == Sleep ==> PhaseStep(r, Hold, day, QUIET) == r.(state := Hold)
    ensures r.state == Hold ==> PhaseStep(r, GenerateSignals, day, QUIET) == r
    ensures r.state == MonitorExit ==> PhaseStep(r, GenerateSignals, day, QUIET).outcome == Illegal(MonitorExit, Init)
    ensures r.state == WaitEntry ==> PhaseStep(r, Hold, day, QUIET).outcome == Illegal(WaitEntry, Hold)
    ensures r.state == Hold ==> PhaseStep(r, PlaceEntry, day, QUIET).outcome == Illegal(Hold, PlaceEntry)
  {
  }

  lemma QuietPreparation(r: Row, day: nat)
    requires r.outcome == Ok && !r.halted && r.state == Sleep
    ensures PhaseStep(r, GenerateSignals, day, QUIET) == r.(state := WaitEntry)
  {
    hide HaltIf, MonitorExitOrders, PlaceExitOrders, MonitorEntryOrders, PlaceEntryOrders, HardDeadline, Heartbeat;
    assert Go(r, Init) == r.(state := Init);
    assert Go(r.(state := Init), SyncInstruments) == r.(state := SyncInstruments);
    assert Go(r.(state := SyncInstruments), SyncMarketData) == r.(state := SyncMarketData);
    assert Go(r.(state := SyncMarketData), GenerateSignals) == r.(state := GenerateSignals);
  }

  lemma SleptThroughPlaceExit()
    ensures Step(USUAL, Step(USUAL, ASLEEP, 33000, QUIET), 37000, QUIET).outcome == Illegal(WaitExit, MonitorExit)
  {
    hide Step;
    StepAt(ASLEEP, 33000, 0, WaitExit);
    StepAt(ASLEEP.(state := WaitExit), 37000, 0, MonitorExit);
  }

  lemma SleptThroughReconcile()
    ensures Step(USUAL, Step(USUAL, ASLEEP, 35000, QUIET), 65000, QUIET).outcome == Illegal(MonitorExit, Init)
  {
    hide Step, PhaseStep;
    StepAt(ASLEEP, 35000, 0, PlaceExit);
    QuietFrom(ASLEEP, 0);
    QuietFrom(ASLEEP.(state := MonitorExit), 0);
    StepAt(ASLEEP.(state := MonitorExit), 65000, 0, GenerateSignals);
  }

  const REPORTED := Row(Sleep, false, {0}, Ok)

  lemma SleptThroughPlaceEntry()
    ensures Step(USUAL, Step(USUAL, REPORTED, 65000, QUIET), 68000, QUIET).outcome == Illegal(WaitEntry, Hold)
  {
    hide Step, PhaseStep;
    StepAt(REPORTED, 65000, 0, GenerateSignals);
    QuietPreparation(REPORTED, 0);
    QuietFrom(REPORTED.(state := WaitEntry), 0);
    StepAt(REPORTED.(state := WaitEntry), 68000, 0, Hold);
  }

  /** After a night in HOLD the refusal comes late, at PLACE_ENTRY, because GENERATE_SIGNALS only
      beats the heart. */
  lemma SleptThroughTheMorning()
    ensures var held := Step(USUAL, REPORTED, 68000, QUIET);
            Step(USUAL, Step(USUAL, held, DAY + 65000, QUIET), DAY + 67000, QUIET).outcome == Illegal(Hold, PlaceEntry)
  {
    hide Step, PhaseStep;
    QuietFrom(REPORTED, 0);
    QuietFrom(REPORTED.(state := Hold), 1);
    StepAt(REPORTED, 68000, 0, Hold);
    StepAt(REPORTED.(state := Hold), DAY + 65000, 1, GenerateSignals);
    StepAt(REPORTED.(state := Hold), DAY + 67000, 1, PlaceEntry);
  }

  lemma PhaseAt(t: nat, day: nat, phase: SystemState)
    requires day * DAY <= t < day * DAY + DAY && Phase(USUAL, t - day * DAY) == phase
    ensures DayOf(t) == day && TimeOfDay(t) == t - day * DAY && Phase(USUAL, TimeOfDay(t)) == phase
  {
    TimeSplits(t);
  }

  /** At the hard deadline with positions left, the report goes out exactly from the two states no
      step rests in. */
  lemma DeadlineReportIff(r: Row, day: nat, f: Findings)
    requires r.outcome == Ok && !r.halted && r.state != Halted && f.missed && day !in r.sent
    ensures day in HardDeadline(r, day, f).sent <==> r.state in {Reconcile, Report} && !f.unsent
  {
  }

  /** A report that does not go out halts the system: the day stays unmarked, and every later round is
      stopped until the halt is lifted. */
  lemma FailedReportHalts(w: Windows, r: Row, t: nat, f: Findings, ticks: seq<Tick>)
    requires w.Ordered() && Ready(w, r, t) && Step(w, r, t, f).outcome.Failed?
    ensures var halted := Round(w, r, t, f);
            && halted.halted && halted.state == Halted && halted.sent == r.sent
            && Run(w, halted, ticks) == if ticks == [] then halted else halted.(outcome := Stopped)
  {
    hide Step;
    LegalStepSettles(w, r, t, f);
    HaltedForever(w, Round(w, r, t, f), ticks);
  }

  /** The row when the process dies between the transition to REPORT and the marking of the day. */
  function Interrupted(r: Row, day: nat, f: Findings): Row {
    Go(HaltIf(Go(r, Reconcile), f.critical), Report)
  }

  /** Only such a crash leaves the machine in REPORT, which a restart keeps. The next round after it is
      refused, and so halts the system, unless it falls into the night or finds positions left open at
      a hard deadline, where the report goes out and the system is halted all the same. */
  lemma CrashedReport(w: Windows, r: Row, day: nat, f: Findings, t: nat, g: Findings)
    requires r.outcome == Ok && Reconcile in Successors(r.state) && !r.halted && !f.critical && DayOf(t) !in r.sent
    ensures
      var crashed := Interrupted(r, day, f);
      var next := Round(w, crashed, t, g);
      var phase := Phase(w, TimeOfDay(t));
      && crashed == r.(state := Report)
      && (next.outcome.Illegal? <==> phase != Sleep && !(phase == Reconcile && g.missed))
      && (phase == Sleep ==> next == r.(state := Sleep))
      && (phase != Sleep ==> next.halted && next.state == Halted)
      && (DayOf(t) in next.sent <==> phase == Reconcile && g.missed && !g.unsent)
  {
    hide Step, PhaseStep, ReconcileAndReport, Interrupted;
    CrashLeaves(r, day, f);
    var crashed := Interrupted(r, day, f);
    StepIs(w, crashed, t, g);
    FromReport(crashed, Phase(w, TimeOfDay(t)), DayOf(t), g);
  }

  lemma CrashLeaves(r: Row, day: nat, f: Findings)
    requires r.outcome == Ok && Reconcile in Successors(r.state) && !r.halted && !f.critical
    ensures Interrupted(r, day, f) == r.(state := Report)
  {
  }

  lemma FromReport(r: Row, phase: SystemState, day: nat, g: Findings)
    requires r.outcome == Ok && r.state == Report && !r.halted && day !in r.sent
    requires phase in {WaitExit, PlaceExit, MonitorExit, Reconcile, GenerateSignals, PlaceEntry, Hold, Sleep}
    ensures var next := PhaseStep(r, phase, day, g);
            && (if phase == Sleep then next == r.(state := Sleep)
                else if phase == Reconcile && g.missed then next.outcome.Ok? && next.halted && next.state == Halted
                else next.outcome.Illegal?)
            && (day in next.sent <==> phase == Reconcile && g.missed && !g.unsent)
  {
  }
}
