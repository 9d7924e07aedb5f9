/** Posting an order as a protocol of small steps: concurrent callers that hold one lock per
    instrument, durable rows and counters, and a process that may crash between any two steps and
    start again on what it had stored. */
module Posting {
  import opened RawState
  import opened Domain
  import opened Gateway

  type Thread = nat
  type Key = (int, string)

  /** Where a caller stands. Every stage but Idle is reached and left under the instrument's lock. */
  datatype Stage =
    | Idle
    | Locked(id: ClientId)               // lock taken, the store not yet asked
    | Absent(id: ClientId)               // the store has no order of this id
    | Drafted(id: ClientId)              // draft row and reservation committed, nothing posted
    | Acknowledged(id: ClientId)         // the broker said yes
    | Refused(id: ClientId, lost: bool)  // the broker said no, or its yes was lost
    | Cancelling(id: ClientId)           // lock taken to cancel; the broker knows only orders it accepted
    | CancelAccepted(id: ClientId)       // the broker accepted the cancel, nothing counted yet

  datatype Config = Config(limits: map<string, int>, cancelCounts: bool)

  /** What a crash loses. */
  datatype Process = Process(threads: map<Thread, Stage>, locks: map<string, Thread>)

  datatype State = State(
    process: Process,
    rows: set<ClientId>, released: set<ClientId>, counters: Counters,  // durable
    calls: seq<ClientId>, acked: set<ClientId>, lost: set<ClientId>,   // what happened at the broker
    cancels: seq<ClientId>, faults: nat)                               // counted cancels; crashes and store failures

  const INIT := State(Process(map[], map[]), {}, {}, map[], [], {}, {}, [], 0)

  datatype Step =
    | Begin(t: Thread, id: ClientId)
    | LookUp(t: Thread, ok: bool)
    | Reserve(t: Thread, required: int, ok: bool)
    | Post(t: Thread, accepted: bool, answered: bool)
    | Record(t: Thread, ok: bool)
    | Release(t: Thread, ok: bool)
    | BeginCancel(t: Thread, id: ClientId)
    | CallCancel(t: Thread, accepted: bool)
    | CountCancel(t: Thread, ok: bool)
    | Crash

  function At(p: Process, t: Thread): Stage {
    if t in p.threads then p.threads[t] else Idle
  }

  function StageOf(s: State, t: Thread): Stage {
    At(s.process, t)
  }

  /** Only thread t moved, and only the lock of instrument x may have changed hands. */
  ghost predicate Private(p: Process, q: Process, t: Thread, x: string) {
    && (forall u :: u != t ==> At(q, u) == At(p, u))
    && (forall y :: y != x ==> (y in q.locks) == (y in p.locks) && (y in p.locks ==> q.locks[y] == p.locks[y]))
  }

  function Moved(p: Process, t: Thread, stage: Stage): (q: Process)
    ensures At(q, t) == stage && q.locks == p.locks && forall x :: Private(p, q, t, x)
  {
    p.(threads := p.threads[t := stage])
  }

  function Acquired(p: Process, t: Thread, stage: Stage, x: string): (q: Process)
    ensures At(q, t) == stage && x in q.locks && q.locks[x] == t && Private(p, q, t, x)
  {
    Process(p.threads[t := stage], p.locks[x := t])
  }

  function Released(p: Process, t: Thread, x: string): (q: Process)
    ensures At(q, t) == Idle && x !in q.locks && Private(p, q, t, x)
  {
    Process(p.threads[t := Idle], p.locks - {x})
  }

  function Enter(s: State, t: Thread, stage: Stage): State {
    s.(process := Moved(s.process, t, stage))
  }

  function Lock(s: State, t: Thread, stage: Stage, x: string): State {
    s.(process := Acquired(s.process, t, stage, x))
  }

  function Leave(s: State, t: Thread, id: ClientId): State {
    s.(process := Released(s.process, t, id.instrument))
  }

  function LimitOf(cfg: Config, id: ClientId): int {
    if id.instrument in cfg.limits then cfg.limits[id.instrument] else 0
  }

  function Faulty(s: State, ok: bool): State {
    if ok then s else s.(faults := s.faults + 1)
  }

  /** One step; a step that is not enabled changes nothing. */
  function Take(cfg: Config, s: State, step: Step): State {
    match step
    case Begin(t, id) =>
      if StageOf(s, t).Idle? && id.instrument !in s.process.locks
      then Lock(s, t, Locked(id), id.instrument) else s
    case LookUp(t, ok) =>
      (match StageOf(s, t)
       case Locked(id) => if !ok then Leave(Faulty(s, false), t, id)
                          else if id in s.rows then Leave(s, t, id) else Enter(s, t, Absent(id))
       case _ => s)
    case Reserve(t, required, ok) =>
      (match StageOf(s, t)
       case Absent(id) =>
         var needed := if required < 1 then 1 else required;
         if !ok then Leave(Faulty(s, false), t, id)
         else if LimitOf(cfg, id) > 0 && LimitOf(cfg, id) - SentToday(s.counters, id) < needed then Leave(s, t, id)
         else Enter(s, t, Drafted(id)).(rows := s.rows + {id}, counters := Incremented(s.counters, id, 1))
       case _ => s)
    case Post(t, accepted, answered) =>
      (match StageOf(s, t)
       case Drafted(id) =>
         var called := s.(calls := s.calls + [id]);
         if accepted && answered then Enter(called, t, Acknowledged(id)).(acked := s.acked + {id})
         else Enter(called, t, Refused(id, accepted)).(lost := if accepted then s.lost + {id} else s.lost)
       case _ => s)
    case Record(t, ok) =>
      (match StageOf(s, t)
       case Acknowledged(id) => Leave(Faulty(s, ok), t, id)
       case _ => s)
    case Release(t, ok) =>
      (match StageOf(s, t)
       case Refused(id, _) =>
         if ok then Leave(s, t, id).(released := s.released + {id}, counters := Incremented(s.counters, id, -1))
         else Leave(Faulty(s, false), t, id)
       case _ => s)
    case BeginCancel(t, id) =>
      if StageOf(s, t).Idle? && id.instrument !in s.process.locks
      then Lock(s, t, Cancelling(id), id.instrument) else s
    case CallCancel(t, accepted) =>
      (match StageOf(s, t)
       case Cancelling(id) =>
         if accepted && id in s.acked + s.lost then Enter(s, t, CancelAccepted(id)) else Leave(s, t, id)
       case _ => s)
    case CountCancel(t, ok) =>
      (match StageOf(s, t)
       case CancelAccepted(id) =>
         if !ok then Leave(Faulty(s, false), t, id)
         else if cfg.cancelCounts
         then Leave(s, t, id).(cancels := s.cancels + [id], counters := Incremented(s.counters, id, 1))
         else Leave(s, t, id)
       case _ => s)
    case Crash => s.(process := Process(map[], map[]), faults := s.faults + 1)
  }

  /** A reservation is granted if and only if the store answers and, under a positive limit, both the order
      itself and what was required are still free. Otherwise nothing is written. */
  lemma ReservesIff(cfg: Config, s: State, t: Thread, required: int, ok: bool)
    requires StageOf(s, t).Absent?
    ensures
      var id, s' := StageOf(s, t).id, Take(cfg, s, Reserve(t, required, ok));
      var enough := id.instrument in cfg.limits && cfg.limits[id.instrument] > 0 ==>
                      1 <= cfg.limits[id.instrument] - SentToday(s.counters, id)
                      && required <= cfg.limits[id.instrument] - SentToday(s.counters, id);
      && (StageOf(s', t) == Drafted(id) <==> ok && enough)
      && (if ok && enough then id in s'.rows && SentToday(s'.counters, id) == SentToday(s.counters, id) + 1
          else s'.rows == s.rows && s'.counters == s.counters && StageOf(s', t).Idle?)
  {
  }

  /** What the broker accepts is accounted for: acknowledged if the answer arrives, lost if it does not. */
  lemma PostIsAccountedFor(cfg: Config, s: State, t: Thread, accepted: bool, answered: bool)
    requires StageOf(s, t).Drafted?
    ensures
      var id, s' := StageOf(s, t).id, Take(cfg, s, Post(t, accepted, answered));
      && s'.calls == s.calls + [id] && s'.rows == s.rows && s'.counters == s.counters
      && s'.acked == (if accepted && answered then s.acked + {id} else s.acked)
      && s'.lost == (if accepted && !answered then s.lost + {id} else s.lost)
  {
  }

  /** Any sequence of steps is a run: callers interleave and the process crashes as it says. */
  function After(cfg: Config, steps: seq<Step>): State {
    if steps == [] then INIT else Take(cfg, After(cfg, steps[..|steps| - 1]), steps[|steps| - 1])
  }

  // ---------------------------------------------------------------- at most once

  /** A caller past Idle holds its instrument's lock, and knows where its order stands. */
  ghost predicate Knows(s: State, t: Thread) {
    match StageOf(s, t)
    case Idle => true
    case Locked(id) => Holds(s, t, id)
    case Absent(id) => Holds(s, t, id) && id !in s.rows
    case Drafted(id) => Holds(s, t, id) && id in s.rows && id !in s.calls && id !in s.released
    case Acknowledged(id) => Holds(s, t, id) && id in s.acked
    case Refused(id, lost) => Holds(s, t, id) && id in s.calls && id in s.rows && id !in s.acked && id !in s.released
    case Cancelling(id) => Holds(s, t, id)
    case CancelAccepted(id) => Holds(s, t, id)
  }

  predicate Holds(s: State, t: Thread, id: ClientId) {
    id.instrument in s.process.locks && s.process.locks[id.instrument] == t
  }

  /** No id was posted twice; every post had a row; what came back is about what was posted. */
  ghost predicate History(s: State) {
    && (forall i, j :: 0 <= i < |s.calls| && 0 <= j < |s.calls| && s.calls[i] == s.calls[j] ==> i == j)
    && (forall i :: 0 <= i < |s.calls| ==> s.calls[i] in s.rows)
    && (forall id :: id in s.acked || id in s.lost || id in s.released ==> id in s.calls)
    && s.acked !! s.released && s.acked !! s.lost
  }

  ghost predicate Inv(s: State) {
    (forall t :: Knows(s, t)) && History(s)
  }

  /** The lock makes a step private: it touches its own order id only, and every other caller that
      is past Idle works on another instrument. */
  ghost predicate TouchesOnly(s: State, s': State, t: Thread, id: ClientId) {
    Private(s.process, s'.process, t, id.instrument) && StoresOnly(s, s', id)
  }

  ghost predicate StoresOnly(s: State, s': State, id: ClientId) {
    && (forall x :: x != id ==> (x in s'.rows <==> x in s.rows))
    && (forall x :: x != id ==> (x in s'.acked <==> x in s.acked))
    && (forall x :: x != id ==> (x in s'.released <==> x in s.released))
    && (s'.calls == s.calls || s'.calls == s.calls + [id])
  }

  lemma OthersKnow(s: State, s': State, t: Thread, id: ClientId, u: Thread)
    requires Knows(s, u) && TouchesOnly(s, s', t, id) && u != t
    requires Holds(s, t, id) || id.instrument !in s.process.locks
    ensures Knows(s', u)
  {
    var stage := StageOf(s, u);
    assert StageOf(s', u) == stage;
    if !stage.Idle? {
      assert Holds(s, u, stage.id);
      assert Holds(s', u, stage.id);
      assert stage.id != id;
    }
  }

  function IdAt(s: State, step: Step): ClientId
    requires !step.Crash?
  {
    if step.Begin? || step.BeginCancel? then step.id
    else if StageOf(s, step.t).Idle? then ClientId(0, "", Buy, 0)
    else StageOf(s, step.t).id
  }

  lemma StepUnderLock(cfg: Config, s: State, step: Step)
    requires !step.Crash? && Knows(s, step.t)
    ensures Take(cfg, s, step) == s || Holds(s, step.t, IdAt(s, step)) || IdAt(s, step).instrument !in s.process.locks
  {
    hide SentToday, Incremented, LimitOf, Moved, Acquired, Released;
  }

  lemma StepTouches(cfg: Config, s: State, step: Step)
    requires !step.Crash?
    ensures TouchesOnly(s, Take(cfg, s, step), step.t, IdAt(s, step))
  {
    hide Take, Private, StoresOnly;
    StepLocks(cfg, s, step);
    StepStores(cfg, s, step);
  }

  lemma StepLocks(cfg: Config, s: State, step: Step)
    requires !step.Crash?
    ensures Private(s.process, Take(cfg, s, step).process, step.t, IdAt(s, step).instrument)
  {
    hide SentToday, Incremented, LimitOf, Moved, Acquired, Released;
  }

  lemma StepStores(cfg: Config, s: State, step: Step)
    requires !step.Crash?
    ensures StoresOnly(s, Take(cfg, s, step), IdAt(s, step))
  {
    hide Take, StoresOnly;
    if step.Post? || step.Release? {
      BrokerStepStores(cfg, s, step);
    } else {
      LocalStepStores(cfg, s, step);
    }
  }

  lemma BrokerStepStores(cfg: Config, s: State, step: Step)
    requires step.Post? || step.Release?
    ensures StoresOnly(s, Take(cfg, s, step), IdAt(s, step))
  {
    hide SentToday, Incremented, LimitOf, Moved, Acquired, Released;
  }

  lemma LocalStepStores(cfg: Config, s: State, step: Step)
    requires !step.Crash? && !step.Post? && !step.Release?
    ensures StoresOnly(s, Take(cfg, s, step), IdAt(s, step))
  {
    hide SentToday, Incremented, LimitOf, Moved, Acquired, Released;
  }

  lemma StepKnows(cfg: Config, s: State, step: Step)
    requires !step.Crash? && Knows(s, step.t) && History(s)
    ensures Knows(Take(cfg, s, step), step.t)
  {
    hide SentToday, Incremented, LimitOf, Moved, Acquired, Released;
    var t, s' := step.t, Take(cfg, s, step);
    if StageOf(s, t).Absent? && s' != s && StageOf(s', t).Drafted? {
      var id := StageOf(s, t).id;
      assert id !in s.calls && id !in s.released;
    }
  }

  /** History is only ever extended: by a row, by a post of an id not posted before, or by the
      release of an id the broker did not acknowledge. */
  ghost predicate Extends(s: State, s': State) {
    && s.rows <= s'.rows
    && (|| (s'.calls == s.calls && s'.acked == s.acked && s'.lost == s.lost
            && (|| s'.released == s.released
                || exists id :: id in s.calls && id !in s.acked && s'.released == s.released + {id}))
        || exists id :: PostsNew(s, s', id))
  }

  ghost predicate PostsNew(s: State, s': State, id: ClientId) {
    && id in s.rows && id !in s.calls && s'.calls == s.calls + [id] && s'.released == s.released
    && (|| (s'.acked == s.acked + {id} && s'.lost == s.lost)
        || (s'.acked == s.acked && s'.lost - {id} == s.lost - {id}))
  }

  lemma StepExtends(cfg: Config, s: State, step: Step)
    requires step.Crash? || Knows(s, step.t)
    ensures Extends(s, Take(cfg, s, step))
  {
    hide Take, Knows, PostsNew;
    if step.Post? {
      PostExtends(cfg, s, step);
    } else if step.Release? {
      ReleaseExtends(cfg, s, step);
    } else {
      OthersExtend(cfg, s, step);
    }
  }

  lemma PostExtends(cfg: Config, s: State, step: Step)
    requires step.Post? && Knows(s, step.t)
    ensures var s', stage := Take(cfg, s, step), StageOf(s, step.t);
            s.rows <= s'.rows && (s' == s || (!stage.Idle? && PostsNew(s, s', stage.id)))
  {
    hide SentToday, Incremented, LimitOf, Moved, Acquired, Released;
  }

  lemma ReleaseExtends(cfg: Config, s: State, step: Step)
    requires step.Release? && Knows(s, step.t)
    ensures var s' := Take(cfg, s, step);
            && s'.rows == s.rows && s'.calls == s.calls && s'.acked == s.acked && s'.lost == s.lost
            && (s'.released != s.released ==>
                  && !StageOf(s, step.t).Idle?
                  && var id := StageOf(s, step.t).id;
                     id in s.calls && id !in s.acked && s'.released == s.released + {id})
  {
    hide SentToday, Incremented, LimitOf, Moved, Acquired, Released;
  }

  lemma OthersExtend(cfg: Config, s: State, step: Step)
    requires !step.Post? && !step.Release?
    ensures var s' := Take(cfg, s, step);
            && s.rows <= s'.rows && s'.calls == s.calls && s'.acked == s.acked && s'.lost == s.lost
            && s'.released == s.released
  {
    hide SentToday, Incremented, LimitOf, Moved, Acquired, Released;
  }

  lemma ExtensionKeeps(s: State, s': State)
    requires History(s) && Extends(s, s')
    ensures History(s')
  {
    if s'.calls != s.calls {
      var id :| PostsNew(s, s', id);
      assert forall x :: x in s'.lost ==> x == id || x in s'.lost - {id};
      assert forall x :: x in s.lost - {id} ==> x in s.lost;
      assert forall x :: x in s.calls ==> x in s'.calls;
      assert s'.calls[|s.calls|] == id;
      assert id !in s.acked && id !in s.lost && id !in s.released;
    }
  }

  lemma StepRecords(cfg: Config, s: State, step: Step)
    requires History(s) && (step.Crash? || Knows(s, step.t))
    ensures History(Take(cfg, s, step))
  {
    hide Take, History, Extends, Knows;
    StepExtends(cfg, s, step);
    ExtensionKeeps(s, Take(cfg, s, step));
  }

  lemma StepKeeps(cfg: Config, s: State, step: Step)
    requires Inv(s)
    ensures Inv(Take(cfg, s, step))
  {
    hide Take, Knows, TouchesOnly, History;
    var s' := Take(cfg, s, step);
    if step.Crash? {
      StepRecords(cfg, s, step);
      CrashForgets(cfg, s);
    } else {
      assert Knows(s, step.t);
      StepRecords(cfg, s, step);
      StepTouches(cfg, s, step);
      StepUnderLock(cfg, s, step);
      StepKnows(cfg, s, step);
      forall u ensures Knows(s', u) {
        assert Knows(s, u);
        if u != step.t && s' != s {
          OthersKnow(s, s', step.t, IdAt(s, step), u);
        }
      }
    }
  }

  lemma CrashForgets(cfg: Config, s: State)
    ensures forall t :: Knows(Take(cfg, s, Crash), t)
  {
  }

  /** A cancel that was accepted, counted or not yet, is of an order that the broker had accepted. */
  ghost predicate CancelsKnown(s: State) {
    && (forall t :: StageOf(s, t).CancelAccepted? ==> StageOf(s, t).id in s.acked + s.lost)
    && forall k :: 0 <= k < |s.cancels| ==> s.cancels[k] in s.acked + s.lost
  }

  lemma StepRemembers(cfg: Config, s: State, step: Step)
    ensures s.acked <= Take(cfg, s, step).acked && s.lost <= Take(cfg, s, step).lost
    ensures !step.CountCancel? ==> Take(cfg, s, step).cancels == s.cancels
    ensures step.CountCancel? ==>
      || Take(cfg, s, step).cancels == s.cancels
      || (StageOf(s, step.t).CancelAccepted? && Take(cfg, s, step).cancels == s.cancels + [StageOf(s, step.t).id])
    ensures !step.Crash? && StageOf(Take(cfg, s, step), step.t).CancelAccepted? ==>
      || StageOf(Take(cfg, s, step), step.t) == StageOf(s, step.t)
      || (step.CallCancel? && StageOf(Take(cfg, s, step), step.t).id in s.acked + s.lost)
  {
    hide SentToday, Incremented, LimitOf;
  }

  lemma StepCancels(cfg: Config, s: State, step: Step)
    requires CancelsKnown(s)
    ensures CancelsKnown(Take(cfg, s, step))
  {
    hide Take;
    StepRemembers(cfg, s, step);
    var s' := Take(cfg, s, step);
    if step.Crash? {
      CrashIdles(cfg, s);
    } else {
      StepLocks(cfg, s, step);
      forall t | StageOf(s', t).CancelAccepted? ensures StageOf(s', t).id in s'.acked + s'.lost {
        assert t != step.t ==> StageOf(s', t) == StageOf(s, t);
      }
    }
  }

  lemma CrashIdles(cfg: Config, s: State)
    ensures forall t :: StageOf(Take(cfg, s, Crash), t).Idle?
  {
  }

  /** In every reachable state, no cancel is counted but of orders the broker had accepted. */
  lemma {:induction false} CancelsAreOfAccepted(cfg: Config, steps: seq<Step>)
    ensures CancelsKnown(After(cfg, steps))
    ensures forall k :: 0 <= k < |After(cfg, steps).cancels| ==>
      After(cfg, steps).cancels[k] in After(cfg, steps).acked + After(cfg, steps).lost
  {
    hide Take;
    if steps != [] {
      CancelsAreOfAccepted(cfg, steps[..|steps| - 1]);
      StepCancels(cfg, After(cfg, steps[..|steps| - 1]), steps[|steps| - 1]);
    }
  }


  lemma {:induction false} RunKeeps(cfg: Config, steps: seq<Step>)
    ensures Inv(After(cfg, steps))
  {
    if steps != [] {
      RunKeeps(cfg, steps[..|steps| - 1]);
      StepKeeps(cfg, After(cfg, steps[..|steps| - 1]), steps[|steps| - 1]);
    }
  }

  /** Whatever callers do at the same time and wherever the process crashes, the broker is asked to
      post an order id at most once. */
  lemma PostedAtMostOnce(cfg: Config, steps: seq<Step>, i: nat, j: nat)
    requires i < j < |After(cfg, steps).calls|
    ensures After(cfg, steps).calls[i] != After(cfg, steps).calls[j]
  {
    RunKeeps(cfg, steps);
  }

  // ---------------------------------------------------------------- the free-order ledger

  function Of(ids: set<ClientId>, key: Key): set<ClientId> {
    set id | id in ids && CounterOf(id) == key
  }

  function CountOf(ids: seq<ClientId>, key: Key): nat {
    if ids == [] then 0
    else CountOf(ids[..|ids| - 1], key) + if CounterOf(ids[|ids| - 1]) == key then 1 else 0
  }

  function Sent(s: State, key: Key): int {
    if key in s.counters then s.counters[key] else 0
  }

  /** The counter is reservations made, less those given back, plus cancels counted. */
  ghost predicate Exact(s: State) {
    forall key :: Sent(s, key) == |Of(s.rows, key)| - |Of(s.released, key)| + CountOf(s.cancels, key)
  }

  lemma OneMore(ids: set<ClientId>, id: ClientId, key: Key)
    requires id !in ids
    ensures |Of(ids + {id}, key)| == |Of(ids, key)| + if CounterOf(id) == key then 1 else 0
  {
    if CounterOf(id) == key {
      assert Of(ids + {id}, key) == Of(ids, key) + {id};
    } else {
      assert Of(ids + {id}, key) == Of(ids, key);
    }
  }

  lemma OneCounted(s: State, s': State, id: ClientId, delta: int, key: Key)
    requires s'.counters == Incremented(s.counters, id, delta)
    ensures Sent(s', key) == Sent(s, key) + if CounterOf(id) == key then delta else 0
  {
  }

  /** What a step may do to the books: nothing, one reservation, one release, or one counted cancel. */
  ghost predicate BooksOne(s: State, s': State) {
    || (s'.counters == s.counters && s'.rows == s.rows && s'.released == s.released && s'.cancels == s.cancels)
    || exists id :: Reserves(s, s', id) || Releases(s, s', id) || Counts(s, s', id)
  }

  ghost predicate Reserves(s: State, s': State, id: ClientId) {
    && id !in s.rows && s'.rows == s.rows + {id} && s'.released == s.released && s'.cancels == s.cancels
    && s'.counters == Incremented(s.counters, id, 1)
  }

  ghost predicate Releases(s: State, s': State, id: ClientId) {
    && id !in s.released && s'.released == s.released + {id} && s'.rows == s.rows && s'.cancels == s.cancels
    && s'.counters == Incremented(s.counters, id, -1)
  }

  ghost predicate Counts(s: State, s': State, id: ClientId) {
    && s'.cancels == s.cancels + [id] && s'.rows == s.rows && s'.released == s.released
    && s'.counters == Incremented(s.counters, id, 1)
  }

  lemma StepBooksOne(cfg: Config, s: State, step: Step)
    requires step.Crash? || Knows(s, step.t)
    ensures BooksOne(s, Take(cfg, s, step))
  {
    hide LimitOf, Moved, Acquired, Released, SentToday, Incremented;
    var s' := Take(cfg, s, step);
    if !step.Crash? && s' != s && !StageOf(s, step.t).Idle? {
      var id := StageOf(s, step.t).id;
      if step.Reserve? && s'.rows != s.rows {
        assert Reserves(s, s', id);
      } else if step.Release? && s'.released != s.released {
        assert Releases(s, s', id);
      } else if step.CountCancel? && s'.cancels != s.cancels {
        assert Counts(s, s', id);
      }
    }
  }

  lemma StepCounts(cfg: Config, s: State, step: Step)
    requires Exact(s) && (step.Crash? || Knows(s, step.t))
    ensures Exact(Take(cfg, s, step))
  {
    hide Take, Of, Sent, CountOf, Incremented, Knows;
    var s' := Take(cfg, s, step);
    StepBooksOne(cfg, s, step);
    forall key ensures Sent(s', key) == |Of(s'.rows, key)| - |Of(s'.released, key)| + CountOf(s'.cancels, key) {
      assert Sent(s, key) == |Of(s.rows, key)| - |Of(s.released, key)| + CountOf(s.cancels, key);
      if s'.counters == s.counters && s'.rows == s.rows && s'.released == s.released && s'.cancels == s.cancels {
        SameCounters(s, s', key);
      } else {
        var id :| Reserves(s, s', id) || Releases(s, s', id) || Counts(s, s', id);
        if Reserves(s, s', id) {
          OneMore(s.rows, id, key);
          OneCounted(s, s', id, 1, key);
        } else if Releases(s, s', id) {
          OneMore(s.released, id, key);
          OneCounted(s, s', id, -1, key);
        } else {
          CountOfMore(s.cancels, id, key);
          OneCounted(s, s', id, 1, key);
        }
      }
    }
  }

  lemma SameCounters(s: State, s': State, key: Key)
    requires s'.counters == s.counters
    ensures Sent(s', key) == Sent(s, key)
  {
  }

  lemma CountOfMore(ids: seq<ClientId>, id: ClientId, key: Key)
    ensures CountOf(ids + [id], key) == CountOf(ids, key) + if CounterOf(id) == key then 1 else 0
  {
    assert (ids + [id])[..|ids|] == ids;
  }

  lemma {:induction false} CounterIsExact(cfg: Config, steps: seq<Step>)
    ensures Exact(After(cfg, steps))
  {
    if steps == [] {
      assert forall key :: Of({}, key) == {};
    } else {
      var before := steps[..|steps| - 1];
      CounterIsExact(cfg, before);
      RunKeeps(cfg, before);
      if !steps[|steps| - 1].Crash? {
        assert Knows(After(cfg, before), steps[|steps| - 1].t);
      }
      StepCounts(cfg, After(cfg, before), steps[|steps| - 1]);
    }
  }

  /** In every reachable state, crashes and store failures included, the counter covers every post
      the broker acknowledged and every cancel that was counted. */
  lemma AcknowledgedWithinCounter(cfg: Config, steps: seq<Step>, key: Key)
    ensures var s := After(cfg, steps); |Of(s.acked, key)| + CountOf(s.cancels, key) <= Sent(s, key)
  {
    var s := After(cfg, steps);
    RunKeeps(cfg, steps);
    CounterIsExact(cfg, steps);
    assert Sent(s, key) == |Of(s.rows, key)| - |Of(s.released, key)| + CountOf(s.cancels, key);
    Subsets(Of(s.acked, key), Of(s.released, key), Of(s.rows, key));
  }

  /** What the broker accepted is covered too, but for acceptances that were lost on their way back and
      whose reservations were then given back. */
  lemma AcceptedWithinCounter(cfg: Config, steps: seq<Step>, key: Key)
    ensures
      var s := After(cfg, steps);
      && |Of(s.acked + (s.lost - s.released), key)| + CountOf(s.cancels, key) <= Sent(s, key)
      && |Of(s.acked + s.lost, key)| + CountOf(s.cancels, key) <= Sent(s, key) + |Of(s.lost * s.released, key)|
  {
    hide After, Knows, Sent, CountOf;
    var s := After(cfg, steps);
    RunKeeps(cfg, steps);
    CounterIsExact(cfg, steps);
    assert Sent(s, key) == |Of(s.rows, key)| - |Of(s.released, key)| + CountOf(s.cancels, key);
    var covered, missed := Of(s.acked + (s.lost - s.released), key), Of(s.lost * s.released, key);
    Subsets(covered, Of(s.released, key), Of(s.rows, key));
    assert Of(s.acked + s.lost, key) == covered + missed;
    Subsets(covered, missed, covered + missed);
  }

  lemma Subsets(a: set<ClientId>, b: set<ClientId>, all: set<ClientId>)
    requires a <= all && b <= all && a !! b
    ensures |a| + |b| <= |all|
    ensures a + b == all ==> |a| + |b| == |all|
  {
    assert |a + b| == |a| + |b|;
    assert (a + b) + (all - (a + b)) == all;
    assert |all| == |a + b| + |all - (a + b)|;
  }

  // ---------------------------------------------------------------- the daily limit

  ghost predicate Limited(cfg: Config, s: State) {
    && (!cfg.cancelCounts ==> s.cancels == [])
    && forall key: Key :: key.1 in cfg.limits && cfg.limits[key.1] > 0 && !cfg.cancelCounts ==>
         Sent(s, key) <= cfg.limits[key.1]
  }

  lemma StepLimited(cfg: Config, s: State, step: Step)
    requires Limited(cfg, s)
    ensures Limited(cfg, Take(cfg, s, step))
  {
    var s' := Take(cfg, s, step);
    forall key: Key | key.1 in cfg.limits && cfg.limits[key.1] > 0 && !cfg.cancelCounts
      ensures Sent(s', key) <= cfg.limits[key.1]
    {
      assert Sent(s, key) <= cfg.limits[key.1];
    }
  }

  lemma {:induction false} RunLimited(cfg: Config, steps: seq<Step>)
    ensures Limited(cfg, After(cfg, steps))
  {
    if steps != [] {
      RunLimited(cfg, steps[..|steps| - 1]);
      StepLimited(cfg, After(cfg, steps[..|steps| - 1]), steps[|steps| - 1]);
    }
  }

  /** The n-th order of a key's day. */
  function Nth(key: Key, n: nat): ClientId {
    ClientId(key.0, key.1, Sell, n)
  }

  /** n orders in turn, each looked up, reserved, posted, acknowledged and recorded. */
  function Posts(key: Key, n: nat): seq<Step> {
    if n == 0 then []
    else Posts(key, n - 1) + [Begin(0, Nth(key, n)), LookUp(0, true), Reserve(0, 1, true)]
         + [Post(0, true, true)] + [Record(0, true)]
  }

  /** No caller is at work; n orders were counted, the last of them acknowledged. */
  ghost predicate Posted(s: State, key: Key, n: nat) {
    && StageOf(s, 0).Idle? && s.process.locks == map[] && s.cancels == [] && s.faults == 0
    && Sent(s, key) == n && (forall id :: id in s.rows ==> id.attempt <= n)
    && (n > 0 ==> Nth(key, n) in s.acked)
  }

  /** As many posts, and the next order drafted. */
  ghost predicate DraftedNext(s: State, key: Key, n: nat) {
    && StageOf(s, 0) == Drafted(Nth(key, n)) && s.process.locks == map[key.1 := 0] && s.cancels == [] && s.faults == 0
    && Sent(s, key) == n && (forall id :: id in s.rows ==> id.attempt <= n)
  }

  lemma DraftsOneMore(cfg: Config, s: State, key: Key, n: nat)
    requires Posted(s, key, n) && key.1 in cfg.limits && n < cfg.limits[key.1]
    ensures
      var id := Nth(key, n + 1);
      DraftedNext(Take(cfg, Take(cfg, Take(cfg, s, Begin(0, id)), LookUp(0, true)), Reserve(0, 1, true)), key, n + 1)
  {
    assert Nth(key, n + 1) !in s.rows;
  }

  lemma PostsDrafted(cfg: Config, s: State, key: Key, n: nat)
    requires DraftedNext(s, key, n)
    ensures Posted(Take(cfg, Take(cfg, s, Post(0, true, true)), Record(0, true)), key, n)
  {
  }

  lemma {:induction false} PostsAreCounted(cfg: Config, key: Key, n: nat)
    requires key.1 in cfg.limits && n <= cfg.limits[key.1]
    ensures Posted(After(cfg, Posts(key, n)), key, n)
  {
    hide Take, Posted, DraftedNext, After;
    AfterNone(cfg);
    if n == 0 {
      NothingPosted(key);
    } else {
      PostsAreCounted(cfg, key, n - 1);
      var before, id := Posts(key, n - 1), Nth(key, n);
      var drafted := before + [Begin(0, id), LookUp(0, true), Reserve(0, 1, true)];
      AfterThree(cfg, before, Begin(0, id), LookUp(0, true), Reserve(0, 1, true));
      AfterOne(cfg, drafted, Post(0, true, true));
      AfterOne(cfg, drafted + [Post(0, true, true)], Record(0, true));
      DraftsOneMore(cfg, After(cfg, before), key, n - 1);
      PostsDrafted(cfg, After(cfg, drafted), key, n);
    }
  }

  lemma NothingPosted(key: Key)
    ensures Posted(INIT, key, 0)
  {
  }

  /** An order that the broker acknowledged is cancelled, and the cancel counted. */
  lemma CancelCounts(cfg: Config, s: State, id: ClientId)
    requires cfg.cancelCounts && StageOf(s, 0).Idle? && s.process.locks == map[] && id in s.acked
    ensures
      var s' := Take(cfg, Take(cfg, Take(cfg, s, BeginCancel(0, id)), CallCancel(0, true)), CountCancel(0, true));
      Sent(s', CounterOf(id)) == Sent(s, CounterOf(id)) + 1 && s'.acked == s.acked && s'.faults == s.faults
  {
  }

  lemma AfterOne(cfg: Config, before: seq<Step>, a: Step)
    ensures After(cfg, before + [a]) == Take(cfg, After(cfg, before), a)
  {
    hide Take;
    assert (before + [a])[..|before|] == before;
  }

  lemma AfterThree(cfg: Config, before: seq<Step>, a: Step, b: Step, c: Step)
    ensures After(cfg, before + [a, b, c]) == Take(cfg, Take(cfg, Take(cfg, After(cfg, before), a), b), c)
  {
    hide Take, After;
    AfterOne(cfg, before, a);
    AfterOne(cfg, before + [a], b);
    AfterOne(cfg, before + [a] + [b], c);
    assert before + [a] + [b] + [c] == before + [a, b, c];
  }

  /** As many posts as the day allows, and then a counted cancel of the last one. */
  function PostsAndCancel(key: Key, n: nat): seq<Step> {
    Posts(key, n) + [BeginCancel(0, Nth(key, n)), CallCancel(0, true), CountCancel(0, true)]
  }

  lemma CancelIsNotLimited(cfg: Config, key: Key)
    requires cfg.cancelCounts && key.1 in cfg.limits && cfg.limits[key.1] > 0
    ensures var limit := cfg.limits[key.1];
            var s := After(cfg, PostsAndCancel(key, limit));
            && Sent(s, key) == limit + 1 && Nth(key, limit) in s.acked && s.faults == 0
  {
    hide Take, After, Sent;
    var limit := cfg.limits[key.1];
    var id := Nth(key, limit);
    PostsAreCounted(cfg, key, limit);
    AfterThree(cfg, Posts(key, limit), BeginCancel(0, id), CallCancel(0, true), CountCancel(0, true));
    CancelCounts(cfg, After(cfg, Posts(key, limit)), id);
  }

  /** The counter stays within a positive daily limit in every run if and only if cancels are not
      counted: reservations are checked against the limit, counted cancels are not. */
  lemma WithinLimitIff(cfg: Config, key: Key)
    requires key.1 in cfg.limits && cfg.limits[key.1] > 0
    ensures (forall steps :: Sent(After(cfg, steps), key) <= cfg.limits[key.1]) <==> !cfg.cancelCounts
  {
    if cfg.cancelCounts {
      CancelIsNotLimited(cfg, key);
      assert Sent(After(cfg, PostsAndCancel(key, cfg.limits[key.1])), key) > cfg.limits[key.1];
    } else {
      forall steps ensures Sent(After(cfg, steps), key) <= cfg.limits[key.1] {
        RunLimited(cfg, steps);
      }
    }
  }

  // ---------------------------------------------------------------- without faults

  /** Unless there was a crash or a store failure, every drafted order is acknowledged, given back, or
      in the hands of the caller that holds its instrument's lock. */
  ghost predicate Accounted(s: State) {
    s.faults == 0 ==> forall id :: id in s.rows ==> id in s.acked || id in s.released || InHand(s, id)
  }

  predicate InHand(s: State, id: ClientId) {
    && id.instrument in s.process.locks
    && var stage := StageOf(s, s.process.locks[id.instrument]);
       stage == Drafted(id) || (stage.Refused? && stage.id == id)
  }

  /** What the caller that steps does for its own order. */
  lemma OwnStepAccounts(cfg: Config, s: State, step: Step, id: ClientId)
    requires !step.Crash? && Knows(s, step.t)
    requires var s' := Take(cfg, s, step); s'.faults == s.faults && id in s'.rows
    requires id !in s.rows || (InHand(s, id) && s.process.locks[id.instrument] == step.t)
    ensures var s' := Take(cfg, s, step); id in s'.acked || id in s'.released || InHand(s', id)
  {
    hide SentToday, Incremented, LimitOf, Moved, Acquired, Released;
  }

  lemma StepGrows(cfg: Config, s: State, step: Step)
    ensures var s' := Take(cfg, s, step); s.acked <= s'.acked && s.released <= s'.released && s.faults <= s'.faults
  {
    hide SentToday, Incremented, LimitOf, Moved, Acquired, Released;
  }

  lemma StepAccounts(cfg: Config, s: State, step: Step)
    requires Inv(s) && Accounted(s)
    ensures Accounted(Take(cfg, s, step))
  {
    hide Take, History;
    var s' := Take(cfg, s, step);
    StepGrows(cfg, s, step);
    if s'.faults == 0 && !step.Crash? && s' != s {
      assert Knows(s, step.t);
      StepUnderLock(cfg, s, step);
      StepLocks(cfg, s, step);
      forall id | id in s'.rows ensures id in s'.acked || id in s'.released || InHand(s', id) {
        if id !in s.rows || (InHand(s, id) && s.process.locks[id.instrument] == step.t) {
          OwnStepAccounts(cfg, s, step, id);
        } else if InHand(s, id) {
          assert Knows(s, s.process.locks[id.instrument]);
          assert IdAt(s, step).instrument != id.instrument;
        }
      }
    } else if s'.faults == 0 && step.Crash? {
      CrashIsFault(cfg, s);
    }
  }

  lemma CrashIsFault(cfg: Config, s: State)
    ensures Take(cfg, s, Crash).faults == s.faults + 1
  {
  }

  lemma {:induction false} RunAccounts(cfg: Config, steps: seq<Step>)
    ensures Accounted(After(cfg, steps))
  {
    if steps != [] {
      RunKeeps(cfg, steps[..|steps| - 1]);
      RunAccounts(cfg, steps[..|steps| - 1]);
      StepAccounts(cfg, After(cfg, steps[..|steps| - 1]), steps[|steps| - 1]);
    }
  }

  /** After a run without crashes and store failures, with every caller done, the counter is what the
      broker acknowledged plus the counted cancels. It equals what the broker accepted, plus the
      cancels, exactly when no acceptance was lost on its way back. */
  lemma QuietCounterIsExact(cfg: Config, steps: seq<Step>, key: Key)
    requires After(cfg, steps).faults == 0 && forall t :: StageOf(After(cfg, steps), t).Idle?
    ensures
      var s := After(cfg, steps);
      && Sent(s, key) == |Of(s.acked, key)| + CountOf(s.cancels, key)
      && (Sent(s, key) == |Of(s.acked + s.lost, key)| + CountOf(s.cancels, key) <==> Of(s.lost, key) == {})
  {
    hide After, Knows, Sent, CountOf;
    var s := After(cfg, steps);
    RunKeeps(cfg, steps);
    CounterIsExact(cfg, steps);
    RunAccounts(cfg, steps);
    assert Sent(s, key) == |Of(s.rows, key)| - |Of(s.released, key)| + CountOf(s.cancels, key);
    forall id | id in s.rows ensures id in s.acked || id in s.released {
      assert !InHand(s, id);
    }
    assert Of(s.acked, key) + Of(s.released, key) == Of(s.rows, key);
    Subsets(Of(s.acked, key), Of(s.released, key), Of(s.rows, key));
    assert Of(s.acked + s.lost, key) == Of(s.acked, key) + Of(s.lost, key);
    Subsets(Of(s.acked, key), Of(s.lost, key), Of(s.acked, key) + Of(s.lost, key));
  }

  /** A post that the broker accepts and whose answer is lost. */
  function LostPost(id: ClientId): seq<Step> {
    [Begin(0, id), LookUp(0, true), Reserve(0, 1, true)] + [Post(0, true, false), Release(0, true)]
  }

  /** Its reservation is given back although the broker has the order: the counter says nothing was sent. */
  lemma LostAcceptanceIsReleased(cfg: Config, id: ClientId)
    ensures var s := After(cfg, LostPost(id));
            && s.faults == 0 && (forall t :: StageOf(s, t).Idle?)
            && s.lost == {id} && s.acked == {} && s.calls == [id] && Sent(s, CounterOf(id)) == 0
  {
    hide Take, After;
    var first := [Begin(0, id), LookUp(0, true), Reserve(0, 1, true)];
    AfterNone(cfg);
    AfterThree(cfg, [], Begin(0, id), LookUp(0, true), Reserve(0, 1, true));
    assert [] + first == first;
    AfterOne(cfg, first, Post(0, true, false));
    AfterOne(cfg, first + [Post(0, true, false)], Release(0, true));
    assert first + [Post(0, true, false)] + [Release(0, true)] == LostPost(id);
    var drafted := After(cfg, first);
    Drafts(cfg, id);
    LosesAnswer(cfg, drafted, id);
  }

  lemma AfterNone(cfg: Config)
    ensures After(cfg, []) == INIT
  {
  }

  lemma Drafts(cfg: Config, id: ClientId)
    ensures var s := Take(cfg, Take(cfg, Take(cfg, INIT, Begin(0, id)), LookUp(0, true)), Reserve(0, 1, true));
            && StageOf(s, 0) == Drafted(id) && (forall t :: t != 0 ==> StageOf(s, t).Idle?) && s.faults == 0
            && s.calls == [] && s.acked == {} && s.lost == {} && s.counters == Incremented(map[], id, 1)
  {
  }

  lemma LosesAnswer(cfg: Config, s: State, id: ClientId)
    requires StageOf(s, 0) == Drafted(id) && (forall t :: t != 0 ==> StageOf(s, t).Idle?) && s.faults == 0
    requires s.calls == [] && s.acked == {} && s.lost == {} && s.counters == Incremented(map[], id, 1)
    ensures var s' := Take(cfg, Take(cfg, s, Post(0, true, false)), Release(0, true));
            && s'.faults == 0 && (forall t :: StageOf(s', t).Idle?)
            && s'.lost == {id} && s'.acked == {} && s'.calls == [id] && Sent(s', CounterOf(id)) == 0
  {
    var s1 := Take(cfg, s, Post(0, true, false));
    StepLocks(cfg, s, Post(0, true, false));
    StepLocks(cfg, s1, Release(0, true));
    forall t ensures StageOf(Take(cfg, s1, Release(0, true)), t).Idle? {
      assert t != 0 ==> StageOf(s1, t) == StageOf(s, t);
    }
  }
}
