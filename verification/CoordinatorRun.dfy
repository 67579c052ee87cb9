/** The coordinator as a system of concurrent parts: the run loop, the holds, events and requests. Each
    step is one section under the lock, in any interleaving; every clock reading is arbitrary. */
module CoordinatorRun {
  import opened Wrappers
  import opened Coordinator

  // --- The parts ------------------------------------------------------------------------------------------

  // What the task holding a container is doing.
  datatype Phase =
    | Terminating(at: Time, reconcileNext: bool)
    | Starting
    | Reconciling(key: PassKey, at: Time, start: nat)
    | Marking(inspected: Inspected)
    | Asking

  datatype Hold = Hold(container: Id, phase: Phase, enumerated: bool)

  datatype Outcome = Succeeded | Gone | Failed

  // Where the run loop is. A pass visits what it listed, `next` of it so far.
  datatype Loop =
    | Top
    | Listing(key: PassKey, began: nat)
    | Visiting(key: PassKey, began: nat, listed: seq<Id>, next: nat)
    | Claiming(key: PassKey, began: nat, listed: seq<Id>, next: nat)
    | AwaitingVisit(key: PassKey, began: nat, listed: seq<Id>, next: nat, hold: nat)
    | Retrying(ids: seq<Id>, tried: nat)
    | AwaitingRetry(ids: seq<Id>, tried: nat, hold: nat)
    | Planning
    | Waiting(retry: Option<Time>)
    | Stopped

  datatype FinishedPass = FinishedPass(key: PassKey, listed: seq<Id>, began: nat)

  // What has happened, for stating what must have: how many reconciles have begun, the latest beginning
  // of one that settled per container, the finished pass of the latest request, every completion logged,
  // the work asked for and not yet run, every successful reconcile with its inspect time, and which
  // task claimed each container last.
  datatype History = History(clock: nat, served: map<Id, nat>, finished: Option<FinishedPass>, logged: seq<PassKey>,
                             owedReconcile: set<Id>, owedCleanup: map<Id, Time>, inspections: set<(Id, Time)>, holder: map<Id, nat>)

  // `permit` is the stored wake-up, `notifying` the requests about to give one, `listRetry` whether a
  // failed list is armed to be tried again.
  datatype Sys = Sys(state: State, holds: map<nat, Hold>, nextHold: nat, loop: Loop, cancelled: bool, permit: bool,
                     notifying: nat, listRetry: bool, past: History)

  const INITIAL: Sys :=
    Sys(START, map[], 0, Top, false, false, 0, false, History(0, map[], None, [], {}, map[], {}, map[]))

  // --- Claims -------------------------------------------------------------------------------------------------

  function Later(owed: map<Id, Time>, c: Id, t: Time): map<Id, Time> {
    owed[c := if c in owed && owed[c] > t then owed[c] else t]
  }

  // What a reconcile or an end of run asked for adds to the work owed.
  function Owing(past: History, s: State, c: Id, eventTime: Option<Time>, terminal: bool): History {
    if terminal then (if eventTime.Some? then past.(owedCleanup := Later(past.owedCleanup, c, eventTime.value)) else past)
    else if c in s.inFlight && CoveredBy(eventTime, s.inFlight[c]) then past
    else past.(owedReconcile := past.owedReconcile + {c})
  }

  // Reserves a container and starts its hold, or leaves the work to the holder.
  function Claim(s: Sys, c: Id, eventTime: Option<Time>, terminal: bool, now: Time, enumerated: bool): (Sys, bool) {
    var (state, claimed) := Reserved(s.state, c, eventTime, terminal, now);
    var past := Owing(s.past, s.state, c, eventTime, terminal);
    if !claimed then (s.(state := state, past := past), false)
    else
      var phase := if terminal then Terminating(if eventTime.Some? then eventTime.value else now, false) else Starting;
      (s.(state := state, past := past.(holder := past.holder[c := s.nextHold]),
          holds := s.holds[s.nextHold := Hold(c, phase, enumerated)], nextHold := s.nextHold + 1), true)
  }

  function Log(past: History, before: State, after: State): History {
    if after.announced != before.announced then past.(logged := past.logged + [after.announced]) else past
  }

  // --- Steps --------------------------------------------------------------------------------------------------

  datatype Action =
    | Request(generation: nat)
    | Notify
    | Nudge
    | Cancel
    | StartEvent(c: Id, eventTime: Time, now: Time)
    | EndEvent(c: Id, eventTime: Time, now: Time)
    | SkipEvent(c: Id, eventTime: Time, now: Time)
    // The holds.
    | CleanedUp(hold: nat)
    | Begin(hold: nat, now: Time)
    | End(hold: nat, outcome: Outcome, monotonic: Time)
    | Mark(hold: nat)
    | Ask(hold: nat, now: Time)
    // The run loop.
    | Take
    | List(containers: seq<Id>)
    | ListFails
    | Check
    | Visit(now: Time)
    | Return
    | Plan(retry: Option<Time>)
    | Wake
    | Stop
    | ListRetry
    | RetryDue(ids: seq<Id>, now: Time)
    | Retry(now: Time)
    | Prune(now: Time)

  function WithPhase(s: Sys, hold: nat, phase: Phase): Sys
    requires hold in s.holds
  {
    s.(holds := s.holds[hold := s.holds[hold].(phase := phase)])
  }

  function CleanUpDone(s: Sys, hold: nat): Sys {
    if hold !in s.holds || !s.holds[hold].phase.Terminating? then s
    else
      var c, phase := s.holds[hold].container, s.holds[hold].phase;
      var owed := if c in s.past.owedCleanup && s.past.owedCleanup[c] <= phase.at then s.past.owedCleanup - {c} else s.past.owedCleanup;
      WithPhase(s, hold, if phase.reconcileNext then Starting else Asking).(past := s.past.(owedCleanup := owed))
  }

  function Begun(s: Sys, hold: nat, now: Time): Sys {
    if hold !in s.holds || !s.holds[hold].phase.Starting? then s
    else
      WithPhase(s, hold, Reconciling(s.state.latest, now, s.past.clock)).(
        past := s.past.(clock := s.past.clock + 1, owedReconcile := s.past.owedReconcile - {s.holds[hold].container}))
  }

  function Serve(served: map<Id, nat>, c: Id, start: nat): map<Id, nat> {
    served[c := if c in served && served[c] > start then served[c] else start]
  }

  function Ended(s: Sys, hold: nat, outcome: Outcome, monotonic: Time): Sys {
    if hold !in s.holds || !s.holds[hold].phase.Reconciling? then s
    else
      var c, phase := s.holds[hold].container, s.holds[hold].phase;
      var past := if outcome == Failed then s.past else s.past.(served := Serve(s.past.served, c, phase.start));
      var seen := if outcome == Succeeded then past.(inspections := past.inspections + {(c, phase.at)}) else past;
      WithPhase(s, hold, if outcome == Succeeded && s.holds[hold].enumerated then Marking(Inspected(phase.at, monotonic)) else Asking).(
        state := Settled(s.state, c, phase.key, outcome != Failed, monotonic), past := seen)
  }

  function Marked(s: Sys, hold: nat): Sys {
    if hold !in s.holds || !s.holds[hold].phase.Marking? then s
    else
      WithPhase(s, hold, Asking).(
        state := s.state.(processed := s.state.processed[s.holds[hold].container := s.holds[hold].phase.inspected]))
  }

  // Takes the queued work, cleanup first, or releases the container.
  function AskedNext(s: Sys, hold: nat, now: Time): Sys {
    if hold !in s.holds || !s.holds[hold].phase.Asking? then s
    else
      var c := s.holds[hold].container;
      var (state, queue) := Asked(s.state, c, now);
      var t := s.(state := state, past := Log(s.past, s.state, state));
      if queue.terminateAt.Some? then WithPhase(t, hold, Terminating(queue.terminateAt.value, queue.reconcile))
      else if queue.reconcile then WithPhase(t, hold, Starting)
      else t.(holds := t.holds - {hold}, permit := t.permit || c in t.state.pending, past := t.past.(holder := t.past.holder - {c}))
  }

  function FinishedLoop(s: Sys): Sys
    requires s.loop.Visiting?
  {
    var (state, _) := Finished(s.state, s.loop.key);
    var past := if s.loop.key == s.state.latest then s.past.(finished := Some(FinishedPass(s.loop.key, s.loop.listed, s.loop.began))) else s.past;
    s.(state := state, past := Log(past, s.state, state), loop := Top, listRetry := false)
  }

  function Visited(s: Sys, now: Time): Sys {
    if !s.loop.Claiming? || s.loop.next >= |s.loop.listed| then s
    else
      var l := s.loop;
      var (t, claimed) := Claim(s, l.listed[l.next], None, false, now, true);
      t.(loop := if claimed then AwaitingVisit(l.key, l.began, l.listed, l.next + 1, s.nextHold)
                 else Visiting(l.key, l.began, l.listed, l.next + 1))
  }

  function Retried(s: Sys, now: Time): Sys {
    if !s.loop.Retrying? then s
    else if s.cancelled then s.(loop := Top)
    else if s.loop.tried < |s.loop.ids| then
      var (t, claimed) := Claim(s, s.loop.ids[s.loop.tried], None, false, now, true);
      t.(loop := if claimed then AwaitingRetry(s.loop.ids, s.loop.tried + 1, s.nextHold) else Retrying(s.loop.ids, s.loop.tried + 1))
    else
      var (state, _) := Reported(s.state);
      s.(state := state, past := Log(s.past, s.state, state), loop := Top)
  }

  function ListFailed(s: Sys): Sys {
    if !s.loop.Listing? then s
    else
      var (state, _) := Reported(s.state);
      s.(state := state, past := Log(s.past, s.state, state), loop := Top, listRetry := true)
  }

  // One step; a step that is not possible leaves the system as it is.
  function Act(s: Sys, a: Action): Sys {
    match a
    case Request(generation) => s.(state := Requested(s.state, generation), notifying := s.notifying + 1)
    case Notify => if s.notifying == 0 then s else s.(notifying := s.notifying - 1, permit := true)
    // An event handler whose reconcile failed.
    case Nudge => s.(permit := true)
    case Cancel => s.(cancelled := true)
    case StartEvent(c, eventTime, now) => Claim(s, c, Some(eventTime), false, now, false).0
    case EndEvent(c, eventTime, now) => Claim(s, c, Some(eventTime), true, now, false).0
    case SkipEvent(c, eventTime, now) => s.(state := Skipped(s.state, c, eventTime, now).0)
    case CleanedUp(hold) => CleanUpDone(s, hold)
    case Begin(hold, now) => Begun(s, hold, now)
    case End(hold, outcome, monotonic) => Ended(s, hold, outcome, monotonic)
    case Mark(hold) => Marked(s, hold)
    case Ask(hold, now) => AskedNext(s, hold, now)
    case Take =>
      if !s.loop.Top? then s
      else if s.cancelled then s.(loop := Stopped)
      else if s.state.dirty then s.(state := Taken(s.state).0, loop := Listing(s.state.latest, s.past.clock))
      else s.(loop := Planning)
    case List(containers) => if s.loop.Listing? then s.(loop := Visiting(s.loop.key, s.loop.began, containers, 0)) else s
    case ListFails => ListFailed(s)
    case Check =>
      if !s.loop.Visiting? then s
      else if s.loop.next == |s.loop.listed| then FinishedLoop(s)
      else if s.cancelled || s.state.latest != s.loop.key then s.(loop := Top)
      else s.(loop := Claiming(s.loop.key, s.loop.began, s.loop.listed, s.loop.next))
    case Visit(now) => Visited(s, now)
    case Return =>
      if s.loop.AwaitingVisit? && s.loop.hold !in s.holds then s.(loop := Visiting(s.loop.key, s.loop.began, s.loop.listed, s.loop.next))
      else if s.loop.AwaitingRetry? && s.loop.hold !in s.holds then s.(loop := Retrying(s.loop.ids, s.loop.tried))
      else s
    case Plan(retry) => if s.loop.Planning? then s.(loop := Waiting(retry)) else s
    case Wake => if s.loop.Waiting? && s.permit then s.(permit := false, loop := Top) else s
    case Stop => if s.loop.Waiting? && s.cancelled then s.(loop := Stopped) else s
    case ListRetry => if s.loop.Waiting? && s.listRetry then s.(listRetry := false, state := s.state.(dirty := true), loop := Top) else s
    case RetryDue(ids, now) =>
      if s.loop.Waiting? && s.loop.retry.Some? && s.loop.retry.value <= now then s.(loop := Retrying(ids, 0)) else s
    case Retry(now) => Retried(s, now)
    case Prune(now) => if s.loop.Waiting? then s.(state := Pruned(s.state, now), loop := Top) else s
  }

  // Every action but two is possible in any state; those two report what they read under the lock.
  ghost predicate Possible(s: Sys, a: Action) {
    match a
    case Plan(retry) => FirstDue(s.state, retry)
    case RetryDue(ids, now) => (set c | c in ids) == Due(s.state, now)
    case _ => true
  }

  // The states a run goes through.
  ghost predicate Run(states: seq<Sys>, actions: seq<Action>) {
    && |states| == |actions| + 1 && states[0] == INITIAL
    && forall i | 0 <= i < |actions| :: Possible(states[i], actions[i]) && states[i + 1] == Act(states[i], actions[i])
  }
}
