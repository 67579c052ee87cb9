/** What requests and events amount to, over every run: the latest request carries the newest generation,
    and a start event is left out exactly when the work it asks for began no earlier. */
module CoordinatorEvents {
  import opened Wrappers
  import opened Coordinator
  import opened CoordinatorRun
  import opened CoordinatorHolds
  import opened CoordinatorInv
  import opened CoordinatorSound
  import opened CoordinatorLive
  import opened CoordinatorDone
  import opened CoordinatorRetry

  // --- Requests ---------------------------------------------------------------------------------------------------

  // The generations asked for so far.
  function Generations(actions: seq<Action>): seq<nat> {
    if |actions| == 0 then []
    else
      var before, last := Generations(actions[..|actions| - 1]), actions[|actions| - 1];
      if last.Request? then before + [last.generation] else before
  }

  // `n` is the largest of them, or 0 when there is none.
  predicate Newest(generations: seq<nat>, n: nat) {
    (forall g | g in generations :: g <= n) && (n in generations || n == 0)
  }

  lemma LatestKept(s: Sys, a: Action)
    requires !a.Request?
    ensures Act(s, a).state.latest == s.state.latest
  {
    if a.End? {
      hide Ended;
      EndGlobals(s, a.hold, a.outcome, a.monotonic);
    } else {
      hide Act;
      PendingKept(s, a);
    }
  }

  lemma RequestLatest(s: Sys, generation: nat)
    ensures var key, before := Act(s, Request(generation)).state.latest, s.state.latest;
            key.epoch == before.epoch + 1 && key.generation == if generation > before.generation then generation else before.generation
  {
  }

  // In every reachable state the latest request is the last one made, under the newest generation asked
  // for, so that no two requests share a key.
  lemma {:induction false} LatestIs(states: seq<Sys>, actions: seq<Action>, i: nat)
    requires Run(states, actions) && i < |states|
    ensures states[i].state.latest.epoch == |Generations(actions[..i])|
    ensures Newest(Generations(actions[..i]), states[i].state.latest.generation)
  {
    hide Act, Possible;
    if i > 0 {
      LatestIs(states, actions, i - 1);
      if actions[i - 1].Request? {
        RequestLatest(states[i - 1], actions[i - 1].generation);
      } else {
        LatestKept(states[i - 1], actions[i - 1]);
      }
      var now := actions[..i];
      assert now[..|now| - 1] == actions[..i - 1] && now[|now| - 1] == actions[i - 1];
    }
  }

  // --- Start events -------------------------------------------------------------------------------------------------

  // The action claims the container, which nobody holds: for a reconcile or only a cleanup, and when.
  function Claims(s: Sys, a: Action, c: Id): Option<(bool, Time)> {
    if c in s.state.inFlight then None
    else
      match a
      case StartEvent(d, _, now) => if d == c then Some((true, now)) else None
      case EndEvent(d, _, now) => if d == c then Some((false, now)) else None
      case Visit(now) =>
        if s.loop.Claiming? && s.loop.next < |s.loop.listed| && s.loop.listed[s.loop.next] == c then Some((true, now)) else None
      case Retry(now) =>
        if s.loop.Retrying? && !s.cancelled && s.loop.tried < |s.loop.ids| && s.loop.ids[s.loop.tried] == c then Some((true, now)) else None
      case _ => None
  }

  // The container's holder takes what is queued for it.
  function TakesUp(s: Sys, a: Action, c: Id): Option<(bool, Time)> {
    if a.Ask? && a.hold in s.holds && s.holds[a.hold] == Hold(c, Asking, s.holds[a.hold].enumerated) && c in s.state.inFlight
       && (s.state.inFlight[c].reconcile || s.state.inFlight[c].terminateAt.Some?)
    then Some((s.state.inFlight[c].reconcile, a.now)) else None
  }

  function WorkAfter(before: Option<Time>, s: Sys, a: Action, c: Id): Option<Time> {
    match (if Claims(s, a, c).Some? then Claims(s, a, c) else TakesUp(s, a, c))
    case None => before
    case Some((reconcile, now)) => if reconcile then Some(now) else None
  }

  // When the container's holder last began work that reconciles it.
  ghost function WorkStart(states: seq<Sys>, actions: seq<Action>, i: nat, c: Id): Option<Time>
    requires i < |states| <= |actions| + 1
  {
    if i == 0 then None else WorkAfter(WorkStart(states, actions, i - 1, c), states[i - 1], actions[i - 1], c)
  }

  // The reservation remembers it.
  predicate Remembers(held: Option<Reservation>, work: Option<Time>) {
    held.Some? ==> held.value.applyStart == work
  }

  lemma QueuedStart(held: Reservation, eventTime: Option<Time>, terminal: bool)
    ensures Queued(held, eventTime, terminal).applyStart == held.applyStart
  {
  }

  lemma ClaimStart(s: Sys, d: Id, eventTime: Option<Time>, terminal: bool, now: Time, enumerated: bool, c: Id, work: Option<Time>)
    requires Remembers(At(s.state.inFlight, c), work)
    ensures var t := Claim(s, d, eventTime, terminal, now, enumerated).0;
            Remembers(At(t.state.inFlight, c), if c != d || c in s.state.inFlight then work else if terminal then None else Some(now))
  {
    hide Queued, Owing;
    if d in s.state.inFlight {
      QueuedStart(s.state.inFlight[d], eventTime, terminal);
    }
  }

  lemma AskStart(s: Sys, hold: nat, now: Time, c: Id, work: Option<Time>)
    requires Remembers(At(s.state.inFlight, c), work)
    ensures Remembers(At(AskedNext(s, hold, now).state.inFlight, c), WorkAfter(work, s, Ask(hold, now), c))
  {
    if hold in s.holds && s.holds[hold].phase.Asking? {
      var d := s.holds[hold].container;
      AskedStart(s.state, d, now, c, work);
      AskedFlights(s, hold, now);
      hide Asked, AskedNext, Remembers;
    }
  }

  lemma AskedFlights(s: Sys, hold: nat, now: Time)
    requires hold in s.holds && s.holds[hold].phase.Asking?
    ensures AskedNext(s, hold, now).state == Asked(s.state, s.holds[hold].container, now).0
  {
    hide Asked, Log;
  }

  lemma AskedStart(s: State, d: Id, now: Time, c: Id, work: Option<Time>)
    requires Remembers(At(s.inFlight, c), work)
    ensures Remembers(At(Asked(s, d, now).0.inFlight, c),
                      if c != d || c !in s.inFlight || (!s.inFlight[c].reconcile && s.inFlight[c].terminateAt.None?) then work
                      else if s.inFlight[c].reconcile then Some(now) else None)
  {
    hide Asked;
    if d in s.inFlight {
      AskedAt(s, d, now);
    } else {
      NotHeld(s, d, now);
    }
  }

  lemma NotHeld(s: State, c: Id, now: Time)
    requires c !in s.inFlight
    ensures Asked(s, c, now).0 == s
  {
  }

  lemma EventStart(s: Sys, a: Action, c: Id, work: Option<Time>)
    requires Remembers(At(s.state.inFlight, c), work) && (a.StartEvent? || a.EndEvent?)
    ensures Remembers(At(Act(s, a).state.inFlight, c), WorkAfter(work, s, a, c))
  {
    hide Claim, Remembers;
    ClaimStart(s, a.c, Some(a.eventTime), a.EndEvent?, a.now, false, c, work);
  }

  lemma VisitStart(s: Sys, now: Time, c: Id, work: Option<Time>)
    requires Remembers(At(s.state.inFlight, c), work)
    ensures Remembers(At(Visited(s, now).state.inFlight, c), WorkAfter(work, s, Visit(now), c))
  {
    hide Claim, Remembers;
    if s.loop.Claiming? && s.loop.next < |s.loop.listed| {
      ClaimStart(s, s.loop.listed[s.loop.next], None, false, now, true, c, work);
    }
  }

  lemma RetryStart(s: Sys, now: Time, c: Id, work: Option<Time>)
    requires Remembers(At(s.state.inFlight, c), work)
    ensures Remembers(At(Retried(s, now).state.inFlight, c), WorkAfter(work, s, Retry(now), c))
  {
    ReportedOnly(s.state);
    hide Claim, Reported, Log, Remembers;
    if s.loop.Retrying? && s.loop.tried < |s.loop.ids| {
      ClaimStart(s, s.loop.ids[s.loop.tried], None, false, now, true, c, work);
    }
  }

  lemma FlightsKept(s: Sys, a: Action)
    requires !(a.StartEvent? || a.EndEvent? || a.Visit? || a.Retry? || a.Ask?)
    ensures Act(s, a).state.inFlight == s.state.inFlight
  {
    hide Ended, FinishedLoop, ListFailed, Taken, Skipped, Pruned, Visited, Retried, AskedNext, Claim;
    match a
    case End(hold, outcome, monotonic) => EndGlobals(s, hold, outcome, monotonic);
    case Check => FinishFlights(s);
    case ListFails => FinishFlights(s);
    case CleanedUp(_) =>
    case Begin(_, _) =>
    case Mark(_) =>
    case Request(_) =>
    case _ => QuietFlights(s, a);
  }

  lemma QuietFlights(s: Sys, a: Action)
    requires IsQuiet(a)
    ensures Act(s, a).state.inFlight == s.state.inFlight
  {
    hide Act;
    QuietGlobals(s, a);
  }

  lemma FinishFlights(s: Sys)
    ensures s.loop.Visiting? ==> FinishedLoop(s).state.inFlight == s.state.inFlight
    ensures ListFailed(s).state.inFlight == s.state.inFlight
  {
    ReportedOnly(s.state);
    ReportedOnly(s.state.(incomplete := false));
    hide Reported, Log;
  }

  lemma ActStart(s: Sys, a: Action, c: Id, work: Option<Time>)
    requires Remembers(At(s.state.inFlight, c), work)
    ensures Remembers(At(Act(s, a).state.inFlight, c), WorkAfter(work, s, a, c))
  {
    hide Remembers;
    if a.Ask? {
      hide AskedNext, WorkAfter;
      AskStart(s, a.hold, a.now, c, work);
    } else if a.StartEvent? || a.EndEvent? {
      hide Act, WorkAfter;
      EventStart(s, a, c, work);
    } else if a.Visit? {
      hide Visited, WorkAfter;
      VisitStart(s, a.now, c, work);
    } else if a.Retry? {
      hide Retried, WorkAfter;
      RetryStart(s, a.now, c, work);
    } else {
      hide Act;
      FlightsKept(s, a);
    }
  }

  lemma {:induction false} RunRemembers(states: seq<Sys>, actions: seq<Action>, i: nat, c: Id)
    requires Run(states, actions) && i < |states|
    ensures Remembers(At(states[i].state.inFlight, c), WorkStart(states, actions, i, c))
  {
    hide Act, Possible, WorkAfter;
    if i > 0 {
      RunRemembers(states, actions, i - 1, c);
      hide Remembers;
      ActStart(states[i - 1], actions[i - 1], c, WorkStart(states, actions, i - 1, c));
    }
  }

  lemma StartQueued(s: Sys, c: Id, eventTime: Time, now: Time, work: Option<Time>)
    requires c in s.state.inFlight && Remembers(At(s.state.inFlight, c), work)
    ensures var t := Act(s, StartEvent(c, eventTime, now));
            && c in t.state.inFlight
            && (t.state.inFlight[c].reconcile <==> s.state.inFlight[c].reconcile || work.None? || work.value < eventTime)
  {
    hide Owing;
  }

  // A start event for a held container asks for another reconcile, unless the one its holder is at, or
  // about to do, was taken up no earlier than the container started.
  lemma StartEventQueued(states: seq<Sys>, actions: seq<Action>, i: nat, c: Id, eventTime: Time, now: Time)
    requires Run(states, actions) && i < |actions| && actions[i] == StartEvent(c, eventTime, now) && c in states[i].state.inFlight
    ensures var work := WorkStart(states, actions, i, c);
            && c in states[i + 1].state.inFlight
            && (states[i + 1].state.inFlight[c].reconcile
                <==> states[i].state.inFlight[c].reconcile || work.None? || work.value < eventTime)
  {
    RunRemembers(states, actions, i, c);
    hide Act, WorkStart, Remembers;
    StartQueued(states[i], c, eventTime, now, WorkStart(states, actions, i, c));
  }
}
