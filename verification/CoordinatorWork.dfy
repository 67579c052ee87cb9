/** No work is lost, in terms of what the parts do: between a request for work on a container and its
    release, the work begins. */
module CoordinatorWork {
  import opened Wrappers
  import opened Coordinator
  import opened CoordinatorRun
  import opened CoordinatorHolds
  import opened CoordinatorInv
  import opened CoordinatorSound
  import opened CoordinatorLive

  // --- Actions --------------------------------------------------------------------------------------------------------

  // The action asks for a reconcile of the container, other than by a start event not newer than the
  // apply then running.
  predicate AsksReconcile(s: Sys, a: Action, c: Id) {
    match a
    case StartEvent(d, eventTime, _) => d == c && !(c in s.state.inFlight && CoveredBy(Some(eventTime), s.state.inFlight[c]))
    case Visit(_) => s.loop.Claiming? && s.loop.next < |s.loop.listed| && s.loop.listed[s.loop.next] == c
    case Retry(_) => s.loop.Retrying? && !s.cancelled && s.loop.tried < |s.loop.ids| && s.loop.ids[s.loop.tried] == c
    case _ => false
  }

  // The task begins a reconcile of the container.
  predicate Begins(s: Sys, a: Action, task: nat, c: Id) {
    a.Begin? && a.hold == task && task in s.holds && s.holds[task].container == c && s.holds[task].phase.Starting?
  }

  // The task has cleaned up after the container's runs up to that time.
  predicate CleansUp(s: Sys, a: Action, task: nat, c: Id, upTo: Time) {
    && a.CleanedUp? && a.hold == task && task in s.holds && s.holds[task].container == c
    && s.holds[task].phase.Terminating? && upTo <= s.holds[task].phase.at
  }

  // --- What is owed is owed until it is begun -------------------------------------------------------------------------

  // The work owed to a container, kept or grown.
  predicate StillOwed(before: History, after: History) {
    && before.owedReconcile <= after.owedReconcile
    && forall c | c in before.owedCleanup :: c in after.owedCleanup && before.owedCleanup[c] <= after.owedCleanup[c]
  }

  lemma ClaimOwes(s: Sys, c: Id, eventTime: Option<Time>, terminal: bool, now: Time, enumerated: bool)
    ensures var t := Claim(s, c, eventTime, terminal, now, enumerated).0;
            && StillOwed(s.past, t.past)
            && (!terminal && !(c in s.state.inFlight && CoveredBy(eventTime, s.state.inFlight[c])) ==> c in t.past.owedReconcile)
            && (terminal && eventTime.Some? ==> c in t.past.owedCleanup && eventTime.value <= t.past.owedCleanup[c])
  {
    hide Reserved;
  }

  lemma LogOwes(past: History, before: State, after: State)
    ensures Log(past, before, after) == past.(logged := Log(past, before, after).logged)
  {
  }

  lemma AskOwes(s: Sys, hold: nat, now: Time)
    ensures StillOwed(s.past, AskedNext(s, hold, now).past)
  {
    hide Asked;
    if hold in s.holds {
      LogOwes(s.past, s.state, Asked(s.state, s.holds[hold].container, now).0);
      hide Log;
    }
  }

  predicate SameOwed(before: History, after: History) {
    after.owedReconcile == before.owedReconcile && after.owedCleanup == before.owedCleanup
  }

  lemma ListFailsOwes(s: Sys)
    ensures SameOwed(s.past, ListFailed(s).past) && ListFailed(s).holds == s.holds
  {
    hide Reported;
  }

  lemma CheckOwes(s: Sys)
    requires s.loop.Visiting?
    ensures SameOwed(s.past, FinishedLoop(s).past) && FinishedLoop(s).holds == s.holds
  {
    hide Finished;
  }

  predicate LoopStep(a: Action) {
    a.Take? || a.List? || a.ListFails? || a.Check? || a.Return? || a.Plan? || a.Wake? || a.Stop? || a.ListRetry? || a.RetryDue? || a.Prune?
  }

  lemma PassingOwes(s: Sys, a: Action)
    requires a.Take? || a.List? || a.Return?
    ensures Act(s, a).past == s.past && Act(s, a).holds == s.holds
  {
    hide Claim, AskedNext, Visited, Retried, CleanUpDone, Begun, Ended, Marked, ListFailed, FinishedLoop, Requested, Skipped, Taken, Pruned;
  }

  lemma WaitingOwes(s: Sys, a: Action)
    requires a.Plan? || a.Wake? || a.Stop? || a.ListRetry? || a.RetryDue? || a.Prune?
    ensures Act(s, a).past == s.past && Act(s, a).holds == s.holds
  {
    hide Claim, AskedNext, Visited, Retried, CleanUpDone, Begun, Ended, Marked, ListFailed, FinishedLoop, Requested, Skipped, Taken, Pruned;
  }

  lemma ListingOwes(s: Sys, a: Action)
    requires a.ListFails? || a.Check?
    ensures SameOwed(s.past, Act(s, a).past) && Act(s, a).holds == s.holds
  {
    hide Claim, AskedNext, Visited, Retried, CleanUpDone, Begun, Ended, Marked, ListFailed, FinishedLoop, Requested, Skipped, Taken, Pruned;
    ListFailsOwes(s);
    if s.loop.Visiting? {
      CheckOwes(s);
    }
  }

  lemma LoopOwes(s: Sys, a: Action)
    requires LoopStep(a)
    ensures SameOwed(s.past, Act(s, a).past) && Act(s, a).holds == s.holds
  {
    hide Act;
    if a.ListFails? || a.Check? {
      ListingOwes(s, a);
    } else if a.Take? || a.List? || a.Return? {
      PassingOwes(s, a);
    } else {
      WaitingOwes(s, a);
    }
  }

  lemma RetryOwes(s: Sys, now: Time, c: Id)
    ensures StillOwed(s.past, Retried(s, now).past)
    ensures AsksReconcile(s, Retry(now), c) ==> c in Retried(s, now).past.owedReconcile
  {
    hide Reported, Claim;
    if s.loop.Retrying? && !s.cancelled && s.loop.tried < |s.loop.ids| {
      ClaimOwes(s, s.loop.ids[s.loop.tried], None, false, now, true);
    }
  }

  lemma VisitOwes(s: Sys, now: Time, c: Id)
    ensures StillOwed(s.past, Visited(s, now).past)
    ensures AsksReconcile(s, Visit(now), c) ==> c in Visited(s, now).past.owedReconcile
  {
    hide Claim;
    if s.loop.Claiming? && s.loop.next < |s.loop.listed| {
      ClaimOwes(s, s.loop.listed[s.loop.next], None, false, now, true);
    }
  }

  lemma EndOwes(s: Sys, hold: nat, outcome: Outcome, monotonic: Time)
    ensures var t := Ended(s, hold, outcome, monotonic);
            t.past.owedReconcile == s.past.owedReconcile && t.past.owedCleanup == s.past.owedCleanup
  {
    hide Settled;
  }

  predicate HoldStep(a: Action) {
    a.CleanedUp? || a.Begin? || a.End? || a.Mark? || a.Ask?
  }

  // A reconcile owed stays owed until a task begins one.
  predicate ReconcileKept(s: Sys, a: Action, c: Id) {
    c in s.past.owedReconcile ==> c in Act(s, a).past.owedReconcile || (a.Begin? && Begins(s, a, a.hold, c))
  }

  lemma HoldOwes(s: Sys, a: Action, c: Id)
    requires HoldStep(a)
    ensures ReconcileKept(s, a, c)
  {
    hide Claim, AskedNext, Visited, Retried, CleanUpDone, Begun, Ended, Marked, ListFailed, FinishedLoop, Requested, Skipped, Taken, Pruned, CoveredBy;
    match a
    case Ask(hold, now) => AskOwes(s, hold, now);
    case End(hold, outcome, monotonic) => EndOwes(s, hold, outcome, monotonic);
    case CleanedUp(hold) => CleanedOwes(s, hold, c, 0);
    case Mark(hold) => MarkOwes(s, hold);
    case Begin(hold, now) => BeginOwes(s, hold, now, c);
  }

  lemma OtherOwes(s: Sys, a: Action, c: Id)
    requires !HoldStep(a) && !LoopStep(a)
    ensures (AsksReconcile(s, a, c) ==> c in Act(s, a).past.owedReconcile) && ReconcileKept(s, a, c)
  {
    hide Claim, AskedNext, Visited, Retried, CleanUpDone, Begun, Ended, Marked, ListFailed, FinishedLoop, Requested, Skipped, Taken, Pruned, CoveredBy;
    match a
    case StartEvent(d, eventTime, now) => ClaimOwes(s, d, Some(eventTime), false, now, false);
    case EndEvent(d, eventTime, now) => ClaimOwes(s, d, Some(eventTime), true, now, false);
    case Visit(now) => VisitOwes(s, now, c);
    case Retry(now) => RetryOwes(s, now, c);
    case Request(_) =>
    case Notify =>
    case Nudge =>
    case Cancel =>
    case SkipEvent(_, _, _) =>
  }

  lemma ReconcileOwed(s: Sys, a: Action, c: Id)
    ensures AsksReconcile(s, a, c) ==> c in Act(s, a).past.owedReconcile
    ensures c in s.past.owedReconcile && c !in Act(s, a).past.owedReconcile ==> exists task :: Begins(s, a, task, c)
  {
    hide Act, Begins;
    if HoldStep(a) {
      HoldOwes(s, a, c);
    } else if LoopStep(a) {
      LoopOwes(s, a);
    } else {
      OtherOwes(s, a, c);
    }
  }

  lemma BeginOwes(s: Sys, hold: nat, now: Time, c: Id)
    ensures var t := Begun(s, hold, now);
            && t.past.owedCleanup == s.past.owedCleanup
            && (c in s.past.owedReconcile && c !in t.past.owedReconcile ==> Begins(s, Begin(hold, now), hold, c))
  {
  }

  lemma MarkOwes(s: Sys, hold: nat)
    ensures Marked(s, hold).past == s.past
  {
  }

  lemma CleanedOwes(s: Sys, hold: nat, c: Id, upTo: Time)
    ensures var t := CleanUpDone(s, hold);
            && t.past.owedReconcile == s.past.owedReconcile
            && (c in s.past.owedCleanup && upTo <= s.past.owedCleanup[c] ==>
                  (c in t.past.owedCleanup && t.past.owedCleanup[c] == s.past.owedCleanup[c]) || CleansUp(s, CleanedUp(hold), hold, c, upTo))
  {
  }

  // An end of run asked for.
  predicate OwedUpTo(s: Sys, c: Id, upTo: Time) {
    c in s.past.owedCleanup && upTo <= s.past.owedCleanup[c]
  }

  // A cleanup owed stays owed until a task has cleaned up as far.
  lemma CleanupOwed(s: Sys, a: Action, c: Id, upTo: Time)
    ensures a.EndEvent? && a.c == c && upTo <= a.eventTime ==> OwedUpTo(Act(s, a), c, upTo)
    ensures OwedUpTo(s, c, upTo) && !OwedUpTo(Act(s, a), c, upTo) ==> exists task :: CleansUp(s, a, task, c, upTo)
  {
    hide Claim, AskedNext, Ended, Visited, Retried, ListFailed, FinishedLoop, Requested, Skipped, Marked, CleanUpDone, Taken, Pruned, CoveredBy, Begun;
    match a
    case StartEvent(d, eventTime, now) => ClaimOwes(s, d, Some(eventTime), false, now, false);
    case EndEvent(d, eventTime, now) => ClaimOwes(s, d, Some(eventTime), true, now, false);
    case Visit(now) => VisitOwes(s, now, c);
    case Retry(now) => RetryOwes(s, now, c);
    case Ask(hold, now) => AskOwes(s, hold, now);
    case End(hold, outcome, monotonic) => EndOwes(s, hold, outcome, monotonic);
    case CleanedUp(hold) => CleanedOwes(s, hold, c, upTo);
    case Mark(hold) => MarkOwes(s, hold);
    case Begin(hold, now) => BeginOwes(s, hold, now, c);
    case Request(_) =>
    case Notify =>
    case Nudge =>
    case Cancel =>
    case SkipEvent(_, _, _) =>
    case _ => LoopOwes(s, a);
  }

  // --- Over runs --------------------------------------------------------------------------------------------------------

  lemma {:induction false} OwedUntilBegun(states: seq<Sys>, actions: seq<Action>, i: nat, j: nat, c: Id)
    requires Run(states, actions) && i < j < |states| && AsksReconcile(states[i], actions[i], c)
    ensures c in states[j].past.owedReconcile || exists k, task | i < k < j :: Begins(states[k], actions[k], task, c)
    decreases j
  {
    hide Act, AsksReconcile, Begins, Possible;
    ReconcileOwed(states[j - 1], actions[j - 1], c);
    if i + 1 < j {
      OwedUntilBegun(states, actions, i, j - 1, c);
      if c in states[j - 1].past.owedReconcile && c !in states[j].past.owedReconcile {
        var task :| Begins(states[j - 1], actions[j - 1], task, c);
      }
    }
  }

  // Between a request for a reconcile and the release of the container, one begins.
  lemma RequestedReconcileBegins(states: seq<Sys>, actions: seq<Action>, i: nat, j: nat, c: Id)
    requires Run(states, actions) && i < j < |states| && AsksReconcile(states[i], actions[i], c) && c !in states[j].state.inFlight
    ensures exists k, task | i < k < j :: Begins(states[k], actions[k], task, c)
  {
    hide *;
    OwedUntilBegun(states, actions, i, j, c);
    NoLostWork(states, actions, j, c);
  }

  lemma {:induction false} OwedUntilCleaned(states: seq<Sys>, actions: seq<Action>, i: nat, j: nat, c: Id, upTo: Time)
    requires Run(states, actions) && i < j < |states| && actions[i].EndEvent? && actions[i].c == c && upTo <= actions[i].eventTime
    ensures OwedUpTo(states[j], c, upTo) || exists k, task | i < k < j :: CleansUp(states[k], actions[k], task, c, upTo)
    decreases j
  {
    hide Act, OwedUpTo, CleansUp, Possible;
    CleanupOwed(states[j - 1], actions[j - 1], c, upTo);
    if i + 1 < j {
      OwedUntilCleaned(states, actions, i, j - 1, c, upTo);
      if OwedUpTo(states[j - 1], c, upTo) && !OwedUpTo(states[j], c, upTo) {
        var task :| CleansUp(states[j - 1], actions[j - 1], task, c, upTo);
      }
    }
  }

  // Between an end of run and the release of the container, it is cleaned up after that run.
  lemma RequestedCleanupRuns(states: seq<Sys>, actions: seq<Action>, i: nat, j: nat, c: Id)
    requires Run(states, actions) && i < j < |states| && actions[i].EndEvent? && actions[i].c == c && c !in states[j].state.inFlight
    ensures exists k, task | i < k < j :: CleansUp(states[k], actions[k], task, c, actions[i].eventTime)
  {
    OwedUntilCleaned(states, actions, i, j, c, actions[i].eventTime);
    hide CleansUp, Run;
    NoLostWork(states, actions, j, c);
  }

  // --- By the holder ------------------------------------------------------------------------------------------------------

  predicate Holds(s: Sys, task: nat, c: Id) {
    task in s.holds && s.holds[task].container == c
  }

  lemma ClaimHolds(s: Sys, c: Id, eventTime: Option<Time>, terminal: bool, now: Time, enumerated: bool, task: nat)
    requires Exclusive(s) && task in s.holds
    ensures var t := Claim(s, c, eventTime, terminal, now, enumerated).0; task in t.holds && t.holds[task] == s.holds[task]
  {
    hide Reserved, Owing;
  }

  lemma AskHolds(s: Sys, hold: nat, now: Time, task: nat)
    requires Exclusive(s) && task in s.holds
    ensures var t := AskedNext(s, hold, now);
            && (task != hold || !s.holds[task].phase.Asking? ==> task in t.holds && t.holds[task] == s.holds[task])
            && (Holds(t, task, s.holds[task].container) || s.holds[task].container !in t.state.inFlight)
  {
    hide Log;
    if hold in s.holds {
      AskedAt(s.state, s.holds[hold].container, now);
    }
  }

  // A task keeps its container as long as it is held, and its phase changes only by its own steps.
  lemma StepHolds(s: Sys, a: Action, task: nat)
    requires Exclusive(s) && task in s.holds
    ensures var t, c := Act(s, a), s.holds[task].container;
            && (Holds(t, task, c) || c !in t.state.inFlight)
            && (s.holds[task].phase.Terminating? && a != CleanedUp(task) ==> task in t.holds && t.holds[task] == s.holds[task])
  {
    hide Exclusive, Claim, AskedNext, Visited, Retried, CleanUpDone, Begun, Ended, Marked, ListFailed, FinishedLoop, Requested, Skipped, Taken, Pruned;
    match a
    case StartEvent(d, eventTime, now) => ClaimHolds(s, d, Some(eventTime), false, now, false, task);
    case EndEvent(d, eventTime, now) => ClaimHolds(s, d, Some(eventTime), true, now, false, task);
    case Visit(now) => VisitHolds(s, now, task);
    case Retry(now) => RetryHolds(s, now, task);
    case Ask(hold, now) => AskHolds(s, hold, now, task);
    case CleanedUp(hold) => PhaseHolds(s, a, hold, task);
    case Begin(hold, now) => PhaseHolds(s, a, hold, task);
    case End(hold, outcome, monotonic) => PhaseHolds(s, a, hold, task);
    case Mark(hold) => PhaseHolds(s, a, hold, task);
    case Request(_) =>
    case Notify =>
    case Nudge =>
    case Cancel =>
    case SkipEvent(_, _, _) =>
    case _ => LoopOwes(s, a);
  }

  lemma VisitHolds(s: Sys, now: Time, task: nat)
    requires Exclusive(s) && task in s.holds
    ensures var t := Visited(s, now); task in t.holds && t.holds[task] == s.holds[task]
  {
    hide Claim, Exclusive;
    if s.loop.Claiming? && s.loop.next < |s.loop.listed| {
      ClaimHolds(s, s.loop.listed[s.loop.next], None, false, now, true, task);
    }
  }

  lemma RetryHolds(s: Sys, now: Time, task: nat)
    requires Exclusive(s) && task in s.holds
    ensures var t := Retried(s, now); task in t.holds && t.holds[task] == s.holds[task]
  {
    hide Claim, Exclusive, Reported;
    if s.loop.Retrying? && s.loop.tried < |s.loop.ids| {
      ClaimHolds(s, s.loop.ids[s.loop.tried], None, false, now, true, task);
    }
  }

  // The steps of a hold change its own phase.
  lemma PhaseHolds(s: Sys, a: Action, hold: nat, task: nat)
    requires task in s.holds && (a == CleanedUp(hold) || (a.Begin? && a.hold == hold) || (a.End? && a.hold == hold) || a == Mark(hold))
    ensures var t := Act(s, a);
            && task in t.holds && t.holds[task].container == s.holds[task].container
            && (s.holds[task].phase.Terminating? && a != CleanedUp(task) ==> t.holds[task] == s.holds[task])
  {
    hide Settled;
  }

  lemma RunExclusive(states: seq<Sys>, actions: seq<Action>, i: nat)
    requires Run(states, actions) && i < |states|
    ensures AllOk(states[i])
  {
    hide Act, Possible, PassInv, LogInv, Underway, Wakeful, SkipInv, AllOk;
    RunInv(states, actions, i);
  }

  lemma {:induction false} HolderStays(states: seq<Sys>, actions: seq<Action>, i: nat, k: nat, task: nat, c: Id)
    requires Run(states, actions) && i <= k < |states| && Holds(states[i], task, c)
    requires forall m | i <= m <= k :: c in states[m].state.inFlight
    ensures Holds(states[k], task, c)
    decreases k
  {
    hide Act, Possible, LocalOk;
    if i < k {
      HolderStays(states, actions, i, k - 1, task, c);
      RunExclusive(states, actions, k - 1);
      StepHolds(states[k - 1], actions[k - 1], task);
    }
  }

  // A reconcile asked for is begun by the task that holds the container, before it lets go of it.
  lemma HolderBegins(states: seq<Sys>, actions: seq<Action>, i: nat, j: nat, task: nat, c: Id)
    requires Run(states, actions) && i < j < |states| && AsksReconcile(states[i], actions[i], c) && Holds(states[i + 1], task, c)
    requires c !in states[j].state.inFlight && forall m | i < m < j :: c in states[m].state.inFlight
    ensures exists k | i < k < j :: Begins(states[k], actions[k], task, c)
  {
    RequestedReconcileBegins(states, actions, i, j, c);
    var k, other :| i < k < j && Begins(states[k], actions[k], other, c);
    hide Run, AsksReconcile;
    HolderStays(states, actions, i + 1, k, task, c);
    MutualExclusion(states, actions, k, task, other);
  }

  // --- Cleanup first --------------------------------------------------------------------------------------------------------

  // The task is cleaning up after the container's runs up to that time at least.
  predicate CleaningUp(s: Sys, task: nat, c: Id, upTo: Time) {
    Holds(s, task, c) && s.holds[task].phase.Terminating? && upTo <= s.holds[task].phase.at
  }

  lemma {:induction false} CleaningUntilDone(states: seq<Sys>, actions: seq<Action>, i: nat, k: nat, task: nat, c: Id, upTo: Time)
    requires Run(states, actions) && i <= k < |states| && CleaningUp(states[i], task, c, upTo)
    ensures CleaningUp(states[k], task, c, upTo) || exists m | i <= m < k :: CleansUp(states[m], actions[m], task, c, upTo)
    decreases k
  {
    hide Act, Possible, LocalOk;
    if i < k {
      CleaningUntilDone(states, actions, i, k - 1, task, c, upTo);
      if CleaningUp(states[k - 1], task, c, upTo) {
        RunExclusive(states, actions, k - 1);
        StepHolds(states[k - 1], actions[k - 1], task);
        if actions[k - 1] == CleanedUp(task) {
          assert CleansUp(states[k - 1], actions[k - 1], task, c, upTo);
        }
      }
    }
  }

  // Asking for more work takes the queued cleanup, at the latest queued time.
  lemma AskTakesCleanup(s: Sys, task: nat, now: Time, c: Id, upTo: Time)
    requires AllOk(s) && Holds(s, task, c) && s.holds[task].phase.Asking? && OwedUpTo(s, c, upTo)
    ensures CleaningUp(Act(s, Ask(task, now)), task, c, upTo)
  {
    HolderSees(s, task);
    assert LocalOk(Look(s, c), s.state.latest, s.past.clock);
    hide AskedNext;
    AskTakes(s, task, now);
  }

  // An end of run that came before the holder asked for more work is cleaned up after before the
  // holder begins a reconcile.
  lemma CleanupBeforeReconcile(states: seq<Sys>, actions: seq<Action>, i: nat, a: nat, k: nat, task: nat, c: Id)
    requires Run(states, actions) && i < a < k < |actions| && actions[i].EndEvent? && actions[i].c == c
    requires actions[a].Ask? && actions[a].hold == task && Holds(states[a], task, c) && states[a].holds[task].phase.Asking?
    requires Begins(states[k], actions[k], task, c)
    ensures exists m, other | i < m < k :: CleansUp(states[m], actions[m], other, c, actions[i].eventTime)
  {
    var upTo := actions[i].eventTime;
    OwedUntilCleaned(states, actions, i, a, c, upTo);
    if OwedUpTo(states[a], c, upTo) {
      assert states[a + 1] == Act(states[a], Ask(task, actions[a].now));
      hide Run, Act, AllOk, OwedUpTo, CleansUp;
      RunExclusive(states, actions, a);
      AskTakesCleanup(states[a], task, actions[a].now, c, upTo);
      CleaningUntilDone(states, actions, a + 1, k, task, c, upTo);
    }
  }
}
