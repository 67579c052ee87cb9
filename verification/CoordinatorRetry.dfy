/** The retries of a container that keeps failing back off, over every run. */
module CoordinatorRetry {
  import opened Wrappers
  import opened Coordinator
  import opened CoordinatorRun
  import opened CoordinatorHolds
  import opened CoordinatorInv
  import opened CoordinatorSound
  import opened CoordinatorLive
  import opened CoordinatorDone

  // The failures of a container in a row, and when its next attempt is due.
  datatype Streak = Streak(failures: nat, due: Time)

  // The wait after the n-th failure in a row: one second, doubled up to thirty.
  function Wait(n: nat): Time {
    if n == 0 then 0
    else if n <= 5 then [1, 2, 4, 8, 16][n - 1] * 1_000_000_000
    else 30_000_000_000
  }

  // The action ends a reconcile of the container.
  predicate Ends(s: Sys, a: Action, c: Id) {
    a.End? && a.hold in s.holds && s.holds[a.hold].container == c && s.holds[a.hold].phase.Reconciling?
  }

  // A failure makes the streak longer, a success under the latest request ends it, and one under an
  // older request asks for another attempt at once.
  function Recorded(streak: Streak, s: Sys, a: Action, c: Id): Streak {
    if !Ends(s, a, c) then streak
    else if a.outcome == Failed then Streak(streak.failures + 1, a.monotonic + Wait(streak.failures + 1))
    else if s.holds[a.hold].phase.key == s.state.latest then Streak(0, 0)
    else streak.(due := a.monotonic)
  }

  ghost function StreakAt(states: seq<Sys>, actions: seq<Action>, i: nat, c: Id): Streak
    requires i < |states| <= |actions| + 1
  {
    if i == 0 then Streak(0, 0) else Recorded(StreakAt(states, actions, i - 1, c), states[i - 1], actions[i - 1], c)
  }

  // What is pending is what the streak says.
  predicate Follows(pending: Option<PendingEntry>, streak: Streak) {
    match pending
    case None => streak.failures == 0
    case Some(entry) => streak.failures > 0 && entry.backoff == Wait(streak.failures) && entry.due == streak.due
  }

  lemma WaitDoubles(n: nat)
    requires n > 0
    ensures Wait(n + 1) == Min(Wait(n) * 2, MAX_BACKOFF) && Wait(1) == MIN_BACKOFF
  {
  }

  lemma EndFollows(pending: Option<PendingEntry>, latest: PassKey, streak: Streak, key: PassKey, settled: bool, now: Time)
    requires Follows(pending, streak) && (pending.Some? ==> pending.value.key == latest)
    ensures Follows(LPending(pending, latest, key, settled, now),
                    if !settled then Streak(streak.failures + 1, now + Wait(streak.failures + 1))
                    else if key == latest then Streak(0, 0)
                    else streak.(due := now))
  {
    if streak.failures > 0 {
      WaitDoubles(streak.failures);
    }
  }

  lemma RetagFollows(pending: map<Id, PendingEntry>, key: PassKey, c: Id, streak: Streak)
    requires Follows(At(pending, c), streak)
    ensures Follows(At(Retagged(pending, key), c), streak)
  {
  }

  lemma AskedPending(s: State, c: Id, now: Time)
    ensures Asked(s, c, now).0.pending == s.pending && Asked(s, c, now).0.latest == s.latest
  {
    if c in s.inFlight {
      hide Asked;
      AskedAt(s, c, now);
    }
  }

  lemma AskPending(s: Sys, hold: nat, now: Time)
    ensures AskedNext(s, hold, now).state.pending == s.state.pending && AskedNext(s, hold, now).state.latest == s.state.latest
  {
    hide Asked, Log;
    if hold in s.holds {
      AskedPending(s.state, s.holds[hold].container, now);
    }
  }

  lemma FinishPending(s: Sys)
    ensures s.loop.Visiting? ==> FinishedLoop(s).state.pending == s.state.pending && FinishedLoop(s).state.latest == s.state.latest
    ensures ListFailed(s).state.pending == s.state.pending && ListFailed(s).state.latest == s.state.latest
  {
    ReportedOnly(s.state);
    ReportedOnly(s.state.(incomplete := false));
    hide Reported, Log;
  }

  lemma RetryPending(s: Sys, now: Time)
    ensures Retried(s, now).state.pending == s.state.pending && Retried(s, now).state.latest == s.state.latest
  {
    ReportedOnly(s.state);
    hide Reported, Claim, Log;
    if s.loop.Retrying? && s.loop.tried < |s.loop.ids| {
      ClaimGlobals(s, s.loop.ids[s.loop.tried], None, false, now, true);
    }
  }

  lemma VisitPending(s: Sys, now: Time)
    ensures Visited(s, now).state.pending == s.state.pending && Visited(s, now).state.latest == s.state.latest
  {
    hide Claim;
    if s.loop.Claiming? && s.loop.next < |s.loop.listed| {
      ClaimGlobals(s, s.loop.listed[s.loop.next], None, false, now, true);
    }
  }

  lemma EventPending(s: Sys, a: Action)
    requires a.StartEvent? || a.EndEvent?
    ensures Act(s, a).state.pending == s.state.pending && Act(s, a).state.latest == s.state.latest
  {
    hide Claim;
    ClaimGlobals(s, a.c, Some(a.eventTime), a.EndEvent?, a.now, false);
  }

  lemma QuietPending(s: Sys, a: Action)
    requires IsQuiet(a)
    ensures Act(s, a).state.pending == s.state.pending && Act(s, a).state.latest == s.state.latest
  {
    hide Act;
    QuietGlobals(s, a);
  }

  // Only the end of a reconcile and a request touch what is pending, and only a request is newer.
  lemma PendingKept(s: Sys, a: Action)
    requires !a.End? && !a.Request?
    ensures Act(s, a).state.pending == s.state.pending && Act(s, a).state.latest == s.state.latest
  {
    hide Visited, Retried, AskedNext, Claim, FinishedLoop, ListFailed, Taken, Skipped, Pruned;
    match a
    case Ask(hold, now) => AskPending(s, hold, now);
    case Check => FinishPending(s);
    case ListFails => FinishPending(s);
    case Retry(now) => RetryPending(s, now);
    case Visit(now) => VisitPending(s, now);
    case StartEvent(_, _, _) => EventPending(s, a);
    case EndEvent(_, _, _) => EventPending(s, a);
    case CleanedUp(_) =>
    case Begin(_, _) =>
    case Mark(_) =>
    case _ => QuietPending(s, a);
  }

  lemma EndStep(s: Sys, a: Action, c: Id, streak: Streak)
    requires a.End? && Follows(At(s.state.pending, c), streak) && (c in s.state.pending ==> s.state.pending[c].key == s.state.latest)
    ensures Follows(At(Act(s, a).state.pending, c), Recorded(streak, s, a, c))
  {
    hide Settled, Follows;
    if a.hold in s.holds && s.holds[a.hold].phase.Reconciling? {
      SettledAt(s.state, s.holds[a.hold].container, s.holds[a.hold].phase.key, a.outcome != Failed, a.monotonic);
      if s.holds[a.hold].container == c {
        EndFollows(At(s.state.pending, c), s.state.latest, streak, s.holds[a.hold].phase.key, a.outcome != Failed, a.monotonic);
      }
    }
  }

  lemma ActFollows(s: Sys, a: Action, c: Id, streak: Streak)
    requires Follows(At(s.state.pending, c), streak) && (c in s.state.pending ==> s.state.pending[c].key == s.state.latest)
    ensures Follows(At(Act(s, a).state.pending, c), Recorded(streak, s, a, c))
  {
    hide Follows;
    if a.End? {
      EndStep(s, a, c, streak);
    } else if a.Request? {
      RetagFollows(s.state.pending, Act(s, a).state.latest, c, streak);
    } else {
      hide Act;
      PendingKept(s, a);
    }
  }

  lemma {:induction false} RunFollows(states: seq<Sys>, actions: seq<Action>, i: nat, c: Id)
    requires Run(states, actions) && i < |states|
    ensures Follows(At(states[i].state.pending, c), StreakAt(states, actions, i, c))
  {
    hide Act, Possible, Recorded;
    if i > 0 {
      RunFollows(states, actions, i - 1, c);
      NothingStranded(states, actions, i - 1);
      hide Follows;
      ActFollows(states[i - 1], actions[i - 1], c, StreakAt(states, actions, i - 1, c));
    }
  }

  // In every reachable state a container is pending exactly while its last attempts failed, waits one
  // second after the first failure and twice as long after each further one, up to thirty, and is due
  // that long after the last failure, or at once where a reconcile of an older request succeeded since.
  lemma BacksOff(states: seq<Sys>, actions: seq<Action>, i: nat, c: Id)
    requires Run(states, actions) && i < |states|
    ensures var streak := StreakAt(states, actions, i, c);
            && (c in states[i].state.pending <==> streak.failures > 0)
            && (c in states[i].state.pending ==>
                  states[i].state.pending[c].backoff == Wait(streak.failures) && states[i].state.pending[c].due == streak.due)
  {
    hide Run, StreakAt, Wait;
    RunFollows(states, actions, i, c);
  }
}
