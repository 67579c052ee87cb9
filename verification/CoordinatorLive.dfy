/** The coordinator's promises, over every run: completion logged only when true and once per request, no
    stranded request, no lost wake-up, no lost work, events skipped only when covered. */
module CoordinatorLive {
  import opened Wrappers
  import opened Coordinator
  import opened CoordinatorRun
  import opened CoordinatorHolds
  import opened CoordinatorInv
  import opened CoordinatorSound

  // --- Logging -------------------------------------------------------------------------------------------------------

  // Nothing is left for the latest request.
  predicate Complete(s: State) {
    !s.incomplete && |s.pending| == 0 && !Busy(s)
  }

  // A step logs nothing, or the completion of the latest request, not announced before.
  ghost predicate LogStep(s: Sys, t: Sys) {
    || (t.past.logged == s.past.logged && t.state.announced == s.state.announced)
    || (&& t.past.logged == s.past.logged + [t.state.latest] && t.state.announced == t.state.latest
        && t.state.latest == s.state.latest && s.state.announced != s.state.latest && Complete(t.state))
  }

  lemma AnnouncedMeans(s: State)
    ensures var t := Announced(s).0;
            t.announced != s.announced ==> t.announced == s.latest && s.announced != s.latest && Complete(t)
  {
  }

  lemma ReportedMeans(s: State)
    ensures var t := Reported(s).0;
            t.announced != s.announced ==> t.announced == s.latest && s.announced != s.latest && Complete(t)
  {
    AnnouncedMeans(s);
    hide Announced;
  }

  lemma AskLogs(s: Sys, hold: nat, now: Time)
    requires AllOk(s)
    ensures LogStep(s, AskedNext(s, hold, now))
  {
    if hold in s.holds && s.holds[hold].phase.Asking? {
      var c := s.holds[hold].container;
      HolderSees(s, hold);
      var held := s.state.inFlight[c];
      hide AllOk, Complete;
      if held.reconcile || held.terminateAt.Some? {
        AskTakes(s, hold, now);
        hide AskedNext;
      } else {
        var x := s.state.(inFlight := s.state.inFlight - {c});
        AnnouncedMeans(x);
        AnnouncedOnly(x);
        hide Announced;
      }
    }
  }

  lemma ReportLogs(s: Sys, before: State)
    requires before.announced == s.state.announced && before.latest == s.state.latest
    ensures var state := Reported(before).0;
            forall t: Sys :: t.state == state && t.past.logged == Log(s.past, s.state, state).logged ==> LogStep(s, t)
  {
    ReportedMeans(before);
    ReportedOnly(before);
    hide Reported, Complete;
  }

  lemma ActLogs(s: Sys, a: Action)
    requires AllOk(s)
    ensures LogStep(s, Act(s, a))
  {
    hide AllOk, LogStep, Visited, Retried, AskedNext, Claim, CleanUpDone, Begun, Ended, Marked, FinishedLoop, ListFailed, Requested,
         Taken, Skipped, Pruned;
    match a
    case Ask(hold, now) => AskLogs(s, hold, now);
    case Check => CheckLogs(s);
    case ListFails => ListFailedLogs(s);
    case Retry(now) => RetryLogs(s, now);
    case Visit(now) => VisitLogs(s, now);
    case StartEvent(_, _, _) => HoldLogs(s, a);
    case EndEvent(_, _, _) => HoldLogs(s, a);
    case CleanedUp(_) => HoldLogs(s, a);
    case Begin(_, _) => HoldLogs(s, a);
    case End(_, _, _) => HoldLogs(s, a);
    case Mark(_) => HoldLogs(s, a);
    case _ => OtherLogs(s, a);
  }

  lemma OtherLogs(s: Sys, a: Action)
    requires IsQuiet(a) || a.Request?
    ensures LogStep(s, Act(s, a))
  {
    hide LogStep;
    QuietLog(s, Act(s, a));
  }

  lemma ListFailedLogs(s: Sys)
    ensures LogStep(s, ListFailed(s))
  {
    ReportLogs(s, s.state);
    QuietLog(s, s);
    hide Reported, LogStep;
  }

  lemma QuietLog(s: Sys, t: Sys)
    requires t.past.logged == s.past.logged && t.state.announced == s.state.announced
    ensures LogStep(s, t)
  {
  }

  lemma HoldLogs(s: Sys, a: Action)
    requires a.StartEvent? || a.EndEvent? || a.CleanedUp? || a.Begin? || a.End? || a.Mark?
    ensures LogStep(s, Act(s, a))
  {
    HoldGlobals(s, a);
    hide Act, LogStep;
    QuietLog(s, Act(s, a));
  }

  lemma CheckLogs(s: Sys)
    ensures LogStep(s, Act(s, Check))
  {
    if s.loop.Visiting? && s.loop.next == |s.loop.listed| {
      ReportLogs(s, s.state);
      ReportLogs(s, s.state.(incomplete := false));
      hide Reported, LogStep;
    } else {
      hide FinishedLoop, Complete;
    }
  }

  lemma VisitLogs(s: Sys, now: Time)
    ensures LogStep(s, Visited(s, now))
  {
    if s.loop.Claiming? && s.loop.next < |s.loop.listed| {
      ClaimGlobals(s, s.loop.listed[s.loop.next], None, false, now, true);
    }
    hide Claim, Complete;
  }

  lemma RetryLogs(s: Sys, now: Time)
    ensures LogStep(s, Retried(s, now))
  {
    ReportLogs(s, s.state);
    if s.loop.Retrying? && s.loop.tried < |s.loop.ids| {
      ClaimGlobals(s, s.loop.ids[s.loop.tried], None, false, now, true);
    }
    hide Claim, Complete, Reported;
  }

  // What is logged: requests in order, the last one announced.
  ghost predicate LogInv(s: Sys) {
    && Known(s.state.announced, s.state.latest)
    && (forall i | 0 <= i < |s.past.logged| :: s.past.logged[i].epoch <= s.state.announced.epoch)
    && forall i, j | 0 <= i < j < |s.past.logged| :: s.past.logged[i].epoch < s.past.logged[j].epoch
  }

  lemma LogKept(s: Sys, t: Sys)
    requires LogInv(s) && LogStep(s, t) && Known(t.state.announced, t.state.latest)
    ensures LogInv(t)
  {
    hide Complete;
  }

  // With nothing left, every container the finished pass listed has had a later reconcile settle.
  lemma CompleteServed(s: Sys)
    requires AllOk(s) && PassInv(s) && Complete(s.state)
    requires s.past.finished.Some? && s.past.finished.value.key == s.state.latest
    ensures forall c | c in s.past.finished.value.listed :: c in s.past.served && s.past.finished.value.began <= s.past.served[c]
  {
    var f := s.past.finished.value;
    assert AllGood(s, f.listed, |f.listed|, f.began);
    hide Exclusive, PassInv, PhaseOf;
    forall c | c in f.listed
      ensures c in s.past.served && f.began <= s.past.served[c]
    {
      var i :| 0 <= i < |f.listed| && f.listed[i] == c;
      var x := Look(s, c);
      assert Good(x, f.began) && LocalOk(x, s.state.latest, s.past.clock);
      assert x.pending.None? by { assert c !in s.state.pending; }
      if x.held.Some? {
        assert c in s.state.inFlight && !s.state.inFlight[c].reconcile && !s.state.inFlight[c].running;
      }
    }
  }

  // --- Stranding and waking ---------------------------------------------------------------------------------------------

  // While reconciliation is incomplete a pass for the latest request is requested, running or armed.
  ghost predicate Underway(s: Sys) {
    && (LoopKey(s.loop).Some? && LoopKey(s.loop).value != s.state.latest ==> s.state.dirty)
    && (s.state.incomplete ==> s.state.dirty || LoopKey(s.loop) == Some(s.state.latest) || s.listRetry || s.cancelled)
  }

  lemma ActUnderway(s: Sys, a: Action)
    requires Underway(s) && AllOk(s)
    ensures Underway(Act(s, a))
  {
    hide AllOk, Underway, Visited, Retried, AskedNext, Claim, CleanUpDone, Begun, Ended, Marked, FinishedLoop, ListFailed, Requested,
         Taken, Skipped, Pruned;
    match a
    case Ask(hold, now) => AskUnderway(s, hold, now);
    case Check => CheckUnderway(s);
    case ListFails => ListFailedUnderway(s);
    case Retry(now) => RetryUnderway(s, now);
    case Visit(now) => VisitUnderway(s, now);
    case StartEvent(_, _, _) => HoldUnderway(s, a);
    case EndEvent(_, _, _) => HoldUnderway(s, a);
    case CleanedUp(_) => HoldUnderway(s, a);
    case Begin(_, _) => HoldUnderway(s, a);
    case End(_, _, _) => HoldUnderway(s, a);
    case Mark(_) => HoldUnderway(s, a);
    case _ => OtherUnderway(s, a);
  }

  lemma OtherUnderway(s: Sys, a: Action)
    requires Underway(s) && (IsQuiet(a) || a.Request?)
    ensures Underway(Act(s, a))
  {
    hide Skipped, Pruned, Retagged, Claim;
    SkippedOnly(s, a);
  }

  lemma SkippedOnly(s: Sys, a: Action)
    ensures a.SkipEvent? ==> var t := Skipped(s.state, a.c, a.eventTime, a.now).0; t == s.state.(processed := t.processed)
    ensures a.Prune? ==> var t := Pruned(s.state, a.now); t == s.state.(processed := t.processed)
  {
  }

  lemma AskUnderway(s: Sys, hold: nat, now: Time)
    requires Underway(s) && AllOk(s)
    ensures Underway(AskedNext(s, hold, now))
  {
    if hold in s.holds {
      AskGlobals(s, hold, now);
      hide AskedNext;
    }
  }

  lemma CheckUnderway(s: Sys)
    requires Underway(s)
    ensures Underway(Act(s, Check))
  {
    hide FinishedLoop;
    if s.loop.Visiting? {
      FinishedUnderway(s);
    }
  }

  lemma ListFailedUnderway(s: Sys)
    requires Underway(s)
    ensures Underway(ListFailed(s))
  {
    ReportedOnly(s.state);
    hide Reported;
  }

  lemma RetryUnderway(s: Sys, now: Time)
    requires Underway(s)
    ensures Underway(Retried(s, now))
  {
    hide Claim, Reported;
    ReportedOnly(s.state);
    if s.loop.Retrying? && s.loop.tried < |s.loop.ids| {
      ClaimGlobals(s, s.loop.ids[s.loop.tried], None, false, now, true);
    }
  }

  lemma VisitUnderway(s: Sys, now: Time)
    requires Underway(s)
    ensures Underway(Visited(s, now))
  {
    hide Claim;
    if s.loop.Claiming? && s.loop.next < |s.loop.listed| {
      ClaimGlobals(s, s.loop.listed[s.loop.next], None, false, now, true);
    }
  }

  lemma HoldUnderway(s: Sys, a: Action)
    requires Underway(s)
    requires a.StartEvent? || a.EndEvent? || a.CleanedUp? || a.Begin? || a.End? || a.Mark?
    ensures Underway(Act(s, a))
  {
    HoldGlobals(s, a);
    hide Act;
  }

  lemma FinishedUnderway(s: Sys)
    requires Underway(s) && s.loop.Visiting?
    ensures Underway(FinishedLoop(s))
  {
    ReportedOnly(s.state);
    ReportedOnly(s.state.(incomplete := false));
    hide Reported;
  }

  // A container whose retry nobody holds back is waited for, or the loop is about to be woken.
  predicate Awaited(x: Seen, permit: bool, retry: Option<Time>) {
    x.held.None? && x.pending.Some? ==> permit || (retry.Some? && retry.value <= x.pending.value.due)
  }

  ghost predicate Wakeful(s: Sys) {
    && ((s.loop.Planning? || s.loop.Waiting?) && s.state.dirty ==> s.permit || s.notifying > 0)
    && (s.loop.Waiting? ==> forall c :: Awaited(Look(s, c), s.permit, s.loop.retry))
  }

  // A step about one container while the loop stays where it is.
  lemma WakefulOne(s: Sys, t: Sys, c: Id)
    requires Wakeful(s) && OnlyAbout(s, t, c) && t.loop == s.loop && (s.permit ==> t.permit)
    requires t.state.dirty == s.state.dirty && t.notifying == s.notifying
    requires t.loop.Waiting? ==> Awaited(Look(t, c), t.permit, t.loop.retry)
    ensures Wakeful(t)
  {
    hide Look, Awaited;
    if t.loop.Waiting? {
      forall d
        ensures Awaited(Look(t, d), t.permit, t.loop.retry)
      {
        if d != c {
          AwaitedMore(Look(s, d), s.permit, t.permit, t.loop.retry);
        }
      }
    }
  }

  lemma AwaitedMore(x: Seen, permit: bool, more: bool, retry: Option<Time>)
    requires Awaited(x, permit, retry) && (permit ==> more)
    ensures Awaited(x, more, retry)
  {
  }

  lemma ClaimWakeful(s: Sys, c: Id, eventTime: Time, terminal: bool, now: Time)
    requires Wakeful(s) && AllOk(s)
    ensures Wakeful(Claim(s, c, Some(eventTime), terminal, now, false).0)
  {
    hide Claim, Look, Exclusive, LocalOk, Wakeful, LClaim;
    ClaimGlobals(s, c, Some(eventTime), terminal, now, false);
    ClaimLooks(s, c, Some(eventTime), terminal, now, false);
    ClaimHolds(Look(s, c), Some(eventTime), terminal, now);
    WakefulOne(s, Claim(s, c, Some(eventTime), terminal, now, false).0, c);
  }

  lemma ClaimHolds(x: Seen, eventTime: Option<Time>, terminal: bool, now: Time)
    ensures LClaim(x, eventTime, terminal, now).held.Some?
  {
  }

  lemma HoldWakeful(s: Sys, a: Action)
    requires Wakeful(s) && AllOk(s)
    requires a.StartEvent? || a.EndEvent? || a.CleanedUp? || a.Begin? || a.End? || a.Mark?
    ensures Wakeful(Act(s, a))
  {
    hide Claim, CleanUpDone, Begun, Ended, Marked, AllOk, Wakeful;
    match a
    case StartEvent(c, eventTime, now) => ClaimWakeful(s, c, eventTime, false, now);
    case EndEvent(c, eventTime, now) => ClaimWakeful(s, c, eventTime, true, now);
    case CleanedUp(hold) => StillHeld(s, a, hold);
    case Begin(hold, _) => StillHeld(s, a, hold);
    case End(hold, _, _) => StillHeld(s, a, hold);
    case Mark(hold) => StillHeld(s, a, hold);
  }

  // The holder's own steps keep its container held.
  lemma StillHeld(s: Sys, a: Action, hold: nat)
    requires Wakeful(s) && AllOk(s)
    requires (a.CleanedUp? || a.Begin? || a.End? || a.Mark?) && a.hold == hold
    ensures Wakeful(Act(s, a))
  {
    HoldGlobals(s, a);
    if hold !in s.holds {
      assert Act(s, a) == s;
    } else {
      var c := s.holds[hold].container;
      HolderSees(s, hold);
      hide Wakeful, CleanUpDone, Begun, Ended, Marked, LocalOk, Exclusive, LPending;
      match a {
        case CleanedUp(_) => CleanUpLooks(s, hold);
        case Begin(_, now) => BeginLooks(s, hold, now);
        case End(_, outcome, monotonic) => EndLooks(s, hold, outcome, monotonic);
        case Mark(_) => MarkLooks(s, hold);
      }
      assert Look(Act(s, a), c).held == Look(s, c).held;
      assert Look(s, c).held.Some?;
      hide Look, Act;
      WakefulOne(s, Act(s, a), c);
    }
  }

  // A release gives the wake-up its container needs.
  lemma AskWakeful(s: Sys, hold: nat, now: Time)
    requires Wakeful(s) && AllOk(s)
    ensures Wakeful(AskedNext(s, hold, now))
  {
    var t := AskedNext(s, hold, now);
    if hold !in s.holds {
      assert t == s;
    } else {
      var c := s.holds[hold].container;
      AskLooks(s, hold, now);
      AskGlobals(s, hold, now);
      AskPermit(s, hold, now);
      hide AskedNext, Wakeful, LocalOk, Exclusive;
      WakefulOne(s, t, c);
    }
  }

  lemma AskPermit(s: Sys, hold: nat, now: Time)
    requires AllOk(s) && hold in s.holds
    ensures var t, c := AskedNext(s, hold, now), s.holds[hold].container;
            (s.permit ==> t.permit) && (c in t.state.inFlight || (c in t.state.pending ==> t.permit))
  {
    HolderSees(s, hold);
    var held := s.state.inFlight[s.holds[hold].container];
    hide AllOk, AskedNext;
    if !s.holds[hold].phase.Asking? {
      AskNothing(s, hold, now);
    } else if held.reconcile || held.terminateAt.Some? {
      AskTakes(s, hold, now);
    } else {
      AskReleases(s, hold, now);
    }
  }

  lemma RequestWakeful(s: Sys, generation: nat)
    requires Wakeful(s) && AllOk(s)
    ensures Wakeful(s.(state := Requested(s.state, generation), notifying := s.notifying + 1))
  {
    RequestLooks(s, generation);
    hide LocalOk, Exclusive, Look;
  }

  lemma PlanWakeful(s: Sys, retry: Option<Time>)
    requires Wakeful(s) && FirstDue(s.state, retry)
    ensures Wakeful(Act(s, Plan(retry)))
  {
    if s.loop.Planning? {
      var t := Act(s, Plan(retry));
      forall c
        ensures Awaited(Look(t, c), t.permit, retry)
      {
        if c in s.state.pending && c !in s.state.inFlight {
          assert c in Idle(s.state);
        }
      }
    }
  }

  lemma WakefulSame(s: Sys, t: Sys)
    requires Wakeful(s) && (forall c :: Look(t, c) == Look(s, c)) && (t.loop == s.loop || !t.loop.Waiting?)
    requires t.loop.Planning? || t.loop.Waiting? ==> (t.state.dirty ==> t.permit || t.notifying > 0)
    requires s.permit ==> t.permit
    ensures Wakeful(t)
  {
    hide Look;
  }

  // What a step about no container may change.
  lemma OtherWakeful(s: Sys, a: Action)
    requires Wakeful(s) && AllOk(s) && IsQuiet(a) && !a.Plan?
    ensures Wakeful(Act(s, a))
  {
    hide Act, Wakeful, LocalOk, Look, Exclusive, IsQuiet;
    var t := Act(s, a);
    if !t.loop.Planning? && !t.loop.Waiting? {
      BusyWakeful(t);
    } else {
      QuietDirty(s, a);
      QuietGlobals(s, a);
      NothingLooks(s, t);
      WakefulSame(s, t);
    }
  }

  lemma QuietDirty(s: Sys, a: Action)
    requires Wakeful(s) && IsQuiet(a) && !a.Plan? && (Act(s, a).loop.Planning? || Act(s, a).loop.Waiting?)
    ensures var t := Act(s, a);
            && (t.loop == s.loop || !t.loop.Waiting?) && (t.state.dirty ==> t.permit || t.notifying > 0) && (s.permit ==> t.permit)
  {
    SkippedOnly(s, a);
    hide Skipped, Pruned, Awaited, Look;
  }

  lemma BusyWakeful(s: Sys)
    requires !s.loop.Planning? && !s.loop.Waiting?
    ensures Wakeful(s)
  {
  }

  lemma ActWakeful(s: Sys, a: Action)
    requires Wakeful(s) && AllOk(s) && Possible(s, a)
    ensures Wakeful(Act(s, a))
  {
    hide AllOk, Wakeful, AskedNext, Claim, CleanUpDone, Begun, Ended, Marked, Requested, Taken, Skipped, Pruned, FirstDue, Reported;
    match a
    case Request(generation) => RequestWakeful(s, generation);
    case Ask(hold, now) => AskWakeful(s, hold, now);
    case Plan(retry) => PlanWakeful(s, retry);
    case StartEvent(_, _, _) => HoldWakeful(s, a);
    case EndEvent(_, _, _) => HoldWakeful(s, a);
    case CleanedUp(_) => HoldWakeful(s, a);
    case Begin(_, _) => HoldWakeful(s, a);
    case End(_, _, _) => HoldWakeful(s, a);
    case Mark(_) => HoldWakeful(s, a);
    case Check => LoopWakeful(s, a);
    case ListFails => LoopWakeful(s, a);
    case Retry(now) => LoopWakeful(s, a);
    case Visit(now) => LoopWakeful(s, a);
    case _ => OtherWakeful(s, a);
  }

  lemma LoopWakeful(s: Sys, a: Action)
    requires Wakeful(s) && (a.Check? || a.ListFails? || a.Retry? || a.Visit?)
    ensures Wakeful(Act(s, a))
  {
    hide Wakeful, Claim, Reported;
    if s.loop.Planning? || s.loop.Waiting? {
      assert Act(s, a) == s;
    } else {
      BusyWakeful(Act(s, a));
    }
  }

  // --- Skipped events ---------------------------------------------------------------------------------------------------

  predicate SkipOk(s: Sys, c: Id) {
    && (c in s.state.processed ==> (c, s.state.processed[c].at) in s.past.inspections)
    && (PhaseOf(s, c).Some? && PhaseOf(s, c).value.Marking? ==> (c, PhaseOf(s, c).value.inspected.at) in s.past.inspections)
  }

  // Every entry that can skip an event comes from a reconcile that succeeded.
  ghost predicate SkipInv(s: Sys) {
    forall c :: SkipOk(s, c)
  }

  lemma SkipOne(s: Sys, t: Sys, c: Id)
    requires SkipInv(s) && OnlyAbout(s, t, c) && s.past.inspections <= t.past.inspections
    requires forall d | d != c && d in t.state.processed :: d in s.state.processed && t.state.processed[d] == s.state.processed[d]
    requires SkipOk(t, c)
    ensures SkipInv(t)
  {
    hide PhaseOf;
    forall d
      ensures SkipOk(t, d)
    {
      if d != c {
        assert SkipOk(s, d);
        assert Look(t, d).phase == Look(s, d).phase;
      }
    }
  }

  lemma HoldSkips(s: Sys, hold: nat, t: Sys, c: Id)
    requires SkipInv(s) && Exclusive(t) && OnlyAbout(s, t, c) && t.state.processed == s.state.processed
    requires s.past.inspections <= t.past.inspections
    requires PhaseOf(t, c).Some? && PhaseOf(t, c).value.Marking? ==> (c, PhaseOf(t, c).value.inspected.at) in t.past.inspections
    ensures SkipInv(t)
  {
    hide PhaseOf, Exclusive;
    assert SkipOk(s, c);
    SkipOne(s, t, c);
  }

  lemma ClaimSkips(s: Sys, c: Id, eventTime: Option<Time>, terminal: bool, now: Time, enumerated: bool)
    requires SkipInv(s) && AllOk(s)
    ensures SkipInv(Claim(s, c, eventTime, terminal, now, enumerated).0)
  {
    var t := Claim(s, c, eventTime, terminal, now, enumerated).0;
    assert SkipOk(s, c);
    ClaimGlobals(s, c, eventTime, terminal, now, enumerated);
    ClaimLooks(s, c, eventTime, terminal, now, enumerated);
    assert Look(t, c).phase == LClaim(Look(s, c), eventTime, terminal, now).phase;
    assert PhaseOf(t, c) == PhaseOf(s, c) || !PhaseOf(t, c).value.Marking?;
    hide Claim, LocalOk, Exclusive, PhaseOf, SkipInv;
    HoldSkips(s, 0, t, c);
  }

  lemma CleanUpSkips(s: Sys, hold: nat)
    requires SkipInv(s) && AllOk(s)
    ensures SkipInv(CleanUpDone(s, hold))
  {
    var t := CleanUpDone(s, hold);
    if hold in s.holds {
      var c := s.holds[hold].container;
      assert SkipOk(s, c);
      assert t.state == s.state && t.past.inspections == s.past.inspections;
      hide CleanUpDone, LocalOk, Exclusive, PhaseOf, SkipInv;
      CleanUpLooks(s, hold);
      assert Look(t, c).phase == PhaseOf(t, c) && Look(s, c).phase == PhaseOf(s, c);
      HoldSkips(s, hold, t, c);
    }
  }

  lemma BeginSkips(s: Sys, hold: nat, now: Time)
    requires SkipInv(s) && AllOk(s)
    ensures SkipInv(Begun(s, hold, now))
  {
    var t := Begun(s, hold, now);
    if hold in s.holds {
      var c := s.holds[hold].container;
      assert SkipOk(s, c);
      assert t.state == s.state && t.past.inspections == s.past.inspections;
      hide Begun, LocalOk, Exclusive, PhaseOf, SkipInv;
      BeginLooks(s, hold, now);
      assert Look(t, c).phase == PhaseOf(t, c) && Look(s, c).phase == PhaseOf(s, c);
      HoldSkips(s, hold, t, c);
    }
  }

  lemma EndSkips(s: Sys, hold: nat, outcome: Outcome, monotonic: Time)
    requires SkipInv(s) && AllOk(s)
    ensures SkipInv(Ended(s, hold, outcome, monotonic))
  {
    var t := Ended(s, hold, outcome, monotonic);
    if hold in s.holds && s.holds[hold].phase.Reconciling? {
      var c := s.holds[hold].container;
      HolderSees(s, hold);
      EndLooks(s, hold, outcome, monotonic);
      SettledAt(s.state, c, s.holds[hold].phase.key, outcome != Failed, monotonic);
      assert t.state.processed == s.state.processed by { hide Settled; }
      assert s.past.inspections <= t.past.inspections && (outcome == Succeeded ==> (c, s.holds[hold].phase.at) in t.past.inspections);
      assert Look(t, c).phase == PhaseOf(t, c) && Look(s, c).phase == PhaseOf(s, c);
      assert PhaseOf(t, c) == Some(AfterEnd(s, hold, outcome, monotonic));
      hide Ended, LocalOk, Exclusive, PhaseOf, SkipInv;
      HoldSkips(s, hold, t, c);
    }
  }

  lemma MarkSkips(s: Sys, hold: nat)
    requires SkipInv(s) && AllOk(s)
    ensures SkipInv(Marked(s, hold))
  {
    var t := Marked(s, hold);
    if hold in s.holds && s.holds[hold].phase.Marking? {
      var c := s.holds[hold].container;
      HolderSees(s, hold);
      assert SkipOk(s, c);
      MarkLooks(s, hold);
      assert Look(t, c).phase == Some(Asking);
      assert SkipOk(t, c);
      hide LocalOk, Exclusive, PhaseOf, SkipInv, SkipOk;
      SkipOne(s, t, c);
    }
  }

  lemma AskSkips(s: Sys, hold: nat, now: Time)
    requires SkipInv(s) && AllOk(s)
    ensures SkipInv(AskedNext(s, hold, now))
  {
    var t := AskedNext(s, hold, now);
    if hold in s.holds {
      var c := s.holds[hold].container;
      HolderSees(s, hold);
      assert SkipOk(s, c);
      AskLooks(s, hold, now);
      AskGlobals(s, hold, now);
      assert Look(t, c).phase == PhaseOf(t, c) && Look(s, c).phase == PhaseOf(s, c);
      hide AskedNext, LocalOk, Exclusive, PhaseOf, SkipInv;
      HoldSkips(s, hold, t, c);
    }
  }

  // A step that is about no container and adds no entry.
  lemma QuietSkips(s: Sys, t: Sys)
    requires SkipInv(s) && (forall c :: PhaseOf(t, c) == PhaseOf(s, c)) && s.past.inspections <= t.past.inspections
    requires forall c | c in t.state.processed :: c in s.state.processed && t.state.processed[c] == s.state.processed[c]
    ensures SkipInv(t)
  {
    hide PhaseOf;
    forall c
      ensures SkipOk(t, c)
    {
      assert SkipOk(s, c);
    }
  }

  lemma OtherSkips(s: Sys, a: Action)
    requires SkipInv(s) && AllOk(s) && IsQuiet(a)
    ensures SkipInv(Act(s, a))
  {
    hide Act, PhaseOf, SkipInv, IsQuiet, Exclusive, LocalOk;
    QuietGlobals(s, a);
    SamePhases(s, Act(s, a));
    QuietSkips(s, Act(s, a));
  }

  lemma RequestSkips(s: Sys, generation: nat)
    requires SkipInv(s) && AllOk(s)
    ensures SkipInv(s.(state := Requested(s.state, generation), notifying := s.notifying + 1))
  {
    var t := s.(state := Requested(s.state, generation), notifying := s.notifying + 1);
    hide PhaseOf, SkipInv, Exclusive, LocalOk;
    SamePhases(s, t);
    QuietSkips(s, t);
  }

  lemma ListFailedSkips(s: Sys)
    requires SkipInv(s) && AllOk(s)
    ensures SkipInv(ListFailed(s))
  {
    ReportedOnly(s.state);
    LogOnly(s.past, s.state, Reported(s.state).0);
    hide Reported, Log, PhaseOf, SkipInv, Exclusive, LocalOk;
    SamePhases(s, ListFailed(s));
    QuietSkips(s, ListFailed(s));
  }

  lemma CheckSkips(s: Sys)
    requires SkipInv(s) && AllOk(s)
    ensures SkipInv(Act(s, Check))
  {
    hide FinishedLoop, PhaseOf, SkipInv, Exclusive, LocalOk;
    if s.loop.Visiting? {
      FinishedGlobals(s);
    }
    SamePhases(s, Act(s, Check));
    QuietSkips(s, Act(s, Check));
  }

  lemma LoopSkips(s: Sys, t: Sys, loop: Loop)
    requires SkipInv(t)
    ensures SkipInv(t.(loop := loop))
  {
    forall c
      ensures SkipOk(t.(loop := loop), c)
    {
      assert SkipOk(t, c);
    }
  }

  lemma ClaimingSkips(s: Sys, a: Action)
    requires SkipInv(s) && AllOk(s) && (a.Visit? || a.Retry?)
    ensures SkipInv(Act(s, a))
  {
    hide SkipInv, AllOk, Claim, Reported;
    ReportedOnly(s.state);
    if a.Visit? {
      if s.loop.Claiming? && s.loop.next < |s.loop.listed| {
        ClaimSkips(s, s.loop.listed[s.loop.next], None, false, a.now, true);
        LoopSkips(s, Claim(s, s.loop.listed[s.loop.next], None, false, a.now, true).0, Act(s, a).loop);
      }
    } else if s.loop.Retrying? && !s.cancelled && s.loop.tried < |s.loop.ids| {
      ClaimSkips(s, s.loop.ids[s.loop.tried], None, false, a.now, true);
      LoopSkips(s, Claim(s, s.loop.ids[s.loop.tried], None, false, a.now, true).0, Act(s, a).loop);
    } else {
      RetriedSkips(s, a.now);
    }
  }

  lemma RetriedSkips(s: Sys, now: Time)
    requires SkipInv(s) && AllOk(s) && (s.loop.Retrying? ==> s.cancelled || s.loop.tried >= |s.loop.ids|)
    ensures SkipInv(Retried(s, now))
  {
    ReportedOnly(s.state);
    hide Reported, PhaseOf, SkipInv;
    SamePhases(s, Retried(s, now));
    QuietSkips(s, Retried(s, now));
  }

  lemma ActSkips(s: Sys, a: Action)
    requires SkipInv(s) && AllOk(s)
    ensures SkipInv(Act(s, a))
  {
    hide SkipInv, AllOk, Visited, Retried, AskedNext, Claim, CleanUpDone, Begun, Ended, Marked, FinishedLoop, ListFailed, Requested,
         Taken, Skipped, Pruned;
    match a
    case StartEvent(c, eventTime, now) => ClaimSkips(s, c, Some(eventTime), false, now, false);
    case EndEvent(c, eventTime, now) => ClaimSkips(s, c, Some(eventTime), true, now, false);
    case CleanedUp(hold) => CleanUpSkips(s, hold);
    case Begin(hold, now) => BeginSkips(s, hold, now);
    case End(hold, outcome, monotonic) => EndSkips(s, hold, outcome, monotonic);
    case Mark(hold) => MarkSkips(s, hold);
    case Ask(hold, now) => AskSkips(s, hold, now);
    case Visit(_) => ClaimingSkips(s, a);
    case Retry(_) => ClaimingSkips(s, a);
    case Request(generation) => RequestSkips(s, generation);
    case ListFails => ListFailedSkips(s);
    case Check => CheckSkips(s);
    case _ => OtherSkips(s, a);
  }

  // --- Whole runs -----------------------------------------------------------------------------------------------------------

  ghost predicate Inv(s: Sys) {
    AllOk(s) && PassInv(s) && LogInv(s) && Underway(s) && Wakeful(s) && SkipInv(s)
  }

  lemma InitialInv()
    ensures Inv(INITIAL)
  {
  }

  lemma ActInv(s: Sys, a: Action)
    requires Inv(s) && Possible(s, a)
    ensures Inv(Act(s, a))
  {
    ActSteps(s, a);
    ActPass(s, a);
    ActLogs(s, a);
    ActUnderway(s, a);
    ActWakeful(s, a);
    ActSkips(s, a);
    assert Known(Act(s, a).state.announced, Act(s, a).state.latest);
    hide Act, AllOk, PassInv, LogStep, LogInv, Underway, Wakeful, SkipInv, Known;
    LogKept(s, Act(s, a));
  }

  lemma {:induction false} RunInv(states: seq<Sys>, actions: seq<Action>, i: nat)
    requires Run(states, actions) && i < |states|
    ensures Inv(states[i])
  {
    hide Act, Possible, Inv;
    InitialInv();
    if i > 0 {
      RunInv(states, actions, i - 1);
      ActInv(states[i - 1], actions[i - 1]);
    }
  }

  // Announcement soundness: whenever completion is logged it is of the latest request, whose pass has
  // finished, and every container that pass listed has had a reconcile that began after the pass did
  // and ended in success or with the container gone.
  lemma AnnouncementSound(states: seq<Sys>, actions: seq<Action>, i: nat)
    requires Run(states, actions) && i < |actions| && states[i + 1].past.logged != states[i].past.logged
    ensures var t := states[i + 1];
            && t.past.logged == states[i].past.logged + [t.state.latest]
            && t.past.finished.Some? && t.past.finished.value.key == t.state.latest
            && forall c | c in t.past.finished.value.listed :: c in t.past.served && t.past.finished.value.began <= t.past.served[c]
  {
    var s, t := states[i], states[i + 1];
    RunInv(states, actions, i);
    RunInv(states, actions, i + 1);
    ActLogs(s, actions[i]);
    FinishedForLatest(s, actions[i]);
    hide Act, AllOk, PassInv, LogInv, Underway, Wakeful, SkipInv, Complete, Possible;
    CompleteServed(t);
  }

  // The pass for the latest request has finished by then.
  lemma FinishedForLatest(s: Sys, a: Action)
    requires Inv(s) && Act(s, a).past.logged != s.past.logged
    ensures Act(s, a).past.finished.Some? && Act(s, a).past.finished.value.key == Act(s, a).state.latest
  {
    ActLogs(s, a);
    var t := Act(s, a);
    assert s.state.announced != s.state.latest && t.state.latest == s.state.latest && !t.state.incomplete;
    FinishedStays(s, a);
    hide Act, AllOk, LogInv, Underway, Wakeful, SkipInv, Complete, LoopGood, FinishedGood, Known;
  }

  // The finished pass stays as it was, or it is the end of the latest request's pass.
  ghost predicate FinishedStep(s: Sys, t: Sys) {
    || (t.past.finished == s.past.finished && t.state.incomplete == s.state.incomplete)
    || (t.past.finished.Some? && t.past.finished.value.key == s.state.latest)
    || t.past.logged == s.past.logged
  }

  lemma FinishedStays(s: Sys, a: Action)
    requires AllOk(s)
    ensures FinishedStep(s, Act(s, a))
  {
    hide AllOk, Visited, Retried, AskedNext, Claim, CleanUpDone, Begun, Ended, Marked, FinishedLoop, ListFailed, Requested,
         Taken, Skipped, Pruned;
    match a
    case Ask(hold, now) =>
      if hold in s.holds {
        AskFinished(s, hold, now);
      } else {
        AskIdle(s, hold, now);
      }
    case Check => CheckFinished(s);
    case ListFails => ListFailedFinished(s);
    case Retry(now) => RetryFinished(s, now);
    case Visit(now) => VisitFinished(s, now);
    case StartEvent(_, _, _) => HoldGlobals(s, a);
    case EndEvent(_, _, _) => HoldGlobals(s, a);
    case CleanedUp(_) => HoldGlobals(s, a);
    case Begin(_, _) => HoldGlobals(s, a);
    case End(_, _, _) => HoldGlobals(s, a);
    case Mark(_) => HoldGlobals(s, a);
    case Request(_) =>
    case _ => QuietGlobals(s, a);
  }

  lemma AskIdle(s: Sys, hold: nat, now: Time)
    requires hold !in s.holds
    ensures AskedNext(s, hold, now) == s
  {
  }

  lemma AskFinished(s: Sys, hold: nat, now: Time)
    requires AllOk(s) && hold in s.holds
    ensures FinishedStep(s, AskedNext(s, hold, now))
  {
    AskGlobals(s, hold, now);
    hide AskedNext;
  }

  lemma CheckFinished(s: Sys)
    ensures FinishedStep(s, Act(s, Check))
  {
    if s.loop.Visiting? {
      FinishedGlobals(s);
      ReportedOnly(s.state);
    }
    hide Reported;
  }

  lemma ListFailedFinished(s: Sys)
    ensures FinishedStep(s, ListFailed(s))
  {
    ReportedOnly(s.state);
    hide Reported;
  }

  lemma RetryFinished(s: Sys, now: Time)
    ensures FinishedStep(s, Retried(s, now))
  {
    hide Claim, Reported;
    ReportedOnly(s.state);
    if s.loop.Retrying? && s.loop.tried < |s.loop.ids| {
      ClaimGlobals(s, s.loop.ids[s.loop.tried], None, false, now, true);
    }
  }

  lemma VisitFinished(s: Sys, now: Time)
    ensures FinishedStep(s, Visited(s, now))
  {
    hide Claim;
    if s.loop.Claiming? && s.loop.next < |s.loop.listed| {
      ClaimGlobals(s, s.loop.listed[s.loop.next], None, false, now, true);
    }
  }

  // Completion is logged at most once per request.
  lemma LoggedOnce(states: seq<Sys>, actions: seq<Action>, i: nat, j: nat, k: nat)
    requires Run(states, actions) && i < |states| && j < k < |states[i].past.logged|
    ensures states[i].past.logged[j] != states[i].past.logged[k]
  {
    hide Act, Possible, AllOk, PassInv, Underway, Wakeful, SkipInv;
    RunInv(states, actions, i);
  }

  // Mutual exclusion: a container has at most one holder, and one exactly while it is reserved.
  lemma MutualExclusion(states: seq<Sys>, actions: seq<Action>, i: nat, g: nat, h: nat)
    requires Run(states, actions) && i < |states| && g in states[i].holds && h in states[i].holds
    ensures states[i].holds[g].container == states[i].holds[h].container ==> g == h
    ensures states[i].holds[g].container in states[i].state.inFlight
    ensures forall c | c in states[i].state.inFlight :: exists k | k in states[i].holds :: states[i].holds[k].container == c
  {
    hide Act, Possible, PassInv, LogInv, Underway, Wakeful, SkipInv, LocalOk;
    RunInv(states, actions, i);
    var s := states[i];
    assert Exclusive(s);
    forall c | c in s.state.inFlight
      ensures exists k | k in s.holds :: s.holds[k].container == c
    {
      assert c in s.past.holder;
      assert s.holds[s.past.holder[c]].container == c;
    }
  }

  // No lost work: whoever is not held has nothing owed. What is owed grows with every reconcile asked
  // for but a start event not newer than the apply then running, and with every end of run; it
  // shrinks only when a reconcile begins, or a cleanup up to that time has run.
  lemma NoLostWork(states: seq<Sys>, actions: seq<Action>, i: nat, c: Id)
    requires Run(states, actions) && i < |states| && c !in states[i].state.inFlight
    ensures c !in states[i].past.owedReconcile && c !in states[i].past.owedCleanup
  {
    hide Act, Possible, PassInv, LogInv, Underway, Wakeful, SkipInv, Exclusive, PhaseOf;
    RunInv(states, actions, i);
    assert LocalOk(Look(states[i], c), states[i].state.latest, states[i].past.clock);
  }

  // No stranded request: every pending entry carries the latest key; while reconciliation is
  // incomplete a pass for the latest request is requested, running or armed for retry, or the
  // coordinator is being stopped; and a waiting loop that has something to do is about to be woken.
  lemma NothingStranded(states: seq<Sys>, actions: seq<Action>, i: nat)
    requires Run(states, actions) && i < |states|
    ensures var s := states[i];
            && (forall c | c in s.state.pending :: s.state.pending[c].key == s.state.latest)
            && (s.state.incomplete ==> s.state.dirty || LoopKey(s.loop) == Some(s.state.latest) || s.listRetry || s.cancelled)
            && (s.loop.Waiting? && s.state.dirty ==> s.permit || s.notifying > 0)
            && (s.loop.Waiting? ==> forall c | c in s.state.pending && c !in s.state.inFlight ::
                  s.permit || (s.loop.retry.Some? && s.loop.retry.value <= s.state.pending[c].due))
  {
    hide Act, Possible, PassInv, LogInv, SkipInv, Exclusive, PhaseOf;
    RunInv(states, actions, i);
    var s := states[i];
    forall c | c in s.state.pending
      ensures s.state.pending[c].key == s.state.latest
    {
      assert LocalOk(Look(s, c), s.state.latest, s.past.clock);
    }
    if s.loop.Waiting? {
      forall c | c in s.state.pending && c !in s.state.inFlight
        ensures s.permit || (s.loop.retry.Some? && s.loop.retry.value <= s.state.pending[c].due)
      {
        assert Awaited(Look(s, c), s.permit, s.loop.retry);
      }
    }
  }

  // A reconcile begun under an older request never clears a pending entry.
  lemma OlderNeverClears(states: seq<Sys>, actions: seq<Action>, i: nat, c: Id, key: PassKey, settled: bool, now: Time)
    requires Run(states, actions) && i < |states| && c in states[i].state.pending && key != states[i].state.latest
    ensures c in Settled(states[i].state, c, key, settled, now).pending
  {
    NothingStranded(states, actions, i);
    hide Run;
  }

  // An event is skipped only when a reconcile of the container, inspected no earlier, succeeded and
  // ended at most a minute ago.
  lemma SkipsOnlyCovered(states: seq<Sys>, actions: seq<Action>, i: nat, c: Id, eventTime: Time, now: Time)
    requires Run(states, actions) && i < |states| && Skipped(states[i].state, c, eventTime, now).1
    ensures exists at | (c, at) in states[i].past.inspections :: eventTime <= at
    ensures c in states[i].state.processed && now <= states[i].state.processed[c].monotonic + 60_000_000_000
  {
    hide Act, Possible, PassInv, LogInv, Underway, Wakeful, AllOk, PhaseOf;
    RunInv(states, actions, i);
    assert SkipOk(states[i], c);
    assert (c, states[i].state.processed[c].at) in states[i].past.inspections;
  }

  // The queue of a held container never forgets: a cleanup keeps the latest time, a reconcile stays
  // queued, and only a covered start event is not queued.
  lemma QueueKeepsLatest(held: Reservation, eventTime: Option<Time>, terminal: bool)
    ensures var next := Queued(held, eventTime, terminal);
            && (held.reconcile ==> next.reconcile)
            && (held.terminateAt.Some? ==> next.terminateAt.Some? && held.terminateAt.value <= next.terminateAt.value)
            && (terminal && eventTime.Some? ==> next.terminateAt.Some? && eventTime.value <= next.terminateAt.value)
            && (!terminal && !next.reconcile ==> CoveredBy(eventTime, held))
  {
  }

  // When a cleanup and a reconcile are both queued, the holder takes both at once and cannot begin the
  // reconcile before the cleanup, at the latest queued time, is done.
  lemma CleanupFirst(s: Sys, hold: nat, now: Time, begin: Time)
    requires AllOk(s) && hold in s.holds && s.holds[hold].phase.Asking? && s.holds[hold].container in s.state.inFlight
    requires s.state.inFlight[s.holds[hold].container].reconcile && s.state.inFlight[s.holds[hold].container].terminateAt.Some?
    ensures var t := Act(s, Ask(hold, now));
            && hold in t.holds && t.holds[hold].phase == Terminating(s.state.inFlight[s.holds[hold].container].terminateAt.value, true)
            && Act(t, Begin(hold, begin)) == t
            && var u := Act(t, CleanedUp(hold));
               hold in u.holds && u.holds[hold].phase == Starting && Act(u, Begin(hold, begin)).holds[hold].phase.Reconciling?
  {
    hide LocalOk, AskedNext;
    AskTakes(s, hold, now);
  }
}
