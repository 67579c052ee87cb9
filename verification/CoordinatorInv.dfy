/** What every step of the coordinator keeps, for each container and for the system. */
module CoordinatorInv {
  import opened Wrappers
  import opened Coordinator
  import opened CoordinatorRun
  import opened CoordinatorHolds

  // --- One container ---------------------------------------------------------------------------------------------

  // A reconcile is still to begin in this phase.
  predicate Upcoming(phase: Phase) {
    phase.Starting? || (phase.Terminating? && phase.reconcileNext)
  }

  // The reservation says what its holder is doing.
  predicate PhaseFits(phase: Phase, held: Reservation) {
    && (Upcoming(phase) || phase.Reconciling? ==> held.running && held.applyStart.Some?)
    && (phase.Terminating? && !phase.reconcileNext ==> !held.running && held.applyStart.None?)
  }

  // Work asked for and not yet run is queued or next in line; a pending entry is for the latest request.
  predicate LocalOk(x: Seen, latest: PassKey, clock: nat) {
    && (x.held.Some? <==> x.phase.Some?) && (x.held.Some? ==> PhaseFits(x.phase.value, x.held.value))
    && (x.owed ==> x.held.Some? && (x.held.value.reconcile || Upcoming(x.phase.value)))
    && (x.cleanup.Some? ==>
          && x.held.Some?
          && (|| (x.held.value.terminateAt.Some? && x.cleanup.value <= x.held.value.terminateAt.value)
              || (x.phase.value.Terminating? && x.cleanup.value <= x.phase.value.at)))
    && (x.pending.Some? ==> x.pending.value.key == latest)
    && (x.phase.Some? && x.phase.value.Reconciling? ==> x.phase.value.start < clock)
    && (x.served.Some? ==> x.served.value < clock)
  }

  // A reconcile that began before `b` is running.
  predicate OldRunning(x: Seen, b: nat) {
    x.phase.Some? && x.phase.value.Reconciling? && x.phase.value.start < b
  }

  // A reconcile that began at `b` or later is running, or one is about to begin.
  predicate LateRunning(x: Seen, b: nat) {
    x.phase.Some? && (Upcoming(x.phase.value) || (x.phase.value.Reconciling? && b <= x.phase.value.start))
  }

  // A container visited by a pass that began at `b`: a later reconcile of it has settled, or one is
  // queued, about to begin or running, or it is pending with no earlier one that could clear it.
  predicate Good(x: Seen, b: nat) {
    || (x.served.Some? && b <= x.served.value)
    || (x.held.Some? && x.held.value.reconcile)
    || LateRunning(x, b)
    || (x.pending.Some? && !OldRunning(x, b))
  }

  // A step does not make a good container bad.
  predicate KeepsGood(x: Seen, y: Seen, clock: nat) {
    forall b: nat | b <= clock && Good(x, b) :: Good(y, b)
  }

  lemma ClaimLocal(x: Seen, eventTime: Option<Time>, terminal: bool, now: Time, latest: PassKey, clock: nat)
    requires LocalOk(x, latest, clock) && (terminal ==> eventTime.Some?)
    ensures LocalOk(LClaim(x, eventTime, terminal, now), latest, clock)
    ensures KeepsGood(x, LClaim(x, eventTime, terminal, now), clock)
    ensures !terminal && eventTime.None? ==> forall b: nat | b <= clock :: Good(LClaim(x, eventTime, terminal, now), b)
  {
  }

  lemma CleanLocal(x: Seen, latest: PassKey, clock: nat)
    requires LocalOk(x, latest, clock)
    ensures LocalOk(LClean(x), latest, clock) && KeepsGood(x, LClean(x), clock)
  {
  }

  lemma BeginLocal(x: Seen, latest: PassKey, clock: nat, now: Time)
    requires LocalOk(x, latest, clock)
    ensures LocalOk(LBegin(x, latest, clock, now), latest, clock + 1) && KeepsGood(x, LBegin(x, latest, clock, now), clock)
  {
  }

  // The one step that clears a pending entry: only a reconcile begun under the latest request can.
  lemma EndLocal(x: Seen, latest: PassKey, clock: nat, outcome: Outcome, next: Phase, now: Time)
    requires LocalOk(x, latest, clock) && (next.Marking? || next.Asking?)
    ensures LocalOk(LEnd(x, latest, outcome, next, now), latest, clock) && KeepsGood(x, LEnd(x, latest, outcome, next, now), clock)
  {
  }

  lemma AskLocal(x: Seen, latest: PassKey, clock: nat, now: Time)
    requires LocalOk(x, latest, clock)
    ensures LocalOk(LAsk(x, now), latest, clock) && KeepsGood(x, LAsk(x, now), clock)
  {
  }

  lemma RequestLocal(x: Seen, latest: PassKey, key: PassKey, clock: nat)
    requires LocalOk(x, latest, clock)
    ensures LocalOk(LRequest(x, key), key, clock) && KeepsGood(x, LRequest(x, key), clock)
  {
  }

  // --- Every container ----------------------------------------------------------------------------------------------

  ghost predicate AllOk(s: Sys) {
    Exclusive(s) && forall c :: LocalOk(Look(s, c), s.state.latest, s.past.clock)
  }

  // From `s` to `t`: every container fine, none made bad.
  ghost predicate Stepped(s: Sys, t: Sys) {
    && AllOk(t) && s.past.clock <= t.past.clock
    && forall c :: KeepsGood(Look(s, c), Look(t, c), s.past.clock)
  }

  lemma LocalLater(x: Seen, latest: PassKey, clock: nat)
    requires LocalOk(x, latest, clock)
    ensures LocalOk(x, latest, clock + 1)
  {
  }

  // A step about one container.
  lemma SteppedOne(s: Sys, t: Sys, c: Id)
    requires AllOk(s) && Exclusive(t) && OnlyAbout(s, t, c) && t.state.latest == s.state.latest
    requires t.past.clock == s.past.clock || t.past.clock == s.past.clock + 1
    requires LocalOk(Look(t, c), t.state.latest, t.past.clock) && KeepsGood(Look(s, c), Look(t, c), s.past.clock)
    ensures Stepped(s, t)
  {
    hide LocalOk, Good, Exclusive, Look;
    forall d
      ensures LocalOk(Look(t, d), t.state.latest, t.past.clock) && KeepsGood(Look(s, d), Look(t, d), s.past.clock)
    {
      if d != c {
        LocalLater(Look(s, d), s.state.latest, s.past.clock);
      }
    }
  }

  lemma SteppedNone(s: Sys, t: Sys)
    requires AllOk(s) && Exclusive(t) && (forall c :: Look(t, c) == Look(s, c))
    requires t.state.latest == s.state.latest && t.past.clock == s.past.clock
    ensures Stepped(s, t)
  {
    hide LocalOk, Good, Exclusive, Look;
  }

  lemma ClaimSteps(s: Sys, c: Id, eventTime: Option<Time>, terminal: bool, now: Time, enumerated: bool)
    requires AllOk(s) && (terminal ==> eventTime.Some?)
    ensures var t := Claim(s, c, eventTime, terminal, now, enumerated).0;
            && Stepped(s, t)
            && (!terminal && eventTime.None? ==> forall b: nat | b <= s.past.clock :: Good(Look(t, c), b))
  {
    ClaimGlobals(s, c, eventTime, terminal, now, enumerated);
    hide LocalOk, Good, Exclusive, Look, Claim, LClaim;
    ClaimLooks(s, c, eventTime, terminal, now, enumerated);
    ClaimLocal(Look(s, c), eventTime, terminal, now, s.state.latest, s.past.clock);
    SteppedOne(s, Claim(s, c, eventTime, terminal, now, enumerated).0, c);
  }

  // What a claim does not touch.
  lemma ClaimGlobals(s: Sys, c: Id, eventTime: Option<Time>, terminal: bool, now: Time, enumerated: bool)
    ensures var t := Claim(s, c, eventTime, terminal, now, enumerated).0;
            && t.state == s.state.(inFlight := t.state.inFlight)
            && t == s.(state := t.state, holds := t.holds, nextHold := t.nextHold, past := t.past)
            && t.past == s.past.(owedReconcile := t.past.owedReconcile, owedCleanup := t.past.owedCleanup, holder := t.past.holder)
  {
    ReservedOnly(s.state, c, eventTime, terminal, now);
    OwingOnly(s.past, s.state, c, eventTime, terminal);
    hide Reserved, Owing;
  }

  lemma ReservedOnly(s: State, c: Id, eventTime: Option<Time>, terminal: bool, now: Time)
    ensures var t := Reserved(s, c, eventTime, terminal, now).0; t == s.(inFlight := t.inFlight)
  {
    hide Queued;
  }

  lemma OwingOnly(past: History, s: State, c: Id, eventTime: Option<Time>, terminal: bool)
    ensures var t := Owing(past, s, c, eventTime, terminal);
            t == past.(owedReconcile := t.owedReconcile, owedCleanup := t.owedCleanup)
  {
    hide CoveredBy, Later;
  }

  lemma CleanUpSteps(s: Sys, hold: nat)
    requires AllOk(s)
    ensures Stepped(s, CleanUpDone(s, hold))
  {
    var t := CleanUpDone(s, hold);
    assert t.state == s.state && t.past.clock == s.past.clock;
    hide LocalOk, Good, Exclusive, Look, LClean;
    if hold in s.holds {
      CleanUpLooks(s, hold);
      CleanLocal(Look(s, s.holds[hold].container), s.state.latest, s.past.clock);
      SteppedOne(s, t, s.holds[hold].container);
    } else {
      SteppedNone(s, s);
    }
  }

  lemma BeginSteps(s: Sys, hold: nat, now: Time)
    requires AllOk(s)
    ensures Stepped(s, Begun(s, hold, now))
  {
    var t := Begun(s, hold, now);
    if hold !in s.holds || !s.holds[hold].phase.Starting? {
      hide LocalOk, Good, Exclusive, Look;
      SteppedNone(s, s);
    } else {
      assert t.state == s.state && t.past.clock == s.past.clock + 1;
      hide LocalOk, Good, Exclusive, Look, LBegin;
      BeginLooks(s, hold, now);
      BeginLocal(Look(s, s.holds[hold].container), s.state.latest, s.past.clock, now);
      SteppedOne(s, t, s.holds[hold].container);
    }
  }

  lemma EndSteps(s: Sys, hold: nat, outcome: Outcome, monotonic: Time)
    requires AllOk(s)
    ensures Stepped(s, Ended(s, hold, outcome, monotonic))
  {
    var t := Ended(s, hold, outcome, monotonic);
    if hold !in s.holds {
      hide LocalOk, Good, Exclusive, Look;
      SteppedNone(s, s);
    } else {
      assert t.state.latest == s.state.latest && t.past.clock == s.past.clock;
      hide LocalOk, Good, Exclusive, Look, LEnd, Ended;
      EndLooks(s, hold, outcome, monotonic);
      EndLocal(Look(s, s.holds[hold].container), s.state.latest, s.past.clock, outcome, AfterEnd(s, hold, outcome, monotonic), monotonic);
      SteppedOne(s, t, s.holds[hold].container);
    }
  }

  lemma MarkedLocal(x: Seen, latest: PassKey, clock: nat)
    requires LocalOk(x, latest, clock) && x.phase.Some? && x.phase.value.Marking?
    ensures LocalOk(x.(phase := Some(Asking)), latest, clock) && KeepsGood(x, x.(phase := Some(Asking)), clock)
  {
  }

  lemma MarkSteps(s: Sys, hold: nat)
    requires AllOk(s)
    ensures Stepped(s, Marked(s, hold))
  {
    var t := Marked(s, hold);
    if hold !in s.holds || !s.holds[hold].phase.Marking? {
      hide LocalOk, Good, Exclusive, Look;
      SteppedNone(s, s);
    } else {
      var c := s.holds[hold].container;
      assert t.state.latest == s.state.latest && t.past == s.past;
      HolderSees(s, hold);
      assert Look(s, c).phase == Some(s.holds[hold].phase);
      hide LocalOk, Good, Exclusive, Look, Marked;
      MarkLooks(s, hold);
      MarkedLocal(Look(s, c), s.state.latest, s.past.clock);
      SteppedOne(s, t, c);
    }
  }

  lemma AskSteps(s: Sys, hold: nat, now: Time)
    requires AllOk(s)
    ensures Stepped(s, AskedNext(s, hold, now))
  {
    var t := AskedNext(s, hold, now);
    if hold !in s.holds {
      hide LocalOk, Good, Exclusive, Look;
      SteppedNone(s, s);
    } else {
      AskGlobals(s, hold, now);
      hide LocalOk, Good, Exclusive, Look, LAsk, AskedNext;
      AskLooks(s, hold, now);
      AskLocal(Look(s, s.holds[hold].container), s.state.latest, s.past.clock, now);
      SteppedOne(s, t, s.holds[hold].container);
    }
  }

  lemma AskGlobals(s: Sys, hold: nat, now: Time)
    requires Exclusive(s) && hold in s.holds
    ensures var t := AskedNext(s, hold, now);
            && t.state == s.state.(inFlight := t.state.inFlight, announced := t.state.announced)
            && t == s.(state := t.state, holds := t.holds, permit := t.permit, past := t.past)
            && t.past == s.past.(logged := t.past.logged, holder := t.past.holder)
  {
    HolderSees(s, hold);
    var held := s.state.inFlight[s.holds[hold].container];
    if !s.holds[hold].phase.Asking? {
      AskNothing(s, hold, now);
    } else if held.reconcile || held.terminateAt.Some? {
      AskTakes(s, hold, now);
    } else {
      AskReleases(s, hold, now);
    }
    hide AskedNext;
  }

  lemma RequestSteps(s: Sys, generation: nat)
    requires AllOk(s)
    ensures Stepped(s, s.(state := Requested(s.state, generation), notifying := s.notifying + 1))
  {
    var t := s.(state := Requested(s.state, generation), notifying := s.notifying + 1);
    RequestLooks(s, generation);
    hide LocalOk, Good, Exclusive, Look, LRequest, Requested;
    forall c
      ensures LocalOk(Look(t, c), t.state.latest, t.past.clock) && KeepsGood(Look(s, c), Look(t, c), s.past.clock)
    {
      RequestLocal(Look(s, c), s.state.latest, t.state.latest, s.past.clock);
    }
  }

  // A step that is about no container.
  lemma QuietSteps(s: Sys, t: Sys)
    requires AllOk(s) && t.holds == s.holds && t.nextHold == s.nextHold && t.state.latest == s.state.latest
    requires t.past == s.past.(finished := t.past.finished, logged := t.past.logged)
    requires t.state.inFlight == s.state.inFlight && t.state.pending == s.state.pending
    ensures Stepped(s, t)
  {
    NothingLooks(s, t);
    hide LocalOk, Good, Exclusive, Look;
    SteppedNone(s, t);
  }

  lemma SteppedThen(s: Sys, t: Sys, u: Sys)
    requires Stepped(s, t) && AllOk(u) && u.past.clock == t.past.clock && (forall c :: Look(u, c) == Look(t, c))
    ensures Stepped(s, u)
  {
    hide LocalOk, Good, Exclusive, Look;
  }

  // The loop has moved and nothing else.
  lemma LoopMoves(s: Sys, t: Sys, loop: Loop)
    requires Stepped(s, t)
    ensures Stepped(s, t.(loop := loop))
  {
    var u := t.(loop := loop);
    hide LocalOk, Good;
    NothingLooks(t, u);
    SteppedThen(s, t, u);
  }

  predicate IsQuiet(a: Action) {
    match a
    case Notify => true
    case Nudge => true
    case Cancel => true
    case SkipEvent(_, _, _) => true
    case Take => true
    case List(_) => true
    case Return => true
    case Plan(_) => true
    case Wake => true
    case Stop => true
    case ListRetry => true
    case RetryDue(_, _) => true
    case Prune(_) => true
    case _ => false
  }

  // What such a step leaves alone.
  predicate QuietStep(s: Sys, t: Sys) {
    && t.holds == s.holds && t.nextHold == s.nextHold && t.past == s.past
    && t.state == s.state.(dirty := t.state.dirty, processed := t.state.processed)
    && forall c | c in t.state.processed :: c in s.state.processed && t.state.processed[c] == s.state.processed[c]
  }

  lemma ProcessedOnly(s: State, c: Id, eventTime: Time, now: Time)
    ensures var t := Skipped(s, c, eventTime, now).0;
            t == s.(processed := t.processed) && forall d | d in t.processed :: d in s.processed && t.processed[d] == s.processed[d]
    ensures var t := Pruned(s, now);
            t == s.(processed := t.processed) && forall d | d in t.processed :: d in s.processed && t.processed[d] == s.processed[d]
  {
  }

  predicate WaitStep(a: Action) {
    a.Plan? || a.Wake? || a.Stop? || a.ListRetry? || a.RetryDue? || a.Prune?
  }

  lemma WaitGlobals(s: Sys, a: Action)
    requires WaitStep(a)
    ensures QuietStep(s, Act(s, a))
  {
    hide Claim, CleanUpDone, Begun, Ended, Marked, AskedNext, FinishedLoop, Visited, Retried, ListFailed, Requested, Skipped, Pruned;
    match a
    case Plan(_) =>
    case Wake =>
    case Stop =>
    case ListRetry =>
    case RetryDue(_, _) =>
    case Prune(now) => ProcessedOnly(s.state, [], 0, now);
  }

  lemma OtherGlobals(s: Sys, a: Action)
    requires IsQuiet(a) && !WaitStep(a)
    ensures QuietStep(s, Act(s, a))
  {
    hide Claim, CleanUpDone, Begun, Ended, Marked, AskedNext, FinishedLoop, Visited, Retried, ListFailed, Requested, Skipped, Pruned;
    match a
    case Notify =>
    case Nudge =>
    case Cancel =>
    case SkipEvent(c, eventTime, now) => ProcessedOnly(s.state, c, eventTime, now);
    case Take =>
    case List(_) =>
    case Return =>
  }

  lemma QuietGlobals(s: Sys, a: Action)
    requires IsQuiet(a)
    ensures QuietStep(s, Act(s, a))
  {
    hide Act, QuietStep, IsQuiet;
    if WaitStep(a) {
      WaitGlobals(s, a);
    } else {
      OtherGlobals(s, a);
    }
  }

  lemma QuietAct(s: Sys, a: Action)
    requires AllOk(s) && IsQuiet(a)
    ensures Stepped(s, Act(s, a))
  {
    hide AllOk, Stepped, Act, IsQuiet;
    QuietGlobals(s, a);
    QuietSteps(s, Act(s, a));
  }

  lemma LogOnly(past: History, before: State, after: State)
    ensures var t := Log(past, before, after); t == past.(logged := t.logged)
  {
  }

  lemma ListFailedAct(s: Sys)
    requires AllOk(s)
    ensures Stepped(s, ListFailed(s))
  {
    ReportedOnly(s.state);
    LogOnly(s.past, s.state, Reported(s.state).0);
    hide AllOk, Stepped, Reported, Log;
    QuietSteps(s, ListFailed(s));
  }

  // What finishing a pass does not touch.
  lemma FinishedGlobals(s: Sys)
    requires s.loop.Visiting?
    ensures var t := FinishedLoop(s);
            && t.state == s.state.(incomplete := t.state.incomplete, announced := t.state.announced)
            && t.past == s.past.(finished := t.past.finished, logged := t.past.logged)
            && t == s.(state := t.state, past := t.past, loop := Top, listRetry := false)
  {
    ReportedOnly(s.state);
    ReportedOnly(s.state.(incomplete := false));
    hide Reported;
  }

  lemma CheckAct(s: Sys)
    requires AllOk(s)
    ensures Stepped(s, Act(s, Check))
  {
    hide AllOk, Stepped, FinishedLoop;
    if s.loop.Visiting? {
      FinishedGlobals(s);
    }
    QuietSteps(s, Act(s, Check));
  }

  lemma VisitAct(s: Sys, now: Time)
    requires AllOk(s)
    ensures Stepped(s, Visited(s, now))
  {
    hide AllOk, Stepped, Claim;
    if s.loop.Claiming? && s.loop.next < |s.loop.listed| {
      ClaimSteps(s, s.loop.listed[s.loop.next], None, false, now, true);
      LoopMoves(s, Claim(s, s.loop.listed[s.loop.next], None, false, now, true).0, Visited(s, now).loop);
    } else {
      QuietSteps(s, s);
    }
  }

  lemma RetryAct(s: Sys, now: Time)
    requires AllOk(s)
    ensures Stepped(s, Retried(s, now))
  {
    hide AllOk, Stepped, Claim, Reported;
    if s.loop.Retrying? && !s.cancelled && s.loop.tried < |s.loop.ids| {
      ClaimSteps(s, s.loop.ids[s.loop.tried], None, false, now, true);
      LoopMoves(s, Claim(s, s.loop.ids[s.loop.tried], None, false, now, true).0, Retried(s, now).loop);
    } else {
      ReportedOnly(s.state);
      QuietSteps(s, Retried(s, now));
    }
  }

  // Every step keeps every container fine and makes none bad.
  lemma ActSteps(s: Sys, a: Action)
    requires AllOk(s)
    ensures Stepped(s, Act(s, a))
  {
    hide AllOk, Stepped, Claim, CleanUpDone, Begun, Ended, Marked, AskedNext, Requested, Visited, Retried, ListFailed, FinishedLoop,
         Taken, Skipped, Pruned;
    match a
    case Request(generation) => RequestSteps(s, generation);
    case StartEvent(c, eventTime, now) => ClaimSteps(s, c, Some(eventTime), false, now, false);
    case EndEvent(c, eventTime, now) => ClaimSteps(s, c, Some(eventTime), true, now, false);
    case CleanedUp(hold) => CleanUpSteps(s, hold);
    case Begin(hold, now) => BeginSteps(s, hold, now);
    case End(hold, outcome, monotonic) => EndSteps(s, hold, outcome, monotonic);
    case Mark(hold) => MarkSteps(s, hold);
    case Ask(hold, now) => AskSteps(s, hold, now);
    case Visit(now) => VisitAct(s, now);
    case Retry(now) => RetryAct(s, now);
    case ListFails => ListFailedAct(s);
    case Check => CheckAct(s);
    case _ => QuietAct(s, a);
  }
}
