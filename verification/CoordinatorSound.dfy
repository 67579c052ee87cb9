/** Announcements are sound and made once, no request is stranded, no work and no wake-up lost: over every
    interleaving. */
module CoordinatorSound {
  import opened Wrappers
  import opened Coordinator
  import opened CoordinatorRun
  import opened CoordinatorHolds
  import opened CoordinatorInv

  // --- Keys ---------------------------------------------------------------------------------------------------------

  // The key of this or an earlier request.
  predicate Known(key: PassKey, latest: PassKey) {
    key.epoch <= latest.epoch && (key.epoch == latest.epoch ==> key == latest)
  }

  function LoopKey(loop: Loop): Option<PassKey> {
    match loop
    case Listing(key, _) => Some(key)
    case Visiting(key, _, _, _) => Some(key)
    case Claiming(key, _, _, _) => Some(key)
    case AwaitingVisit(key, _, _, _, _) => Some(key)
    case _ => None
  }

  // --- Passes -------------------------------------------------------------------------------------------------------

  ghost predicate AllGood(s: Sys, listed: seq<Id>, next: nat, began: nat) {
    next <= |listed| && began <= s.past.clock && forall i | 0 <= i < next :: Good(Look(s, listed[i]), began)
  }

  // The pass under way, as far as it got, if it is for the latest request.
  ghost predicate LoopGood(s: Sys) {
    match s.loop
    case Listing(_, began) => began <= s.past.clock
    case Visiting(key, began, listed, next) => next <= |listed| && began <= s.past.clock && (key == s.state.latest ==> AllGood(s, listed, next, began))
    case Claiming(key, began, listed, next) => next <= |listed| && began <= s.past.clock && (key == s.state.latest ==> AllGood(s, listed, next, began))
    case AwaitingVisit(key, began, listed, next, _) =>
      next <= |listed| && began <= s.past.clock && (key == s.state.latest ==> AllGood(s, listed, next, began))
    case _ => true
  }

  ghost predicate FinishedGood(s: Sys) {
    s.past.finished.Some? ==>
      var f := s.past.finished.value;
      Known(f.key, s.state.latest) && (f.key == s.state.latest ==> AllGood(s, f.listed, |f.listed|, f.began))
  }

  ghost predicate PassInv(s: Sys) {
    && LoopGood(s) && FinishedGood(s)
    && (LoopKey(s.loop).Some? ==> Known(LoopKey(s.loop).value, s.state.latest))
    && Known(s.state.announced, s.state.latest)
    && (!s.state.incomplete && s.state.announced != s.state.latest ==> s.past.finished.Some? && s.past.finished.value.key == s.state.latest)
  }

  lemma AllGoodKept(s: Sys, t: Sys, listed: seq<Id>, next: nat, began: nat)
    requires Stepped(s, t) && AllGood(s, listed, next, began)
    ensures AllGood(t, listed, next, began)
  {
    hide Good, Look, AllOk;
    forall i | 0 <= i < next
      ensures Good(Look(t, listed[i]), began)
    {
      assert KeepsGood(Look(s, listed[i]), Look(t, listed[i]), s.past.clock);
    }
  }

  // A step that leaves the loop, the finished pass and the keys alone.
  lemma SamePassInv(s: Sys, t: Sys)
    requires PassInv(s) && Stepped(s, t) && t.loop == s.loop && t.past.finished == s.past.finished
    requires t.state.latest == s.state.latest && t.state.incomplete == s.state.incomplete && t.state.announced == s.state.announced
    ensures PassInv(t)
  {
    KeepLists(s, t);
    hide AllGood, Stepped, Known;
  }

  lemma KeepLists(s: Sys, t: Sys)
    requires Stepped(s, t)
    ensures s.past.clock <= t.past.clock
    ensures forall listed, next, began | AllGood(s, listed, next, began) :: AllGood(t, listed, next, began)
  {
    assert s.past.clock <= t.past.clock;
    hide AllGood, Stepped;
    forall listed, next, began | AllGood(s, listed, next, began)
      ensures AllGood(t, listed, next, began)
    {
      AllGoodKept(s, t, listed, next, began);
    }
  }

  // The loop leaves a pass or moves where there is none.
  lemma OutsidePass(s: Sys, t: Sys)
    requires PassInv(s) && Stepped(s, t) && LoopKey(t.loop).None? && t.past.finished == s.past.finished
    requires t.state.latest == s.state.latest && t.state.incomplete == s.state.incomplete && t.state.announced == s.state.announced
    ensures PassInv(t)
  {
    KeepLists(s, t);
    hide AllGood, Stepped, Known;
  }

  // The pass whose containers are being visited: its key, its beginning, its list and how far it got.
  function Visits(loop: Loop): Option<(PassKey, nat, seq<Id>, nat)> {
    match loop
    case Visiting(key, began, listed, next) => Some((key, began, listed, next))
    case Claiming(key, began, listed, next) => Some((key, began, listed, next))
    case AwaitingVisit(key, began, listed, next, _) => Some((key, began, listed, next))
    case _ => None
  }

  // The loop goes on with the same pass.
  lemma SameVisits(s: Sys, t: Sys)
    requires PassInv(s) && Stepped(s, t) && t == s.(loop := t.loop) && Visits(t.loop).Some? && Visits(t.loop) == Visits(s.loop)
    ensures PassInv(t)
  {
    KeepLists(s, t);
    hide AllGood, Stepped, Known;
  }

  // Completion is announced: the latest request is marked, nothing else about passes changes.
  lemma AnnouncingPass(s: Sys, t: Sys)
    requires PassInv(s) && Stepped(s, t) && (t.loop == s.loop || LoopKey(t.loop).None?) && t.past.finished == s.past.finished
    requires t.state.latest == s.state.latest && t.state.incomplete == s.state.incomplete
    requires t.state.announced == s.state.announced || t.state.announced == s.state.latest
    ensures PassInv(t)
  {
    KeepLists(s, t);
    hide AllGood, Stepped;
  }

  lemma AnnouncedKey(s: State)
    ensures Announced(s).0.announced == s.announced || Announced(s).0.announced == s.latest
  {
    hide Busy;
  }

  lemma ReportedKey(s: State)
    ensures Reported(s).0.announced == s.announced || Reported(s).0.announced == s.latest
  {
    hide Busy;
  }

  lemma AskPass(s: Sys, hold: nat, now: Time)
    requires PassInv(s) && AllOk(s)
    ensures PassInv(AskedNext(s, hold, now))
  {
    var t := AskedNext(s, hold, now);
    if hold in s.holds {
      AskSteps(s, hold, now);
      AskKey(s, hold, now);
      AskGlobals(s, hold, now);
      hide AskedNext, Stepped, AllOk, PassInv;
      AnnouncingPass(s, t);
    }
  }

  lemma AskKey(s: Sys, hold: nat, now: Time)
    requires hold in s.holds
    ensures var t := AskedNext(s, hold, now); t.state.announced == s.state.announced || t.state.announced == s.state.latest
  {
    hide Asked;
    AskedKey(s.state, s.holds[hold].container, now);
  }

  lemma AskedKey(s: State, c: Id, now: Time)
    ensures var t := Asked(s, c, now).0; t.announced == s.announced || t.announced == s.latest
  {
    AnnouncedKey(s.(inFlight := s.inFlight - {c}));
    hide Announced;
  }

  lemma RequestPass(s: Sys, generation: nat)
    requires PassInv(s) && AllOk(s)
    ensures PassInv(s.(state := Requested(s.state, generation), notifying := s.notifying + 1))
  {
    hide AllGood, AllOk;
  }

  lemma TakePass(s: Sys)
    requires PassInv(s) && AllOk(s)
    ensures PassInv(Act(s, Take))
  {
    ActSteps(s, Take);
    KeepLists(s, Act(s, Take));
    hide AllGood, Stepped, AllOk;
  }

  // The last container visited: the pass is done.
  lemma FinishPass(s: Sys)
    requires PassInv(s) && AllOk(s) && s.loop.Visiting? && s.loop.next == |s.loop.listed|
    ensures PassInv(FinishedLoop(s))
  {
    var t := FinishedLoop(s);
    assert Act(s, Check) == t;
    ActSteps(s, Check);
    KeepLists(s, t);
    FinishedGlobals(s);
    ReportedKey(s.state);
    ReportedKey(s.state.(incomplete := false));
    hide AllGood, Stepped, AllOk, Reported, Act;
  }

  lemma CheckPass(s: Sys)
    requires PassInv(s) && AllOk(s)
    ensures PassInv(Act(s, Check))
  {
    hide PassInv, AllOk, Stepped, FinishedLoop;
    if s.loop.Visiting? {
      if s.loop.next == |s.loop.listed| {
        FinishPass(s);
      } else if s.cancelled || s.state.latest != s.loop.key {
        ActSteps(s, Check);
        OutsidePass(s, Act(s, Check));
      } else {
        ActSteps(s, Check);
        SameVisits(s, Act(s, Check));
      }
    }
  }

  // Visiting a container makes it good: claimed, or queued with its holder.
  lemma VisitPass(s: Sys, now: Time)
    requires PassInv(s) && AllOk(s)
    ensures PassInv(Visited(s, now))
  {
    if s.loop.Claiming? && s.loop.next < |s.loop.listed| {
      var c := s.loop.listed[s.loop.next];
      var t := Claim(s, c, None, false, now, true).0;
      ClaimSteps(s, c, None, false, now, true);
      ClaimGlobals(s, c, None, false, now, true);
      KeepLists(s, t);
      var u := Visited(s, now);
      NothingLooks(t, u);
      OneMore(s, t, u);
      hide AllGood, Stepped, AllOk, Claim, Look, Good;
    }
  }

  lemma OneMore(s: Sys, t: Sys, u: Sys)
    requires s.loop.Claiming? && s.loop.next < |s.loop.listed| && PassInv(s)
    requires Stepped(s, t) && t.past.clock == s.past.clock && u.past.clock == t.past.clock && (forall c :: Look(u, c) == Look(t, c))
    requires forall b: nat | b <= s.past.clock :: Good(Look(t, s.loop.listed[s.loop.next]), b)
    ensures s.loop.key == s.state.latest ==> AllGood(u, s.loop.listed, s.loop.next + 1, s.loop.began)
    ensures forall listed, next, began | AllGood(t, listed, next, began) :: AllGood(u, listed, next, began)
  {
    KeepLists(s, t);
    hide Good, Look, Stepped;
  }

  lemma RetryPass(s: Sys, now: Time)
    requires PassInv(s) && AllOk(s)
    ensures PassInv(Retried(s, now))
  {
    RetryAct(s, now);
    var t := Retried(s, now);
    ReportedOnly(s.state);
    ReportedKey(s.state);
    if s.loop.Retrying? && s.loop.tried < |s.loop.ids| {
      ClaimGlobals(s, s.loop.ids[s.loop.tried], None, false, now, true);
    }
    hide PassInv, Stepped, AllOk, Claim, Reported;
    AnnouncingPass(s, t);
  }

  lemma ListPass(s: Sys, a: Action)
    requires PassInv(s) && AllOk(s) && (a.List? || a.ListFails?)
    ensures PassInv(Act(s, a))
  {
    ActSteps(s, a);
    ReportedOnly(s.state);
    ReportedKey(s.state);
    KeepLists(s, Act(s, a));
    hide AllGood, Stepped, AllOk, Reported;
  }

  lemma ReturnPass(s: Sys)
    requires PassInv(s) && AllOk(s)
    ensures PassInv(Act(s, Return))
  {
    hide PassInv, AllOk, Stepped;
    if s.loop.AwaitingVisit? && s.loop.hold !in s.holds {
      ActSteps(s, Return);
      SameVisits(s, Act(s, Return));
    } else if s.loop.AwaitingRetry? && s.loop.hold !in s.holds {
      ActSteps(s, Return);
      OutsidePass(s, Act(s, Return));
    }
  }

  // Claims, and the steps of holds, leave passes alone.
  lemma HoldPass(s: Sys, a: Action)
    requires PassInv(s) && AllOk(s)
    requires a.StartEvent? || a.EndEvent? || a.CleanedUp? || a.Begin? || a.End? || a.Mark?
    ensures PassInv(Act(s, a))
  {
    ActSteps(s, a);
    HoldGlobals(s, a);
    hide PassInv, Stepped, AllOk, Act;
    SamePassInv(s, Act(s, a));
  }

  lemma HoldGlobals(s: Sys, a: Action)
    requires a.StartEvent? || a.EndEvent? || a.CleanedUp? || a.Begin? || a.End? || a.Mark?
    ensures var t := Act(s, a);
            && t.loop == s.loop && t.past.finished == s.past.finished && t.past.logged == s.past.logged
            && t.state.latest == s.state.latest && t.state.incomplete == s.state.incomplete && t.state.announced == s.state.announced
            && t.state.dirty == s.state.dirty && t.permit == s.permit && t.notifying == s.notifying && t.listRetry == s.listRetry
            && t.cancelled == s.cancelled
  {
    hide Claim, Ended;
    match a
    case StartEvent(c, eventTime, now) => ClaimGlobals(s, c, Some(eventTime), false, now, false);
    case EndEvent(c, eventTime, now) => ClaimGlobals(s, c, Some(eventTime), true, now, false);
    case End(hold, outcome, monotonic) => EndGlobals(s, hold, outcome, monotonic);
    case _ =>
  }

  lemma EndGlobals(s: Sys, hold: nat, outcome: Outcome, monotonic: Time)
    ensures var t := Ended(s, hold, outcome, monotonic);
            && t.state == s.state.(pending := t.state.pending) && t == s.(state := t.state, holds := t.holds, past := t.past)
            && t.past == s.past.(served := t.past.served, inspections := t.past.inspections)
  {
    hide Settled;
    if hold in s.holds && s.holds[hold].phase.Reconciling? {
      SettledAt(s.state, s.holds[hold].container, s.holds[hold].phase.key, outcome != Failed, monotonic);
    }
  }

  predicate IsOther(a: Action) {
    a.Notify? || a.Nudge? || a.Cancel? || a.SkipEvent? || a.Plan? || a.Wake? || a.Stop? || a.ListRetry? || a.RetryDue? || a.Prune?
  }

  lemma OtherLoop(s: Sys, a: Action)
    requires IsOther(a)
    ensures Act(s, a).loop == s.loop || LoopKey(Act(s, a).loop).None?
  {
    hide Claim, CleanUpDone, Begun, Ended, Marked, AskedNext, FinishedLoop, Visited, Retried, ListFailed, Requested, Skipped, Pruned, Taken;
    match a
    case Notify =>
    case Nudge =>
    case Cancel =>
    case SkipEvent(_, _, _) =>
    case Plan(_) =>
    case Wake =>
    case Stop =>
    case ListRetry =>
    case RetryDue(_, _) =>
    case Prune(_) =>
  }

  lemma OtherPass(s: Sys, a: Action)
    requires PassInv(s) && AllOk(s) && IsOther(a)
    ensures PassInv(Act(s, a))
  {
    hide PassInv, Stepped, AllOk, Act, LoopKey;
    ActSteps(s, a);
    QuietGlobals(s, a);
    OtherLoop(s, a);
    if LoopKey(Act(s, a).loop).None? {
      OutsidePass(s, Act(s, a));
    } else {
      SamePassInv(s, Act(s, a));
    }
  }

  lemma ActPass(s: Sys, a: Action)
    requires PassInv(s) && AllOk(s)
    ensures PassInv(Act(s, a))
  {
    hide PassInv, AllOk, Visited, Retried, AskedNext, Claim, CleanUpDone, Begun, Ended, Marked, FinishedLoop, ListFailed, Requested;
    match a
    case Request(generation) => RequestPass(s, generation);
    case Ask(hold, now) => AskPass(s, hold, now);
    case Take => TakePass(s);
    case List(_) => ListPass(s, a);
    case ListFails => ListPass(s, a);
    case Check => CheckPass(s);
    case Visit(now) => VisitPass(s, now);
    case Return => ReturnPass(s);
    case Retry(now) => RetryPass(s, now);
    case StartEvent(_, _, _) => HoldPass(s, a);
    case EndEvent(_, _, _) => HoldPass(s, a);
    case CleanedUp(_) => HoldPass(s, a);
    case Begin(_, _) => HoldPass(s, a);
    case End(_, _, _) => HoldPass(s, a);
    case Mark(_) => HoldPass(s, a);
    case _ => OtherPass(s, a);
  }
}
