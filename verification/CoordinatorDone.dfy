/** Completion is logged when it is reached: the other half of the announcement, over every run. */
module CoordinatorDone {
  import opened Wrappers
  import opened Coordinator
  import opened CoordinatorRun
  import opened CoordinatorHolds
  import opened CoordinatorInv
  import opened CoordinatorSound
  import opened CoordinatorLive

  // --- Reports ----------------------------------------------------------------------------------------------------------

  // The action looks whether anything is left: a pass, a retry round or a list that failed ends, or a
  // task lets go of its container.
  predicate Reports(s: Sys, a: Action) {
    match a
    case Ask(hold, _) =>
      && hold in s.holds && s.holds[hold].phase.Asking? && s.holds[hold].container in s.state.inFlight
      && !s.state.inFlight[s.holds[hold].container].reconcile && s.state.inFlight[s.holds[hold].container].terminateAt.None?
    case Check => s.loop.Visiting? && s.loop.next == |s.loop.listed|
    case Retry(_) => s.loop.Retrying? && !s.cancelled && s.loop.tried >= |s.loop.ids|
    case ListFails => s.loop.Listing?
    case _ => false
  }

  lemma AnnouncedIf(s: State)
    ensures Complete(s) ==> Announced(s).0.announced == s.latest
    ensures Complete(Announced(s).0) <==> Complete(s)
  {
  }

  lemma ReportedIf(s: State)
    ensures Complete(Reported(s).0) ==> Reported(s).0.announced == s.latest
    ensures Reported(s).0.latest == s.latest
  {
    AnnouncedIf(s);
    AnnouncedOnly(s);
    hide Announced, Complete;
    assert Complete(s) ==> !s.incomplete && |s.pending| == 0 by { CompleteParts(s); }
    if s.incomplete || |s.pending| > 0 {
      CompleteParts(s);
    }
  }

  lemma CompleteParts(s: State)
    ensures Complete(s) ==> !s.incomplete && |s.pending| == 0
  {
    hide Busy;
  }

  lemma AskReports(s: Sys, hold: nat, now: Time)
    requires Reports(s, Ask(hold, now)) && Complete(AskedNext(s, hold, now).state)
    ensures AskedNext(s, hold, now).state.announced == AskedNext(s, hold, now).state.latest
  {
    var x := s.state.(inFlight := s.state.inFlight - {s.holds[hold].container});
    AnnouncedIf(x);
    AnnouncedOnly(x);
    hide Announced, Complete;
  }

  // Whoever reports with nothing left has the latest request announced.
  lemma ReportAnnounces(s: Sys, a: Action)
    requires Reports(s, a) && Complete(Act(s, a).state)
    ensures Act(s, a).state.announced == Act(s, a).state.latest
  {
    hide Complete, Reported, AskedNext, Log;
    match a
    case Ask(hold, now) => AskReports(s, hold, now);
    case Check =>
      ReportedIf(s.state);
      ReportedIf(s.state.(incomplete := false));
    case Retry(now) => ReportedIf(s.state);
    case ListFails => ReportedIf(s.state);
  }

  // --- Over runs ----------------------------------------------------------------------------------------------------------

  // Nothing outstanding: no pass, nothing pending, nobody holds a container.
  predicate AtRest(s: State) {
    !s.incomplete && |s.pending| == 0 && |s.inFlight| == 0
  }

  // What is announced was logged, and nothing is outstanding without it being announced.
  ghost predicate DoneInv(s: Sys) {
    && (s.state.announced.epoch > 0 ==> s.state.announced in s.past.logged)
    && (AtRest(s.state) ==> s.state.announced == s.state.latest)
  }

  lemma RestComplete(s: State)
    requires AtRest(s)
    ensures Complete(s)
  {
  }

  // The container is held, or asked about, after the step.
  lemma ClaimHeld(s: Sys, c: Id, eventTime: Option<Time>, terminal: bool, now: Time, enumerated: bool)
    ensures c in Claim(s, c, eventTime, terminal, now, enumerated).0.state.inFlight
  {
    hide Owing;
  }

  lemma NotAtRest(s: State, c: Id)
    requires c in s.inFlight
    ensures !AtRest(s)
  {
    assert |s.inFlight| > 0 by {
      assert s.inFlight.Keys != {};
    }
  }

  lemma AskRestKept(s: Sys, hold: nat, now: Time)
    requires AllOk(s) && DoneInv(s) && AtRest(AskedNext(s, hold, now).state)
    ensures AskedNext(s, hold, now).state.announced == AskedNext(s, hold, now).state.latest
  {
    var t := AskedNext(s, hold, now);
    if hold in s.holds && s.holds[hold].phase.Asking? {
      HolderSees(s, hold);
      var c := s.holds[hold].container;
      if Reports(s, Ask(hold, now)) {
        RestComplete(t.state);
        hide AskedNext, Complete, AllOk;
        AskReports(s, hold, now);
      } else {
        hide AskedNext, LocalOk;
        AskTakes(s, hold, now);
        NotAtRest(t.state, c);
      }
    }
  }

  lemma HoldRestKept(s: Sys, a: Action)
    requires AllOk(s) && DoneInv(s) && (a.CleanedUp? || a.Begin? || a.End? || a.Mark?)
    ensures AtRest(Act(s, a).state) ==> Act(s, a).state.announced == Act(s, a).state.latest
  {
    hide LocalOk, DoneInv;
    if a.hold in s.holds {
      HolderSees(s, a.hold);
      HoldGlobals(s, a);
      HoldFlights(s, a);
      hide Act, AllOk;
      NotAtRest(Act(s, a).state, s.holds[a.hold].container);
    } else {
      assert Act(s, a) == s;
      DoneParts(s);
    }
  }

  lemma HoldFlights(s: Sys, a: Action)
    requires a.CleanedUp? || a.Begin? || a.End? || a.Mark?
    ensures Act(s, a).state.inFlight == s.state.inFlight
  {
  }

  lemma DoneParts(s: Sys)
    requires DoneInv(s)
    ensures AtRest(s.state) ==> s.state.announced == s.state.latest
  {
  }

  lemma ReportRestKept(s: Sys, a: Action)
    requires DoneInv(s) && (a.Check? || a.Retry? || a.ListFails?)
    ensures AtRest(Act(s, a).state) ==> Act(s, a).state.announced == Act(s, a).state.latest
  {
    var t := Act(s, a);
    if AtRest(t.state) {
      RestComplete(t.state);
      if Reports(s, a) {
        hide Act, Complete, Reports;
        ReportAnnounces(s, a);
      } else if a.Retry? && s.loop.Retrying? && !s.cancelled {
        ClaimHeld(s, s.loop.ids[s.loop.tried], None, false, a.now, true);
        hide Claim;
        NotAtRest(t.state, s.loop.ids[s.loop.tried]);
      } else {
        assert t.state == s.state;
      }
    }
  }

  lemma VisitRestKept(s: Sys, now: Time)
    requires DoneInv(s)
    ensures AtRest(Visited(s, now).state) ==> Visited(s, now).state.announced == Visited(s, now).state.latest
  {
    if s.loop.Claiming? && s.loop.next < |s.loop.listed| {
      ClaimHeld(s, s.loop.listed[s.loop.next], None, false, now, true);
      hide Claim;
      NotAtRest(Visited(s, now).state, s.loop.listed[s.loop.next]);
    }
  }

  lemma EventRestKept(s: Sys, a: Action)
    requires a.StartEvent? || a.EndEvent?
    ensures !AtRest(Act(s, a).state)
  {
    ClaimHeld(s, a.c, Some(a.eventTime), a.EndEvent?, a.now, false);
    hide Claim;
    NotAtRest(Act(s, a).state, a.c);
  }

  lemma QuietRestKept(s: Sys, a: Action)
    requires DoneInv(s) && IsQuiet(a)
    ensures AtRest(Act(s, a).state) ==> Act(s, a).state.announced == Act(s, a).state.latest
  {
    hide Act;
    QuietGlobals(s, a);
  }

  lemma ActRestKept(s: Sys, a: Action)
    requires AllOk(s) && DoneInv(s)
    ensures AtRest(Act(s, a).state) ==> Act(s, a).state.announced == Act(s, a).state.latest
  {
    hide AllOk, DoneInv, AtRest, Visited, Retried, AskedNext, Claim, CleanUpDone, Begun, Ended, Marked, FinishedLoop, ListFailed, Taken, Skipped, Pruned;
    match a
    case Ask(hold, now) =>
      if AtRest(AskedNext(s, hold, now).state) {
        AskRestKept(s, hold, now);
      }
    case Check => ReportRestKept(s, a);
    case ListFails => ReportRestKept(s, a);
    case Retry(_) => ReportRestKept(s, a);
    case Visit(now) => VisitRestKept(s, now);
    case StartEvent(_, _, _) => EventRestKept(s, a);
    case EndEvent(_, _, _) => EventRestKept(s, a);
    case CleanedUp(_) => HoldRestKept(s, a);
    case Begin(_, _) => HoldRestKept(s, a);
    case End(_, _, _) => HoldRestKept(s, a);
    case Mark(_) => HoldRestKept(s, a);
    case Request(generation) => IncompleteNotAtRest(Act(s, a).state);
    case _ => QuietRestKept(s, a);
  }

  lemma IncompleteNotAtRest(s: State)
    requires s.incomplete
    ensures !AtRest(s)
  {
  }

  lemma ActDone(s: Sys, a: Action)
    requires AllOk(s) && DoneInv(s)
    ensures DoneInv(Act(s, a))
  {
    hide AllOk, Act, AtRest, Complete;
    ActRestKept(s, a);
    ActLogs(s, a);
  }

  lemma {:induction false} RunDone(states: seq<Sys>, actions: seq<Action>, i: nat)
    requires Run(states, actions) && i < |states|
    ensures DoneInv(states[i])
  {
    hide Act, Possible, DoneInv;
    if i == 0 {
      StartDone();
    } else {
      RunDone(states, actions, i - 1);
      RunAllOk(states, actions, i - 1);
      ActDone(states[i - 1], actions[i - 1]);
    }
  }

  lemma StartDone()
    ensures DoneInv(INITIAL)
  {
  }

  lemma RunAllOk(states: seq<Sys>, actions: seq<Action>, i: nat)
    requires Run(states, actions) && i < |states|
    ensures AllOk(states[i])
  {
    hide Act, Possible, PassInv, LogInv, Underway, Wakeful, SkipInv, AllOk;
    RunInv(states, actions, i);
  }

  // In every reachable state: once there was a request and nothing is outstanding, its completion has
  // been logged.
  lemma RestIsLogged(states: seq<Sys>, actions: seq<Action>, i: nat)
    requires Run(states, actions) && i < |states| && states[i].state.latest.epoch > 0
    requires !states[i].state.incomplete && states[i].state.pending == map[] && states[i].state.inFlight == map[]
    ensures states[i].state.latest in states[i].past.logged
  {
    hide Act, Possible;
    RunDone(states, actions, i);
  }

  // No pass outstanding, nothing pending, and no reconcile running or queued.
  predicate NothingLeft(s: State) {
    && !s.incomplete
    && s.pending == map[]
    && (forall c | c in s.inFlight :: !s.inFlight[c].running && !s.inFlight[c].reconcile)
  }

  // And as soon as a pass or a retry round ends or a task lets go with nothing left, whoever cleans up
  // meanwhile.
  lemma CompletionIsLogged(states: seq<Sys>, actions: seq<Action>, i: nat)
    requires Run(states, actions) && i < |actions| && Reports(states[i], actions[i]) && states[i + 1].state.latest.epoch > 0
    requires NothingLeft(states[i + 1].state)
    ensures states[i + 1].state.latest in states[i + 1].past.logged
  {
    hide Act, Possible, Reports;
    assert Complete(states[i + 1].state);
    hide Complete;
    ReportAnnounces(states[i], actions[i]);
    RunDone(states, actions, i + 1);
  }
}
