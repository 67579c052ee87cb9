/** The coordinator one container at a time: mutual exclusion, and what each step does to the container
    it is about. */
module CoordinatorHolds {
  import opened Wrappers
  import opened Coordinator
  import opened CoordinatorRun

  // --- Mutual exclusion -------------------------------------------------------------------------------------

  // The holds are exactly the holders of the reserved containers.
  ghost predicate Exclusive(s: Sys) {
    && s.past.holder.Keys == s.state.inFlight.Keys
    && (forall c | c in s.past.holder :: s.past.holder[c] in s.holds && s.holds[s.past.holder[c]].container == c)
    && forall h | h in s.holds :: h < s.nextHold && s.holds[h].container in s.past.holder && s.past.holder[s.holds[h].container] == h
  }

  function PhaseOf(s: Sys, c: Id): Option<Phase> {
    if c in s.past.holder && s.past.holder[c] in s.holds then Some(s.holds[s.past.holder[c]].phase) else None
  }

  // A container nobody held is claimed by a new task.
  lemma ClaimedNew(s: Sys, t: Sys, c: Id, hold: Hold)
    requires Exclusive(s) && c !in s.state.inFlight && hold.container == c
    requires t.holds == s.holds[s.nextHold := hold] && t.nextHold == s.nextHold + 1
    requires t.past.holder == s.past.holder[c := s.nextHold] && t.state.inFlight.Keys == s.state.inFlight.Keys + {c}
    ensures Exclusive(t) && PhaseOf(t, c) == Some(hold.phase) && PhaseOf(s, c) == None
    ensures forall d | d != c :: PhaseOf(t, d) == PhaseOf(s, d)
  {
    assert s.nextHold !in s.holds;
  }

  // Only the phase of one hold has changed.
  lemma PhaseChanged(s: Sys, t: Sys, hold: nat, phase: Phase)
    requires Exclusive(s) && hold in s.holds && t.holds == s.holds[hold := s.holds[hold].(phase := phase)]
    requires t.nextHold == s.nextHold && t.past.holder == s.past.holder && t.state.inFlight.Keys == s.state.inFlight.Keys
    ensures Exclusive(t) && PhaseOf(s, s.holds[hold].container) == Some(s.holds[hold].phase)
    ensures PhaseOf(t, s.holds[hold].container) == Some(phase) && s.holds[hold].container in s.state.inFlight
    ensures forall d | d != s.holds[hold].container :: PhaseOf(t, d) == PhaseOf(s, d)
  {
  }

  lemma Released(s: Sys, t: Sys, hold: nat)
    requires Exclusive(s) && hold in s.holds && t.holds == s.holds - {hold} && t.nextHold == s.nextHold
    requires t.past.holder == s.past.holder - {s.holds[hold].container}
    requires t.state.inFlight == s.state.inFlight - {s.holds[hold].container}
    ensures Exclusive(t) && PhaseOf(t, s.holds[hold].container) == None
    ensures forall d | d != s.holds[hold].container :: PhaseOf(t, d) == PhaseOf(s, d)
  {
  }

  lemma SamePhases(s: Sys, t: Sys)
    requires Exclusive(s) && t.holds == s.holds && t.nextHold == s.nextHold
    requires t.past.holder == s.past.holder && t.state.inFlight.Keys == s.state.inFlight.Keys
    ensures Exclusive(t) && forall d :: PhaseOf(t, d) == PhaseOf(s, d)
  {
  }

  // A hold's own view of its container.
  lemma HolderSees(s: Sys, hold: nat)
    requires Exclusive(s) && hold in s.holds
    ensures s.holds[hold].container in s.state.inFlight && PhaseOf(s, s.holds[hold].container) == Some(s.holds[hold].phase)
  {
  }

  // --- One container ------------------------------------------------------------------------------------------

  // What there is about one container.
  datatype Seen = Seen(held: Option<Reservation>, phase: Option<Phase>, owed: bool, cleanup: Option<Time>,
                       pending: Option<PendingEntry>, served: Option<nat>)

  function At<T>(m: map<Id, T>, c: Id): Option<T> {
    if c in m then Some(m[c]) else None
  }

  function Look(s: Sys, c: Id): Seen {
    Seen(At(s.state.inFlight, c), PhaseOf(s, c), c in s.past.owedReconcile, At(s.past.owedCleanup, c), At(s.state.pending, c), At(s.past.served, c))
  }

  // The steps, on one container.
  function LClaim(x: Seen, eventTime: Option<Time>, terminal: bool, now: Time): Seen {
    var asked :=
      if terminal then
        if eventTime.Some?
        then x.(cleanup := Some(if x.cleanup.Some? && x.cleanup.value > eventTime.value then x.cleanup.value else eventTime.value))
        else x
      else if x.held.Some? && CoveredBy(eventTime, x.held.value) then x
      else x.(owed := true);
    if x.held.Some? then asked.(held := Some(Queued(x.held.value, eventTime, terminal)))
    else
      asked.(held := Some(Reservation(if terminal then None else Some(now), !terminal, false, None)),
             phase := Some(if terminal then Terminating(if eventTime.Some? then eventTime.value else now, false) else Starting))
  }

  function LClean(x: Seen): Seen {
    if x.phase.None? || !x.phase.value.Terminating? then x
    else
      var phase := x.phase.value;
      x.(phase := Some(if phase.reconcileNext then Starting else Asking),
         cleanup := if x.cleanup.Some? && x.cleanup.value <= phase.at then None else x.cleanup)
  }

  function LBegin(x: Seen, latest: PassKey, clock: nat, now: Time): Seen {
    if x.phase != Some(Starting) then x else x.(phase := Some(Reconciling(latest, now, clock)), owed := false)
  }

  function LPending(pending: Option<PendingEntry>, latest: PassKey, key: PassKey, settled: bool, now: Time): Option<PendingEntry> {
    match pending
    case Some(entry) =>
      if settled && entry.key == key then None
      else if settled then Some(entry.(due := now))
      else
        var backoff := Min(entry.backoff * 2, MAX_BACKOFF);
        Some(entry.(backoff := backoff, due := now + backoff))
    case None => if settled then None else Some(PendingEntry(latest, MIN_BACKOFF, now + MIN_BACKOFF))
  }

  function LEnd(x: Seen, latest: PassKey, outcome: Outcome, next: Phase, now: Time): Seen {
    if x.phase.None? || !x.phase.value.Reconciling? then x
    else
      var phase := x.phase.value;
      x.(phase := Some(next), pending := LPending(x.pending, latest, phase.key, outcome != Failed, now),
         served := if outcome == Failed then x.served
                   else Some(if x.served.Some? && x.served.value > phase.start then x.served.value else phase.start))
  }

  function LAsk(x: Seen, now: Time): Seen {
    if x.phase != Some(Asking) || x.held.None? then x
    else
      var held := x.held.value;
      if held.reconcile || held.terminateAt.Some? then
        x.(held := Some(Reservation(if held.reconcile then Some(now) else None, held.reconcile, false, None)),
           phase := Some(if held.terminateAt.Some? then Terminating(held.terminateAt.value, held.reconcile) else Starting))
      else x.(held := None, phase := None)
  }

  function LRequest(x: Seen, key: PassKey): Seen {
    x.(pending := if x.pending.Some? then Some(x.pending.value.(key := key)) else None)
  }

  // Only container `c` has changed.
  ghost predicate OnlyAbout(s: Sys, t: Sys, c: Id) {
    forall d | d != c :: Look(t, d) == Look(s, d)
  }

  lemma ClaimLooks(s: Sys, c: Id, eventTime: Option<Time>, terminal: bool, now: Time, enumerated: bool)
    requires Exclusive(s)
    ensures var t := Claim(s, c, eventTime, terminal, now, enumerated).0;
            Exclusive(t) && Look(t, c) == LClaim(Look(s, c), eventTime, terminal, now) && OnlyAbout(s, t, c)
  {
    hide Queued, CoveredBy, Exclusive, PhaseOf;
    var t := Claim(s, c, eventTime, terminal, now, enumerated).0;
    if c in s.state.inFlight {
      assert t.state.inFlight.Keys == s.state.inFlight.Keys;
      SamePhases(s, t);
    } else {
      assert t.state.inFlight.Keys == s.state.inFlight.Keys + {c};
      ClaimedNew(s, t, c, t.holds[s.nextHold]);
    }
  }

  lemma CleanUpLooks(s: Sys, hold: nat)
    requires Exclusive(s) && hold in s.holds
    ensures var t, c := CleanUpDone(s, hold), s.holds[hold].container;
            Exclusive(t) && Look(t, c) == LClean(Look(s, c)) && OnlyAbout(s, t, c)
  {
    hide Exclusive, PhaseOf;
    HolderSees(s, hold);
    var t := CleanUpDone(s, hold);
    if s.holds[hold].phase.Terminating? {
      PhaseChanged(s, t, hold, t.holds[hold].phase);
    }
  }

  lemma BeginLooks(s: Sys, hold: nat, now: Time)
    requires Exclusive(s) && hold in s.holds
    ensures var t, c := Begun(s, hold, now), s.holds[hold].container;
            Exclusive(t) && Look(t, c) == LBegin(Look(s, c), s.state.latest, s.past.clock, now) && OnlyAbout(s, t, c)
  {
    hide Exclusive, PhaseOf;
    HolderSees(s, hold);
    var t := Begun(s, hold, now);
    if s.holds[hold].phase.Starting? {
      PhaseChanged(s, t, hold, t.holds[hold].phase);
    }
  }

  function AfterEnd(s: Sys, hold: nat, outcome: Outcome, monotonic: Time): Phase
    requires hold in s.holds
  {
    if outcome == Succeeded && s.holds[hold].enumerated && s.holds[hold].phase.Reconciling?
    then Marking(Inspected(s.holds[hold].phase.at, monotonic)) else Asking
  }

  lemma SettledAt(s: State, c: Id, key: PassKey, settled: bool, now: Time)
    ensures var t := Settled(s, c, key, settled, now);
            && At(t.pending, c) == LPending(At(s.pending, c), s.latest, key, settled, now)
            && (forall d | d != c :: At(t.pending, d) == At(s.pending, d))
            && t.(pending := s.pending) == s
  {
  }

  lemma ServedAt(served: map<Id, nat>, c: Id, start: nat)
    ensures var t := Serve(served, c, start);
            && At(t, c) == Some(if c in served && served[c] > start then served[c] else start)
            && forall d | d != c :: At(t, d) == At(served, d)
  {
  }

  lemma EndLooks(s: Sys, hold: nat, outcome: Outcome, monotonic: Time)
    requires Exclusive(s) && hold in s.holds
    ensures var t, c := Ended(s, hold, outcome, monotonic), s.holds[hold].container;
            && Exclusive(t) && OnlyAbout(s, t, c)
            && Look(t, c) == LEnd(Look(s, c), s.state.latest, outcome, AfterEnd(s, hold, outcome, monotonic), monotonic)
  {
    hide Exclusive, PhaseOf, Settled, Serve, LPending;
    HolderSees(s, hold);
    var t, c := Ended(s, hold, outcome, monotonic), s.holds[hold].container;
    if s.holds[hold].phase.Reconciling? {
      var phase := s.holds[hold].phase;
      SettledAt(s.state, c, phase.key, outcome != Failed, monotonic);
      ServedAt(s.past.served, c, phase.start);
      PhaseChanged(s, t, hold, t.holds[hold].phase);
    }
  }

  lemma MarkLooks(s: Sys, hold: nat)
    requires Exclusive(s) && hold in s.holds
    ensures var t, c := Marked(s, hold), s.holds[hold].container;
            && Exclusive(t) && OnlyAbout(s, t, c)
            && Look(t, c) == if s.holds[hold].phase.Marking? then Look(s, c).(phase := Some(Asking)) else Look(s, c)
  {
    hide Exclusive, PhaseOf;
    HolderSees(s, hold);
    var t := Marked(s, hold);
    if s.holds[hold].phase.Marking? {
      PhaseChanged(s, t, hold, t.holds[hold].phase);
    }
  }

  lemma AnnouncedOnly(s: State)
    ensures Announced(s).0.(announced := s.announced) == s
  {
    hide Busy;
  }

  lemma ReportedOnly(s: State)
    ensures Reported(s).0.(announced := s.announced) == s
  {
    hide Busy;
  }

  // What asking does to the state.
  lemma AskedAt(s: State, c: Id, now: Time)
    requires c in s.inFlight
    ensures var ((t, queue), held) := (Asked(s, c, now), s.inFlight[c]);
            && t.pending == s.pending && t.(announced := s.announced, inFlight := s.inFlight) == s
            && (if held.reconcile || held.terminateAt.Some? then
                  && queue == Queue(held.reconcile, held.terminateAt) && t.announced == s.announced
                  && t.inFlight == s.inFlight[c := Reservation(if held.reconcile then Some(now) else None, held.reconcile, false, None)]
                else queue == Queue(false, None) && t.inFlight == s.inFlight - {c})
  {
    AnnouncedOnly(s.(inFlight := s.inFlight - {c}));
    hide Announced;
  }

  function TakenReservation(held: Reservation, now: Time): Reservation {
    Reservation(if held.reconcile then Some(now) else None, held.reconcile, false, None)
  }

  function TakenPhase(held: Reservation): Phase {
    if held.terminateAt.Some? then Terminating(held.terminateAt.value, held.reconcile) else Starting
  }

  // The holder takes what is queued.
  lemma AskTakes(s: Sys, hold: nat, now: Time)
    requires Exclusive(s) && hold in s.holds && s.holds[hold].phase.Asking? && s.holds[hold].container in s.state.inFlight
    requires var held := s.state.inFlight[s.holds[hold].container]; held.reconcile || held.terminateAt.Some?
    ensures var t, c := AskedNext(s, hold, now), s.holds[hold].container;
            && t.state == s.state.(inFlight := s.state.inFlight[c := TakenReservation(s.state.inFlight[c], now)])
            && t == s.(state := t.state, holds := s.holds[hold := s.holds[hold].(phase := TakenPhase(s.state.inFlight[c]))])
  {
    hide Asked, Exclusive;
    AskedAt(s.state, s.holds[hold].container, now);
  }

  // Or releases the container when nothing is.
  lemma AskReleases(s: Sys, hold: nat, now: Time)
    requires Exclusive(s) && hold in s.holds && s.holds[hold].phase.Asking? && s.holds[hold].container in s.state.inFlight
    requires var held := s.state.inFlight[s.holds[hold].container]; !held.reconcile && held.terminateAt.None?
    ensures var t, c := AskedNext(s, hold, now), s.holds[hold].container;
            && t.state.(announced := s.state.announced) == s.state.(inFlight := s.state.inFlight - {c})
            && t.holds == s.holds - {hold} && t.nextHold == s.nextHold && t.permit == (s.permit || c in s.state.pending)
            && t.past == s.past.(logged := t.past.logged, holder := s.past.holder - {c})
            && t == s.(state := t.state, holds := t.holds, permit := t.permit, past := t.past)
  {
    hide Asked, Exclusive;
    AskedAt(s.state, s.holds[hold].container, now);
  }

  ghost predicate AskSeen(s: Sys, t: Sys, c: Id, now: Time) {
    Exclusive(t) && Look(t, c) == LAsk(Look(s, c), now) && OnlyAbout(s, t, c)
  }

  lemma AskTakenLooks(s: Sys, hold: nat, now: Time)
    requires Exclusive(s) && hold in s.holds && s.holds[hold].phase.Asking? && s.holds[hold].container in s.state.inFlight
    requires var held := s.state.inFlight[s.holds[hold].container]; held.reconcile || held.terminateAt.Some?
    ensures AskSeen(s, AskedNext(s, hold, now), s.holds[hold].container, now)
  {
    hide AskedNext, Exclusive, PhaseOf;
    var t, c := AskedNext(s, hold, now), s.holds[hold].container;
    HolderSees(s, hold);
    AskTakes(s, hold, now);
    assert t.state.inFlight.Keys == s.state.inFlight.Keys;
    PhaseChanged(s, t, hold, TakenPhase(s.state.inFlight[c]));
  }

  lemma AskReleasedLooks(s: Sys, hold: nat, now: Time)
    requires Exclusive(s) && hold in s.holds && s.holds[hold].phase.Asking? && s.holds[hold].container in s.state.inFlight
    requires var held := s.state.inFlight[s.holds[hold].container]; !held.reconcile && held.terminateAt.None?
    ensures AskSeen(s, AskedNext(s, hold, now), s.holds[hold].container, now)
  {
    hide AskedNext, Exclusive, PhaseOf;
    HolderSees(s, hold);
    AskReleases(s, hold, now);
    Released(s, AskedNext(s, hold, now), hold);
  }

  lemma AskNothing(s: Sys, hold: nat, now: Time)
    requires Exclusive(s) && hold in s.holds && !s.holds[hold].phase.Asking?
    ensures AskedNext(s, hold, now) == s && AskSeen(s, s, s.holds[hold].container, now)
  {
    HolderSees(s, hold);
    hide Exclusive, PhaseOf;
  }

  lemma AskLooks(s: Sys, hold: nat, now: Time)
    requires Exclusive(s) && hold in s.holds
    ensures AskSeen(s, AskedNext(s, hold, now), s.holds[hold].container, now)
  {
    hide AskedNext, Exclusive, AskSeen;
    HolderSees(s, hold);
    var held := s.state.inFlight[s.holds[hold].container];
    if !s.holds[hold].phase.Asking? {
      AskNothing(s, hold, now);
    } else if held.reconcile || held.terminateAt.Some? {
      AskTakenLooks(s, hold, now);
    } else {
      AskReleasedLooks(s, hold, now);
    }
  }

  lemma RequestLooks(s: Sys, generation: nat)
    requires Exclusive(s)
    ensures var t := s.(state := Requested(s.state, generation), notifying := s.notifying + 1);
            Exclusive(t) && forall c :: Look(t, c) == LRequest(Look(s, c), t.state.latest)
  {
    hide Exclusive, PhaseOf;
    SamePhases(s, s.(state := Requested(s.state, generation), notifying := s.notifying + 1));
  }

  // A step that is about no container.
  lemma NothingLooks(s: Sys, t: Sys)
    requires Exclusive(s) && t.holds == s.holds && t.nextHold == s.nextHold
    requires t.past.holder == s.past.holder && t.past.owedReconcile == s.past.owedReconcile && t.past.owedCleanup == s.past.owedCleanup
    requires t.past.served == s.past.served && t.state.inFlight == s.state.inFlight && t.state.pending == s.state.pending
    ensures Exclusive(t) && forall c :: Look(t, c) == Look(s, c)
  {
    hide Exclusive, PhaseOf;
    SamePhases(s, t);
  }
}
