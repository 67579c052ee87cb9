/** The coordinator's state and every section of code run under its lock. */
module Coordinator {
  import opened Wrappers

  type Id = string
  type Time = int

  const SECOND: Time := 1_000_000_000
  const MIN_BACKOFF: Time := 1 * SECOND
  const MAX_BACKOFF: Time := 30 * SECOND
  const PROCESSED_TTL: Time := 60 * SECOND

  // What a pass reconciles for. Every request bumps the epoch.
  datatype PassKey = PassKey(generation: nat, epoch: nat)

  // A container whose last reconcile failed.
  datatype PendingEntry = PendingEntry(key: PassKey, backoff: Time, due: Time)

  // When an enumeration inspected a container, on the wall and on the monotonic clock.
  datatype Inspected = Inspected(at: Time, monotonic: Time)

  // A container being handled, and the work requested for it meanwhile.
  datatype Reservation = Reservation(applyStart: Option<Time>, running: bool, reconcile: bool, terminateAt: Option<Time>)

  datatype State = State(latest: PassKey, dirty: bool, incomplete: bool, announced: PassKey,
                         pending: map<Id, PendingEntry>, processed: map<Id, Inspected>, inFlight: map<Id, Reservation>)

  const START: State := State(PassKey(0, 0), false, false, PassKey(0, 0), map[], map[], map[])

  function Min(a: Time, b: Time): Time { if a < b then a else b }

  function Newer(key: PassKey, generation: nat): PassKey {
    PassKey(if key.generation < generation then generation else key.generation, key.epoch + 1)
  }

  function Retagged(pending: map<Id, PendingEntry>, key: PassKey): map<Id, PendingEntry> {
    map c | c in pending :: pending[c].(key := key)
  }

  // A new request: every pending entry is re-tagged with it.
  function Requested(s: State, generation: nat): State {
    var key := Newer(s.latest, generation);
    s.(latest := key, dirty := true, incomplete := true, pending := Retagged(s.pending, key))
  }

  // The latest request if no pass has started for it.
  function Taken(s: State): (State, Option<PassKey>) {
    if s.dirty then (s.(dirty := false), Some(s.latest)) else (s, None)
  }

  // A start event not newer than the apply then running.
  predicate CoveredBy(eventTime: Option<Time>, held: Reservation) {
    eventTime.Some? && held.applyStart.Some? && eventTime.value <= held.applyStart.value
  }

  // An end of run is queued with the latest time; a reconcile is queued unless it is covered.
  function Queued(held: Reservation, eventTime: Option<Time>, terminal: bool): Reservation {
    if terminal then
      if eventTime.Some? && (held.terminateAt.None? || eventTime.value > held.terminateAt.value) then held.(terminateAt := eventTime)
      else held
    else if CoveredBy(eventTime, held) then held
    else held.(reconcile := true)
  }

  // Claims a container, or leaves the work to its holder.
  function Reserved(s: State, c: Id, eventTime: Option<Time>, terminal: bool, now: Time): (State, bool) {
    if c in s.inFlight then (s.(inFlight := s.inFlight[c := Queued(s.inFlight[c], eventTime, terminal)]), false)
    else
      var held := Reservation(if terminal then None else Some(now), !terminal, false, None);
      (s.(inFlight := s.inFlight[c := held]), true)
  }

  predicate Busy(s: State) {
    exists c | c in s.inFlight :: s.inFlight[c].reconcile || s.inFlight[c].running
  }

  // Completion is logged once per request, when nothing is left for the latest.
  function Announced(s: State): (State, bool) {
    if s.incomplete || |s.pending| > 0 || s.announced == s.latest || Busy(s) then (s, false)
    else (s.(announced := s.latest), true)
  }

  function Reported(s: State): (State, bool) {
    if s.incomplete || |s.pending| > 0 then (s, false) else Announced(s)
  }

  // What is queued for a held container, or its release.
  datatype Queue = Queue(reconcile: bool, terminateAt: Option<Time>)

  function Asked(s: State, c: Id, now: Time): (State, Queue) {
    if c !in s.inFlight then (s, Queue(false, None))
    else
      var held := s.inFlight[c];
      if held.reconcile || held.terminateAt.Some? then
        var started := Reservation(if held.reconcile then Some(now) else None, held.reconcile, false, None);
        (s.(inFlight := s.inFlight[c := started]), Queue(held.reconcile, held.terminateAt))
      else (Announced(s.(inFlight := s.inFlight - {c})).0, Queue(false, None))
  }

  // A reconcile begun under `key` has ended. Success, or a container that is gone, clears the pending
  // entry only if no newer request re-tagged it.
  function Settled(s: State, c: Id, key: PassKey, settled: bool, now: Time): State {
    if c in s.pending then
      var entry := s.pending[c];
      if settled && entry.key == key then s.(pending := s.pending - {c})
      else if settled then s.(pending := s.pending[c := entry.(due := now)])
      else
        var backoff := Min(entry.backoff * 2, MAX_BACKOFF);
        s.(pending := s.pending[c := entry.(backoff := backoff, due := now + backoff)])
    else if settled then s
    else s.(pending := s.pending[c := PendingEntry(s.latest, MIN_BACKOFF, now + MIN_BACKOFF)])
  }

  function Finished(s: State, key: PassKey): (State, bool) {
    Reported(if key == s.latest then s.(incomplete := false) else s)
  }

  // The pending containers nobody holds.
  function Idle(s: State): set<Id> {
    set c | c in s.pending && c !in s.inFlight
  }

  // The pending containers that are due and not held.
  function Due(s: State, now: Time): set<Id> {
    set c | c in Idle(s) && s.pending[c].due <= now
  }

  // `t` is when the first of them is due.
  ghost predicate FirstDue(s: State, t: Option<Time>) {
    match t
    case None => Idle(s) == {}
    case Some(first) => (exists c | c in Idle(s) :: s.pending[c].due == first) && forall c | c in Idle(s) :: first <= s.pending[c].due
  }

  predicate Expired(now: Time, inspected: Inspected) {
    now - inspected.monotonic > PROCESSED_TTL
  }

  // An event an enumeration already covered; the entry is used up either way.
  function Skipped(s: State, c: Id, eventTime: Time, now: Time): (State, bool) {
    if c !in s.processed then (s, false)
    else (s.(processed := s.processed - {c}), !Expired(now, s.processed[c]) && eventTime <= s.processed[c].at)
  }

  function Pruned(s: State, now: Time): State {
    s.(processed := map c | c in s.processed && !Expired(now, s.processed[c]) :: s.processed[c])
  }

  // --- In place -----------------------------------------------------------------------------------------------

  class Shared {
    var latest: PassKey
    var dirty: bool
    var incomplete: bool
    var announced: PassKey
    var pending: map<Id, PendingEntry>
    var processed: map<Id, Inspected>
    var inFlight: map<Id, Reservation>

    function Value(): State
      reads this
    {
      State(latest, dirty, incomplete, announced, pending, processed, inFlight)
    }

    constructor ()
      ensures Value() == START
    {
      latest, dirty, incomplete, announced := PassKey(0, 0), false, false, PassKey(0, 0);
      pending, processed, inFlight := map[], map[], map[];
    }

    method Request(generation: nat)
      modifies this
      ensures Value() == Requested(old(Value()), generation)
    {
      latest := PassKey(if latest.generation < generation then generation else latest.generation, latest.epoch + 1);
      dirty, incomplete := true, true;
      ghost var before := pending;
      var todo := pending.Keys;
      while todo != {}
        invariant todo <= pending.Keys == before.Keys
        invariant forall c | c in before :: pending[c] == if c in todo then before[c] else before[c].(key := latest)
        invariant (latest, dirty, incomplete, announced, processed, inFlight)
               == (Newer(old(latest), generation), true, true, old(announced), old(processed), old(inFlight))
        decreases |todo|
      {
        var c :| c in todo;
        pending := pending[c := pending[c].(key := latest)];
        todo := todo - {c};
      }
      assert pending == Retagged(before, latest);
    }

    method TakeRequest() returns (key: Option<PassKey>)
      modifies this
      ensures (Value(), key) == Taken(old(Value()))
    {
      if !dirty {
        return None;
      }
      dirty := false;
      return Some(latest);
    }

    // Marks the latest request as needing a pass again.
    method Redo()
      modifies this
      ensures Value() == old(Value()).(dirty := true)
    {
      dirty := true;
    }

    method Reserve(c: Id, eventTime: Option<Time>, terminal: bool, now: Time) returns (claimed: bool)
      modifies this
      ensures (Value(), claimed) == Reserved(old(Value()), c, eventTime, terminal, now)
    {
      if c !in inFlight {
        inFlight := inFlight[c := Reservation(if terminal then None else Some(now), !terminal, false, None)];
        return true;
      }
      var held := inFlight[c];
      if terminal {
        if eventTime.Some? && (held.terminateAt.None? || eventTime.value > held.terminateAt.value) {
          held := held.(terminateAt := eventTime);
        }
      } else if eventTime.None? || held.applyStart.None? || eventTime.value > held.applyStart.value {
        held := held.(reconcile := true);
      }
      inFlight := inFlight[c := held];
      return false;
    }

    // Whether a reservation's reconcile is running or queued.
    method AnyBusy() returns (busy: bool)
      ensures busy == Busy(Value())
    {
      var todo := inFlight.Keys;
      while todo != {}
        invariant todo <= inFlight.Keys
        invariant forall c | c in inFlight && c !in todo :: !inFlight[c].reconcile && !inFlight[c].running
        decreases |todo|
      {
        var c :| c in todo;
        if inFlight[c].reconcile || inFlight[c].running {
          return true;
        }
        todo := todo - {c};
      }
      return false;
    }

    method Announce() returns (logged: bool)
      modifies this
      ensures (Value(), logged) == Announced(old(Value()))
      ensures !incomplete && |pending| == 0 && !Busy(Value()) ==> announced == latest
      ensures logged <==> announced != old(announced)
    {
      hide Busy;
      if incomplete || |pending| > 0 || announced == latest {
        return false;
      }
      var busy := AnyBusy();
      if busy {
        return false;
      }
      announced := latest;
      return true;
    }

    method Report() returns (logged: bool)
      modifies this
      ensures (Value(), logged) == Reported(old(Value()))
    {
      hide Busy;
      if incomplete || |pending| > 0 {
        return false;
      }
      logged := Announce();
    }

    // The work queued for a held container, or the release when there is none, which wakes the run
    // loop if the container's retries were held back.
    method Next(c: Id, now: Time) returns (queue: Queue, wake: bool)
      modifies this
      ensures (Value(), queue) == Asked(old(Value()), c, now)
      ensures wake <==> c in old(inFlight) && c !in inFlight && c in pending
    {
      hide Busy;
      wake := false;
      if c !in inFlight {
        return Queue(false, None), false;
      }
      var held := inFlight[c];
      if held.reconcile || held.terminateAt.Some? {
        inFlight := inFlight[c := Reservation(if held.reconcile then Some(now) else None, held.reconcile, false, None)];
        return Queue(held.reconcile, held.terminateAt), false;
      }
      inFlight := inFlight - {c};
      wake := c in pending;
      var _ := Announce();
      queue := Queue(false, None);
    }

    method Settle(c: Id, key: PassKey, settled: bool, now: Time)
      modifies this
      ensures Value() == Settled(old(Value()), c, key, settled, now)
    {
      if c in pending {
        var entry := pending[c];
        if settled && entry.key == key {
          pending := pending - {c};
        } else if settled {
          pending := pending[c := entry.(due := now)];
        } else {
          var backoff := Min(entry.backoff * 2, MAX_BACKOFF);
          pending := pending[c := entry.(backoff := backoff, due := now + backoff)];
        }
      } else if !settled {
        pending := pending[c := PendingEntry(latest, MIN_BACKOFF, now + MIN_BACKOFF)];
      }
    }

    method FinishPass(key: PassKey) returns (logged: bool)
      modifies this
      ensures (Value(), logged) == Finished(old(Value()), key)
    {
      hide Busy;
      if key == latest {
        incomplete := false;
      }
      logged := Report();
    }

    method Superseded(key: PassKey) returns (r: bool)
      ensures r <==> Value().latest != key
    {
      return latest != key;
    }

    method Current() returns (key: PassKey)
      ensures key == Value().latest
    {
      return latest;
    }

    method NextDue() returns (first: Option<Time>)
      ensures FirstDue(Value(), first)
    {
      first := None;
      var todo := pending.Keys;
      while todo != {}
        invariant todo <= pending.Keys
        invariant first.None? ==> forall c | c in Idle(Value()) :: c in todo
        invariant first.Some? ==> exists c | c in Idle(Value()) :: pending[c].due == first.value
        invariant first.Some? ==> forall c | c in Idle(Value()) && c !in todo :: first.value <= pending[c].due
        decreases |todo|
      {
        var c :| c in todo;
        todo := todo - {c};
        if c !in inFlight {
          assert c in Idle(Value());
          if first.None? || pending[c].due < first.value {
            first := Some(pending[c].due);
          }
        }
      }
    }

    method DueIds(now: Time) returns (ids: seq<Id>)
      ensures (set c | c in ids) == Due(Value(), now)
      ensures forall i, j | 0 <= i < j < |ids| :: ids[i] != ids[j]
    {
      ids := [];
      var todo := pending.Keys;
      while todo != {}
        invariant todo <= pending.Keys
        invariant forall c :: c in ids <==> c in Due(Value(), now) && c !in todo
        invariant forall i, j | 0 <= i < j < |ids| :: ids[i] != ids[j]
        decreases |todo|
      {
        var c :| c in todo;
        todo := todo - {c};
        if c !in inFlight && pending[c].due <= now {
          assert c in Due(Value(), now) && c !in ids;
          ids := ids + [c];
        }
      }
    }

    method MarkProcessed(c: Id, inspected: Inspected)
      modifies this
      ensures Value() == old(Value()).(processed := old(processed)[c := inspected])
    {
      processed := processed[c := inspected];
    }

    method SkipEvent(c: Id, eventTime: Time, now: Time) returns (skip: bool)
      modifies this
      ensures (Value(), skip) == Skipped(old(Value()), c, eventTime, now)
    {
      if c !in processed {
        return false;
      }
      var inspected := processed[c];
      processed := processed - {c};
      if Expired(now, inspected) {
        return false;
      }
      return eventTime <= inspected.at;
    }

    method PruneProcessed(now: Time)
      modifies this
      ensures Value() == Pruned(old(Value()), now)
    {
      processed := map c | c in processed && !Expired(now, processed[c]) :: processed[c];
    }
  }
}
