/** The history of a container's runs and the cgroups they were verified in. */
module Lifecycle {
  import opened Wrappers
  import opened Handle

  type Time = int

  datatype RunState = Provisional | Verified | Terminal

  datatype RunCgroup = RunCgroup(identity: Identity, version: nat, privileged: bool)

  // One run. `startedAt` is empty while unknown.
  datatype Record = Record(container: string, startedAt: string, cgroup: Option<RunCgroup>, state: RunState,
                           firstSeen: Time, observed: Time, revoked: bool)

  const MAX_RECORDS: nat := 8
  const NEVER: Time := -377_705_023_201

  // How a start time is read; None when it is not a time.
  type Parser = string -> Option<Time>

  function Started(parse: Parser, r: Record): Option<Time> {
    if r.startedAt == "" then None else parse(r.startedAt)
  }

  // --- One container's records ------------------------------------------------------------------------

  // The first provisional record, the first of a run, and the first without an identity, from `k` on.
  function FindProvisional(records: seq<Record>, k: nat): (r: Option<nat>)
    requires k <= |records|
    ensures match r
            case Some(i) => k <= i < |records| && records[i].state == Provisional && forall j | k <= j < i :: records[j].state != Provisional
            case None => forall j | k <= j < |records| :: records[j].state != Provisional
    decreases |records| - k
  {
    if k == |records| then None else if records[k].state == Provisional then Some(k) else FindProvisional(records, k + 1)
  }

  function FindRun(records: seq<Record>, startedAt: string, k: nat): (r: Option<nat>)
    requires k <= |records|
    ensures match r
            case Some(i) => k <= i < |records| && records[i].startedAt == startedAt
                            && forall j | k <= j < i :: records[j].startedAt != startedAt
            case None => forall j | k <= j < |records| :: records[j].startedAt != startedAt
    decreases |records| - k
  {
    if k == |records| then None else if records[k].startedAt == startedAt then Some(k) else FindRun(records, startedAt, k + 1)
  }

  function FindBare(records: seq<Record>, k: nat): (r: Option<nat>)
    requires k <= |records|
    ensures match r
            case Some(i) => k <= i < |records| && records[i].cgroup.None? && forall j | k <= j < i :: records[j].cgroup.Some?
            case None => forall j | k <= j < |records| :: records[j].cgroup.Some?
    decreases |records| - k
  {
    if k == |records| then None else if records[k].cgroup.None? then Some(k) else FindBare(records, k + 1)
  }

  function Without(records: seq<Record>, i: nat): seq<Record>
    requires i < |records|
  {
    records[..i] + records[i + 1..]
  }

  // Over the bound the oldest records without an identity go.
  function Evicted(records: seq<Record>): seq<Record>
    decreases |records|
  {
    if |records| <= MAX_RECORDS then records
    else
      match FindBare(records, 0)
      case None => records
      case Some(i) => Evicted(Without(records, i))
  }

  function Appended(records: seq<Record>, r: Record): seq<Record> {
    Evicted(records + [r])
  }

  function Observed(records: seq<Record>, id: string, now: Time): seq<Record> {
    match FindProvisional(records, 0)
    case Some(i) => records[i := records[i].(observed := now)]
    case None => Appended(records, Record(id, "", None, Provisional, now, now, false))
  }

  // The record of the same run, else a provisional one.
  function ToVerify(records: seq<Record>, startedAt: string): Option<nat> {
    var same := FindRun(records, startedAt, 0);
    if same.Some? then same else FindProvisional(records, 0)
  }

  function VerifiedRecord(r: Record, startedAt: string, cgroup: RunCgroup): Record {
    r.(startedAt := startedAt, cgroup := Some(cgroup), revoked := false, state := if r.state == Terminal then Terminal else Verified)
  }

  function VerifiedRun(records: seq<Record>, id: string, startedAt: string, cgroup: RunCgroup, now: Time): seq<Record>
  {
    match ToVerify(records, startedAt)
    case Some(i) => if i < |records| then records[i := VerifiedRecord(records[i], startedAt, cgroup)] else records
    case None => Appended(records, Record(id, startedAt, Some(cgroup), Verified, now, NEVER, false))
  }

  // A run an end event may be about: identified, and started no later.
  predicate Candidate(parse: Parser, r: Record, eventTime: Time) {
    r.state != Provisional && r.cgroup.Some? && Started(parse, r).Some? && Started(parse, r).value <= eventTime
  }

  // The candidate with the latest start; the first of equals.
  ghost predicate Latest(parse: Parser, records: seq<Record>, eventTime: Time, i: nat) {
    && i < |records| && Candidate(parse, records[i], eventTime)
    && forall j | 0 <= j < |records| && Candidate(parse, records[j], eventTime) ::
         && Started(parse, records[j]).value <= Started(parse, records[i]).value
         && (j < i ==> Started(parse, records[j]).value < Started(parse, records[i]).value)
  }

  function Ended(r: Record): Record {
    r.(state := Terminal)
  }

  function EndedProvisional(records: seq<Record>): (r: seq<Record>)
    ensures |r| == |records|
    ensures forall k | 0 <= k < |records| :: r[k] == if records[k].state == Provisional then Ended(records[k]) else records[k]
  {
    if |records| == 0 then []
    else [if records[0].state == Provisional then Ended(records[0]) else records[0]] + EndedProvisional(records[1..])
  }

  function ProvisionalEnded(records: seq<Record>): seq<Record> {
    if |records| == 0 then []
    else (if records[0].state == Provisional then [Ended(records[0])] else []) + ProvisionalEnded(records[1..])
  }

  // An end of run: the latest candidate ends, or with none every provisional record.
  ghost predicate TerminatedTo(parse: Parser, records: seq<Record>, eventTime: Time, after: seq<Record>, returned: seq<Record>) {
    || (exists i: nat | i < |records| ::
          Latest(parse, records, eventTime, i) && after == records[i := Ended(records[i])] && returned == [Ended(records[i])])
    || (&& (forall i | 0 <= i < |records| :: !Candidate(parse, records[i], eventTime))
        && after == EndedProvisional(records) && returned == ProvisionalEnded(records))
  }

  function MarkEach(records: seq<Record>, startedAt: string, revoke: bool): (r: seq<Record>)
    ensures |r| == |records|
    ensures forall k | 0 <= k < |records| ::
              r[k] == if records[k].startedAt != startedAt then records[k]
                      else if !revoke then Ended(records[k])
                      else if records[k].state == Terminal then records[k].(revoked := true)
                      else records[k]
  {
    if |records| == 0 then []
    else
      [if records[0].startedAt != startedAt then records[0]
       else if !revoke then Ended(records[0])
       else if records[0].state == Terminal then records[0].(revoked := true)
       else records[0]]
      + MarkEach(records[1..], startedAt, revoke)
  }

  predicate SameRecord(a: Record, b: Record) {
    a.startedAt == b.startedAt && a.firstSeen == b.firstSeen
  }

  function Retained(records: seq<Record>, released: Record): seq<Record> {
    if |records| == 0 then []
    else (if SameRecord(records[0], released) then [] else [records[0]]) + Retained(records[1..], released)
  }

  // --- What every operation keeps ----------------------------------------------------------------------

  // At most one provisional record, which knows neither start nor cgroup; one record per known start
  // time; and within the bound unless every record holds an identity.
  ghost predicate Ok(records: seq<Record>) {
    && (forall i | 0 <= i < |records| && records[i].state == Provisional :: records[i].startedAt == "" && records[i].cgroup.None?)
    && (forall i, j | 0 <= i < j < |records| :: !(records[i].state == Provisional && records[j].state == Provisional))
    && (forall i, j | 0 <= i < j < |records| && records[i].startedAt != "" :: records[i].startedAt != records[j].startedAt)
    && (|records| <= MAX_RECORDS || forall i | 0 <= i < |records| :: records[i].cgroup.Some?)
  }

  // The same, without the bound.
  ghost predicate Distinct(records: seq<Record>) {
    && (forall i | 0 <= i < |records| && records[i].state == Provisional :: records[i].startedAt == "" && records[i].cgroup.None?)
    && (forall i, j | 0 <= i < j < |records| :: !(records[i].state == Provisional && records[j].state == Provisional))
    && (forall i, j | 0 <= i < j < |records| && records[i].startedAt != "" :: records[i].startedAt != records[j].startedAt)
  }

  // The records that hold an identity, told apart by start time and creation time.
  function Identified(records: seq<Record>): multiset<(string, Time)> {
    if |records| == 0 then multiset{}
    else (if records[0].cgroup.Some? then multiset{(records[0].startedAt, records[0].firstSeen)} else multiset{}) + Identified(records[1..])
  }

  lemma WithoutDistinct(records: seq<Record>, i: nat)
    requires Distinct(records) && i < |records|
    ensures Distinct(Without(records, i))
  {
    var rest := Without(records, i);
    assert forall k | 0 <= k < |rest| :: rest[k] == records[if k < i then k else k + 1];
  }

  lemma {:induction false} EvictedOk(records: seq<Record>)
    requires Distinct(records)
    ensures Ok(Evicted(records))
    decreases |records|
  {
    hide FindBare;
    if |records| > MAX_RECORDS {
      match FindBare(records, 0)
      case None =>
      case Some(i) =>
        WithoutDistinct(records, i);
        EvictedOk(Without(records, i));
    }
  }

  lemma {:induction false} IdentifiedJoins(a: seq<Record>, b: seq<Record>)
    ensures Identified(a + b) == Identified(a) + Identified(b)
  {
    if |a| == 0 {
      assert a + b == b;
    } else {
      assert (a + b)[0] == a[0] && (a + b)[1..] == a[1..] + b;
      IdentifiedJoins(a[1..], b);
    }
  }

  lemma IdentifiedAt(records: seq<Record>, i: nat)
    requires i < |records|
    ensures Identified(records) == Identified(records[..i]) + Identified([records[i]]) + Identified(records[i + 1..])
  {
    hide Identified;
    var a, b, c := records[..i], [records[i]], records[i + 1..];
    assert records == a + b + c;
    IdentifiedJoins(a + b, c);
    IdentifiedJoins(a, b);
  }

  lemma {:induction false} EvictedKeeps(records: seq<Record>)
    ensures Identified(Evicted(records)) == Identified(records)
    decreases |records|
  {
    hide FindBare, Identified;
    if |records| > MAX_RECORDS {
      match FindBare(records, 0)
      case None =>
      case Some(i) =>
        IdentifiedAt(records, i);
        BareCounts(records[i]);
        IdentifiedJoins(records[..i], records[i + 1..]);
        EvictedKeeps(Without(records, i));
    }
  }

  lemma BareCounts(r: Record)
    ensures Identified([r]) == if r.cgroup.Some? then multiset{(r.startedAt, r.firstSeen)} else multiset{}
  {
    assert [r][1..] == [];
  }

  // Replacing a record by one that keeps its identity, or gains one.
  lemma UpdateKeeps(records: seq<Record>, i: nat, r: Record)
    requires i < |records|
    requires records[i].cgroup.Some? ==> r.cgroup.Some? && r.startedAt == records[i].startedAt && r.firstSeen == records[i].firstSeen
    ensures Identified(records) <= Identified(records[i := r])
  {
    hide Identified;
    var next := records[i := r];
    IdentifiedAt(records, i);
    IdentifiedAt(next, i);
    assert next[..i] == records[..i] && next[i + 1..] == records[i + 1..];
    BareCounts(records[i]);
    BareCounts(r);
  }

  // The same identities at the same positions.
  lemma {:induction false} EachKeeps(a: seq<Record>, b: seq<Record>)
    requires |a| == |b|
    requires forall k | 0 <= k < |a| :: b[k].cgroup == a[k].cgroup && b[k].startedAt == a[k].startedAt && b[k].firstSeen == a[k].firstSeen
    ensures Identified(a) == Identified(b)
  {
    if |a| > 0 {
      EachKeeps(a[1..], b[1..]);
    }
  }

  // --- The operations ------------------------------------------------------------------------------------

  lemma ObservedOk(records: seq<Record>, id: string, now: Time)
    requires Ok(records)
    ensures Ok(Observed(records, id, now)) && Identified(records) <= Identified(Observed(records, id, now))
  {
    hide Identified, Evicted, FindProvisional;
    match FindProvisional(records, 0)
    case Some(i) =>
      UpdateKeeps(records, i, records[i].(observed := now));
    case None =>
      var r := Record(id, "", None, Provisional, now, now, false);
      AppendOk(records, r);
  }

  lemma AppendOk(records: seq<Record>, r: Record)
    requires Ok(records) && Distinct(records + [r])
    ensures Ok(Appended(records, r)) && Identified(records) <= Identified(Appended(records, r))
  {
    hide Identified, Evicted;
    EvictedOk(records + [r]);
    EvictedKeeps(records + [r]);
    IdentifiedJoins(records, [r]);
  }

  lemma VerifiedOk(records: seq<Record>, id: string, startedAt: string, cgroup: RunCgroup, now: Time)
    requires Ok(records)
    ensures Ok(VerifiedRun(records, id, startedAt, cgroup, now))
    ensures Identified(records) <= Identified(VerifiedRun(records, id, startedAt, cgroup, now))
  {
    hide Identified, Evicted, FindProvisional, FindRun;
    match ToVerify(records, startedAt)
    case Some(i) =>
      UpdateKeeps(records, i, VerifiedRecord(records[i], startedAt, cgroup));
    case None =>
      AppendOk(records, Record(id, startedAt, Some(cgroup), Verified, now, NEVER, false));
  }

  lemma TerminatedOk(parse: Parser, records: seq<Record>, eventTime: Time, after: seq<Record>, returned: seq<Record>)
    requires Ok(records) && TerminatedTo(parse, records, eventTime, after, returned)
    ensures Ok(after) && Identified(after) == Identified(records)
    ensures forall i | 0 <= i < |records| && records[i].cgroup.Some? && Started(parse, records[i]).Some?
                       && Started(parse, records[i]).value > eventTime :: after[i] == records[i]
  {
    hide Identified, EndedProvisional, ProvisionalEnded;
    if i: nat :| i < |records| && Latest(parse, records, eventTime, i) && after == records[i := Ended(records[i])] {
      EachKeeps(records, after);
    } else {
      EachKeeps(records, after);
    }
  }

  lemma MarkedOk(records: seq<Record>, startedAt: string, revoke: bool)
    requires Ok(records)
    ensures Ok(MarkEach(records, startedAt, revoke)) && Identified(MarkEach(records, startedAt, revoke)) == Identified(records)
  {
    hide Identified, MarkEach;
    EachKeeps(records, MarkEach(records, startedAt, revoke));
  }

  // Release removes the records it names and no other.
  lemma {:induction false} RetainedMeans(records: seq<Record>, released: Record)
    ensures forall r :: r in Retained(records, released) <==> r in records && !SameRecord(r, released)
    ensures |Retained(records, released)| <= |records|
  {
    if |records| > 0 {
      RetainedMeans(records[1..], released);
      assert forall r :: r in records <==> r == records[0] || r in records[1..];
    }
  }

  lemma {:induction false} RetainedOk(records: seq<Record>, released: Record)
    requires Ok(records)
    ensures Ok(Retained(records, released))
    decreases |records|
  {
    if |records| > 0 {
      RetainedDistinct(records, released);
      RetainedMeans(records, released);
      var after := Retained(records, released);
      if |after| > MAX_RECORDS {
        forall i | 0 <= i < |after|
          ensures after[i].cgroup.Some?
        {
          assert after[i] in records;
        }
      }
    }
  }

  lemma {:induction false} RetainedDistinct(records: seq<Record>, released: Record)
    requires Distinct(records)
    ensures Distinct(Retained(records, released))
    decreases |records|
  {
    hide Distinct;
    if |records| == 0 {
      NoneDistinct();
    } else {
      var rest := records[1..];
      TailDistinct(records);
      RetainedDistinct(rest, released);
      RetainedMeans(rest, released);
      var later := Retained(rest, released);
      assert forall i | 0 <= i < |later| :: later[i] in rest;
      assert [records[0]] + rest == records;
      if !SameRecord(records[0], released) {
        ConsDistinct(records[0], later, rest);
      } else {
        assert [] + later == later;
      }
    }
  }

  lemma TailDistinct(records: seq<Record>)
    requires |records| > 0 && Distinct(records)
    ensures Distinct(records[1..])
  {
    var rest := records[1..];
    assert forall i | 0 <= i < |rest| :: rest[i] == records[i + 1];
  }

  lemma NoneDistinct()
    ensures Distinct([])
  {
  }

  lemma ConsDistinct(r: Record, later: seq<Record>, rest: seq<Record>)
    requires Distinct([r] + rest) && Distinct(later) && forall i | 0 <= i < |later| :: later[i] in rest
    ensures Distinct([r] + later)
  {
    var all, known := [r] + later, [r] + rest;
    forall i | 0 <= i < |later|
      ensures !(r.state == Provisional && later[i].state == Provisional)
      ensures r.startedAt != "" ==> r.startedAt != later[i].startedAt
    {
      var k :| 0 <= k < |rest| && rest[k] == later[i];
      assert known[0] == r && known[k + 1] == later[i];
    }
    assert known[0] == r;
  }

  // With a known start time release removes at most the one record.
  lemma ReleaseRemovesOne(records: seq<Record>, i: nat)
    requires Ok(records) && i < |records| && records[i].startedAt != ""
    ensures Retained(records, records[i]) == Without(records, i)
  {
    var r := records[i];
    forall k | 0 <= k < |records|
      ensures SameRecord(records[k], r) <==> k == i
    {
      if k < i {
        assert records[i].startedAt != "" && (records[k].startedAt != "" ==> records[k].startedAt != records[i].startedAt);
      }
    }
    RetainedSplit(records, r, i);
  }

  lemma {:induction false} RetainedSplit(records: seq<Record>, r: Record, i: nat)
    requires i < |records| && forall k | 0 <= k < |records| :: SameRecord(records[k], r) <==> k == i
    ensures Retained(records, r) == Without(records, i)
    decreases |records|
  {
    var rest := records[1..];
    assert forall k | 0 <= k < |rest| :: rest[k] == records[k + 1];
    if i == 0 {
      RetainedAll(rest, r);
      assert Without(records, 0) == rest;
    } else {
      RetainedSplit(rest, r, i - 1);
      assert Without(records, i) == [records[0]] + Without(rest, i - 1);
    }
  }

  lemma {:induction false} RetainedAll(records: seq<Record>, r: Record)
    requires forall k | 0 <= k < |records| :: !SameRecord(records[k], r)
    ensures Retained(records, r) == records
  {
    if |records| > 0 {
      assert forall k | 0 <= k < |records[1..]| :: records[1..][k] == records[k + 1];
      RetainedAll(records[1..], r);
    }
  }

  // --- Whole runs ------------------------------------------------------------------------------------------

  datatype Op =
    | Observe(now: Time)
    | Verify(startedAt: string, cgroup: RunCgroup, now: Time)
    | Terminate(eventTime: Time)
    | Mark(startedAt: string, revoke: bool)
    | Release(released: Record)

  ghost predicate Step(parse: Parser, id: string, records: seq<Record>, op: Op, after: seq<Record>) {
    match op
    case Observe(now) => after == Observed(records, id, now)
    case Verify(startedAt, cgroup, now) => after == VerifiedRun(records, id, startedAt, cgroup, now)
    case Terminate(eventTime) => exists returned :: TerminatedTo(parse, records, eventTime, after, returned)
    case Mark(startedAt, revoke) => after == MarkEach(records, startedAt, revoke)
    case Release(released) => after == Retained(records, released)
  }

  // Every operation keeps the history as it should be, and only release removes a record that holds
  // an identity.
  lemma StepKeeps(parse: Parser, id: string, records: seq<Record>, op: Op, after: seq<Record>)
    requires Ok(records) && Step(parse, id, records, op, after)
    ensures Ok(after)
    ensures !op.Release? ==> Identified(records) <= Identified(after)
  {
    hide Ok, Identified, Observed, VerifiedRun, MarkEach, Retained, TerminatedTo;
    match op
    case Observe(now) => ObservedOk(records, id, now);
    case Verify(startedAt, cgroup, now) => VerifiedOk(records, id, startedAt, cgroup, now);
    case Terminate(eventTime) =>
      var returned :| TerminatedTo(parse, records, eventTime, after, returned);
      TerminatedOk(parse, records, eventTime, after, returned);
    case Mark(startedAt, revoke) => MarkedOk(records, startedAt, revoke);
    case Release(released) => RetainedOk(records, released);
  }

  ghost predicate Run(parse: Parser, id: string, states: seq<seq<Record>>, ops: seq<Op>) {
    && |states| == |ops| + 1 && states[0] == []
    && forall i | 0 <= i < |ops| :: Step(parse, id, states[i], ops[i], states[i + 1])
  }

  lemma {:induction false} RunKeeps(parse: Parser, id: string, states: seq<seq<Record>>, ops: seq<Op>, i: nat)
    requires Run(parse, id, states, ops) && i < |states|
    ensures Ok(states[i])
  {
    hide Ok, Step;
    if i == 0 {
      assert Ok([]) by { EmptyOk(); }
    } else {
      RunKeeps(parse, id, states, ops, i - 1);
      StepKeeps(parse, id, states[i - 1], ops[i - 1], states[i]);
    }
  }

  // Over any run of operations: an end event never ends an identified run that started after it.
  lemma EndNeverEndsLater(parse: Parser, id: string, states: seq<seq<Record>>, ops: seq<Op>, i: nat, k: nat)
    requires Run(parse, id, states, ops) && i < |ops| && ops[i].Terminate? && k < |states[i]|
    requires states[i][k].cgroup.Some? && Started(parse, states[i][k]).Some? && Started(parse, states[i][k]).value > ops[i].eventTime
    ensures k < |states[i + 1]| && states[i + 1][k] == states[i][k]
  {
    RunKeeps(parse, id, states, ops, i);
    assert Step(parse, id, states[i], ops[i], states[i + 1]);
    hide Ok, Run, Identified;
    var returned :| TerminatedTo(parse, states[i], ops[i].eventTime, states[i + 1], returned);
    TerminatedOk(parse, states[i], ops[i].eventTime, states[i + 1], returned);
  }

  // And only release removes a record that holds an identity.
  lemma OnlyReleaseRemoves(parse: Parser, id: string, states: seq<seq<Record>>, ops: seq<Op>, i: nat)
    requires Run(parse, id, states, ops) && i < |ops| && !ops[i].Release?
    ensures Identified(states[i]) <= Identified(states[i + 1])
  {
    hide Ok, Step, Identified;
    RunKeeps(parse, id, states, ops, i);
    StepKeeps(parse, id, states[i], ops[i], states[i + 1]);
  }

  lemma EmptyOk()
    ensures Ok([])
  {
  }

  // --- What an end of run is documented to do ----------------------------------------------------------

  // The documentation speaks of verified records only.
  predicate VerifiedCandidate(parse: Parser, r: Record, eventTime: Time) {
    r.state == Verified && Candidate(parse, r, eventTime)
  }

  // A verified record with the latest start not after the event ends; with none, every provisional one.
  ghost predicate DocumentedEnd(parse: Parser, records: seq<Record>, eventTime: Time, after: seq<Record>, returned: seq<Record>) {
    || (exists i: nat | i < |records| && VerifiedCandidate(parse, records[i], eventTime) ::
          && (forall j | 0 <= j < |records| && VerifiedCandidate(parse, records[j], eventTime) ::
                Started(parse, records[j]).value <= Started(parse, records[i]).value)
          && after == records[i := Ended(records[i])] && returned == [Ended(records[i])])
    || (&& (forall i | 0 <= i < |records| :: !VerifiedCandidate(parse, records[i], eventTime))
        && after == EndedProvisional(records) && returned == ProvisionalEnded(records))
  }

  // What a caller can look up before the event: no run that has ended is a candidate, or the latest
  // candidate is a verified one.
  ghost predicate NoEndedRunShadows(parse: Parser, records: seq<Record>, eventTime: Time) {
    || (forall i | 0 <= i < |records| && records[i].state == Terminal :: !Candidate(parse, records[i], eventTime))
    || (exists i: nat | i < |records| :: Latest(parse, records, eventTime, i) && records[i].state == Verified)
  }

  lemma ProvisionalStay(records: seq<Record>)
    requires EndedProvisional(records) == records
    ensures ProvisionalEnded(records) == []
  {
    if |records| > 0 {
      assert records[0].state != Provisional by {
        assert EndedProvisional(records)[0] == records[0];
      }
      assert forall k | 0 <= k < |records[1..]| :: EndedProvisional(records)[k + 1] == records[1..][k];
      assert EndedProvisional(records[1..]) == records[1..];
      ProvisionalStay(records[1..]);
    }
  }

  // With a verified run the latest candidate, it is the one that ends.
  lemma VerifiedEnds(parse: Parser, records: seq<Record>, eventTime: Time, i: nat)
    requires Latest(parse, records, eventTime, i) && records[i].state == Verified
    ensures DocumentedEnd(parse, records, eventTime, records[i := Ended(records[i])], [Ended(records[i])])
  {
    hide Started, EndedProvisional, ProvisionalEnded;
    assert VerifiedCandidate(parse, records[i], eventTime);
  }

  // With an ended one it is returned again and nothing ends, as never documented.
  lemma EndedStays(parse: Parser, records: seq<Record>, eventTime: Time, i: nat)
    requires i < |records| && records[i].state == Terminal
    ensures !DocumentedEnd(parse, records, eventTime, records, [records[i]])
  {
    hide Started, EndedProvisional, ProvisionalEnded, Candidate;
    if EndedProvisional(records) == records {
      ProvisionalStay(records);
    }
  }

  // An end of run does what is documented if and only if no ended run shadows the one it is about.
  lemma EndsAsDocumentedIff(parse: Parser, records: seq<Record>, eventTime: Time, after: seq<Record>, returned: seq<Record>)
    requires TerminatedTo(parse, records, eventTime, after, returned)
    ensures DocumentedEnd(parse, records, eventTime, after, returned) <==> NoEndedRunShadows(parse, records, eventTime)
  {
    hide EndedProvisional, ProvisionalEnded, Candidate, DocumentedEnd;
    if forall i | 0 <= i < |records| :: !Candidate(parse, records[i], eventTime) {
      NothingShadows(parse, records, eventTime, after, returned);
    } else {
      var i: nat :| i < |records| && Latest(parse, records, eventTime, i) && after == records[i := Ended(records[i])]
                    && returned == [Ended(records[i])];
      OneLatest(parse, records, eventTime, i);
      NotProvisional(parse, records[i], eventTime);
      if records[i].state == Terminal {
        assert after == records && returned == [records[i]];
        EndedStays(parse, records, eventTime, i);
      } else {
        VerifiedEnds(parse, records, eventTime, i);
      }
    }
  }

  lemma NotProvisional(parse: Parser, r: Record, eventTime: Time)
    requires Candidate(parse, r, eventTime)
    ensures r.state != Provisional
  {
  }

  lemma NothingShadows(parse: Parser, records: seq<Record>, eventTime: Time, after: seq<Record>, returned: seq<Record>)
    requires TerminatedTo(parse, records, eventTime, after, returned)
    requires forall i | 0 <= i < |records| :: !Candidate(parse, records[i], eventTime)
    ensures DocumentedEnd(parse, records, eventTime, after, returned) && NoEndedRunShadows(parse, records, eventTime)
  {
    hide EndedProvisional, ProvisionalEnded, Candidate;
  }

  lemma OneLatest(parse: Parser, records: seq<Record>, eventTime: Time, i: nat)
    requires Latest(parse, records, eventTime, i)
    ensures forall j: nat | Latest(parse, records, eventTime, j) :: j == i
  {
  }

  // Start times written as one digit, enough for the histories below.
  function Digit(text: string): Option<Time> {
    if |text| == 1 && '0' <= text[0] <= '9' then Some((text[0] - '0') as int) else None
  }

  lemma ReturnedAgain(parse: Parser, records: seq<Record>, eventTime: Time)
    requires |records| > 0 && records[0].state == Terminal && Latest(parse, records, eventTime, 0)
    ensures TerminatedTo(parse, records, eventTime, records, [records[0]])
    ensures forall returned | TerminatedTo(parse, records, eventTime, records, returned) ::
              !DocumentedEnd(parse, records, eventTime, records, returned)
  {
    hide Candidate, DocumentedEnd, EndedProvisional, ProvisionalEnded;
    assert records[0 := Ended(records[0])] == records;
    OneLatest(parse, records, eventTime, 0);
    forall returned | TerminatedTo(parse, records, eventTime, records, returned)
      ensures !DocumentedEnd(parse, records, eventTime, records, returned)
    {
      EndsAsDocumentedIff(parse, records, eventTime, records, returned);
    }
  }

  lemma FourSteps(parse: Parser, id: string, states: seq<seq<Record>>, ops: seq<Op>)
    requires |states| == 5 && |ops| == 4 && states[0] == []
    requires Step(parse, id, states[0], ops[0], states[1]) && Step(parse, id, states[1], ops[1], states[2])
    requires Step(parse, id, states[2], ops[2], states[3]) && Step(parse, id, states[3], ops[3], states[4])
    ensures Run(parse, id, states, ops)
  {
    hide Step;
  }

  lemma VerifiedAdded(records: seq<Record>, id: string, startedAt: string, cgroup: RunCgroup)
    requires |records| < MAX_RECORDS
    requires forall k | 0 <= k < |records| :: records[k].startedAt != startedAt && records[k].state != Provisional
    ensures VerifiedRun(records, id, startedAt, cgroup, 0) == records + [Record(id, startedAt, Some(cgroup), Verified, 0, NEVER, false)]
  {
    hide FindRun, FindProvisional;
  }

  lemma ProvisionalAdded(records: seq<Record>, id: string)
    requires |records| < MAX_RECORDS && forall k | 0 <= k < |records| :: records[k].state != Provisional
    ensures Observed(records, id, 2) == records + [Record(id, "", None, Provisional, 2, 2, false)]
  {
    hide FindProvisional;
  }

  // A verified run marked as ended.
  lemma MarkedEnded(r: Record)
    requires r.state == Verified
    ensures MarkEach([r], r.startedAt, false) == [Ended(r)] && Ended(r).state == Terminal
  {
    assert [r][1..] == [];
  }

  // An ended run with a candidate's start and identity, before a record that started earlier or not.
  lemma FirstIsLatest(a: Record, b: Record, eventTime: Time)
    requires Candidate(Digit, a, eventTime) && (Candidate(Digit, b, eventTime) ==> Started(Digit, b).value < Started(Digit, a).value)
    ensures Latest(Digit, [a, b], eventTime, 0)
  {
    assert [a, b][0] == a && [a, b][1] == b;
  }

  // A run that started at 2 has ended and one that started at 1 has not: an end event at 3 returns the
  // ended one again and leaves the other alone.
  lemma EndedRunShadowsVerified(id: string, cgroup: RunCgroup) returns (states: seq<seq<Record>>, ops: seq<Op>)
    ensures Run(Digit, id, states, ops) && |ops| == 4 && ops[3] == Terminate(3)
    ensures states[4] == states[3] && |states[3]| == 2 && VerifiedCandidate(Digit, states[3][1], 3)
    ensures forall returned | TerminatedTo(Digit, states[3], 3, states[4], returned) :: !DocumentedEnd(Digit, states[3], 3, states[4], returned)
  {
    hide VerifiedRun, Observed, MarkEach, Retained, TerminatedTo, DocumentedEnd, Latest, Run;
    var first := Record(id, "2", Some(cgroup), Verified, 0, NEVER, false);
    var second := Record(id, "1", Some(cgroup), Verified, 0, NEVER, false);
    ops := [Verify("2", cgroup, 0), Mark("2", false), Verify("1", cgroup, 0), Terminate(3)];
    var history := [Ended(first), second];
    states := [[], [first], [Ended(first)], history, history];
    VerifiedAdded([], id, "2", cgroup);
    MarkedEnded(first);
    VerifiedAdded([Ended(first)], id, "1", cgroup);
    FirstIsLatest(Ended(first), second, 3);
    ReturnedAgain(Digit, history, 3);
    FourSteps(Digit, id, states, ops);
  }

  // An identified run that started at 1 has ended and the next one is provisional: an end event at 3
  // returns the ended one again and the provisional one goes on.
  lemma EndedRunShadowsProvisional(id: string, cgroup: RunCgroup) returns (states: seq<seq<Record>>, ops: seq<Op>)
    ensures Run(Digit, id, states, ops) && |ops| == 4 && ops[3] == Terminate(3)
    ensures states[4] == states[3] && |states[3]| == 2 && states[3][1].state == Provisional
    ensures forall returned | TerminatedTo(Digit, states[3], 3, states[4], returned) :: !DocumentedEnd(Digit, states[3], 3, states[4], returned)
  {
    hide VerifiedRun, Observed, MarkEach, Retained, TerminatedTo, DocumentedEnd, Latest, Run;
    var first := Record(id, "1", Some(cgroup), Verified, 0, NEVER, false);
    var second := Record(id, "", None, Provisional, 2, 2, false);
    ops := [Verify("1", cgroup, 0), Mark("1", false), Observe(2), Terminate(3)];
    var history := [Ended(first), second];
    states := [[], [first], [Ended(first)], history, history];
    VerifiedAdded([], id, "1", cgroup);
    MarkedEnded(first);
    ProvisionalAdded([Ended(first)], id);
    FirstIsLatest(Ended(first), second, 3);
    ReturnedAgain(Digit, history, 3);
    FourSteps(Digit, id, states, ops);
  }

  // --- In place ----------------------------------------------------------------------------------------------

  class Lifecycles {
    var byId: map<string, seq<Record>>

    ghost predicate Valid()
      reads this
    {
      forall id | id in byId :: byId[id] != [] && Ok(byId[id])
    }

    function Records(id: string): seq<Record>
      reads this
    {
      if id in byId then byId[id] else []
    }

    twostate predicate OthersKept(id: string)
      reads this
    {
      forall other | other != id :: Records(other) == old(Records(other))
    }

    constructor ()
      ensures Valid() && byId == map[]
    {
      byId := map[];
    }

    method Append(id: string, r: Record)
      requires Valid() && Distinct(Records(id) + [r])
      modifies this
      ensures Valid() && Records(id) == Appended(old(Records(id)), r) && OthersKept(id)
    {
      hide FindBare;
      var records := Records(id) + [r];
      ghost var start := records;
      EvictedOk(records);
      while |records| > MAX_RECORDS
        invariant |records| > 0 && Evicted(start) == Evicted(records)
        decreases |records|
      {
        var index := FindBare(records, 0);
        if index.None? {
          break;
        }
        records := records[..index.value] + records[index.value + 1..];
      }
      assert records == Evicted(start);
      byId := byId[id := records];
    }

    lemma RecordsOk(id: string)
      requires Valid()
      ensures Ok(Records(id))
    {
      EmptyOk();
    }

    // Creates or refreshes the provisional record of a container an inspect could not report on.
    method SetProvisional(id: string, now: Time)
      requires Valid()
      modifies this
      ensures Valid() && Records(id) == Observed(old(Records(id)), id, now) && OthersKept(id)
    {
      hide FindProvisional, Evicted, Ok, Distinct, Identified;
      var records := Records(id);
      RecordsOk(id);
      ObservedOk(records, id, now);
      var index := FindProvisional(records, 0);
      if index.Some? {
        byId := byId[id := records[index.value := records[index.value].(observed := now)]];
        return;
      }
      NewProvisional(records, id, now);
      Append(id, Record(id, "", None, Provisional, now, now, false));
    }

    // Upgrades the record of the same run, else a provisional record, else adds a record.
    method SetVerified(id: string, startedAt: string, cgroup: RunCgroup, now: Time)
      requires Valid()
      modifies this
      ensures Valid() && Records(id) == VerifiedRun(old(Records(id)), id, startedAt, cgroup, now) && OthersKept(id)
    {
      hide FindProvisional, FindRun, Evicted, Ok, Distinct, Identified;
      var records := Records(id);
      RecordsOk(id);
      VerifiedOk(records, id, startedAt, cgroup, now);
      var found := FindRun(records, startedAt, 0);
      if found.None? {
        found := FindProvisional(records, 0);
      }
      if found.None? {
        NewVerified(records, id, startedAt, cgroup, now);
        Append(id, Record(id, startedAt, Some(cgroup), Verified, now, NEVER, false));
        return;
      }
      var r := records[found.value].(startedAt := startedAt, cgroup := Some(cgroup), revoked := false);
      if r.state != Terminal {
        r := r.(state := Verified);
      }
      assert r == VerifiedRecord(records[found.value], startedAt, cgroup);
      byId := byId[id := records[found.value := r]];
    }

    // Ends the identified run with the latest start not after the event, or else the provisional ones.
    method End(parse: Parser, id: string, eventTime: Time) returns (returned: seq<Record>)
      requires Valid()
      modifies this
      ensures Valid() && TerminatedTo(parse, old(Records(id)), eventTime, Records(id), returned) && OthersKept(id)
    {
      hide Ok, Identified, Latest, Candidate;
      var records := Records(id);
      RecordsOk(id);
      if id !in byId {
        NothingToEnd(parse, eventTime);
        return [];
      }
      var matched := LatestCandidate(parse, records, eventTime);
      if matched.Some? {
        var i := matched.value;
        returned := [Ended(records[i])];
        TerminatedOk(parse, records, eventTime, records[i := Ended(records[i])], returned);
        byId := byId[id := records[i := Ended(records[i])]];
        return;
      }
      var after: seq<Record>;
      after, returned := EndProvisional(records);
      TerminatedOk(parse, records, eventTime, after, returned);
      byId := byId[id := after];
    }

    method MarkRun(id: string, startedAt: string, revoke: bool)
      requires Valid()
      modifies this
      ensures Valid() && Records(id) == MarkEach(old(Records(id)), startedAt, revoke) && OthersKept(id)
    {
      if id in byId {
        MarkedOk(byId[id], startedAt, revoke);
        byId := byId[id := MarkEach(byId[id], startedAt, revoke)];
      }
    }

    // Removes the record `released` is a copy of.
    method Remove(released: Record)
      requires Valid()
      modifies this
      ensures Valid() && Records(released.container) == Retained(old(Records(released.container)), released)
      ensures OthersKept(released.container)
    {
      var id := released.container;
      if id !in byId {
        return;
      }
      RetainedOk(byId[id], released);
      var records := Retained(byId[id], released);
      if records == [] {
        byId := byId - {id};
      } else {
        byId := byId[id := records];
      }
    }
  }

  lemma NothingToEnd(parse: Parser, eventTime: Time)
    ensures TerminatedTo(parse, [], eventTime, [], [])
  {
  }

  lemma NewProvisional(records: seq<Record>, id: string, now: Time)
    requires Ok(records) && FindProvisional(records, 0).None?
    ensures Distinct(records + [Record(id, "", None, Provisional, now, now, false)])
  {
    hide FindProvisional;
  }

  lemma NewVerified(records: seq<Record>, id: string, startedAt: string, cgroup: RunCgroup, now: Time)
    requires Ok(records) && FindRun(records, startedAt, 0).None?
    ensures Distinct(records + [Record(id, startedAt, Some(cgroup), Verified, now, NEVER, false)])
  {
    hide FindRun;
  }

  method LatestCandidate(parse: Parser, records: seq<Record>, eventTime: Time) returns (matched: Option<nat>)
    ensures match matched
            case Some(i) => Latest(parse, records, eventTime, i)
            case None => forall i | 0 <= i < |records| :: !Candidate(parse, records[i], eventTime)
  {
    matched := None;
    var best := 0;
    for index := 0 to |records|
      invariant matched.None? ==> forall j | 0 <= j < index :: !Candidate(parse, records[j], eventTime)
      invariant matched.Some? ==>
                  && matched.value < index && Candidate(parse, records[matched.value], eventTime)
                  && Started(parse, records[matched.value]) == Some(best)
                  && forall j | 0 <= j < index && Candidate(parse, records[j], eventTime) ::
                       Started(parse, records[j]).value <= best && (j < matched.value ==> Started(parse, records[j]).value < best)
    {
      var record := records[index];
      if record.state == Provisional {
        continue;
      }
      var started := Started(parse, record);
      if started.None? {
        continue;
      }
      if record.cgroup.None? || started.value > eventTime {
        continue;
      }
      if matched.None? || started.value > best {
        matched, best := Some(index), started.value;
      }
    }
  }

  method EndProvisional(records: seq<Record>) returns (after: seq<Record>, returned: seq<Record>)
    ensures after == EndedProvisional(records) && returned == ProvisionalEnded(records)
  {
    hide EndedProvisional, ProvisionalEnded;
    after, returned := [], [];
    assert records[0..] == records;
    for k := 0 to |records|
      invariant |after| == k
      invariant forall j | 0 <= j < k :: after[j] == if records[j].state == Provisional then Ended(records[j]) else records[j]
      invariant ProvisionalEnded(records) == returned + ProvisionalEnded(records[k..])
    {
      EndedStep(records, k);
      ghost var later := ProvisionalEnded(records[k + 1..]);
      if records[k].state == Provisional {
        var r := Ended(records[k]);
        assert returned + ([r] + later) == (returned + [r]) + later;
        after, returned := after + [r], returned + [r];
      } else {
        after := after + [records[k]];
      }
    }
    EndedNothing(records);
  }

  lemma EndedStep(records: seq<Record>, k: nat)
    requires k < |records|
    ensures ProvisionalEnded(records[k..])
         == if records[k].state == Provisional then [Ended(records[k])] + ProvisionalEnded(records[k + 1..]) else ProvisionalEnded(records[k + 1..])
  {
    assert records[k..][1..] == records[k + 1..] && records[k..][0] == records[k];
    assert [] + ProvisionalEnded(records[k + 1..]) == ProvisionalEnded(records[k + 1..]);
  }

  lemma EndedNothing(records: seq<Record>)
    ensures ProvisionalEnded(records[|records|..]) == []
  {
  }
}
