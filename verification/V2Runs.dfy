/** Repeating the last pass of a run: over any passes and wipes that draw new nonces, a pass that
    succeeded has nothing left to do. */
module V2Runs {
  import opened Words
  import opened AsmCanonical
  import opened DeviceFilter
  import opened Owned
  import opened V2Plan
  import opened V2Conservation
  import opened V2Jobs
  import opened V2Pass
  import opened V2Meaning
  import opened V2Safety
  import opened V2Convergence
  import opened V2FixedPoint
  import opened V2Recovery

  // --- The keys a pass records --------------------------------------------------------------------------------------

  // No two of the moves' lineages that were ever wrapped share nonce and original.
  ghost predicate MoveKeysDistinct(moves: seq<Move>) {
    forall i, j | 0 <= i < j < |moves| :: moves[i].lineage.nonce == 0 || !SameLineageKey(moves[i].lineage, moves[j].lineage)
  }

  lemma {:induction false} RestoreLineages(groups: seq<WrapperGroup>, bares: seq<AttachedProg>, available: seq<bool>)
    requires |available| == |bares| && forall k | 0 <= k < |groups| :: |groups[k].members| > 0
    ensures var moves := RestoreMoves(groups, bares, available).0;
            |moves| == |groups| && forall i | 0 <= i < |moves| :: moves[i].lineage == LineageOf(groups[i])
    decreases |groups|
  {
    hide FindFree, IndicesOf;
    if |groups| > 0 {
      assert forall k | 0 <= k < |groups[1..]| :: groups[1..][k] == groups[k + 1];
      RestoreLineages(groups[1..], bares, RestoreMove(groups[0], bares, available).1);
    }
  }

  lemma {:induction false} FreeLineages(bares: seq<AttachedProg>, available: seq<bool>)
    requires |available| == |bares|
    ensures forall move | move in FreeMoves(bares, available) :: move.lineage.nonce == 0
  {
    if |bares| > 0 {
      FreeLineages(bares[1..], available[1..]);
    }
  }

  lemma {:induction false} BareRebuildLineages(hash: DigestFn, cached: seq<CachedLineage>, nonces: seq<U64>)
    requires RebuildMoves(hash, [], cached, nonces).Success?
    ensures var moves := RebuildMoves(hash, [], cached, nonces).value.0;
            |moves| == |cached| && forall i | 0 <= i < |moves| :: moves[i].lineage == cached[i]
  {
    hide GateOriginal;
    if |cached| > 0 {
      BareRebuildLineages(hash, cached[1..], nonces);
    }
  }

  lemma RestoredAttached(progs: seq<AttachedProg>)
    requires forall k | 0 <= k < |GroupsOf(progs)| :: |GroupsOf(progs)[k].members| > 0
    ensures var groups, moves := GroupsOf(progs), RestoreAll(GroupsOf(progs), BaresOf(progs));
            && MoveKeysDistinct(moves) && |groups| <= |moves|
            && (forall i | 0 <= i < |groups| :: moves[i].lineage == LineageOf(groups[i]))
            && forall i | |groups| <= i < |moves| :: moves[i].lineage.nonce == 0
  {
    hide GroupsOf, BaresOf, RestoreMoves, FreeMoves;
    var groups, bares := GroupsOf(progs), BaresOf(progs);
    GroupingSound(progs);
    var (moves, end) := RestoreMoves(groups, bares, AllFree(|bares|));
    RestoreLineages(groups, bares, AllFree(|bares|));
    FreeLineages(bares, end);
    NeverWrappedJoin(groups, moves, FreeMoves(bares, end));
  }

  lemma NeverWrappedJoin(groups: seq<WrapperGroup>, moves: seq<Move>, free: seq<Move>)
    requires KeysDistinct(groups) && |moves| == |groups| && forall i | 0 <= i < |moves| :: moves[i].lineage == LineageOf(groups[i])
    requires forall move | move in free :: move.lineage.nonce == 0
    ensures MoveKeysDistinct(moves + free)
    ensures forall i | |groups| <= i < |moves + free| :: (moves + free)[i].lineage.nonce == 0
  {
    assert forall i | 0 <= i < |free| :: free[i] in free;
  }

  // Taking every grant away keeps the keys as they were.
  lemma RestoredKeys(hash: DigestFn, progs: seq<AttachedProg>, entry: CacheEntry, nonces: seq<U64>)
    requires PassMoves(hash, [], progs, entry, nonces).Success? && (entry.rebuilding ==> CachedKeysDistinct(entry.lineages))
    ensures MoveKeysDistinct(PassMoves(hash, [], progs, entry, nonces).value)
  {
    hide GroupsOf, BaresOf, RestoreAll, RebuildMoves, Missing;
    GroupsNonEmpty(progs);
    RestoredAttached(progs);
    var groups, bares := GroupsOf(progs), BaresOf(progs);
    if entry.rebuilding {
      var missing := MissingLineages(entry.lineages, groups, bares);
      MissingKeys(entry.lineages, groups, bares, NoneUsed(|groups|), AllFree(|bares|));
      BareRebuildLineages(hash, missing, nonces);
      RestoredJoin(groups, RestoreAll(groups, bares), missing, RebuildMoves(hash, [], missing, nonces).value.0);
    }
  }

  lemma RestoredJoin(groups: seq<WrapperGroup>, moves: seq<Move>, missing: seq<CachedLineage>, more: seq<Move>)
    requires MoveKeysDistinct(moves) && |groups| <= |moves| && (forall i | 0 <= i < |groups| :: moves[i].lineage == LineageOf(groups[i]))
    requires forall i | |groups| <= i < |moves| :: moves[i].lineage.nonce == 0
    requires |more| == |missing| && (forall i | 0 <= i < |more| :: more[i].lineage == missing[i]) && CachedKeysDistinct(missing)
    requires forall g | 0 <= g < |groups| :: NoneOf(missing, groups[g])
    ensures MoveKeysDistinct(moves + more)
  {
    var all := moves + more;
    forall i, j | 0 <= i < j < |all|
      ensures all[i].lineage.nonce == 0 || !SameLineageKey(all[i].lineage, all[j].lineage)
    {
      if i < |groups| && j >= |moves| {
        assert NoneOf(missing, groups[i]) && missing[j - |moves|] in missing;
      }
    }
  }

  // --- Runs with new nonces --------------------------------------------------------------------------------------------

  // What passes with new nonces and wipes keep.
  ghost predicate Tidy(hash: DigestFn, s: Cgroup) {
    KernelOk(s.kernel) && CacheBare(hash, s.entry) && CachedKeysDistinct(s.entry.lineages)
  }

  // The nonce of the wrapper a program is, if it is one.
  ghost predicate HasNonce(hash: DigestFn, p: Prog, nonce: U64) {
    && Canonical(p.code).Some? && Parse(hash, Canonical(p.code).value).Success?
    && Parse(hash, Canonical(p.code).value).value.Some? && Parse(hash, Canonical(p.code).value).value.value.nonce == nonce
  }

  // The nonces a pass may draw are distinct, and neither attached nor cached.
  ghost predicate Fresh(hash: DigestFn, s: Cgroup, env: Env) {
    && (forall i, j | 0 <= i < j < |env.nonces| :: env.nonces[i] != env.nonces[j])
    && (forall p, nonce | p in s.kernel.attached && HasNonce(hash, p, nonce) :: nonce !in env.nonces)
    && (forall l | l in s.entry.lineages && l.nonce != 0 :: l.nonce !in env.nonces)
  }

  ghost predicate FreshRun(hash: DigestFn, s: Cgroup, events: seq<Event>)
    decreases |events|
  {
    |events| > 0 ==>
      && (events[0].PassRun? ==> Fresh(hash, s, events[0].env))
      && FreshRun(hash, Next(hash, s, events[0]), events[1..])
  }

  lemma ClassifiedNonce(hash: DigestFn, p: Prog, a: AttachedProg)
    requires ClassifiedAs(hash, p, a) && a.owned
    ensures HasNonce(hash, p, a.nonce)
  {
    hide Canonical, Parse;
  }

  // What a plan sees of new nonces.
  lemma FreshNonces(hash: DigestFn, s: Cgroup, rules: seq<DeviceRule>, env: Env)
    requires Fresh(hash, s, env) && PlanPass(hash, s, rules, env).Success?
    ensures NewNonces(env.nonces, PlanPass(hash, s, rules, env).value.0, s.entry.lineages)
  {
    hide PlanPass, ClassifiedAs, HasNonce, HasOriginal;
    var progs := PlanPass(hash, s, rules, env).value.0;
    forall p | p in progs && p.owned
      ensures p.nonce !in env.nonces
    {
      var k :| 0 <= k < |progs| && progs[k] == p;
      AttachedCount(hash, s, rules, env);
      AttachedOriginal(hash, s, rules, env, k);
      ClassifiedNonce(hash, s.kernel.attached[k], p);
      assert s.kernel.attached[k] in s.kernel.attached;
    }
  }

  lemma AttachedCount(hash: DigestFn, s: Cgroup, rules: seq<DeviceRule>, env: Env)
    requires PlanPass(hash, s, rules, env).Success?
    ensures |PlanPass(hash, s, rules, env).value.0| == |s.kernel.attached|
  {
    hide *;
    PlannedParts(hash, s, rules, env);
  }

  // The keys of a planned pass: distinct, all of them if it grants.
  lemma PlannedKeys(hash: DigestFn, s: Cgroup, rules: seq<DeviceRule>, env: Env)
    requires CachedKeysDistinct(s.entry.lineages) && Fresh(hash, s, env) && PlanPass(hash, s, rules, env).Success?
    ensures MoveKeysDistinct(PlanPass(hash, s, rules, env).value.1)
    ensures |rules| > 0 ==> LineageKeysDistinct(PlanPass(hash, s, rules, env).value.1)
  {
    hide PlanPass, PassMoves, CachedKeysDistinct, Planned, Fresh, NewNonces, PassEntry;
    PlanPassPlanned(hash, s, rules, env);
    FreshNonces(hash, s, rules, env);
    EntryLineages(s);
    var (progs, moves) := PlanPass(hash, s, rules, env).value;
    if |rules| > 0 {
      NewNoncesDistinct(hash, rules, progs, PassEntry(s), env.nonces);
    } else {
      assert rules == [];
      RestoredKeys(hash, progs, PassEntry(s), env.nonces);
    }
  }

  lemma KeysRecorded(moves: seq<Move>, lineages: seq<CachedLineage>)
    requires MoveKeysDistinct(moves) && |lineages| == |moves| && forall i | 0 <= i < |moves| :: lineages[i] == moves[i].lineage
    ensures CachedKeysDistinct(lineages)
  {
    hide SameLineageKey;
  }

  lemma BareRecorded(hash: DigestFn, s: Cgroup, moves: seq<Move>)
    requires forall i | 0 <= i < |moves| :: BareOriginal(hash, moves[i].lineage.original)
    requires forall l | l in s.entry.lineages :: exists i | 0 <= i < |moves| :: moves[i].lineage == l
    ensures CacheBare(hash, s.entry)
  {
    hide BareOriginal;
  }

  lemma PassKeepsTidy(hash: DigestFn, s: Cgroup, rules: seq<DeviceRule>, env: Env)
    requires Tidy(hash, s) && Fresh(hash, s, env)
    ensures Tidy(hash, Pass(hash, s, rules, env).0)
  {
    hide *;
    TidyParts(hash, s);
    var s' := Pass(hash, s, rules, env).0;
    if PlanPass(hash, s, rules, env).Success? {
      var moves := PlanPass(hash, s, rules, env).value.1;
      PassEnds(hash, s, rules, env);
      EntryAfter(hash, s, rules, env);
      forall i | 0 <= i < |moves|
        ensures BareOriginal(hash, moves[i].lineage.original)
      {
        LineageBare(hash, s, rules, env, i);
      }
      BareRecorded(hash, s', moves);
      PlannedKeys(hash, s, rules, env);
      KeysRecorded(moves, s'.entry.lineages);
      IsTidy(hash, s');
    } else {
      Unplanned(hash, s, rules, env);
    }
  }

  lemma TidyParts(hash: DigestFn, s: Cgroup)
    requires Tidy(hash, s)
    ensures KernelOk(s.kernel) && CacheBare(hash, s.entry) && CachedKeysDistinct(s.entry.lineages)
  {
  }

  lemma IsTidy(hash: DigestFn, s: Cgroup)
    requires KernelOk(s.kernel) && CacheBare(hash, s.entry) && CachedKeysDistinct(s.entry.lineages)
    ensures Tidy(hash, s)
  {
  }

  lemma WipeKeepsTidy(hash: DigestFn, s: Cgroup)
    requires Tidy(hash, s)
    ensures Tidy(hash, Next(hash, s, Wipe))
  {
    hide CacheBare, CachedKeysDistinct;
  }

  // Over any run with new nonces the keys stay distinct.
  lemma {:induction false} RunKeepsTidy(hash: DigestFn, s: Cgroup, events: seq<Event>)
    requires Tidy(hash, s) && FreshRun(hash, s, events)
    ensures Tidy(hash, After(hash, s, events))
    decreases |events|
  {
    hide Tidy, Pass, Fresh;
    if |events| > 0 {
      match events[0]
      case PassRun(rules, env) =>
        PassKeepsTidy(hash, s, rules, env);
        RunKeepsTidy(hash, Next(hash, s, events[0]), events[1..]);
      case Wipe =>
        WipeKeepsTidy(hash, s);
        RunKeepsTidy(hash, Next(hash, s, Wipe), events[1..]);
    }
  }

  // The fixed point of whole runs: after any passes with new nonces, failures and wipes, a pass that
  // succeeded plans nothing when it is repeated, the first one after a wipe included.
  lemma RunFixedPoint(hash: DigestFn, s: Cgroup, events: seq<Event>, rules: seq<DeviceRule>, env: Env, again: Env)
    requires Tidy(hash, s) && FreshRun(hash, s, events) && Fresh(hash, After(hash, s, events), env) && Readable(rules)
    requires Pass(hash, After(hash, s, events), rules, env).1.Success? && QueryWorks(again)
    ensures var end := Pass(hash, After(hash, s, events), rules, env).0;
            && PlanPass(hash, end, rules, again).Success?
            && Render(PlanPass(hash, end, rules, again).value.1, 0).loads == []
            && Render(PlanPass(hash, end, rules, again).value.1, 0).steps == []
  {
    hide *;
    RunKeepsTidy(hash, s, events);
    var reached := After(hash, s, events);
    TidyParts(hash, reached);
    SuccessPlans(hash, reached, rules, env);
    PlannedKeys(hash, reached, rules, env);
    FixedPoint(hash, reached, rules, env, again);
  }
}
