/** Recovery from a wipe, over whole runs: the cache never loses an original it recorded, and a pass
    that succeeds has every one of them attached. */
module V2Recovery {
  import opened Words
  import opened AsmCanonical
  import opened DeviceFilter
  import opened Owned
  import opened V2Plan
  import opened V2Kernel
  import opened V2Execution
  import opened V2Conservation
  import opened V2Jobs
  import opened V2Pass
  import opened V2Meaning
  import opened V2Safety
  import opened V2Convergence
  import opened V2FixedPoint

  // What happens to a cgroup: a pass with any rules and failures, or everything detached behind the
  // daemon's back.
  datatype Event = PassRun(rules: seq<DeviceRule>, env: Env) | Wipe

  function Next(hash: DigestFn, s: Cgroup, e: Event): Cgroup {
    hide Pass;
    match e
    case PassRun(rules, env) => Pass(hash, s, rules, env).0
    case Wipe => s.(kernel := s.kernel.(attached := []))
  }

  function After(hash: DigestFn, s: Cgroup, events: seq<Event>): Cgroup
    decreases |events|
  {
    hide Next;
    if |events| == 0 then s else After(hash, Next(hash, s, events[0]), events[1..])
  }

  predicate Cached(entry: CacheEntry, original: seq<Byte>) {
    exists l | l in entry.lineages :: l.original == original
  }

  ghost predicate HasBuilt(hash: DigestFn, progs: seq<Prog>, original: seq<Byte>) {
    exists p | p in progs :: BuiltOn(hash, p, original)
  }

  // What every pass and every wipe keeps: unless a rebuild is under way or everything was wiped,
  // every cached original has a program attached.
  ghost predicate Recoverable(hash: DigestFn, s: Cgroup) {
    && KernelOk(s.kernel) && CacheBare(hash, s.entry)
    && (!PassEntry(s).rebuilding ==> forall l | l in s.entry.lineages :: HasBuilt(hash, s.kernel.attached, l.original))
  }

  ghost predicate Compilable(e: Event) {
    e.PassRun? && Build(e.rules).Success? ==> Compiles(e.rules)
  }

  // --- The plan remembers every cached original -------------------------------------------------------------------

  // A cached lineage is missing, or a group or a bare program accounts for it.
  lemma {:induction false} MissingAccounts(cached: seq<CachedLineage>, groups: seq<WrapperGroup>, bares: seq<AttachedProg>,
                                           groupUsed: seq<bool>, bareFree: seq<bool>, l: CachedLineage)
    requires |groupUsed| == |groups| && |bareFree| == |bares| && l in cached
    ensures || l in Missing(cached, groups, bares, groupUsed, bareFree)
            || (exists g | 0 <= g < |groups| :: groups[g].original == l.original)
            || (exists b | 0 <= b < |bares| :: bares[b].raw == l.original)
    decreases |cached|
  {
    hide FindUnusedGroup, FindFree;
    match FindUnusedGroup(groups, groupUsed, cached[0], 0)
    case Some(g) =>
      if l != cached[0] {
        MissingAccounts(cached[1..], groups, bares, groupUsed[g := true], bareFree, l);
      }
    case None =>
      match FindFree(bares, bareFree, cached[0].original, 0)
      case Some(b) =>
        if l != cached[0] {
          MissingAccounts(cached[1..], groups, bares, groupUsed, bareFree[b := false], l);
        }
      case None =>
        if l != cached[0] {
          MissingAccounts(cached[1..], groups, bares, groupUsed, bareFree, l);
        }
  }

  lemma RebuildPlanned(hash: DigestFn, rules: seq<DeviceRule>, progs: seq<AttachedProg>, entry: CacheEntry, nonces: seq<U64>, l: CachedLineage)
    requires Positioned(progs) && entry.rebuilding && PassMoves(hash, rules, progs, entry, nonces).Success? && l in entry.lineages
    ensures || (exists i | 0 <= i < |PassMoves(hash, rules, progs, entry, nonces).value| ::
                  PassMoves(hash, rules, progs, entry, nonces).value[i].lineage.original == l.original)
            || (exists x | 0 <= x < |progs| :: progs[x].original == l.original)
  {
    hide Positioned, MoveShape, ProgsBag, MovesBag, GroupsOf, BaresOf, AttachedMoves, RebuildMoves, Missing;
    GroupsNonEmpty(progs);
    GroupingSound(progs);
    var groups, bares := GroupsOf(progs), BaresOf(progs);
    var (moves, rest) := AttachedMoves(hash, rules, groups, bares, nonces).value;
    var missing := MissingLineages(entry.lineages, groups, bares);
    MissingAccounts(entry.lineages, groups, bares, NoneUsed(|groups|), AllFree(|bares|), l);
    RebuildMovesShape(hash, rules, progs, missing, rest);
    if l in missing {
      var k :| 0 <= k < |missing| && missing[k] == l;
      assert (moves + RebuildMoves(hash, rules, missing, rest).value.0)[|moves| + k].lineage.original == l.original;
    } else if g :| 0 <= g < |groups| && groups[g].original == l.original {
      GroupMember(progs, groups[g]);
    } else {
      var b :| 0 <= b < |bares| && bares[b].raw == l.original;
      BareMember(progs, bares[b]);
    }
  }

  lemma GroupMember(progs: seq<AttachedProg>, group: WrapperGroup)
    requires GroupOf(progs, group)
    ensures exists x | 0 <= x < |progs| :: progs[x].original == group.original
  {
    var member := group.members[0];
    assert member in group.members;
    var x :| 0 <= x < |progs| && progs[x] == member;
  }

  lemma BareMember(progs: seq<AttachedProg>, bare: AttachedProg)
    requires Positioned(progs) && bare in progs && !bare.owned
    ensures exists x | 0 <= x < |progs| :: progs[x].original == bare.raw
  {
    var x :| 0 <= x < |progs| && progs[x] == bare;
  }

  // The plan has a lineage for every cached original.
  lemma CachedPlanned(hash: DigestFn, s: Cgroup, rules: seq<DeviceRule>, env: Env, l: CachedLineage)
    requires Recoverable(hash, s) && PlanPass(hash, s, rules, env).Success? && l in s.entry.lineages
    ensures exists i | 0 <= i < |PlanPass(hash, s, rules, env).value.1| :: PlanPass(hash, s, rules, env).value.1[i].lineage.original == l.original
  {
    PlanPassPlanned(hash, s, rules, env);
    var (progs, moves) := PlanPass(hash, s, rules, env).value;
    hide PlanPass, KernelOk, MovesBag, ProgsBag, AllShaped, PassMoves, Positioned, BuiltOn, BareOriginal, Classify, ClassifiedAs;
    if PassEntry(s).rebuilding {
      RebuildPlanned(hash, rules, progs, PassEntry(s), env.nonces, l);
      if x: nat :| x < |progs| && progs[x].original == l.original {
        AttachedPlanned(hash, s, rules, env, x);
      }
    } else {
      assert HasBuilt(hash, s.kernel.attached, l.original);
      var p :| p in s.kernel.attached && BuiltOn(hash, p, l.original);
      var x :| 0 <= x < |s.kernel.attached| && s.kernel.attached[x] == p;
      ClassifyMeans(hash, x, p, progs[x]);
      BuiltOnFound(hash, p, l.original, progs[x]);
      AttachedPlanned(hash, s, rules, env, x);
    }
  }

  // --- Every step keeps the invariant ---------------------------------------------------------------------------------

  // After a pass that was planned and stopped rebuilding, every lineage has a program attached.
  lemma PassLeavesBuilt(hash: DigestFn, s: Cgroup, rules: seq<DeviceRule>, env: Env, i: nat)
    requires KernelOk(s.kernel) && CacheBare(hash, s.entry) && PlanPass(hash, s, rules, env).Success?
    requires (Build(rules).Success? ==> Compiles(rules)) && i < |PlanPass(hash, s, rules, env).value.1|
    requires !Pass(hash, s, rules, env).0.entry.rebuilding
    ensures HasBuilt(hash, Pass(hash, s, rules, env).0.kernel.attached, PlanPass(hash, s, rules, env).value.1[i].lineage.original)
  {
    hide *;
    var moves, s' := PlanPass(hash, s, rules, env).value.1, Pass(hash, s, rules, env).0;
    EntryAfter(hash, s, rules, env);
    if Pass(hash, s, rules, env).1.Success? {
      var results := LeftBehind(hash, s, rules, env);
      LineageBare(hash, s, rules, env, i);
      ResultTarget(hash, s, rules, env, i, results[i]);
      TargetBuiltOn(hash, rules, moves[i].lineage, results[i]);
      assert results[i] in s'.kernel.attached by { assert results[i] in results; }
      BuiltIn(hash, s'.kernel.attached, results[i], moves[i].lineage.original);
    } else {
      LineageSource(hash, s, rules, env, i);
      var own := LineagesKeepTheirOwn(hash, s, rules, env);
      LastState(s.kernel, s'.kernel);
      var p :| p in own[i] && p in s'.kernel.attached && BuiltOn(hash, p, moves[i].lineage.original);
      BuiltIn(hash, s'.kernel.attached, p, moves[i].lineage.original);
    }
  }

  lemma BuiltIn(hash: DigestFn, progs: seq<Prog>, p: Prog, original: seq<Byte>)
    requires p in progs && BuiltOn(hash, p, original)
    ensures HasBuilt(hash, progs, original)
  {
    hide BuiltOn;
  }

  lemma PassKeepsRecoverable(hash: DigestFn, s: Cgroup, rules: seq<DeviceRule>, env: Env)
    requires Recoverable(hash, s) && (Build(rules).Success? ==> Compiles(rules))
    ensures Recoverable(hash, Pass(hash, s, rules, env).0)
    ensures forall o | Cached(s.entry, o) :: Cached(Pass(hash, s, rules, env).0.entry, o)
  {
    hide *;
    RecoverableParts(hash, s);
    if PlanPass(hash, s, rules, env).Success? {
      var moves, s' := PlanPass(hash, s, rules, env).value.1, Pass(hash, s, rules, env).0;
      PassEnds(hash, s, rules, env);
      EntryAfter(hash, s, rules, env);
      forall i | 0 <= i < |moves|
        ensures BareOriginal(hash, moves[i].lineage.original)
        ensures !s'.entry.rebuilding ==> HasBuilt(hash, s'.kernel.attached, moves[i].lineage.original)
      {
        LineageBare(hash, s, rules, env, i);
        if !s'.entry.rebuilding {
          PassLeavesBuilt(hash, s, rules, env, i);
        }
      }
      RecoverableAfter(hash, s', moves);
      forall o | Cached(s.entry, o)
        ensures Cached(s'.entry, o)
      {
        var l := CachedLineageOf(s.entry, o);
        CachedPlanned(hash, s, rules, env, l);
        var i :| 0 <= i < |moves| && moves[i].lineage.original == o;
        CachedAt(s'.entry, i, o);
      }
    } else {
      Unplanned(hash, s, rules, env);
    }
  }

  lemma CachedAt(entry: CacheEntry, i: nat, original: seq<Byte>)
    requires i < |entry.lineages| && entry.lineages[i].original == original
    ensures Cached(entry, original)
  {
    assert entry.lineages[i] in entry.lineages;
  }

  lemma RecoverableAfter(hash: DigestFn, s: Cgroup, moves: seq<Move>)
    requires KernelOk(s.kernel) && forall l | l in s.entry.lineages :: exists i | 0 <= i < |moves| :: moves[i].lineage == l
    requires forall i | 0 <= i < |moves| ::
               && BareOriginal(hash, moves[i].lineage.original)
               && (!s.entry.rebuilding ==> HasBuilt(hash, s.kernel.attached, moves[i].lineage.original))
    ensures Recoverable(hash, s)
  {
    hide KernelOk, BareOriginal, HasBuilt;
  }

  lemma NextKeepsRecoverable(hash: DigestFn, s: Cgroup, e: Event)
    requires Recoverable(hash, s) && Compilable(e)
    ensures Recoverable(hash, Next(hash, s, e))
    ensures forall o | Cached(s.entry, o) :: Cached(Next(hash, s, e).entry, o)
  {
    hide Pass, Build, Compiles;
    if e.PassRun? {
      hide Recoverable, Cached;
      PassKeepsRecoverable(hash, s, e.rules, e.env);
    }
  }

  // Over any run the cache never loses an original.
  lemma {:induction false} RunKeepsCached(hash: DigestFn, s: Cgroup, events: seq<Event>)
    requires Recoverable(hash, s) && forall e | e in events :: Compilable(e)
    ensures Recoverable(hash, After(hash, s, events))
    ensures forall o | Cached(s.entry, o) :: Cached(After(hash, s, events).entry, o)
    decreases |events|
  {
    hide Recoverable, Compilable, Next, Cached;
    if |events| > 0 {
      assert events[0] in events;
      NextKeepsRecoverable(hash, s, events[0]);
      RunKeepsCached(hash, Next(hash, s, events[0]), events[1..]);
    }
  }

  // Wipe recovery: after any passes and wipes, rebuilds that stopped halfway among them, a pass that
  // succeeds has every original ever cached attached again, bare for empty rules and wrapped in the
  // rules otherwise.
  lemma WipeRecovery(hash: DigestFn, s: Cgroup, events: seq<Event>, rules: seq<DeviceRule>, env: Env, original: seq<Byte>)
    requires Recoverable(hash, s) && (forall e | e in events :: Compilable(e)) && Cached(s.entry, original)
    requires Pass(hash, After(hash, s, events), rules, env).1.Success?
    ensures exists p, lineage | p in Pass(hash, After(hash, s, events), rules, env).0.kernel.attached ::
              && lineage in Pass(hash, After(hash, s, events), rules, env).0.entry.lineages && lineage.original == original
              && Canonical(p.code).Some? && Target(hash, rules, lineage) == Canonical(p.code)
  {
    hide *;
    RunKeepsCached(hash, s, events);
    var reached := After(hash, s, events);
    var (end, r) := Pass(hash, reached, rules, env);
    SuccessPlans(hash, reached, rules, env);
    RecoverableParts(hash, reached);
    var l := CachedLineageOf(reached.entry, original);
    CachedPlanned(hash, reached, rules, env, l);
    var moves := PlanPass(hash, reached, rules, env).value.1;
    var i :| 0 <= i < |moves| && moves[i].lineage.original == l.original;
    var results := LeftBehind(hash, reached, rules, env);
    ResultTarget(hash, reached, rules, env, i, results[i]);
    EntryAfter(hash, reached, rules, env);
    var p, lineage := results[i], moves[i].lineage;
    assert p in end.kernel.attached by { assert p in results; }
    assert lineage in end.entry.lineages by { assert end.entry.lineages[i] == lineage; }
  }

  lemma SuccessPlans(hash: DigestFn, s: Cgroup, rules: seq<DeviceRule>, env: Env)
    requires Pass(hash, s, rules, env).1.Success?
    ensures PlanPass(hash, s, rules, env).Success?
  {
    hide PlanPass, ExecutePlan, Render;
  }

  lemma RecoverableParts(hash: DigestFn, s: Cgroup)
    requires Recoverable(hash, s)
    ensures KernelOk(s.kernel) && CacheBare(hash, s.entry)
  {
    hide KernelOk, CacheBare;
  }

  lemma CachedLineageOf(entry: CacheEntry, original: seq<Byte>) returns (l: CachedLineage)
    requires Cached(entry, original)
    ensures l in entry.lineages && l.original == original
  {
    l :| l in entry.lineages && l.original == original;
  }
}
