/** Safety at every point of a pass, whatever kernel call fails. */
module V2Safety {
  import opened Wrappers
  import opened Words
  import opened AsmCanonical
  import opened DeviceFilter
  import opened FilterCorrect
  import opened Owned
  import opened Gate
  import Interp
  import opened WrapperCorrect
  import opened V2Plan
  import opened V2Kernel
  import opened V2Execution
  import opened V2Conservation
  import opened V2Jobs
  import opened V2Pass
  import opened V2Meaning

  // --- The lineages of a plan ---------------------------------------------------------------------------------

  lemma {:induction false} MissingSubset(cached: seq<CachedLineage>, groups: seq<WrapperGroup>, bares: seq<AttachedProg>,
                                         groupUsed: seq<bool>, bareFree: seq<bool>)
    requires |groupUsed| == |groups| && |bareFree| == |bares|
    ensures forall l | l in Missing(cached, groups, bares, groupUsed, bareFree) :: l in cached
    decreases |cached|
  {
    hide FindUnusedGroup, FindFree;
    if |cached| > 0 {
      assert forall l | l in cached[1..] :: l in cached;
      match FindUnusedGroup(groups, groupUsed, cached[0], 0)
      case Some(g) => MissingSubset(cached[1..], groups, bares, groupUsed[g := true], bareFree);
      case None =>
        match FindFree(bares, bareFree, cached[0].original, 0)
        case Some(b) => MissingSubset(cached[1..], groups, bares, groupUsed, bareFree[b := false]);
        case None => MissingSubset(cached[1..], groups, bares, groupUsed, bareFree);
    }
  }

  // A plan attaches on its own only originals of the cache, and only while rebuilding.
  lemma AddsFromCache(hash: DigestFn, rules: seq<DeviceRule>, progs: seq<AttachedProg>, entry: CacheEntry, nonces: seq<U64>, i: nat)
    requires Positioned(progs) && PassMoves(hash, rules, progs, entry, nonces).Success?
    requires i < |PassMoves(hash, rules, progs, entry, nonces).value| && PassMoves(hash, rules, progs, entry, nonces).value[i].Add?
    ensures entry.rebuilding
    ensures exists l | l in entry.lineages :: l.original == PassMoves(hash, rules, progs, entry, nonces).value[i].lineage.original
  {
    hide Positioned, MoveShape, ProgsBag, MovesBag, GroupsOf, BaresOf, AttachedMoves, RebuildMoves, Missing;
    GroupsNonEmpty(progs);
    var groups, bares := GroupsOf(progs), BaresOf(progs);
    AttachedMovesShape(hash, rules, progs, nonces);
    var (moves, rest) := AttachedMoves(hash, rules, groups, bares, nonces).value;
    if entry.rebuilding {
      var missing := MissingLineages(entry.lineages, groups, bares);
      MissingSubset(entry.lineages, groups, bares, NoneUsed(|groups|), AllFree(|bares|));
      RebuildMovesShape(hash, rules, progs, missing, rest);
      assert i >= |moves|;
      assert missing[i - |moves|] in missing;
    }
  }

  ghost predicate CacheBare(hash: DigestFn, entry: CacheEntry) {
    forall l | l in entry.lineages :: BareOriginal(hash, l.original)
  }

  // Every lineage of a plan is that of an attached program, or a cached one.
  lemma LineageSource(hash: DigestFn, s: Cgroup, rules: seq<DeviceRule>, env: Env, i: nat)
    requires PlanPass(hash, s, rules, env).Success? && i < |PlanPass(hash, s, rules, env).value.1|
    ensures var (progs, moves) := PlanPass(hash, s, rules, env).value;
            if moves[i].Add? then PassEntry(s).rebuilding && exists l | l in s.entry.lineages :: l.original == moves[i].lineage.original
            else exists k: nat | k < |progs| :: progs[k].original == moves[i].lineage.original
  {
    PlanPassPlanned(hash, s, rules, env);
    var (progs, moves) := PlanPass(hash, s, rules, env).value;
    hide PlanPass, PassMoves, MovesBag, ProgsBag, Classify, Target;
    if moves[i].Add? {
      AddsFromCache(hash, rules, progs, PassEntry(s), env.nonces, i);
    } else {
      assert MoveShape(hash, rules, progs, moves[i]);
      var first := MoveIndices(moves[i])[0];
      assert first < |progs| && progs[first].original == moves[i].lineage.original;
    }
  }

  lemma LineageBare(hash: DigestFn, s: Cgroup, rules: seq<DeviceRule>, env: Env, i: nat)
    requires PlanPass(hash, s, rules, env).Success? && CacheBare(hash, s.entry) && i < |PlanPass(hash, s, rules, env).value.1|
    ensures BareOriginal(hash, PlanPass(hash, s, rules, env).value.1[i].lineage.original)
  {
    hide PlanPass, BareOriginal, AllShaped, MovesBag, ProgsBag, Classify, PassMoves, Positioned;
    LineageSource(hash, s, rules, env, i);
    var (progs, moves) := PlanPass(hash, s, rules, env).value;
    if !moves[i].Add? {
      PlanPassPlanned(hash, s, rules, env);
      var k: nat :| k < |progs| && progs[k].original == moves[i].lineage.original;
      ClassifyMeans(hash, k, s.kernel.attached[k], progs[k]);
    }
  }

  // --- Width --------------------------------------------------------------------------------------------------

  // The programs of the runtime were accepted by the verifier and every wrapper is allow-only.
  ghost predicate TrustedCgroup(cpu: Interp.Machine, hash: DigestFn, s: Cgroup) {
    && (forall p | p in s.kernel.attached :: Canonical(p.code).Some? ==> AllowStack(cpu, hash, Canonical(p.code).value))
    && forall l | l in s.entry.lineages :: Trusted(cpu, l.original) && Parse(hash, l.original) == Success(None)
  }

  lemma TrustedIsBare(cpu: Interp.Machine, hash: DigestFn, s: Cgroup)
    requires TrustedCgroup(cpu, hash, s)
    ensures CacheBare(hash, s.entry)
  {
    hide Parse, Canonical, AllowStack, Reloadable;
  }

  // What a pass with these rules needs: taking every grant away, bare programs are left alone and may
  // be anything; only a grant wraps them.
  ghost predicate Admissible(cpu: Interp.Machine, hash: DigestFn, s: Cgroup, rules: seq<DeviceRule>) {
    && CacheBare(hash, s.entry) && (|rules| > 0 ==> TrustedCgroup(cpu, hash, s))
    && forall p | p in s.kernel.attached && Canonical(p.code).Some? ::
         Parse(hash, Canonical(p.code).value) == Success(None) || AllowStack(cpu, hash, Canonical(p.code).value)
  }

  lemma TrustedAdmissible(cpu: Interp.Machine, hash: DigestFn, s: Cgroup, rules: seq<DeviceRule>)
    requires TrustedCgroup(cpu, hash, s)
    ensures Admissible(cpu, hash, s, rules)
  {
    hide Parse, Canonical, AllowStack, CacheBare;
    TrustedIsBare(cpu, hash, s);
  }

  // An attached program lets through what its original does.
  lemma AttachedWidens(cpu: Interp.Machine, hash: DigestFn, s: Cgroup, rules: seq<DeviceRule>, k: nat, a: AttachedProg, q: DevRequest)
    requires Admissible(cpu, hash, s, rules) && k < |s.kernel.attached| && ClassifiedAs(hash, s.kernel.attached[k], a)
    ensures Allows(cpu, a.original, q) ==> Allows(cpu, s.kernel.attached[k].code, q)
  {
    var p := s.kernel.attached[k];
    assert p in s.kernel.attached;
    hide Canonical, Parse, AllowStack, Trusted, Allows, TrustedCgroup, CacheBare;
    if AllowStack(cpu, hash, a.raw) {
      StackWidens(cpu, hash, a.raw, q);
    }
    CanonicalAllows(cpu, p.code, q);
  }

  lemma AttachedTrusted(cpu: Interp.Machine, hash: DigestFn, s: Cgroup, k: nat, a: AttachedProg)
    requires TrustedCgroup(cpu, hash, s) && k < |s.kernel.attached| && ClassifiedAs(hash, s.kernel.attached[k], a)
    ensures Trusted(cpu, a.original)
  {
    assert s.kernel.attached[k] in s.kernel.attached;
    hide Canonical, Parse, AllowStack, Trusted;
    var q :| q == DevRequest(1, 1, 0, 0);
    StackWidens(cpu, hash, a.raw, q);
  }

  lemma LineageTrusted(cpu: Interp.Machine, hash: DigestFn, s: Cgroup, rules: seq<DeviceRule>, env: Env, i: nat)
    requires PlanPass(hash, s, rules, env).Success? && TrustedCgroup(cpu, hash, s) && i < |PlanPass(hash, s, rules, env).value.1|
    ensures Trusted(cpu, PlanPass(hash, s, rules, env).value.1[i].lineage.original)
  {
    LineageSource(hash, s, rules, env, i);
    var (progs, moves) := PlanPass(hash, s, rules, env).value;
    if moves[i].Add? {
      hide PlanPass, Trusted, Parse, AllowStack;
    } else {
      PlanPassPlanned(hash, s, rules, env);
      hide PlanPass, Trusted, AllowStack, Parse, AllShaped, MovesBag, ProgsBag, Classify, PassMoves, Positioned, ClassifiedAs, TrustedCgroup;
      var k: nat :| k < |progs| && progs[k].original == moves[i].lineage.original;
      ClassifyMeans(hash, k, s.kernel.attached[k], progs[k]);
      AttachedTrusted(cpu, hash, s, k, progs[k]);
    }
  }

  // The move an attached position belongs to.
  lemma {:induction false} MoveAt(moves: seq<Move>, x: nat) returns (i: nat, k: nat)
    requires x in MovesBag(moves)
    ensures i < |moves| && k < |MoveIndices(moves[i])| && MoveIndices(moves[i])[k] == x
  {
    hide MoveIndices;
    if x in MoveIndices(moves[0]) {
      i := 0;
      k :| 0 <= k < |MoveIndices(moves[0])| && MoveIndices(moves[0])[k] == x;
    } else {
      assert MovesBag(moves) == multiset(MoveIndices(moves[0])) + MovesBag(moves[1..]);
      i, k := MoveAt(moves[1..], x);
      i := i + 1;
    }
  }

  // A state that lets through a request no rule grants: so did the start.
  lemma NoGrantNoWider(cpu: Interp.Machine, hash: DigestFn, s: Cgroup, rules: seq<DeviceRule>, env: Env, state: seq<Prog>, q: DevRequest, x: nat)
    requires PlanPass(hash, s, rules, env).Success? && Admissible(cpu, hash, s, rules) && AllowOnly(rules)
    requires OnTheWay(PlanPass(hash, s, rules, env).value.1, s.kernel.attached, state) && SetAllows(cpu, state, q)
    requires LastMatch(rules, q).None? && x < |s.kernel.attached|
    ensures Allows(cpu, s.kernel.attached[x].code, q)
  {
    PlanPassPlanned(hash, s, rules, env);
    var (progs, moves) := PlanPass(hash, s, rules, env).value;
    AllPositions(progs, moves);
    assert x in Positions(moves);
    var i, k := MoveAt(moves, x);
    assert MoveShape(hash, rules, progs, moves[i]) && MoveCovered(moves[i], s.kernel.attached, state);
    ClassifyMeans(hash, x, s.kernel.attached[x], progs[x]);
    assert progs[x].original == moves[i].lineage.original;
    hide PlanPass, OnTheWay, MovesBag, ProgsBag, Positions, AllShaped, Classify, PassMoves, Admissible, Allows, MoveShape, MoveIndices,
         LastMatch, ClassifiedAs, Planned;
    CoveredAllows(cpu, hash, s, rules, env, state, q, i, x, k);
    if Allows(cpu, progs[x].original, q) {
      AttachedWidens(cpu, hash, s, rules, x, progs[x], q);
    }
  }

  // A covered lineage: its original lets the request through, or the program itself is still there.
  lemma CoveredAllows(cpu: Interp.Machine, hash: DigestFn, s: Cgroup, rules: seq<DeviceRule>, env: Env, state: seq<Prog>, q: DevRequest, i: nat, x: nat, k: nat)
    requires PlanPass(hash, s, rules, env).Success? && Admissible(cpu, hash, s, rules) && AllowOnly(rules)
    requires i < |PlanPass(hash, s, rules, env).value.1| && SetAllows(cpu, state, q) && LastMatch(rules, q).None?
    requires MoveCovered(PlanPass(hash, s, rules, env).value.1[i], s.kernel.attached, state)
    requires var move := PlanPass(hash, s, rules, env).value.1[i]; k < |MoveIndices(move)| && MoveIndices(move)[k] == x
    requires x < |s.kernel.attached|
    ensures Allows(cpu, PlanPass(hash, s, rules, env).value.1[i].lineage.original, q) || Allows(cpu, s.kernel.attached[x].code, q)
  {
    var move := PlanPass(hash, s, rules, env).value.1[i];
    hide PlanPass, Admissible, Allows, LastMatch, LoadedOf;
    if p :| p in state && ResultOf(p, move, s.kernel.attached) {
      ResultAllows(cpu, hash, s, rules, env, q, i, p);
    } else {
      assert move.Replace?;
      assert AllAt(s.kernel.attached, MoveIndices(move), state) by {
        hide AllAt, MoveIndices;
      }
    }
  }

  // What a move's result lets through, its original does, unless a rule grants it.
  lemma ResultAllows(cpu: Interp.Machine, hash: DigestFn, s: Cgroup, rules: seq<DeviceRule>, env: Env, q: DevRequest, i: nat, p: Prog)
    requires PlanPass(hash, s, rules, env).Success? && Admissible(cpu, hash, s, rules) && AllowOnly(rules)
    requires i < |PlanPass(hash, s, rules, env).value.1|
    requires ResultOf(p, PlanPass(hash, s, rules, env).value.1[i], s.kernel.attached)
    ensures Allows(cpu, p.code, q)
       <==> LastMatch(rules, q).Some? || Allows(cpu, PlanPass(hash, s, rules, env).value.1[i].lineage.original, q)
  {
    hide *;
    AdmissibleParts(cpu, hash, s, rules);
    ResultTarget(hash, s, rules, env, i, p);
    CanonicalAllows(cpu, p.code, q);
    var lineage := PlanPass(hash, s, rules, env).value.1[i].lineage;
    if |rules| == 0 {
      EmptyTarget(hash, rules, lineage);
      NoRulesMatch(rules, q);
    } else {
      LineageTrusted(cpu, hash, s, rules, env, i);
      TargetAllows(cpu, hash, rules, lineage, q);
    }
  }

  lemma AdmissibleParts(cpu: Interp.Machine, hash: DigestFn, s: Cgroup, rules: seq<DeviceRule>)
    requires Admissible(cpu, hash, s, rules)
    ensures CacheBare(hash, s.entry) && (|rules| > 0 ==> TrustedCgroup(cpu, hash, s))
  {
    hide CacheBare, TrustedCgroup, Canonical, Parse, AllowStack;
  }

  lemma EmptyTarget(hash: DigestFn, rules: seq<DeviceRule>, lineage: CachedLineage)
    requires |rules| == 0
    ensures Target(hash, rules, lineage) == Some(lineage.original)
  {
  }

  lemma BareFixed(hash: DigestFn, original: seq<Byte>)
    requires BareOriginal(hash, original)
    ensures Fixed(original)
  {
    hide Parse, Canonical;
  }

  // Whatever call fails, no state on the way is wider than the start and the planned end together.
  lemma PassNeverWider(cpu: Interp.Machine, hash: DigestFn, s: Cgroup, rules: seq<DeviceRule>, env: Env, state: seq<Prog>, q: DevRequest)
    requires KernelOk(s.kernel) && TrustedCgroup(cpu, hash, s) && AllowOnly(rules)
    requires PlanPass(hash, s, rules, env).Success?
    requires state in States(s.kernel, Pass(hash, s, rules, env).0.kernel) && SetAllows(cpu, state, q)
    ensures || SetAllows(cpu, s.kernel.attached, q)
            || PlannedAllows(cpu, hash, rules, PlanPass(hash, s, rules, env).value.1, q)
  {
    hide *;
    PassState(hash, s, rules, env, state);
    if LastMatch(rules, q).None? {
      TrustedAdmissible(cpu, hash, s, rules);
      NoGrantNoneWider(cpu, hash, s, rules, env, state, q);
    } else {
      GrantedPlanned(cpu, hash, s, rules, env, q);
    }
  }

  lemma NoGrantNoneWider(cpu: Interp.Machine, hash: DigestFn, s: Cgroup, rules: seq<DeviceRule>, env: Env, state: seq<Prog>, q: DevRequest)
    requires PlanPass(hash, s, rules, env).Success? && Admissible(cpu, hash, s, rules) && AllowOnly(rules)
    requires OnTheWay(PlanPass(hash, s, rules, env).value.1, s.kernel.attached, state) && SetAllows(cpu, state, q)
    requires LastMatch(rules, q).None?
    ensures SetAllows(cpu, s.kernel.attached, q)
  {
    hide PlanPass, OnTheWay, Admissible, Allows, LastMatch, AllowOnly;
    forall p | p in s.kernel.attached
      ensures Allows(cpu, p.code, q)
    {
      var x :| 0 <= x < |s.kernel.attached| && s.kernel.attached[x] == p;
      NoGrantNoWider(cpu, hash, s, rules, env, state, q, x);
    }
  }

  lemma GrantedPlanned(cpu: Interp.Machine, hash: DigestFn, s: Cgroup, rules: seq<DeviceRule>, env: Env, q: DevRequest)
    requires PlanPass(hash, s, rules, env).Success? && TrustedCgroup(cpu, hash, s) && AllowOnly(rules) && LastMatch(rules, q).Some?
    ensures PlannedAllows(cpu, hash, rules, PlanPass(hash, s, rules, env).value.1, q)
  {
    hide PlanPass, TrustedCgroup, Allows, LastMatch, AllowOnly, Trusted, Target;
    var moves := PlanPass(hash, s, rules, env).value.1;
    forall i | 0 <= i < |moves| && Target(hash, rules, moves[i].lineage).Some?
      ensures Allows(cpu, Target(hash, rules, moves[i].lineage).value, q)
    {
      LineageTrusted(cpu, hash, s, rules, env, i);
      TargetAllows(cpu, hash, rules, moves[i].lineage, q);
    }
  }

  // Taking every grant away only narrows, whatever the bare programs are: what is let through on the
  // way was let through at the start.
  lemma RestoreNeverWider(cpu: Interp.Machine, hash: DigestFn, s: Cgroup, env: Env, state: seq<Prog>, q: DevRequest)
    requires KernelOk(s.kernel) && Admissible(cpu, hash, s, []) && PlanPass(hash, s, [], env).Success?
    requires state in States(s.kernel, Pass(hash, s, [], env).0.kernel) && SetAllows(cpu, state, q)
    ensures SetAllows(cpu, s.kernel.attached, q)
  {
    NoRulesMatch([], q);
    assert AllowOnly([]);
    hide *;
    PassState(hash, s, [], env, state);
    NoGrantNoneWider(cpu, hash, s, [], env, state, q);
  }

  // The planned end is where a pass that succeeds arrives: the rules grant the request or every
  // lineage's original lets it through.
  lemma PassArrives(cpu: Interp.Machine, hash: DigestFn, s: Cgroup, rules: seq<DeviceRule>, env: Env, q: DevRequest)
    requires KernelOk(s.kernel) && TrustedCgroup(cpu, hash, s) && AllowOnly(rules)
    requires PlanPass(hash, s, rules, env).Success? && Pass(hash, s, rules, env).1.Success?
    ensures var moves := PlanPass(hash, s, rules, env).value.1;
            var after := Pass(hash, s, rules, env).0.kernel.attached;
            && (SetAllows(cpu, after, q) <==> PlannedAllows(cpu, hash, rules, moves, q))
            && (SetAllows(cpu, after, q) <==> LastMatch(rules, q).Some? || forall i | 0 <= i < |moves| :: Allows(cpu, moves[i].lineage.original, q))
  {
    hide *;
    PassRuns(hash, s, rules, env);
    TrustedAdmissible(cpu, hash, s, rules);
    var moves, after := PlanPass(hash, s, rules, env).value.1, Pass(hash, s, rules, env).0.kernel.attached;
    var results := FinishedResults(s.kernel, Pass(hash, s, rules, env).0.kernel, moves);
    forall i | 0 <= i < |moves|
      ensures Allows(cpu, results[i].code, q) <==> LastMatch(rules, q).Some? || Allows(cpu, moves[i].lineage.original, q)
      ensures Target(hash, rules, moves[i].lineage).Some?
      ensures Allows(cpu, Target(hash, rules, moves[i].lineage).value, q) <==> LastMatch(rules, q).Some? || Allows(cpu, moves[i].lineage.original, q)
    {
      ResultAllows(cpu, hash, s, rules, env, q, i, results[i]);
      LineageTrusted(cpu, hash, s, rules, env, i);
      TrustedIsBare(cpu, hash, s);
      ResultTarget(hash, s, rules, env, i, results[i]);
      TargetAllows(cpu, hash, rules, moves[i].lineage, q);
    }
    ArrivedVerdict(cpu, hash, rules, moves, results, after, q);
  }

  lemma ArrivedVerdict(cpu: Interp.Machine, hash: DigestFn, rules: seq<DeviceRule>, moves: seq<Move>, results: seq<Prog>, after: seq<Prog>, q: DevRequest)
    requires |results| == |moves| && forall p :: p in results <==> p in after
    requires forall i | 0 <= i < |moves| ::
               && (Allows(cpu, results[i].code, q) <==> LastMatch(rules, q).Some? || Allows(cpu, moves[i].lineage.original, q))
               && Target(hash, rules, moves[i].lineage).Some?
               && (Allows(cpu, Target(hash, rules, moves[i].lineage).value, q) <==> LastMatch(rules, q).Some? || Allows(cpu, moves[i].lineage.original, q))
    ensures SetAllows(cpu, after, q) <==> PlannedAllows(cpu, hash, rules, moves, q)
    ensures SetAllows(cpu, after, q) <==> LastMatch(rules, q).Some? || forall i | 0 <= i < |moves| :: Allows(cpu, moves[i].lineage.original, q)
  {
    hide Allows, LastMatch, Target;
    assert forall i | 0 <= i < |results| :: results[i] in after;
    assert forall p | p in after :: exists i | 0 <= i < |results| :: results[i] == p;
  }

  // The programs a finished pass leaves, one per move.
  lemma FinishedResults(k: Kernel, k': Kernel, moves: seq<Move>) returns (results: seq<Prog>)
    requires PassRan(k, k', true, moves)
    ensures |results| == |moves| && multiset(results) == multiset(k'.attached)
    ensures forall p :: p in results <==> p in k'.attached
    ensures forall i | 0 <= i < |moves| :: ResultOf(results[i], moves[i], k.attached)
  {
    hide ResultOf, OnTheWay, KernelOk;
    results :|
      && |results| == |moves| && multiset(results) == multiset(k'.attached)
      && forall i | 0 <= i < |moves| :: ResultOf(results[i], moves[i], k.attached);
    assert forall p :: p in results <==> p in multiset(results);
    assert forall p :: p in k'.attached <==> p in multiset(k'.attached);
  }

  lemma ResultTarget(hash: DigestFn, s: Cgroup, rules: seq<DeviceRule>, env: Env, i: nat, p: Prog)
    requires PlanPass(hash, s, rules, env).Success? && CacheBare(hash, s.entry) && i < |PlanPass(hash, s, rules, env).value.1|
    requires ResultOf(p, PlanPass(hash, s, rules, env).value.1[i], s.kernel.attached)
    ensures var lineage := PlanPass(hash, s, rules, env).value.1[i].lineage;
            Target(hash, rules, lineage).Some? && Target(hash, rules, lineage) == Canonical(p.code)
  {
    hide *;
    PlanPassPlanned(hash, s, rules, env);
    var (progs, moves) := PlanPass(hash, s, rules, env).value;
    LineageBare(hash, s, rules, env, i);
    BareFixed(hash, moves[i].lineage.original);
    ResultBytes(hash, rules, s.kernel.attached, progs, moves, i, p);
  }

  // --- Each lineage keeps a program of its own ------------------------------------------------------------------

  lemma {:induction false} RawsLoadable(moves: seq<Move>, load: nat)
    requires forall i | 0 <= i < |moves| :: !moves[i].Keep? ==> Canonical(moves[i].raw).Some?
    ensures Loadable(Render(moves, load).loads)
    decreases |moves|
  {
    hide Canonical, MoveSteps;
    if |moves| > 0 {
      assert forall i | 0 <= i < |moves[1..]| :: moves[1..][i] == moves[i + 1];
      RawsLoadable(moves[1..], load + |MoveLoads(moves[0])|);
      assert Render(moves, load).loads == MoveLoads(moves[0]) + Render(moves[1..], load + |MoveLoads(moves[0])|).loads;
    }
  }

  // Everything a plan loads is canonical.
  lemma PlanLoadable(hash: DigestFn, s: Cgroup, rules: seq<DeviceRule>, env: Env)
    requires PlanPass(hash, s, rules, env).Success? && CacheBare(hash, s.entry)
    ensures Loadable(Render(PlanPass(hash, s, rules, env).value.1, 0).loads)
  {
    PlanPassPlanned(hash, s, rules, env);
    var (progs, moves) := PlanPass(hash, s, rules, env).value;
    forall i | 0 <= i < |moves| && !moves[i].Keep?
      ensures Canonical(moves[i].raw).Some?
    {
      assert MoveShape(hash, rules, progs, moves[i]);
      hide PlanPass, Canonical, Target, Classify, PassMoves, CacheBare, AllShaped, MovesBag, ProgsBag;
      LineageBare(hash, s, rules, env, i);
      BareFixed(hash, moves[i].lineage.original);
      TargetFixed(hash, rules, moves[i].lineage);
    }
    hide *;
    RawsLoadable(moves, 0);
  }

  // The programs of a job are built on the lineage's original.
  lemma JobBuiltOn(hash: DigestFn, s: Cgroup, rules: seq<DeviceRule>, env: Env, i: nat, job: Job, loaded: seq<Prog>, p: Prog)
    requires PlanPass(hash, s, rules, env).Success? && CacheBare(hash, s.entry) && i < |PlanPass(hash, s, rules, env).value.1|
    requires Build(rules).Success? ==> Compiles(rules)
    requires JobFor(job, PlanPass(hash, s, rules, env).value.1[i], s.kernel.attached, loaded) && p in job.Progs()
    ensures BuiltOn(hash, p, PlanPass(hash, s, rules, env).value.1[i].lineage.original)
  {
    var moves := PlanPass(hash, s, rules, env).value.1;
    LineageBare(hash, s, rules, env, i);
    if LoadedOf(p, moves[i]) {
      hide *;
      LoadedIsResult(p, moves[i], s.kernel.attached);
      ResultTarget(hash, s, rules, env, i, p);
      TargetBuiltOn(hash, rules, moves[i].lineage, p);
    } else {
      JobAttached(job, moves[i], s.kernel.attached, loaded, p);
      hide PlanPass, JobFor, BareOriginal, CacheBare, LoadedOf, Compiles, Build;
      var k :| 0 <= k < |MoveIndices(moves[i])| && MoveIndices(moves[i])[k] < |s.kernel.attached| && s.kernel.attached[MoveIndices(moves[i])[k]] == p;
      AttachedBuiltOn(hash, s, rules, env, i, k);
    }
  }

  lemma LoadedIsResult(p: Prog, move: Move, attached: seq<Prog>)
    requires LoadedOf(p, move)
    ensures ResultOf(p, move, attached)
  {
    hide Canonical;
  }

  lemma JobAttached(job: Job, move: Move, attached: seq<Prog>, loaded: seq<Prog>, p: Prog)
    requires JobFor(job, move, attached, loaded) && p in job.Progs() && !LoadedOf(p, move)
    ensures exists k :: 0 <= k < |MoveIndices(move)| && MoveIndices(move)[k] < |attached| && attached[MoveIndices(move)[k]] == p
  {
    hide Canonical;
    var indices := MoveIndices(move);
    if p in job.gone {
      var k :| 0 <= k < |move.detached| && attached[move.detached[k]] == p;
      assert indices[k + 1] == move.detached[k];
    } else {
      assert attached[indices[0]] == p;
    }
  }

  lemma AttachedBuiltOn(hash: DigestFn, s: Cgroup, rules: seq<DeviceRule>, env: Env, i: nat, k: nat)
    requires PlanPass(hash, s, rules, env).Success? && i < |PlanPass(hash, s, rules, env).value.1|
    requires var indices := MoveIndices(PlanPass(hash, s, rules, env).value.1[i]); k < |indices| && indices[k] < |s.kernel.attached|
    ensures var move := PlanPass(hash, s, rules, env).value.1[i];
            BuiltOn(hash, s.kernel.attached[MoveIndices(move)[k]], move.lineage.original)
  {
    PlanPassPlanned(hash, s, rules, env);
    var (progs, moves) := PlanPass(hash, s, rules, env).value;
    assert MoveShape(hash, rules, progs, moves[i]);
    var x := MoveIndices(moves[i])[k];
    assert progs[x].original == moves[i].lineage.original;
    hide PlanPass, Canonical, Parse, Classify, MoveShape, MoveIndices, PassMoves, AllShaped, MovesBag, ProgsBag, Emit, Compiles;
    ClassifyMeans(hash, x, s.kernel.attached[x], progs[x]);
  }

  // In every state of a pass, whatever call fails, every lineage that was attached has a program of
  // its own built on its original; no program counts for two lineages.
  lemma LineagesKeepTheirOwn(hash: DigestFn, s: Cgroup, rules: seq<DeviceRule>, env: Env) returns (own: seq<set<Prog>>)
    requires KernelOk(s.kernel) && CacheBare(hash, s.entry) && (Build(rules).Success? ==> Compiles(rules))
    requires PlanPass(hash, s, rules, env).Success?
    ensures |own| == |PlanPass(hash, s, rules, env).value.1| && forall i, j | 0 <= i < j < |own| :: own[i] !! own[j]
    ensures forall state, i | state in States(s.kernel, Pass(hash, s, rules, env).0.kernel)
                              && 0 <= i < |own| && !PlanPass(hash, s, rules, env).value.1[i].Add? ::
              exists p | p in own[i] :: p in state && BuiltOn(hash, p, PlanPass(hash, s, rules, env).value.1[i].lineage.original)
  {
    hide *;
    PassRuns(hash, s, rules, env);
    PlanLoadable(hash, s, rules, env);
    var moves := PlanPass(hash, s, rules, env).value.1;
    var k' := Pass(hash, s, rules, env).0.kernel;
    var jobs, loaded := OwnedJobs(s.kernel, k', moves);
    own := JobSets(jobs);
    forall state, i | state in States(s.kernel, k') && 0 <= i < |own| && !moves[i].Add?
      ensures exists p | p in own[i] :: p in state && BuiltOn(hash, p, moves[i].lineage.original)
    {
      var p := CoveredBy(jobs[i], moves[i], s.kernel.attached, loaded, state);
      JobBuiltOn(hash, s, rules, env, i, jobs[i], loaded, p);
    }
  }

  lemma OwnedJobs(k: Kernel, k': Kernel, moves: seq<Move>) returns (jobs: seq<Job>, loaded: seq<Prog>)
    requires OwnPrograms(k, k', moves)
    ensures |jobs| == |moves| && forall i | 0 <= i < |moves| :: JobFor(jobs[i], moves[i], k.attached, loaded)
    ensures forall i, j | 0 <= i < j < |jobs| :: jobs[i].Progs() !! jobs[j].Progs()
    ensures forall state, i | state in States(k, k') && 0 <= i < |jobs| :: jobs[i].Covered(state)
  {
    hide JobFor, States;
    jobs, loaded :| OwnJobs(k, k', moves, jobs, loaded);
  }

  function JobSets(jobs: seq<Job>): (r: seq<set<Prog>>)
    ensures |r| == |jobs| && forall i | 0 <= i < |jobs| :: r[i] == jobs[i].Progs()
  {
    seq(|jobs|, i requires 0 <= i < |jobs| => jobs[i].Progs())
  }

  lemma CoveredBy(job: Job, move: Move, attached: seq<Prog>, loaded: seq<Prog>, state: seq<Prog>) returns (p: Prog)
    requires JobFor(job, move, attached, loaded) && job.Covered(state) && !move.Add?
    ensures p in job.Progs() && p in state
  {
    hide Canonical;
    p := if job.KeepJob? then job.kept else if job.loaded in state then job.loaded else job.prior;
  }

  // --- The width of the states, against the planned end alone ---------------------------------------------------

  lemma RefusedStep(k: Kernel, probe: Probe, before: seq<Prog>, loaded: seq<Prog>, step: V2Plan.Step)
    requires StepFits(step, |before|, |loaded|) && k.faults == [Refuses]
    ensures var (k', _, r) := ExecuteStep(k, probe, before, loaded, step); r.Failure? && k'.attached == k.attached
  {
  }

  lemma RefusedFirst(k: Kernel, probe: Probe, before: seq<Prog>, plan: PassPlan)
    requires PlanFits(plan, |before|) && k.faults == [Refuses]
    ensures ExecutePlan(k, probe, before, plan).0.attached == k.attached
  {
    hide Canonical, ExecuteStep;
    if |plan.loads| == 0 && |plan.steps| > 0 {
      RefusedStep(k, probe, before, [], plan.steps[0]);
    }
  }

  // With the first kernel call refused a pass ends where it started.
  lemma RefusedPass(hash: DigestFn, s: Cgroup, rules: seq<DeviceRule>, env: Env)
    requires PlanPass(hash, s, rules, env).Success? && env.faults == [Refuses]
    ensures s.kernel.attached in States(s.kernel, Pass(hash, s, rules, env).0.kernel)
  {
    var moves := PlanPass(hash, s, rules, env).value.1;
    PlanPassFits(hash, s, rules, env);
    RefusedFirst(s.kernel.(faults := env.faults), s.probe, s.kernel.attached, Render(moves, 0));
    LastState(s.kernel, Pass(hash, s, rules, env).0.kernel);
    hide PlanPass, ExecutePlan, Render, States;
  }

  lemma SamePlan(hash: DigestFn, s: Cgroup, rules: seq<DeviceRule>, env: Env, faults: seq<Fault>)
    ensures PlanPass(hash, s, rules, env.(faults := faults)) == PlanPass(hash, s, rules, env)
  {
    hide ClassifyFrom, PassMoves;
  }

  // "Every intermediate state is at most as wide as the desired one": true under all failures
  // exactly when the start already is.
  lemma NeverWiderThanPlannedIff(cpu: Interp.Machine, hash: DigestFn, s: Cgroup, rules: seq<DeviceRule>, env: Env)
    requires KernelOk(s.kernel) && TrustedCgroup(cpu, hash, s) && AllowOnly(rules) && PlanPass(hash, s, rules, env).Success?
    ensures (forall faults: seq<Fault>, state: seq<Prog>, q: DevRequest ::
               state in States(s.kernel, Pass(hash, s, rules, env.(faults := faults)).0.kernel) && SetAllows(cpu, state, q)
               ==> PlannedAllows(cpu, hash, rules, PlanPass(hash, s, rules, env).value.1, q))
       <==> (forall q :: SetAllows(cpu, s.kernel.attached, q) ==> PlannedAllows(cpu, hash, rules, PlanPass(hash, s, rules, env).value.1, q))
  {
    hide *;
    var moves := PlanPass(hash, s, rules, env).value.1;
    var refused := env.(faults := [Refuses]);
    SamePlan(hash, s, rules, env, [Refuses]);
    RefusedPass(hash, s, rules, refused);
    forall faults: seq<Fault>, state: seq<Prog>, q: DevRequest
      | state in States(s.kernel, Pass(hash, s, rules, env.(faults := faults)).0.kernel) && SetAllows(cpu, state, q)
      ensures SetAllows(cpu, s.kernel.attached, q) || PlannedAllows(cpu, hash, rules, moves, q)
    {
      SamePlan(hash, s, rules, env, faults);
      PassNeverWider(cpu, hash, s, rules, env.(faults := faults), state, q);
    }
  }
}
