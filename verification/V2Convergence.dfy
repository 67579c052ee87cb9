/** Failed passes lose nothing, and one pass without failures ends as its rules say. */
module V2Convergence {
  import opened Wrappers
  import opened Words
  import opened AsmCanonical
  import opened DeviceFilter
  import opened FilterCorrect
  import opened Owned
  import opened OwnedRoundTrip
  import opened OwnedIdentity
  import opened Gate
  import Interp
  import opened WrapperCorrect
  import opened V2Plan
  import opened V2Kernel
  import opened V2Execution
  import opened V2Conservation
  import opened V2Jobs
  import opened V2Pass
  import opened V2Meaning
  import opened V2Safety

  // --- Originals ------------------------------------------------------------------------------------------------

  ghost predicate HasOriginal(hash: DigestFn, p: Prog, original: seq<Byte>) {
    Canonical(p.code).Some? && Innermost(hash, Canonical(p.code).value) == Success(original)
  }

  // A program of the set is built on the original.
  ghost predicate Attached(hash: DigestFn, progs: seq<Prog>, original: seq<Byte>) {
    exists p | p in progs :: HasOriginal(hash, p, original)
  }

  // Rules the daemon can compile and read back.
  ghost predicate Readable(rules: seq<DeviceRule>) {
    Compiles(rules) && RulesInRange(rules)
  }

  // The target of a lineage strips down to the lineage's original, under the lineage's nonce.
  lemma TargetStrips(hash: DigestFn, rules: seq<DeviceRule>, lineage: CachedLineage)
    requires Readable(rules) && BareOriginal(hash, lineage.original) && Target(hash, rules, lineage).Some?
    ensures var target := Target(hash, rules, lineage).value;
            && Innermost(hash, target) == Success(lineage.original)
            && Parse(hash, target) == Success(if |rules| == 0 then None else Some(OwnedProgram(lineage.nonce, Normalise(rules), lineage.original)))
  {
    hide Emit, Parse, Canonical, Build, RulesInRange, Normalise, Fits;
    var target := Target(hash, rules, lineage).value;
    if |rules| > 0 {
      EmitNeeds(hash, rules, lineage.nonce, lineage.original);
      RoundTrip(hash, rules, lineage.nonce, lineage.original);
    }
    InnermostStep(hash, target);
    InnermostStep(hash, lineage.original);
  }

  lemma ResultOriginal(hash: DigestFn, s: Cgroup, rules: seq<DeviceRule>, env: Env, i: nat, p: Prog)
    requires PlanPass(hash, s, rules, env).Success? && CacheBare(hash, s.entry) && Readable(rules)
    requires i < |PlanPass(hash, s, rules, env).value.1|
    requires ResultOf(p, PlanPass(hash, s, rules, env).value.1[i], s.kernel.attached)
    ensures HasOriginal(hash, p, PlanPass(hash, s, rules, env).value.1[i].lineage.original)
  {
    hide PlanPass, Canonical, Innermost, Target, CacheBare, ResultOf, Readable, Parse, BareOriginal;
    var lineage := PlanPass(hash, s, rules, env).value.1[i].lineage;
    LineageBare(hash, s, rules, env, i);
    ResultTarget(hash, s, rules, env, i, p);
    TargetStrips(hash, rules, lineage);
  }

  lemma AttachedOriginal(hash: DigestFn, s: Cgroup, rules: seq<DeviceRule>, env: Env, x: nat)
    requires PlanPass(hash, s, rules, env).Success? && x < |s.kernel.attached|
    ensures var progs := PlanPass(hash, s, rules, env).value.0;
            && |progs| == |s.kernel.attached| && ClassifiedAs(hash, s.kernel.attached[x], progs[x])
            && forall o :: HasOriginal(hash, s.kernel.attached[x], o) <==> o == progs[x].original
  {
    PlanPassPlanned(hash, s, rules, env);
    var progs := PlanPass(hash, s, rules, env).value.0;
    hide PlanPass, Canonical, Innermost, Classify, Parse, AllShaped, MovesBag, ProgsBag, Positioned, PassMoves;
    ClassifyMeans(hash, x, s.kernel.attached[x], progs[x]);
  }

  // The move of an attached program, and a program of its lineage in the state.
  lemma CoveredOriginal(hash: DigestFn, s: Cgroup, rules: seq<DeviceRule>, env: Env, state: seq<Prog>, x: nat)
    requires PlanPass(hash, s, rules, env).Success? && CacheBare(hash, s.entry) && Readable(rules) && x < |s.kernel.attached|
    requires OnTheWay(PlanPass(hash, s, rules, env).value.1, s.kernel.attached, state)
    ensures |PlanPass(hash, s, rules, env).value.0| == |s.kernel.attached|
    ensures Attached(hash, state, PlanPass(hash, s, rules, env).value.0[x].original)
  {
    PlanPassPlanned(hash, s, rules, env);
    AttachedOriginal(hash, s, rules, env, x);
    var (progs, moves) := PlanPass(hash, s, rules, env).value;
    AllPositions(progs, moves);
    assert x in Positions(moves);
    var i, k := MoveAt(moves, x);
    assert MoveShape(hash, rules, progs, moves[i]) && MoveCovered(moves[i], s.kernel.attached, state);
    assert progs[x].original == moves[i].lineage.original;
    hide PlanPass, Canonical, Innermost, Parse, AllShaped, MovesBag, ProgsBag, Positioned, PassMoves, LoadedOf, CacheBare, Readable,
         HasOriginal, Positions, OnTheWay, MoveShape, ClassifiedAs, Planned, Classify;
    if p :| p in state && ResultOf(p, moves[i], s.kernel.attached) {
      ResultOriginal(hash, s, rules, env, i, p);
    } else {
      assert AllAt(s.kernel.attached, MoveIndices(moves[i]), state) by { hide AllAt, MoveIndices; }
      assert s.kernel.attached[x] in state;
    }
  }

  // Whatever call fails, outside a rebuild the set of originals stays the same in every state.
  lemma OriginalsKept(hash: DigestFn, s: Cgroup, rules: seq<DeviceRule>, env: Env, state: seq<Prog>, original: seq<Byte>)
    requires KernelOk(s.kernel) && PlanPass(hash, s, rules, env).Success? && CacheBare(hash, s.entry) && Readable(rules)
    requires !PassEntry(s).rebuilding && state in States(s.kernel, Pass(hash, s, rules, env).0.kernel)
    ensures Attached(hash, state, original) <==> Attached(hash, s.kernel.attached, original)
  {
    hide *;
    PassState(hash, s, rules, env, state);
    if Attached(hash, state, original) {
      var p := AttachedBy(hash, state, original);
      StateOriginal(hash, s, rules, env, state, p, original);
    }
    if Attached(hash, s.kernel.attached, original) {
      var p := AttachedBy(hash, s.kernel.attached, original);
      var x :| 0 <= x < |s.kernel.attached| && s.kernel.attached[x] == p;
      AttachedOriginal(hash, s, rules, env, x);
      CoveredOriginal(hash, s, rules, env, state, x);
    }
  }

  lemma AttachedBy(hash: DigestFn, progs: seq<Prog>, original: seq<Byte>) returns (p: Prog)
    requires Attached(hash, progs, original)
    ensures p in progs && HasOriginal(hash, p, original)
  {
    hide HasOriginal;
    p :| p in progs && HasOriginal(hash, p, original);
  }

  lemma StateOriginal(hash: DigestFn, s: Cgroup, rules: seq<DeviceRule>, env: Env, state: seq<Prog>, p: Prog, original: seq<Byte>)
    requires PlanPass(hash, s, rules, env).Success? && CacheBare(hash, s.entry) && Readable(rules) && !PassEntry(s).rebuilding
    requires OnTheWay(PlanPass(hash, s, rules, env).value.1, s.kernel.attached, state)
    requires p in state && HasOriginal(hash, p, original)
    ensures Attached(hash, s.kernel.attached, original)
  {
    var (progs, moves) := PlanPass(hash, s, rules, env).value;
    hide PlanPass, CacheBare, Readable, HasOriginal, LoadedOf, MoveCovered, PassEntry;
    if p !in s.kernel.attached {
      var i :| 0 <= i < |moves| && LoadedOf(p, moves[i]);
      hide OnTheWay;
      LoadedIsResult(p, moves[i], s.kernel.attached);
      ResultOriginal(hash, s, rules, env, i, p);
      OneOriginal(hash, p, original, moves[i].lineage.original);
      LineageSource(hash, s, rules, env, i);
      var k: nat :| k < |progs| && progs[k].original == moves[i].lineage.original;
      PlannedParts(hash, s, rules, env);
      hide Positioned, MovesBag, ProgsBag, AllShaped, MovesFit, ClassifiedAs;
      AttachedOriginal(hash, s, rules, env, k);
      assert s.kernel.attached[k] in s.kernel.attached;
    }
  }

  lemma OneOriginal(hash: DigestFn, p: Prog, a: seq<Byte>, b: seq<Byte>)
    requires HasOriginal(hash, p, a) && HasOriginal(hash, p, b)
    ensures a == b
  {
    hide Canonical, Innermost;
  }

  // --- Trust ------------------------------------------------------------------------------------------------------

  lemma NormalAllowOnly(rules: seq<DeviceRule>)
    requires AllowOnly(rules)
    ensures AllowOnly(Normalise(rules))
  {
    EffectiveAllowOnly(rules);
    var effective := Effective(rules);
    assert forall k | 0 <= k < |effective| :: Normalise(rules)[k] == NormalRule(effective[k]) && NormalRule(effective[k]).allow == effective[k].allow;
  }

  lemma {:induction false} EffectiveAllowOnly(rules: seq<DeviceRule>)
    requires AllowOnly(rules)
    ensures AllowOnly(Effective(rules))
  {
    hide HasFullWildcard;
    if |rules| > 0 {
      assert forall k | 0 <= k < |rules[1..]| :: rules[1..][k] == rules[k + 1];
      EffectiveAllowOnly(rules[1..]);
    }
  }

  lemma TargetStack(cpu: Interp.Machine, hash: DigestFn, rules: seq<DeviceRule>, lineage: CachedLineage)
    requires Readable(rules) && AllowOnly(rules) && Trusted(cpu, lineage.original) && BareOriginal(hash, lineage.original)
    requires Target(hash, rules, lineage).Some?
    ensures AllowStack(cpu, hash, Target(hash, rules, lineage).value)
  {
    hide Parse, Trusted, Canonical, Readable, Emit, Normalise, Innermost;
    TargetStrips(hash, rules, lineage);
    NormalAllowOnly(rules);
    assert AllowStack(cpu, hash, lineage.original);
  }

  // A pass with allow-only rules leaves every program trusted, wherever it stops.
  lemma PassKeepsTrust(cpu: Interp.Machine, hash: DigestFn, s: Cgroup, rules: seq<DeviceRule>, env: Env)
    requires KernelOk(s.kernel) && TrustedCgroup(cpu, hash, s) && Readable(rules) && AllowOnly(rules)
    ensures TrustedCgroup(cpu, hash, Pass(hash, s, rules, env).0)
  {
    hide *;
    if PlanPass(hash, s, rules, env).Success? {
      var moves, s' := PlanPass(hash, s, rules, env).value.1, Pass(hash, s, rules, env).0;
      PassEnds(hash, s, rules, env);
      EntryAfter(hash, s, rules, env);
      forall p | p in s'.kernel.attached && p !in s.kernel.attached
        ensures Canonical(p.code).Some? && AllowStack(cpu, hash, Canonical(p.code).value)
      {
        var i := NewcomerMove(moves, s.kernel.attached, s'.kernel.attached, p);
        LoadedStack(cpu, hash, s, rules, env, i, p);
      }
      TrustedIsBare(cpu, hash, s);
      forall i | 0 <= i < |moves|
        ensures Trusted(cpu, moves[i].lineage.original) && BareOriginal(hash, moves[i].lineage.original)
      {
        LineageTrusted(cpu, hash, s, rules, env, i);
        LineageBare(hash, s, rules, env, i);
      }
      TrustedAfter(cpu, hash, s, s', moves);
    } else {
      Unplanned(hash, s, rules, env);
    }
  }

  lemma Unplanned(hash: DigestFn, s: Cgroup, rules: seq<DeviceRule>, env: Env)
    requires PlanPass(hash, s, rules, env).Failure?
    ensures Pass(hash, s, rules, env).0 == s
  {
    hide PlanPass;
  }

  lemma TrustedAfter(cpu: Interp.Machine, hash: DigestFn, s: Cgroup, s': Cgroup, moves: seq<Move>)
    requires TrustedCgroup(cpu, hash, s)
    requires forall p | p in s'.kernel.attached && p !in s.kernel.attached :: Canonical(p.code).Some? && AllowStack(cpu, hash, Canonical(p.code).value)
    requires forall i | 0 <= i < |moves| :: Trusted(cpu, moves[i].lineage.original) && BareOriginal(hash, moves[i].lineage.original)
    requires forall l | l in s'.entry.lineages :: exists i | 0 <= i < |moves| :: moves[i].lineage == l
    ensures TrustedCgroup(cpu, hash, s')
  {
    hide Canonical, AllowStack, Trusted, Parse;
  }

  lemma LoadedStack(cpu: Interp.Machine, hash: DigestFn, s: Cgroup, rules: seq<DeviceRule>, env: Env, i: nat, p: Prog)
    requires PlanPass(hash, s, rules, env).Success? && TrustedCgroup(cpu, hash, s) && Readable(rules) && AllowOnly(rules)
    requires i < |PlanPass(hash, s, rules, env).value.1| && LoadedOf(p, PlanPass(hash, s, rules, env).value.1[i])
    ensures Canonical(p.code).Some? && AllowStack(cpu, hash, Canonical(p.code).value)
  {
    hide *;
    var move := PlanPass(hash, s, rules, env).value.1[i];
    TrustedIsBare(cpu, hash, s);
    LineageTrusted(cpu, hash, s, rules, env, i);
    LineageBare(hash, s, rules, env, i);
    LoadedIsResult(p, move, s.kernel.attached);
    ResultTarget(hash, s, rules, env, i, p);
    TargetStack(cpu, hash, rules, move.lineage);
  }

  lemma {:induction false} RenderLineages(moves: seq<Move>, load: nat)
    ensures |Render(moves, load).lineages| == |moves|
    ensures forall i | 0 <= i < |moves| :: Render(moves, load).lineages[i] == moves[i].lineage
    decreases |moves|
  {
    hide MoveSteps, MoveLoads;
    if |moves| > 0 {
      RenderLineages(moves[1..], load + |MoveLoads(moves[0])|);
    }
  }

  // The cache after a planned pass: the plan's lineages, rebuilding only if it failed to.
  lemma EntryAfter(hash: DigestFn, s: Cgroup, rules: seq<DeviceRule>, env: Env)
    requires PlanPass(hash, s, rules, env).Success?
    ensures var moves := PlanPass(hash, s, rules, env).value.1;
            var (s', r) := Pass(hash, s, rules, env);
            && |s'.entry.lineages| == |moves| && (forall i | 0 <= i < |moves| :: s'.entry.lineages[i] == moves[i].lineage)
            && (forall l | l in s'.entry.lineages :: exists i | 0 <= i < |moves| :: moves[i].lineage == l)
            && s'.entry.rebuilding == (PassEntry(s).rebuilding && r.Failure?)
  {
    hide PlanPass, ExecutePlan, Render;
    PlanPassFits(hash, s, rules, env);
    RenderLineages(PlanPass(hash, s, rules, env).value.1, 0);
  }

  // --- Success ----------------------------------------------------------------------------------------------------

  // The pass can classify and wrap the program.
  ghost predicate Wrappable(hash: DigestFn, p: Prog) {
    && Canonical(p.code).Some? && Innermost(hash, Canonical(p.code).value).Success?
    && GateOriginal(Innermost(hash, Canonical(p.code).value).value, p.meta).Success?
  }

  ghost predicate AllWrappable(hash: DigestFn, progs: seq<Prog>) {
    forall p | p in progs :: Wrappable(hash, p)
  }

  lemma GateNeeds(original: seq<Byte>, meta: ProgMeta)
    requires GateOriginal(original, meta).Success?
    ensures meta == ProgMeta(true, 0) && original != []
  {
    hide GateFrom;
  }

  lemma WrappableClassifies(hash: DigestFn, p: Prog, k: nat)
    requires Wrappable(hash, p)
    ensures Classify(hash, k, p).Success?
  {
    hide Canonical, Parse, GateOriginal;
    InnermostOfOwned(hash, Canonical(p.code).value);
  }

  lemma {:induction false} ClassifySucceeds(hash: DigestFn, progs: seq<Prog>, index: nat)
    requires AllWrappable(hash, progs) && index <= |progs|
    ensures ClassifyFrom(hash, progs, {}, index).Success?
    decreases |progs| - index
  {
    hide Classify, Wrappable;
    if index < |progs| {
      assert progs[index] in progs;
      WrappableClassifies(hash, progs[index], index);
      ClassifySucceeds(hash, progs, index + 1);
    }
  }

  lemma {:induction false} GrantSucceeds(hash: DigestFn, rules: seq<DeviceRule>, groups: seq<WrapperGroup>)
    requires Build(rules).Success? && forall k | 0 <= k < |groups| :: |groups[k].members| > 0 && IsOriginal(groups[k].original)
    ensures GrantMoves(hash, rules, groups).Success?
  {
    hide Emit, Build, IsOriginal, GrantMove;
    if |groups| > 0 {
      EmitDecodes(hash, rules, groups[0].nonce, groups[0].original);
      assert forall k | 0 <= k < |groups[1..]| :: groups[1..][k] == groups[k + 1];
      GrantSucceeds(hash, rules, groups[1..]);
    }
  }

  lemma {:induction false} BareSucceeds(hash: DigestFn, rules: seq<DeviceRule>, bares: seq<AttachedProg>, nonces: seq<U64>)
    requires Build(rules).Success? && |bares| <= |nonces|
    requires forall k | 0 <= k < |bares| :: GateOriginal(bares[k].raw, bares[k].meta).Success? && IsOriginal(bares[k].raw)
    ensures BareMoves(hash, rules, bares, nonces).Success?
  {
    hide Emit, Build, IsOriginal, GateOriginal;
    if |bares| > 0 {
      EmitDecodes(hash, rules, nonces[0], bares[0].raw);
      assert forall k | 0 <= k < |bares[1..]| :: bares[1..][k] == bares[k + 1];
      BareSucceeds(hash, rules, bares[1..], nonces[1..]);
    }
  }

  lemma {:induction false} FewerBares(progs: seq<AttachedProg>)
    ensures |BaresOf(progs)| <= |progs|
  {
    if |progs| > 0 {
      FewerBares(progs[..|progs| - 1]);
    }
  }

  // Classified programs that pass the gate can be planned for, outside a rebuild.
  lemma PlanSucceeds(hash: DigestFn, rules: seq<DeviceRule>, progs: seq<AttachedProg>, entry: CacheEntry, nonces: seq<U64>)
    requires Build(rules).Success? && !entry.rebuilding && |progs| <= |nonces|
    requires forall p | p in progs :: IsOriginal(p.original) && GateOriginal(p.original, p.meta).Success? && (!p.owned ==> p.original == p.raw)
    ensures PassMoves(hash, rules, progs, entry, nonces).Success?
  {
    hide Build, IsOriginal, GateOriginal, GroupsOf, BaresOf, GrantMoves, BareMoves, RestoreAll;
    GroupsNonEmpty(progs);
    GroupingSound(progs);
    FewerBares(progs);
    var groups, bares := GroupsOf(progs), BaresOf(progs);
    forall k | 0 <= k < |groups|
      ensures IsOriginal(groups[k].original)
    {
      assert GroupOf(progs, groups[k]);
      assert groups[k].members[0] in groups[k].members;
    }
    GrantSucceeds(hash, rules, groups);
    BareSucceeds(hash, rules, bares, nonces);
  }

  // Nothing in the way: the query, the dumps and every kernel call work, and there are nonces enough.
  ghost predicate Calm(env: Env, s: Cgroup) {
    && !env.queryFails && env.inaccessible == 0 && env.multi && env.unreadable == {}
    && env.faults == [] && |s.kernel.attached| <= |env.nonces|
  }

  lemma CalmPassPlans(hash: DigestFn, s: Cgroup, rules: seq<DeviceRule>, env: Env)
    requires Calm(env, s) && AllWrappable(hash, s.kernel.attached) && |s.kernel.attached| > 0
    requires !s.entry.rebuilding && Build(rules).Success?
    ensures PlanPass(hash, s, rules, env).Success?
  {
    hide Classify, PassMoves, Build, GateOriginal, IsOriginal, Wrappable, ClassifyFrom;
    var attached := s.kernel.attached;
    ClassifySucceeds(hash, attached, 0);
    ClassifiedEach(hash, attached, {}, 0);
    var progs := ClassifyFrom(hash, attached, {}, 0).value;
    forall k | 0 <= k < |progs|
      ensures IsOriginal(progs[k].original) && GateOriginal(progs[k].original, progs[k].meta).Success?
      ensures !progs[k].owned ==> progs[k].original == progs[k].raw
    {
      assert Classify(hash, k, attached[k]) == Success(progs[k - 0]);
      assert attached[k] in attached;
      WrappableMeans(hash, k, attached[k], progs[k]);
    }
    PlanSucceeds(hash, rules, progs, PassEntry(s), env.nonces);
  }

  lemma WrappableMeans(hash: DigestFn, k: nat, p: Prog, a: AttachedProg)
    requires Wrappable(hash, p) && Classify(hash, k, p) == Success(a)
    ensures IsOriginal(a.original) && GateOriginal(a.original, a.meta).Success? && (!a.owned ==> a.original == a.raw)
  {
    hide Classify, Canonical, GateOriginal, Parse, Innermost;
    ClassifyMeans(hash, k, p, a);
    GateNeeds(a.original, a.meta);
  }

  lemma LoadedWrappable(hash: DigestFn, s: Cgroup, rules: seq<DeviceRule>, env: Env, i: nat, p: Prog)
    requires PlanPass(hash, s, rules, env).Success? && CacheBare(hash, s.entry) && Readable(rules) && !PassEntry(s).rebuilding
    requires AllWrappable(hash, s.kernel.attached)
    requires i < |PlanPass(hash, s, rules, env).value.1| && LoadedOf(p, PlanPass(hash, s, rules, env).value.1[i])
    ensures Wrappable(hash, p)
  {
    var (progs, moves) := PlanPass(hash, s, rules, env).value;
    LoadedIsResult(p, moves[i], s.kernel.attached);
    assert p.meta == ProgMeta(true, 0);
    hide PlanPass, CacheBare, Readable, PassEntry, Canonical, Innermost, GateOriginal, LoadedOf;
    ResultOriginal(hash, s, rules, env, i, p);
    LineageSource(hash, s, rules, env, i);
    PlannedParts(hash, s, rules, env);
    hide Positioned, MovesBag, ProgsBag, AllShaped, MovesFit, ClassifiedAs, ResultOf;
    var k: nat :| k < |progs| && progs[k].original == moves[i].lineage.original;
    AttachedOriginal(hash, s, rules, env, k);
    assert s.kernel.attached[k] in s.kernel.attached && HasOriginal(hash, s.kernel.attached[k], progs[k].original);
    assert GateOriginal(progs[k].original, s.kernel.attached[k].meta).Success?;
    GateNeeds(progs[k].original, s.kernel.attached[k].meta);
  }

  // --- Whole runs ---------------------------------------------------------------------------------------------------

  // A cgroup a pass can work on, outside a rebuild.
  ghost predicate Sound(cpu: Interp.Machine, hash: DigestFn, s: Cgroup) {
    && KernelOk(s.kernel) && |s.kernel.attached| > 0 && !s.entry.rebuilding
    && TrustedCgroup(cpu, hash, s) && AllWrappable(hash, s.kernel.attached)
  }

  lemma PassKeepsWrappable(cpu: Interp.Machine, hash: DigestFn, s: Cgroup, rules: seq<DeviceRule>, env: Env)
    requires Sound(cpu, hash, s) && Readable(rules) && PlanPass(hash, s, rules, env).Success?
    ensures var s' := Pass(hash, s, rules, env).0;
            AllWrappable(hash, s'.kernel.attached) && |s'.kernel.attached| > 0
            && forall o :: Attached(hash, s'.kernel.attached, o) <==> Attached(hash, s.kernel.attached, o)
  {
    hide *;
    var moves, s' := PlanPass(hash, s, rules, env).value.1, Pass(hash, s, rules, env).0;
    SoundParts(cpu, hash, s);
    PassEnds(hash, s, rules, env);
    forall p | p in s'.kernel.attached && p !in s.kernel.attached
      ensures Wrappable(hash, p)
    {
      var i := NewcomerMove(moves, s.kernel.attached, s'.kernel.attached, p);
      LoadedWrappable(hash, s, rules, env, i, p);
    }
    WrappableAfter(hash, s.kernel.attached, s'.kernel.attached);
    LastState(s.kernel, s'.kernel);
    forall o
      ensures Attached(hash, s'.kernel.attached, o) <==> Attached(hash, s.kernel.attached, o)
    {
      OriginalsKept(hash, s, rules, env, s'.kernel.attached, o);
    }
    AttachedOriginal(hash, s, rules, env, 0);
    SomethingAttached(hash, s.kernel.attached, s'.kernel.attached, PlanPass(hash, s, rules, env).value.0[0].original);
  }

  lemma WrappableAfter(hash: DigestFn, before: seq<Prog>, after: seq<Prog>)
    requires AllWrappable(hash, before) && forall p | p in after && p !in before :: Wrappable(hash, p)
    ensures AllWrappable(hash, after)
  {
    hide Wrappable;
  }

  lemma SomethingAttached(hash: DigestFn, before: seq<Prog>, after: seq<Prog>, original: seq<Byte>)
    requires |before| > 0 && HasOriginal(hash, before[0], original)
    requires Attached(hash, before, original) ==> Attached(hash, after, original)
    ensures |after| > 0
  {
    hide HasOriginal;
    assert before[0] in before;
  }

  // Rules a pass may be tried with: those that do not build fail before anything changes.
  ghost predicate Triable(rules: seq<DeviceRule>) {
    Build(rules).Success? ==> Readable(rules) && AllowOnly(rules)
  }

  lemma NoRulesBuild()
    ensures Build([]).Success?
  {
  }

  lemma TargetBuilds(hash: DigestFn, rules: seq<DeviceRule>, lineage: CachedLineage)
    requires Target(hash, rules, lineage).Some?
    ensures Build(rules).Success?
  {
    hide Emit, Build;
    if |rules| > 0 {
      EmitNeeds(hash, rules, lineage.nonce, lineage.original);
    } else {
      NoRulesBuild();
      assert rules == [];
    }
  }

  // A pass over attached programs is planned only with rules that build.
  lemma PlannedBuilds(hash: DigestFn, s: Cgroup, rules: seq<DeviceRule>, env: Env)
    requires PlanPass(hash, s, rules, env).Success? && |s.kernel.attached| > 0
    ensures Build(rules).Success?
  {
    hide PlanPass, Build, Target, MovesFit, MovesBag, ProgsBag, Positioned;
    AttachedPlanned(hash, s, rules, env, 0);
    PlannedParts(hash, s, rules, env);
    var (progs, moves) := PlanPass(hash, s, rules, env).value;
    var i :| 0 <= i < |moves| && moves[i].lineage.original == progs[0].original;
    assert MoveShape(hash, rules, progs, moves[i]);
    TargetBuilds(hash, rules, moves[i].lineage);
  }

  lemma TriableBuilds(rules: seq<DeviceRule>)
    requires Triable(rules) && Build(rules).Success?
    ensures Readable(rules) && AllowOnly(rules)
  {
    hide Build, Readable, AllowOnly;
  }

  lemma ReadableTriable(rules: seq<DeviceRule>)
    requires Readable(rules) && AllowOnly(rules)
    ensures Triable(rules)
  {
    hide Build, Readable, AllowOnly;
  }

  // Every pass keeps such a cgroup one, with the same originals, wherever it stops.
  lemma PassKeepsSound(cpu: Interp.Machine, hash: DigestFn, s: Cgroup, rules: seq<DeviceRule>, env: Env)
    requires Sound(cpu, hash, s) && Triable(rules)
    ensures Sound(cpu, hash, Pass(hash, s, rules, env).0)
    ensures forall o :: Attached(hash, Pass(hash, s, rules, env).0.kernel.attached, o) <==> Attached(hash, s.kernel.attached, o)
  {
    hide *;
    var s' := Pass(hash, s, rules, env).0;
    if PlanPass(hash, s, rules, env).Success? {
      SoundParts(cpu, hash, s);
      PlannedBuilds(hash, s, rules, env);
      TriableBuilds(rules);
      PassEnds(hash, s, rules, env);
      EntryAfter(hash, s, rules, env);
      PassKeepsTrust(cpu, hash, s, rules, env);
      PassKeepsWrappable(cpu, hash, s, rules, env);
      SoundAgain(cpu, hash, s');
    } else {
      Unplanned(hash, s, rules, env);
    }
  }

  lemma SoundAgain(cpu: Interp.Machine, hash: DigestFn, s: Cgroup)
    requires KernelOk(s.kernel) && TrustedCgroup(cpu, hash, s) && AllWrappable(hash, s.kernel.attached)
    requires |s.kernel.attached| > 0 && !s.entry.rebuilding
    ensures Sound(cpu, hash, s)
  {
  }

  datatype Attempt = Attempt(rules: seq<DeviceRule>, env: Env)

  // Any number of passes, each with its own rules and failures.
  function AfterAttempts(hash: DigestFn, s: Cgroup, attempts: seq<Attempt>): Cgroup
    decreases |attempts|
  {
    hide Pass;
    if |attempts| == 0 then s
    else AfterAttempts(hash, Pass(hash, s, attempts[0].rules, attempts[0].env).0, attempts[1..])
  }

  lemma {:induction false} AttemptsKeepSound(cpu: Interp.Machine, hash: DigestFn, s: Cgroup, attempts: seq<Attempt>)
    requires Sound(cpu, hash, s) && forall a | a in attempts :: Triable(a.rules)
    ensures Sound(cpu, hash, AfterAttempts(hash, s, attempts))
    ensures forall o :: Attached(hash, AfterAttempts(hash, s, attempts).kernel.attached, o) <==> Attached(hash, s.kernel.attached, o)
    decreases |attempts|
  {
    hide Sound, Pass, Triable, Attached;
    if |attempts| > 0 {
      assert attempts[0] in attempts;
      PassKeepsSound(cpu, hash, s, attempts[0].rules, attempts[0].env);
      AttemptsKeepSound(cpu, hash, Pass(hash, s, attempts[0].rules, attempts[0].env).0, attempts[1..]);
    }
  }

  // Convergence: from whatever any number of passes left, failed or not, one pass without failures
  // ends with the same originals, letting a request through exactly when a rule grants it or every
  // one of those originals does.
  lemma Converges(cpu: Interp.Machine, hash: DigestFn, s: Cgroup, attempts: seq<Attempt>, rules: seq<DeviceRule>, env: Env, q: DevRequest)
    requires Sound(cpu, hash, s) && forall a | a in attempts :: Triable(a.rules)
    requires Readable(rules) && AllowOnly(rules) && Calm(env, AfterAttempts(hash, s, attempts))
    ensures var (end, r) := Pass(hash, AfterAttempts(hash, s, attempts), rules, env);
            && r.Success?
            && (forall o :: Attached(hash, end.kernel.attached, o) <==> Attached(hash, s.kernel.attached, o))
            && (SetAllows(cpu, end.kernel.attached, q)
                <==> LastMatch(rules, q).Some? || forall o | Attached(hash, s.kernel.attached, o) :: Allows(cpu, o, q))
  {
    hide *;
    AttemptsKeepSound(cpu, hash, s, attempts);
    var reached := AfterAttempts(hash, s, attempts);
    CalmPassSucceeds(cpu, hash, reached, rules, env);
    ReadableTriable(rules);
    PassKeepsSound(cpu, hash, reached, rules, env);
    SoundParts(cpu, hash, reached);
    PassArrives(cpu, hash, reached, rules, env, q);
    LineagesAreAttached(cpu, hash, reached, rules, env);
    var moves := PlanPass(hash, reached, rules, env).value.1;
    assert (forall i | 0 <= i < |moves| :: Allows(cpu, moves[i].lineage.original, q))
      <==> (forall o | Attached(hash, reached.kernel.attached, o) :: Allows(cpu, o, q));
  }

  lemma SoundParts(cpu: Interp.Machine, hash: DigestFn, s: Cgroup)
    requires Sound(cpu, hash, s)
    ensures KernelOk(s.kernel) && TrustedCgroup(cpu, hash, s) && CacheBare(hash, s.entry) && AllWrappable(hash, s.kernel.attached)
    ensures |s.kernel.attached| > 0 && !PassEntry(s).rebuilding
  {
    hide KernelOk, AllWrappable;
    TrustedIsBare(cpu, hash, s);
  }

  lemma CalmPassSucceeds(cpu: Interp.Machine, hash: DigestFn, s: Cgroup, rules: seq<DeviceRule>, env: Env)
    requires Sound(cpu, hash, s) && Readable(rules) && Calm(env, s)
    ensures PlanPass(hash, s, rules, env).Success? && Pass(hash, s, rules, env).1.Success?
  {
    hide Pass, PlanPass, TrustedCgroup, AllWrappable, KernelOk, Build, RulesInRange, Fits;
    CalmPassPlans(hash, s, rules, env);
    SoundParts(cpu, hash, s);
    PlanLoadable(hash, s, rules, env);
    PassRuns(hash, s, rules, env);
  }

  // The lineages of a plan are exactly the attached originals, outside a rebuild.
  lemma LineagesAreAttached(cpu: Interp.Machine, hash: DigestFn, s: Cgroup, rules: seq<DeviceRule>, env: Env)
    requires Sound(cpu, hash, s) && PlanPass(hash, s, rules, env).Success?
    ensures var moves := PlanPass(hash, s, rules, env).value.1;
            && (forall i | 0 <= i < |moves| :: Attached(hash, s.kernel.attached, moves[i].lineage.original))
            && forall o | Attached(hash, s.kernel.attached, o) :: exists i | 0 <= i < |moves| :: moves[i].lineage.original == o
  {
    hide *;
    SoundParts(cpu, hash, s);
    var (progs, moves) := PlanPass(hash, s, rules, env).value;
    PlannedParts(hash, s, rules, env);
    forall i | 0 <= i < |moves|
      ensures Attached(hash, s.kernel.attached, moves[i].lineage.original)
    {
      LineageSource(hash, s, rules, env, i);
      var k: nat :| k < |progs| && progs[k].original == moves[i].lineage.original;
      AttachedOriginal(hash, s, rules, env, k);
      AttachedAt(hash, s.kernel.attached, k, progs[k].original);
    }
    forall o | Attached(hash, s.kernel.attached, o)
      ensures exists i | 0 <= i < |moves| :: moves[i].lineage.original == o
    {
      var p := AttachedBy(hash, s.kernel.attached, o);
      var x :| 0 <= x < |s.kernel.attached| && s.kernel.attached[x] == p;
      AttachedOriginal(hash, s, rules, env, x);
      AttachedPlanned(hash, s, rules, env, x);
    }
  }

  lemma AttachedAt(hash: DigestFn, progs: seq<Prog>, k: nat, original: seq<Byte>)
    requires k < |progs| && HasOriginal(hash, progs[k], original)
    ensures Attached(hash, progs, original)
  {
    hide HasOriginal;
    assert progs[k] in progs;
  }

  // Every attached program's original has a lineage in the plan.
  lemma AttachedPlanned(hash: DigestFn, s: Cgroup, rules: seq<DeviceRule>, env: Env, x: nat)
    requires PlanPass(hash, s, rules, env).Success? && x < |s.kernel.attached|
    ensures var (progs, moves) := PlanPass(hash, s, rules, env).value;
            |progs| == |s.kernel.attached| && exists i | 0 <= i < |moves| :: moves[i].lineage.original == progs[x].original
  {
    PlannedParts(hash, s, rules, env);
    var (progs, moves) := PlanPass(hash, s, rules, env).value;
    hide PlanPass, MovesBag, MovesFit, MoveIndices;
    AllPositions(progs, moves);
    assert x in Positions(moves);
    var i, k := MoveAt(moves, x);
    assert MoveShape(hash, rules, progs, moves[i]);
    assert moves[i].lineage.original == progs[x].original;
  }

}
