/** Concrete cgroups that show where a promise fails: a state wider than the planned end, and a lineage
    that does not come back. */
module V2Witness {
  import opened Wrappers
  import opened Words
  import opened Asm
  import opened AsmCanonical
  import opened DeviceFilter
  import Interp
  import opened FilterCorrect
  import opened Owned
  import opened OwnedRoundTrip
  import opened OwnedIdentity
  import opened Gate
  import opened WrapperCorrect
  import opened V2Plan
  import opened V2Kernel
  import opened V2Execution
  import opened V2Conservation
  import opened V2Jobs
  import opened V2Pass
  import opened V2Meaning
  import opened V2Safety
  import opened V2Convergence
  import opened V2FixedPoint
  import opened V2Recovery
  import opened V2Counts

  // --- A runtime filter that denies everything --------------------------------------------------------------------

  const DENY: seq<Instruction> := [Alu32Imm(MOV, R0, 0), Exit()]

  lemma DenyStable()
    ensures forall k | 0 <= k < |DENY| :: Stable(DENY[k])
  {
    hide Stable;
    BuilderStable(Alu32Imm(MOV, R0, 0));
    BuilderStable(Exit());
  }

  lemma EncodedFixed(instructions: seq<Instruction>, raw: seq<Byte>)
    requires EncodeAll(instructions) == Success(raw) && DecodeAll(raw) == Success(instructions) && |instructions| > 0
    ensures IsOriginal(raw)
  {
    DecodeNothing(raw, instructions);
    hide EncodeAt, DecodeAt;
  }

  lemma NoMarkerNoWrapper(hash: DigestFn, raw: seq<Byte>)
    requires DecodeAll(raw) == Success(DENY)
    ensures Parse(hash, raw) == Success(None)
  {
    hide DecodeAll, Validate;
  }

  lemma DenyBytes(hash: DigestFn) returns (raw: seq<Byte>)
    ensures DecodeAll(raw) == Success(DENY) && IsOriginal(raw) && BareOriginal(hash, raw)
  {
    hide Stable, EncodeAt, DecodeAt, Parse, Canonical;
    DenyStable();
    StableRoundTrip(DENY, 0, 0);
    raw := EncodeAll(DENY).value;
    EncodedFixed(DENY, raw);
    NoMarkerNoWrapper(hash, raw);
  }

  // It returns 0 after two steps, whatever the request.
  lemma DenyRuns(cpu: Interp.Machine, q: DevRequest, n: nat)
    ensures Interp.Iterate(cpu, DENY, q, Interp.At(0, Interp.EntryRegs()), n + 2) == Interp.Done(Interp.Verdict(0))
    ensures Interp.Iterate(cpu, DENY, q, Interp.At(0, Interp.EntryRegs()), 1).At?
    ensures Interp.Iterate(cpu, DENY, q, Interp.At(0, Interp.EntryRegs()), 0).At?
  {
    hide Interp.StepOne, Interp.Iterate;
    var entry := Interp.At(0, Interp.EntryRegs());
    var stored: Interp.Registers := Interp.EntryRegs()[0 := Some(0)];
    StepStore(cpu, q, 0, 0, Interp.EntryRegs());
    StepExit(cpu, q, 1, stored);
    TwoSteps(cpu, DENY, q, entry, Interp.At(1, stored), Interp.Verdict(0));
    Interp.IterateAdds(cpu, DENY, q, entry, 2, n);
    Interp.DoneStays(cpu, DENY, q, Interp.Verdict(0), n);
  }

  lemma TwoSteps(cpu: Interp.Machine, program: seq<Instruction>, q: DevRequest, a: Interp.Config, b: Interp.Config, outcome: Interp.Outcome)
    requires Interp.Step(cpu, program, q, a) == b && Interp.Step(cpu, program, q, b) == Interp.Done(outcome)
    ensures Interp.Iterate(cpu, program, q, a, 0) == a && Interp.Iterate(cpu, program, q, a, 1) == b
    ensures Interp.Iterate(cpu, program, q, a, 2) == Interp.Done(outcome)
  {
    hide Interp.Step;
    assert Interp.Iterate(cpu, program, q, b, 1) == Interp.Done(outcome);
  }

  lemma DenyTrusted(cpu: Interp.Machine, raw: seq<Byte>)
    requires DecodeAll(raw) == Success(DENY) && IsOriginal(raw)
    ensures Trusted(cpu, raw)
  {
    hide DecodeAt, IsOriginal, Interp.Iterate;
    assert Reloadable(DENY);
    hide Reloadable;
    forall q
      ensures Interp.ReadsOnlyWritten(cpu, DENY, q)
    {
      forall n: nat
        ensures Interp.Iterate(cpu, DENY, q, Interp.At(0, Interp.EntryRegs()), n) != Interp.Done(Interp.Fault(Interp.UnsetRead))
      {
        DenyRuns(cpu, q, if n < 2 then 0 else n - 2);
      }
    }
  }

  lemma DenyDenies(cpu: Interp.Machine, raw: seq<Byte>, q: DevRequest)
    requires DecodeAll(raw) == Success(DENY)
    ensures !Allows(cpu, raw, q)
  {
    hide DecodeAt, Interp.Iterate;
    forall v: U64 | Interp.Decides(cpu, DENY, q, v)
      ensures v == 0
    {
      var n: nat :| Interp.Iterate(cpu, DENY, q, Interp.At(0, Interp.EntryRegs()), n) == Interp.Done(Interp.Verdict(v));
      DenyRuns(cpu, q, if n < 2 then 0 else n - 2);
    }
  }

  const META: ProgMeta := ProgMeta(true, 0)

  // --- A grant of the null device ---------------------------------------------------------------------------------

  const GRANT: DeviceRule := DeviceRule(true, "c", Some(1), Some(3), "rwm")
  const NULL_DEVICE: DevRequest := DevRequest(2, 2, 1, 3)

  lemma GrantChecks()
    ensures Check(GRANT) == Success(Checked(Some(2), ACC_ALL, 1, 3, true))
  {
    var access := GRANT.access;
    assert access[0] == 'r' && access[1] == 'w' && access[2] == 'm';
    KnownLetters(access);
  }

  lemma GrantBuilds()
    ensures Compiles([GRANT]) && LastMatch([GRANT], NULL_DEVICE).Some?
  {
    GrantChecks();
    hide Check, Resolve;
    assert [GRANT][1..] == [];
    var c := Checked(Some(2), ACC_ALL, 1, 3, true);
    assert Build([]) == Success(Builder([], false));
    assert Build([GRANT]) == Append(Builder([], false), GRANT);
    assert Build([GRANT]).value.blocks == [] + [Block(c)] == [Block(c)];
    assert [Block(c)][1..] == [];
    assert ResolveAll([Block(c)]) == Resolve(Block(c)) + [];
  }

  lemma GrantReadable()
    ensures Readable([GRANT]) && AllowOnly([GRANT]) && LastMatch([GRANT], NULL_DEVICE).Some?
  {
    GrantBuilds();
    hide LastMatch, Compiles, Build;
    assert [GRANT][1..] == [];
  }

  lemma DenyGated(raw: seq<Byte>)
    requires DecodeAll(raw) == Success(DENY)
    ensures GateOriginal(raw, META).Success?
  {
    hide DecodeAt;
    GateMeans(DENY, ProgMeta(true, 0));
  }

  // The denying filter wrapped with that grant.
  lemma WrappedDeny(cpu: Interp.Machine, hash: DigestFn, nonce: U64, raw: seq<Byte>) returns (p: Prog)
    requires DecodeAll(raw) == Success(DENY) && IsOriginal(raw) && BareOriginal(hash, raw)
    ensures p.id == 0 && p.meta == META && Fixed(p.code) && Canonical(p.code) == Some(p.code) && HasOriginal(hash, p, raw)
    ensures Emit(hash, [GRANT], nonce, raw) == Success(p.code) && Innermost(hash, p.code) == Success(raw)
    ensures AllowStack(cpu, hash, p.code) && Wrappable(hash, p) && Allows(cpu, p.code, NULL_DEVICE)
    ensures Parse(hash, p.code).Success? && Parse(hash, p.code).value.Some? && Parse(hash, p.code).value.value.nonce == nonce
  {
    hide *;
    DenyTrusted(cpu, raw);
    DenyGated(raw);
    GrantReadable();
    GrantTarget(hash, nonce, raw);
    var lineage := CachedLineage(nonce, raw, META);
    var code := Target(hash, [GRANT], lineage).value;
    BareFixed(hash, raw);
    TargetFixed(hash, [GRANT], lineage);
    TargetStack(cpu, hash, [GRANT], lineage);
    TargetStrips(hash, [GRANT], lineage);
    TargetAllows(cpu, hash, [GRANT], lineage, NULL_DEVICE);
    p := Prog(0, code, META);
    TargetIs(hash, nonce, raw);
    IsWrapped(hash, p, raw);
  }

  lemma TargetIs(hash: DigestFn, nonce: U64, raw: seq<Byte>)
    requires Target(hash, [GRANT], CachedLineage(nonce, raw, META)).Some?
    ensures Emit(hash, [GRANT], nonce, raw) == Success(Target(hash, [GRANT], CachedLineage(nonce, raw, META)).value)
  {
    hide Emit;
  }

  lemma GrantTarget(hash: DigestFn, nonce: U64, raw: seq<Byte>)
    requires IsOriginal(raw)
    ensures Target(hash, [GRANT], CachedLineage(nonce, raw, META)).Some?
  {
    hide Emit, IsOriginal, Build;
    GrantBuilds();
    EmitDecodes(hash, [GRANT], nonce, raw);
  }

  lemma IsWrapped(hash: DigestFn, p: Prog, raw: seq<Byte>)
    requires Fixed(p.code) && Innermost(hash, p.code) == Success(raw) && GateOriginal(raw, p.meta).Success?
    ensures Canonical(p.code) == Some(p.code) && HasOriginal(hash, p, raw) && Wrappable(hash, p)
  {
    hide Canonical, Innermost, GateOriginal;
  }

  // --- Wider than the planned end -------------------------------------------------------------------------------------

  lemma OneAttached(cpu: Interp.Machine, hash: DigestFn, p: Prog, raw: seq<Byte>, q: DevRequest) returns (s: Cgroup)
    requires p.id == 0 && HasOriginal(hash, p, raw) && Canonical(p.code) == Some(p.code)
    requires AllowStack(cpu, hash, p.code) && Wrappable(hash, p) && Allows(cpu, p.code, q)
    ensures Sound(cpu, hash, s) && Attached(hash, s.kernel.attached, raw) && SetAllows(cpu, s.kernel.attached, q)
    ensures |s.kernel.attached| == 1 && !s.entry.rebuilding
  {
    hide HasOriginal, Canonical, AllowStack, Wrappable, Allows;
    s := Cgroup(Kernel([p], [], 1, []), Unknown, CacheEntry([], false));
    assert p in s.kernel.attached;
  }

  // The comment on the execution of a plan, that no state is wider than the desired one, fails when
  // grants are taken away: one filter that denies everything, wrapped with a grant, empty rules, and
  // the first kernel call refused.
  lemma WiderThanPlanned(cpu: Interp.Machine, hash: DigestFn, nonce: U64) returns (s: Cgroup, env: Env, state: seq<Prog>)
    ensures KernelOk(s.kernel) && TrustedCgroup(cpu, hash, s) && PlanPass(hash, s, [], env).Success? && env.faults == [Refuses]
    ensures state in States(s.kernel, Pass(hash, s, [], env).0.kernel) && SetAllows(cpu, state, NULL_DEVICE)
    ensures !PlannedAllows(cpu, hash, [], PlanPass(hash, s, [], env).value.1, NULL_DEVICE)
  {
    hide *;
    var raw := DenyBytes(hash);
    var p := WrappedDeny(cpu, hash, nonce, raw);
    s := OneAttached(cpu, hash, p, raw, NULL_DEVICE);
    SoundParts(cpu, hash, s);
    var calm := Env(false, 0, true, {}, [0], []);
    IsCalm(calm, s);
    NoRulesBuild();
    CalmPassPlans(hash, s, [], calm);
    env := calm.(faults := [Refuses]);
    SamePlan(hash, s, [], calm, [Refuses]);
    RefusedPass(hash, s, [], env);
    state := s.kernel.attached;
    LineagesAreAttached(cpu, hash, s, [], env);
    var moves := PlanPass(hash, s, [], env).value.1;
    var i :| 0 <= i < |moves| && moves[i].lineage.original == raw;
    DenyDenies(cpu, raw, NULL_DEVICE);
    EmptyTarget(hash, [], moves[i].lineage);
    NotPlanned(cpu, hash, [], moves, i, NULL_DEVICE);
  }

  lemma IsCalm(env: Env, s: Cgroup)
    requires env == Env(false, 0, true, {}, [0], []) && |s.kernel.attached| == 1
    ensures Calm(env, s)
  {
  }

  lemma NotPlanned(cpu: Interp.Machine, hash: DigestFn, rules: seq<DeviceRule>, moves: seq<Move>, i: nat, q: DevRequest)
    requires i < |moves| && Target(hash, rules, moves[i].lineage).Some? && !Allows(cpu, Target(hash, rules, moves[i].lineage).value, q)
    ensures !PlannedAllows(cpu, hash, rules, moves, q)
  {
    hide Target, Allows;
  }

  // --- A lineage that does not come back ----------------------------------------------------------------------------

  function BareAt(index: nat, raw: seq<Byte>): AttachedProg {
    AttachedProg(index, raw, META, false, 0, raw)
  }

  function WrapperAt(index: nat, wrapped: seq<Byte>, nonce: U64, raw: seq<Byte>): AttachedProg {
    AttachedProg(index, wrapped, META, true, nonce, raw)
  }

  lemma BareClassifies(hash: DigestFn, index: nat, p: Prog, raw: seq<Byte>)
    requires BareOriginal(hash, raw) && p.code == raw && p.meta == META
    ensures Classify(hash, index, p) == Success(BareAt(index, raw))
  {
    hide Canonical, Parse, GateOriginal;
    InnermostOfOwned(hash, raw);
  }

  lemma WrapperClassifies(hash: DigestFn, index: nat, p: Prog, nonce: U64, raw: seq<Byte>)
    requires Canonical(p.code) == Some(p.code) && Innermost(hash, p.code) == Success(raw) && p.meta == META
    requires Parse(hash, p.code).Success? && Parse(hash, p.code).value.Some? && Parse(hash, p.code).value.value.nonce == nonce
    requires GateOriginal(raw, META).Success?
    ensures Classify(hash, index, p) == Success(WrapperAt(index, p.code, nonce, raw))
  {
    hide Canonical, Parse, GateOriginal, Innermost;
    InnermostOfOwned(hash, p.code);
  }

  lemma ClassifyOne(hash: DigestFn, progs: seq<Prog>, a: AttachedProg)
    requires |progs| == 1 && Classify(hash, 0, progs[0]) == Success(a)
    ensures ClassifyFrom(hash, progs, {}, 0) == Success([a])
  {
    hide Classify;
    assert ClassifyFrom(hash, progs, {}, 1) == Success([]);
    assert [a] + [] == [a];
  }

  lemma ClassifyTwo(hash: DigestFn, progs: seq<Prog>, a: AttachedProg, b: AttachedProg)
    requires |progs| == 2 && Classify(hash, 0, progs[0]) == Success(a) && Classify(hash, 1, progs[1]) == Success(b)
    ensures ClassifyFrom(hash, progs, {}, 0) == Success([a, b])
  {
    hide Classify;
    assert ClassifyFrom(hash, progs, {}, 2) == Success([]);
    assert [b] + [] == [b];
    assert ClassifyFrom(hash, progs, {}, 1) == Success([b]);
    assert [a] + [b] == [a, b];
  }

  lemma GroupOne(a: AttachedProg)
    requires !a.owned
    ensures GroupsOf([a]) == [] && BaresOf([a]) == [a]
  {
    assert [a][..0] == [];
  }

  lemma GroupTwo(a: AttachedProg, b: AttachedProg)
    requires !a.owned && b.owned
    ensures GroupsOf([a, b]) == [WrapperGroup(b.nonce, b.original, b.meta, [b])] && BaresOf([a, b]) == [a]
  {
    GroupOne(a);
    assert [a, b][..1] == [a];
  }

  // Two lineages share an original. A bare copy of it accounts for the first, none for the second.
  lemma OneMissing(a: CachedLineage, b: CachedLineage, bare: AttachedProg)
    requires a.original == b.original == bare.raw
    ensures MissingLineages([a, b], [], [bare]) == [b]
  {
    var used, free := NoneUsed(0), AllFree(1);
    var taken := free[0 := false];
    assert FindFree([bare], free, a.original, 0) == Some(0);
    assert FindFree([bare], taken, b.original, 0) == None;
    assert [a, b][1..] == [b] && [b][1..] == [];
    assert Missing([b], [], [bare], used, taken) == [b] + Missing([], [], [bare], used, taken) == [b];
    assert Missing([a, b], [], [bare], used, free) == Missing([b], [], [bare], used, taken);
  }

  // A wrapper and a bare copy of one lineage account for both.
  lemma NoneMissing(a: CachedLineage, b: CachedLineage, group: WrapperGroup, bare: AttachedProg)
    requires a.original == b.original == bare.raw == group.original && group.nonce == a.nonce != b.nonce
    ensures MissingLineages([a, b], [group], [bare]) == []
  {
    var used, free := NoneUsed(1), AllFree(1);
    assert FindUnusedGroup([group], used, a, 0) == Some(0);
    assert FindUnusedGroup([group], used[0 := true], b, 0) == None;
    assert FindFree([bare], free, b.original, 0) == Some(0);
    assert [a, b][1..] == [b] && [b][1..] == [];
    var taken, all := free[0 := false], used[0 := true];
    assert Missing([b], [group], [bare], all, free) == Missing([], [group], [bare], all, taken) == [];
    assert Missing([a, b], [group], [bare], used, free) == Missing([b], [group], [bare], all, free);
  }

  lemma RestoreTakesBare(group: WrapperGroup, bare: AttachedProg)
    requires bare.raw == group.original && |group.members| > 0
    ensures RestoreAll([group], [bare]) == [Keep(bare.index, IndicesOf(group.members), LineageOf(group))]
  {
    var free := AllFree(1);
    assert FindFree([bare], free, group.original, 0) == Some(0);
    var move := Keep(bare.index, IndicesOf(group.members), LineageOf(group));
    assert [group][1..] == [];
    assert RestoreMoves([], [bare], free[0 := false]) == ([], free[0 := false]);
    assert RestoreMoves([group], [bare], free).0 == [move] + [] == [move];
    assert [bare][1..] == [] && FreeMoves([bare], free[0 := false]) == [] + FreeMoves([], []) == [];
    assert [move] + [] == [move];
  }

  lemma PassIs(hash: DigestFn, s: Cgroup, rules: seq<DeviceRule>, env: Env, progs: seq<AttachedProg>, moves: seq<Move>, plan: PassPlan)
    requires PlanPass(hash, s, rules, env) == Success((progs, moves)) && Render(moves, 0) == plan
    ensures PlanFits(plan, |s.kernel.attached|)
    ensures var (k, probe, r) := ExecutePlan(s.kernel.(faults := env.faults), s.probe, s.kernel.attached, plan);
            Pass(hash, s, rules, env) == (Cgroup(k, probe, CacheEntry(plan.lineages, PassEntry(s).rebuilding && r.Failure?)), r)
  {
    hide PlanPass, ExecutePlan, PlanFits, Render;
    PlanPassFits(hash, s, rules, env);
  }

  lemma LoadTwo(k: Kernel, a: seq<Byte>, b: seq<Byte>, faults: seq<Fault>)
    requires Canonical(a) == Some(a) && Canonical(b) == Some(b) && k.faults == [Works, Works] + faults
    ensures LoadFrom(k, [a, b], 0)
         == (k.(faults := faults, nextId := k.nextId + 2), Success([Prog(k.nextId, a, META), Prog(k.nextId + 1, b, META)]))
  {
    hide Canonical;
    var one := k.(faults := k.faults[1..], nextId := k.nextId + 1);
    assert k.faults[1..] == [Works] + faults && ([Works] + faults)[1..] == faults;
    assert KLoad(k, a) == (one, Some(Prog(k.nextId, a, META)));
    var two := one.(faults := faults, nextId := k.nextId + 2);
    assert KLoad(one, b) == (two, Some(Prog(k.nextId + 1, b, META)));
    assert LoadFrom(two, [a, b], 2) == (two, Success([]));
    var last := Prog(k.nextId + 1, b, META);
    assert LoadFrom(one, [a, b], 1) == (two, Success([last] + [])) && [last] + [] == [last];
    assert [Prog(k.nextId, a, META)] + [last] == [Prog(k.nextId, a, META), last];
  }

  // --- The rebuild stops halfway --------------------------------------------------------------------------------------

  lemma RebuildTwo(hash: DigestFn, a: CachedLineage, b: CachedLineage, nonces: seq<U64>)
    requires GateOriginal(a.original, a.meta).Success? && GateOriginal(b.original, b.meta).Success?
    ensures RebuildMoves(hash, [], [a, b], nonces) == Success(([Add(a.original, a), Add(b.original, b)], nonces))
  {
    hide GateOriginal;
    var first, second := Add(a.original, a), Add(b.original, b);
    assert [a, b][1..] == [b] && [b][1..] == [];
    RebuildNone(hash, [], nonces);
    assert RebuildMoves(hash, [], [b], nonces) == Success(([second] + [], nonces)) && [second] + [] == [second];
    assert [first] + [second] == [first, second];
  }

  lemma RenderAdds(first: Move, second: Move)
    requires first.Add? && second.Add?
    ensures Render([first, second], 0) == PassPlan([first.raw, second.raw], [Attach(0), Attach(1)], [first.lineage, second.lineage])
  {
    assert [first, second][1..] == [second] && [second][1..] == [];
    assert Render([second], 1) == Join(MovePlan(second, 1), EMPTY_PLAN);
    JoinEmpty(MovePlan(second, 1));
  }

  // The first attach works, the second does not.
  lemma AttachOne(k: Kernel, probe: Probe, loaded: seq<Prog>)
    requires |loaded| == 2 && k.attached == [] && k.faults == [Works, Refuses]
    ensures var (k', probe', r) := ExecuteSteps(k, probe, [], loaded, [Attach(0), Attach(1)]);
            k'.attached == [loaded[0]] && k'.nextId == k.nextId && probe' == probe && r.Failure?
  {
    assert [Attach(0), Attach(1)][1..] == [Attach(1)];
    assert k.faults[1..] == [Refuses] && [] + [loaded[0]] == [loaded[0]];
    var one := k.Changed([loaded[0]]);
    assert ExecuteStep(k, probe, [], loaded, Attach(0)) == (one, probe, Success(()));
    assert ExecuteStep(one, probe, [], loaded, Attach(1)) == (one.Called(), probe, Failure(AttachRefused));
  }

  const HALFWAY: Env := Env(false, 0, true, {}, [], [Works, Works, Works, Refuses])

  lemma HalfRebuilt(hash: DigestFn, s: Cgroup, raw: seq<Byte>, a: CachedLineage, b: CachedLineage)
    requires s == Cgroup(Kernel([], [], 0, []), Unknown, CacheEntry([a, b], false))
    requires a.original == b.original == raw && a.meta == b.meta == META && Fixed(raw) && GateOriginal(raw, META).Success?
    ensures var s' := Pass(hash, s, [], HALFWAY).0;
            s'.kernel.attached == [Prog(0, raw, META)] && s'.kernel.nextId == 2 && s'.probe == Unknown && s'.entry == CacheEntry([a, b], true)
  {
    hide Canonical, GateOriginal;
    var moves := [Add(raw, a), Add(raw, b)];
    RebuildTwo(hash, a, b, []);
    assert PlanPass(hash, s, [], HALFWAY) == Success(([], moves)) by {
      assert ClassifyFrom(hash, [], {}, 0) == Success([]);
      hide ClassifyFrom, PassMoves, RebuildMoves;
      EmptyPlan(hash, [], PassEntry(s), []);
    }
    hide PlanPass, RebuildMoves;
    RenderAdds(moves[0], moves[1]);
    var plan := PassPlan([raw, raw], [Attach(0), Attach(1)], [a, b]);
    hide Render;
    PassIs(hash, s, [], HALFWAY, [], moves, plan);
    var k := s.kernel.(faults := HALFWAY.faults);
    assert HALFWAY.faults == [Works, Works] + [Works, Refuses];
    LoadTwo(k, raw, raw, [Works, Refuses]);
    hide LoadFrom, ExecuteSteps;
    AttachOne(k.(faults := [Works, Refuses], nextId := 2), Unknown, [Prog(0, raw, META), Prog(1, raw, META)]);
  }

  // --- The next pass fails to take the bare copy off again --------------------------------------------------------------

  const STUCK: Env := Env(false, 0, true, {}, [3], [Works, Works, Einval, Works, Refuses, Refuses])

  lemma BareMovesOne(hash: DigestFn, bare: AttachedProg, wrapped: seq<Byte>)
    requires GateOriginal(bare.raw, bare.meta).Success? && Emit(hash, [GRANT], 3, bare.raw) == Success(wrapped)
    ensures BareMoves(hash, [GRANT], [bare], [3])
         == Success(([Replace(bare.index, wrapped, [], CachedLineage(3, bare.raw, bare.meta))], []))
  {
    hide GateOriginal, Emit;
    var nonces: seq<U64> := [3];
    var move := Replace(bare.index, wrapped, [], CachedLineage(3, bare.raw, bare.meta));
    assert [bare][1..] == [] && nonces[1..] == [];
    assert BareMoves(hash, [GRANT], [], []) == Success(([], []));
    assert [move] + [] == [move];
  }

  lemma RebuildWrapped(hash: DigestFn, b: CachedLineage, wrapped: seq<Byte>)
    requires b.nonce != 0 && GateOriginal(b.original, b.meta).Success? && Emit(hash, [GRANT], b.nonce, b.original) == Success(wrapped)
    ensures RebuildMoves(hash, [GRANT], [b], []) == Success(([Add(wrapped, b)], []))
  {
    hide GateOriginal, Emit;
    assert [b][1..] == [];
    RebuildNone(hash, [GRANT], []);
    assert [Add(wrapped, b)] + [] == [Add(wrapped, b)];
  }

  lemma StuckMoves(hash: DigestFn, bare: AttachedProg, a: CachedLineage, b: CachedLineage, wrapped: seq<Byte>, other: seq<Byte>)
    requires !bare.owned && a.original == b.original == bare.raw && b.meta == bare.meta == META && b.nonce != 0
    requires GateOriginal(bare.raw, META).Success?
    requires Emit(hash, [GRANT], 3, bare.raw) == Success(wrapped) && Emit(hash, [GRANT], b.nonce, bare.raw) == Success(other)
    ensures PassMoves(hash, [GRANT], [bare], CacheEntry([a, b], true), [3])
         == Success([Replace(bare.index, wrapped, [], CachedLineage(3, bare.raw, META)), Add(other, b)])
  {
    hide GateOriginal, Emit, Missing, BareMoves, RebuildMoves, GroupsOf, BaresOf;
    GroupOne(bare);
    OneMissing(a, b, bare);
    BareMovesOne(hash, bare, wrapped);
    RebuildWrapped(hash, b, other);
    var move := Replace(bare.index, wrapped, [], CachedLineage(3, bare.raw, META));
    assert GrantMoves(hash, [GRANT], []) == Success([]);
    assert [] + [move] == [move] && [move] + [Add(other, b)] == [move, Add(other, b)];
  }

  lemma RenderStuck(first: Move, second: Move)
    requires first.Replace? && first.detached == [] && second.Add?
    ensures Render([first, second], 0)
         == PassPlan([first.raw, second.raw], [Pair(first.prior, 0), Attach(1)], [first.lineage, second.lineage])
  {
    assert [first, second][1..] == [second] && [second][1..] == [];
    assert Render([second], 1) == Join(MovePlan(second, 1), EMPTY_PLAN);
    JoinEmpty(MovePlan(second, 1));
    assert [Pair(first.prior, 0)] + Detaches([]) == [Pair(first.prior, 0)];
  }

  // No atomic replace; the new program is attached, the old one stays, and so does the new one.
  lemma SwapSticks(k: Kernel, before: seq<Prog>, loaded: seq<Prog>)
    requires |before| == 1 && |loaded| == 2 && k.attached == before && k.faults == [Einval, Works, Refuses, Refuses]
    ensures var (k', _, r) := ExecuteSteps(k, Unknown, before, loaded, [Pair(0, 0), Attach(1)]);
            k'.attached == [before[0], loaded[0]] && r.Failure?
  {
    assert k.faults[1..] == [Works, Refuses, Refuses] && [Works, Refuses, Refuses][1..] == [Refuses, Refuses];
    assert [Refuses, Refuses][1..] == [Refuses] && before + [loaded[0]] == [before[0], loaded[0]];
    var tried := k.Called();
    assert KReplace(k, before[0], loaded[0]) == (tried, Einval);
    var both := tried.Changed([before[0], loaded[0]]);
    assert KAttach(tried, loaded[0]) == (both, Works);
    assert KDetach(both, before[0]) == (both.Called(), Refuses);
    assert KDetach(both.Called(), loaded[0]) == (both.Called().Called(), Refuses);
    assert AttachDetach(tried, before[0], loaded[0]) == (both.Called().Called(), Failure(RollbackRefused));
    assert ExecuteStep(k, Unknown, before, loaded, Pair(0, 0)).2.Failure?;
  }

  lemma StuckTogether(hash: DigestFn, s: Cgroup, raw: seq<Byte>, a: CachedLineage, b: CachedLineage, wrapped: seq<Byte>, other: seq<Byte>)
    requires s.kernel.attached == [Prog(0, raw, META)] && s.kernel.nextId == 2 && s.probe == Unknown && s.entry == CacheEntry([a, b], true)
    requires a.original == b.original == raw && b.meta == META && b.nonce != 0 && BareOriginal(hash, raw) && GateOriginal(raw, META).Success?
    requires Emit(hash, [GRANT], 3, raw) == Success(wrapped) && Emit(hash, [GRANT], b.nonce, raw) == Success(other)
    requires Fixed(wrapped) && Fixed(other)
    ensures var s' := Pass(hash, s, [GRANT], STUCK).0;
            s'.kernel.attached == [Prog(0, raw, META), Prog(2, wrapped, META)] && s'.entry == CacheEntry([CachedLineage(3, raw, META), b], true)
  {
    hide Canonical, GateOriginal, Emit, Parse;
    var bare := BareAt(0, raw);
    var moves := [Replace(0, wrapped, [], CachedLineage(3, raw, META)), Add(other, b)];
    assert PlanPass(hash, s, [GRANT], STUCK) == Success(([bare], moves)) by {
      BareClassifies(hash, 0, s.kernel.attached[0], raw);
      hide Classify;
      ClassifyOne(hash, s.kernel.attached, bare);
      hide ClassifyFrom, PassMoves;
      StuckMoves(hash, bare, a, b, wrapped, other);
    }
    hide PlanPass;
    RenderStuck(moves[0], moves[1]);
    var plan := PassPlan([wrapped, other], [Pair(0, 0), Attach(1)], [CachedLineage(3, raw, META), b]);
    hide Render;
    PassIs(hash, s, [GRANT], STUCK, [bare], moves, plan);
    var k := s.kernel.(faults := STUCK.faults);
    assert STUCK.faults == [Works, Works] + [Einval, Works, Refuses, Refuses];
    LoadTwo(k, wrapped, other, [Einval, Works, Refuses, Refuses]);
    hide LoadFrom, ExecuteSteps;
    SwapSticks(k.(faults := [Einval, Works, Refuses, Refuses], nextId := 4), s.kernel.attached,
               [Prog(2, wrapped, META), Prog(3, other, META)]);
  }

  // --- And then every grant is taken away -------------------------------------------------------------------------------

  const CALM: Env := Env(false, 0, true, {}, [], [])

  lemma LastPlan(hash: DigestFn, s: Cgroup, raw: seq<Byte>, a: CachedLineage, b: CachedLineage, wrapped: Prog)
    requires s.kernel.attached == [Prog(0, raw, META), wrapped] && s.entry == CacheEntry([a, b], true)
    requires a.original == b.original == raw && a.nonce != b.nonce && BareOriginal(hash, raw)
    requires Classify(hash, 1, wrapped) == Success(WrapperAt(1, wrapped.code, a.nonce, raw))
    ensures PlanPass(hash, s, [], CALM).Success?
    ensures PlanPass(hash, s, [], CALM).value.1 == [Keep(0, [1], CachedLineage(a.nonce, raw, META))]
  {
    hide Canonical, Parse, Classify;
    var bare, owned := BareAt(0, raw), WrapperAt(1, wrapped.code, a.nonce, raw);
    BareClassifies(hash, 0, s.kernel.attached[0], raw);
    ClassifyTwo(hash, s.kernel.attached, bare, owned);
    hide ClassifyFrom;
    LastMoves(hash, bare, owned, a, b);
  }

  lemma LastMoves(hash: DigestFn, bare: AttachedProg, owned: AttachedProg, a: CachedLineage, b: CachedLineage)
    requires !bare.owned && owned.owned && owned.nonce == a.nonce != b.nonce && owned.meta == META
    requires a.original == b.original == bare.raw == owned.original
    ensures PassMoves(hash, [], [bare, owned], CacheEntry([a, b], true), [])
         == Success([Keep(bare.index, [owned.index], CachedLineage(a.nonce, bare.raw, META))])
  {
    hide Missing, GroupsOf, BaresOf, RestoreAll, RebuildMoves;
    GroupTwo(bare, owned);
    var group := WrapperGroup(owned.nonce, owned.original, META, [owned]);
    NoneMissing(a, b, group, bare);
    RestoreTakesBare(group, bare);
    RebuildNone(hash, [], []);
    assert IndicesOf([owned]) == [owned.index];
    var moves := [Keep(bare.index, [owned.index], CachedLineage(a.nonce, bare.raw, META))];
    assert moves + [] == moves;
  }

  lemma WipedRecoverable(hash: DigestFn, s: Cgroup, raw: seq<Byte>, a: CachedLineage, b: CachedLineage)
    requires s == Cgroup(Kernel([], [], 0, []), Unknown, CacheEntry([a, b], false)) && a.original == b.original == raw
    requires BareOriginal(hash, raw)
    ensures Recoverable(hash, s) && CachedWith(s.entry.lineages, raw) == 2
  {
    hide BareOriginal;
    assert [a, b][1..] == [b] && [b][1..] == [];
    assert CachedWith([b], raw) == 1 + CachedWith([], raw);
  }

  lemma TwoEvents(hash: DigestFn, s: Cgroup, e: Event, f: Event)
    requires e.PassRun? && f.PassRun?
    ensures After(hash, s, [e, f]) == Pass(hash, Pass(hash, s, e.rules, e.env).0, f.rules, f.env).0
  {
    hide Pass;
    assert [e, f][1..] == [f] && [f][1..] == [];
    var s1 := Next(hash, s, e);
    assert After(hash, s1, [f]) == After(hash, Next(hash, s1, f), []) == Next(hash, s1, f);
  }

  lemma EventsCompile()
    ensures forall e | e in [PassRun([], HALFWAY), PassRun([GRANT], STUCK)] :: Compilable(e)
  {
    NoRulesReadable();
    GrantReadable();
    hide Build, Fits, RulesInRange;
  }

  lemma NoFaults()
    ensures CALM.faults == []
  {
  }

  lemma OneCached(lineages: seq<CachedLineage>, l: CachedLineage)
    requires |lineages| == 1 && lineages[0] == l
    ensures CachedWith(lineages, l.original) == 1
  {
    assert lineages[1..] == [];
  }

  // Two lineages share an original when everything is wiped. The rebuild stops after the first; the
  // next pass fails to take the first one's bare copy off, and then its wrapper; a pass with empty
  // rules then takes wrapper and copy for the two lineages, and leaves one program.
  lemma LineageLost(cpu: Interp.Machine, hash: DigestFn) returns (s: Cgroup, raw: seq<Byte>)
    ensures Recoverable(hash, s) && s.kernel.attached == [] && CachedWith(s.entry.lineages, raw) == 2
    ensures var s' := After(hash, s, [PassRun([], HALFWAY), PassRun([GRANT], STUCK)]);
            && Pass(hash, s', [], CALM).1.Success?
            && |Pass(hash, s', [], CALM).0.kernel.attached| == 1 == CachedWith(Pass(hash, s', [], CALM).0.entry.lineages, raw)
  {
    hide *;
    raw := DenyBytes(hash);
    DenyGated(raw);
    BareFixed(hash, raw);
    var a, b, c := CachedLineage(1, raw, META), CachedLineage(2, raw, META), CachedLineage(3, raw, META);
    s := Cgroup(Kernel([], [], 0, []), Unknown, CacheEntry([a, b], false));
    WipedRecoverable(hash, s, raw, a, b);
    HalfRebuilt(hash, s, raw, a, b);
    var wrapped := WrappedDeny(cpu, hash, 3, raw);
    var other := WrappedDeny(cpu, hash, 2, raw);
    var s1 := Pass(hash, s, [], HALFWAY).0;
    StuckTogether(hash, s1, raw, a, b, wrapped.code, other.code);
    var s2 := Pass(hash, s1, [GRANT], STUCK).0;
    TwoEvents(hash, s, PassRun([], HALFWAY), PassRun([GRANT], STUCK));
    EventsCompile();
    RunKeepsCached(hash, s, [PassRun([], HALFWAY), PassRun([GRANT], STUCK)]);
    RecoverableParts(hash, s2);
    var p := Prog(2, wrapped.code, META);
    WrapperClassifies(hash, 1, p, 3, raw);
    LastPlan(hash, s2, raw, c, b, p);
    PlanLoadable(hash, s2, [], CALM);
    NoFaults();
    PassRuns(hash, s2, [], CALM);
    var results := LeftBehind(hash, s2, [], CALM);
    EntryAfter(hash, s2, [], CALM);
    OneCached(Pass(hash, s2, [], CALM).0.entry.lineages, c);
  }
}
