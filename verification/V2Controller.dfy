/** The cgroup v2 controller: the filter cache, the replace probe and the pass, updated in place. */
module V2Controller {
  import opened Wrappers
  import opened Words
  import opened DeviceFilter
  import opened Owned
  import opened Handle
  import opened V2Plan
  import opened V2Kernel
  import opened V2Pass
  import opened V2FixedPoint

  const NO_ENTRY: CacheEntry := CacheEntry([], false)
  const NO_KERNEL: Kernel := Kernel([], [], 0, [])

  class FilterCache {
    var entries: map<Identity, CacheEntry>

    function Entry(id: Identity): CacheEntry
      reads this
    {
      if id in entries then entries[id] else NO_ENTRY
    }

    constructor ()
      ensures entries == map[]
    {
      entries := map[];
    }

    method Forget(id: Identity)
      modifies this
      ensures entries == old(entries) - {id} && Entry(id) == NO_ENTRY
    {
      entries := entries - {id};
    }

    method Get(id: Identity) returns (entry: CacheEntry)
      ensures entry == Entry(id)
    {
      if id in entries {
        return entries[id];
      }
      return NO_ENTRY;
    }

    method Set(id: Identity, entry: CacheEntry)
      modifies this
      ensures entries == old(entries)[id := entry]
    {
      entries := entries[id := entry];
    }
  }

  class ReplaceProbe {
    var state: Probe

    constructor ()
      ensures state == Unknown
    {
      state := Unknown;
    }

    method Usable() returns (usable: bool)
      ensures usable == state.Usable()
    {
      return state != Probe.Unsupported;
    }

    // The first success or EINVAL decides.
    method Record(outcome: Fault)
      modifies this
      ensures state == old(state).Record(outcome)
    {
      var decided;
      match outcome {
        case Works => decided := Supported;
        case Einval => decided := Probe.Unsupported;
        case Refuses => return;
      }
      if state == Unknown {
        state := decided;
      }
    }
  }

  class CgroupV2 {
    const cache: FilterCache
    const replace: ReplaceProbe
    // What the kernel holds for each cgroup.
    var kernels: map<Identity, Kernel>

    constructor (cache: FilterCache, replace: ReplaceProbe)
      ensures this.cache == cache && this.replace == replace && kernels == map[]
    {
      this.cache := cache;
      this.replace := replace;
      kernels := map[];
    }

    function KernelOf(id: Identity): Kernel
      reads this
    {
      if id in kernels then kernels[id] else NO_KERNEL
    }

    function View(id: Identity): Cgroup
      reads this, cache, replace
    {
      Cgroup(KernelOf(id), replace.state, cache.Entry(id))
    }

    // The kernel calls.
    method Attach(id: Identity, prog: Prog) returns (f: Fault)
      modifies this
      ensures (KernelOf(id), f) == KAttach(old(KernelOf(id)), prog) && kernels == old(kernels)[id := KernelOf(id)]
    {
      hide KAttach;
      var (k, outcome) := KAttach(KernelOf(id), prog);
      kernels, f := kernels[id := k], outcome;
    }

    method Exchange(id: Identity, prior: Prog, prog: Prog) returns (f: Fault)
      modifies this
      ensures (KernelOf(id), f) == KReplace(old(KernelOf(id)), prior, prog) && kernels == old(kernels)[id := KernelOf(id)]
    {
      hide KReplace;
      var (k, outcome) := KReplace(KernelOf(id), prior, prog);
      kernels, f := kernels[id := k], outcome;
    }

    method Detach(id: Identity, prior: Prog) returns (f: Fault)
      modifies this
      ensures (KernelOf(id), f) == KDetach(old(KernelOf(id)), prior) && kernels == old(kernels)[id := KernelOf(id)]
    {
      hide KDetach;
      var (k, outcome) := KDetach(KernelOf(id), prior);
      kernels, f := kernels[id := k], outcome;
    }

    method Load(id: Identity, raw: seq<Byte>) returns (prog: Option<Prog>)
      modifies this
      ensures (KernelOf(id), prog) == KLoad(old(KernelOf(id)), raw) && kernels == old(kernels)[id := KernelOf(id)]
    {
      hide KLoad;
      var (k, loaded) := KLoad(KernelOf(id), raw);
      kernels, prog := kernels[id := k], loaded;
    }

    // Puts a program in place of another: atomically while the kernel may support that, otherwise
    // by attaching the new one first.
    method Swap(id: Identity, prior: Prog, prog: Prog) returns (r: Result<(), PassError>)
      modifies this, replace
      ensures (KernelOf(id), replace.state, r) == V2Kernel.Swap(old(KernelOf(id)), old(replace.state), prior, prog)
      ensures kernels == old(kernels)[id := KernelOf(id)]
    {
      hide KAttach, KReplace, KDetach;
      var usable := replace.Usable();
      if usable {
        var outcome := Exchange(id, prior, prog);
        replace.Record(outcome);
        if outcome == Works {
          return Success(());
        }
        usable := replace.Usable();
        if usable {
          return Failure(ReplaceRefused);
        }
      }
      var attached := Attach(id, prog);
      if attached != Works {
        return Failure(AttachRefused);
      }
      var detached := Detach(id, prior);
      if detached == Works {
        return Success(());
      }
      var rolledBack := Detach(id, prog);
      return Failure(if rolledBack == Works then DetachRefused else RollbackRefused);
    }

    // Every load of the plan, before the first step.
    method LoadAll(id: Identity, loads: seq<seq<Byte>>) returns (r: Result<seq<Prog>, PassError>)
      modifies this
      ensures (KernelOf(id), r) == LoadFrom(old(KernelOf(id)), loads, 0)
      ensures forall other | other != id :: KernelOf(other) == old(KernelOf(other))
    {
      hide KLoad;
      var loaded: seq<Prog> := [];
      ghost var all := LoadFrom(KernelOf(id), loads, 0);
      assert all.1.Success? ==> [] + all.1.value == all.1.value;
      for index := 0 to |loads|
        invariant forall other | other != id :: KernelOf(other) == old(KernelOf(other))
        invariant var (k, rest) := LoadFrom(KernelOf(id), loads, index);
                  all == (k, match rest case Failure(error) => Failure(error) case Success(more) => Success(loaded + more))
      {
        ghost var before := KernelOf(id);
        var prog := Load(id, loads[index]);
        if prog.None? {
          return Failure(LoadRefused(index));
        }
        ghost var rest := LoadFrom(KernelOf(id), loads, index + 1).1;
        assert rest.Success? ==> loaded + ([prog.value] + rest.value) == loaded + [prog.value] + rest.value;
        loaded := loaded + [prog.value];
      }
      assert loaded + [] == loaded;
      return Success(loaded);
    }

    method RunStep(id: Identity, attached: seq<Prog>, loaded: seq<Prog>, step: Step) returns (r: Result<(), PassError>)
      requires StepFits(step, |attached|, |loaded|)
      modifies this, replace
      ensures (KernelOf(id), replace.state, r) == ExecuteStep(old(KernelOf(id)), old(replace.state), attached, loaded, step)
      ensures forall other | other != id :: KernelOf(other) == old(KernelOf(other))
    {
      hide KAttach, KDetach, V2Kernel.Swap;
      match step
      case Attach(load) =>
        var f := Attach(id, loaded[load]);
        r := if f == Works then Success(()) else Failure(AttachRefused);
      case Detach(prior) =>
        var f := Detach(id, attached[prior]);
        r := if f == Works then Success(()) else Failure(DetachRefused);
      case Pair(prior, load) =>
        r := Swap(id, attached[prior], loaded[load]);
    }

    // Loads every new program, then applies the steps in order, up to the first failure.
    method Execute(id: Identity, attached: seq<Prog>, plan: PassPlan) returns (r: Result<(), PassError>)
      requires PlanFits(plan, |attached|)
      modifies this, replace
      ensures (KernelOf(id), replace.state, r) == ExecutePlan(old(KernelOf(id)), old(replace.state), attached, plan)
      ensures forall other | other != id :: KernelOf(other) == old(KernelOf(other))
    {
      hide LoadFrom, ExecuteStep;
      var loaded := LoadAll(id, plan.loads);
      if loaded.Failure? {
        return Failure(loaded.error);
      }
      ghost var all := ExecuteSteps(KernelOf(id), replace.state, attached, loaded.value, plan.steps);
      assert plan.steps[0..] == plan.steps;
      for index := 0 to |plan.steps|
        invariant forall other | other != id :: KernelOf(other) == old(KernelOf(other))
        invariant all == ExecuteSteps(KernelOf(id), replace.state, attached, loaded.value, plan.steps[index..])
      {
        assert plan.steps[index..][0] == plan.steps[index] && plan.steps[index..][1..] == plan.steps[index + 1..];
        r := RunStep(id, attached, loaded.value, plan.steps[index]);
        if r.Failure? {
          return;
        }
      }
      return Success(());
    }

    // Records the plan's lineages and executes it. The entry stops rebuilding only when a pass that
    // reattaches every lineage has succeeded.
    method Commit(id: Identity, attached: seq<Prog>, plan: PassPlan, rebuilding: bool) returns (r: Result<(), PassError>)
      requires PlanFits(plan, |attached|)
      modifies this, replace, cache
      ensures (KernelOf(id), replace.state, r) == ExecutePlan(old(KernelOf(id)), old(replace.state), attached, plan)
      ensures cache.entries == old(cache.entries)[id := CacheEntry(plan.lineages, rebuilding && r.Failure?)]
      ensures forall other | other != id :: KernelOf(other) == old(KernelOf(other))
    {
      hide ExecutePlan, PlanFits;
      cache.Set(id, CacheEntry(plan.lineages, rebuilding));
      r := Execute(id, attached, plan);
      if r.Failure? {
        return;
      }
      if rebuilding {
        cache.Set(id, CacheEntry(plan.lineages, false));
      }
    }

    // A cgroup without a device filter: the cached originals are attached again.
    method Rebuild(hash: DigestFn, id: Identity, rules: seq<DeviceRule>, env: Env) returns (r: Result<(), PassError>)
      requires KernelOf(id).attached == [] && KernelOf(id).faults == env.faults
      requires !env.queryFails && env.inaccessible == 0
      modifies this, replace, cache
      ensures (View(id), r) == Pass(hash, old(View(id)), rules, env)
      ensures forall other | other != id :: KernelOf(other) == old(KernelOf(other)) && cache.Entry(other) == old(cache.Entry(other))
    {
      hide RebuildMoves, ExecutePlan, PlanFits, Render, PassMoves;
      ghost var s := View(id);
      var entry := cache.Get(id);
      if |entry.lineages| == 0 {
        return Failure(FilterMissing);
      }
      EmptyPlan(hash, rules, PassEntry(s), env.nonces);
      EmptyClassifies(hash, env.unreadable);
      NothingRendered();
      var plan := AddRebuild(hash, EMPTY_PLAN, entry.lineages, rules, env.nonces, []);
      if plan.Failure? {
        return Failure(plan.error);
      }
      PlanPassFits(hash, s, rules, env);
      assert s.kernel.(faults := env.faults) == s.kernel;
      assert [] + RebuildMoves(hash, rules, entry.lineages, env.nonces).value.0 == RebuildMoves(hash, rules, entry.lineages, env.nonces).value.0;
      r := Commit(id, [], plan.value, true);
    }

    // Makes the daemon's grants in the cgroup's device filters exactly the rules: one whole pass.
    method SetRules(hash: DigestFn, id: Identity, rules: seq<DeviceRule>, env: Env) returns (r: Result<(), PassError>)
      requires KernelOf(id).faults == env.faults
      modifies this, replace, cache
      ensures (View(id), r) == Pass(hash, old(View(id)), rules, env)
      ensures forall other | other != id :: KernelOf(other) == old(KernelOf(other)) && cache.Entry(other) == old(cache.Entry(other))
    {
      hide ExecutePlan, PlanFits, Render, PassMoves, ClassifyFrom;
      ghost var s := View(id);
      if env.queryFails {
        return Failure(QueryFailed);
      }
      var attached := KernelOf(id).attached;
      if env.inaccessible > 0 {
        return Failure(FiltersInaccessible(env.inaccessible, |attached| + env.inaccessible));
      }
      if |attached| == 0 {
        r := Rebuild(hash, id, rules, env);
        return;
      }
      if !env.multi {
        return Failure(UnsupportedAttachMode);
      }
      var classified := ClassifyAll(hash, attached, env.unreadable);
      if classified.Failure? {
        return Failure(classified.error);
      }
      var entry := cache.Get(id);
      var plan := PlanOf(hash, classified.value, entry, rules, env.nonces);
      if plan.Failure? {
        return Failure(plan.error);
      }
      PlanPassFits(hash, s, rules, env);
      assert s.kernel.(faults := env.faults) == s.kernel;
      r := Commit(id, attached, plan.value, entry.rebuilding);
    }
  }

  lemma EmptyClassifies(hash: DigestFn, unreadable: set<nat>)
    ensures ClassifyFrom(hash, [], unreadable, 0) == Success([])
  {
  }

  lemma NothingRendered()
    ensures EMPTY_PLAN == Render([], 0)
  {
  }

  // The plan of a pass: grouped, granted or restored, and the lineages a wipe lost added.
  method PlanOf(hash: DigestFn, progs: seq<AttachedProg>, entry: CacheEntry, rules: seq<DeviceRule>, nonces: seq<U64>)
    returns (r: Result<PassPlan, PassError>)
    ensures r == match PassMoves(hash, rules, progs, entry, nonces)
                 case Failure(error) => Failure(error)
                 case Success(moves) => Success(Render(moves, 0))
  {
    hide Render, AttachedMoves, RebuildMoves, MissingLineages, GroupsOf, BaresOf;
    GroupsNonEmpty(progs);
    var groups, bares := GroupWrappers(progs);
    ghost var planned := AttachedMoves(hash, rules, groups, bares, nonces);
    var plan, left := EMPTY_PLAN, nonces;
    if |rules| == 0 {
      plan := PlanRestore(groups, bares);
      RestorePlanned(hash, rules, groups, bares, nonces);
    } else {
      var granted := PlanGrant(hash, groups, bares, rules, nonces);
      if granted.Failure? {
        return Failure(granted.error);
      }
      plan, left := granted.value.0, granted.value.1;
    }
    assert planned.Success? && plan == Render(planned.value.0, 0) && left == planned.value.1;
    if entry.rebuilding {
      var missing := FindMissing(entry.lineages, groups, bares);
      r := AddRebuild(hash, plan, missing, rules, left, planned.value.0);
    } else {
      r := Success(plan);
    }
  }

  lemma RestorePlanned(hash: DigestFn, rules: seq<DeviceRule>, groups: seq<WrapperGroup>, bares: seq<AttachedProg>, nonces: seq<U64>)
    requires |rules| == 0 && forall k | 0 <= k < |groups| :: |groups[k].members| > 0
    ensures AttachedMoves(hash, rules, groups, bares, nonces) == Success((RestoreAll(groups, bares), nonces))
  {
    hide RestoreAll;
  }
}
