/** The kernel side of a pass: attach, replace and detach on one cgroup, any of which may fail
    without effect, and the execution of a plan on it. */
module V2Kernel {
  import opened Wrappers
  import opened Words
  import opened AsmCanonical
  import opened Gate
  import opened V2Plan

  // What a kernel call does: work, fail with EINVAL, or fail otherwise.
  datatype Fault = Works | Einval | Refuses

  // One cgroup's attached programs, the fate of the calls to come (calls past the end work), the
  // number the next loaded program gets, and every set of programs that was ever attached.
  datatype Kernel = Kernel(attached: seq<Prog>, faults: seq<Fault>, nextId: nat, trace: seq<seq<Prog>>) {
    function Fate(): Fault {
      if |faults| == 0 then Works else faults[0]
    }

    function Called(): Kernel {
      this.(faults := if |faults| == 0 then [] else faults[1..])
    }

    function Changed(progs: seq<Prog>): Kernel {
      Called().(attached := progs, trace := trace + [progs])
    }
  }

  function WithoutId(progs: seq<Prog>, id: nat): seq<Prog> {
    if |progs| == 0 then []
    else if progs[0].id == id then WithoutId(progs[1..], id)
    else [progs[0]] + WithoutId(progs[1..], id)
  }

  function FindId(progs: seq<Prog>, id: nat, k: nat): (r: Option<nat>)
    requires k <= |progs|
    ensures match r
            case Some(i) => k <= i < |progs| && progs[i].id == id
            case None => forall i | k <= i < |progs| :: progs[i].id != id
    decreases |progs| - k
  {
    if k == |progs| then None else if progs[k].id == id then Some(k) else FindId(progs, id, k + 1)
  }

  function KAttach(k: Kernel, prog: Prog): (Kernel, Fault) {
    if k.Fate() != Works then (k.Called(), k.Fate()) else (k.Changed(k.attached + [prog]), Works)
  }

  function KReplace(k: Kernel, prior: Prog, prog: Prog): (Kernel, Fault) {
    if k.Fate() != Works then (k.Called(), k.Fate())
    else
      match FindId(k.attached, prior.id, 0)
      case None => (k.Called(), Refuses)
      case Some(i) => (k.Changed(k.attached[i := prog]), Works)
  }

  function KDetach(k: Kernel, prior: Prog): (Kernel, Fault) {
    if k.Fate() != Works then (k.Called(), k.Fate()) else (k.Changed(WithoutId(k.attached, prior.id)), Works)
  }

  // Loading writes the instructions again, so what is loaded is the canonical form.
  function KLoad(k: Kernel, raw: seq<Byte>): (Kernel, Option<Prog>) {
    match Canonical(raw)
    case None => (k, None)
    case Some(code) =>
      if k.Fate() != Works then (k.Called(), None)
      else (k.Called().(nextId := k.nextId + 1), Some(Prog(k.nextId, code, ProgMeta(true, 0))))
  }

  // --- The replace probe --------------------------------------------------------------------------------

  // Whether the kernel supports an atomic replace, learnt from the first one.
  datatype Probe = Unknown | Supported | Unsupported {
    predicate Usable() { !Unsupported? }

    function Record(outcome: Fault): Probe {
      if !Unknown? then this
      else
        match outcome
        case Works => Supported
        case Einval => Probe.Unsupported
        case Refuses => Unknown
    }
  }

  // The first success or EINVAL decides, and nothing changes the answer afterwards.
  lemma ProbeDecidesOnce(p: Probe, first: Fault, later: Fault)
    ensures p.Record(first) != Unknown ==> p.Record(first).Record(later) == p.Record(first)
    ensures p.Usable() && !p.Record(first).Usable() ==> p == Unknown && first == Einval
  {
  }

  // --- Execution ----------------------------------------------------------------------------------------

  // Without an atomic replace: attach the new program, then detach the old one, and take the new
  // one off again when that fails.
  function AttachDetach(k: Kernel, prior: Prog, prog: Prog): (Kernel, Result<(), PassError>) {
    var (k1, attached) := KAttach(k, prog);
    if attached != Works then (k1, Failure(AttachRefused))
    else
      var (k2, detached) := KDetach(k1, prior);
      if detached == Works then (k2, Success(()))
      else
        var (k3, rolledBack) := KDetach(k2, prog);
        (k3, Failure(if rolledBack == Works then DetachRefused else RollbackRefused))
  }

  function Swap(k: Kernel, probe: Probe, prior: Prog, prog: Prog): (Kernel, Probe, Result<(), PassError>) {
    if probe.Usable() then
      var (k1, replaced) := KReplace(k, prior, prog);
      var known := probe.Record(replaced);
      if replaced == Works then (k1, known, Success(()))
      else if known.Usable() then (k1, known, Failure(ReplaceRefused))
      else
        var (k2, r) := AttachDetach(k1, prior, prog);
        (k2, known, r)
    else
      var (k1, r) := AttachDetach(k, prior, prog);
      (k1, probe, r)
  }

  predicate StepFits(step: Step, before: nat, loaded: nat) {
    match step
    case Attach(load) => load < loaded
    case Detach(prior) => prior < before
    case Pair(prior, load) => prior < before && load < loaded
  }

  // One step; `before` are the programs of the query, `loaded` the plan's.
  function ExecuteStep(k: Kernel, probe: Probe, before: seq<Prog>, loaded: seq<Prog>, step: Step)
    : (Kernel, Probe, Result<(), PassError>)
    requires StepFits(step, |before|, |loaded|)
  {
    match step
    case Attach(load) =>
      var (k1, f) := KAttach(k, loaded[load]);
      (k1, probe, if f == Works then Success(()) else Failure(AttachRefused))
    case Detach(prior) =>
      var (k1, f) := KDetach(k, before[prior]);
      (k1, probe, if f == Works then Success(()) else Failure(DetachRefused))
    case Pair(prior, load) => Swap(k, probe, before[prior], loaded[load])
  }

  predicate StepsFit(steps: seq<Step>, before: nat, loaded: nat) {
    forall i | 0 <= i < |steps| :: StepFits(steps[i], before, loaded)
  }

  // The steps in order, up to the first failure.
  function ExecuteSteps(k: Kernel, probe: Probe, before: seq<Prog>, loaded: seq<Prog>, steps: seq<Step>)
    : (Kernel, Probe, Result<(), PassError>)
    requires StepsFit(steps, |before|, |loaded|)
    decreases |steps|
  {
    if |steps| == 0 then (k, probe, Success(()))
    else
      var (k1, probe1, r) := ExecuteStep(k, probe, before, loaded, steps[0]);
      if r.Failure? then (k1, probe1, r) else ExecuteSteps(k1, probe1, before, loaded, steps[1..])
  }

  // Every load, up to the first failure.
  function LoadFrom(k: Kernel, loads: seq<seq<Byte>>, index: nat): (r: (Kernel, Result<seq<Prog>, PassError>))
    requires index <= |loads|
    ensures r.1.Success? ==> |r.1.value| == |loads| - index
    decreases |loads| - index
  {
    hide Canonical;
    if index == |loads| then (k, Success([]))
    else
      var (k1, prog) := KLoad(k, loads[index]);
      if prog.None? then (k1, Failure(LoadRefused(index)))
      else
        var (k2, others) := LoadFrom(k1, loads, index + 1);
        match others
        case Failure(error) => (k2, Failure(error))
        case Success(progs) => (k2, Success([prog.value] + progs))
  }

  predicate PlanFits(plan: PassPlan, before: nat) {
    StepsFit(plan.steps, before, |plan.loads|)
  }

  // Loads every new program before the first step.
  function ExecutePlan(k: Kernel, probe: Probe, before: seq<Prog>, plan: PassPlan): (Kernel, Probe, Result<(), PassError>)
    requires PlanFits(plan, |before|)
  {
    var (k1, loaded) := LoadFrom(k, plan.loads, 0);
    match loaded
    case Failure(error) => (k1, probe, Failure(error))
    case Success(progs) => ExecuteSteps(k1, probe, before, progs, plan.steps)
  }
}
