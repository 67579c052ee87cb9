/** One pass over a cgroup: query, classification, plan, cache entry, execution. */
module V2Pass {
  import opened Wrappers
  import opened Words
  import opened AsmCanonical
  import opened DeviceFilter
  import opened Owned
  import opened OwnedIdentity
  import opened Gate
  import opened V2Plan
  import opened V2Kernel
  import opened V2Execution
  import opened V2Conservation
  import opened V2Jobs

  // What a pass meets: the query's outcome, the programs that cannot be dumped, the nonces drawn
  // and the fate of each kernel call.
  datatype Env = Env(queryFails: bool, inaccessible: nat, multi: bool, unreadable: set<nat>, nonces: seq<U64>, faults: seq<Fault>)

  // One cgroup as the controller sees it.
  datatype Cgroup = Cgroup(kernel: Kernel, probe: Probe, entry: CacheEntry)

  // The entry a pass starts from: an empty cgroup is one to rebuild.
  function PassEntry(s: Cgroup): CacheEntry {
    if |s.kernel.attached| == 0 then s.entry.(rebuilding := true) else s.entry
  }

  lemma EntryLineages(s: Cgroup)
    ensures PassEntry(s).lineages == s.entry.lineages
  {
  }

  // What the pass is going to do, or why it does nothing.
  function PlanPass(hash: DigestFn, s: Cgroup, rules: seq<DeviceRule>, env: Env): Result<(seq<AttachedProg>, seq<Move>), PassError> {
    hide ClassifyFrom, PassMoves;
    var attached := s.kernel.attached;
    if env.queryFails then Failure(QueryFailed)
    else if env.inaccessible > 0 then Failure(FiltersInaccessible(env.inaccessible, |attached| + env.inaccessible))
    else if |attached| == 0 && |s.entry.lineages| == 0 then Failure(FilterMissing)
    else if |attached| > 0 && !env.multi then Failure(UnsupportedAttachMode)
    else
      match ClassifyFrom(hash, attached, env.unreadable, 0)
      case Failure(error) => Failure(error)
      case Success(progs) =>
        match PassMoves(hash, rules, progs, PassEntry(s), env.nonces)
        case Failure(error) => Failure(error)
        case Success(moves) => Success((progs, moves))
  }

  // A pass that cannot be planned changes nothing. One that can records its lineages, runs, and
  // stops rebuilding when it succeeds.
  function Pass(hash: DigestFn, s: Cgroup, rules: seq<DeviceRule>, env: Env): (Cgroup, Result<(), PassError>) {
    hide PlanPass, ExecutePlan, PlanFits, Render;
    match PlanPass(hash, s, rules, env)
    case Failure(error) => (s, Failure(error))
    case Success((progs, moves)) =>
      PlanPassFits(hash, s, rules, env);
      var plan := Render(moves, 0);
      var (k, probe, r) := ExecutePlan(s.kernel.(faults := env.faults), s.probe, s.kernel.attached, plan);
      (Cgroup(k, probe, CacheEntry(plan.lineages, PassEntry(s).rebuilding && r.Failure?)), r)
  }

  // Why the query's report alone refuses a pass, if it does.
  function Refused(s: Cgroup, env: Env): Option<PassError> {
    if env.queryFails then Some(QueryFailed)
    else if env.inaccessible > 0 then Some(FiltersInaccessible(env.inaccessible, |s.kernel.attached| + env.inaccessible))
    else if s.kernel.attached == [] then if s.entry.lineages == [] then Some(FilterMissing) else None
    else if env.multi then None
    else Some(UnsupportedAttachMode)
  }

  // Such a pass fails for that reason, with neither kernel nor cache changed: an empty cgroup with
  // nothing cached never counts as done.
  lemma PassRefused(hash: DigestFn, s: Cgroup, rules: seq<DeviceRule>, env: Env)
    requires Refused(s, env).Some?
    ensures Pass(hash, s, rules, env) == (s, Failure(Refused(s, env).value))
  {
    hide ClassifyFrom, PassMoves, PassEntry, ExecutePlan, PlanFits, Render;
  }

  // What a plan is made from: every attached program classified, in order, and conserved.
  ghost predicate Planned(hash: DigestFn, rules: seq<DeviceRule>, attached: seq<Prog>, progs: seq<AttachedProg>, moves: seq<Move>) {
    && |progs| == |attached| && Positioned(progs)
    && (forall k | 0 <= k < |progs| :: Classify(hash, k, attached[k]) == Success(progs[k]))
    && AllShaped(hash, rules, progs, moves) && MovesBag(moves) == ProgsBag(progs)
  }

  // A planned pass classified every program and has moves for them.
  lemma PlanPassParts(hash: DigestFn, s: Cgroup, rules: seq<DeviceRule>, env: Env)
    requires PlanPass(hash, s, rules, env).Success?
    ensures var (progs, moves) := PlanPass(hash, s, rules, env).value;
            && ClassifyFrom(hash, s.kernel.attached, env.unreadable, 0) == Success(progs)
            && PassMoves(hash, rules, progs, PassEntry(s), env.nonces) == Success(moves)
  {
    hide ClassifyFrom, PassMoves, PassEntry;
  }

  lemma PlanPassPlanned(hash: DigestFn, s: Cgroup, rules: seq<DeviceRule>, env: Env)
    requires PlanPass(hash, s, rules, env).Success?
    ensures var (progs, moves) := PlanPass(hash, s, rules, env).value;
            && Planned(hash, rules, s.kernel.attached, progs, moves)
            && PassMoves(hash, rules, progs, PassEntry(s), env.nonces) == Success(moves)
  {
    hide PlanPass, ClassifyFrom, Classify, PassMoves, AllShaped, MovesBag, ProgsBag, PassEntry;
    PlanPassParts(hash, s, rules, env);
    var (progs, moves) := PlanPass(hash, s, rules, env).value;
    ClassifiedEach(hash, s.kernel.attached, env.unreadable, 0);
    forall k | 0 <= k < |progs|
      ensures Classify(hash, k, s.kernel.attached[k]) == Success(progs[k])
      ensures progs[k].index == k && (!progs[k].owned ==> progs[k].original == progs[k].raw)
    {
      assert Classify(hash, k, s.kernel.attached[k]) == Success(progs[k - 0]);
      ClassifiedAt(hash, k, s.kernel.attached[k]);
    }
    PlanConserves(hash, rules, progs, PassEntry(s), env.nonces);
  }

  lemma ClassifiedAt(hash: DigestFn, index: nat, prog: Prog)
    requires Classify(hash, index, prog).Success?
    ensures var p := Classify(hash, index, prog).value; p.index == index && (!p.owned ==> p.original == p.raw)
  {
    hide Canonical, ParseInnermost, GateOriginal;
  }

  lemma PlannedShape(hash: DigestFn, rules: seq<DeviceRule>, attached: seq<Prog>, progs: seq<AttachedProg>, moves: seq<Move>)
    requires Planned(hash, rules, attached, progs, moves)
    ensures |progs| == |attached| && AllShaped(hash, rules, progs, moves)
  {
    hide Positioned, Classify, AllShaped, MovesBag, ProgsBag;
  }

  lemma PlanPassFits(hash: DigestFn, s: Cgroup, rules: seq<DeviceRule>, env: Env)
    requires PlanPass(hash, s, rules, env).Success?
    ensures var (progs, moves) := PlanPass(hash, s, rules, env).value;
            && MovesFit(moves, |s.kernel.attached|, 0, |Render(moves, 0).loads|)
            && PlanFits(Render(moves, 0), |s.kernel.attached|)
  {
    hide PlanPass, Planned, AllShaped, MovesFit, StepsFit, Render, PassMoves, PassEntry;
    PlanPassPlanned(hash, s, rules, env);
    var (progs, moves) := PlanPass(hash, s, rules, env).value;
    PlannedShape(hash, rules, s.kernel.attached, progs, moves);
    ShapedFits(hash, rules, progs, moves, 0);
    RenderedFits(moves, |s.kernel.attached|, 0, |Render(moves, 0).loads|);
  }

  // --- The states a pass goes through ---------------------------------------------------------------------

  // A program loaded for a move.
  ghost predicate LoadedOf(p: Prog, move: Move) {
    !move.Keep? && Canonical(move.raw) == Some(p.code) && p.meta == ProgMeta(true, 0)
  }

  // The program a move ends as.
  ghost predicate ResultOf(p: Prog, move: Move, attached: seq<Prog>) {
    if move.Keep? then move.kept < |attached| && p == attached[move.kept] else LoadedOf(p, move)
  }

  ghost predicate AllAt(attached: seq<Prog>, indices: seq<nat>, state: seq<Prog>) {
    forall k | 0 <= k < |indices| :: indices[k] < |attached| && attached[indices[k]] in state
  }

  // The lineage of the move has a program in the state: its result, or every program it had.
  ghost predicate MoveCovered(move: Move, attached: seq<Prog>, state: seq<Prog>) {
    match move
    case Keep(kept, _, _) => kept < |attached| && attached[kept] in state
    case Replace(_, _, _, _) => (exists p | p in state :: LoadedOf(p, move)) || AllAt(attached, MoveIndices(move), state)
    case Add(_, _) => true
  }

  // A state on the way: nothing in it that was not attached or loaded for a move, every lineage covered.
  ghost predicate OnTheWay(moves: seq<Move>, attached: seq<Prog>, state: seq<Prog>) {
    && (forall p | p in state :: p in attached || exists i | 0 <= i < |moves| :: LoadedOf(p, moves[i]))
    && forall i | 0 <= i < |moves| :: MoveCovered(moves[i], attached, state)
  }

  // The end of a pass that succeeded: exactly one program per move, its result.
  ghost predicate Finished(moves: seq<Move>, attached: seq<Prog>, state: seq<Prog>) {
    exists results: seq<Prog> ::
      && |results| == |moves| && multiset(results) == multiset(state)
      && forall i | 0 <= i < |moves| :: ResultOf(results[i], moves[i], attached)
  }

  lemma CoveredFor(job: Job, move: Move, attached: seq<Prog>, loaded: seq<Prog>, state: seq<Prog>)
    requires JobFor(job, move, attached, loaded) && job.Covered(state)
    ensures MoveCovered(move, attached, state)
  {
    hide Canonical;
    if move.Replace? {
      if job.loaded in state {
        assert LoadedOf(job.loaded, move);
      } else {
        var indices := MoveIndices(move);
        forall k | 0 <= k < |indices|
          ensures indices[k] < |attached| && attached[indices[k]] in state
        {
          if k > 0 {
            assert indices[k] == move.detached[k - 1] && attached[move.detached[k - 1]] in job.gone;
          }
        }
      }
    }
  }

  lemma ResultFor(job: Job, move: Move, attached: seq<Prog>, loaded: seq<Prog>)
    requires JobFor(job, move, attached, loaded)
    ensures ResultOf(job.Result(), move, attached)
  {
    hide Canonical;
  }

  lemma ProgFor(job: Job, move: Move, attached: seq<Prog>, loaded: seq<Prog>, p: Prog)
    requires JobFor(job, move, attached, loaded) && p in job.Progs()
    ensures p in attached || LoadedOf(p, move)
  {
    hide Canonical;
  }

  ghost predicate JobsMatch(jobs: seq<Job>, moves: seq<Move>, attached: seq<Prog>, loaded: seq<Prog>) {
    |jobs| == |moves| && forall i | 0 <= i < |moves| :: JobFor(jobs[i], moves[i], attached, loaded)
  }

  lemma CoveredOnTheWay(jobs: seq<Job>, moves: seq<Move>, attached: seq<Prog>, loaded: seq<Prog>, state: seq<Prog>)
    requires JobsMatch(jobs, moves, attached, loaded) && AllCovered(jobs, state)
    requires OnlyTouches(attached, state, AllProgs(jobs))
    ensures OnTheWay(moves, attached, state)
  {
    hide JobFor, MoveCovered, LoadedOf;
    forall i | 0 <= i < |moves|
      ensures MoveCovered(moves[i], attached, state)
    {
      assert jobs[i].Covered(state);
      CoveredFor(jobs[i], moves[i], attached, loaded, state);
    }
    forall p | p in state && p !in attached
      ensures exists i | 0 <= i < |moves| :: LoadedOf(p, moves[i])
    {
      assert p in AllProgs(jobs);
      var i :| 0 <= i < |jobs| && p in jobs[i].Progs();
      ProgFor(jobs[i], moves[i], attached, loaded, p);
    }
  }

  // --- Success --------------------------------------------------------------------------------------------

  function Results(jobs: seq<Job>): (r: seq<Prog>)
    ensures |r| == |jobs| && forall i | 0 <= i < |jobs| :: r[i] == jobs[i].Result()
  {
    seq(|jobs|, i requires 0 <= i < |jobs| => jobs[i].Result())
  }

  lemma {:induction false} SameBag(a: seq<Prog>, b: seq<Prog>)
    requires NoDuplicates(a) && NoDuplicates(b) && forall p :: p in a <==> p in b
    ensures multiset(a) == multiset(b)
    decreases |a|
  {
    if |a| == 0 {
      if |b| > 0 {
        SomeMember(b);
      }
    } else {
      var x := a[0];
      assert x in a;
      var k :| 0 <= k < |b| && b[k] == x;
      var rest := b[..k] + b[k + 1..];
      RemoveOne(b, k);
      assert a == [x] + a[1..];
      assert forall p :: p in a[1..] <==> p in a && p != x;
      SameBag(a[1..], rest);
    }
  }

  lemma SomeMember(b: seq<Prog>)
    requires |b| > 0
    ensures exists p :: p in b
  {
    assert b[0] in b;
  }

  lemma RemoveOne(b: seq<Prog>, k: nat)
    requires NoDuplicates(b) && k < |b|
    ensures var rest := b[..k] + b[k + 1..];
            && NoDuplicates(rest) && (forall p :: p in rest <==> p in b && p != b[k])
            && multiset(b) == multiset{b[k]} + multiset(rest)
  {
    var front, back := b[..k], b[k + 1..];
    assert b == front + [b[k]] + back;
    assert multiset(b) == multiset(front) + multiset{b[k]} + multiset(back);
    assert multiset(front + back) == multiset(front) + multiset(back);
    RestOf(b, k, front + back);
  }

  lemma RestOf(b: seq<Prog>, k: nat, rest: seq<Prog>)
    requires NoDuplicates(b) && k < |b| && |rest| == |b| - 1
    requires (forall i | 0 <= i < k :: rest[i] == b[i]) && forall i | k <= i < |rest| :: rest[i] == b[i + 1]
    ensures NoDuplicates(rest) && forall p :: p in rest <==> p in b && p != b[k]
  {
    forall p | p in b && p != b[k]
      ensures p in rest
    {
      var i :| 0 <= i < |b| && b[i] == p;
      if i < k {
        assert rest[i] == p;
      } else {
        assert rest[i - 1] == p;
      }
    }
    forall p | p in rest
      ensures p in b && p != b[k]
    {
      var i :| 0 <= i < |rest| && rest[i] == p;
      if i < k {
        assert b[i] == p;
      } else {
        assert b[i + 1] == p;
      }
    }
  }

  lemma SettledFinished(jobs: seq<Job>, moves: seq<Move>, attached: seq<Prog>, loaded: seq<Prog>, state: seq<Prog>)
    requires JobsMatch(jobs, moves, attached, loaded) && AllSettled(jobs, state) && AllSound(jobs, Universe(attached, loaded))
    requires Within(state, Universe(attached, loaded)) && AllProgs(jobs) == Universe(attached, loaded)
    ensures Finished(moves, attached, state)
  {
    hide JobFor, ResultOf;
    var results := Results(jobs);
    forall i, j | 0 <= i < j < |results|
      ensures results[i] != results[j]
    {
      ResultMember(jobs[i]);
      ResultMember(jobs[j]);
      assert jobs[i].Progs() !! jobs[j].Progs();
    }
    forall p
      ensures p in results <==> p in state
    {
      if p in state {
        assert p in AllProgs(jobs);
        var i :| 0 <= i < |jobs| && p in jobs[i].Progs();
        assert jobs[i].Settled(state) && results[i] == p;
      }
      if p in results {
        var i :| 0 <= i < |results| && results[i] == p;
        ResultMember(jobs[i]);
        assert jobs[i].Settled(state);
      }
    }
    SameBag(results, state);
    forall i | 0 <= i < |moves|
      ensures ResultOf(results[i], moves[i], attached)
    {
      ResultFor(jobs[i], moves[i], attached, loaded);
    }
  }

  lemma ResultMember(job: Job)
    ensures job.Result() in job.Progs()
  {
  }

  // Every attached and every loaded program is in a job.
  lemma {:induction false} JobsCover(before: seq<Prog>, loaded: seq<Prog>, moves: seq<Move>, load: nat)
    requires MovesFit(moves, |before|, load, |loaded|) && load <= |loaded|
    requires |loaded| == load + |Render(moves, load).loads|
    ensures forall p :: Belongs(p, before, loaded, Positions(moves), load) ==> p in AllProgs(JobsOf(before, loaded, moves, load))
    decreases |moves|
  {
    hide *;
    if |moves| == 0 {
      NothingBelongs(before, loaded, moves, load);
    } else {
      JobsCons(before, loaded, moves, load);
      RenderCons(moves, load);
      var move, rest, next := moves[0], moves[1..], load + |MoveLoads(moves[0])|;
      JobsCover(before, loaded, rest, next);
      var first, others := JobOf(before, loaded, move, load), JobsOf(before, loaded, rest, next);
      AllProgsCons(first, others);
      forall p | Belongs(p, before, loaded, Positions(moves), load)
        ensures p in AllProgs(JobsOf(before, loaded, moves, load))
      {
        BelongsSplit(p, before, loaded, moves, load);
      }
    }
  }

  lemma NothingBelongs(before: seq<Prog>, loaded: seq<Prog>, moves: seq<Move>, load: nat)
    requires |moves| == 0 && |loaded| == load + |Render(moves, load).loads|
    ensures forall p :: !Belongs(p, before, loaded, Positions(moves), load)
  {
  }

  lemma RenderCons(moves: seq<Move>, load: nat)
    requires |moves| > 0
    ensures |Render(moves, load).loads| == |MoveLoads(moves[0])| + |Render(moves[1..], load + |MoveLoads(moves[0])|).loads|
  {
    hide MoveSteps;
  }

  lemma AllProgsCons(first: Job, others: seq<Job>)
    ensures AllProgs([first] + others) == first.Progs() + AllProgs(others)
  {
    assert ([first] + others)[1..] == others;
  }

  lemma BelongsSplit(p: Prog, before: seq<Prog>, loaded: seq<Prog>, moves: seq<Move>, load: nat)
    requires |moves| > 0 && MovesFit(moves, |before|, load, |loaded|) && Belongs(p, before, loaded, Positions(moves), load)
    ensures || p in JobOf(before, loaded, moves[0], load).Progs()
            || Belongs(p, before, loaded, Positions(moves[1..]), load + |MoveLoads(moves[0])|)
  {
    var move, next := moves[0], load + |MoveLoads(moves[0])|;
    JobPrograms(before, loaded, move, load, p);
    PositionsCons(moves);
    assert MoveFits(move, |before|, load, |loaded|);
    hide JobOf, MoveFits, MovesFit, MoveIndices, Positions;
    if x :| x in Positions(moves) && x < |before| && before[x] == p {
      if x in MoveIndices(move) {
        var k :| 0 <= k < |MoveIndices(move)| && MoveIndices(move)[k] == x;
        assert before[MoveIndices(move)[k]] == p;
      } else {
        assert x in Positions(moves[1..]);
      }
    } else {
      var l :| load <= l < |loaded| && loaded[l] == p;
      if |MoveLoads(move)| > 0 {
        LoadFits(move, |before|, load, |loaded|);
        assert l == load || next <= l;
      }
    }
  }

  lemma PositionsCons(moves: seq<Move>)
    requires |moves| > 0
    ensures forall x | x in Positions(moves) :: x in MoveIndices(moves[0]) || x in Positions(moves[1..])
  {
    hide MoveIndices;
    assert MovesBag(moves) == multiset(MoveIndices(moves[0])) + MovesBag(moves[1..]);
  }

  // Conserved moves have every position.
  lemma AllPositions(progs: seq<AttachedProg>, moves: seq<Move>)
    requires Positioned(progs) && MovesBag(moves) == ProgsBag(progs)
    ensures OnceEach(MovesBag(moves)) && forall x: nat | x < |progs| :: x in Positions(moves)
  {
    hide MovesBag;
    var indices := IndicesOf(progs);
    assert forall k | 0 <= k < |progs| :: indices[k] == k;
    hide IndicesOf;
    IdentityBag(indices, |progs|);
    forall x: nat | x < |progs|
      ensures x in Positions(moves)
    {
      assert indices[x] == x && x in multiset(indices);
    }
  }

  lemma {:induction false} IdentityBag(indices: seq<nat>, count: nat)
    requires |indices| == count && forall k | 0 <= k < count :: indices[k] == k
    ensures OnceEach(multiset(indices)) && forall x | x in multiset(indices) :: x < count
    decreases count
  {
    if count > 0 {
      var front := indices[..count - 1];
      assert indices == front + [count - 1];
      IdentityBag(front, count - 1);
      assert multiset(indices) == multiset(front) + multiset{count - 1};
      forall x
        ensures multiset(indices)[x] <= 1
      {
        assert multiset(front)[x] <= 1;
      }
    }
  }

  // --- The run of a pass ----------------------------------------------------------------------------------

  // What a pass that was planned does, whatever call fails.
  ghost predicate PassRan(k: Kernel, k': Kernel, ok: bool, moves: seq<Move>) {
    && KernelOk(k')
    && (forall state | state in States(k, k') :: OnTheWay(moves, k.attached, state))
    && (ok ==> Finished(moves, k.attached, k'.attached))
  }

  // The programs each move works on: no two moves share one, and every lineage that had a program
  // has one of its own in every state.
  ghost predicate OwnJobs(k: Kernel, k': Kernel, moves: seq<Move>, jobs: seq<Job>, loaded: seq<Prog>) {
    && JobsMatch(jobs, moves, k.attached, loaded) && AllSound(jobs, Universe(k.attached, loaded))
    && forall state | state in States(k, k') :: AllCovered(jobs, state)
  }

  ghost predicate OwnPrograms(k: Kernel, k': Kernel, moves: seq<Move>) {
    exists jobs: seq<Job>, loaded: seq<Prog> :: OwnJobs(k, k', moves, jobs, loaded)
  }

  lemma StartOnTheWay(moves: seq<Move>, attached: seq<Prog>)
    requires forall i | 0 <= i < |moves| :: forall k | 0 <= k < |MoveIndices(moves[i])| :: MoveIndices(moves[i])[k] < |attached|
    ensures OnTheWay(moves, attached, attached)
  {
    forall i | 0 <= i < |moves|
      ensures MoveCovered(moves[i], attached, attached)
    {
      var indices := MoveIndices(moves[i]);
      if moves[i].Keep? {
        assert indices[0] == moves[i].kept;
      }
    }
  }

  lemma UniverseKernelOk(k: Kernel, loaded: seq<Prog>, k': Kernel)
    requires KernelOk(k) && Numbered(loaded, k.nextId) && k'.nextId == k.nextId + |loaded|
    requires Within(k'.attached, Universe(k.attached, loaded)) && DistinctIds(Universe(k.attached, loaded))
    ensures KernelOk(k')
  {
    forall i | 0 <= i < |k'.attached|
      ensures k'.attached[i].id < k'.nextId
    {
      assert k'.attached[i] in k'.attached;
    }
  }

  // The steps of the plan, from a kernel with the loads done.
  lemma StepsRan(k: Kernel, k1: Kernel, probe: Probe, loaded: seq<Prog>, moves: seq<Move>, progs: seq<AttachedProg>)
    requires KernelOk(k) && k1.attached == k.attached && k1.trace == k.trace && k1.nextId == k.nextId + |loaded|
    requires Numbered(loaded, k.nextId) && LoadedFor(loaded, Render(moves, 0).loads)
    requires |progs| == |k.attached| && Positioned(progs) && MovesBag(moves) == ProgsBag(progs)
    requires MovesFit(moves, |k.attached|, 0, |loaded|)
    ensures StepsFit(Render(moves, 0).steps, |k.attached|, |loaded|)
    ensures var (k', _, r) := ExecuteSteps(k1, probe, k.attached, loaded, Render(moves, 0).steps);
            PassRan(k, k', r.Success?, moves) && OwnPrograms(k, k', moves) && (Unfailing(k1) ==> r.Success?)
  {
    hide *;
    LoadedApart(k, loaded);
    AllPositions(progs, moves);
    JobsSound(k.attached, loaded, moves, 0);
    LoadedFrom0(loaded, Render(moves, 0).loads);
    JobsFor(k.attached, loaded, moves, 0);
    JobsCover(k.attached, loaded, moves, 0);
    var universe, jobs := Universe(k.attached, loaded), JobsOf(k.attached, loaded, moves, 0);
    assert AllProgs(jobs) == universe by { AllInJobs(k.attached, loaded, moves, jobs); }
    ExecuteMoves(k1, probe, k.attached, loaded, moves, 0, universe);
    var (k', _, r) := ExecuteSteps(k1, probe, k.attached, loaded, Render(moves, 0).steps);
    StepsEnd(k, k1, k', r.Success?, loaded, moves, jobs);
  }

  lemma LoadedFrom0(loaded: seq<Prog>, loads: seq<seq<Byte>>)
    requires LoadedFor(loaded, loads)
    ensures LoadedFor(loaded[0..], loads) && |loaded| == |loads|
  {
    assert loaded[0..] == loaded;
  }

  lemma AllInJobs(before: seq<Prog>, loaded: seq<Prog>, moves: seq<Move>, jobs: seq<Job>)
    requires AllSound(jobs, Universe(before, loaded))
    requires forall x: nat | x < |before| :: x in Positions(moves)
    requires forall p :: Belongs(p, before, loaded, Positions(moves), 0) ==> p in AllProgs(jobs)
    ensures AllProgs(jobs) == Universe(before, loaded)
  {
    hide Positions;
    forall p | p in Universe(before, loaded)
      ensures p in AllProgs(jobs)
    {
      if p in before {
        var x :| 0 <= x < |before| && before[x] == p;
        assert x in Positions(moves);
      } else {
        var l :| 0 <= l < |loaded| && loaded[l] == p;
      }
      assert Belongs(p, before, loaded, Positions(moves), 0);
    }
  }

  lemma StepsEnd(k: Kernel, k1: Kernel, k': Kernel, ok: bool, loaded: seq<Prog>, moves: seq<Move>, jobs: seq<Job>)
    requires KernelOk(k) && k1.attached == k.attached && k1.trace == k.trace && k1.nextId == k.nextId + |loaded|
    requires Numbered(loaded, k.nextId)
    requires forall i | 0 <= i < |moves| :: |jobs| == |moves| && JobFor(jobs[i], moves[i], k.attached, loaded)
    requires |jobs| == |moves| && AllSound(jobs, Universe(k.attached, loaded)) && AllProgs(jobs) == Universe(k.attached, loaded)
    requires AllDone(k1, k', ok, jobs, Universe(k.attached, loaded)) && DistinctIds(Universe(k.attached, loaded))
    ensures PassRan(k, k', ok, moves) && OwnPrograms(k, k', moves) && (Unfailing(k1) ==> ok)
  {
    hide KernelOk, AllCovered, AllSettled, AllSound, JobFor, Within, DistinctIds, Numbered, OnTheWay, Finished, States, AllProgs;
    var universe := Universe(k.attached, loaded);
    RanWithin(k1, k', universe, universe);
    UniverseKernelOk(k, loaded, k');
    SameStates(k, k1, k');
    forall state | state in States(k, k')
      ensures OnTheWay(moves, k.attached, state)
    {
      StateTouches(k1, k', universe, universe, state);
      CoveredOnTheWay(jobs, moves, k.attached, loaded, state);
    }
    if ok {
      SettledFinished(jobs, moves, k.attached, loaded, k'.attached);
    }
    assert OwnJobs(k, k', moves, jobs, loaded);
  }

  lemma SameStates(k: Kernel, k1: Kernel, k': Kernel)
    requires k1.trace == k.trace
    ensures States(k, k') == States(k1, k')
  {
  }

  lemma PassRuns(hash: DigestFn, s: Cgroup, rules: seq<DeviceRule>, env: Env)
    requires KernelOk(s.kernel) && PlanPass(hash, s, rules, env).Success?
    ensures var (progs, moves) := PlanPass(hash, s, rules, env).value;
            var (s', r) := Pass(hash, s, rules, env);
            && PassRan(s.kernel, s'.kernel, r.Success?, moves)
            && (Loadable(Render(moves, 0).loads) ==> OwnPrograms(s.kernel, s'.kernel, moves))
            && (env.faults == [] && Loadable(Render(moves, 0).loads) ==> r.Success?)
  {
    hide *;
    PassUnfolds(hash, s, rules, env);
    PlannedParts(hash, s, rules, env);
    var (progs, moves) := PlanPass(hash, s, rules, env).value;
    var k, start, loads := s.kernel, Faulty(s.kernel, env.faults), Render(moves, 0).loads;
    LoadsNumbered(start, loads, 0);
    var (k1, loaded) := LoadFrom(start, loads, 0);
    FaultyKernel(k, env.faults);
    assert loads[0..] == loads;
    if Loadable(loads) {
      LoadableMeans(loads);
    }
    if loaded.Success? {
      StepsRan(k, k1, s.probe, loaded.value, moves, progs);
    } else {
      LoadsFailed(hash, rules, k, k1, progs, moves);
      if Loadable(loads) {
        LoadsFailedOwn(k, k1, progs, moves);
      }
    }
  }

  ghost predicate Loadable(loads: seq<seq<Byte>>) {
    forall i | 0 <= i < |loads| :: Canonical(loads[i]).Some?
  }

  // A pass stopped by a load has changed nothing; its jobs are those of the loads it asked for.
  lemma LoadsFailedOwn(k: Kernel, k1: Kernel, progs: seq<AttachedProg>, moves: seq<Move>)
    requires KernelOk(k) && k1.attached == k.attached && k1.trace == k.trace && Loadable(Render(moves, 0).loads)
    requires |progs| == |k.attached| && Positioned(progs) && MovesBag(moves) == ProgsBag(progs)
    requires MovesFit(moves, |k.attached|, 0, |Render(moves, 0).loads|)
    ensures OwnPrograms(k, k1, moves)
  {
    hide *;
    var start, loads := Faulty(k, []), Render(moves, 0).loads;
    FaultyKernel(k, []);
    LoadsNumbered(start, loads, 0);
    assert loads[0..] == loads;
    LoadableMeans(loads);
    var loaded := LoadFrom(start, loads, 0).1.value;
    LoadedApart(k, loaded);
    AllPositions(progs, moves);
    LoadedFrom0(loaded, loads);
    JobsSound(k.attached, loaded, moves, 0);
    JobsFor(k.attached, loaded, moves, 0);
    ReadyOwn(k, k1, moves, JobsOf(k.attached, loaded, moves, 0), loaded);
  }

  lemma LoadableMeans(loads: seq<seq<Byte>>)
    requires Loadable(loads)
    ensures forall i | 0 <= i < |loads| :: Canonical(loads[i]).Some?
  {
  }

  lemma ReadyOwn(k: Kernel, k1: Kernel, moves: seq<Move>, jobs: seq<Job>, loaded: seq<Prog>)
    requires k1.attached == k.attached && k1.trace == k.trace
    requires |jobs| == |moves| && forall i | 0 <= i < |moves| :: JobFor(jobs[i], moves[i], k.attached, loaded)
    requires AllSound(jobs, Universe(k.attached, loaded)) && AllReady(jobs, k.attached)
    ensures OwnPrograms(k, k1, moves)
  {
    hide AllSound, JobFor;
    assert States(k, k1) == [k.attached];
    assert AllCovered(jobs, k.attached);
    assert OwnJobs(k, k1, moves, jobs, loaded);
  }

  // Every state of a planned pass is one on the way.
  lemma PassState(hash: DigestFn, s: Cgroup, rules: seq<DeviceRule>, env: Env, state: seq<Prog>)
    requires KernelOk(s.kernel) && PlanPass(hash, s, rules, env).Success?
    requires state in States(s.kernel, Pass(hash, s, rules, env).0.kernel)
    ensures OnTheWay(PlanPass(hash, s, rules, env).value.1, s.kernel.attached, state)
  {
    hide PlanPass, Pass, OnTheWay, Finished, KernelOk, States, Loadable, Render, OwnPrograms;
    PassRuns(hash, s, rules, env);
  }

  lemma PassEnds(hash: DigestFn, s: Cgroup, rules: seq<DeviceRule>, env: Env)
    requires KernelOk(s.kernel) && PlanPass(hash, s, rules, env).Success?
    ensures KernelOk(Pass(hash, s, rules, env).0.kernel)
    ensures OnTheWay(PlanPass(hash, s, rules, env).value.1, s.kernel.attached, Pass(hash, s, rules, env).0.kernel.attached)
  {
    hide PlanPass, Pass, OnTheWay, Finished, KernelOk, States, Loadable, Render, OwnPrograms;
    PassRuns(hash, s, rules, env);
    LastState(s.kernel, Pass(hash, s, rules, env).0.kernel);
  }

  // A program that was not attached was loaded for a move.
  lemma NewcomerMove(moves: seq<Move>, attached: seq<Prog>, state: seq<Prog>, p: Prog) returns (i: nat)
    requires OnTheWay(moves, attached, state) && p in state && p !in attached
    ensures i < |moves| && LoadedOf(p, moves[i])
  {
    hide LoadedOf, MoveCovered;
    i :| i < |moves| && LoadedOf(p, moves[i]);
  }

  function Faulty(k: Kernel, faults: seq<Fault>): Kernel {
    k.(faults := faults)
  }

  lemma FaultyKernel(k: Kernel, faults: seq<Fault>)
    ensures var start := Faulty(k, faults);
            start.attached == k.attached && start.trace == k.trace && start.nextId == k.nextId && (Unfailing(start) <==> faults == [])
  {
  }

  // A planned pass is its loads, then its steps.
  lemma PassUnfolds(hash: DigestFn, s: Cgroup, rules: seq<DeviceRule>, env: Env)
    requires PlanPass(hash, s, rules, env).Success?
    ensures var (progs, moves) := PlanPass(hash, s, rules, env).value;
            var (s', r) := Pass(hash, s, rules, env);
            var (k1, loaded) := LoadFrom(Faulty(s.kernel, env.faults), Render(moves, 0).loads, 0);
            && (loaded.Failure? ==> s'.kernel == k1 && r.Failure?)
            && (loaded.Success? ==>
                  && StepsFit(Render(moves, 0).steps, |s.kernel.attached|, |loaded.value|)
                  && var (k', _, r') := ExecuteSteps(k1, s.probe, s.kernel.attached, loaded.value, Render(moves, 0).steps);
                     s'.kernel == k' && r == r')
  {
    hide PlanPass, ExecuteSteps, LoadFrom, Render, StepsFit;
    PlanPassFits(hash, s, rules, env);
  }

  lemma PlannedParts(hash: DigestFn, s: Cgroup, rules: seq<DeviceRule>, env: Env)
    requires PlanPass(hash, s, rules, env).Success?
    ensures var (progs, moves) := PlanPass(hash, s, rules, env).value;
            && |progs| == |s.kernel.attached| && Positioned(progs) && MovesBag(moves) == ProgsBag(progs)
            && AllShaped(hash, rules, progs, moves)
            && MovesFit(moves, |s.kernel.attached|, 0, |Render(moves, 0).loads|)
  {
    hide PlanPass, MovesBag, ProgsBag, AllShaped, Positioned, MovesFit, Render;
    PlanPassPlanned(hash, s, rules, env);
    PlanPassFits(hash, s, rules, env);
  }

  lemma LoadsFailed(hash: DigestFn, rules: seq<DeviceRule>, k: Kernel, k1: Kernel, progs: seq<AttachedProg>, moves: seq<Move>)
    requires KernelOk(k) && AllShaped(hash, rules, progs, moves) && |progs| == |k.attached|
    requires k1.attached == k.attached && k1.trace == k.trace && k.nextId <= k1.nextId
    ensures PassRan(k, k1, false, moves)
  {
    hide OnTheWay, MoveIndices, Finished;
    forall i | 0 <= i < |moves|
      ensures forall x | 0 <= x < |MoveIndices(moves[i])| :: MoveIndices(moves[i])[x] < |k.attached|
    {
      assert MoveShape(hash, rules, progs, moves[i]);
    }
    StartOnTheWay(moves, k.attached);
    assert States(k, k1) == [k.attached];
  }
}
