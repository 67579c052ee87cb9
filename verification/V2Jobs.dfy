/** From a conserving plan to jobs on programs: no two jobs share a program, and together they are
    all the attached and all the loaded programs. */
module V2Jobs {
  import opened Wrappers
  import opened Words
  import opened AsmCanonical
  import opened DeviceFilter
  import opened Owned
  import opened Gate
  import opened V2Plan
  import opened V2Kernel
  import opened V2Execution
  import opened V2Conservation

  // --- Plans fit ------------------------------------------------------------------------------------------

  lemma {:induction false} ShapedFits(hash: DigestFn, rules: seq<DeviceRule>, progs: seq<AttachedProg>, moves: seq<Move>, load: nat)
    requires AllShaped(hash, rules, progs, moves)
    ensures MovesFit(moves, |progs|, load, load + |Render(moves, load).loads|)
    decreases |moves|
  {
    hide MoveShape, MoveFits, MoveSteps;
    if |moves| > 0 {
      var rest, next := moves[1..], load + |MoveLoads(moves[0])|;
      assert forall i | 0 <= i < |rest| :: rest[i] == moves[i + 1];
      ShapedFits(hash, rules, progs, rest, next);
      assert MoveShape(hash, rules, progs, moves[0]);
      ShapeFits(hash, rules, progs, moves[0], load);
      assert Render(moves, load).loads == MoveLoads(moves[0]) + Render(rest, next).loads;
      FitsMore(moves[0], |progs|, load, next, load + |Render(moves, load).loads|);
    }
  }

  lemma ShapeFits(hash: DigestFn, rules: seq<DeviceRule>, progs: seq<AttachedProg>, move: Move, load: nat)
    requires MoveShape(hash, rules, progs, move)
    ensures MoveFits(move, |progs|, load, load + |MoveLoads(move)|)
  {
    var indices := MoveIndices(move);
    if !move.Add? {
      assert forall k | 0 <= k < |move.detached| :: move.detached[k] == indices[k + 1];
      assert indices[0] < |progs|;
    }
  }

  lemma FitsMore(move: Move, before: nat, load: nat, loads: nat, more: nat)
    requires MoveFits(move, before, load, loads) && loads <= more
    ensures MoveFits(move, before, load, more)
  {
  }

  lemma {:induction false} RenderedFits(moves: seq<Move>, before: nat, load: nat, loads: nat)
    requires MovesFit(moves, before, load, loads)
    ensures StepsFit(Render(moves, load).steps, before, loads)
    decreases |moves|
  {
    if |moves| > 0 {
      RenderedFits(moves[1..], before, load + |MoveLoads(moves[0])|, loads);
      MoveStepsFit(moves[0], before, load, loads);
    }
  }

  // --- Each program in one job ------------------------------------------------------------------------------

  ghost predicate OnceEach(bag: multiset<nat>) {
    forall x :: bag[x] <= 1
  }

  // `p` is attached at one of the positions, or loaded from `load` on.
  ghost predicate Belongs(p: Prog, before: seq<Prog>, loaded: seq<Prog>, positions: set<nat>, load: nat) {
    (exists x :: x in positions && x < |before| && before[x] == p) || (exists l :: load <= l < |loaded| && loaded[l] == p)
  }

  function Positions(moves: seq<Move>): set<nat> {
    set x | x in MovesBag(moves)
  }

  function MovePositions(move: Move): (r: set<nat>)
    ensures forall k | 0 <= k < |MoveIndices(move)| :: MoveIndices(move)[k] in r
  {
    set x | x in MoveIndices(move)
  }

  // Different positions, different programs; nothing loaded is attached.
  ghost predicate Apart(before: seq<Prog>, loaded: seq<Prog>) {
    && NoDuplicates(before) && NoDuplicates(loaded)
    && forall p | p in before :: p !in loaded
  }

  function Universe(before: seq<Prog>, loaded: seq<Prog>): (r: set<Prog>)
    ensures forall p :: p in r <==> p in before || p in loaded
  {
    (set p | p in before) + (set p | p in loaded)
  }

  lemma JobPrograms(before: seq<Prog>, loaded: seq<Prog>, move: Move, load: nat, p: Prog)
    requires MoveFits(move, |before|, load, |loaded|)
    ensures p in JobOf(before, loaded, move, load).Progs()
       <==> || (exists k :: 0 <= k < |MoveIndices(move)| && before[MoveIndices(move)[k]] == p)
            || (|MoveLoads(move)| > 0 && p == loaded[load])
  {
    var indices := MoveIndices(move);
    if !move.Add? {
      var detached := move.detached;
      assert before[indices[0]] == before[if move.Keep? then move.kept else move.prior];
      assert forall k | 0 <= k < |detached| :: indices[k + 1] == detached[k];
      if p in At(before, detached) {
        var k :| 0 <= k < |detached| && before[detached[k]] == p;
        assert before[indices[k + 1]] == p;
      }
      if k :| 0 <= k < |indices| && before[indices[k]] == p {
        assert k > 0 ==> before[detached[k - 1]] == p;
      }
      hide At;
    }
  }

  lemma JobSound(before: seq<Prog>, loaded: seq<Prog>, move: Move, load: nat)
    requires MoveFits(move, |before|, load, |loaded|) && Apart(before, loaded)
    requires NoDuplicates(MoveIndices(move))
    ensures var job := JobOf(before, loaded, move, load);
            job.Sound(Universe(before, loaded)) && job.Ready(before)
  {
    var job, indices := JobOf(before, loaded, move, load), MoveIndices(move);
    forall p | p in job.Progs()
      ensures p in Universe(before, loaded)
    {
      JobPrograms(before, loaded, move, load, p);
    }
    if !move.Add? {
      var first := if move.Keep? then move.kept else move.prior;
      forall p | p in job.gone
        ensures p in before && p != before[first] && p !in loaded
      {
        var k :| 0 <= k < |move.detached| && before[move.detached[k]] == p;
        assert indices[0] == first && indices[k + 1] == move.detached[k];
      }
    }
  }

  lemma {:induction false} BagOfSeq(indices: seq<nat>)
    requires OnceEach(multiset(indices))
    ensures NoDuplicates(indices)
  {
    forall i, j | 0 <= i < j < |indices|
      ensures indices[i] != indices[j]
    {
      var x, rest := indices[i], indices[i + 1..];
      assert indices == indices[..i] + ([x] + rest);
      assert multiset(indices) == multiset(indices[..i]) + (multiset{x} + multiset(rest));
      assert multiset(indices)[x] == multiset(indices[..i])[x] + 1 + multiset(rest)[x];
      assert rest[j - i - 1] == indices[j];
    }
  }

  lemma {:induction false} InMovesBag(moves: seq<Move>, i: nat)
    requires i < |moves|
    ensures multiset(MoveIndices(moves[i])) <= MovesBag(moves)
  {
    hide MoveIndices;
    if i > 0 {
      InMovesBag(moves[1..], i - 1);
    }
  }

  lemma BagSplits(moves: seq<Move>)
    requires |moves| > 0 && OnceEach(MovesBag(moves))
    ensures var bag, rest := multiset(MoveIndices(moves[0])), MovesBag(moves[1..]);
            && OnceEach(bag) && OnceEach(rest)
            && Positions(moves) == MovePositions(moves[0]) + Positions(moves[1..])
            && MovePositions(moves[0]) !! Positions(moves[1..])
  {
    hide MoveIndices;
    var bag, rest := multiset(MoveIndices(moves[0])), MovesBag(moves[1..]);
    assert MovesBag(moves) == bag + rest;
    hide MovesBag;
    forall x
      ensures bag[x] <= 1 && rest[x] <= 1 && (x in bag ==> x !in rest)
    {
      assert (bag + rest)[x] <= 1;
    }
    assert forall x :: x in bag <==> x in MoveIndices(moves[0]);
  }

  lemma JobsCons(before: seq<Prog>, loaded: seq<Prog>, moves: seq<Move>, load: nat)
    requires |moves| > 0 && MovesFit(moves, |before|, load, |loaded|)
    ensures var next := load + |MoveLoads(moves[0])|;
            && MoveFits(moves[0], |before|, load, |loaded|) && MovesFit(moves[1..], |before|, next, |loaded|)
            && JobsOf(before, loaded, moves, load)
            == [JobOf(before, loaded, moves[0], load)] + JobsOf(before, loaded, moves[1..], next)
  {
    hide MoveFits, JobOf, MoveLoads;
  }

  // Each attached position in at most one move: every job sound and ready, no two sharing a program.
  lemma {:induction false} JobsSound(before: seq<Prog>, loaded: seq<Prog>, moves: seq<Move>, load: nat)
    requires MovesFit(moves, |before|, load, |loaded|) && Apart(before, loaded)
    requires OnceEach(MovesBag(moves))
    ensures var jobs := JobsOf(before, loaded, moves, load);
            && AllSound(jobs, Universe(before, loaded)) && AllReady(jobs, before)
            && forall p | p in AllProgs(jobs) :: Belongs(p, before, loaded, Positions(moves), load)
    decreases |moves|
  {
    hide *;
    if |moves| == 0 {
      NoJobs(before, loaded, moves, load);
    } else {
      BagSplits(moves);
      JobsCons(before, loaded, moves, load);
      var move, rest, next := moves[0], moves[1..], load + |MoveLoads(moves[0])|;
      JobsSound(before, loaded, rest, next);
      BagOfSeq(MoveIndices(move));
      JobSound(before, loaded, move, load);
      var first, others := JobOf(before, loaded, move, load), JobsOf(before, loaded, rest, next);
      FirstApart(before, loaded, move, load, Positions(rest));
      assert forall p | p in first.Progs() :: p !in AllProgs(others);
      forall p | p in AllProgs(others)
        ensures Belongs(p, before, loaded, Positions(moves), load)
      {
        BelongsMore(p, before, loaded, MovePositions(move), Positions(rest), load, next);
      }
      SoundCons(first, others, before, Universe(before, loaded));
    }
  }

  lemma NoJobs(before: seq<Prog>, loaded: seq<Prog>, moves: seq<Move>, load: nat)
    requires |moves| == 0
    ensures MovesFit(moves, |before|, load, |loaded|) && JobsOf(before, loaded, moves, load) == []
    ensures AllSound([], Universe(before, loaded)) && AllReady([], before) && AllProgs([]) == {}
  {
  }

  lemma BelongsMore(p: Prog, before: seq<Prog>, loaded: seq<Prog>, more: set<nat>, positions: set<nat>, load: nat, next: nat)
    requires Belongs(p, before, loaded, positions, next) && load <= next
    ensures Belongs(p, before, loaded, more + positions, load)
  {
    if x :| x in positions && x < |before| && before[x] == p {
      assert x in more + positions;
    }
  }

  lemma FirstApart(before: seq<Prog>, loaded: seq<Prog>, move: Move, load: nat, others: set<nat>)
    requires MoveFits(move, |before|, load, |loaded|) && Apart(before, loaded)
    requires MovePositions(move) !! others
    ensures forall p | p in JobOf(before, loaded, move, load).Progs() ::
              && !Belongs(p, before, loaded, others, load + |MoveLoads(move)|)
              && Belongs(p, before, loaded, MovePositions(move) + others, load)
  {
    hide *;
    var mine := MovePositions(move);
    forall p | p in JobOf(before, loaded, move, load).Progs()
      ensures && !Belongs(p, before, loaded, others, load + |MoveLoads(move)|)
              && Belongs(p, before, loaded, mine + others, load)
    {
      JobPrograms(before, loaded, move, load, p);
      forall k | 0 <= k < |MoveIndices(move)|
        ensures MoveIndices(move)[k] < |before|
      {
        IndexFits(move, |before|, load, |loaded|, k);
      }
      if k :| 0 <= k < |MoveIndices(move)| && before[MoveIndices(move)[k]] == p {
        AttachedApart(before, loaded, MoveIndices(move)[k], mine, others, load, load + |MoveLoads(move)|);
      } else {
        LoadFits(move, |before|, load, |loaded|);
        LoadedLater(before, loaded, mine + others, others, load);
      }
    }
  }

  lemma AttachedApart(before: seq<Prog>, loaded: seq<Prog>, x: nat, mine: set<nat>, others: set<nat>, load: nat, next: nat)
    requires Apart(before, loaded) && x < |before| && x in mine && x !in others
    ensures !Belongs(before[x], before, loaded, others, next) && Belongs(before[x], before, loaded, mine + others, load)
  {
    assert x in mine + others && before[x] in before;
    assert Belongs(before[x], before, loaded, mine + others, load);
  }

  lemma LoadedLater(before: seq<Prog>, loaded: seq<Prog>, all: set<nat>, others: set<nat>, load: nat)
    requires Apart(before, loaded) && load < |loaded|
    ensures !Belongs(loaded[load], before, loaded, others, load + 1) && Belongs(loaded[load], before, loaded, all, load)
  {
    assert loaded[load] in loaded;
    assert forall x | 0 <= x < |before| :: before[x] in before;
  }

  lemma LoadFits(move: Move, before: nat, load: nat, loads: nat)
    requires MoveFits(move, before, load, loads) && |MoveLoads(move)| > 0
    ensures load < loads && |MoveLoads(move)| == 1
  {
  }

  lemma IndexFits(move: Move, before: nat, load: nat, loads: nat, k: nat)
    requires MoveFits(move, before, load, loads) && k < |MoveIndices(move)|
    ensures MoveIndices(move)[k] < before
  {
    if !move.Add? && k > 0 {
      assert MoveIndices(move)[k] == move.detached[k - 1];
    }
  }

  lemma SoundCons(first: Job, others: seq<Job>, progs: seq<Prog>, universe: set<Prog>)
    requires first.Sound(universe) && first.Ready(progs) && AllSound(others, universe) && AllReady(others, progs)
    requires first.Progs() !! AllProgs(others)
    ensures AllSound([first] + others, universe) && AllReady([first] + others, progs)
    ensures AllProgs([first] + others) == first.Progs() + AllProgs(others)
  {
    var jobs := [first] + others;
    assert jobs[1..] == others;
    forall i, j | 0 <= i < j < |jobs|
      ensures jobs[i].Progs() !! jobs[j].Progs()
    {
      assert jobs[j] == others[j - 1];
      if i > 0 {
        assert jobs[i] == others[i - 1];
      }
    }
  }

  // --- What the jobs are about --------------------------------------------------------------------------------

  // The job of a move: what it puts in place was loaded from the move's bytes.
  ghost predicate JobFor(job: Job, move: Move, before: seq<Prog>, loaded: seq<Prog>) {
    match move
    case Keep(kept, detached, _) =>
      kept < |before| && IndicesFit(detached, |before|) && job == KeepJob(before[kept], At(before, detached))
    case Replace(prior, raw, detached, _) =>
      && prior < |before| && IndicesFit(detached, |before|)
      && job.ReplaceJob? && job.prior == before[prior] && job.gone == At(before, detached)
      && job.loaded in loaded && Canonical(raw) == Some(job.loaded.code) && job.loaded.meta == ProgMeta(true, 0)
    case Add(raw, _) =>
      && job.AddJob? && job.loaded in loaded && Canonical(raw) == Some(job.loaded.code)
      && job.loaded.meta == ProgMeta(true, 0)
  }

  // The programs are what the loads say.
  ghost predicate LoadedFor(progs: seq<Prog>, loads: seq<seq<Byte>>) {
    && |progs| == |loads|
    && forall k | 0 <= k < |loads| :: Canonical(loads[k]) == Some(progs[k].code) && progs[k].meta == ProgMeta(true, 0)
  }

  lemma LoadedSplit(a: seq<Prog>, b: seq<Prog>, x: seq<seq<Byte>>, y: seq<seq<Byte>>)
    requires |a| == |x| && LoadedFor(a + b, x + y)
    ensures LoadedFor(a, x) && LoadedFor(b, y)
  {
    hide Canonical;
    assert forall k | 0 <= k < |x| :: (x + y)[k] == x[k] && (a + b)[k] == a[k];
    forall k | 0 <= k < |y|
      ensures Canonical(y[k]) == Some(b[k].code) && b[k].meta == ProgMeta(true, 0)
    {
      assert (x + y)[|x| + k] == y[k] && (a + b)[|x| + k] == b[k];
    }
  }

  lemma {:induction false} JobsFor(before: seq<Prog>, loaded: seq<Prog>, moves: seq<Move>, load: nat)
    requires MovesFit(moves, |before|, load, |loaded|)
    requires load <= |loaded| && LoadedFor(loaded[load..], Render(moves, load).loads)
    ensures var jobs := JobsOf(before, loaded, moves, load);
            forall i | 0 <= i < |moves| :: JobFor(jobs[i], moves[i], before, loaded)
    decreases |moves|
  {
    hide *;
    if |moves| > 0 {
      JobsCons(before, loaded, moves, load);
      FirstLoad(loaded, moves, load);
      var rest, next := moves[1..], load + |MoveLoads(moves[0])|;
      JobsFor(before, loaded, rest, next);
      FirstJobFor(before, loaded, moves[0], load);
      var jobs, others := JobsOf(before, loaded, moves, load), JobsOf(before, loaded, rest, next);
      forall i | 0 <= i < |moves|
        ensures JobFor(jobs[i], moves[i], before, loaded)
      {
        if i > 0 {
          assert jobs[i] == others[i - 1] && moves[i] == rest[i - 1];
        }
      }
    }
  }

  lemma FirstLoad(loaded: seq<Prog>, moves: seq<Move>, load: nat)
    requires |moves| > 0 && load <= |loaded| && LoadedFor(loaded[load..], Render(moves, load).loads)
    ensures var next := load + |MoveLoads(moves[0])|;
            next <= |loaded| && LoadedFor(loaded[load..next], MoveLoads(moves[0])) && LoadedFor(loaded[next..], Render(moves[1..], next).loads)
  {
    hide Canonical, MoveSteps, MoveLoads;
    var first, next := MoveLoads(moves[0]), load + |MoveLoads(moves[0])|;
    var later := Render(moves[1..], next).loads;
    assert Render(moves, load).loads == first + later;
    assert next <= |loaded|;
    hide *;
    assert loaded[load..] == loaded[load..next] + loaded[next..];
    LoadedSplit(loaded[load..next], loaded[next..], first, later);
  }

  lemma FirstJobFor(before: seq<Prog>, loaded: seq<Prog>, move: Move, load: nat)
    requires MoveFits(move, |before|, load, |loaded|)
    requires load + |MoveLoads(move)| <= |loaded| && LoadedFor(loaded[load..load + |MoveLoads(move)|], MoveLoads(move))
    ensures JobFor(JobOf(before, loaded, move, load), move, before, loaded)
  {
    hide Canonical, At;
    if !move.Keep? {
      var part := loaded[load..load + 1];
      assert |MoveLoads(move)| == 1 && MoveLoads(move)[0] == move.raw;
      assert Canonical(MoveLoads(move)[0]) == Some(part[0].code) && part[0] == loaded[load] && loaded[load] in loaded;
    }
  }

  // --- Loading --------------------------------------------------------------------------------------------------

  // Ids tell the attached programs apart and are below the next one.
  ghost predicate KernelOk(k: Kernel) {
    && (forall i | 0 <= i < |k.attached| :: k.attached[i].id < k.nextId)
    && forall i, j | 0 <= i < j < |k.attached| :: k.attached[i].id != k.attached[j].id
  }

  // Numbered in order from `start`.
  ghost predicate Numbered(progs: seq<Prog>, start: nat) {
    forall i | 0 <= i < |progs| :: progs[i].id == start + i
  }

  lemma {:induction false} LoadsNumbered(k: Kernel, loads: seq<seq<Byte>>, index: nat)
    requires index <= |loads|
    ensures var (k', r) := LoadFrom(k, loads, index);
            && k'.attached == k.attached && k'.trace == k.trace && k.nextId <= k'.nextId
            && (r.Success? ==> Numbered(r.value, k.nextId) && k'.nextId == k.nextId + |r.value|
                               && LoadedFor(r.value, loads[index..]))
            && (Unfailing(k) && (forall i | index <= i < |loads| :: Canonical(loads[i]).Some?) ==> r.Success? && Unfailing(k'))
    decreases |loads| - index
  {
    hide Canonical;
    if index < |loads| {
      var (k1, prog) := KLoad(k, loads[index]);
      LoadsNumbered(k1, loads, index + 1);
      var others := LoadFrom(k1, loads, index + 1).1;
      if prog.Some? && others.Success? {
        var all := [prog.value] + others.value;
        assert forall i | 0 < i < |all| :: all[i] == others.value[i - 1] && loads[index..][i] == loads[index + 1..][i - 1];
      }
    }
  }

  lemma LoadedApart(k: Kernel, loaded: seq<Prog>)
    requires KernelOk(k) && Numbered(loaded, k.nextId)
    ensures Apart(k.attached, loaded) && DistinctIds(Universe(k.attached, loaded))
    ensures Within(k.attached, Universe(k.attached, loaded))
  {
  }
}
