/** Plan conservation, in numbers: which loads and which attached programs the steps name, and how
    many programs a pass leaves. */
module V2Counts {
  import opened Wrappers
  import opened Words
  import opened AsmCanonical
  import opened DeviceFilter
  import opened FilterCorrect
  import opened Owned
  import opened OwnedIdentity
  import opened V2Plan
  import opened V2Execution
  import opened V2Conservation
  import opened V2Jobs
  import opened V2Pass
  import opened V2Safety
  import opened V2Convergence
  import opened V2FixedPoint

  // --- Steps ------------------------------------------------------------------------------------------------------

  function LoadsNamed(steps: seq<Step>): seq<nat> {
    if |steps| == 0 then []
    else (if steps[0].Detach? then [] else [steps[0].load]) + LoadsNamed(steps[1..])
  }

  function PriorsNamed(steps: seq<Step>): seq<nat> {
    if |steps| == 0 then []
    else (if steps[0].Attach? then [] else [steps[0].prior]) + PriorsNamed(steps[1..])
  }

  // The numbers from `start`, `count` of them.
  function From(start: nat, count: nat): (r: seq<nat>)
    ensures |r| == count && forall k | 0 <= k < count :: r[k] == start + k
  {
    seq(count, k requires 0 <= k < count => start + k)
  }

  lemma {:induction false} LoadsJoin(a: seq<Step>, b: seq<Step>)
    ensures LoadsNamed(a + b) == LoadsNamed(a) + LoadsNamed(b)
  {
    if |a| == 0 {
      assert a + b == b;
    } else {
      assert (a + b)[0] == a[0] && (a + b)[1..] == a[1..] + b;
      LoadsJoin(a[1..], b);
      var first := if a[0].Detach? then [] else [a[0].load];
      assert LoadsNamed(a + b) == first + LoadsNamed(a[1..] + b);
      assert LoadsNamed(a) == first + LoadsNamed(a[1..]);
      hide LoadsNamed;
    }
  }

  lemma {:induction false} PriorsJoin(a: seq<Step>, b: seq<Step>)
    ensures PriorsNamed(a + b) == PriorsNamed(a) + PriorsNamed(b)
  {
    if |a| == 0 {
      assert a + b == b;
    } else {
      assert (a + b)[0] == a[0] && (a + b)[1..] == a[1..] + b;
      PriorsJoin(a[1..], b);
      var first := if a[0].Attach? then [] else [a[0].prior];
      assert PriorsNamed(a + b) == first + PriorsNamed(a[1..] + b);
      assert PriorsNamed(a) == first + PriorsNamed(a[1..]);
      hide PriorsNamed;
    }
  }

  lemma {:induction false} DetachesName(olds: seq<nat>)
    ensures LoadsNamed(Detaches(olds)) == [] && PriorsNamed(Detaches(olds)) == olds
  {
    if |olds| > 0 {
      DetachesName(olds[1..]);
      assert Detaches(olds)[1..] == Detaches(olds[1..]);
      assert [olds[0]] + olds[1..] == olds;
    }
  }

  lemma MoveNames(move: Move, load: nat)
    ensures LoadsNamed(MoveSteps(move, load)) == From(load, |MoveLoads(move)|)
    ensures multiset(PriorsNamed(MoveSteps(move, load))) <= multiset(MoveIndices(move))
  {
    match move
    case Keep(kept, detached, _) =>
      DetachesName(detached);
      assert multiset([kept] + detached) == multiset{kept} + multiset(detached);
    case Replace(prior, _, detached, _) =>
      DetachesName(detached);
      var steps := [Pair(prior, load)] + Detaches(detached);
      assert steps[1..] == Detaches(detached);
      assert [load] + [] == From(load, 1);
    case Add(_, _) =>
      var steps := [Attach(load)];
      assert steps[1..] == [];
      assert [load] == From(load, 1);
  }

  // Each load is used by exactly one step, in order, and the steps touch only programs of the
  // moves, each as often as it is in one.
  lemma {:induction false} StepsNameOnce(moves: seq<Move>, load: nat)
    ensures var plan := Render(moves, load);
            LoadsNamed(plan.steps) == From(load, |plan.loads|) && multiset(PriorsNamed(plan.steps)) <= MovesBag(moves)
    decreases |moves|
  {
    hide MoveSteps, MoveIndices, LoadsNamed, PriorsNamed;
    if |moves| == 0 {
      NoSteps();
      assert From(load, 0) == [];
    } else {
      var move, rest, next := moves[0], moves[1..], load + |MoveLoads(moves[0])|;
      MoveNames(move, load);
      StepsNameOnce(rest, next);
      LoadsJoin(MoveSteps(move, load), Render(rest, next).steps);
      PriorsJoin(MoveSteps(move, load), Render(rest, next).steps);
      assert From(load, |MoveLoads(move)|) + From(next, |Render(rest, next).loads|) == From(load, |Render(moves, load).loads|);
    }
  }

  lemma NoSteps()
    ensures LoadsNamed([]) == [] && PriorsNamed([]) == []
  {
  }

  // In the plan of a pass no attached program is touched twice and every load is used once.
  lemma PassTouchesOnce(hash: DigestFn, s: Cgroup, rules: seq<DeviceRule>, env: Env)
    requires PlanPass(hash, s, rules, env).Success?
    ensures var plan := Render(PlanPass(hash, s, rules, env).value.1, 0);
            && LoadsNamed(plan.steps) == From(0, |plan.loads|)
            && NoDuplicates(PriorsNamed(plan.steps))
            && forall x | x in PriorsNamed(plan.steps) :: x < |s.kernel.attached|
  {
    hide *;
    PlannedParts(hash, s, rules, env);
    var (progs, moves) := PlanPass(hash, s, rules, env).value;
    AllPositions(progs, moves);
    StepsNameOnce(moves, 0);
    NamedWithin(PriorsNamed(Render(moves, 0).steps), progs, moves);
  }

  lemma NamedWithin(priors: seq<nat>, progs: seq<AttachedProg>, moves: seq<Move>)
    requires Positioned(progs) && MovesBag(moves) == ProgsBag(progs) && OnceEach(MovesBag(moves))
    requires multiset(priors) <= MovesBag(moves)
    ensures NoDuplicates(priors) && forall x | x in priors :: x < |progs|
  {
    hide MovesBag;
    forall x
      ensures multiset(priors)[x] <= 1
    {
      assert MovesBag(moves)[x] <= 1;
    }
    BagOfSeq(priors);
    forall x | x in priors
      ensures x < |progs|
    {
      assert x in multiset(priors) && x in MovesBag(moves) && x in ProgsBag(progs);
      var k :| 0 <= k < |IndicesOf(progs)| && IndicesOf(progs)[k] == x;
    }
  }

  // --- Programs left ------------------------------------------------------------------------------------------------

  function LineagesOf(moves: seq<Move>, original: seq<Byte>): nat {
    if |moves| == 0 then 0
    else (if moves[0].lineage.original == original then 1 else 0) + LineagesOf(moves[1..], original)
  }

  function GroupsWith(groups: seq<WrapperGroup>, original: seq<Byte>): nat {
    if |groups| == 0 then 0 else (if groups[0].original == original then 1 else 0) + GroupsWith(groups[1..], original)
  }

  function FreeWith(bares: seq<AttachedProg>, available: seq<bool>, original: seq<Byte>): nat
    requires |available| == |bares|
  {
    if |bares| == 0 then 0
    else (if available[0] && bares[0].raw == original then 1 else 0) + FreeWith(bares[1..], available[1..], original)
  }

  function Max(a: nat, b: nat): nat { if a < b then b else a }

  lemma {:induction false} LineagesJoin(a: seq<Move>, b: seq<Move>, original: seq<Byte>)
    ensures LineagesOf(a + b, original) == LineagesOf(a, original) + LineagesOf(b, original)
  {
    if |a| == 0 {
      assert a + b == b;
    } else {
      assert (a + b)[0] == a[0] && (a + b)[1..] == a[1..] + b;
      LineagesJoin(a[1..], b, original);
    }
  }

  lemma {:induction false} TakeOne(bares: seq<AttachedProg>, available: seq<bool>, i: nat, original: seq<Byte>)
    requires |available| == |bares| && i < |bares| && available[i]
    ensures FreeWith(bares, available, original)
         == FreeWith(bares, available[i := false], original) + if bares[i].raw == original then 1 else 0
  {
    if i == 0 {
      assert available[0 := false][1..] == available[1..];
    } else {
      assert available[i := false][1..] == available[1..][i - 1 := false];
      TakeOne(bares[1..], available[1..], i - 1, original);
    }
  }

  lemma {:induction false} NoneFree(bares: seq<AttachedProg>, available: seq<bool>, original: seq<Byte>)
    requires |available| == |bares| && forall i | 0 <= i < |bares| :: !(available[i] && bares[i].raw == original)
    ensures FreeWith(bares, available, original) == 0
  {
    if |bares| > 0 {
      assert forall i | 0 <= i < |bares[1..]| :: bares[1..][i] == bares[i + 1] && available[1..][i] == available[i + 1];
      NoneFree(bares[1..], available[1..], original);
    }
  }

  // Each lineage takes a free bare copy of its original while there is one.
  lemma {:induction false} RestoreTakes(groups: seq<WrapperGroup>, bares: seq<AttachedProg>, available: seq<bool>, original: seq<Byte>)
    requires |available| == |bares| && forall k | 0 <= k < |groups| :: |groups[k].members| > 0
    ensures var (moves, end) := RestoreMoves(groups, bares, available);
            && LineagesOf(moves, original) == GroupsWith(groups, original)
            && FreeWith(bares, end, original) == Max(GroupsWith(groups, original), FreeWith(bares, available, original)) - GroupsWith(groups, original)
    decreases |groups|
  {
    hide FindFree, IndicesOf, FreeWith;
    if |groups| > 0 {
      assert forall k | 0 <= k < |groups[1..]| :: groups[1..][k] == groups[k + 1];
      var (move, left) := RestoreMove(groups[0], bares, available);
      RestoreTakes(groups[1..], bares, left, original);
      var moves := RestoreMoves(groups[1..], bares, left).0;
      assert ([move] + moves)[1..] == moves;
      match FindFree(bares, available, groups[0].original, 0)
      case Some(i) => TakeOne(bares, available, i, original);
      case None =>
        if groups[0].original == original {
          NoneFree(bares, available, original);
        }
    }
  }

  lemma {:induction false} FreeCounted(bares: seq<AttachedProg>, available: seq<bool>, original: seq<Byte>)
    requires |available| == |bares|
    ensures LineagesOf(FreeMoves(bares, available), original) == FreeWith(bares, available, original)
  {
    if |bares| > 0 {
      FreeCounted(bares[1..], available[1..], original);
      var rest := FreeMoves(bares[1..], available[1..]);
      if available[0] {
        var move := Keep(bares[0].index, [], CachedLineage(0, bares[0].raw, bares[0].meta));
        assert ([move] + rest)[1..] == rest;
      } else {
        assert [] + rest == rest;
      }
    }
  }

  function BaresWith(bares: seq<AttachedProg>, original: seq<Byte>): nat {
    if |bares| == 0 then 0 else (if bares[0].raw == original then 1 else 0) + BaresWith(bares[1..], original)
  }

  lemma {:induction false} AllFreeWith(bares: seq<AttachedProg>, available: seq<bool>, original: seq<Byte>)
    requires |available| == |bares| && forall k | 0 <= k < |bares| :: available[k]
    ensures FreeWith(bares, available, original) == BaresWith(bares, original)
  {
    if |bares| > 0 {
      AllFreeWith(bares[1..], available[1..], original);
    }
  }

  // The moves of a restore: of each original as many as there are wrapper lineages or bare copies,
  // whichever is more.
  lemma RestoreMovesCount(groups: seq<WrapperGroup>, bares: seq<AttachedProg>, original: seq<Byte>)
    requires forall k | 0 <= k < |groups| :: |groups[k].members| > 0
    ensures LineagesOf(RestoreAll(groups, bares), original) == Max(GroupsWith(groups, original), BaresWith(bares, original))
  {
    hide RestoreMoves, FreeMoves, FreeWith, GroupsWith, LineagesOf, BaresWith;
    var (moves, end) := RestoreMoves(groups, bares, AllFree(|bares|));
    RestoreTakes(groups, bares, AllFree(|bares|), original);
    FreeCounted(bares, end, original);
    LineagesJoin(moves, FreeMoves(bares, end), original);
    AllFreeWith(bares, AllFree(|bares|), original);
  }

  // The lineages a pass attaches again: those a wipe lost, while a rebuild has not completed.
  function Lost(entry: CacheEntry, progs: seq<AttachedProg>): seq<CachedLineage> {
    if entry.rebuilding then MissingLineages(entry.lineages, GroupsOf(progs), BaresOf(progs)) else []
  }

  function CachedWith(cached: seq<CachedLineage>, original: seq<Byte>): nat {
    if |cached| == 0 then 0 else (if cached[0].original == original then 1 else 0) + CachedWith(cached[1..], original)
  }

  lemma {:induction false} SameOriginals(moves: seq<Move>, cached: seq<CachedLineage>, original: seq<Byte>)
    requires |moves| == |cached| && forall i | 0 <= i < |moves| :: moves[i].lineage.original == cached[i].original
    ensures LineagesOf(moves, original) == CachedWith(cached, original)
  {
    if |moves| > 0 {
      assert forall i | 0 <= i < |moves[1..]| :: moves[1..][i] == moves[i + 1] && cached[1..][i] == cached[i + 1];
      SameOriginals(moves[1..], cached[1..], original);
    }
  }

  lemma RestorePlanCount(hash: DigestFn, progs: seq<AttachedProg>, entry: CacheEntry, nonces: seq<U64>, original: seq<Byte>)
    requires PassMoves(hash, [], progs, entry, nonces).Success?
    ensures LineagesOf(PassMoves(hash, [], progs, entry, nonces).value, original)
         == Max(GroupsWith(GroupsOf(progs), original), BaresWith(BaresOf(progs), original)) + CachedWith(Lost(entry, progs), original)
  {
    hide GroupsOf, BaresOf, RestoreAll, RebuildMoves, MissingLineages, LineagesOf, GroupsWith, BaresWith, CachedWith;
    GroupsNonEmpty(progs);
    var moves, lost := RestoreAll(GroupsOf(progs), BaresOf(progs)), Lost(entry, progs);
    RestoreMovesCount(GroupsOf(progs), BaresOf(progs), original);
    if entry.rebuilding {
      RebuildMovesShape(hash, [], progs, lost, nonces);
      var more := RebuildMoves(hash, [], lost, nonces).value.0;
      LineagesJoin(moves, more, original);
      SameOriginals(more, lost, original);
    } else {
      NoneCached(original);
    }
  }

  lemma NoneCached(original: seq<Byte>)
    ensures CachedWith([], original) == 0
  {
  }

  // How many programs have the original's own bytes.
  function Copies(progs: seq<Prog>, original: seq<Byte>): nat {
    hide Canonical;
    if |progs| == 0 then 0
    else (if Canonical(progs[0].code) == Some(original) then 1 else 0) + Copies(progs[1..], original)
  }

  lemma {:induction false} CopiesAt(progs: seq<Prog>, k: nat, original: seq<Byte>)
    requires k < |progs|
    ensures Copies(progs, original)
         == Copies(progs[..k] + progs[k + 1..], original) + if Canonical(progs[k].code) == Some(original) then 1 else 0
  {
    hide Canonical;
    var rest := progs[..k] + progs[k + 1..];
    if k == 0 {
      assert rest == progs[1..];
    } else {
      CopiesAt(progs[1..], k - 1, original);
      assert rest[0] == progs[0] && rest[1..] == progs[1..][..k - 1] + progs[1..][k..];
    }
  }

  lemma {:induction false} SameCopies(a: seq<Prog>, b: seq<Prog>, original: seq<Byte>)
    requires NoDuplicates(a) && NoDuplicates(b) && forall p :: p in a <==> p in b
    ensures Copies(a, original) == Copies(b, original)
    decreases |a|
  {
    hide Canonical;
    if |a| == 0 {
      if |b| > 0 {
        SomeMember(b);
      }
    } else {
      var k :| 0 <= k < |b| && b[k] == a[0] by { assert a[0] in a; }
      assert a == [a[0]] + a[1..];
      assert forall p :: p in a[1..] <==> p in a && p != a[0];
      RemoveOne(b, k);
      SameCopies(a[1..], b[..k] + b[k + 1..], original);
      CopiesAt(b, k, original);
    }
  }

  lemma {:induction false} OneCopyEach(results: seq<Prog>, moves: seq<Move>, original: seq<Byte>)
    requires |results| == |moves| && forall i | 0 <= i < |moves| :: Canonical(results[i].code) == Some(moves[i].lineage.original)
    ensures Copies(results, original) == LineagesOf(moves, original)
  {
    hide Canonical;
    if |moves| > 0 {
      assert forall i | 0 <= i < |moves[1..]| :: moves[1..][i] == moves[i + 1] && results[1..][i] == results[i + 1];
      OneCopyEach(results[1..], moves[1..], original);
    }
  }

  lemma NoRulesReadable()
    ensures Readable([])
  {
    hide LastMatch;
    assert Effective([]) == [];
  }

  // Where a restore ends: no wrapper, and of each original as many bare programs as there were wrapper
  // lineages or bare copies, whichever is more, and one for each lineage a wipe lost.
  lemma RestoreCounts(hash: DigestFn, s: Cgroup, env: Env, original: seq<Byte>)
    requires KernelOk(s.kernel) && CacheBare(hash, s.entry)
    requires PlanPass(hash, s, [], env).Success? && Pass(hash, s, [], env).1.Success?
    ensures var progs, after := PlanPass(hash, s, [], env).value.0, Pass(hash, s, [], env).0.kernel.attached;
            && (forall k | 0 <= k < |after| :: Classify(hash, k, after[k]).Success? && !Classify(hash, k, after[k]).value.owned)
            && Copies(after, original)
               == Max(GroupsWith(GroupsOf(progs), original), BaresWith(BaresOf(progs), original)) + CachedWith(Lost(PassEntry(s), progs), original)
  {
    hide *;
    NoRulesReadable();
    var results := LeftBehind(hash, s, [], env);
    var (progs, moves) := PlanPass(hash, s, [], env).value;
    var after := Pass(hash, s, [], env).0.kernel.attached;
    SameMembers(results, after);
    forall k | 0 <= k < |after|
      ensures Classify(hash, k, after[k]).Success? && !Classify(hash, k, after[k]).value.owned
    {
      assert after[k] in results by { assert after[k] in after; }
      var i :| 0 <= i < |results| && results[i] == after[k];
      NextView(hash, s, [], env, results, i, k);
    }
    forall i | 0 <= i < |moves|
      ensures Canonical(results[i].code) == Some(moves[i].lineage.original)
    {
      ResultTarget(hash, s, [], env, i, results[i]);
      EmptyTarget(hash, [], moves[i].lineage);
    }
    OneCopyEach(results, moves, original);
    SameCopies(results, after, original);
    PlanPassPlanned(hash, s, [], env);
    RestorePlanCount(hash, progs, PassEntry(s), env.nonces, original);
  }

  lemma SameMembers(a: seq<Prog>, b: seq<Prog>)
    requires NoDuplicates(a) && NoDuplicates(b) && forall p :: p in a <==> p in b
    ensures multiset(a) == multiset(b)
  {
    SameBag(a, b);
  }

  // --- Wrappers left --------------------------------------------------------------------------------------------------

  // `p` is the wrapper of the lineage.
  ghost predicate WrapperOf(hash: DigestFn, rules: seq<DeviceRule>, p: Prog, lineage: CachedLineage) {
    Target(hash, rules, lineage).Some? && Canonical(p.code) == Target(hash, rules, lineage)
  }

  lemma {:induction false} BareLineages(hash: DigestFn, rules: seq<DeviceRule>, bares: seq<AttachedProg>, nonces: seq<U64>)
    requires BareMoves(hash, rules, bares, nonces).Success?
    ensures var moves := BareMoves(hash, rules, bares, nonces).value.0;
            && |moves| == |bares| <= |nonces|
            && forall i | 0 <= i < |moves| :: moves[i].lineage == CachedLineage(nonces[i], bares[i].raw, bares[i].meta)
  {
    hide Emit, GateOriginal;
    if |bares| > 0 {
      BareLineages(hash, rules, bares[1..], nonces[1..]);
    }
  }

  // The lineage a lost one comes back as: under its own nonce, or a new one if it had none.
  predicate BackAs(lost: CachedLineage, lineage: CachedLineage) {
    lineage.original == lost.original && lineage.meta == lost.meta && (lost.nonce != 0 ==> lineage.nonce == lost.nonce)
  }

  ghost predicate BackIn(hash: DigestFn, rules: seq<DeviceRule>, lost: CachedLineage, p: Prog) {
    exists lineage :: BackAs(lost, lineage) && WrapperOf(hash, rules, p, lineage)
  }

  lemma {:induction false} RebuildLineages(hash: DigestFn, rules: seq<DeviceRule>, cached: seq<CachedLineage>, nonces: seq<U64>)
    requires RebuildMoves(hash, rules, cached, nonces).Success?
    ensures var moves := RebuildMoves(hash, rules, cached, nonces).value.0;
            |moves| == |cached| && forall i | 0 <= i < |moves| :: BackAs(cached[i], moves[i].lineage)
  {
    hide Emit, GateOriginal;
    if |cached| > 0 {
      RebuildLineages(hash, rules, cached[1..], RebuildOne(hash, rules, cached[0], nonces).value.1);
    }
  }

  lemma GrantPlanLineages(hash: DigestFn, rules: seq<DeviceRule>, progs: seq<AttachedProg>, entry: CacheEntry, nonces: seq<U64>)
    requires |rules| > 0 && PassMoves(hash, rules, progs, entry, nonces).Success?
    ensures var moves := PassMoves(hash, rules, progs, entry, nonces).value;
            var groups, bares, lost := GroupsOf(progs), BaresOf(progs), Lost(entry, progs);
            && |moves| == |groups| + |bares| + |lost| && |bares| <= |nonces|
            && (forall i | 0 <= i < |groups| :: moves[i].lineage == LineageOf(groups[i]))
            && (forall i | 0 <= i < |bares| :: moves[|groups| + i].lineage == CachedLineage(nonces[i], bares[i].raw, bares[i].meta))
            && forall i | 0 <= i < |lost| :: BackAs(lost[i], moves[|groups| + |bares| + i].lineage)
  {
    hide GroupsOf, BaresOf, GrantMoves, BareMoves, RebuildMoves, MissingLineages, BackAs;
    GroupsNonEmpty(progs);
    GrantLineages(hash, rules, GroupsOf(progs));
    BareLineages(hash, rules, BaresOf(progs), nonces);
    if entry.rebuilding {
      RebuildLineages(hash, rules, Lost(entry, progs), BareMoves(hash, rules, BaresOf(progs), nonces).value.1);
    }
  }

  // Where a grant ends: exactly one wrapper per lineage, one per bare program under its new nonce, and
  // one per lineage a wipe lost.
  lemma GrantCounts(hash: DigestFn, s: Cgroup, rules: seq<DeviceRule>, env: Env) returns (results: seq<Prog>)
    requires KernelOk(s.kernel) && CacheBare(hash, s.entry) && |rules| > 0
    requires PlanPass(hash, s, rules, env).Success? && Pass(hash, s, rules, env).1.Success?
    ensures multiset(results) == multiset(Pass(hash, s, rules, env).0.kernel.attached)
    ensures var progs := PlanPass(hash, s, rules, env).value.0;
            var groups, bares, lost := GroupsOf(progs), BaresOf(progs), Lost(PassEntry(s), progs);
            && |results| == |groups| + |bares| + |lost| && |bares| <= |env.nonces|
            && (forall i | 0 <= i < |groups| :: WrapperOf(hash, rules, results[i], LineageOf(groups[i])))
            && (forall i | 0 <= i < |bares| ::
                  WrapperOf(hash, rules, results[|groups| + i], CachedLineage(env.nonces[i], bares[i].raw, bares[i].meta)))
            && forall i | 0 <= i < |lost| :: BackIn(hash, rules, lost[i], results[|groups| + |bares| + i])
  {
    hide *;
    results := LeftBehind(hash, s, rules, env);
    var (progs, moves) := PlanPass(hash, s, rules, env).value;
    SameMembers(results, Pass(hash, s, rules, env).0.kernel.attached);
    forall i | 0 <= i < |moves|
      ensures WrapperOf(hash, rules, results[i], moves[i].lineage)
    {
      ResultTarget(hash, s, rules, env, i, results[i]);
      IsWrapper(hash, rules, results[i], moves[i].lineage);
    }
    PlanPassPlanned(hash, s, rules, env);
    GrantPlanLineages(hash, rules, progs, PassEntry(s), env.nonces);
    var groups, bares, lost := GroupsOf(progs), BaresOf(progs), Lost(PassEntry(s), progs);
    forall i | 0 <= i < |lost|
      ensures BackIn(hash, rules, lost[i], results[|groups| + |bares| + i])
    {
      IsBack(hash, rules, lost[i], moves[|groups| + |bares| + i].lineage, results[|groups| + |bares| + i]);
    }
  }

  lemma IsBack(hash: DigestFn, rules: seq<DeviceRule>, lost: CachedLineage, lineage: CachedLineage, p: Prog)
    requires BackAs(lost, lineage) && WrapperOf(hash, rules, p, lineage)
    ensures BackIn(hash, rules, lost, p)
  {
    hide BackAs, WrapperOf;
  }

  lemma IsWrapper(hash: DigestFn, rules: seq<DeviceRule>, p: Prog, lineage: CachedLineage)
    requires Target(hash, rules, lineage).Some? && Target(hash, rules, lineage) == Canonical(p.code)
    ensures WrapperOf(hash, rules, p, lineage)
  {
    hide Target, Canonical;
  }

  // --- Lineages kept ----------------------------------------------------------------------------------------------------

  function UnusedWith(groups: seq<WrapperGroup>, used: seq<bool>, original: seq<Byte>): nat
    requires |used| == |groups|
  {
    if |groups| == 0 then 0
    else (if !used[0] && groups[0].original == original then 1 else 0) + UnusedWith(groups[1..], used[1..], original)
  }

  lemma {:induction false} UseOne(groups: seq<WrapperGroup>, used: seq<bool>, g: nat, original: seq<Byte>)
    requires |used| == |groups| && g < |groups| && !used[g]
    ensures UnusedWith(groups, used, original)
         == UnusedWith(groups, used[g := true], original) + if groups[g].original == original then 1 else 0
  {
    if g == 0 {
      assert used[0 := true][1..] == used[1..];
    } else {
      assert used[g := true][1..] == used[1..][g - 1 := true];
      UseOne(groups[1..], used[1..], g - 1, original);
    }
  }

  lemma {:induction false} NoneUsedWith(groups: seq<WrapperGroup>, used: seq<bool>, original: seq<Byte>)
    requires |used| == |groups| && forall k | 0 <= k < |groups| :: !used[k]
    ensures UnusedWith(groups, used, original) == GroupsWith(groups, original)
  {
    if |groups| > 0 {
      NoneUsedWith(groups[1..], used[1..], original);
    }
  }

  // Each attached lineage and each bare program accounts for at most one cached lineage.
  lemma {:induction false} MissingCounts(cached: seq<CachedLineage>, groups: seq<WrapperGroup>, bares: seq<AttachedProg>,
                                         groupUsed: seq<bool>, bareFree: seq<bool>, original: seq<Byte>)
    requires |groupUsed| == |groups| && |bareFree| == |bares|
    ensures CachedWith(Missing(cached, groups, bares, groupUsed, bareFree), original) <= CachedWith(cached, original)
         <= CachedWith(Missing(cached, groups, bares, groupUsed, bareFree), original)
            + UnusedWith(groups, groupUsed, original) + FreeWith(bares, bareFree, original)
    decreases |cached|
  {
    hide FindUnusedGroup, FindFree, UnusedWith, FreeWith;
    if |cached| > 0 {
      match FindUnusedGroup(groups, groupUsed, cached[0], 0)
      case Some(g) =>
        MissingCounts(cached[1..], groups, bares, groupUsed[g := true], bareFree, original);
        UseOne(groups, groupUsed, g, original);
      case None =>
        match FindFree(bares, bareFree, cached[0].original, 0)
        case Some(b) =>
          MissingCounts(cached[1..], groups, bares, groupUsed, bareFree[b := false], original);
          TakeOne(bares, bareFree, b, original);
        case None =>
          MissingCounts(cached[1..], groups, bares, groupUsed, bareFree, original);
          var rest := Missing(cached[1..], groups, bares, groupUsed, bareFree);
          assert ([cached[0]] + rest)[1..] == rest;
    }
  }

  lemma LostCounts(entry: CacheEntry, progs: seq<AttachedProg>, original: seq<Byte>)
    requires entry.rebuilding
    ensures CachedWith(Lost(entry, progs), original) <= CachedWith(entry.lineages, original)
         <= CachedWith(Lost(entry, progs), original) + GroupsWith(GroupsOf(progs), original) + BaresWith(BaresOf(progs), original)
  {
    hide GroupsOf, BaresOf, Missing, CachedWith, UnusedWith, FreeWith, GroupsWith, BaresWith;
    var groups, bares := GroupsOf(progs), BaresOf(progs);
    MissingCounts(entry.lineages, groups, bares, NoneUsed(|groups|), AllFree(|bares|), original);
    NoneUsedWith(groups, NoneUsed(|groups|), original);
    AllFreeWith(bares, AllFree(|bares|), original);
  }

  lemma {:induction false} GroupLineages(moves: seq<Move>, groups: seq<WrapperGroup>, original: seq<Byte>)
    requires |moves| == |groups| && forall i | 0 <= i < |moves| :: moves[i].lineage == LineageOf(groups[i])
    ensures LineagesOf(moves, original) == GroupsWith(groups, original)
  {
    if |moves| > 0 {
      assert forall i | 0 <= i < |moves[1..]| :: moves[1..][i] == moves[i + 1] && groups[1..][i] == groups[i + 1];
      GroupLineages(moves[1..], groups[1..], original);
    }
  }

  lemma {:induction false} BareLineagesCount(moves: seq<Move>, bares: seq<AttachedProg>, original: seq<Byte>)
    requires |moves| == |bares| && forall i | 0 <= i < |moves| :: moves[i].lineage.original == bares[i].raw
    ensures LineagesOf(moves, original) == BaresWith(bares, original)
  {
    if |moves| > 0 {
      assert forall i | 0 <= i < |moves[1..]| :: moves[1..][i] == moves[i + 1] && bares[1..][i] == bares[i + 1];
      BareLineagesCount(moves[1..], bares[1..], original);
    }
  }

  lemma PartsCount(moves: seq<Move>, groups: seq<WrapperGroup>, bares: seq<AttachedProg>, lost: seq<CachedLineage>, original: seq<Byte>)
    requires |moves| == |groups| + |bares| + |lost|
    requires forall i | 0 <= i < |groups| :: moves[i].lineage == LineageOf(groups[i])
    requires forall i | 0 <= i < |bares| :: moves[|groups| + i].lineage.original == bares[i].raw
    requires forall i | 0 <= i < |lost| :: moves[|groups| + |bares| + i].lineage.original == lost[i].original
    ensures LineagesOf(moves, original) == GroupsWith(groups, original) + BaresWith(bares, original) + CachedWith(lost, original)
  {
    hide LineagesOf, GroupsWith, BaresWith, CachedWith;
    var a, b, c := moves[..|groups|], moves[|groups|..|groups| + |bares|], moves[|groups| + |bares|..];
    assert moves == a + b + c;
    GroupLineages(a, groups, original);
    BareLineagesCount(b, bares, original);
    SameOriginals(c, lost, original);
    LineagesJoin(a + b, c, original);
    LineagesJoin(a, b, original);
  }

  lemma GrantPlanCount(hash: DigestFn, rules: seq<DeviceRule>, progs: seq<AttachedProg>, entry: CacheEntry, nonces: seq<U64>, original: seq<Byte>)
    requires |rules| > 0 && PassMoves(hash, rules, progs, entry, nonces).Success?
    ensures LineagesOf(PassMoves(hash, rules, progs, entry, nonces).value, original)
         == GroupsWith(GroupsOf(progs), original) + BaresWith(BaresOf(progs), original) + CachedWith(Lost(entry, progs), original)
  {
    hide PassMoves, GroupsOf, BaresOf, Lost, LineagesOf, GroupsWith, BaresWith, CachedWith;
    GrantPlanLineages(hash, rules, progs, entry, nonces);
    PartsCount(PassMoves(hash, rules, progs, entry, nonces).value, GroupsOf(progs), BaresOf(progs), Lost(entry, progs), original);
  }

  // What a pass keeps of the attached programs' lineages with this original.
  function KeptWith(rules: seq<DeviceRule>, progs: seq<AttachedProg>, original: seq<Byte>): nat {
    var groups, bares := GroupsWith(GroupsOf(progs), original), BaresWith(BaresOf(progs), original);
    if |rules| == 0 then Max(groups, bares) else groups + bares
  }

  // The number of lineages that share an original survives a pass if and only if the attached programs
  // account for no more of them than the pass keeps. After a wipe a grant keeps them all, and so does
  // any rebuild of an empty cgroup.
  lemma LineageCountSurvives(hash: DigestFn, s: Cgroup, rules: seq<DeviceRule>, env: Env, original: seq<Byte>)
    requires PlanPass(hash, s, rules, env).Success?
    ensures var progs := PlanPass(hash, s, rules, env).value.0;
            var before, after := CachedWith(s.entry.lineages, original), CachedWith(Pass(hash, s, rules, env).0.entry.lineages, original);
            var lost := CachedWith(Lost(PassEntry(s), progs), original);
            && (before <= after <==> before - lost <= KeptWith(rules, progs, original))
            && (PassEntry(s).rebuilding && (|rules| > 0 || |s.kernel.attached| == 0) ==> before <= after)
  {
    hide *;
    var (progs, moves) := PlanPass(hash, s, rules, env).value;
    PlanPassPlanned(hash, s, rules, env);
    PlannedParts(hash, s, rules, env);
    EntryAfter(hash, s, rules, env);
    SameOriginals(moves, Pass(hash, s, rules, env).0.entry.lineages, original);
    KeptMeans(rules, progs, original);
    if |rules| == 0 {
      assert rules == [];
      RestorePlanCount(hash, progs, PassEntry(s), env.nonces, original);
    } else {
      GrantPlanCount(hash, rules, progs, PassEntry(s), env.nonces, original);
    }
    EntryLineages(s);
    if PassEntry(s).rebuilding {
      LostCounts(PassEntry(s), progs, original);
      if |s.kernel.attached| == 0 {
        NothingAttached(progs, original);
      }
    }
  }

  lemma KeptMeans(rules: seq<DeviceRule>, progs: seq<AttachedProg>, original: seq<Byte>)
    ensures KeptWith(rules, progs, original)
         == var groups, bares := GroupsWith(GroupsOf(progs), original), BaresWith(BaresOf(progs), original);
            if |rules| == 0 then Max(groups, bares) else groups + bares
  {
    hide GroupsOf, BaresOf, GroupsWith, BaresWith, Max;
  }

  lemma NothingAttached(progs: seq<AttachedProg>, original: seq<Byte>)
    requires |progs| == 0
    ensures GroupsWith(GroupsOf(progs), original) == 0 && BaresWith(BaresOf(progs), original) == 0
  {
  }
}
