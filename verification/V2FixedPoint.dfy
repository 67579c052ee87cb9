/** Repeating a pass that succeeded: nothing to do, exactly when the lineages have distinct keys; a
    conflict, when a rule's number is 2^31 or more. */
module V2FixedPoint {
  import opened Wrappers
  import opened Words
  import opened AsmCanonical
  import opened DeviceFilter
  import opened Owned
  import opened OwnedRoundTrip
  import opened OwnedIdentity
  import opened Gate
  import opened V2Plan
  import opened V2Kernel
  import opened V2Execution
  import opened V2Conservation
  import opened V2Jobs
  import opened V2Pass
  import opened V2Meaning
  import opened V2Safety
  import opened V2Convergence

  // --- Every wrapped original passed the gate -------------------------------------------------------------------

  lemma {:induction false} GrantLineages(hash: DigestFn, rules: seq<DeviceRule>, groups: seq<WrapperGroup>)
    requires forall k | 0 <= k < |groups| :: |groups[k].members| > 0
    requires GrantMoves(hash, rules, groups).Success?
    ensures var moves := GrantMoves(hash, rules, groups).value;
            |moves| == |groups| && forall i | 0 <= i < |moves| :: moves[i].lineage == LineageOf(groups[i])
  {
    hide Emit;
    if |groups| > 0 {
      assert forall k | 0 <= k < |groups[1..]| :: groups[1..][k] == groups[k + 1];
      GrantLineages(hash, rules, groups[1..]);
    }
  }

  lemma {:induction false} BareGated(hash: DigestFn, rules: seq<DeviceRule>, bares: seq<AttachedProg>, nonces: seq<U64>)
    requires BareMoves(hash, rules, bares, nonces).Success?
    ensures var moves := BareMoves(hash, rules, bares, nonces).value.0;
            forall i | 0 <= i < |moves| :: GateOriginal(moves[i].lineage.original, ProgMeta(true, 0)).Success?
  {
    hide Emit, GateOriginal;
    if |bares| > 0 {
      GateNeeds(bares[0].raw, bares[0].meta);
      BareGated(hash, rules, bares[1..], nonces[1..]);
    }
  }

  lemma {:induction false} RebuildGated(hash: DigestFn, rules: seq<DeviceRule>, cached: seq<CachedLineage>, nonces: seq<U64>)
    requires RebuildMoves(hash, rules, cached, nonces).Success?
    ensures var moves := RebuildMoves(hash, rules, cached, nonces).value.0;
            forall i | 0 <= i < |moves| :: GateOriginal(moves[i].lineage.original, ProgMeta(true, 0)).Success?
  {
    hide Emit, GateOriginal;
    if |cached| > 0 {
      GateNeeds(cached[0].original, cached[0].meta);
      var left := if |rules| > 0 && cached[0].nonce == 0 then nonces[1..] else nonces;
      RebuildGated(hash, rules, cached[1..], left);
    }
  }

  lemma PassGated(hash: DigestFn, rules: seq<DeviceRule>, progs: seq<AttachedProg>, entry: CacheEntry, nonces: seq<U64>, i: nat)
    requires |rules| > 0 && PassMoves(hash, rules, progs, entry, nonces).Success?
    requires forall p | p in progs && p.owned :: GateOriginal(p.original, p.meta).Success?
    requires i < |PassMoves(hash, rules, progs, entry, nonces).value|
    ensures GateOriginal(PassMoves(hash, rules, progs, entry, nonces).value[i].lineage.original, ProgMeta(true, 0)).Success?
  {
    hide GateOriginal, GroupsOf, BaresOf, GrantMoves, BareMoves, RebuildMoves, MissingLineages;
    GroupsNonEmpty(progs);
    GroupingSound(progs);
    var groups, bares := GroupsOf(progs), BaresOf(progs);
    GrantLineages(hash, rules, groups);
    BareGated(hash, rules, bares, nonces);
    var forGroups := GrantMoves(hash, rules, groups).value;
    var (forBares, rest) := BareMoves(hash, rules, bares, nonces).value;
    if i < |forGroups| {
      assert GroupOf(progs, groups[i]);
      var member := groups[i].members[0];
      assert member in groups[i].members;
      GateNeeds(member.original, member.meta);
    } else if i >= |forGroups + forBares| {
      RebuildGated(hash, rules, MissingLineages(entry.lineages, groups, bares), rest);
    }
  }

  lemma LineageGated(hash: DigestFn, s: Cgroup, rules: seq<DeviceRule>, env: Env, i: nat)
    requires |rules| > 0 && PlanPass(hash, s, rules, env).Success? && i < |PlanPass(hash, s, rules, env).value.1|
    ensures GateOriginal(PlanPass(hash, s, rules, env).value.1[i].lineage.original, ProgMeta(true, 0)).Success?
  {
    PlanPassPlanned(hash, s, rules, env);
    var (progs, moves) := PlanPass(hash, s, rules, env).value;
    hide PlanPass, GateOriginal, Classify, AllShaped, MovesBag, ProgsBag, PassMoves, PassEntry, Positioned;
    forall p | p in progs && p.owned
      ensures GateOriginal(p.original, p.meta).Success?
    {
      var k :| 0 <= k < |progs| && progs[k] == p;
      hide Canonical, Innermost, Parse;
      ClassifyMeans(hash, k, s.kernel.attached[k], p);
    }
    PassGated(hash, rules, progs, PassEntry(s), env.nonces, i);
  }

  // --- What a finished pass leaves, classified again ------------------------------------------------------------

  // The program a finished pass leaves for a lineage, as the next query classifies it.
  function Again(rules: seq<DeviceRule>, lineage: CachedLineage, index: nat, raw: seq<Byte>, meta: ProgMeta): AttachedProg {
    AttachedProg(index, raw, meta, |rules| > 0, if |rules| > 0 then lineage.nonce else 0, lineage.original)
  }

  lemma ResultMeta(hash: DigestFn, s: Cgroup, rules: seq<DeviceRule>, env: Env, i: nat, p: Prog)
    requires |rules| > 0 && PlanPass(hash, s, rules, env).Success? && CacheBare(hash, s.entry) && Readable(rules)
    requires i < |PlanPass(hash, s, rules, env).value.1|
    requires ResultOf(p, PlanPass(hash, s, rules, env).value.1[i], s.kernel.attached)
    ensures GateOriginal(PlanPass(hash, s, rules, env).value.1[i].lineage.original, p.meta).Success?
  {
    var (progs, moves) := PlanPass(hash, s, rules, env).value;
    LineageGated(hash, s, rules, env, i);
    if moves[i].Keep? {
      PlanPassPlanned(hash, s, rules, env);
      assert MoveShape(hash, rules, progs, moves[i]);
      var kept := moves[i].kept;
      assert MoveIndices(moves[i])[0] == kept;
      hide PlanPass, GateOriginal, Classify, AllShaped, MovesBag, ProgsBag, PassMoves, PassEntry, Positioned, CacheBare, Readable, Parse,
           Canonical, Innermost, Normalise, BareOriginal;
      ClassifyMeans(hash, kept, p, progs[kept]);
      LineageBare(hash, s, rules, env, i);
      TargetStrips(hash, rules, moves[i].lineage);
    } else {
      hide *;
      LoadedMeta(p, moves[i], s.kernel.attached);
    }
  }

  lemma LoadedMeta(p: Prog, move: Move, attached: seq<Prog>)
    requires ResultOf(p, move, attached) && !move.Keep?
    ensures p.meta == ProgMeta(true, 0)
  {
    hide Canonical;
  }

  lemma ResultClassifies(hash: DigestFn, s: Cgroup, rules: seq<DeviceRule>, env: Env, i: nat, p: Prog, k: nat)
    requires PlanPass(hash, s, rules, env).Success? && CacheBare(hash, s.entry) && Readable(rules)
    requires i < |PlanPass(hash, s, rules, env).value.1|
    requires ResultOf(p, PlanPass(hash, s, rules, env).value.1[i], s.kernel.attached)
    ensures var lineage := PlanPass(hash, s, rules, env).value.1[i].lineage;
            && Target(hash, rules, lineage).Some?
            && Classify(hash, k, p) == Success(Again(rules, lineage, k, Target(hash, rules, lineage).value, p.meta))
  {
    hide PlanPass, CacheBare, Readable, ResultOf, Target, Canonical, Parse, Innermost, GateOriginal, Normalise;
    var lineage := PlanPass(hash, s, rules, env).value.1[i].lineage;
    LineageBare(hash, s, rules, env, i);
    ResultTarget(hash, s, rules, env, i, p);
    TargetStrips(hash, rules, lineage);
    InnermostOfOwned(hash, Canonical(p.code).value);
    if |rules| > 0 {
      ResultMeta(hash, s, rules, env, i, p);
    } else {
      EmptyTarget(hash, rules, lineage);
    }
  }

  // --- Grouping programs that are all as desired ------------------------------------------------------------------

  ghost predicate SameKey(a: AttachedProg, b: AttachedProg) {
    a.nonce == b.nonce && a.original == b.original
  }

  ghost predicate ProgKeysDistinct(progs: seq<AttachedProg>) {
    forall i, j | 0 <= i < j < |progs| :: !SameKey(progs[i], progs[j])
  }

  // Every program is the wrapper desired for its lineage.
  ghost predicate AllDesired(hash: DigestFn, rules: seq<DeviceRule>, progs: seq<AttachedProg>) {
    forall k | 0 <= k < |progs| :: progs[k].owned && Emit(hash, rules, progs[k].nonce, progs[k].original) == Success(progs[k].raw)
  }

  function MemberCount(groups: seq<WrapperGroup>): nat {
    if |groups| == 0 then 0 else |groups[0].members| + MemberCount(groups[1..])
  }

  lemma {:induction false} MemberCountAppends(groups: seq<WrapperGroup>, last: WrapperGroup)
    ensures MemberCount(groups + [last]) == MemberCount(groups) + |last.members|
  {
    if |groups| == 0 {
      assert groups + [last] == [last];
    } else {
      assert (groups + [last])[1..] == groups[1..] + [last];
      MemberCountAppends(groups[1..], last);
    }
  }

  lemma {:induction false} MemberCountGrows(groups: seq<WrapperGroup>, i: nat, prog: AttachedProg)
    requires i < |groups|
    ensures MemberCount(groups[i := groups[i].(members := groups[i].members + [prog])]) == MemberCount(groups) + 1
  {
    var grown := groups[i].(members := groups[i].members + [prog]);
    if i == 0 {
      assert groups[0 := grown][1..] == groups[1..];
    } else {
      assert groups[i := grown][1..] == groups[1..][i - 1 := grown];
      MemberCountGrows(groups[1..], i - 1, prog);
    }
  }

  ghost predicate Grouped(progs: seq<AttachedProg>, groups: seq<WrapperGroup>) {
    forall p | p in progs :: exists i | 0 <= i < |groups| :: SameLineage(groups[i], p)
  }

  // A group for every key, and as many groups as programs exactly when no key repeats.
  lemma {:induction false} OwnedGroups(progs: seq<AttachedProg>)
    requires forall k | 0 <= k < |progs| :: progs[k].owned
    ensures BaresOf(progs) == [] && MemberCount(GroupsOf(progs)) == |progs| && |GroupsOf(progs)| <= |progs|
    ensures Grouped(progs, GroupsOf(progs))
    ensures |GroupsOf(progs)| == |progs| <==> ProgKeysDistinct(progs)
  {
    if |progs| > 0 {
      var front, last := progs[..|progs| - 1], progs[|progs| - 1];
      OwnedGroups(front);
      GroupingSound(front);
      assert progs == front + [last];
      var groups := GroupsOf(front);
      hide FindGroup, MemberCount, ProgKeysDistinct, SameLineage;
      DistinctSnoc(front, last);
      GroupFor(front, groups, last);
      match FindGroup(groups, last, 0)
      case Some(g) =>
        MemberCountGrows(groups, g, last);
        GroupsStay(progs, groups, GroupsOf(progs), last);
      case None =>
        MemberCountAppends(groups, WrapperGroup(last.nonce, last.original, last.meta, [last]));
        GroupsStay(progs, groups, GroupsOf(progs), last);
    }
  }

  lemma DistinctSnoc(front: seq<AttachedProg>, last: AttachedProg)
    ensures ProgKeysDistinct(front + [last]) <==> ProgKeysDistinct(front) && forall p | p in front :: !SameKey(p, last)
  {
    var progs := front + [last];
    if ProgKeysDistinct(progs) {
      assert forall i | 0 <= i < |front| :: progs[i] == front[i];
      forall p | p in front
        ensures !SameKey(p, last)
      {
        var i :| 0 <= i < |front| && front[i] == p;
        assert !SameKey(progs[i], progs[|front|]);
      }
    }
  }

  // A new program finds a group exactly when an earlier one has its key.
  lemma GroupFor(front: seq<AttachedProg>, groups: seq<WrapperGroup>, last: AttachedProg)
    requires AllGroupsOf(front, groups)
    requires Grouped(front, groups)
    ensures FindGroup(groups, last, 0).None? <==> forall p | p in front :: !SameKey(p, last)
  {
    hide FindGroup;
    match FindGroup(groups, last, 0)
    case Some(g) =>
      assert GroupOf(front, groups[g]);
      var member := groups[g].members[0];
      assert member in groups[g].members && SameKey(member, last);
    case None =>
      forall p | p in front
        ensures !SameKey(p, last)
      {
        var i :| 0 <= i < |groups| && SameLineage(groups[i], p);
        assert !SameLineage(groups[i], last);
      }
  }

  lemma GroupsStay(progs: seq<AttachedProg>, groups: seq<WrapperGroup>, next: seq<WrapperGroup>, last: AttachedProg)
    requires |progs| > 0 && progs[|progs| - 1] == last && next == AddToGroups(groups, last)
    requires Grouped(progs[..|progs| - 1], groups)
    ensures Grouped(progs, next)
  {
    hide FindGroup;
    forall p | p in progs
      ensures exists i | 0 <= i < |next| :: SameLineage(next[i], p)
    {
      if p in progs[..|progs| - 1] {
        var i :| 0 <= i < |groups| && SameLineage(groups[i], p);
        assert SameLineage(next[i], p);
      } else {
        assert p == last;
        var g := if FindGroup(groups, last, 0).Some? then FindGroup(groups, last, 0).value else |groups|;
        assert SameLineage(next[g], last);
      }
    }
  }

  lemma FirstFound(members: seq<AttachedProg>, raw: seq<Byte>)
    requires |members| > 0 && members[0].raw == raw
    ensures FindRaw(members, raw, 0) == Some(0)
  {
  }

  // Such groups only lose their surplus members.
  lemma {:induction false} DesiredMoves(hash: DigestFn, rules: seq<DeviceRule>, groups: seq<WrapperGroup>, load: nat)
    requires forall k | 0 <= k < |groups| ::
               |groups[k].members| > 0 && Emit(hash, rules, groups[k].nonce, groups[k].original) == Success(groups[k].members[0].raw)
    ensures GrantMoves(hash, rules, groups).Success?
    ensures var plan := Render(GrantMoves(hash, rules, groups).value, load);
            |plan.loads| == 0 && |plan.steps| + |groups| == MemberCount(groups)
    decreases |groups|
  {
    hide Emit, Detaches, IndicesOf, FindRaw;
    if |groups| > 0 {
      assert forall k | 0 <= k < |groups[1..]| :: groups[1..][k] == groups[k + 1];
      DesiredMoves(hash, rules, groups[1..], load);
      FirstFound(groups[0].members, groups[0].members[0].raw);
      var move := GrantMove(groups[0].members[0].raw, groups[0]);
      assert move.Keep? && |MoveSteps(move, load)| + 1 == |groups[0].members|;
      var rest := GrantMoves(hash, rules, groups[1..]).value;
      assert ([move] + rest)[1..] == rest;
    }
  }

  // Repeating the pass plans no load, and as many detaches as keys repeat.
  lemma DesiredPlan(hash: DigestFn, rules: seq<DeviceRule>, progs: seq<AttachedProg>, entry: CacheEntry, nonces: seq<U64>)
    requires |rules| > 0 && !entry.rebuilding && AllDesired(hash, rules, progs)
    ensures PassMoves(hash, rules, progs, entry, nonces).Success?
    ensures var plan := Render(PassMoves(hash, rules, progs, entry, nonces).value, 0);
            |plan.loads| == 0 && (|plan.steps| == 0 <==> ProgKeysDistinct(progs))
  {
    hide Emit, GroupsOf, BaresOf, GrantMoves, Render, MemberCount, ProgKeysDistinct;
    GroupsNonEmpty(progs);
    GroupingSound(progs);
    OwnedGroups(progs);
    var groups := GroupsOf(progs);
    forall k | 0 <= k < |groups|
      ensures Emit(hash, rules, groups[k].nonce, groups[k].original) == Success(groups[k].members[0].raw)
    {
      assert GroupOf(progs, groups[k]);
      var member := groups[k].members[0];
      assert member in groups[k].members;
      var x :| 0 <= x < |progs| && progs[x] == member;
    }
    DesiredMoves(hash, rules, groups, 0);
    var moves := GrantMoves(hash, rules, groups).value;
    assert moves + [] == moves;
  }

  // --- Repeating a restore ------------------------------------------------------------------------------------------

  lemma {:induction false} BareOnly(progs: seq<AttachedProg>)
    requires forall k | 0 <= k < |progs| :: !progs[k].owned
    ensures GroupsOf(progs) == [] && BaresOf(progs) == progs
  {
    if |progs| > 0 {
      BareOnly(progs[..|progs| - 1]);
      assert progs == progs[..|progs| - 1] + [progs[|progs| - 1]];
    }
  }

  lemma {:induction false} FreeNothing(bares: seq<AttachedProg>, available: seq<bool>, load: nat)
    requires |available| == |bares|
    ensures var plan := Render(FreeMoves(bares, available), load); |plan.loads| == 0 && |plan.steps| == 0
    decreases |bares|
  {
    if |bares| > 0 {
      FreeNothing(bares[1..], available[1..], load);
      var rest := FreeMoves(bares[1..], available[1..]);
      if available[0] {
        var move := Keep(bares[0].index, [], CachedLineage(0, bares[0].raw, bares[0].meta));
        assert ([move] + rest)[1..] == rest;
      } else {
        assert [] + rest == rest;
      }
    }
  }

  lemma BarePlan(hash: DigestFn, rules: seq<DeviceRule>, progs: seq<AttachedProg>, entry: CacheEntry, nonces: seq<U64>)
    requires |rules| == 0 && !entry.rebuilding && forall k | 0 <= k < |progs| :: !progs[k].owned
    ensures PassMoves(hash, rules, progs, entry, nonces).Success?
    ensures var plan := Render(PassMoves(hash, rules, progs, entry, nonces).value, 0); |plan.loads| == 0 && |plan.steps| == 0
  {
    hide GroupsOf, BaresOf, Render, FreeMoves;
    BareOnly(progs);
    GroupsNonEmpty(progs);
    FreeNothing(progs, AllFree(|progs|), 0);
    assert [] + FreeMoves(progs, AllFree(|progs|)) == FreeMoves(progs, AllFree(|progs|));
  }

  // --- Repeating a pass -----------------------------------------------------------------------------------------------

  ghost predicate LineageKeysDistinct(moves: seq<Move>) {
    forall i, j | 0 <= i < j < |moves| ::
      moves[i].lineage.nonce != moves[j].lineage.nonce || moves[i].lineage.original != moves[j].lineage.original
  }

  // The query works and every program can be dumped.
  ghost predicate QueryWorks(env: Env) {
    !env.queryFails && env.inaccessible == 0 && env.multi && env.unreadable == {}
  }

  lemma {:induction false} AllClassify(hash: DigestFn, progs: seq<Prog>, index: nat)
    requires index <= |progs| && forall k | 0 <= k < |progs| :: Classify(hash, k, progs[k]).Success?
    ensures ClassifyFrom(hash, progs, {}, index).Success?
    decreases |progs| - index
  {
    hide Classify;
    if index < |progs| {
      AllClassify(hash, progs, index + 1);
    }
  }

  lemma {:induction false} NothingMatches(cached: seq<CachedLineage>)
    ensures Missing(cached, [], [], [], []) == cached
  {
    if |cached| > 0 {
      NothingMatches(cached[1..]);
      assert cached == [cached[0]] + cached[1..];
    }
  }

  // An empty cgroup is planned for from the cache alone.
  lemma EmptyPlan(hash: DigestFn, rules: seq<DeviceRule>, entry: CacheEntry, nonces: seq<U64>)
    requires entry.rebuilding
    ensures PassMoves(hash, rules, [], entry, nonces)
         == match RebuildMoves(hash, rules, entry.lineages, nonces)
            case Failure(error) => Failure(error)
            case Success((moves, _)) => Success(moves)
  {
    hide RebuildMoves, Emit;
    NothingMatches(entry.lineages);
    assert NoneUsed(0) == [] && AllFree(0) == [];
    hide Missing;
    var moves := RebuildMoves(hash, rules, entry.lineages, nonces);
    assert moves.Success? ==> [] + moves.value.0 == moves.value.0;
    assert FreeMoves([], []) == [] && RestoreAll([], []) == [];
  }

  // A pass that can be planned has something to plan for.
  lemma MovesExist(hash: DigestFn, s: Cgroup, rules: seq<DeviceRule>, env: Env)
    requires PlanPass(hash, s, rules, env).Success?
    ensures |PlanPass(hash, s, rules, env).value.1| > 0
  {
    var (progs, moves) := PlanPass(hash, s, rules, env).value;
    PlannedParts(hash, s, rules, env);
    PlanPassPlanned(hash, s, rules, env);
    if |s.kernel.attached| == 0 {
      assert progs == [] && |s.entry.lineages| > 0;
      hide PlanPass, PassMoves, RebuildMoves;
      EmptyPlan(hash, rules, PassEntry(s), env.nonces);
      RebuildMovesShape(hash, rules, [], s.entry.lineages, env.nonces);
    } else {
      hide PlanPass, PassMoves, MovesBag, Planned, MovesFit, AllShaped;
      AllPositions(progs, moves);
      assert 0 in Positions(moves);
      var i, k := MoveAt(moves, 0);
    }
  }

  // The programs a finished pass leaves, and the next query's view of each.
  lemma LeftBehind(hash: DigestFn, s: Cgroup, rules: seq<DeviceRule>, env: Env) returns (results: seq<Prog>)
    requires KernelOk(s.kernel) && CacheBare(hash, s.entry) && PlanPass(hash, s, rules, env).Success?
    requires Pass(hash, s, rules, env).1.Success?
    ensures var moves, s' := PlanPass(hash, s, rules, env).value.1, Pass(hash, s, rules, env).0;
            && KernelOk(s'.kernel) && |results| == |moves| == |s'.kernel.attached|
            && (forall p :: p in results <==> p in s'.kernel.attached)
            && NoDuplicates(results) && NoDuplicates(s'.kernel.attached)
            && forall i | 0 <= i < |moves| :: ResultOf(results[i], moves[i], s.kernel.attached)
  {
    hide *;
    PassRuns(hash, s, rules, env);
    var moves, s' := PlanPass(hash, s, rules, env).value.1, Pass(hash, s, rules, env).0;
    PassRanKernel(s.kernel, s'.kernel, moves);
    results := FinishedResults(s.kernel, s'.kernel, moves);
    SameLength(results, s'.kernel.attached);
  }

  lemma PassRanKernel(k: Kernel, k': Kernel, moves: seq<Move>)
    requires PassRan(k, k', true, moves)
    ensures KernelOk(k') && NoDuplicates(k'.attached)
  {
    hide OnTheWay, Finished;
  }

  lemma SameLength(a: seq<Prog>, b: seq<Prog>)
    requires multiset(a) == multiset(b) && NoDuplicates(b)
    ensures |a| == |b| && NoDuplicates(a)
  {
    assert |multiset(a)| == |a| && |multiset(b)| == |b|;
    forall i, j | 0 <= i < j < |a|
      ensures a[i] != a[j]
    {
      if a[i] == a[j] {
        TwiceInBag(a, i, j);
        OnceInBag(b, a[i]);
      }
    }
  }

  lemma TwiceInBag(a: seq<Prog>, i: nat, j: nat)
    requires i < j < |a| && a[i] == a[j]
    ensures multiset(a)[a[i]] >= 2
  {
    assert a == a[..j] + ([a[j]] + a[j + 1..]);
    assert a[..j][i] == a[i] && a[i] in a[..j];
    assert multiset(a) == multiset(a[..j]) + (multiset{a[j]} + multiset(a[j + 1..]));
  }

  lemma {:induction false} OnceInBag(b: seq<Prog>, p: Prog)
    requires NoDuplicates(b)
    ensures multiset(b)[p] <= 1
  {
    if p in b {
      var k :| 0 <= k < |b| && b[k] == p;
      RemoveOne(b, k);
    }
  }

  // The view of the next query, position by position.
  lemma NextView(hash: DigestFn, s: Cgroup, rules: seq<DeviceRule>, env: Env, results: seq<Prog>, i: nat, x: nat)
    requires CacheBare(hash, s.entry) && Readable(rules) && PlanPass(hash, s, rules, env).Success?
    requires i < |PlanPass(hash, s, rules, env).value.1| == |results|
    requires ResultOf(results[i], PlanPass(hash, s, rules, env).value.1[i], s.kernel.attached)
    ensures var lineage := PlanPass(hash, s, rules, env).value.1[i].lineage;
            && Classify(hash, x, results[i]).Success?
            && var a := Classify(hash, x, results[i]).value;
               && a.owned == (|rules| > 0) && (|rules| > 0 ==> a.nonce == lineage.nonce) && a.original == lineage.original
               && (|rules| > 0 ==> Emit(hash, rules, a.nonce, a.original) == Success(a.raw))
  {
    hide PlanPass, CacheBare, Readable, ResultOf, Classify, Emit;
    ResultClassifies(hash, s, rules, env, i, results[i], x);
  }

  // The fixed point: after a pass that succeeded, the same pass plans no load, and no step exactly
  // when no two lineages share nonce and original (empty rules never plan one).
  lemma FixedPoint(hash: DigestFn, s: Cgroup, rules: seq<DeviceRule>, env: Env, again: Env)
    requires KernelOk(s.kernel) && CacheBare(hash, s.entry) && Readable(rules) && PlanPass(hash, s, rules, env).Success?
    requires Pass(hash, s, rules, env).1.Success? && QueryWorks(again)
    ensures PlanPass(hash, Pass(hash, s, rules, env).0, rules, again).Success?
    ensures var plan := Render(PlanPass(hash, Pass(hash, s, rules, env).0, rules, again).value.1, 0);
            && |plan.loads| == 0
            && (|plan.steps| == 0 <==> |rules| == 0 || LineageKeysDistinct(PlanPass(hash, s, rules, env).value.1))
  {
    hide *;
    var results := LeftBehind(hash, s, rules, env);
    var moves, s' := PlanPass(hash, s, rules, env).value.1, Pass(hash, s, rules, env).0;
    var attached := s'.kernel.attached;
    MovesExist(hash, s, rules, env);
    EntryAfter(hash, s, rules, env);
    forall x, i | 0 <= x < |attached| && 0 <= i < |results| && attached[x] == results[i]
      ensures Classify(hash, x, attached[x]).Success? && Viewed(hash, rules, Classify(hash, x, attached[x]).value, moves[i].lineage)
    {
      NextView(hash, s, rules, env, results, i, x);
      ViewedMeans(hash, rules, Classify(hash, x, attached[x]).value, moves[i].lineage);
    }
    var from := Permuted(attached, results);
    assert forall x | 0 <= x < |attached| :: Classify(hash, x, attached[x]).Success?;
    AllClassify(hash, attached, 0);
    var progs := ClassifyFrom(hash, attached, {}, 0).value;
    ClassifiedEach(hash, attached, {}, 0);
    forall x | 0 <= x < |attached|
      ensures Classify(hash, x, attached[x]) == Success(progs[x])
    {
      assert Classify(hash, x, attached[x]) == Success(progs[x - 0]);
    }
    NextPlan(hash, s', rules, again, progs, moves, from);
    NextPlanned(hash, s', rules, again, progs);
  }

  // `a` is the program of the lineage, as desired.
  ghost predicate Viewed(hash: DigestFn, rules: seq<DeviceRule>, a: AttachedProg, lineage: CachedLineage) {
    if |rules| == 0 then !a.owned
    else a.owned && a.nonce == lineage.nonce && a.original == lineage.original && Emit(hash, rules, a.nonce, a.original) == Success(a.raw)
  }

  lemma ViewedMeans(hash: DigestFn, rules: seq<DeviceRule>, a: AttachedProg, lineage: CachedLineage)
    requires a.owned == (|rules| > 0) && (|rules| > 0 ==> a.nonce == lineage.nonce) && a.original == lineage.original
    requires |rules| > 0 ==> Emit(hash, rules, a.nonce, a.original) == Success(a.raw)
    ensures Viewed(hash, rules, a, lineage)
  {
    hide Emit;
  }

  // Two lists of the same programs without duplicates: which position of the second each of the
  // first comes from.
  lemma Permuted(a: seq<Prog>, b: seq<Prog>) returns (from: seq<nat>)
    requires |a| == |b| && NoDuplicates(a) && NoDuplicates(b) && forall p :: p in a <==> p in b
    ensures |from| == |a| && forall x | 0 <= x < |a| :: from[x] < |b| && a[x] == b[from[x]]
    ensures forall x, y | 0 <= x < y < |a| :: from[x] != from[y]
    ensures forall i | 0 <= i < |b| :: i in from
  {
    from := [];
    while |from| < |a|
      invariant |from| <= |a| && forall x | 0 <= x < |from| :: from[x] < |b| && a[x] == b[from[x]]
    {
      assert a[|from|] in a;
      var i: nat :| i < |b| && b[i] == a[|from|];
      from := from + [i];
    }
    forall i | 0 <= i < |b|
      ensures i in from
    {
      assert b[i] in a by { assert b[i] in b; }
      var x :| 0 <= x < |a| && a[x] == b[i];
      assert from[x] == i;
    }
  }

  lemma NextPlan(hash: DigestFn, s': Cgroup, rules: seq<DeviceRule>, again: Env, progs: seq<AttachedProg>, moves: seq<Move>, from: seq<nat>)
    requires !s'.entry.rebuilding && |progs| == |from| == |moves|
    requires forall x | 0 <= x < |progs| :: from[x] < |moves| && Viewed(hash, rules, progs[x], moves[from[x]].lineage)
    requires forall x, y | 0 <= x < y < |from| :: from[x] != from[y]
    requires forall i | 0 <= i < |moves| :: i in from
    ensures PassMoves(hash, rules, progs, s'.entry, again.nonces).Success?
    ensures var plan := Render(PassMoves(hash, rules, progs, s'.entry, again.nonces).value, 0);
            |plan.loads| == 0 && (|plan.steps| == 0 <==> |rules| == 0 || LineageKeysDistinct(moves))
  {
    hide PassMoves, Render, Emit;
    if |rules| == 0 {
      BarePlan(hash, rules, progs, s'.entry, again.nonces);
    } else {
      DesiredPlan(hash, rules, progs, s'.entry, again.nonces);
      if LineageKeysDistinct(moves) {
        forall x, y | 0 <= x < y < |progs|
          ensures !SameKey(progs[x], progs[y])
        {
          var i, j := from[x], from[y];
          assert i < j || j < i;
        }
      }
      if ProgKeysDistinct(progs) {
        forall i, j | 0 <= i < j < |moves|
          ensures moves[i].lineage.nonce != moves[j].lineage.nonce || moves[i].lineage.original != moves[j].lineage.original
        {
          assert i in from && j in from;
          var x :| 0 <= x < |from| && from[x] == i;
          var y :| 0 <= y < |from| && from[y] == j;
          assert x < y || y < x;
          assert !SameKey(progs[x], progs[y]) || !SameKey(progs[y], progs[x]);
        }
      }
    }
  }

  lemma NextPlanned(hash: DigestFn, s': Cgroup, rules: seq<DeviceRule>, again: Env, progs: seq<AttachedProg>)
    requires QueryWorks(again) && |s'.kernel.attached| > 0
    requires ClassifyFrom(hash, s'.kernel.attached, {}, 0) == Success(progs)
    requires PassMoves(hash, rules, progs, s'.entry, again.nonces).Success?
    ensures PlanPass(hash, s', rules, again) == Success((progs, PassMoves(hash, rules, progs, s'.entry, again.nonces).value))
  {
    hide ClassifyFrom, PassMoves;
  }

  // --- When the keys are distinct -----------------------------------------------------------------------------------

  lemma {:induction false} BareNonces(hash: DigestFn, rules: seq<DeviceRule>, bares: seq<AttachedProg>, nonces: seq<U64>)
    requires BareMoves(hash, rules, bares, nonces).Success?
    ensures var (moves, rest) := BareMoves(hash, rules, bares, nonces).value;
            && |moves| == |bares| <= |nonces| && rest == nonces[|bares|..]
            && forall i | 0 <= i < |moves| :: moves[i].lineage.nonce == nonces[i]
  {
    hide Emit, GateOriginal;
    if |bares| > 0 {
      BareNonces(hash, rules, bares[1..], nonces[1..]);
      assert nonces[1..][|bares| - 1..] == nonces[|bares|..];
    }
  }

  predicate SameLineageKey(a: CachedLineage, b: CachedLineage) {
    a.nonce == b.nonce && a.original == b.original
  }

  // No two lineages that were ever wrapped share nonce and original.
  ghost predicate CachedKeysDistinct(lineages: seq<CachedLineage>) {
    forall i, j | 0 <= i < j < |lineages| :: lineages[i].nonce == 0 || !SameLineageKey(lineages[i], lineages[j])
  }

  // New nonces: no two alike, none of an attached wrapper or a cached lineage.
  ghost predicate NewNonces(nonces: seq<U64>, progs: seq<AttachedProg>, cached: seq<CachedLineage>) {
    && (forall i, j | 0 <= i < j < |nonces| :: nonces[i] != nonces[j])
    && (forall p | p in progs && p.owned :: p.nonce !in nonces)
    && (forall l | l in cached && l.nonce != 0 :: l.nonce !in nonces)
  }

  lemma DistinctTail(cached: seq<CachedLineage>)
    requires |cached| > 0 && CachedKeysDistinct(cached)
    ensures CachedKeysDistinct(cached[1..])
    ensures forall l | l in cached[1..] :: cached[0].nonce == 0 || !SameLineageKey(cached[0], l)
  {
    hide SameLineageKey;
    assert forall k | 0 <= k < |cached[1..]| :: cached[1..][k] == cached[k + 1];
  }

  lemma DistinctCons(first: CachedLineage, rest: seq<CachedLineage>)
    requires CachedKeysDistinct(rest) && forall l | l in rest :: first.nonce == 0 || !SameLineageKey(first, l)
    ensures CachedKeysDistinct([first] + rest)
  {
    hide SameLineageKey;
  }

  // A group no lineage of the list belongs to, if it was ever wrapped.
  ghost predicate NoneOf(cached: seq<CachedLineage>, group: WrapperGroup) {
    forall l | l in cached && l.nonce != 0 :: l.nonce != group.nonce || l.original != group.original
  }

  // The lost lineages have distinct keys too, and none of a group's.
  lemma {:induction false} MissingKeys(cached: seq<CachedLineage>, groups: seq<WrapperGroup>, bares: seq<AttachedProg>,
                                       groupUsed: seq<bool>, bareFree: seq<bool>)
    requires |groupUsed| == |groups| && |bareFree| == |bares| && CachedKeysDistinct(cached)
    requires forall g | 0 <= g < |groups| && groupUsed[g] :: NoneOf(cached, groups[g])
    ensures CachedKeysDistinct(Missing(cached, groups, bares, groupUsed, bareFree))
    ensures forall g | 0 <= g < |groups| :: NoneOf(Missing(cached, groups, bares, groupUsed, bareFree), groups[g])
    decreases |cached|
  {
    hide FindUnusedGroup, FindFree, CachedKeysDistinct;
    if |cached| == 0 {
      NothingDistinct();
    } else {
      DistinctTail(cached);
      var rest := cached[1..];
      assert forall l | l in rest :: l in cached;
      match FindUnusedGroup(groups, groupUsed, cached[0], 0)
      case Some(g) => MissingKeys(rest, groups, bares, groupUsed[g := true], bareFree);
      case None =>
        match FindFree(bares, bareFree, cached[0].original, 0)
        case Some(b) => MissingKeys(rest, groups, bares, groupUsed, bareFree[b := false]);
        case None =>
          MissingKeys(rest, groups, bares, groupUsed, bareFree);
          MissingSubset(rest, groups, bares, groupUsed, bareFree);
          DistinctCons(cached[0], Missing(rest, groups, bares, groupUsed, bareFree));
    }
  }

  lemma NothingDistinct()
    ensures CachedKeysDistinct([])
  {
  }

  // Its own nonce, or a new one.
  ghost predicate NonceFrom(lineage: CachedLineage, cached: CachedLineage, nonces: seq<U64>) {
    lineage.original == cached.original && (if cached.nonce != 0 then lineage.nonce == cached.nonce else lineage.nonce in nonces)
  }

  lemma {:induction false} RebuildKeys(hash: DigestFn, rules: seq<DeviceRule>, cached: seq<CachedLineage>, nonces: seq<U64>)
    requires |rules| > 0 && RebuildMoves(hash, rules, cached, nonces).Success? && CachedKeysDistinct(cached)
    requires NewNonces(nonces, [], cached)
    ensures var moves := RebuildMoves(hash, rules, cached, nonces).value.0;
            && |moves| == |cached| && LineageKeysDistinct(moves)
            && forall i | 0 <= i < |moves| :: NonceFrom(moves[i].lineage, cached[i], nonces)
    decreases |cached|
  {
    hide RebuildOne, CachedKeysDistinct, NewNonces, NonceFrom, LineageKeysDistinct;
    if |cached| == 0 {
      NoKeys();
    } else {
      var (move, left) := RebuildOne(hash, rules, cached[0], nonces).value;
      RebuildOneKey(hash, rules, cached, nonces);
      DistinctTail(cached);
      RebuildKeys(hash, rules, cached[1..], left);
      var rest := RebuildMoves(hash, rules, cached[1..], left).value.0;
      LaterKeys(cached, nonces, left, move, rest);
      KeysCons(move, rest);
    }
  }

  lemma NoKeys()
    ensures LineageKeysDistinct([])
  {
  }

  // One rebuilt lineage and the nonces left for the others.
  lemma RebuildOneKey(hash: DigestFn, rules: seq<DeviceRule>, cached: seq<CachedLineage>, nonces: seq<U64>)
    requires |rules| > 0 && |cached| > 0 && RebuildOne(hash, rules, cached[0], nonces).Success? && NewNonces(nonces, [], cached)
    ensures var (move, left) := RebuildOne(hash, rules, cached[0], nonces).value;
            && NonceFrom(move.lineage, cached[0], nonces) && NewNonces(left, [], cached[1..]) && (forall n | n in left :: n in nonces)
            && (cached[0].nonce == 0 ==> move.lineage.nonce !in left)
  {
    hide Emit, GateOriginal;
    var left := RebuildOne(hash, rules, cached[0], nonces).value.1;
    assert forall n | n in left :: n in nonces;
    assert forall l | l in cached[1..] :: l in cached;
  }

  lemma LaterKeys(cached: seq<CachedLineage>, nonces: seq<U64>, left: seq<U64>, move: Move, rest: seq<Move>)
    requires |cached| > 0 && |rest| == |cached| - 1 && NewNonces(nonces, [], cached) && (forall n | n in left :: n in nonces)
    requires NonceFrom(move.lineage, cached[0], nonces) && (cached[0].nonce == 0 ==> move.lineage.nonce !in left)
    requires forall l | l in cached[1..] :: cached[0].nonce == 0 || !SameLineageKey(cached[0], l)
    requires forall i | 0 <= i < |rest| :: NonceFrom(rest[i].lineage, cached[1..][i], left)
    ensures forall i | 0 <= i < |rest| :: NonceFrom(rest[i].lineage, cached[i + 1], nonces) && !SameLineageKey(move.lineage, rest[i].lineage)
  {
    forall i | 0 <= i < |rest|
      ensures NonceFrom(rest[i].lineage, cached[i + 1], nonces) && !SameLineageKey(move.lineage, rest[i].lineage)
    {
      assert NonceFrom(rest[i].lineage, cached[1..][i], left) && cached[1..][i] == cached[i + 1];
      assert cached[i + 1] in cached[1..] && cached[i + 1] in cached && cached[0] in cached;
    }
  }

  lemma KeysCons(move: Move, rest: seq<Move>)
    requires LineageKeysDistinct(rest) && forall i | 0 <= i < |rest| :: !SameLineageKey(move.lineage, rest[i].lineage)
    ensures LineageKeysDistinct([move] + rest)
  {
  }

  lemma KeysJoin(a: seq<Move>, b: seq<Move>)
    requires LineageKeysDistinct(a) && LineageKeysDistinct(b)
    requires forall i, j | 0 <= i < |a| && 0 <= j < |b| :: !SameLineageKey(a[i].lineage, b[j].lineage)
    ensures LineageKeysDistinct(a + b)
  {
  }

  // With new nonces a grant has distinct keys, after a wipe as well.
  lemma NewNoncesDistinct(hash: DigestFn, rules: seq<DeviceRule>, progs: seq<AttachedProg>, entry: CacheEntry, nonces: seq<U64>)
    requires |rules| > 0 && NewNonces(nonces, progs, entry.lineages) && (entry.rebuilding ==> CachedKeysDistinct(entry.lineages))
    requires PassMoves(hash, rules, progs, entry, nonces).Success?
    ensures LineageKeysDistinct(PassMoves(hash, rules, progs, entry, nonces).value)
  {
    hide GroupsOf, BaresOf, GrantMoves, BareMoves, RebuildMoves, Missing, CachedKeysDistinct, LineageKeysDistinct;
    GroupsNonEmpty(progs);
    var groups, bares := GroupsOf(progs), BaresOf(progs);
    GrantedKeys(hash, rules, progs, entry.lineages, nonces);
    if entry.rebuilding {
      var (forBares, rest) := BareMoves(hash, rules, bares, nonces).value;
      var attached := GrantMoves(hash, rules, groups).value + forBares;
      RebuiltKeys(hash, rules, progs, entry.lineages, nonces);
      KeysJoin(attached, RebuildMoves(hash, rules, MissingLineages(entry.lineages, groups, bares), rest).value.0);
    }
  }

  // The keys of the attached programs' lineages: those of wrappers, and new ones.
  lemma GrantedKeys(hash: DigestFn, rules: seq<DeviceRule>, progs: seq<AttachedProg>, cached: seq<CachedLineage>, nonces: seq<U64>)
    requires |rules| > 0 && NewNonces(nonces, progs, cached)
    requires forall k | 0 <= k < |GroupsOf(progs)| :: |GroupsOf(progs)[k].members| > 0
    requires GrantMoves(hash, rules, GroupsOf(progs)).Success? && BareMoves(hash, rules, BaresOf(progs), nonces).Success?
    ensures var groups, bares := GroupsOf(progs), BaresOf(progs);
            var moves := GrantMoves(hash, rules, groups).value + BareMoves(hash, rules, bares, nonces).value.0;
            && LineageKeysDistinct(moves) && |moves| == |groups| + |bares| && |bares| <= |nonces|
            && (forall i | 0 <= i < |groups| :: moves[i].lineage == LineageOf(groups[i]) && groups[i].nonce !in nonces)
            && forall i | 0 <= i < |bares| :: moves[|groups| + i].lineage.nonce == nonces[i]
  {
    hide GroupsOf, BaresOf, GrantMoves, BareMoves;
    var groups, bares := GroupsOf(progs), BaresOf(progs);
    GroupingSound(progs);
    GrantLineages(hash, rules, groups);
    BareNonces(hash, rules, bares, nonces);
    forall i | 0 <= i < |groups|
      ensures groups[i].nonce !in nonces
    {
      assert GroupOf(progs, groups[i]);
      assert groups[i].members[0] in groups[i].members;
    }
  }

  // Those of the lost lineages: their own, or new ones not yet used.
  lemma RebuiltKeys(hash: DigestFn, rules: seq<DeviceRule>, progs: seq<AttachedProg>, cached: seq<CachedLineage>, nonces: seq<U64>)
    requires |rules| > 0 && NewNonces(nonces, progs, cached) && CachedKeysDistinct(cached)
    requires forall k | 0 <= k < |GroupsOf(progs)| :: |GroupsOf(progs)[k].members| > 0
    requires GrantMoves(hash, rules, GroupsOf(progs)).Success? && BareMoves(hash, rules, BaresOf(progs), nonces).Success?
    requires RebuildMoves(hash, rules, MissingLineages(cached, GroupsOf(progs), BaresOf(progs)),
                          BareMoves(hash, rules, BaresOf(progs), nonces).value.1).Success?
    ensures var groups, bares := GroupsOf(progs), BaresOf(progs);
            var (forBares, rest) := BareMoves(hash, rules, bares, nonces).value;
            var attached := GrantMoves(hash, rules, groups).value + forBares;
            var lost := RebuildMoves(hash, rules, MissingLineages(cached, groups, bares), rest).value.0;
            && LineageKeysDistinct(lost)
            && forall i, j | 0 <= i < |attached| && 0 <= j < |lost| :: !SameLineageKey(attached[i].lineage, lost[j].lineage)
  {
    hide GroupsOf, BaresOf, GrantMoves, BareMoves, RebuildMoves, Missing, CachedKeysDistinct, LineageKeysDistinct;
    var groups, bares := GroupsOf(progs), BaresOf(progs);
    var missing := MissingLineages(cached, groups, bares);
    MissingKeys(cached, groups, bares, NoneUsed(|groups|), AllFree(|bares|));
    MissingSubset(cached, groups, bares, NoneUsed(|groups|), AllFree(|bares|));
    GrantedKeys(hash, rules, progs, cached, nonces);
    BareNonces(hash, rules, bares, nonces);
    var (forBares, rest) := BareMoves(hash, rules, bares, nonces).value;
    RebuildKeys(hash, rules, missing, rest);
    KeysApart(groups, GrantMoves(hash, rules, groups).value + forBares, missing, RebuildMoves(hash, rules, missing, rest).value.0,
              cached, nonces, |bares|);
  }

  lemma KeysApart(groups: seq<WrapperGroup>, attached: seq<Move>, missing: seq<CachedLineage>, lost: seq<Move>,
                  cached: seq<CachedLineage>, nonces: seq<U64>, count: nat)
    requires |attached| == |groups| + count && count <= |nonces| && |lost| == |missing| && NewNonces(nonces, [], cached)
    requires forall i | 0 <= i < |groups| :: attached[i].lineage == LineageOf(groups[i]) && groups[i].nonce !in nonces
    requires forall i | 0 <= i < count :: attached[|groups| + i].lineage.nonce == nonces[i]
    requires forall j | 0 <= j < |lost| :: NonceFrom(lost[j].lineage, missing[j], nonces[count..])
    requires (forall l | l in missing :: l in cached) && forall g | 0 <= g < |groups| :: NoneOf(missing, groups[g])
    ensures forall i, j | 0 <= i < |attached| && 0 <= j < |lost| :: !SameLineageKey(attached[i].lineage, lost[j].lineage)
  {
    forall i, j | 0 <= i < |attached| && 0 <= j < |lost|
      ensures !SameLineageKey(attached[i].lineage, lost[j].lineage)
    {
      assert NonceFrom(lost[j].lineage, missing[j], nonces[count..]) && missing[j] in missing;
      if i < |groups| {
        assert NoneOf(missing, groups[i]);
      } else {
        assert attached[|groups| + (i - |groups|)].lineage.nonce == nonces[i - |groups|];
      }
    }
  }

  // --- Numbers out of range ---------------------------------------------------------------------------------------------

  // Rules with a number of 2^31 or more: the daemon does not recognise the wrappers of its own
  // successful pass, and every later pass stops on a conflict before it changes anything.
  lemma OutOfRangeConflicts(hash: DigestFn, s: Cgroup, rules: seq<DeviceRule>, env: Env, later: seq<DeviceRule>, again: Env)
    requires KernelOk(s.kernel) && CacheBare(hash, s.entry) && |rules| > 0 && Compiles(rules) && !RulesInRange(rules)
    requires PlanPass(hash, s, rules, env).Success? && Pass(hash, s, rules, env).1.Success? && QueryWorks(again)
    ensures PlanPass(hash, Pass(hash, s, rules, env).0, later, again) == Failure(OwnedInvalid(Conflicts(Regenerated(None))))
  {
    hide *;
    var results := LeftBehind(hash, s, rules, env);
    var moves, s' := PlanPass(hash, s, rules, env).value.1, Pass(hash, s, rules, env).0;
    MovesExist(hash, s, rules, env);
    var p := s'.kernel.attached[0];
    assert p in results by { assert p in s'.kernel.attached; }
    var i :| 0 <= i < |results| && results[i] == p;
    LineageBare(hash, s, rules, env, i);
    ResultTarget(hash, s, rules, env, i, p);
    TargetConflicts(hash, rules, moves[i].lineage, p);
    FirstFails(hash, s', later, again);
  }

  lemma TargetConflicts(hash: DigestFn, rules: seq<DeviceRule>, lineage: CachedLineage, p: Prog)
    requires |rules| > 0 && Compiles(rules) && !RulesInRange(rules) && BareOriginal(hash, lineage.original)
    requires Target(hash, rules, lineage).Some? && Target(hash, rules, lineage) == Canonical(p.code)
    ensures Classify(hash, 0, p) == Failure(OwnedInvalid(Conflicts(Regenerated(None))))
  {
    EmitNeeds(hash, rules, lineage.nonce, lineage.original);
    hide Emit, Parse, Canonical, Build, RulesInRange, GateOriginal, Fits;
    RoundTrip(hash, rules, lineage.nonce, lineage.original);
  }

  lemma FirstFails(hash: DigestFn, s: Cgroup, rules: seq<DeviceRule>, env: Env)
    requires QueryWorks(env) && |s.kernel.attached| > 0 && Classify(hash, 0, s.kernel.attached[0]).Failure?
    ensures PlanPass(hash, s, rules, env) == Failure(Classify(hash, 0, s.kernel.attached[0]).error)
  {
    hide Classify, PassMoves;
  }
}
