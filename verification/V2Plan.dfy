/** The cgroup v2 pass, planned before anything changes: classification, grouping, and the grant,
    restore and rebuild plans, each as one move per lineage. */
module V2Plan {
  import opened Wrappers
  import opened Words
  import opened Asm
  import opened AsmCanonical
  import opened DeviceFilter
  import opened Owned
  import opened OwnedIdentity
  import opened Gate

  // A program the kernel holds. Several handles may refer to the same one; `id` tells programs apart.
  datatype Prog = Prog(id: nat, code: seq<Byte>, meta: ProgMeta)

  // One runtime original and the nonce of the wrapper lineage around it (0 when never wrapped).
  datatype CachedLineage = CachedLineage(nonce: U64, original: seq<Byte>, meta: ProgMeta)

  // What is known about one cgroup. `rebuilding` is set while a rebuild has not completed.
  datatype CacheEntry = CacheEntry(lineages: seq<CachedLineage>, rebuilding: bool)

  // One attached program, classified; `index` is its position in the query.
  datatype AttachedProg =
    AttachedProg(index: nat, raw: seq<Byte>, meta: ProgMeta, owned: bool, nonce: U64, original: seq<Byte>)

  // The wrappers of one lineage: same nonce and byte-identical original.
  datatype WrapperGroup = WrapperGroup(nonce: U64, original: seq<Byte>, meta: ProgMeta, members: seq<AttachedProg>)

  // One mutation. `prior` indexes the query's programs, `load` the plan's loads.
  datatype Step = Attach(load: nat) | Detach(prior: nat) | Pair(prior: nat, load: nat)

  datatype PassPlan = PassPlan(loads: seq<seq<Byte>>, steps: seq<Step>, lineages: seq<CachedLineage>)

  datatype PassError =
    | QueryFailed
    | FiltersInaccessible(inaccessible: nat, total: nat)
    | UnsupportedAttachMode
    | DumpFailed(index: nat)
    | NotCanonical(index: nat)
    | OwnedInvalid(owned: OwnedError)
    | GateDecode(decode: DecodeError)
    | GateRefused(gate: GateError)
    | NonceFailed
    | EmitRefused(emit: EmitError)
    | FilterMissing
    | LoadRefused(index: nat)
    | ReplaceRefused
    | AttachRefused
    | DetachRefused
    | RollbackRefused

  // --- Classification -------------------------------------------------------------------------------

  function GateOriginal(original: seq<Byte>, meta: ProgMeta): Result<(), PassError> {
    match DecodeAll(original)
    case Failure(error) => Failure(GateDecode(error))
    case Success(instructions) =>
      match CheckGate(instructions, meta)
      case Failure(error) => Failure(GateRefused(error))
      case Success(_) => Success(())
  }

  function Classify(hash: DigestFn, index: nat, prog: Prog): Result<AttachedProg, PassError> {
    match Canonical(prog.code)
    case None => Failure(NotCanonical(index))
    case Some(raw) =>
      match ParseInnermost(hash, raw)
      case Failure(error) => Failure(OwnedInvalid(error))
      case Success(None) => Success(AttachedProg(index, raw, prog.meta, false, 0, raw))
      case Success(Some(owned)) =>
        match GateOriginal(owned.original, prog.meta)
        case Failure(error) => Failure(error)
        case Success(_) => Success(AttachedProg(index, raw, prog.meta, true, owned.nonce, owned.original))
  }

  // The programs from `index` on; the first failure, of a dump or a parse, is the result.
  function ClassifyFrom(hash: DigestFn, progs: seq<Prog>, unreadable: set<nat>, index: nat)
    : Result<seq<AttachedProg>, PassError>
    requires index <= |progs|
    decreases |progs| - index
  {
    hide Classify;
    if index == |progs| then Success([])
    else if progs[index].id in unreadable then Failure(DumpFailed(index))
    else
      match Classify(hash, index, progs[index])
      case Failure(error) => Failure(error)
      case Success(first) =>
        match ClassifyFrom(hash, progs, unreadable, index + 1)
        case Failure(error) => Failure(error)
        case Success(others) => Success([first] + others)
  }

  lemma {:induction false} ClassifiedEach(hash: DigestFn, progs: seq<Prog>, unreadable: set<nat>, index: nat)
    requires index <= |progs| && ClassifyFrom(hash, progs, unreadable, index).Success?
    ensures var r := ClassifyFrom(hash, progs, unreadable, index).value;
            && |r| == |progs| - index
            && forall k | index <= k < |progs| :: Classify(hash, k, progs[k]) == Success(r[k - index])
    decreases |progs| - index
  {
    hide Classify;
    if index < |progs| {
      ClassifiedEach(hash, progs, unreadable, index + 1);
    }
  }

  method ClassifyAll(hash: DigestFn, progs: seq<Prog>, unreadable: set<nat>)
    returns (r: Result<seq<AttachedProg>, PassError>)
    ensures r == ClassifyFrom(hash, progs, unreadable, 0)
  {
    hide Classify;
    var classified: seq<AttachedProg> := [];
    ghost var all := ClassifyFrom(hash, progs, unreadable, 0);
    assert all.Success? ==> [] + all.value == all.value;
    for index := 0 to |progs|
      invariant match ClassifyFrom(hash, progs, unreadable, index)
                case Failure(error) => all == Failure(error)
                case Success(others) => all == Success(classified + others)
    {
      if progs[index].id in unreadable {
        return Failure(DumpFailed(index));
      }
      match Classify(hash, index, progs[index]) {
        case Failure(error) =>
          return Failure(error);
        case Success(first) =>
          ghost var tail := ClassifyFrom(hash, progs, unreadable, index + 1);
          assert tail.Success? ==> classified + ([first] + tail.value) == classified + [first] + tail.value;
          classified := classified + [first];
      }
    }
    assert classified + [] == classified;
    return Success(classified);
  }

  // --- Grouping ---------------------------------------------------------------------------------------

  predicate SameLineage(group: WrapperGroup, prog: AttachedProg) {
    group.nonce == prog.nonce && group.original == prog.original
  }

  // The position of the group of `prog`, from `k` on.
  function FindGroup(groups: seq<WrapperGroup>, prog: AttachedProg, k: nat): (r: Option<nat>)
    requires k <= |groups|
    ensures match r
            case Some(i) => k <= i < |groups| && SameLineage(groups[i], prog)
            case None => forall i | k <= i < |groups| :: !SameLineage(groups[i], prog)
    decreases |groups| - k
  {
    if k == |groups| then None
    else if SameLineage(groups[k], prog) then Some(k)
    else FindGroup(groups, prog, k + 1)
  }

  function AddToGroups(groups: seq<WrapperGroup>, prog: AttachedProg): seq<WrapperGroup> {
    match FindGroup(groups, prog, 0)
    case Some(i) => groups[i := groups[i].(members := groups[i].members + [prog])]
    case None => groups + [WrapperGroup(prog.nonce, prog.original, prog.meta, [prog])]
  }

  // The wrapper lineages in order of first appearance, and the bare programs.
  function GroupsOf(progs: seq<AttachedProg>): seq<WrapperGroup> {
    if |progs| == 0 then []
    else
      var before, last := GroupsOf(progs[..|progs| - 1]), progs[|progs| - 1];
      if last.owned then AddToGroups(before, last) else before
  }

  function BaresOf(progs: seq<AttachedProg>): seq<AttachedProg> {
    if |progs| == 0 then []
    else
      var before, last := BaresOf(progs[..|progs| - 1]), progs[|progs| - 1];
      if last.owned then before else before + [last]
  }

  method GroupWrappers(progs: seq<AttachedProg>) returns (groups: seq<WrapperGroup>, bares: seq<AttachedProg>)
    ensures groups == GroupsOf(progs) && bares == BaresOf(progs)
  {
    groups, bares := [], [];
    for i := 0 to |progs|
      invariant groups == GroupsOf(progs[..i]) && bares == BaresOf(progs[..i])
    {
      assert progs[..i + 1][..i] == progs[..i];
      var prog := progs[i];
      if !prog.owned {
        bares := bares + [prog];
      } else {
        var position := FindGroup(groups, prog, 0);
        if position.None? {
          groups := groups + [WrapperGroup(prog.nonce, prog.original, prog.meta, [])];
          position := Some(|groups| - 1);
        }
        var group := groups[position.value];
        assert [] + [prog] == [prog];
        groups := groups[position.value := group.(members := group.members + [prog])];
      }
    }
    assert progs[..|progs|] == progs;
  }

  // --- Moves ------------------------------------------------------------------------------------------

  // What a plan does for one lineage. Each attached program is in exactly one move: kept, replaced
  // or detached.
  datatype Move =
    | Keep(kept: nat, detached: seq<nat>, lineage: CachedLineage)
    | Replace(prior: nat, raw: seq<Byte>, detached: seq<nat>, lineage: CachedLineage)
    | Add(raw: seq<Byte>, lineage: CachedLineage)

  function Detaches(olds: seq<nat>): (steps: seq<Step>)
    ensures |steps| == |olds|
    ensures forall k | 0 <= k < |olds| :: steps[k] == Detach(olds[k])
  {
    if |olds| == 0 then [] else [Detach(olds[0])] + Detaches(olds[1..])
  }

  function MoveLoads(move: Move): seq<seq<Byte>> {
    match move
    case Keep(_, _, _) => []
    case Replace(_, raw, _, _) => [raw]
    case Add(raw, _) => [raw]
  }

  // The steps of one move, whose load is the plan's number `load`. The new program is put in place
  // before anything of the lineage is detached.
  function MoveSteps(move: Move, load: nat): seq<Step> {
    match move
    case Keep(_, detached, _) => Detaches(detached)
    case Replace(prior, _, detached, _) => [Pair(prior, load)] + Detaches(detached)
    case Add(_, _) => [Attach(load)]
  }

  function MovePlan(move: Move, load: nat): PassPlan {
    PassPlan(MoveLoads(move), MoveSteps(move, load), [move.lineage])
  }

  function Join(a: PassPlan, b: PassPlan): PassPlan {
    PassPlan(a.loads + b.loads, a.steps + b.steps, a.lineages + b.lineages)
  }

  const EMPTY_PLAN: PassPlan := PassPlan([], [], [])

  // The plan of a list of moves; the loads before it are numbered below `load`.
  function Render(moves: seq<Move>, load: nat): PassPlan {
    if |moves| == 0 then EMPTY_PLAN
    else Join(MovePlan(moves[0], load), Render(moves[1..], load + |MoveLoads(moves[0])|))
  }

  function IndicesOf(progs: seq<AttachedProg>): (r: seq<nat>)
    ensures |r| == |progs|
    ensures forall k | 0 <= k < |progs| :: r[k] == progs[k].index
  {
    if |progs| == 0 then [] else [progs[0].index] + IndicesOf(progs[1..])
  }

  // --- The grant plan -----------------------------------------------------------------------------------

  function FindRaw(members: seq<AttachedProg>, raw: seq<Byte>, k: nat): (r: Option<nat>)
    requires k <= |members|
    ensures match r
            case Some(i) => k <= i < |members| && members[i].raw == raw
            case None => forall i | k <= i < |members| :: members[i].raw != raw
    decreases |members| - k
  {
    if k == |members| then None
    else if members[k].raw == raw then Some(k)
    else FindRaw(members, raw, k + 1)
  }

  function LineageOf(group: WrapperGroup): CachedLineage {
    CachedLineage(group.nonce, group.original, group.meta)
  }

  // A lineage ends as the one desired wrapper: an equal member is kept, otherwise the first member
  // is replaced by it.
  function GrantMove(desired: seq<Byte>, group: WrapperGroup): Move
    requires |group.members| > 0
  {
    match FindRaw(group.members, desired, 0)
    case Some(k) => Keep(group.members[k].index, IndicesOf(group.members[..k] + group.members[k + 1..]), LineageOf(group))
    case None => Replace(group.members[0].index, desired, IndicesOf(group.members[1..]), LineageOf(group))
  }

  function GrantMoves(hash: DigestFn, rules: seq<DeviceRule>, groups: seq<WrapperGroup>): Result<seq<Move>, PassError>
    requires forall k | 0 <= k < |groups| :: |groups[k].members| > 0
  {
    if |groups| == 0 then Success([])
    else
      match Emit(hash, rules, groups[0].nonce, groups[0].original)
      case Failure(error) => Failure(EmitRefused(error))
      case Success(desired) =>
        match GrantMoves(hash, rules, groups[1..])
        case Failure(error) => Failure(error)
        case Success(moves) => Success([GrantMove(desired, groups[0])] + moves)
  }

  // Each bare program is wrapped on its own under a new nonce.
  function BareMoves(hash: DigestFn, rules: seq<DeviceRule>, bares: seq<AttachedProg>, nonces: seq<U64>)
    : Result<(seq<Move>, seq<U64>), PassError>
  {
    if |bares| == 0 then Success(([], nonces))
    else
      var bare := bares[0];
      match GateOriginal(bare.raw, bare.meta)
      case Failure(error) => Failure(error)
      case Success(_) =>
        if |nonces| == 0 then Failure(NonceFailed)
        else
          match Emit(hash, rules, nonces[0], bare.raw)
          case Failure(error) => Failure(EmitRefused(error))
          case Success(wrapped) =>
            match BareMoves(hash, rules, bares[1..], nonces[1..])
            case Failure(error) => Failure(error)
            case Success((moves, rest)) =>
              Success(([Replace(bare.index, wrapped, [], CachedLineage(nonces[0], bare.raw, bare.meta))] + moves, rest))
  }

  // --- The restore plan ---------------------------------------------------------------------------------

  // The first free bare copy of `original`, from `k` on.
  function FindFree(bares: seq<AttachedProg>, available: seq<bool>, original: seq<Byte>, k: nat): (r: Option<nat>)
    requires |available| == |bares| && k <= |bares|
    ensures match r
            case Some(i) => k <= i < |bares| && available[i] && bares[i].raw == original
            case None => forall i | k <= i < |bares| :: !(available[i] && bares[i].raw == original)
    decreases |bares| - k
  {
    if k == |bares| then None
    else if available[k] && bares[k].raw == original then Some(k)
    else FindFree(bares, available, original, k + 1)
  }

  // A lineage whose original is already attached bare only loses its wrappers; any other gets its
  // original in place of its first wrapper. One bare program satisfies one lineage.
  function RestoreMove(group: WrapperGroup, bares: seq<AttachedProg>, available: seq<bool>): (Move, seq<bool>)
    requires |group.members| > 0 && |available| == |bares|
  {
    match FindFree(bares, available, group.original, 0)
    case Some(i) => (Keep(bares[i].index, IndicesOf(group.members), LineageOf(group)), available[i := false])
    case None =>
      (Replace(group.members[0].index, group.original, IndicesOf(group.members[1..]), LineageOf(group)), available)
  }

  function RestoreMoves(groups: seq<WrapperGroup>, bares: seq<AttachedProg>, available: seq<bool>)
    : (r: (seq<Move>, seq<bool>))
    requires |available| == |bares|
    requires forall k | 0 <= k < |groups| :: |groups[k].members| > 0
    ensures |r.1| == |bares|
  {
    if |groups| == 0 then ([], available)
    else
      var (move, left) := RestoreMove(groups[0], bares, available);
      var (moves, end) := RestoreMoves(groups[1..], bares, left);
      ([move] + moves, end)
  }

  // The bare programs no lineage took are left alone, and remembered as never wrapped.
  function FreeMoves(bares: seq<AttachedProg>, available: seq<bool>): seq<Move>
    requires |available| == |bares|
  {
    if |bares| == 0 then []
    else
      (if available[0] then [Keep(bares[0].index, [], CachedLineage(0, bares[0].raw, bares[0].meta))] else [])
      + FreeMoves(bares[1..], available[1..])
  }

  function AllFree(count: nat): (r: seq<bool>)
    ensures |r| == count && forall k | 0 <= k < count :: r[k]
  {
    seq(count, _ => true)
  }

  function RestoreAll(groups: seq<WrapperGroup>, bares: seq<AttachedProg>): seq<Move>
    requires forall k | 0 <= k < |groups| :: |groups[k].members| > 0
  {
    var (moves, end) := RestoreMoves(groups, bares, AllFree(|bares|));
    moves + FreeMoves(bares, end)
  }

  // --- The rebuild --------------------------------------------------------------------------------------

  // An attach of one cached original, bare for empty rules and wrapped under its nonce otherwise, and
  // the nonces left.
  function RebuildOne(hash: DigestFn, rules: seq<DeviceRule>, lineage: CachedLineage, nonces: seq<U64>)
    : Result<(Move, seq<U64>), PassError>
  {
    match GateOriginal(lineage.original, lineage.meta)
    case Failure(error) => Failure(error)
    case Success(_) =>
      if |rules| == 0 then Success((Add(lineage.original, lineage), nonces))
      else if lineage.nonce == 0 && |nonces| == 0 then Failure(NonceFailed)
      else
        var nonce := if lineage.nonce == 0 then nonces[0] else lineage.nonce;
        match Emit(hash, rules, nonce, lineage.original)
        case Failure(error) => Failure(EmitRefused(error))
        case Success(wrapped) =>
          Success((Add(wrapped, lineage.(nonce := nonce)), if lineage.nonce == 0 then nonces[1..] else nonces))
  }

  function RebuildMoves(hash: DigestFn, rules: seq<DeviceRule>, cached: seq<CachedLineage>, nonces: seq<U64>)
    : Result<(seq<Move>, seq<U64>), PassError>
  {
    hide RebuildOne;
    if |cached| == 0 then Success(([], nonces))
    else
      match RebuildOne(hash, rules, cached[0], nonces)
      case Failure(error) => Failure(error)
      case Success((move, left)) =>
        match RebuildMoves(hash, rules, cached[1..], left)
        case Failure(error) => Failure(error)
        case Success((moves, rest)) => Success(([move] + moves, rest))
  }

  lemma RebuildStep(hash: DigestFn, rules: seq<DeviceRule>, cached: seq<CachedLineage>, nonces: seq<U64>)
    requires |cached| > 0
    ensures RebuildMoves(hash, rules, cached, nonces)
         == match RebuildOne(hash, rules, cached[0], nonces)
            case Failure(error) => Failure(error)
            case Success((move, left)) =>
              match RebuildMoves(hash, rules, cached[1..], left)
              case Failure(error) => Failure(error)
              case Success((moves, rest)) => Success(([move] + moves, rest))
  {
    hide RebuildOne;
  }

  lemma RebuildNone(hash: DigestFn, rules: seq<DeviceRule>, nonces: seq<U64>)
    ensures RebuildMoves(hash, rules, [], nonces) == Success(([], nonces))
  {
  }

  function FindUnusedGroup(groups: seq<WrapperGroup>, used: seq<bool>, lineage: CachedLineage, k: nat): (r: Option<nat>)
    requires |used| == |groups| && k <= |groups|
    ensures match r
            case Some(i) => k <= i < |groups| && !used[i] && groups[i].nonce == lineage.nonce
                            && groups[i].original == lineage.original
            case None => forall i | k <= i < |groups| ::
                           used[i] || groups[i].nonce != lineage.nonce || groups[i].original != lineage.original
    decreases |groups| - k
  {
    if k == |groups| then None
    else if !used[k] && groups[k].nonce == lineage.nonce && groups[k].original == lineage.original then Some(k)
    else FindUnusedGroup(groups, used, lineage, k + 1)
  }

  // The cached lineages the cgroup does not show; each attached program accounts for one.
  function Missing(cached: seq<CachedLineage>, groups: seq<WrapperGroup>, bares: seq<AttachedProg>,
                   groupUsed: seq<bool>, bareFree: seq<bool>): seq<CachedLineage>
    requires |groupUsed| == |groups| && |bareFree| == |bares|
  {
    if |cached| == 0 then []
    else
      match FindUnusedGroup(groups, groupUsed, cached[0], 0)
      case Some(g) => Missing(cached[1..], groups, bares, groupUsed[g := true], bareFree)
      case None =>
        match FindFree(bares, bareFree, cached[0].original, 0)
        case Some(b) => Missing(cached[1..], groups, bares, groupUsed, bareFree[b := false])
        case None => [cached[0]] + Missing(cached[1..], groups, bares, groupUsed, bareFree)
  }

  function NoneUsed(count: nat): (r: seq<bool>)
    ensures |r| == count && forall k | 0 <= k < count :: !r[k]
  {
    seq(count, _ => false)
  }

  function MissingLineages(cached: seq<CachedLineage>, groups: seq<WrapperGroup>, bares: seq<AttachedProg>)
    : seq<CachedLineage>
  {
    Missing(cached, groups, bares, NoneUsed(|groups|), AllFree(|bares|))
  }

  // --- A whole pass -------------------------------------------------------------------------------------

  // The moves for the attached programs: restore for empty rules, grant otherwise.
  function AttachedMoves(hash: DigestFn, rules: seq<DeviceRule>, groups: seq<WrapperGroup>, bares: seq<AttachedProg>,
                         nonces: seq<U64>): Result<(seq<Move>, seq<U64>), PassError>
    requires forall k | 0 <= k < |groups| :: |groups[k].members| > 0
  {
    if |rules| == 0 then Success((RestoreAll(groups, bares), nonces))
    else
      match GrantMoves(hash, rules, groups)
      case Failure(error) => Failure(error)
      case Success(forGroups) =>
        match BareMoves(hash, rules, bares, nonces)
        case Failure(error) => Failure(error)
        case Success((forBares, rest)) => Success((forGroups + forBares, rest))
  }

  // And for the lineages a wipe lost, while a rebuild has not completed.
  function PassMoves(hash: DigestFn, rules: seq<DeviceRule>, progs: seq<AttachedProg>, entry: CacheEntry,
                     nonces: seq<U64>): Result<seq<Move>, PassError>
  {
    GroupsNonEmpty(progs);
    var groups, bares := GroupsOf(progs), BaresOf(progs);
    match AttachedMoves(hash, rules, groups, bares, nonces)
    case Failure(error) => Failure(error)
    case Success((moves, rest)) =>
      if !entry.rebuilding then Success(moves)
      else
        match RebuildMoves(hash, rules, MissingLineages(entry.lineages, groups, bares), rest)
        case Failure(error) => Failure(error)
        case Success((more, _)) => Success(moves + more)
  }

  lemma {:induction false} GroupsNonEmpty(progs: seq<AttachedProg>)
    ensures forall k | 0 <= k < |GroupsOf(progs)| :: |GroupsOf(progs)[k].members| > 0
  {
    if |progs| > 0 {
      GroupsNonEmpty(progs[..|progs| - 1]);
    }
  }

  // --- The planning loops -------------------------------------------------------------------------------

  lemma {:induction false} RenderAppends(moves: seq<Move>, last: Move, load: nat)
    ensures Render(moves + [last], load)
         == Join(Render(moves, load), MovePlan(last, load + |Render(moves, load).loads|))
  {
    hide MovePlan;
    if |moves| == 0 {
      assert moves + [last] == [last] && [last][1..] == [];
      JoinEmpty(MovePlan(last, load));
    } else {
      var count := |MoveLoads(moves[0])|;
      assert |MovePlan(moves[0], load).loads| == count by { MovePlanLoads(moves[0], load); }
      assert (moves + [last])[1..] == moves[1..] + [last];
      RenderAppends(moves[1..], last, load + count);
      JoinAssociates(MovePlan(moves[0], load), Render(moves[1..], load + count),
                     MovePlan(last, load + |Render(moves, load).loads|));
    }
  }

  lemma MovePlanLoads(move: Move, load: nat)
    ensures MovePlan(move, load).loads == MoveLoads(move)
  {
  }

  lemma JoinEmpty(a: PassPlan)
    ensures Join(a, EMPTY_PLAN) == a && Join(EMPTY_PLAN, a) == a
  {
    assert a.loads + [] == a.loads && a.steps + [] == a.steps && a.lineages + [] == a.lineages;
    assert [] + a.loads == a.loads && [] + a.steps == a.steps && [] + a.lineages == a.lineages;
  }

  lemma JoinAssociates(a: PassPlan, b: PassPlan, c: PassPlan)
    ensures Join(Join(a, b), c) == Join(a, Join(b, c))
  {
    assert a.loads + b.loads + c.loads == a.loads + (b.loads + c.loads);
    assert a.steps + b.steps + c.steps == a.steps + (b.steps + c.steps);
    assert a.lineages + b.lineages + c.lineages == a.lineages + (b.lineages + c.lineages);
  }

  lemma DetachesSnoc(progs: seq<AttachedProg>, last: AttachedProg)
    ensures Detaches(IndicesOf(progs + [last])) == Detaches(IndicesOf(progs)) + [Detach(last.index)]
  {
  }

  // `members` without the one at `keep`.
  function Without(members: seq<AttachedProg>, keep: nat): seq<AttachedProg> {
    if keep < |members| then members[..keep] + members[keep + 1..] else members
  }

  lemma WithoutSnoc(members: seq<AttachedProg>, keep: nat, position: nat)
    requires position < |members|
    ensures Without(members[..position + 1], keep)
         == if position == keep then Without(members[..position], keep)
            else Without(members[..position], keep) + [members[position]]
  {
    assert members[..position + 1] == members[..position] + [members[position]];
  }

  // Pushes a detach of every member but the one at `keep`, if there is one.
  method DetachOthers(steps: seq<Step>, members: seq<AttachedProg>, keep: nat) returns (r: seq<Step>)
    ensures r == steps + Detaches(IndicesOf(Without(members, keep)))
  {
    hide Detaches, IndicesOf, Without;
    r := steps;
    DetachesNothing(members, keep);
    for position := 0 to |members|
      invariant r == steps + Detaches(IndicesOf(Without(members[..position], keep)))
    {
      WithoutSnoc(members, keep, position);
      if position != keep {
        DetachesSnoc(Without(members[..position], keep), members[position]);
        r := r + [Detach(members[position].index)];
      }
    }
    assert members[..|members|] == members;
  }

  lemma DetachesNothing(members: seq<AttachedProg>, keep: nat)
    ensures Detaches(IndicesOf(Without(members[..0], keep))) == []
  {
  }

  // One group of the grant plan, pushed onto the plan so far.
  method PushGrant(plan: PassPlan, desired: seq<Byte>, group: WrapperGroup) returns (r: PassPlan)
    requires |group.members| > 0
    ensures r == Join(plan, MovePlan(GrantMove(desired, group), |plan.loads|))
  {
    hide Detaches, IndicesOf, FindRaw;
    ghost var move := GrantMove(desired, group);
    var existing := FindRaw(group.members, desired, 0);
    var lineages := plan.lineages + [LineageOf(group)];
    if existing.Some? {
      var steps := DetachOthers(plan.steps, group.members, existing.value);
      r := PassPlan(plan.loads, steps, lineages);
      assert plan.loads + [] == plan.loads;
    } else {
      var paired := plan.steps + [Pair(group.members[0].index, |plan.loads|)];
      var steps := DetachOthers(paired, group.members, 0);
      r := PassPlan(plan.loads + [desired], steps, lineages);
      assert Without(group.members, 0) == group.members[1..];
      assert steps == plan.steps + MoveSteps(move, |plan.loads|);
    }
  }

  // The plan for non-empty rules.
  method PlanGrant(hash: DigestFn, groups: seq<WrapperGroup>, bares: seq<AttachedProg>, rules: seq<DeviceRule>, nonces: seq<U64>)
    returns (r: Result<(PassPlan, seq<U64>), PassError>)
    requires |rules| > 0
    requires forall k | 0 <= k < |groups| :: |groups[k].members| > 0
    ensures r == match AttachedMoves(hash, rules, groups, bares, nonces)
                 case Failure(error) => Failure(error)
                 case Success((moves, rest)) => Success((Render(moves, 0), rest))
  {
    hide Emit, GateOriginal, Render, MovePlan, GrantMove, Join;
    var plan := EMPTY_PLAN;
    ghost var done: seq<Move> := [];
    RenderNothing(0);
    ghost var forGroups := GrantMoves(hash, rules, groups);
    assert groups[0..] == groups && (forGroups.Success? ==> [] + forGroups.value == forGroups.value);
    for i := 0 to |groups|
      invariant plan == Render(done, 0)
      invariant match GrantMoves(hash, rules, groups[i..])
                case Failure(error) => forGroups == Failure(error)
                case Success(moves) => forGroups == Success(done + moves)
    {
      var emitted := Emit(hash, rules, groups[i].nonce, groups[i].original);
      assert groups[i..][1..] == groups[i + 1..];
      if emitted.Failure? {
        return Failure(EmitRefused(emitted.error));
      }
      ghost var move := GrantMove(emitted.value, groups[i]);
      RenderAppends(done, move, 0);
      ghost var later := GrantMoves(hash, rules, groups[i + 1..]);
      assert later.Success? ==> done + ([move] + later.value) == done + [move] + later.value;
      plan := PushGrant(plan, emitted.value, groups[i]);
      done := done + [move];
    }
    assert groups[|groups|..] == [] && done + [] == done;
    r := PlanBares(hash, bares, rules, nonces, plan, done);
  }

  lemma RenderNothing(load: nat)
    ensures Render([], load) == EMPTY_PLAN
  {
  }

  // The plan of earlier moves followed by more, with the nonces left.
  function RenderedAfter(moves: seq<Move>, more: Result<(seq<Move>, seq<U64>), PassError>)
    : Result<(PassPlan, seq<U64>), PassError>
  {
    match more
    case Failure(error) => Failure(error)
    case Success((found, rest)) => Success((Render(moves + found, 0), rest))
  }

  function PlanAlone(planned: Result<(PassPlan, seq<U64>), PassError>): Result<PassPlan, PassError> {
    match planned
    case Failure(error) => Failure(error)
    case Success((plan, _)) => Success(plan)
  }

  // The bare programs of the grant plan, pushed onto the plan of the groups.
  method PlanBares(hash: DigestFn, bares: seq<AttachedProg>, rules: seq<DeviceRule>, nonces: seq<U64>, forGroups: PassPlan,
                   ghost moves: seq<Move>) returns (r: Result<(PassPlan, seq<U64>), PassError>)
    requires forGroups == Render(moves, 0)
    ensures r == RenderedAfter(moves, BareMoves(hash, rules, bares, nonces))
  {
    hide Emit, GateOriginal, Render;
    var plan, left := forGroups, nonces;
    ghost var done: seq<Move> := [];
    ghost var all := BareMoves(hash, rules, bares, nonces);
    assert bares[0..] == bares && (all.Success? ==> [] + all.value.0 == all.value.0) && moves + [] == moves;
    for i := 0 to |bares|
      invariant plan == Render(moves + done, 0)
      invariant match BareMoves(hash, rules, bares[i..], left)
                case Failure(error) => all == Failure(error)
                case Success((more, rest)) => all == Success((done + more, rest))
    {
      var bare := bares[i];
      assert bares[i..][1..] == bares[i + 1..];
      var gate := GateOriginal(bare.raw, bare.meta);
      if gate.Failure? {
        return Failure(gate.error);
      }
      if |left| == 0 {
        return Failure(NonceFailed);
      }
      var nonce := left[0];
      var emitted := Emit(hash, rules, nonce, bare.raw);
      if emitted.Failure? {
        return Failure(EmitRefused(emitted.error));
      }
      var lineage := CachedLineage(nonce, bare.raw, bare.meta);
      ghost var move := Replace(bare.index, emitted.value, [], lineage);
      ghost var before := plan;
      plan := PassPlan(plan.loads + [emitted.value], plan.steps + [Pair(bare.index, |plan.loads|)], plan.lineages + [lineage]);
      assert plan == Join(before, MovePlan(move, |before.loads|));
      RenderAppends(moves + done, move, 0);
      ghost var later := BareMoves(hash, rules, bares[i + 1..], left[1..]);
      assert later.Success? ==> done + ([move] + later.value.0) == done + [move] + later.value.0;
      assert moves + done + [move] == moves + (done + [move]);
      left := left[1..];
      done := done + [move];
    }
    assert bares[|bares|..] == [] && done + [] == done;
    return Success((plan, left));
  }

  // One group of the restore plan, pushed onto the plan so far.
  method PushRestore(forGroups: PassPlan, group: WrapperGroup, bares: seq<AttachedProg>, available: seq<bool>)
    returns (plan: PassPlan, left: seq<bool>)
    requires |available| == |bares| && |group.members| > 0
    ensures var (move, taken) := RestoreMove(group, bares, available);
            plan == Join(forGroups, MovePlan(move, |forGroups.loads|)) && left == taken && |left| == |bares|
  {
    hide Detaches, IndicesOf, FindFree;
    ghost var move := RestoreMove(group, bares, available).0;
    plan, left := forGroups, available;
    var matched := FindFree(bares, available, group.original, 0);
    var members := group.members;
    if matched.Some? {
      left := available[matched.value := false];
    } else {
      plan := plan.(loads := plan.loads + [group.original], steps := plan.steps + [Pair(members[0].index, |plan.loads|)]);
      members := members[1..];
    }
    var steps := DetachOthers(plan.steps, members, |members|);
    plan := plan.(steps := steps, lineages := plan.lineages + [LineageOf(group)]);
    assert plan.loads == forGroups.loads + MoveLoads(move);
    assert plan.steps == forGroups.steps + MoveSteps(move, |forGroups.loads|);
  }

  // The plan for empty rules.
  method PlanRestore(groups: seq<WrapperGroup>, bares: seq<AttachedProg>) returns (plan: PassPlan)
    requires forall k | 0 <= k < |groups| :: |groups[k].members| > 0
    ensures plan == Render(RestoreAll(groups, bares), 0)
  {
    hide Render, RestoreMove, MovePlan, Join;
    plan := EMPTY_PLAN;
    var available := AllFree(|bares|);
    ghost var done: seq<Move> := [];
    RenderNothing(0);
    ghost var all := RestoreMoves(groups, bares, available);
    assert groups[0..] == groups && [] + all.0 == all.0;
    for i := 0 to |groups|
      invariant |available| == |bares|
      invariant plan == Render(done, 0)
      invariant var (moves, end) := RestoreMoves(groups[i..], bares, available); all == (done + moves, end)
    {
      assert groups[i..][1..] == groups[i + 1..];
      ghost var (move, left) := RestoreMove(groups[i], bares, available);
      RenderAppends(done, move, 0);
      plan, available := PushRestore(plan, groups[i], bares, available);
      ghost var later := RestoreMoves(groups[i + 1..], bares, available).0;
      assert done + ([move] + later) == done + [move] + later;
      done := done + [move];
    }
    assert groups[|groups|..] == [] && done + [] == done;
    plan := RememberFree(plan, bares, available, done);
  }

  lemma KeepPushed(plan: PassPlan, index: nat, lineage: CachedLineage)
    ensures plan.(lineages := plan.lineages + [lineage]) == Join(plan, MovePlan(Keep(index, [], lineage), |plan.loads|))
  {
    assert plan.loads + [] == plan.loads && plan.steps + [] == plan.steps;
  }

  lemma FreeStep(bares: seq<AttachedProg>, available: seq<bool>, i: nat)
    requires |available| == |bares| && i < |bares|
    ensures FreeMoves(bares[i..], available[i..])
         == if available[i]
            then [Keep(bares[i].index, [], CachedLineage(0, bares[i].raw, bares[i].meta))] + FreeMoves(bares[i + 1..], available[i + 1..])
            else FreeMoves(bares[i + 1..], available[i + 1..])
  {
    assert bares[i..][1..] == bares[i + 1..] && available[i..][1..] == available[i + 1..];
    assert [] + FreeMoves(bares[i + 1..], available[i + 1..]) == FreeMoves(bares[i + 1..], available[i + 1..]);
  }

  lemma FreeEnds(bares: seq<AttachedProg>, available: seq<bool>)
    requires |available| == |bares|
    ensures FreeMoves(bares[|bares|..], available[|bares|..]) == []
  {
  }

  method RememberFree(forGroups: PassPlan, bares: seq<AttachedProg>, available: seq<bool>, ghost moves: seq<Move>)
    returns (plan: PassPlan)
    requires |available| == |bares| && forGroups == Render(moves, 0)
    ensures plan == Render(moves + FreeMoves(bares, available), 0)
  {
    hide *;
    plan := forGroups;
    ghost var done := moves;
    ghost var all := moves + FreeMoves(bares, available);
    assert bares[0..] == bares && available[0..] == available;
    for i := 0 to |bares|
      invariant plan == Render(done, 0) && all == done + FreeMoves(bares[i..], available[i..])
    {
      FreeStep(bares, available, i);
      ghost var later := FreeMoves(bares[i + 1..], available[i + 1..]);
      if available[i] {
        var lineage := CachedLineage(0, bares[i].raw, bares[i].meta);
        ghost var move := Keep(bares[i].index, [], lineage);
        KeepPushed(plan, bares[i].index, lineage);
        plan := plan.(lineages := plan.lineages + [lineage]);
        RenderAppends(done, move, 0);
        assert done + ([move] + later) == (done + [move]) + later;
        done := done + [move];
      }
    }
    FreeEnds(bares, available);
    assert done + [] == done;
  }

  lemma AddPushed(plan: PassPlan, raw: seq<Byte>, lineage: CachedLineage)
    ensures PassPlan(plan.loads + [raw], plan.steps + [Attach(|plan.loads|)], plan.lineages + [lineage])
         == Join(plan, MovePlan(Add(raw, lineage), |plan.loads|))
  {
  }

  // Adds an attach of each lineage's original to a plan.
  method AddRebuild(hash: DigestFn, forAttached: PassPlan, cached: seq<CachedLineage>, rules: seq<DeviceRule>,
                    nonces: seq<U64>, ghost moves: seq<Move>) returns (r: Result<PassPlan, PassError>)
    requires forAttached == Render(moves, 0)
    ensures r == PlanAlone(RenderedAfter(moves, RebuildMoves(hash, rules, cached, nonces)))
  {
    hide Emit, GateOriginal, Render, Join, MovePlan, RebuildMoves;
    var plan, left := forAttached, nonces;
    ghost var done: seq<Move> := [];
    ghost var all := RebuildMoves(hash, rules, cached, nonces);
    assert cached[0..] == cached && (all.Success? ==> [] + all.value.0 == all.value.0) && moves + [] == moves;
    for i := 0 to |cached|
      invariant plan == Render(moves + done, 0)
      invariant match RebuildMoves(hash, rules, cached[i..], left)
                case Failure(error) => all == Failure(error)
                case Success((more, rest)) => all == Success((done + more, rest))
    {
      var lineage := cached[i];
      RebuildStep(hash, rules, cached[i..], left);
      assert cached[i..][1..] == cached[i + 1..];
      ghost var one := RebuildOne(hash, rules, lineage, left);
      var gate := GateOriginal(lineage.original, lineage.meta);
      if gate.Failure? {
        return Failure(gate.error);
      }
      var raw := lineage.original;
      if |rules| > 0 {
        if lineage.nonce == 0 {
          if |left| == 0 {
            return Failure(NonceFailed);
          }
          lineage := lineage.(nonce := left[0]);
          left := left[1..];
        }
        var emitted := Emit(hash, rules, lineage.nonce, lineage.original);
        if emitted.Failure? {
          return Failure(EmitRefused(emitted.error));
        }
        raw := emitted.value;
      }
      ghost var move := Add(raw, lineage);
      assert one == Success((move, left));
      hide RebuildOne;
      AddPushed(plan, raw, lineage);
      plan := PassPlan(plan.loads + [raw], plan.steps + [Attach(|plan.loads|)], plan.lineages + [lineage]);
      RenderAppends(moves + done, move, 0);
      ghost var later := RebuildMoves(hash, rules, cached[i + 1..], left);
      assert later.Success? ==> done + ([move] + later.value.0) == done + [move] + later.value.0;
      assert moves + done + [move] == moves + (done + [move]);
      done := done + [move];
    }
    RebuildNone(hash, rules, left);
    assert cached[|cached|..] == [] && done + [] == done;
    return Success(plan);
  }

  method FindMissing(cached: seq<CachedLineage>, groups: seq<WrapperGroup>, bares: seq<AttachedProg>)
    returns (missing: seq<CachedLineage>)
    ensures missing == MissingLineages(cached, groups, bares)
  {
    var groupUsed, bareFree := NoneUsed(|groups|), AllFree(|bares|);
    missing := [];
    assert cached[0..] == cached;
    ghost var all := Missing(cached, groups, bares, groupUsed, bareFree);
    assert [] + all == all;
    for i := 0 to |cached|
      invariant |groupUsed| == |groups| && |bareFree| == |bares|
      invariant all == missing + Missing(cached[i..], groups, bares, groupUsed, bareFree)
    {
      assert cached[i..][1..] == cached[i + 1..];
      var group := FindUnusedGroup(groups, groupUsed, cached[i], 0);
      if group.Some? {
        groupUsed := groupUsed[group.value := true];
        continue;
      }
      var bare := FindFree(bares, bareFree, cached[i].original, 0);
      if bare.Some? {
        bareFree := bareFree[bare.value := false];
        continue;
      }
      missing := missing + [cached[i]];
    }
    assert cached[|cached|..] == [];
  }
}
