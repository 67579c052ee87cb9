/** Plan conservation: every attached program is in exactly one move, with its own original, and every
    move leaves its lineage as the one desired program. */
module V2Conservation {
  import opened Wrappers
  import opened Words
  import opened DeviceFilter
  import opened Owned
  import opened V2Plan
  import opened V2Execution

  // --- Bags of indices ------------------------------------------------------------------------------------

  function MovesBag(moves: seq<Move>): multiset<nat> {
    if |moves| == 0 then multiset{} else multiset(MoveIndices(moves[0])) + MovesBag(moves[1..])
  }

  function ProgsBag(progs: seq<AttachedProg>): multiset<nat> {
    multiset(IndicesOf(progs))
  }

  function GroupsBag(groups: seq<WrapperGroup>): multiset<nat> {
    if |groups| == 0 then multiset{} else ProgsBag(groups[0].members) + GroupsBag(groups[1..])
  }

  lemma ProgsBagJoins(a: seq<AttachedProg>, b: seq<AttachedProg>)
    ensures ProgsBag(a + b) == ProgsBag(a) + ProgsBag(b)
  {
    assert IndicesOf(a + b) == IndicesOf(a) + IndicesOf(b);
    hide IndicesOf;
  }

  lemma ProgsBagOne(prog: AttachedProg)
    ensures IndicesOf([prog]) == [prog.index] && ProgsBag([prog]) == multiset{prog.index}
  {
    assert IndicesOf([prog]) == [prog.index];
    hide IndicesOf;
  }

  lemma {:induction false} MovesBagJoins(a: seq<Move>, b: seq<Move>)
    ensures MovesBag(a + b) == MovesBag(a) + MovesBag(b)
  {
    hide MoveIndices;
    if |a| == 0 {
      assert a + b == b;
    } else {
      assert (a + b)[0] == a[0] && (a + b)[1..] == a[1..] + b;
      MovesBagJoins(a[1..], b);
    }
  }

  lemma {:induction false} GroupsBagAppends(groups: seq<WrapperGroup>, last: WrapperGroup)
    ensures GroupsBag(groups + [last]) == GroupsBag(groups) + ProgsBag(last.members)
  {
    hide ProgsBag;
    if |groups| == 0 {
      assert groups + [last] == [last] && [last][1..] == [];
    } else {
      assert (groups + [last])[0] == groups[0] && (groups + [last])[1..] == groups[1..] + [last];
      GroupsBagAppends(groups[1..], last);
    }
  }

  lemma {:induction false} GroupsBagGrows(groups: seq<WrapperGroup>, i: nat, prog: AttachedProg)
    requires i < |groups|
    ensures GroupsBag(groups[i := groups[i].(members := groups[i].members + [prog])])
         == GroupsBag(groups) + multiset{prog.index}
  {
    hide ProgsBag;
    var grown := groups[i].(members := groups[i].members + [prog]);
    var next := groups[i := grown];
    if i == 0 {
      assert next[1..] == groups[1..];
      ProgsBagJoins(groups[i].members, [prog]);
      ProgsBagOne(prog);
    } else {
      assert next[0] == groups[0] && next[1..] == groups[1..][i - 1 := grown];
      GroupsBagGrows(groups[1..], i - 1, prog);
    }
  }

  // Grouping loses and repeats nothing.
  lemma {:induction false} GroupingKeepsAll(progs: seq<AttachedProg>)
    ensures GroupsBag(GroupsOf(progs)) + ProgsBag(BaresOf(progs)) == ProgsBag(progs)
  {
    hide ProgsBag, FindGroup, GroupsBag;
    if |progs| == 0 {
      NoBags();
    } else {
      var front, last := progs[..|progs| - 1], progs[|progs| - 1];
      GroupingKeepsAll(front);
      assert progs == front + [last];
      ProgsBagJoins(front, [last]);
      ProgsBagOne(last);
      var groups := GroupsOf(front);
      if last.owned {
        match FindGroup(groups, last, 0)
        case Some(i) =>
          GroupsBagGrows(groups, i, last);
        case None =>
          GroupsBagAppends(groups, WrapperGroup(last.nonce, last.original, last.meta, [last]));
      } else {
        ProgsBagJoins(BaresOf(front), [last]);
      }
    }
  }

  lemma NoBags()
    ensures ProgsBag([]) == multiset{} && GroupsBag([]) == multiset{}
  {
  }

  // --- What groups and bare programs are --------------------------------------------------------------------

  // Every member of a group is an attached wrapper of its lineage.
  ghost predicate GroupOf(progs: seq<AttachedProg>, group: WrapperGroup) {
    && |group.members| > 0
    && forall k | 0 <= k < |group.members| ::
         group.members[k] in progs && group.members[k].owned && SameLineage(group, group.members[k])
  }

  ghost predicate KeysDistinct(groups: seq<WrapperGroup>) {
    forall i, j | 0 <= i < j < |groups| :: groups[i].nonce != groups[j].nonce || groups[i].original != groups[j].original
  }

  ghost predicate AllGroupsOf(progs: seq<AttachedProg>, groups: seq<WrapperGroup>) {
    forall i | 0 <= i < |groups| :: GroupOf(progs, groups[i])
  }

  ghost predicate AllBaresOf(progs: seq<AttachedProg>, bares: seq<AttachedProg>) {
    forall i | 0 <= i < |bares| :: bares[i] in progs && !bares[i].owned
  }

  lemma {:induction false} GroupingSound(progs: seq<AttachedProg>)
    ensures AllGroupsOf(progs, GroupsOf(progs)) && KeysDistinct(GroupsOf(progs))
    ensures AllBaresOf(progs, BaresOf(progs))
  {
    if |progs| > 0 {
      var front, last := progs[..|progs| - 1], progs[|progs| - 1];
      GroupingSound(front);
      assert forall p | p in front :: p in progs;
      assert last in progs;
      var groups := GroupsOf(front);
      if last.owned {
        AddKeepsGroups(progs, groups, last);
      }
    }
  }

  lemma AddKeepsGroups(progs: seq<AttachedProg>, groups: seq<WrapperGroup>, prog: AttachedProg)
    requires AllGroupsOf(progs, groups) && KeysDistinct(groups) && prog in progs && prog.owned
    ensures AllGroupsOf(progs, AddToGroups(groups, prog)) && KeysDistinct(AddToGroups(groups, prog))
  {
    hide FindGroup;
    var next := AddToGroups(groups, prog);
    forall i | 0 <= i < |next|
      ensures GroupOf(progs, next[i])
    {
      if i < |groups| {
        assert GroupOf(progs, groups[i]);
      }
    }
  }

  // --- What the moves are ---------------------------------------------------------------------------------

  // The bytes a pass leaves for a lineage: its original for empty rules, its wrapper otherwise.
  function Target(hash: DigestFn, rules: seq<DeviceRule>, lineage: CachedLineage): Option<seq<Byte>> {
    if |rules| == 0 then Some(lineage.original)
    else
      match Emit(hash, rules, lineage.nonce, lineage.original)
      case Failure(_) => None
      case Success(raw) => Some(raw)
  }

  // The programs at `indices` are built on `original`.
  ghost predicate OfOriginal(progs: seq<AttachedProg>, indices: seq<nat>, original: seq<Byte>) {
    forall k | 0 <= k < |indices| :: indices[k] < |progs| && progs[indices[k]].original == original
  }

  lemma OfOriginalCons(progs: seq<AttachedProg>, first: nat, rest: seq<nat>, original: seq<Byte>)
    requires first < |progs| && progs[first].original == original && OfOriginal(progs, rest, original)
    ensures OfOriginal(progs, [first] + rest, original)
  {
  }

  // The programs of a move are of its lineage, and it ends as the target.
  ghost predicate MoveShape(hash: DigestFn, rules: seq<DeviceRule>, progs: seq<AttachedProg>, move: Move) {
    && OfOriginal(progs, MoveIndices(move), move.lineage.original)
    && match move
       case Keep(kept, _, lineage) =>
         kept < |progs| && Target(hash, rules, lineage) == Some(progs[kept].raw) && (|rules| == 0 ==> !progs[kept].owned)
       case Replace(_, raw, _, lineage) => Target(hash, rules, lineage) == Some(raw)
       case Add(raw, lineage) => Target(hash, rules, lineage) == Some(raw)
  }

  ghost predicate AllShaped(hash: DigestFn, rules: seq<DeviceRule>, progs: seq<AttachedProg>, moves: seq<Move>) {
    forall i | 0 <= i < |moves| :: MoveShape(hash, rules, progs, moves[i])
  }

  // The query's order: each program carries its own position, and a bare one is its own original.
  ghost predicate Positioned(progs: seq<AttachedProg>) {
    forall k | 0 <= k < |progs| :: progs[k].index == k && (!progs[k].owned ==> progs[k].original == progs[k].raw)
  }

  lemma MemberAt(progs: seq<AttachedProg>, prog: AttachedProg)
    requires Positioned(progs) && prog in progs
    ensures prog.index < |progs| && progs[prog.index] == prog
  {
  }

  lemma MembersAt(progs: seq<AttachedProg>, group: WrapperGroup, members: seq<AttachedProg>)
    requires Positioned(progs) && GroupOf(progs, group)
    requires forall k | 0 <= k < |members| :: members[k] in group.members
    ensures OfOriginal(progs, IndicesOf(members), group.original)
  {
    forall k | 0 <= k < |members|
      ensures members[k].index < |progs| && progs[members[k].index] == members[k] && members[k].original == group.original
    {
      MemberAt(progs, members[k]);
    }
  }

  // The members of a group without the one at `k`.
  lemma OthersAt(progs: seq<AttachedProg>, group: WrapperGroup, k: nat)
    requires Positioned(progs) && GroupOf(progs, group) && k < |group.members|
    ensures OfOriginal(progs, IndicesOf(group.members[..k] + group.members[k + 1..]), group.original)
    ensures OfOriginal(progs, [group.members[k].index] + IndicesOf(group.members[..k] + group.members[k + 1..]), group.original)
    ensures group.members[k].index < |progs| && progs[group.members[k].index] == group.members[k]
  {
    hide IndicesOf, OfOriginal;
    var rest := group.members[..k] + group.members[k + 1..];
    forall i | 0 <= i < |rest|
      ensures rest[i] in group.members
    {
      assert rest[i] == group.members[if i < k then i else i + 1];
    }
    MemberAt(progs, group.members[k]);
    MembersAt(progs, group, rest);
    OfOriginalCons(progs, group.members[k].index, IndicesOf(rest), group.original);
  }

  lemma GrantMoveShape(hash: DigestFn, rules: seq<DeviceRule>, progs: seq<AttachedProg>, group: WrapperGroup, desired: seq<Byte>)
    requires Positioned(progs) && GroupOf(progs, group) && |rules| > 0
    requires Emit(hash, rules, group.nonce, group.original) == Success(desired)
    ensures MoveShape(hash, rules, progs, GrantMove(desired, group))
    ensures multiset(MoveIndices(GrantMove(desired, group))) == ProgsBag(group.members)
  {
    assert |group.members| > 0;
    hide Emit, FindRaw, IndicesOf, Positioned, ProgsBag, GroupOf, MoveShape, MoveIndices;
    match FindRaw(group.members, desired, 0)
    case Some(k) =>
      KeepShape(hash, rules, progs, group, desired, k);
    case None =>
      ReplaceShape(hash, rules, progs, group, desired);
  }

  lemma ReplaceShape(hash: DigestFn, rules: seq<DeviceRule>, progs: seq<AttachedProg>, group: WrapperGroup, desired: seq<Byte>)
    requires Positioned(progs) && GroupOf(progs, group)
    requires Target(hash, rules, LineageOf(group)) == Some(desired)
    ensures var move := Replace(group.members[0].index, desired, IndicesOf(group.members[1..]), LineageOf(group));
            MoveShape(hash, rules, progs, move) && multiset(MoveIndices(move)) == ProgsBag(group.members)
  {
    assert |group.members| > 0;
    hide Target, IndicesOf, OfOriginal, Positioned, ProgsBag, GroupOf;
    OthersFirst(progs, group);
  }

  lemma OthersFirst(progs: seq<AttachedProg>, group: WrapperGroup)
    requires Positioned(progs) && GroupOf(progs, group)
    ensures OfOriginal(progs, [group.members[0].index] + IndicesOf(group.members[1..]), group.original)
    ensures multiset([group.members[0].index] + IndicesOf(group.members[1..])) == ProgsBag(group.members)
  {
    assert |group.members| > 0;
    var rest := group.members[..0] + group.members[0 + 1..];
    assert rest == group.members[1..];
    hide *;
    OthersAt(progs, group, 0);
    SplitMember(group.members, 0);
  }

  lemma KeepShape(hash: DigestFn, rules: seq<DeviceRule>, progs: seq<AttachedProg>, group: WrapperGroup, desired: seq<Byte>, k: nat)
    requires Positioned(progs) && GroupOf(progs, group) && |rules| > 0
    requires Emit(hash, rules, group.nonce, group.original) == Success(desired)
    requires k < |group.members| && group.members[k].raw == desired
    ensures var move := Keep(group.members[k].index, IndicesOf(group.members[..k] + group.members[k + 1..]), LineageOf(group));
            MoveShape(hash, rules, progs, move) && multiset(MoveIndices(move)) == ProgsBag(group.members)
  {
    hide Emit, IndicesOf, OfOriginal, Positioned, ProgsBag, GroupOf;
    OthersAt(progs, group, k);
    SplitMember(group.members, k);
  }

  lemma SplitMember(members: seq<AttachedProg>, k: nat)
    requires k < |members|
    ensures multiset([members[k].index] + IndicesOf(members[..k] + members[k + 1..])) == ProgsBag(members)
  {
    hide IndicesOf;
    var a, b := members[..k], members[k + 1..];
    assert members == a + [members[k]] + b;
    ProgsBagJoins(a + [members[k]], b);
    ProgsBagJoins(a, [members[k]]);
    ProgsBagJoins(a, b);
    ProgsBagOne(members[k]);
  }

  lemma {:induction false} GrantMovesShape(hash: DigestFn, rules: seq<DeviceRule>, progs: seq<AttachedProg>, groups: seq<WrapperGroup>)
    requires Positioned(progs) && AllGroupsOf(progs, groups) && |rules| > 0
    requires forall k | 0 <= k < |groups| :: |groups[k].members| > 0
    requires GrantMoves(hash, rules, groups).Success?
    ensures var moves := GrantMoves(hash, rules, groups).value;
            AllShaped(hash, rules, progs, moves) && MovesBag(moves) == GroupsBag(groups)
  {
    hide Emit, GroupOf, MoveShape, MoveIndices, ProgsBag, GrantMove, Positioned;
    if |groups| > 0 {
      var desired := Emit(hash, rules, groups[0].nonce, groups[0].original).value;
      assert GroupOf(progs, groups[0]);
      GrantMoveShape(hash, rules, progs, groups[0], desired);
      assert forall i | 0 <= i < |groups[1..]| :: groups[1..][i] == groups[i + 1];
      GrantMovesShape(hash, rules, progs, groups[1..]);
      var rest := GrantMoves(hash, rules, groups[1..]).value;
      assert ([GrantMove(desired, groups[0])] + rest)[1..] == rest;
    }
  }

  // Prepending a shaped move.
  lemma ShapedCons(hash: DigestFn, rules: seq<DeviceRule>, progs: seq<AttachedProg>, first: Move, rest: seq<Move>)
    requires MoveShape(hash, rules, progs, first) && AllShaped(hash, rules, progs, rest)
    ensures AllShaped(hash, rules, progs, [first] + rest)
    ensures MovesBag([first] + rest) == multiset(MoveIndices(first)) + MovesBag(rest)
  {
    hide MoveShape, MoveIndices;
    assert ([first] + rest)[1..] == rest;
  }

  lemma BareMoveShape(hash: DigestFn, rules: seq<DeviceRule>, progs: seq<AttachedProg>, bare: AttachedProg, nonce: U64, wrapped: seq<Byte>)
    requires Positioned(progs) && bare in progs && !bare.owned && |rules| > 0
    requires Emit(hash, rules, nonce, bare.raw) == Success(wrapped)
    ensures var move := Replace(bare.index, wrapped, [], CachedLineage(nonce, bare.raw, bare.meta));
            MoveShape(hash, rules, progs, move) && multiset(MoveIndices(move)) == ProgsBag([bare])
  {
    hide Emit;
    MemberAt(progs, bare);
    ProgsBagOne(bare);
    assert [bare.index] + [] == [bare.index];
  }

  lemma ProgsBagCons(progs: seq<AttachedProg>)
    requires |progs| > 0
    ensures ProgsBag(progs) == ProgsBag([progs[0]]) + ProgsBag(progs[1..])
  {
    assert progs == [progs[0]] + progs[1..];
    ProgsBagJoins([progs[0]], progs[1..]);
  }

  lemma {:induction false} BareMovesShape(hash: DigestFn, rules: seq<DeviceRule>, progs: seq<AttachedProg>, bares: seq<AttachedProg>,
                                          nonces: seq<U64>)
    requires Positioned(progs) && AllBaresOf(progs, bares) && |rules| > 0
    requires BareMoves(hash, rules, bares, nonces).Success?
    ensures var moves := BareMoves(hash, rules, bares, nonces).value.0;
            AllShaped(hash, rules, progs, moves) && MovesBag(moves) == ProgsBag(bares) && |moves| == |bares|
  {
    hide Emit, GateOriginal, MoveShape, MoveIndices, ProgsBag, MovesBag, Positioned;
    if |bares| == 0 {
      NoBags();
      NoMoves();
    } else {
      var bare := bares[0];
      var wrapped := Emit(hash, rules, nonces[0], bare.raw).value;
      BareMoveShape(hash, rules, progs, bare, nonces[0], wrapped);
      assert forall i | 0 <= i < |bares[1..]| :: bares[1..][i] == bares[i + 1];
      BareMovesShape(hash, rules, progs, bares[1..], nonces[1..]);
      ShapedCons(hash, rules, progs, Replace(bare.index, wrapped, [], CachedLineage(nonces[0], bare.raw, bare.meta)),
                 BareMoves(hash, rules, bares[1..], nonces[1..]).value.0);
      ProgsBagCons(bares);
    }
  }

  lemma NoMoves()
    ensures MovesBag([]) == multiset{}
  {
  }

  // --- The restore moves ------------------------------------------------------------------------------------

  // The bag of the bare programs still free.
  function FreeBag(bares: seq<AttachedProg>, available: seq<bool>): multiset<nat>
    requires |available| == |bares|
  {
    if |bares| == 0 then multiset{}
    else (if available[0] then multiset{bares[0].index} else multiset{}) + FreeBag(bares[1..], available[1..])
  }

  lemma {:induction false} FreeBagTakes(bares: seq<AttachedProg>, available: seq<bool>, i: nat)
    requires |available| == |bares| && i < |bares| && available[i]
    ensures FreeBag(bares, available) == FreeBag(bares, available[i := false]) + multiset{bares[i].index}
  {
    if i == 0 {
      assert available[0 := false][1..] == available[1..];
    } else {
      assert available[i := false][1..] == available[1..][i - 1 := false];
      FreeBagTakes(bares[1..], available[1..], i - 1);
    }
  }

  lemma {:induction false} FreeBagAll(bares: seq<AttachedProg>, available: seq<bool>)
    requires |available| == |bares| && forall k | 0 <= k < |bares| :: available[k]
    ensures FreeBag(bares, available) == ProgsBag(bares)
  {
    hide ProgsBag;
    if |bares| == 0 {
      NoBags();
    } else {
      FreeBagAll(bares[1..], available[1..]);
      ProgsBagCons(bares);
      ProgsBagOne(bares[0]);
    }
  }

  lemma RestoreMoveShape(hash: DigestFn, progs: seq<AttachedProg>, group: WrapperGroup, bares: seq<AttachedProg>, available: seq<bool>)
    requires Positioned(progs) && GroupOf(progs, group) && AllBaresOf(progs, bares) && |available| == |bares|
    ensures var (move, left) := RestoreMove(group, bares, available);
            && |left| == |bares| && MoveShape(hash, [], progs, move)
            && multiset(MoveIndices(move)) + FreeBag(bares, left) == ProgsBag(group.members) + FreeBag(bares, available)
  {
    hide FindFree, IndicesOf, FreeBag, OfOriginal, ProgsBag;
    match FindFree(bares, available, group.original, 0)
    case Some(i) =>
      MemberAt(progs, bares[i]);
      hide Positioned, GroupOf;
      MembersAt(progs, group, group.members);
      OfOriginalCons(progs, bares[i].index, IndicesOf(group.members), group.original);
      FreeBagTakes(bares, available, i);
      ConsBag(bares[i].index, group.members);
    case None =>
      ReplaceShape(hash, [], progs, group, group.original);
  }

  lemma ConsBag(index: nat, progs: seq<AttachedProg>)
    ensures multiset([index] + IndicesOf(progs)) == multiset{index} + ProgsBag(progs)
  {
    hide IndicesOf;
  }

  lemma {:induction false} RestoreMovesShape(hash: DigestFn, progs: seq<AttachedProg>, groups: seq<WrapperGroup>,
                                             bares: seq<AttachedProg>, available: seq<bool>)
    requires Positioned(progs) && AllGroupsOf(progs, groups) && AllBaresOf(progs, bares) && |available| == |bares|
    requires forall k | 0 <= k < |groups| :: |groups[k].members| > 0
    ensures var (moves, end) := RestoreMoves(groups, bares, available);
            && AllShaped(hash, [], progs, moves)
            && MovesBag(moves) + FreeBag(bares, end) == GroupsBag(groups) + FreeBag(bares, available)
  {
    hide GroupOf, MoveShape, MoveIndices, ProgsBag, RestoreMove, Positioned, FreeBag, MovesBag, AllBaresOf;
    if |groups| == 0 {
      NoMoves();
    } else {
      assert GroupOf(progs, groups[0]);
      RestoreMoveShape(hash, progs, groups[0], bares, available);
      var (move, left) := RestoreMove(groups[0], bares, available);
      assert forall i | 0 <= i < |groups[1..]| :: groups[1..][i] == groups[i + 1];
      RestoreMovesShape(hash, progs, groups[1..], bares, left);
      var (moves, end) := RestoreMoves(groups[1..], bares, left);
      ShapedCons(hash, [], progs, move, moves);
      BagsChain(multiset(MoveIndices(move)), FreeBag(bares, left), ProgsBag(groups[0].members), FreeBag(bares, available),
                MovesBag(moves), FreeBag(bares, end), GroupsBag(groups[1..]));
    }
  }

  lemma BagsChain(a: multiset<nat>, l: multiset<nat>, p: multiset<nat>, f: multiset<nat>, m: multiset<nat>, e: multiset<nat>, g: multiset<nat>)
    requires a + l == p + f && m + e == g + l
    ensures a + m + e == p + g + f
  {
    forall x: nat
      ensures (a + m + e)[x] == (p + g + f)[x]
    {
      assert (a + l)[x] == (p + f)[x] && (m + e)[x] == (g + l)[x];
    }
  }

  lemma FreeMoveShape(hash: DigestFn, progs: seq<AttachedProg>, bare: AttachedProg)
    requires Positioned(progs) && bare in progs && !bare.owned
    ensures var move := Keep(bare.index, [], CachedLineage(0, bare.raw, bare.meta));
            MoveShape(hash, [], progs, move) && multiset(MoveIndices(move)) == multiset{bare.index}
  {
    MemberAt(progs, bare);
    assert [bare.index] + [] == [bare.index];
  }

  lemma {:induction false} FreeMovesShape(hash: DigestFn, progs: seq<AttachedProg>, bares: seq<AttachedProg>, available: seq<bool>)
    requires Positioned(progs) && AllBaresOf(progs, bares) && |available| == |bares|
    ensures AllShaped(hash, [], progs, FreeMoves(bares, available))
    ensures MovesBag(FreeMoves(bares, available)) == FreeBag(bares, available)
  {
    hide MoveShape, MoveIndices, MovesBag, Positioned;
    if |bares| == 0 {
      NoMoves();
    } else {
      assert forall i | 0 <= i < |bares[1..]| :: bares[1..][i] == bares[i + 1];
      FreeMovesShape(hash, progs, bares[1..], available[1..]);
      var rest := FreeMoves(bares[1..], available[1..]);
      if available[0] {
        FreeMoveShape(hash, progs, bares[0]);
        ShapedCons(hash, [], progs, Keep(bares[0].index, [], CachedLineage(0, bares[0].raw, bares[0].meta)), rest);
      } else {
        assert [] + rest == rest;
      }
    }
  }

  // --- Every plan -------------------------------------------------------------------------------------------

  lemma {:induction false} RebuildMovesShape(hash: DigestFn, rules: seq<DeviceRule>, progs: seq<AttachedProg>,
                                             cached: seq<CachedLineage>, nonces: seq<U64>)
    requires RebuildMoves(hash, rules, cached, nonces).Success?
    ensures var moves := RebuildMoves(hash, rules, cached, nonces).value.0;
            && |moves| == |cached| && AllShaped(hash, rules, progs, moves) && MovesBag(moves) == multiset{}
            && forall i | 0 <= i < |moves| :: moves[i].Add? && moves[i].lineage.original == cached[i].original
  {
    hide Emit, GateOriginal, MovesBag;
    if |cached| == 0 {
      NoMoves();
    } else {
      var moves := RebuildMoves(hash, rules, cached, nonces).value.0;
      var left := if |rules| > 0 && cached[0].nonce == 0 then nonces[1..] else nonces;
      RebuildMovesShape(hash, rules, progs, cached[1..], left);
      var rest := RebuildMoves(hash, rules, cached[1..], left).value.0;
      assert moves == [moves[0]] + rest;
      ShapedCons(hash, rules, progs, moves[0], rest);
    }
  }

  // The attached programs' moves: shaped, and together exactly the programs of the query.
  lemma AttachedMovesShape(hash: DigestFn, rules: seq<DeviceRule>, progs: seq<AttachedProg>, nonces: seq<U64>)
    requires Positioned(progs)
    requires forall k | 0 <= k < |GroupsOf(progs)| :: |GroupsOf(progs)[k].members| > 0
    requires AttachedMoves(hash, rules, GroupsOf(progs), BaresOf(progs), nonces).Success?
    ensures var moves := AttachedMoves(hash, rules, GroupsOf(progs), BaresOf(progs), nonces).value.0;
            AllShaped(hash, rules, progs, moves) && MovesBag(moves) == ProgsBag(progs)
            && forall i | 0 <= i < |moves| :: !moves[i].Add?
  {
    hide Positioned, MoveShape, ProgsBag, MovesBag, GroupsBag, GroupsOf, BaresOf, GrantMoves, BareMoves, RestoreMoves, FreeMoves, FreeBag;
    var groups, bares := GroupsOf(progs), BaresOf(progs);
    GroupingSound(progs);
    GroupingKeepsAll(progs);
    if |rules| == 0 {
      assert rules == [];
      var (moves, end) := RestoreMoves(groups, bares, AllFree(|bares|));
      RestoreMovesShape(hash, progs, groups, bares, AllFree(|bares|));
      FreeMovesShape(hash, progs, bares, end);
      FreeBagAll(bares, AllFree(|bares|));
      MovesBagJoins(moves, FreeMoves(bares, end));
      RestoreNeverAdds(groups, bares, AllFree(|bares|));
      FreeNeverAdds(bares, end);
    } else {
      GrantMovesShape(hash, rules, progs, groups);
      BareMovesShape(hash, rules, progs, bares, nonces);
      MovesBagJoins(GrantMoves(hash, rules, groups).value, BareMoves(hash, rules, bares, nonces).value.0);
      GrantNeverAdds(hash, rules, groups);
      BareNeverAdds(hash, rules, bares, nonces);
    }
  }

  lemma {:induction false} GrantNeverAdds(hash: DigestFn, rules: seq<DeviceRule>, groups: seq<WrapperGroup>)
    requires forall k | 0 <= k < |groups| :: |groups[k].members| > 0
    requires GrantMoves(hash, rules, groups).Success?
    ensures forall i | 0 <= i < |GrantMoves(hash, rules, groups).value| :: !GrantMoves(hash, rules, groups).value[i].Add?
  {
    hide Emit;
    if |groups| > 0 {
      GrantNeverAdds(hash, rules, groups[1..]);
    }
  }

  lemma {:induction false} BareNeverAdds(hash: DigestFn, rules: seq<DeviceRule>, bares: seq<AttachedProg>, nonces: seq<U64>)
    requires BareMoves(hash, rules, bares, nonces).Success?
    ensures var moves := BareMoves(hash, rules, bares, nonces).value.0; forall i | 0 <= i < |moves| :: !moves[i].Add?
  {
    hide Emit, GateOriginal;
    if |bares| > 0 {
      BareNeverAdds(hash, rules, bares[1..], nonces[1..]);
    }
  }

  lemma {:induction false} RestoreNeverAdds(groups: seq<WrapperGroup>, bares: seq<AttachedProg>, available: seq<bool>)
    requires |available| == |bares| && forall k | 0 <= k < |groups| :: |groups[k].members| > 0
    ensures forall i | 0 <= i < |RestoreMoves(groups, bares, available).0| :: !RestoreMoves(groups, bares, available).0[i].Add?
  {
    if |groups| > 0 {
      assert forall k | 0 <= k < |groups[1..]| :: groups[1..][k] == groups[k + 1];
      var (move, left) := RestoreMove(groups[0], bares, available);
      RestoreNeverAdds(groups[1..], bares, left);
      var moves := RestoreMoves(groups[1..], bares, left).0;
      assert RestoreMoves(groups, bares, available).0 == [move] + moves;
      hide RestoreMoves;
    }
  }

  lemma {:induction false} FreeNeverAdds(bares: seq<AttachedProg>, available: seq<bool>)
    requires |available| == |bares|
    ensures forall i | 0 <= i < |FreeMoves(bares, available)| :: !FreeMoves(bares, available)[i].Add?
  {
    if |bares| > 0 {
      FreeNeverAdds(bares[1..], available[1..]);
    }
  }

  // Plan conservation: every attached program is in exactly one move and nothing else is, every
  // program of a move has the move's original, and every move ends as the target of its lineage.
  lemma PlanConserves(hash: DigestFn, rules: seq<DeviceRule>, progs: seq<AttachedProg>, entry: CacheEntry, nonces: seq<U64>)
    requires Positioned(progs) && PassMoves(hash, rules, progs, entry, nonces).Success?
    ensures var moves := PassMoves(hash, rules, progs, entry, nonces).value;
            AllShaped(hash, rules, progs, moves) && MovesBag(moves) == ProgsBag(progs)
  {
    hide Positioned, MoveShape, ProgsBag, MovesBag, GroupsOf, BaresOf, AttachedMoves, RebuildMoves, MissingLineages;
    GroupsNonEmpty(progs);
    var groups, bares := GroupsOf(progs), BaresOf(progs);
    AttachedMovesShape(hash, rules, progs, nonces);
    var (moves, rest) := AttachedMoves(hash, rules, groups, bares, nonces).value;
    if entry.rebuilding {
      var missing := MissingLineages(entry.lineages, groups, bares);
      RebuildMovesShape(hash, rules, progs, missing, rest);
      MovesBagJoins(moves, RebuildMoves(hash, rules, missing, rest).value.0);
    }
  }
}
