/** cgroup v1: the daemon's device exceptions in `devices.list`, told from the runtime's by a ledger. */
module V1Set {

  datatype Access = Read | Write | Mknod

  datatype Kind = AllDevices | BlockDevice | CharDevice

  type DevKind = k: Kind | k != AllDevices witness BlockDevice

  const WILDCARD: int := -1

  // One access bit of one device: the unit the ledger owns.
  datatype DevBit = DevBit(kind: DevKind, major: nat, minor: nat, access: Access)

  // One line of `devices.list`; a number may be the wildcard.
  datatype ListEntry = ListEntry(kind: Kind, major: int, minor: int, access: set<Access>)

  predicate Covers(e: ListEntry, bit: DevBit) {
    && (e.kind == AllDevices || e.kind == bit.kind)
    && (e.major == WILDCARD || e.major == bit.major)
    && (e.minor == WILDCARD || e.minor == bit.minor)
    && bit.access in e.access
  }

  // What each kind of line of `devices.list` covers: everything for `a *:*`, one major number of a type
  // for a wildcard minor, one device for an exact line.
  lemma LinesCover(kind: DevKind, major: nat, minor: nat, access: set<Access>, bit: DevBit)
    ensures Covers(ListEntry(AllDevices, -1, -1, access), bit) <==> bit.access in access
    ensures Covers(ListEntry(kind, -1, -1, access), bit) <==> bit.kind == kind && bit.access in access
    ensures Covers(ListEntry(kind, major, -1, access), bit) <==> bit.kind == kind && bit.major == major && bit.access in access
    ensures Covers(ListEntry(kind, -1, minor, access), bit) <==> bit.kind == kind && bit.minor == minor && bit.access in access
    ensures Covers(ListEntry(kind, major, minor, access), bit)
       <==> bit.kind == kind && bit.major == major && bit.minor == minor && bit.access in access
  {
  }

  predicate Covered(list: seq<ListEntry>, bit: DevBit) {
    exists i | 0 <= i < |list| :: Covers(list[i], bit)
  }

  predicate Exact(e: ListEntry) {
    e.kind != AllDevices && e.major != WILDCARD && e.minor != WILDCARD
  }

  predicate SameDevice(e: ListEntry, bit: DevBit) {
    e.kind == bit.kind && e.major == bit.major && e.minor == bit.minor
  }

  // --- The order bits are written in -----------------------------------------------------------------

  function KindRank(k: DevKind): nat { if k == BlockDevice then 0 else 1 }

  function AccessRank(a: Access): nat {
    match a
    case Read => 1
    case Write => 2
    case Mknod => 4
  }

  // By type, major, minor and access.
  predicate AtMost(a: DevBit, b: DevBit) {
    if KindRank(a.kind) != KindRank(b.kind) then KindRank(a.kind) < KindRank(b.kind)
    else if a.major != b.major then a.major < b.major
    else if a.minor != b.minor then a.minor < b.minor
    else AccessRank(a.access) <= AccessRank(b.access)
  }

  lemma Ordering(a: DevBit, b: DevBit, c: DevBit)
    ensures AtMost(a, a) && (AtMost(a, b) || AtMost(b, a))
    ensures AtMost(a, b) && AtMost(b, a) ==> a == b
    ensures AtMost(a, b) && AtMost(b, c) ==> AtMost(a, c)
  {
  }

  predicate IsLeast(b: DevBit, bits: set<DevBit>) {
    b in bits && forall c | c in bits :: AtMost(b, c)
  }

  lemma LeastOfMore(x: DevBit, y: DevBit, rest: set<DevBit>)
    requires IsLeast(y, rest)
    ensures IsLeast(if AtMost(x, y) then x else y, rest + {x})
  {
    hide AtMost;
    forall c | c in rest + {x}
      ensures AtMost(if AtMost(x, y) then x else y, c)
    {
      Ordering(x, y, c);
      Ordering(y, x, c);
    }
  }

  lemma {:induction false} LeastExists(bits: set<DevBit>)
    requires bits != {}
    ensures exists b :: IsLeast(b, bits)
    decreases |bits|
  {
    var x :| x in bits;
    var rest := bits - {x};
    assert rest + {x} == bits;
    if rest == {} {
      OnlyOne(x);
    } else {
      LeastExists(rest);
      var y :| IsLeast(y, rest);
      LeastOfMore(x, y, rest);
    }
  }

  lemma OnlyOne(x: DevBit)
    ensures IsLeast(x, {} + {x})
  {
  }

  lemma LeastIsOne(a: DevBit, b: DevBit, bits: set<DevBit>)
    requires IsLeast(a, bits) && IsLeast(b, bits)
    ensures a == b
  {
    Ordering(a, b, a);
  }

  // The first bit in the order.
  function Least(bits: set<DevBit>): (b: DevBit)
    requires bits != {}
    ensures IsLeast(b, bits)
  {
    LeastExists(bits);
    assert forall x, y | IsLeast(x, bits) && IsLeast(y, bits) :: x == y by {
      forall x, y | IsLeast(x, bits) && IsLeast(y, bits)
        ensures x == y
      {
        LeastIsOne(x, y, bits);
      }
    }
    var b :| b in bits && IsLeast(b, bits);
    b
  }

  // --- Telling the runtime's exceptions from the daemon's ------------------------------------------------

  // An entry without the owned bits. Wildcard entries are always the runtime's.
  function Strip(e: ListEntry, owned: set<DevBit>): ListEntry {
    if !Exact(e) then e
    else e.(access := set a | a in e.access && !exists b :: b in owned && SameDevice(e, b) && b.access == a)
  }

  function WithoutOwnedSpec(list: seq<ListEntry>, owned: set<DevBit>): seq<ListEntry> {
    if |list| == 0 then []
    else
      var stripped := Strip(list[0], owned);
      (if stripped.access == {} then [] else [stripped]) + WithoutOwnedSpec(list[1..], owned)
  }

  // The access bits of the device that are owned.
  function OwnedAccess(e: ListEntry, owned: set<DevBit>): set<Access> {
    set b | b in owned && SameDevice(e, b) :: b.access
  }

  lemma StripTakes(e: ListEntry, owned: set<DevBit>)
    requires Exact(e)
    ensures Strip(e, owned) == e.(access := e.access - OwnedAccess(e, owned))
  {
  }

  method StripEntry(e: ListEntry, owned: set<DevBit>) returns (r: ListEntry)
    ensures r == Strip(e, owned)
  {
    if e.kind == AllDevices || e.major == WILDCARD || e.minor == WILDCARD {
      return e;
    }
    var access, left := e.access, owned;
    ghost var done: set<DevBit> := {};
    while left != {}
      invariant owned == done + left && access == e.access - OwnedAccess(e, done)
      decreases |left|
    {
      var bit := Least(left);
      if bit.kind == e.kind && bit.major == e.major && bit.minor == e.minor {
        access := access - {bit.access};
      }
      OwnedMore(e, done, bit);
      done, left := done + {bit}, left - {bit};
    }
    StripTakes(e, owned);
    return e.(access := access);
  }

  lemma OwnedMore(e: ListEntry, done: set<DevBit>, bit: DevBit)
    ensures OwnedAccess(e, done + {bit}) == OwnedAccess(e, done) + if SameDevice(e, bit) then {bit.access} else {}
  {
  }

  method WithoutOwned(list: seq<ListEntry>, owned: set<DevBit>) returns (r: seq<ListEntry>)
    ensures r == WithoutOwnedSpec(list, owned)
  {
    hide Strip;
    r := [];
    assert list[0..] == list;
    for i := 0 to |list|
      invariant WithoutOwnedSpec(list, owned) == r + WithoutOwnedSpec(list[i..], owned)
    {
      assert list[i..][1..] == list[i + 1..];
      var e := StripEntry(list[i], owned);
      ghost var later := WithoutOwnedSpec(list[i + 1..], owned);
      if e.access != {} {
        assert r + ([e] + later) == (r + [e]) + later;
        r := r + [e];
      }
    }
    assert list[|list|..] == [];
  }

  // Present in the exact entry of its device, or covered by a wildcard entry.
  predicate InExact(list: seq<ListEntry>, bit: DevBit) {
    exists i | 0 <= i < |list| :: Exact(list[i]) && SameDevice(list[i], bit) && bit.access in list[i].access
  }

  predicate InWildcard(list: seq<ListEntry>, bit: DevBit) {
    exists i | 0 <= i < |list| :: !Exact(list[i]) && Covers(list[i], bit)
  }

  // What the runtime grants by itself.
  predicate Baseline(list: seq<ListEntry>, owned: set<DevBit>, bit: DevBit) {
    InWildcard(list, bit) || (InExact(list, bit) && bit !in owned)
  }

  lemma CoveredSplits(list: seq<ListEntry>, bit: DevBit)
    ensures Covered(list, bit) <==> InWildcard(list, bit) || InExact(list, bit)
  {
  }

  lemma StripCovers(e: ListEntry, owned: set<DevBit>, bit: DevBit)
    ensures Covers(Strip(e, owned), bit) <==> Covers(e, bit) && (Exact(e) ==> bit !in owned)
  {
  }

  lemma {:induction false} StrippedCovered(list: seq<ListEntry>, owned: set<DevBit>, bit: DevBit)
    ensures Covered(WithoutOwnedSpec(list, owned), bit) <==> exists i | 0 <= i < |list| :: Covers(Strip(list[i], owned), bit)
    decreases |list|
  {
    hide Strip;
    if |list| > 0 {
      StrippedCovered(list[1..], owned, bit);
      var stripped, rest := Strip(list[0], owned), WithoutOwnedSpec(list[1..], owned);
      var all := WithoutOwnedSpec(list, owned);
      if stripped.access == {} {
        assert all == rest;
      } else {
        assert all == [stripped] + rest;
        CoveredCons(stripped, rest, bit);
      }
      hide WithoutOwnedSpec, Covered;
      if i :| 0 <= i < |list| && Covers(Strip(list[i], owned), bit) {
        if i > 0 {
          assert list[1..][i - 1] == list[i];
        }
      }
      if i :| 0 <= i < |list[1..]| && Covers(Strip(list[1..][i], owned), bit) {
        assert list[i + 1] == list[1..][i];
      }
    }
  }

  lemma CoveredCons(e: ListEntry, rest: seq<ListEntry>, bit: DevBit)
    ensures Covered([e] + rest, bit) <==> Covers(e, bit) || Covered(rest, bit)
  {
    var all := [e] + rest;
    if Covered(rest, bit) {
      var i :| 0 <= i < |rest| && Covers(rest[i], bit);
      assert all[i + 1] == rest[i];
    }
    if Covers(e, bit) {
      assert all[0] == e;
    }
    if Covered(all, bit) {
      var i :| 0 <= i < |all| && Covers(all[i], bit);
      assert i > 0 ==> all[i] == rest[i - 1];
    }
  }

  // The stripped list covers exactly what the runtime grants by itself.
  lemma StrippedIsBaseline(list: seq<ListEntry>, owned: set<DevBit>, bit: DevBit)
    ensures Covered(WithoutOwnedSpec(list, owned), bit) <==> Baseline(list, owned, bit)
  {
    hide Strip, WithoutOwnedSpec;
    StrippedCovered(list, owned, bit);
    forall i | 0 <= i < |list|
      ensures Covers(Strip(list[i], owned), bit) <==> Covers(list[i], bit) && (Exact(list[i]) ==> bit !in owned)
    {
      StripCovers(list[i], owned, bit);
    }
  }

  // --- The kernel's side ------------------------------------------------------------------------------------

  // A write to `devices.allow` adds the bit to the exact entry of the device, or appends one.
  function AllowIn(list: seq<ListEntry>, bit: DevBit): (r: seq<ListEntry>)
    ensures |r| == |list| && forall i | 0 <= i < |list| ::
              r[i] == if SameDevice(list[i], bit) then list[i].(access := list[i].access + {bit.access}) else list[i]
  {
    if |list| == 0 then []
    else [if SameDevice(list[0], bit) then list[0].(access := list[0].access + {bit.access}) else list[0]] + AllowIn(list[1..], bit)
  }

  predicate HasDevice(list: seq<ListEntry>, bit: DevBit) {
    exists i | 0 <= i < |list| :: SameDevice(list[i], bit)
  }

  function Allowed(list: seq<ListEntry>, bit: DevBit): seq<ListEntry> {
    if HasDevice(list, bit) then AllowIn(list, bit) else list + [ListEntry(bit.kind, bit.major, bit.minor, {bit.access})]
  }

  // A write to `devices.deny` takes it away, with the entry when nothing is left.
  function Denied(list: seq<ListEntry>, bit: DevBit): seq<ListEntry> {
    if |list| == 0 then []
    else
      var left := if SameDevice(list[0], bit) then list[0].(access := list[0].access - {bit.access}) else list[0];
      (if SameDevice(list[0], bit) && left.access == {} then [] else [left]) + Denied(list[1..], bit)
  }

  lemma AllowedMeans(list: seq<ListEntry>, bit: DevBit, other: DevBit)
    ensures InExact(Allowed(list, bit), other) <==> InExact(list, other) || other == bit
    ensures InWildcard(Allowed(list, bit), other) <==> InWildcard(list, other)
  {
    var next := Allowed(list, bit);
    hide AllowIn;
    if HasDevice(list, bit) {
      var d :| 0 <= d < |list| && SameDevice(list[d], bit);
      assert Exact(next[d]) && SameDevice(next[d], bit) && bit.access in next[d].access;
      if InExact(list, other) {
        var i :| 0 <= i < |list| && Exact(list[i]) && SameDevice(list[i], other) && other.access in list[i].access;
        assert Exact(next[i]) && SameDevice(next[i], other) && other.access in next[i].access;
      }
      if InWildcard(list, other) {
        var i :| 0 <= i < |list| && !Exact(list[i]) && Covers(list[i], other);
        assert next[i] == list[i];
      }
    } else {
      assert next[|list|] == ListEntry(bit.kind, bit.major, bit.minor, {bit.access});
      assert forall i | 0 <= i < |list| :: next[i] == list[i];
    }
  }

  lemma {:induction false} DeniedMeans(list: seq<ListEntry>, bit: DevBit, other: DevBit)
    ensures InExact(Denied(list, bit), other) <==> InExact(list, other) && other != bit
    ensures InWildcard(Denied(list, bit), other) <==> InWildcard(list, other)
    decreases |list|
  {
    if |list| > 0 {
      DeniedMeans(list[1..], bit, other);
      var rest := Denied(list[1..], bit);
      var left := if SameDevice(list[0], bit) then list[0].(access := list[0].access - {bit.access}) else list[0];
      var gone := SameDevice(list[0], bit) && left.access == {};
      assert Denied(list, bit) == (if gone then rest else [left] + rest);
      hide Denied;
      InCons(left, rest, other);
      InCons(list[0], list[1..], other);
      assert [list[0]] + list[1..] == list;
      hide InExact, InWildcard;
      FirstDenied(list[0], left, bit, other);
    }
  }

  predicate ExactHas(e: ListEntry, bit: DevBit) {
    Exact(e) && SameDevice(e, bit) && bit.access in e.access
  }

  lemma FirstDenied(e: ListEntry, left: ListEntry, bit: DevBit, other: DevBit)
    requires left == if SameDevice(e, bit) then e.(access := e.access - {bit.access}) else e
    ensures ExactHas(left, other) <==> ExactHas(e, other) && other != bit
    ensures (!Exact(left) && Covers(left, other)) <==> (!Exact(e) && Covers(e, other))
    ensures SameDevice(e, bit) && left.access == {} ==> !ExactHas(left, other) && Exact(left)
  {
  }

  lemma InCons(e: ListEntry, rest: seq<ListEntry>, bit: DevBit)
    ensures InExact([e] + rest, bit) <==> ExactHas(e, bit) || InExact(rest, bit)
    ensures InWildcard([e] + rest, bit) <==> (!Exact(e) && Covers(e, bit)) || InWildcard(rest, bit)
  {
    var all := [e] + rest;
    assert all[0] == e && forall i | 0 <= i < |rest| :: all[i + 1] == rest[i];
    if InExact(rest, bit) {
      var i :| 0 <= i < |rest| && Exact(rest[i]) && SameDevice(rest[i], bit) && bit.access in rest[i].access;
      assert all[i + 1] == rest[i];
    }
    if InWildcard(rest, bit) {
      var i :| 0 <= i < |rest| && !Exact(rest[i]) && Covers(rest[i], bit);
      assert all[i + 1] == rest[i];
    }
    if InExact(all, bit) {
      var i :| 0 <= i < |all| && Exact(all[i]) && SameDevice(all[i], bit) && bit.access in all[i].access;
      assert i > 0 ==> all[i] == rest[i - 1];
    }
    if InWildcard(all, bit) {
      var i :| 0 <= i < |all| && !Exact(all[i]) && Covers(all[i], bit);
      assert i > 0 ==> all[i] == rest[i - 1];
    }
  }
}
