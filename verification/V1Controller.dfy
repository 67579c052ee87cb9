/** The cgroup v1 controller and its ledger, updated in place. */
module V1Controller {
  import opened Wrappers
  import opened DeviceFilter
  import opened Handle
  import opened V1Set
  import opened V1Call

  // The bits this daemon added, per cgroup. A cgroup without any has no record.
  class Ledger {
    var entries: map<Identity, set<DevBit>>

    ghost predicate Valid()
      reads this
    {
      forall id | id in entries :: entries[id] != {}
    }

    function Bits(id: Identity): set<DevBit>
      reads this
    {
      if id in entries then entries[id] else {}
    }

    constructor ()
      ensures Valid() && entries == map[]
    {
      entries := map[];
    }

    method Forget(id: Identity)
      requires Valid()
      modifies this
      ensures Valid() && Bits(id) == {} && forall other | other != id :: Bits(other) == old(Bits(other))
    {
      entries := entries - {id};
    }

    method Owned(id: Identity) returns (bits: set<DevBit>)
      ensures bits == Bits(id)
    {
      if id in entries {
        return entries[id];
      }
      return {};
    }

    method Add(id: Identity, bit: DevBit)
      requires Valid()
      modifies this
      ensures Valid() && Bits(id) == old(Bits(id)) + {bit} && forall other | other != id :: Bits(other) == old(Bits(other))
    {
      if id in entries {
        entries := entries[id := entries[id] + {bit}];
      } else {
        entries := entries[id := {bit}];
      }
    }

    method Remove(id: Identity, bit: DevBit)
      requires Valid()
      modifies this
      ensures Valid() && Bits(id) == old(Bits(id)) - {bit} && forall other | other != id :: Bits(other) == old(Bits(other))
    {
      if id in entries {
        var left := entries[id] - {bit};
        if left == {} {
          entries := entries - {id};
        } else {
          entries := entries[id := left];
        }
      }
    }
  }

  // The `devices.*` files of one cgroup and the fate of the accesses to come.
  datatype Files = Files(list: seq<ListEntry>, fates: seq<Fate>)

  const NO_FILES: Files := Files([], [])

  class CgroupV1 {
    const ledger: Ledger
    var files: map<Identity, Files>
    // Every state after a write with its ledger update.
    ghost var trace: map<Identity, seq<Snapshot>>

    constructor (ledger: Ledger)
      ensures this.ledger == ledger && files == map[] && trace == map[]
    {
      this.ledger := ledger;
      files := map[];
      trace := map[];
    }

    function FilesOf(id: Identity): Files
      reads this
    {
      if id in files then files[id] else NO_FILES
    }

    ghost function View(id: Identity): V1
      reads this, ledger
    {
      V1(FilesOf(id).list, ledger.Bits(id), FilesOf(id).fates, if id in trace then trace[id] else [])
    }

    // Nothing but the cgroup's own files and ledger record changes.
    twostate predicate OthersKept(id: Identity)
      reads this, ledger
    {
      forall other | other != id :: View(other) == old(View(other))
    }

    method Called(id: Identity) returns (fate: Fate)
      modifies this
      ensures fate == old(View(id)).Fate() && View(id) == old(View(id)).Called() && OthersKept(id)
    {
      var f := FilesOf(id);
      fate := if |f.fates| == 0 then Works else f.fates[0];
      files := files[id := f.(fates := if |f.fates| == 0 then [] else f.fates[1..])];
    }

    method ReadList(id: Identity) returns (r: Option<seq<ListEntry>>)
      modifies this
      ensures View(id) == old(View(id)).Called() && OthersKept(id)
      ensures r == if old(View(id)).Fate() == Fails then None else Some(old(View(id)).list)
    {
      var fate := Called(id);
      if fate == Fails {
        return None;
      }
      return Some(FilesOf(id).list);
    }

    method WriteLine(id: Identity, allow: bool, bit: DevBit) returns (ok: bool)
      modifies this
      ensures (View(id), ok) == if allow then WriteAllow(old(View(id)), bit) else WriteDeny(old(View(id)), bit)
      ensures OthersKept(id)
    {
      hide Allowed, Denied;
      var fate := Called(id);
      if fate == Works {
        var f := FilesOf(id);
        files := files[id := f.(list := if allow then Allowed(f.list, bit) else Denied(f.list, bit))];
      }
      ok := fate != Fails;
    }

    ghost method Snap(id: Identity)
      modifies this`trace
      ensures View(id) == old(View(id)).(trace := old(View(id)).trace + [old(View(id)).Now()]) && OthersKept(id)
    {
      trace := trace[id := (if id in trace then trace[id] else []) + [View(id).Now()]];
    }

    method Revoke(id: Identity, keep: set<DevBit>, baseline: seq<ListEntry>) returns (forgotten: set<DevBit>, stopped: Option<DevBit>)
      requires ledger.Valid()
      modifies this, ledger
      ensures ledger.Valid() && OthersKept(id)
      ensures (View(id), forgotten, stopped) == RevokeAll(old(View(id)), old(View(id)).owned, keep, baseline, {})
    {
      hide Covered, Allowed, Denied;
      forgotten, stopped := {}, None;
      var left := ledger.Owned(id);
      ghost var all := RevokeAll(View(id), left, keep, baseline, {});
      while left != {}
        invariant ledger.Valid() && OthersKept(id) && all == RevokeAll(View(id), left, keep, baseline, forgotten)
        decreases |left|
      {
        var bit := Least(left);
        left := left - {bit};
        if bit in keep {
          continue;
        }
        if Covered(baseline, bit) {
          ledger.Remove(id, bit);
          Snap(id);
          forgotten := forgotten + {bit};
          continue;
        }
        var ok := WriteLine(id, false, bit);
        if !ok {
          stopped := Some(bit);
          return;
        }
        ledger.Remove(id, bit);
        Snap(id);
      }
    }

    method Grant(id: Identity, toOwn: set<DevBit>, entries: seq<ListEntry>) returns (failed: seq<DevBit>)
      requires ledger.Valid()
      modifies this, ledger
      ensures ledger.Valid() && OthersKept(id) && (View(id), failed) == GrantAll(old(View(id)), toOwn, entries, [])
    {
      hide Covered, Allowed, Denied;
      failed := [];
      var left := toOwn;
      ghost var all := GrantAll(View(id), left, entries, []);
      while left != {}
        invariant ledger.Valid() && OthersKept(id) && all == GrantAll(View(id), left, entries, failed)
        decreases |left|
      {
        var bit := Least(left);
        left := left - {bit};
        if !Covered(entries, bit) {
          var ok := WriteLine(id, true, bit);
          if !ok {
            failed := failed + [bit];
            continue;
          }
        }
        ledger.Add(id, bit);
        Snap(id);
      }
    }

    method CheckDrift(id: Identity, before: set<DevBit>, now: set<DevBit>, forgotten: set<DevBit>) returns (r: Option<V1Error>)
      modifies this
      ensures (View(id), r) == Verify(old(View(id)), before, now, forgotten) && OthersKept(id)
    {
      hide Covered, Mismatched;
      var list := ReadList(id);
      if list.None? {
        return Some(VerifyFailed);
      }
      var wrong := FindMismatched((before - forgotten) + now, now, list.value);
      return if |wrong| == 0 then None else Some(Drift(wrong));
    }

    // Makes the daemon-owned exceptions of the cgroup exactly the rules.
    method SetDeviceRules(id: Identity, rules: seq<DeviceRule>) returns (r: Result<(), V1Error>)
      requires ledger.Valid()
      modifies this, ledger
      ensures ledger.Valid() && OthersKept(id) && (View(id), r) == SetRules(old(View(id)), rules)
    {
      hide Covered, RevokeAll, GrantAll, Verify, Expand, WithoutOwnedSpec, GrantErrors, ToOwn;
      var desired := ExpandRules(rules);
      if desired.Failure? {
        return Failure(desired.error);
      }
      var list := ReadList(id);
      if list.None? {
        return Failure(ReadFailed);
      }
      var owned := ledger.Owned(id);
      var baseline := WithoutOwned(list.value, owned);
      var toOwn := ToOwn(desired.value, baseline);
      var forgotten, stopped := Revoke(id, toOwn, baseline);
      if stopped.Some? {
        return Failure(RevokeFailed(stopped.value));
      }
      var failed := Grant(id, toOwn, list.value);
      var errors := GrantErrors(failed);
      var drift := CheckDrift(id, owned, toOwn, forgotten);
      assert errors + [] == errors;
      if drift.Some? {
        errors := errors + [drift.value];
      }
      return if |errors| == 0 then Success(()) else Failure(Joined(errors));
    }
  }

  method FindMismatched(checked: set<DevBit>, want: set<DevBit>, list: seq<ListEntry>) returns (wrong: seq<(DevBit, bool)>)
    ensures wrong == Mismatched(checked, want, list)
  {
    hide Covered, Mismatched;
    wrong := [];
    var left := checked;
    while left != {}
      invariant Mismatched(checked, want, list) == wrong + Mismatched(left, want, list)
      decreases |left|
    {
      var bit := Least(left);
      MismatchedStep(left, want, list);
      left := left - {bit};
      ghost var later := Mismatched(left, want, list);
      if Covered(list, bit) != (bit in want) {
        assert wrong + ([(bit, bit in want)] + later) == (wrong + [(bit, bit in want)]) + later;
        wrong := wrong + [(bit, bit in want)];
      } else {
        assert [] + later == later;
      }
    }
    NoneMismatched(want, list);
  }

  lemma MismatchedStep(todo: set<DevBit>, want: set<DevBit>, list: seq<ListEntry>)
    requires todo != {}
    ensures var bit := Least(todo);
            Mismatched(todo, want, list)
            == (if Covered(list, bit) != (bit in want) then [(bit, bit in want)] else []) + Mismatched(todo - {bit}, want, list)
  {
    hide Covered;
  }

  lemma NoneMismatched(want: set<DevBit>, list: seq<ListEntry>)
    ensures Mismatched({}, want, list) == []
  {
  }
}
