/** What cgroup v1 calls keep under any failures, and what a call that succeeds achieves. */
module V1Correct {
  import opened DeviceFilter
  import opened V1Set
  import opened V1Call

  // The stripped list says what the baseline is.
  ghost predicate Describes(baseline: seq<ListEntry>, a: Snapshot) {
    forall bit :: Covered(baseline, bit) <==> Baseline(a.list, a.owned, bit)
  }

  lemma DescribesKept(baseline: seq<ListEntry>, s: V1, t: V1)
    requires Describes(baseline, s.Now()) && AllKept(s, t)
    ensures Describes(baseline, t.Now())
  {
    hide Baseline, Covered;
  }

  lemma FatesLeft(s: V1)
    requires NothingIgnored(s.fates)
    ensures NothingIgnored(s.Called().fates) && s.Fate() != Ignored
  {
  }

  // --- The revokes -------------------------------------------------------------------------------------------------

  // The bits of `todo` that are not to stay and that the runtime does not grant.
  predicate Revoked(todo: set<DevBit>, keep: set<DevBit>, baseline: seq<ListEntry>, bit: DevBit) {
    bit in todo && bit !in keep && !Covered(baseline, bit)
  }

  // Where the revokes end: every state kept, and when none failed exactly the bits to revoke gone.
  ghost predicate RevokesEnd(s: V1, t: V1, todo: set<DevBit>, keep: set<DevBit>, baseline: seq<ListEntry>, done: bool) {
    && AllKept(s, t) && NothingIgnored(t.fates)
    && (done ==> forall bit :: InExact(t.list, bit) <==> InExact(s.list, bit) && !Revoked(todo, keep, baseline, bit))
    && (done ==> forall bit :: bit in t.owned <==> bit in s.owned && (bit in todo ==> bit in keep))
  }

  lemma {:induction false} RevokesRun(s: V1, todo: set<DevBit>, keep: set<DevBit>, baseline: seq<ListEntry>, forgotten: set<DevBit>)
    requires todo <= s.owned && NothingIgnored(s.fates) && Describes(baseline, s.Now())
    ensures var (t, forgot, stopped) := RevokeAll(s, todo, keep, baseline, forgotten);
            && RevokesEnd(s, t, todo, keep, baseline, stopped.None?)
            && (stopped.None? ==> forall bit :: bit in forgot <==> bit in forgotten || (bit in todo && bit !in keep && Covered(baseline, bit)))
    decreases |todo|
  {
    hide Covered, InExact, NothingIgnored, AllKept, Kept, WriteDeny;
    if todo == {} {
      KeptSelf(s);
    } else {
      var bit := Least(todo);
      var rest := todo - {bit};
      if bit in keep {
        RevokesRun(s, rest, keep, baseline, forgotten);
      } else if Covered(baseline, bit) {
        var t := s.Ledger(s.owned - {bit});
        ForgetKeeps(s, bit);
        DescribesKept(baseline, s, t);
        RevokesRun(t, rest, keep, baseline, forgotten + {bit});
        RevokesAfter(s, t, RevokeAll(t, rest, keep, baseline, forgotten + {bit}).0, todo, bit, keep, baseline,
                     RevokeAll(t, rest, keep, baseline, forgotten + {bit}).2.None?);
      } else {
        FatesLeft(s);
        RevokeKeeps(s, bit);
        var (t, ok) := WriteDeny(s, bit);
        if ok {
          var u := t.Ledger(t.owned - {bit});
          DeniedOne(s, bit);
          DescribesKept(baseline, s, u);
          RevokesRun(u, rest, keep, baseline, forgotten);
          RevokesAfter(s, u, RevokeAll(u, rest, keep, baseline, forgotten).0, todo, bit, keep, baseline,
                       RevokeAll(u, rest, keep, baseline, forgotten).2.None?);
        }
      }
    }
  }

  // What a deny that works does to the files and the ledger.
  lemma DeniedOne(s: V1, bit: DevBit)
    requires WriteDeny(s, bit).1 && s.Fate() != Ignored
    ensures var t := WriteDeny(s, bit).0;
            && t.owned == s.owned && t.fates == s.Called().fates
            && forall other :: InExact(t.list, other) <==> InExact(s.list, other) && other != bit
  {
    hide InExact, Denied;
    forall other
      ensures InExact(Denied(s.list, bit), other) <==> InExact(s.list, other) && other != bit
    {
      DeniedMeans(s.list, bit, other);
    }
  }

  // The first bit dealt with, then the rest.
  lemma RevokesAfter(s: V1, t: V1, u: V1, todo: set<DevBit>, bit: DevBit, keep: set<DevBit>, baseline: seq<ListEntry>, done: bool)
    requires bit in todo && bit !in keep && AllKept(s, t) && RevokesEnd(t, u, todo - {bit}, keep, baseline, done)
    requires t.owned == s.owned - {bit}
    requires forall other :: InExact(t.list, other) <==> InExact(s.list, other) && !(other == bit && !Covered(baseline, bit))
    ensures RevokesEnd(s, u, todo, keep, baseline, done)
  {
    hide Covered, InExact, NothingIgnored, AllKept;
    AllKeptThen(s, t, u);
  }

  // Whatever the files do, revoking never adds a bit to the list or the ledger.
  lemma {:induction false} RevokesNarrow(s: V1, todo: set<DevBit>, keep: set<DevBit>, baseline: seq<ListEntry>, forgotten: set<DevBit>)
    ensures var t := RevokeAll(s, todo, keep, baseline, forgotten).0;
            t.owned <= s.owned && forall bit | Covered(t.list, bit) :: Covered(s.list, bit)
    decreases |todo|
  {
    hide Covered, Denied;
    if todo != {} {
      var bit := Least(todo);
      var rest := todo - {bit};
      if bit in keep {
        RevokesNarrow(s, rest, keep, baseline, forgotten);
      } else if Covered(baseline, bit) {
        RevokesNarrow(s.Ledger(s.owned - {bit}), rest, keep, baseline, forgotten + {bit});
      } else {
        var (t, ok) := WriteDeny(s, bit);
        DenyNarrows(s.list, bit);
        if ok {
          RevokesNarrow(t.Ledger(t.owned - {bit}), rest, keep, baseline, forgotten);
        }
      }
    }
  }

  lemma DenyNarrows(list: seq<ListEntry>, bit: DevBit)
    ensures forall other | Covered(Denied(list, bit), other) :: Covered(list, other)
  {
    hide Covered, InExact, InWildcard, Denied;
    forall other | Covered(Denied(list, bit), other)
      ensures Covered(list, other)
    {
      CoveredSplits(Denied(list, bit), other);
      CoveredSplits(list, other);
      DeniedMeans(list, bit, other);
    }
  }

  // --- The grants --------------------------------------------------------------------------------------------------

  ghost predicate GrantsEnd(s: V1, t: V1, todo: set<DevBit>, done: bool) {
    && AllKept(s, t)
    && (done ==> t.owned == s.owned + todo && forall bit :: InExact(t.list, bit) <==> InExact(s.list, bit) || bit in todo)
  }

  lemma {:induction false} GrantsRun(s: V1, todo: set<DevBit>, entries: seq<ListEntry>, failed: seq<DevBit>)
    requires NothingIgnored(s.fates) && forall bit | bit in todo :: !Baseline(s.list, s.owned, bit)
    requires forall bit | bit in todo && Covered(entries, bit) :: InExact(s.list, bit)
    ensures var (t, more) := GrantAll(s, todo, entries, failed);
            && |failed| <= |more| && GrantsEnd(s, t, todo, |more| == |failed|)
    decreases |todo|
  {
    hide Covered, InExact, Baseline, NothingIgnored, AllKept, Kept, WriteAllow;
    if todo == {} {
      KeptSelf(s);
    } else {
      var bit := Least(todo);
      var rest := todo - {bit};
      if Covered(entries, bit) {
        var t := s.Ledger(s.owned + {bit});
        AdoptKeeps(s, bit);
        BaselineAfter(s, t, rest);
        GrantsRun(t, rest, entries, failed);
        GrantsAfter(s, t, GrantAll(t, rest, entries, failed).0, todo, bit, |GrantAll(t, rest, entries, failed).1| == |failed|);
      } else {
        FatesLeft(s);
        GrantKeeps(s, bit);
        var (t, ok) := WriteAllow(s, bit);
        if ok {
          var u := t.Ledger(t.owned + {bit});
          AllowedOne(s, bit);
          BaselineAfter(s, u, rest);
          GrantsRun(u, rest, entries, failed);
          GrantsAfter(s, u, GrantAll(u, rest, entries, failed).0, todo, bit, |GrantAll(u, rest, entries, failed).1| == |failed|);
        } else {
          GrantsRun(t, rest, entries, failed + [bit]);
          AllKeptThen(s, t, GrantAll(t, rest, entries, failed + [bit]).0);
        }
      }
    }
  }

  lemma BaselineAfter(s: V1, t: V1, rest: set<DevBit>)
    requires AllKept(s, t) && forall bit | bit in rest :: !Baseline(s.list, s.owned, bit)
    ensures forall bit | bit in rest :: !Baseline(t.list, t.owned, bit)
  {
    hide Baseline;
  }

  lemma AllowedOne(s: V1, bit: DevBit)
    requires WriteAllow(s, bit).1 && s.Fate() != Ignored
    ensures var t := WriteAllow(s, bit).0;
            && t.owned == s.owned && t.fates == s.Called().fates
            && forall other :: InExact(t.list, other) <==> InExact(s.list, other) || other == bit
  {
    hide InExact, Allowed;
    forall other
      ensures InExact(Allowed(s.list, bit), other) <==> InExact(s.list, other) || other == bit
    {
      AllowedMeans(s.list, bit, other);
    }
  }

  lemma GrantsAfter(s: V1, t: V1, u: V1, todo: set<DevBit>, bit: DevBit, done: bool)
    requires bit in todo && AllKept(s, t) && GrantsEnd(t, u, todo - {bit}, done) && t.owned == s.owned + {bit}
    requires forall other :: InExact(t.list, other) <==> InExact(s.list, other) || other == bit
    ensures GrantsEnd(s, u, todo, done)
  {
    hide InExact, AllKept;
    AllKeptThen(s, t, u);
  }

  // --- The call ----------------------------------------------------------------------------------------------------

  // A bit to own that the list had: the ledger owns it in the exact entry, and no revoke took it.
  lemma StillThere(s: V1, t: V1, desired: set<DevBit>, baseline: seq<ListEntry>)
    requires Describes(baseline, s.Now())
    requires RevokesEnd(s, t, s.owned, ToOwn(desired, baseline), baseline, true)
    ensures forall bit | bit in ToOwn(desired, baseline) && Covered(s.list, bit) :: InExact(t.list, bit)
  {
    hide InExact, InWildcard, AllKept, Covered;
    forall bit | bit in ToOwn(desired, baseline) && Covered(s.list, bit)
      ensures InExact(t.list, bit)
    {
      CoveredSplits(s.list, bit);
    }
  }

  lemma NotBaseline(s: V1, t: V1, desired: set<DevBit>, baseline: seq<ListEntry>)
    requires Describes(baseline, s.Now()) && AllKept(s, t)
    ensures forall bit | bit in ToOwn(desired, baseline) :: !Baseline(t.list, t.owned, bit)
  {
    hide Baseline, Covered;
  }

  lemma StartDescribes(s: V1)
    ensures Describes(WithoutOwnedSpec(s.list, s.owned), s.Now())
  {
    hide Covered, Baseline, WithoutOwnedSpec;
    forall bit
      ensures Covered(WithoutOwnedSpec(s.list, s.owned), bit) <==> Baseline(s.list, s.owned, bit)
    {
      StrippedIsBaseline(s.list, s.owned, bit);
    }
  }

  // Under any failures, after every write with its ledger update: what the runtime grants by itself
  // is unchanged, the ledger stays disjoint from it, and the list stays baseline plus ledger.
  lemma CallKeeps(s: V1, rules: seq<DeviceRule>)
    requires NothingIgnored(s.fates)
    ensures AllKept(s, SetRules(s, rules).0)
  {
    hide AllKept, NothingIgnored, Describes, WithoutOwnedSpec, RevokeAll, GrantAll, Verify, ToOwn, Expand, Covered, InExact, Baseline,
         GrantErrors, RevokesEnd;
    KeptSelf(s);
    if Expand(rules).Success? && s.Fate() != Fails {
      var s0 := s.Called();
      FatesLeft(s);
      var baseline := WithoutOwnedSpec(s.list, s.owned);
      var toOwn := ToOwn(Expand(rules).value, baseline);
      StartDescribes(s0);
      var (s1, forgotten, stopped) := RevokeAll(s0, s.owned, toOwn, baseline, {});
      RevokesRun(s0, s.owned, toOwn, baseline, {});
      RevokesEndKept(s0, s1, s.owned, toOwn, baseline, stopped.None?);
      AllKeptThen(s, s0, s1);
      if stopped.None? {
        StillThere(s0, s1, Expand(rules).value, baseline);
        NotBaseline(s0, s1, Expand(rules).value, baseline);
        GrantsRun(s1, toOwn, s.list, []);
        var (s2, failed) := GrantAll(s1, toOwn, s.list, []);
        AllKeptThen(s, s1, s2);
        VerifyOnlyReads(s2, s.owned, toOwn, forgotten);
        KeptSelf(s2);
        AllKeptThen(s, s2, s2.Called());
      }
    }
  }

  lemma RevokesEndKept(s: V1, t: V1, todo: set<DevBit>, keep: set<DevBit>, baseline: seq<ListEntry>, done: bool)
    requires RevokesEnd(s, t, todo, keep, baseline, done)
    ensures AllKept(s, t) && NothingIgnored(t.fates)
  {
    hide AllKept, NothingIgnored;
  }

  lemma VerifyOnlyReads(s: V1, before: set<DevBit>, now: set<DevBit>, forgotten: set<DevBit>)
    ensures Verify(s, before, now, forgotten).0 == s.Called()
  {
  }

  // A bit the runtime grants by itself is effective in every state: it is never denied.
  lemma BaselineNeverDenied(s: V1, rules: seq<DeviceRule>, i: nat, bit: DevBit)
    requires NothingIgnored(s.fates) && Baseline(s.list, s.owned, bit)
    requires |s.trace| <= i < |SetRules(s, rules).0.trace|
    ensures Covered(SetRules(s, rules).0.trace[i].list, bit) && Covered(SetRules(s, rules).0.list, bit)
  {
    var t := SetRules(s, rules).0;
    CallKeeps(s, rules);
    hide SetRules, Covered, InExact, InWildcard;
    CoveredSplits(t.trace[i].list, bit);
    CoveredSplits(t.list, bit);
  }

  // A revoke that fails ends the call with nothing granted, whatever the files do.
  lemma FailedRevokeStops(s: V1, rules: seq<DeviceRule>)
    requires SetRules(s, rules).1.Failure? && SetRules(s, rules).1.error.RevokeFailed?
    ensures var t := SetRules(s, rules).0;
            t.owned <= s.owned && forall bit | Covered(t.list, bit) :: Covered(s.list, bit)
  {
    hide Covered, RevokeAll, GrantAll, Verify, ToOwn, Expand, WithoutOwnedSpec, GrantErrors;
    if Expand(rules).Success? && s.Fate() != Fails {
      var baseline := WithoutOwnedSpec(s.list, s.owned);
      RevokesNarrow(s.Called(), s.owned, ToOwn(Expand(rules).value, baseline), baseline, {});
    } else {
      ExpandError(rules);
    }
  }

  lemma {:induction false} ExpandError(rules: seq<DeviceRule>)
    ensures Expand(rules).Failure? ==> !Expand(rules).error.RevokeFailed?
  {
    if |rules| > 0 {
      ExpandError(rules[1..]);
    }
  }

  // --- A call without failures ----------------------------------------------------------------------------------------

  ghost predicate Effective(t: V1, s: V1, desired: set<DevBit>) {
    forall bit :: Covered(t.list, bit) <==> Baseline(s.list, s.owned, bit) || bit in desired
  }

  // After revokes and grants without failure, the effective bits are the baseline and the desired.
  lemma EffectiveAfter(s: V1, t: V1, u: V1, desired: set<DevBit>, baseline: seq<ListEntry>)
    requires Describes(baseline, s.Now()) && RevokesEnd(s, t, s.owned, ToOwn(desired, baseline), baseline, true)
    requires GrantsEnd(t, u, ToOwn(desired, baseline), true) && AllKept(s, u)
    ensures Effective(u, s, desired) && u.owned == ToOwn(desired, baseline)
  {
    hide InExact, InWildcard, Covered, AllKept;
    forall bit
      ensures Covered(u.list, bit) <==> Baseline(s.list, s.owned, bit) || bit in desired
    {
      CoveredSplits(u.list, bit);
      AllKeptBaseline(s, u, bit);
    }
  }

  lemma AllKeptBaseline(s: V1, t: V1, bit: DevBit)
    requires AllKept(s, t)
    ensures Baseline(t.list, t.owned, bit) <==> Baseline(s.list, s.owned, bit)
  {
    hide Baseline;
  }

  lemma {:induction false} NoMismatch(todo: set<DevBit>, want: set<DevBit>, list: seq<ListEntry>)
    ensures |Mismatched(todo, want, list)| == 0 <==> forall bit | bit in todo :: Covered(list, bit) <==> bit in want
    decreases |todo|
  {
    hide Covered;
    if todo != {} {
      var bit := Least(todo);
      NoMismatch(todo - {bit}, want, list);
    }
  }

  // With every access working, by the desired bits.
  lemma CallReaches(s: V1, rules: seq<DeviceRule>)
    requires s.fates == [] && Expand(rules).Success?
    ensures var (t, r) := SetRules(s, rules);
            && r.Success? && Effective(t, s, Expand(rules).value)
            && (forall bit :: bit in t.owned <==> bit in Expand(rules).value && !Baseline(s.list, s.owned, bit))
            && Disjoint(t.Now()) && Matches(t.Now())
  {
    hide AllKept, WithoutOwnedSpec, RevokeAll, GrantAll, Mismatched, Expand, Covered, InExact, InWildcard, RevokesEnd, GrantsEnd;
    var desired, baseline := Expand(rules).value, WithoutOwnedSpec(s.list, s.owned);
    var toOwn := ToOwn(desired, baseline);
    assert s.Called() == s;
    StartDescribes(s);
    var (s1, forgotten, stopped) := RevokeAll(s, s.owned, toOwn, baseline, {});
    WorkingRevokes(s, s.owned, toOwn, baseline, {});
    RevokesRun(s, s.owned, toOwn, baseline, {});
    RevokesEndKept(s, s1, s.owned, toOwn, baseline, true);
    StillThere(s, s1, desired, baseline);
    NotBaseline(s, s1, desired, baseline);
    var (s2, failed) := GrantAll(s1, toOwn, s.list, []);
    WorkingGrants(s1, toOwn, s.list, []);
    GrantsRun(s1, toOwn, s.list, []);
    GrantsKept(s1, s2, toOwn);
    AllKeptThen(s, s1, s2);
    EffectiveAfter(s, s1, s2, desired, baseline);
    assert s2.Called() == s2;
    NoMismatch((s.owned - forgotten) + toOwn, toOwn, s2.list);
    OwnedNow(s, s1, s2, toOwn);
  }

  // With every access working and concrete rules, the call succeeds: no drift, the ledger is what the
  // rules grant and the runtime does not, and the effective bits are what either grants. Any other
  // rules are refused before anything is read or written.
  lemma CallAchieves(s: V1, rules: seq<DeviceRule>)
    ensures s.fates == [] && (forall k | 0 <= k < |rules| :: Concrete(rules[k])) ==>
              var (t, r) := SetRules(s, rules);
              && r.Success? && Disjoint(t.Now()) && Matches(t.Now())
              && (forall bit :: Covered(t.list, bit) <==> Baseline(s.list, s.owned, bit) || SomeGrants(rules, bit))
              && (forall bit :: bit in t.owned <==> SomeGrants(rules, bit) && !Baseline(s.list, s.owned, bit))
    ensures (exists k | 0 <= k < |rules| :: !Concrete(rules[k])) ==> SetRules(s, rules).0 == s && SetRules(s, rules).1.Failure?
  {
    ExpandMeans(rules);
    if s.fates == [] && Expand(rules).Success? {
      CallReaches(s, rules);
    }
    hide Expand, Concrete, SomeGrants, Covered, Baseline, Disjoint, Matches;
  }

  lemma GrantsKept(s: V1, t: V1, todo: set<DevBit>)
    requires GrantsEnd(s, t, todo, true)
    ensures AllKept(s, t)
  {
    hide AllKept;
  }

  lemma OwnedNow(s: V1, t: V1, u: V1, toOwn: set<DevBit>)
    requires AllKept(s, u) && GrantsEnd(t, u, toOwn, true) && u.owned == toOwn
    requires forall bit | bit in toOwn :: !Baseline(s.list, s.owned, bit)
    ensures Disjoint(u.Now()) && Matches(u.Now())
  {
    hide InExact, InWildcard, AllKept;
    forall bit | bit in u.owned
      ensures !Baseline(u.list, u.owned, bit)
    {
      AllKeptBaseline(s, u, bit);
    }
  }

  lemma {:induction false} WorkingRevokes(s: V1, todo: set<DevBit>, keep: set<DevBit>, baseline: seq<ListEntry>, forgotten: set<DevBit>)
    requires s.fates == []
    ensures RevokeAll(s, todo, keep, baseline, forgotten).2.None? && RevokeAll(s, todo, keep, baseline, forgotten).0.fates == []
    decreases |todo|
  {
    hide Covered, Denied;
    if todo != {} {
      var bit := Least(todo);
      var rest := todo - {bit};
      WorkingRevokes(s, rest, keep, baseline, forgotten);
      WorkingRevokes(s.Ledger(s.owned - {bit}), rest, keep, baseline, forgotten + {bit});
      var t := WriteDeny(s, bit).0;
      WorkingRevokes(t.Ledger(t.owned - {bit}), rest, keep, baseline, forgotten);
    }
  }

  lemma {:induction false} WorkingGrants(s: V1, todo: set<DevBit>, entries: seq<ListEntry>, failed: seq<DevBit>)
    requires s.fates == []
    ensures GrantAll(s, todo, entries, failed).1 == failed && GrantAll(s, todo, entries, failed).0.fates == []
    decreases |todo|
  {
    hide Covered, Allowed;
    if todo != {} {
      var bit := Least(todo);
      var rest := todo - {bit};
      WorkingGrants(s.Ledger(s.owned + {bit}), rest, entries, failed);
      var t := WriteAllow(s, bit).0;
      WorkingGrants(t.Ledger(t.owned + {bit}), rest, entries, failed);
    }
  }

  // Success is never wrong, even when the kernel accepts writes without effect: of the bits owned
  // before and not given up to the runtime, and those to own, exactly the latter are effective.
  lemma SuccessMeansEffective(s: V1, rules: seq<DeviceRule>, bit: DevBit)
    requires SetRules(s, rules).1.Success?
    ensures var t := SetRules(s, rules).0;
            && (SomeGrants(rules, bit) && !Baseline(s.list, s.owned, bit) ==> Covered(t.list, bit))
            && (bit in s.owned && !SomeGrants(rules, bit) && !Baseline(s.list, s.owned, bit) ==> !Covered(t.list, bit))
  {
    hide WithoutOwnedSpec, RevokeAll, GrantAll, Mismatched, Expand, Covered, SomeGrants;
    ExpandMeans(rules);
    var baseline := WithoutOwnedSpec(s.list, s.owned);
    var toOwn := ToOwn(Expand(rules).value, baseline);
    var (s1, forgotten, stopped) := RevokeAll(s.Called(), s.owned, toOwn, baseline, {});
    var s2 := GrantAll(s1, toOwn, s.list, []).0;
    NoMismatch((s.owned - forgotten) + toOwn, toOwn, s2.list);
    ForgottenCovered(s.Called(), s.owned, toOwn, baseline, {}, bit);
    StrippedIsBaseline(s.list, s.owned, bit);
  }

  lemma {:induction false} ForgottenCovered(s: V1, todo: set<DevBit>, keep: set<DevBit>, baseline: seq<ListEntry>, forgotten: set<DevBit>, bit: DevBit)
    requires bit in forgotten ==> Covered(baseline, bit)
    ensures bit in RevokeAll(s, todo, keep, baseline, forgotten).1 ==> Covered(baseline, bit)
    decreases |todo|
  {
    hide Covered, Denied;
    if todo != {} {
      var first := Least(todo);
      var rest := todo - {first};
      if first in keep {
        ForgottenCovered(s, rest, keep, baseline, forgotten, bit);
      } else if Covered(baseline, first) {
        ForgottenCovered(s.Ledger(s.owned - {first}), rest, keep, baseline, forgotten + {first}, bit);
      } else {
        var (t, ok) := WriteDeny(s, first);
        if ok {
          ForgottenCovered(t.Ledger(t.owned - {first}), rest, keep, baseline, forgotten, bit);
        }
      }
    }
  }

  // --- Whole runs --------------------------------------------------------------------------------------------------------

  // A call with any rules and failures, or an external writer taking an owned bit out of the files.
  datatype V1Event = Call(rules: seq<DeviceRule>, fates: seq<Fate>) | Lost(bit: DevBit)

  function Next(s: V1, e: V1Event): V1 {
    match e
    case Call(rules, fates) => SetRules(s.(fates := fates), rules).0
    case Lost(bit) => if bit in s.owned && !InWildcard(s.list, bit) then s.(list := Denied(s.list, bit)) else s
  }

  function After(s: V1, events: seq<V1Event>): V1
    decreases |events|
  {
    hide Next;
    if |events| == 0 then s else After(Next(s, events[0]), events[1..])
  }

  predicate Honest(e: V1Event) {
    e.Call? ==> NothingIgnored(e.fates)
  }

  lemma NextKeeps(s: V1, e: V1Event)
    requires Honest(e) && Disjoint(s.Now())
    ensures SameBaseline(s.Now(), Next(s, e).Now()) && Disjoint(Next(s, e).Now())
    ensures e.Call? && Matches(s.Now()) ==> Matches(Next(s, e).Now())
  {
    match e
    case Call(rules, fates) =>
      var s0 := s.(fates := fates);
      assert s0.Now() == s.Now();
      CallKeeps(s0, rules);
      hide SetRules, Baseline, Disjoint, Matches;
    case Lost(bit) =>
      hide InExact, InWildcard, Denied;
      forall other
        ensures InExact(Denied(s.list, bit), other) <==> InExact(s.list, other) && other != bit
        ensures InWildcard(Denied(s.list, bit), other) <==> InWildcard(s.list, other)
      {
        DeniedMeans(s.list, bit, other);
      }
  }

  // Over any run, whatever fails and whatever owned bit gets lost: the runtime's grants stay what
  // they were, and the ledger stays disjoint from them.
  lemma {:induction false} RunKeeps(s: V1, events: seq<V1Event>)
    requires Disjoint(s.Now()) && forall e | e in events :: Honest(e)
    ensures SameBaseline(s.Now(), After(s, events).Now()) && Disjoint(After(s, events).Now())
    decreases |events|
  {
    hide Next, Disjoint, Baseline, Honest;
    if |events| > 0 {
      assert events[0] in events;
      NextKeeps(s, events[0]);
      RunKeeps(Next(s, events[0]), events[1..]);
    }
  }

  // And a call without failures ends the run exactly: baseline and desired, nothing else.
  lemma RunConverges(s: V1, events: seq<V1Event>, rules: seq<DeviceRule>, bit: DevBit)
    requires Disjoint(s.Now()) && (forall e | e in events :: Honest(e)) && forall k | 0 <= k < |rules| :: Concrete(rules[k])
    ensures var (t, r) := SetRules(After(s, events).(fates := []), rules);
            && r.Success? && (Covered(t.list, bit) <==> Baseline(s.list, s.owned, bit) || SomeGrants(rules, bit))
            && (bit in t.owned <==> SomeGrants(rules, bit) && !Baseline(s.list, s.owned, bit))
  {
    RunKeeps(s, events);
    var reached := After(s, events).(fates := []);
    hide SetRules, Baseline, Covered, Disjoint, Matches, After, Concrete, SomeGrants;
    CallAchieves(reached, rules);
    assert SameBaseline(s.Now(), reached.Now());
  }
}
