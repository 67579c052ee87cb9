/** One cgroup v1 call, `set_device_rules`: revokes before grants, the ledger updated with every write. */
module V1Call {
  import opened Wrappers
  import opened DeviceFilter
  import opened V1Set

  // What a file access does: take effect, fail without effect, or be accepted without effect.
  datatype Fate = Works | Fails | Ignored

  datatype V1Error =
    | DenyRule
    | ConcreteRule(rule: DeviceRule)
    | UnknownLetter(letter: char)
    | ReadFailed
    | RevokeFailed(bit: DevBit)
    | GrantFailed(bit: DevBit)
    | VerifyFailed
    | Drift(mismatched: seq<(DevBit, bool)>)
    | Joined(errors: seq<V1Error>)

  datatype Snapshot = Snapshot(list: seq<ListEntry>, owned: set<DevBit>)

  // One cgroup: its `devices.list`, the bits the ledger has for it, the fate of the file accesses to
  // come (those past the end work), and every state after a write with its ledger update.
  datatype V1 = V1(list: seq<ListEntry>, owned: set<DevBit>, fates: seq<Fate>, trace: seq<Snapshot>) {
    function Fate(): Fate { if |fates| == 0 then Works else fates[0] }

    function Called(): V1 { this.(fates := if |fates| == 0 then [] else fates[1..]) }

    function Now(): Snapshot { Snapshot(list, owned) }

    function Ledger(bits: set<DevBit>): V1 { this.(owned := bits, trace := trace + [Snapshot(list, bits)]) }
  }

  // --- The desired bits ---------------------------------------------------------------------------------------

  function LetterOf(a: Access): char {
    match a
    case Read => 'r'
    case Write => 'w'
    case Mknod => 'm'
  }

  function CheckRule(rule: DeviceRule): Option<V1Error> {
    if !rule.allow then Some(DenyRule)
    else if rule.major.None? || rule.minor.None? || !(rule.kind == "c" || rule.kind == "b") || rule.major.value < 0 || rule.minor.value < 0
    then Some(ConcreteRule(rule))
    else if FirstUnknown(rule.access).Some? then Some(UnknownLetter(FirstUnknown(rule.access).value))
    else None
  }

  function RuleKind(rule: DeviceRule): DevKind { if rule.kind == "c" then CharDevice else BlockDevice }

  // The bits one rule grants.
  function RuleBits(rule: DeviceRule): (bits: set<DevBit>)
    requires CheckRule(rule).None?
    ensures forall b :: b in bits <==> b.kind == RuleKind(rule) && b.major == rule.major.value && b.minor == rule.minor.value
                                       && LetterOf(b.access) in rule.access
  {
    set a: Access | LetterOf(a) in rule.access :: DevBit(RuleKind(rule), rule.major.value, rule.minor.value, a)
  }

  // The bits of all rules, or the first error.
  function Expand(rules: seq<DeviceRule>): Result<set<DevBit>, V1Error> {
    if |rules| == 0 then Success({})
    else if CheckRule(rules[0]).Some? then Failure(CheckRule(rules[0]).value)
    else
      match Expand(rules[1..])
      case Failure(error) => Failure(error)
      case Success(bits) => Success(RuleBits(rules[0]) + bits)
  }

  // What a rule grants, in its own terms: "c" is a character device and "b" a block device, r is read, w
  // write and m mknod.
  predicate Grants(rule: DeviceRule, bit: DevBit) {
    && ((rule.kind == "c" && bit.kind == CharDevice) || (rule.kind == "b" && bit.kind == BlockDevice))
    && rule.major == Some(bit.major) && rule.minor == Some(bit.minor)
    && (|| ('r' in rule.access && bit.access == Read)
        || ('w' in rule.access && bit.access == Write)
        || ('m' in rule.access && bit.access == Mknod))
  }

  predicate SomeGrants(rules: seq<DeviceRule>, bit: DevBit) {
    exists k | 0 <= k < |rules| :: Grants(rules[k], bit)
  }

  // A rule the call takes: a concrete allow rule with known letters.
  predicate Concrete(rule: DeviceRule) {
    && rule.allow && (rule.kind == "c" || rule.kind == "b")
    && rule.major.Some? && rule.major.value >= 0 && rule.minor.Some? && rule.minor.value >= 0
    && forall k | 0 <= k < |rule.access| :: rule.access[k] in "rwm"
  }

  lemma RuleMeans(rule: DeviceRule)
    ensures CheckRule(rule).None? <==> Concrete(rule)
    ensures CheckRule(rule).None? ==> forall bit :: bit in RuleBits(rule) <==> Grants(rule, bit)
  {
    KnownLetters(rule.access);
    hide FirstUnknown, RuleBits;
  }

  // The desired bits are exactly those some rule grants, when every rule is concrete; else there are
  // none.
  lemma {:induction false} ExpandMeans(rules: seq<DeviceRule>)
    ensures Expand(rules).Success? <==> forall k | 0 <= k < |rules| :: Concrete(rules[k])
    ensures Expand(rules).Success? ==> forall bit :: bit in Expand(rules).value <==> SomeGrants(rules, bit)
  {
    hide CheckRule, RuleBits, Concrete, Grants;
    if |rules| > 0 {
      ExpandMeans(rules[1..]);
      RuleMeans(rules[0]);
      assert forall k | 1 <= k < |rules| :: rules[k] == rules[1..][k - 1];
      if Expand(rules).Success? {
        forall bit
          ensures SomeGrants(rules, bit) <==> Grants(rules[0], bit) || SomeGrants(rules[1..], bit)
        {
          assert forall k | 0 <= k < |rules[1..]| :: rules[1..][k] == rules[k + 1];
        }
      }
    }
  }

  method ExpandRules(rules: seq<DeviceRule>) returns (r: Result<set<DevBit>, V1Error>)
    ensures r == Expand(rules)
  {
    hide CheckRule, RuleBits;
    var bits: set<DevBit> := {};
    assert rules[0..] == rules;
    for i := 0 to |rules|
      invariant match Expand(rules[i..])
                case Failure(error) => Expand(rules) == Failure(error)
                case Success(more) => Expand(rules).Success? && Expand(rules).value == bits + more
    {
      assert rules[i..][1..] == rules[i + 1..];
      var rule := rules[i];
      RuleChecks(rule);
      if !rule.allow {
        return Failure(DenyRule);
      }
      if rule.major.None? || rule.minor.None? {
        return Failure(ConcreteRule(rule));
      }
      if !(rule.kind == "c" || rule.kind == "b") || rule.major.value < 0 || rule.minor.value < 0 {
        return Failure(ConcreteRule(rule));
      }
      var unknown := FirstUnknown(rule.access);
      if unknown.Some? {
        return Failure(UnknownLetter(unknown.value));
      }
      var mine := BitsOf(rule);
      bits := bits + mine;
    }
    assert rules[|rules|..] == [];
    return Success(bits);
  }

  lemma RuleChecks(rule: DeviceRule)
    ensures !rule.allow ==> CheckRule(rule) == Some(DenyRule)
    ensures rule.allow && (rule.major.None? || rule.minor.None? || !(rule.kind == "c" || rule.kind == "b") || rule.major.value < 0 || rule.minor.value < 0)
            ==> CheckRule(rule) == Some(ConcreteRule(rule))
    ensures rule.allow && rule.major.Some? && rule.minor.Some? && (rule.kind == "c" || rule.kind == "b") && rule.major.value >= 0 && rule.minor.value >= 0
            ==> CheckRule(rule) == match FirstUnknown(rule.access) case Some(letter) => Some(UnknownLetter(letter)) case None => None
  {
  }

  method BitsOf(rule: DeviceRule) returns (bits: set<DevBit>)
    requires CheckRule(rule).None?
    ensures bits == RuleBits(rule)
  {
    bits := {};
    var all := [Read, Write, Mknod];
    for k := 0 to 3
      invariant forall b :: b in bits <==> b in RuleBits(rule) && exists j | 0 <= j < k :: all[j] == b.access
    {
      if LetterOf(all[k]) in rule.access {
        bits := bits + {DevBit(RuleKind(rule), rule.major.value, rule.minor.value, all[k])};
      }
    }
    forall b | b in RuleBits(rule)
      ensures b in bits
    {
      assert all[if b.access == Read then 0 else if b.access == Write then 1 else 2] == b.access;
    }
  }

  // --- The call ---------------------------------------------------------------------------------------------------

  function WriteDeny(s: V1, bit: DevBit): (V1, bool) {
    match s.Fate()
    case Works => (s.Called().(list := Denied(s.list, bit)), true)
    case Fails => (s.Called(), false)
    case Ignored => (s.Called(), true)
  }

  function WriteAllow(s: V1, bit: DevBit): (V1, bool) {
    match s.Fate()
    case Works => (s.Called().(list := Allowed(s.list, bit)), true)
    case Fails => (s.Called(), false)
    case Ignored => (s.Called(), true)
  }

  // The owned bits that are not to stay, in order: those the baseline covers by itself are forgotten,
  // the others denied. A deny that fails ends it.
  function RevokeAll(s: V1, todo: set<DevBit>, keep: set<DevBit>, baseline: seq<ListEntry>, forgotten: set<DevBit>)
    : (V1, set<DevBit>, Option<DevBit>)
    decreases |todo|
  {
    if todo == {} then (s, forgotten, None)
    else
      var bit := Least(todo);
      var rest := todo - {bit};
      if bit in keep then RevokeAll(s, rest, keep, baseline, forgotten)
      else if Covered(baseline, bit) then RevokeAll(s.Ledger(s.owned - {bit}), rest, keep, baseline, forgotten + {bit})
      else
        var (s1, ok) := WriteDeny(s, bit);
        if !ok then (s1, forgotten, Some(bit)) else RevokeAll(s1.Ledger(s1.owned - {bit}), rest, keep, baseline, forgotten)
  }

  // The bits to own, in order: written unless effective when the list was read. One that fails is
  // remembered, and the others still written.
  function GrantAll(s: V1, todo: set<DevBit>, entries: seq<ListEntry>, failed: seq<DevBit>): (V1, seq<DevBit>)
    decreases |todo|
  {
    if todo == {} then (s, failed)
    else
      var bit := Least(todo);
      var rest := todo - {bit};
      if Covered(entries, bit) then GrantAll(s.Ledger(s.owned + {bit}), rest, entries, failed)
      else
        var (s1, ok) := WriteAllow(s, bit);
        if !ok then GrantAll(s1, rest, entries, failed + [bit]) else GrantAll(s1.Ledger(s1.owned + {bit}), rest, entries, failed)
  }

  // The bits whose effect is not what it should be, in order.
  function Mismatched(todo: set<DevBit>, want: set<DevBit>, list: seq<ListEntry>): seq<(DevBit, bool)>
    decreases |todo|
  {
    if todo == {} then []
    else
      var bit := Least(todo);
      (if Covered(list, bit) != (bit in want) then [(bit, bit in want)] else []) + Mismatched(todo - {bit}, want, list)
  }

  // Reads the list again: among the bits owned before or now, exactly those owned now are effective.
  function Verify(s: V1, before: set<DevBit>, now: set<DevBit>, forgotten: set<DevBit>): (V1, Option<V1Error>) {
    if s.Fate() == Fails then (s.Called(), Some(VerifyFailed))
    else
      var wrong := Mismatched((before - forgotten) + now, now, s.list);
      (s.Called(), if |wrong| == 0 then None else Some(Drift(wrong)))
  }

  function GrantErrors(failed: seq<DevBit>): (r: seq<V1Error>)
    ensures |r| == |failed| && forall k | 0 <= k < |failed| :: r[k] == GrantFailed(failed[k])
  {
    if |failed| == 0 then [] else [GrantFailed(failed[0])] + GrantErrors(failed[1..])
  }

  // The desired bits the runtime does not grant by itself.
  function ToOwn(desired: set<DevBit>, baseline: seq<ListEntry>): (r: set<DevBit>)
    ensures forall b :: b in r <==> b in desired && !Covered(baseline, b)
  {
    set b | b in desired && !Covered(baseline, b)
  }

  function SetRules(s: V1, rules: seq<DeviceRule>): (V1, Result<(), V1Error>) {
    match Expand(rules)
    case Failure(error) => (s, Failure(error))
    case Success(desired) =>
      if s.Fate() == Fails then (s.Called(), Failure(ReadFailed))
      else
        var baseline := WithoutOwnedSpec(s.list, s.owned);
        var toOwn := ToOwn(desired, baseline);
        var (s1, forgotten, stopped) := RevokeAll(s.Called(), s.owned, toOwn, baseline, {});
        if stopped.Some? then (s1, Failure(RevokeFailed(stopped.value)))
        else
          var (s2, failed) := GrantAll(s1, toOwn, s.list, []);
          var (s3, drift) := Verify(s2, s.owned, toOwn, forgotten);
          var errors := GrantErrors(failed) + if drift.Some? then [drift.value] else [];
          (s3, if |errors| == 0 then Success(()) else Failure(Joined(errors)))
  }

  // --- What every step keeps ------------------------------------------------------------------------------------------

  ghost predicate SameBaseline(a: Snapshot, b: Snapshot) {
    forall bit :: Baseline(a.list, a.owned, bit) <==> Baseline(b.list, b.owned, bit)
  }

  // The ledger is disjoint from what the runtime grants by itself.
  ghost predicate Disjoint(a: Snapshot) {
    forall bit | bit in a.owned :: !Baseline(a.list, a.owned, bit)
  }

  // Every owned bit is in the files: the list is the baseline and the ledger together.
  ghost predicate Matches(a: Snapshot) {
    forall bit | bit in a.owned :: InExact(a.list, bit)
  }

  lemma MatchingList(a: Snapshot, bit: DevBit)
    requires Matches(a)
    ensures Covered(a.list, bit) <==> Baseline(a.list, a.owned, bit) || bit in a.owned
  {
    hide InExact, InWildcard, Covered;
    CoveredSplits(a.list, bit);
  }

  // A snapshot that kept what the first one had.
  ghost predicate Kept(a: Snapshot, b: Snapshot) {
    SameBaseline(a, b) && (Disjoint(a) ==> Disjoint(b)) && (Matches(a) ==> Matches(b))
  }

  lemma KeptThen(a: Snapshot, b: Snapshot, c: Snapshot)
    requires Kept(a, b) && Kept(b, c)
    ensures Kept(a, c)
  {
    hide Baseline, Disjoint, Matches;
  }

  // From `s` to `t`, with every state in between.
  ghost predicate AllKept(s: V1, t: V1) {
    && |s.trace| <= |t.trace| && t.trace[..|s.trace|] == s.trace && Kept(s.Now(), t.Now())
    && forall i | |s.trace| <= i < |t.trace| :: Kept(s.Now(), t.trace[i])
  }

  lemma AllKeptThen(s: V1, t: V1, u: V1)
    requires AllKept(s, t) && AllKept(t, u)
    ensures AllKept(s, u)
  {
    hide Kept;
    forall i | |s.trace| <= i < |u.trace|
      ensures Kept(s.Now(), u.trace[i])
    {
      if i < |t.trace| {
        assert u.trace[i] == u.trace[..|t.trace|][i] == t.trace[i];
      } else {
        KeptThen(s.Now(), t.Now(), u.trace[i]);
      }
    }
    KeptThen(s.Now(), t.Now(), u.Now());
    assert u.trace[..|s.trace|] == u.trace[..|t.trace|][..|s.trace|];
  }

  lemma KeptSelf(s: V1)
    ensures AllKept(s, s) && AllKept(s, s.Called())
  {
  }

  // A write that took effect and its ledger update, or nothing, as one step.
  lemma OneStep(s: V1, t: V1)
    requires t.trace == s.trace + [t.Now()] && Kept(s.Now(), t.Now())
    ensures AllKept(s, t)
  {
    hide Kept;
  }

  predicate NothingIgnored(fates: seq<Fate>) {
    forall k | 0 <= k < |fates| :: fates[k] != Ignored
  }

  lemma ForgetKeeps(s: V1, bit: DevBit)
    requires bit in s.owned && Baseline(s.list, s.owned, bit)
    ensures AllKept(s, s.Ledger(s.owned - {bit}))
  {
    hide InExact, InWildcard;
    OneStep(s, s.Ledger(s.owned - {bit}));
  }

  lemma RevokeKeeps(s: V1, bit: DevBit)
    requires bit in s.owned && !Baseline(s.list, s.owned, bit) && s.Fate() != Ignored
    ensures var (t, ok) := WriteDeny(s, bit);
            if ok then AllKept(s, t.Ledger(t.owned - {bit})) else AllKept(s, t) && t == s.Called()
  {
    hide InExact, InWildcard, Denied;
    var (t, ok) := WriteDeny(s, bit);
    if ok {
      var u := t.Ledger(t.owned - {bit});
      forall other
        ensures InExact(u.list, other) <==> InExact(s.list, other) && other != bit
        ensures InWildcard(u.list, other) <==> InWildcard(s.list, other)
      {
        DeniedMeans(s.list, bit, other);
      }
      OneStep(s, u);
    } else {
      KeptSelf(s);
    }
  }

  lemma GrantKeeps(s: V1, bit: DevBit)
    requires !Baseline(s.list, s.owned, bit) && s.Fate() != Ignored
    ensures var (t, ok) := WriteAllow(s, bit);
            if ok then AllKept(s, t.Ledger(t.owned + {bit})) else AllKept(s, t) && t == s.Called()
  {
    hide InExact, InWildcard, Allowed;
    var (t, ok) := WriteAllow(s, bit);
    if ok {
      var u := t.Ledger(t.owned + {bit});
      forall other
        ensures InExact(u.list, other) <==> InExact(s.list, other) || other == bit
        ensures InWildcard(u.list, other) <==> InWildcard(s.list, other)
      {
        AllowedMeans(s.list, bit, other);
      }
      OneStep(s, u);
    } else {
      KeptSelf(s);
    }
  }

  // A bit that is effective and not the runtime's: the ledger already has it.
  lemma AdoptKeeps(s: V1, bit: DevBit)
    requires !Baseline(s.list, s.owned, bit) && InExact(s.list, bit)
    ensures AllKept(s, s.Ledger(s.owned + {bit})) && bit in s.owned
  {
    hide InExact, InWildcard;
    assert s.owned + {bit} == s.owned;
    OneStep(s, s.Ledger(s.owned + {bit}));
  }
}
