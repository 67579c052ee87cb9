/** What identifies a wrapper: its nonce, its normalised rules and its original; and stripping a
    stack of wrappers down to the original underneath. */
module OwnedIdentity {
  import opened Wrappers
  import opened Words
  import opened Asm
  import opened AsmCanonical
  import opened DeviceFilter
  import opened FilterCorrect
  import opened Owned
  import opened OwnedRoundTrip

  // --- Normalised rules -------------------------------------------------------------------------

  // A rule that matches every request.
  predicate FullWildcard(rule: DeviceRule) {
    && rule.kind == "a"
    && 'r' in rule.access && 'w' in rule.access && 'm' in rule.access
    && (forall k | 0 <= k < |rule.access| :: rule.access[k] in "rwm")
    && rule.major.Some? && rule.major.value < 0
    && rule.minor.Some? && rule.minor.value < 0
  }

  predicate HasFullWildcard(rules: seq<DeviceRule>) {
    exists k | 0 <= k < |rules| :: FullWildcard(rules[k])
  }

  // The rules from the last full wildcard on; all of them when there is none.
  function Effective(rules: seq<DeviceRule>): seq<DeviceRule> {
    if |rules| > 0 && HasFullWildcard(rules[1..]) then Effective(rules[1..]) else rules
  }

  function NormalNumber(number: Option<I64>): Option<I64> {
    if number.Some? && number.value < 0 then Some(WILDCARD) else number
  }

  // Wildcards as -1, and each access letter once, in the order r, w, m.
  function NormalRule(rule: DeviceRule): DeviceRule {
    var access := (if 'r' in rule.access then "r" else "") + (if 'w' in rule.access then "w" else "")
                  + (if 'm' in rule.access then "m" else "");
    rule.(major := NormalNumber(rule.major), minor := NormalNumber(rule.minor), access := access)
  }

  function NormalRules(rules: seq<DeviceRule>): (r: seq<DeviceRule>)
    ensures |r| == |rules|
    ensures forall k | 0 <= k < |rules| :: r[k] == NormalRule(rules[k])
  {
    if |rules| == 0 then [] else [NormalRule(rules[0])] + NormalRules(rules[1..])
  }

  function Normalise(rules: seq<DeviceRule>): seq<DeviceRule> {
    NormalRules(Effective(rules))
  }

  predicate RulesInRange(rules: seq<DeviceRule>) {
    forall k | 0 <= k < |Effective(rules)| :: InRange(Effective(rules)[k])
  }

  lemma WildcardChecks(rule: DeviceRule)
    ensures FullWildcard(rule) <==> Check(rule).Success? && Check(rule).value.MatchesAll()
  {
    KnownLetters(rule.access);
  }

  // The kept rules are the effective ones.
  lemma {:induction false} KeptIsEffective(rules: seq<DeviceRule>)
    requires Build(rules).Success?
    ensures Build(rules).value.hasWildCard <==> HasFullWildcard(rules)
    ensures |Kept(rules)| == |Effective(rules)|
    ensures forall k | 0 <= k < |Kept(rules)| ::
              Check(Effective(rules)[k]) == Success(Kept(rules)[k])
  {
    hide Check, FullWildcard;
    if |rules| > 0 {
      KeptIsEffective(rules[1..]);
      WildcardChecks(rules[0]);
      assert HasFullWildcard(rules) <==> FullWildcard(rules[0]) || HasFullWildcard(rules[1..]) by {
        assert forall k | 1 <= k < |rules| :: rules[k] == rules[1..][k - 1];
      }
    }
  }

  // A rule that can be compiled: a type, two numbers of at most 32 bits or wildcards, and known letters.
  predicate Accepted(rule: DeviceRule) {
    && (rule.kind == "a" || rule.kind == "b" || rule.kind == "c")
    && rule.major.Some? && rule.major.value < 0x1_0000_0000
    && rule.minor.Some? && rule.minor.value < 0x1_0000_0000
    && forall k | 0 <= k < |rule.access| :: rule.access[k] in "rwm"
  }

  lemma CheckAccepts(rule: DeviceRule)
    ensures Check(rule).Success? <==> Accepted(rule)
  {
    KnownLetters(rule.access);
  }

  lemma EffectiveHere(rules: seq<DeviceRule>)
    requires |rules| > 0
    ensures HasFullWildcard(rules[1..]) ==> Effective(rules) == Effective(rules[1..])
    ensures !HasFullWildcard(rules[1..]) ==> Effective(rules) == rules && Effective(rules[1..]) == rules[1..]
  {
    if !HasFullWildcard(rules[1..]) && |rules| > 1 {
      hide FullWildcard;
      var later := rules[1..];
      assert forall k | 1 <= k < |later| :: later[k] == later[1..][k - 1];
    }
  }

  // The list compiles exactly when every rule from the last full wildcard on does: what comes before
  // it is not looked at.
  lemma {:induction false} BuildAccepts(rules: seq<DeviceRule>)
    ensures Build(rules).Success? <==> forall k | 0 <= k < |Effective(rules)| :: Accepted(Effective(rules)[k])
  {
    hide Check, Accepted, FullWildcard, HasFullWildcard, Effective;
    if |rules| == 0 {
      EffectiveNone(rules);
    } else {
      BuildAccepts(rules[1..]);
      EffectiveHere(rules);
      CheckAccepts(rules[0]);
      if Build(rules[1..]).Success? {
        KeptIsEffective(rules[1..]);
      }
      if !HasFullWildcard(rules[1..]) {
        assert forall k | 1 <= k < |rules| :: rules[k] == rules[1..][k - 1];
        assert forall k | 0 <= k < |rules[1..]| :: rules[1..][k] == rules[k + 1];
      }
    }
  }

  lemma EffectiveNone(rules: seq<DeviceRule>)
    requires |rules| == 0
    ensures Effective(rules) == []
  {
  }

  lemma ReadBackIsNormal(rule: DeviceRule)
    requires Check(rule).Success?
    ensures InRangeChecked(Check(rule).value) <==> InRange(rule)
    ensures InRange(rule) ==> ReadBack(Check(rule).value) == NormalRule(rule)
  {
    var c := Check(rule).value;
    AgainNumber(c.major);
    AgainNumber(c.minor);
    assert AccessString(c.mask) == NormalRule(rule).access by { MaskLetters(rule.access); }
    hide ReadBackNumber, AccessString;
  }

  lemma MaskLetters(access: string)
    ensures var mask := AccessMask(access);
            && (mask / ACC_READ % 2 == 1 <==> 'r' in access)
            && (mask / ACC_WRITE % 2 == 1 <==> 'w' in access)
            && (mask / ACC_MKNOD % 2 == 1 <==> 'm' in access)
  {
  }

  lemma KeptReadsBackNormal(rules: seq<DeviceRule>)
    requires Build(rules).Success?
    ensures AllInRange(Kept(rules)) <==> RulesInRange(rules)
    ensures RulesInRange(rules) ==> ReadBacks(Kept(rules)) == Normalise(rules)
  {
    hide Check, InRange, InRangeChecked, ReadBack, NormalRule, Effective, Kept, Build;
    KeptIsEffective(rules);
    var effective := Effective(rules);
    forall k | 0 <= k < |effective|
      ensures InRangeChecked(Kept(rules)[k]) <==> InRange(effective[k])
      ensures InRange(effective[k]) ==> ReadBack(Kept(rules)[k]) == NormalRule(effective[k])
    {
      ReadBackIsNormal(effective[k]);
    }
  }

  // The round trip: an emitted wrapper parses back to its nonce, its normalised rules and its
  // original, or is rejected because a number is 2^31 or more.
  lemma RoundTrip(hash: DigestFn, rules: seq<DeviceRule>, nonce: U64, original: seq<Byte>)
    requires IsOriginal(original) && Build(rules).Success? && Fits(Build(rules).value)
    ensures Emit(hash, rules, nonce, original).Success?
    ensures Parse(hash, Emit(hash, rules, nonce, original).value)
         == if RulesInRange(rules) then Success(Some(OwnedProgram(nonce, Normalise(rules), original)))
            else Failure(Conflicts(Regenerated(None)))
  {
    ParseEmitted(hash, rules, nonce, original);
    KeptReadsBackNormal(rules);
    hide Emit, Parse, IsOriginal, Build, Kept, AllInRange, RulesInRange, Normalise, Fits;
  }

  // Two wrappers have the same bytes exactly when nonce, normalised rules and original agree.
  lemma SameBytes(hash: DigestFn, rules: seq<DeviceRule>, nonce: U64, original: seq<Byte>,
                  rules': seq<DeviceRule>, nonce': U64, original': seq<Byte>)
    requires IsOriginal(original) && Build(rules).Success? && Fits(Build(rules).value) && RulesInRange(rules)
    requires IsOriginal(original') && Build(rules').Success? && Fits(Build(rules').value) && RulesInRange(rules')
    ensures Emit(hash, rules, nonce, original) == Emit(hash, rules', nonce', original')
       <==> nonce == nonce' && original == original' && Normalise(rules) == Normalise(rules')
  {
    hide Emit, Parse, IsOriginal, Build, Kept, AllInRange, RulesInRange, Normalise, Fits, ReadBacks;
    RoundTrip(hash, rules, nonce, original);
    RoundTrip(hash, rules', nonce', original');
    KeptReadsBackNormal(rules);
    KeptReadsBackNormal(rules');
    RegeneratedBytes(hash, rules, nonce, original);
    RegeneratedBytes(hash, rules', nonce', original');
  }

  // --- Stacked wrappers ---------------------------------------------------------------------------

  lemma EncodeLength(i: Instruction)
    requires Encode(i).Success?
    ensures |Encode(i).value| >= INSTRUCTION_SIZE
  {
    hide WireForm;
  }

  lemma {:induction false} EncodeSplit(a: seq<Instruction>, b: seq<Instruction>, index: nat)
    requires EncodeAt(a + b, index).Success?
    ensures EncodeAt(b, index + |a|).Success?
    ensures |EncodeAt(a + b, index).value| >= INSTRUCTION_SIZE * |a| + |EncodeAt(b, index + |a|).value|
    decreases |a|
  {
    hide Encode;
    if |a| == 0 {
      assert a + b == b;
    } else {
      assert (a + b)[0] == a[0] && (a + b)[1..] == a[1..] + b;
      EncodeLength(a[0]);
      EncodeSplit(a[1..], b, index + 1);
    }
  }

  lemma EmitLonger(hash: DigestFn, rules: seq<DeviceRule>, nonce: U64, original: seq<Byte>)
    requires Emit(hash, rules, nonce, original).Success?
    ensures |original| < |Emit(hash, rules, nonce, original).value|
  {
    hide Prefix, EncodeAt, DecodeAt, Build;
    var prefix := Prefix(Build(rules).value, nonce, hash(original));
    var instructions := DecodeAll(original).value;
    PrefixLength(Build(rules).value, nonce, hash(original));
    EncodeSplit(prefix, instructions, 0);
    ReencodeAll(original, 0, |prefix|);
  }

  lemma ValidatedIsEmitted(hash: DigestFn, raw: seq<Byte>)
    requires Parse(hash, raw).Success? && Parse(hash, raw).value.Some?
    ensures var owned := Parse(hash, raw).value.value;
            Emit(hash, owned.rules, owned.nonce, owned.original) == Success(raw)
  {
    hide Emit, ReadBlocks, EncodeAll, DecodeAll, MarkerValues, MarksFields;
  }

  // A program is the daemon's own, with these parts, exactly when emission makes it of them and the
  // rules are normal with numbers below 2^31.
  lemma ParsesExactly(hash: DigestFn, raw: seq<Byte>, owned: OwnedProgram)
    requires IsOriginal(owned.original) && Build(owned.rules).Success? && Fits(Build(owned.rules).value)
    ensures Parse(hash, raw) == Success(Some(owned))
       <==> && Emit(hash, owned.rules, owned.nonce, owned.original) == Success(raw)
            && RulesInRange(owned.rules) && Normalise(owned.rules) == owned.rules
  {
    hide Emit, Parse, IsOriginal, Build, RulesInRange, Normalise, Fits;
    RoundTrip(hash, owned.rules, owned.nonce, owned.original);
    if Parse(hash, raw) == Success(Some(owned)) {
      ValidatedIsEmitted(hash, raw);
    }
  }

  // A validated wrapper is longer than the original in it, so stripping ends.
  lemma ParseShorter(hash: DigestFn, raw: seq<Byte>)
    requires Parse(hash, raw).Success? && Parse(hash, raw).value.Some?
    ensures |Parse(hash, raw).value.value.original| < |raw|
  {
    hide Parse, Emit;
    ValidatedIsEmitted(hash, raw);
    var owned := Parse(hash, raw).value.value;
    EmitLonger(hash, owned.rules, owned.nonce, owned.original);
  }

  // The original underneath a stack of wrappers; a bare program is its own.
  function Innermost(hash: DigestFn, raw: seq<Byte>): Result<seq<Byte>, OwnedError>
    decreases |raw|
  {
    hide Parse;
    match Parse(hash, raw)
    case Failure(error) => Failure(error)
    case Success(None) => Success(raw)
    case Success(Some(owned)) =>
      ParseShorter(hash, raw);
      Innermost(hash, owned.original)
  }

  function ParseInnermost(hash: DigestFn, raw: seq<Byte>): Result<Option<OwnedProgram>, OwnedError> {
    hide Parse;
    match Parse(hash, raw)
    case Failure(error) => Failure(error)
    case Success(None) => Success(None)
    case Success(Some(owned)) =>
      match Innermost(hash, owned.original)
      case Failure(error) => Failure(error)
      case Success(original) => Success(Some(owned.(original := original)))
  }

  method ParseOwnedInnermost(hash: DigestFn, raw: seq<Byte>) returns (r: Result<Option<OwnedProgram>, OwnedError>)
    ensures r == ParseInnermost(hash, raw)
  {
    hide Parse;
    var first := Parse(hash, raw);
    if first.Failure? || first.value.None? {
      return first;
    }
    var owned := first.value.value;
    var inner := Parse(hash, owned.original);
    while inner.Success? && inner.value.Some?
      invariant inner == Parse(hash, owned.original)
      invariant Innermost(hash, first.value.value.original) == Innermost(hash, owned.original)
      invariant owned == first.value.value.(original := owned.original)
      decreases |owned.original|
    {
      ParseShorter(hash, owned.original);
      owned := owned.(original := inner.value.value.original);
      inner := Parse(hash, owned.original);
    }
    if inner.Failure? {
      return Failure(inner.error);
    }
    return Success(Some(owned));
  }

  // What is left after stripping is not a wrapper.
  lemma {:induction false} InnermostIsBare(hash: DigestFn, raw: seq<Byte>)
    requires Innermost(hash, raw).Success?
    ensures Parse(hash, Innermost(hash, raw).value) == Success(None)
    ensures Innermost(hash, Innermost(hash, raw).value) == Innermost(hash, raw)
    decreases |raw|
  {
    hide Parse;
    if Parse(hash, raw).value.Some? {
      ParseShorter(hash, raw);
      InnermostIsBare(hash, Parse(hash, raw).value.value.original);
    }
  }
}
