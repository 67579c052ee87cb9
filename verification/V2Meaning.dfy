/** What the programs of a pass are: their canonical bytes, the originals they are built on, and the
    requests they let through. */
module V2Meaning {
  import opened Wrappers
  import opened Words
  import opened Asm
  import opened AsmCanonical
  import opened DeviceFilter
  import opened Interp
  import opened FilterCorrect
  import opened Owned
  import opened OwnedRoundTrip
  import opened OwnedIdentity
  import opened WrapperCorrect
  import opened V2Plan
  import opened V2Conservation
  import opened V2Pass

  // --- Canonical bytes decide the same --------------------------------------------------------------------

  lemma NormalSteps(cpu: Machine, i: Instruction, q: DevRequest, pc: int, regs: Registers)
    ensures StepOne(cpu, Normal(i), q, pc, regs) == StepOne(cpu, i, q, pc, regs)
  {
    hide Load, Context;
  }

  lemma {:induction false} NormalIterates(cpu: Machine, program: seq<Instruction>, q: DevRequest, c: Config, n: nat)
    ensures Iterate(cpu, NormalAll(program), q, c, n) == Iterate(cpu, program, q, c, n)
    decreases n
  {
    hide StepOne, Normal;
    if n > 0 {
      if c.At? && 0 <= c.pc < |program| {
        NormalSteps(cpu, program[c.pc], q, c.pc, c.regs);
      }
      NormalIterates(cpu, program, q, Interp.Step(cpu, program, q, c), n - 1);
    }
  }

  // Canonicalising a program does not change what it lets through.
  lemma CanonicalAllows(cpu: Machine, code: seq<Byte>, q: DevRequest)
    requires Canonical(code).Some?
    ensures Allows(cpu, Canonical(code).value, q) <==> Allows(cpu, code, q)
  {
    hide Canonical, Iterate, DecodeAt;
    CanonicalForm(code);
    var program := DecodeAll(code).value;
    forall v: U64
      ensures Decides(cpu, NormalAll(program), q, v) <==> Decides(cpu, program, q, v)
    {
      forall n: nat
        ensures Iterate(cpu, NormalAll(program), q, Config.At(0, EntryRegs()), n) == Iterate(cpu, program, q, Config.At(0, EntryRegs()), n)
      {
        NormalIterates(cpu, program, q, Config.At(0, EntryRegs()), n);
      }
    }
  }

  // --- Originals inside canonical programs ------------------------------------------------------------------

  // Bytes a reload leaves as they are.
  predicate Fixed(raw: seq<Byte>) {
    Canonical(raw) == Some(raw)
  }

  lemma SuffixFixed(raw: seq<Byte>, at: nat, original: seq<Byte>)
    requires IsOriginal(raw) && DecodeAll(raw).Success? && at < |DecodeAll(raw).value|
    requires EncodeAll(DecodeAll(raw).value[at..]) == Success(original)
    ensures IsOriginal(original)
  {
    OriginalStable(raw);
    var tail := DecodeAll(raw).value[at..];
    hide DecodeAt, Stable;
    forall k | 0 <= k < |tail|
      ensures Stable(tail[k])
    {
      assert tail[k] == DecodeAll(raw).value[at + k];
    }
    StableRoundTrip(tail, 0, 0);
    assert DecodeAll(original) == Success(tail) && original != [] by { DecodeNothing(original, tail); }
    hide EncodeAt;
  }

  lemma DecodeNothing(raw: seq<Byte>, instructions: seq<Instruction>)
    requires DecodeAt(raw, 0) == Success(instructions) && |instructions| > 0
    ensures DecodeAll(raw) == Success(instructions) && raw != []
  {
  }

  // The original inside a canonical wrapper is canonical itself.
  lemma ParsedFixed(hash: DigestFn, raw: seq<Byte>)
    requires IsOriginal(raw) && Parse(hash, raw).Success? && Parse(hash, raw).value.Some?
    ensures IsOriginal(Parse(hash, raw).value.value.original)
  {
    hide Emit, ReadBlocks, EncodeAll, DecodeAll, MarkerValues, MarksFields, IsOriginal;
    var instructions := DecodeAll(raw).value;
    var header := MarkerValues(instructions[..HEADER_LEN], 0).value;
    SuffixFixed(raw, header[9] + TRAILER_LEN, Parse(hash, raw).value.value.original);
  }

  lemma {:induction false} InnermostFixed(hash: DigestFn, raw: seq<Byte>)
    requires Fixed(raw) && Innermost(hash, raw).Success?
    ensures Fixed(Innermost(hash, raw).value) && (raw != [] ==> IsOriginal(Innermost(hash, raw).value))
    decreases |raw|
  {
    hide Parse, Canonical;
    if Parse(hash, raw).value.Some? {
      ParsedNonEmpty(hash, raw);
      ParsedFixed(hash, raw);
      ParseShorter(hash, raw);
      InnermostFixed(hash, Parse(hash, raw).value.value.original);
    }
  }

  lemma ParsedNonEmpty(hash: DigestFn, raw: seq<Byte>)
    requires Parse(hash, raw).Success? && Parse(hash, raw).value.Some?
    ensures raw != []
  {
    hide Validate;
  }

  // A runtime original: canonical and not a wrapper.
  predicate BareOriginal(hash: DigestFn, original: seq<Byte>) {
    Fixed(original) && Parse(hash, original) == Success(None)
  }

  // What classification says about an attached program.
  ghost predicate ClassifiedAs(hash: DigestFn, prog: Prog, a: AttachedProg) {
    && Canonical(prog.code) == Some(a.raw) && Fixed(a.raw)
    && Innermost(hash, a.raw) == Success(a.original) && BareOriginal(hash, a.original)
    && (if a.owned then Parse(hash, a.raw).Success? && Parse(hash, a.raw).value.Some? && a.nonce == Parse(hash, a.raw).value.value.nonce
        else Parse(hash, a.raw) == Success(None) && a.original == a.raw)
    && a.meta == prog.meta && (a.owned ==> GateOriginal(a.original, a.meta).Success?)
  }

  lemma ClassifyMeans(hash: DigestFn, index: nat, prog: Prog, a: AttachedProg)
    requires Classify(hash, index, prog) == Success(a)
    ensures ClassifiedAs(hash, prog, a)
  {
    hide Canonical, Parse, GateOriginal;
    CanonicalForm(prog.code);
    InnermostOfOwned(hash, a.raw);
    InnermostIsBare(hash, a.raw);
    InnermostFixed(hash, a.raw);
  }

  lemma InnermostOfOwned(hash: DigestFn, raw: seq<Byte>)
    ensures match ParseInnermost(hash, raw)
            case Failure(_) => Innermost(hash, raw).Failure?
            case Success(None) => Parse(hash, raw) == Success(None) && Innermost(hash, raw) == Success(raw)
            case Success(Some(owned)) =>
              && Innermost(hash, raw) == Success(owned.original)
              && Parse(hash, raw).Success? && Parse(hash, raw).value.Some? && Parse(hash, raw).value.value.nonce == owned.nonce
  {
    hide Parse;
  }

  // --- What moves end as ------------------------------------------------------------------------------------

  lemma TargetFixed(hash: DigestFn, rules: seq<DeviceRule>, lineage: CachedLineage)
    requires Fixed(lineage.original) && Target(hash, rules, lineage).Some?
    ensures Fixed(Target(hash, rules, lineage).value)
  {
    if |rules| > 0 {
      EmitNeeds(hash, rules, lineage.nonce, lineage.original);
      hide Emit, Canonical;
      EmittedCanonical(hash, rules, lineage.nonce, lineage.original);
    }
  }

  lemma EmitNeeds(hash: DigestFn, rules: seq<DeviceRule>, nonce: U64, original: seq<Byte>)
    requires Emit(hash, rules, nonce, original).Success?
    ensures Build(rules).Success? && original != []
  {
    hide Build, EncodeAt, Prefix;
  }

  // A program loaded for a move has exactly the target's bytes.
  lemma LoadedBytes(hash: DigestFn, rules: seq<DeviceRule>, progs: seq<AttachedProg>, move: Move, p: Prog)
    requires MoveShape(hash, rules, progs, move) && Fixed(move.lineage.original) && LoadedOf(p, move)
    ensures Target(hash, rules, move.lineage) == Some(p.code) && Fixed(p.code)
  {
    hide Target, Canonical;
    TargetFixed(hash, rules, move.lineage);
  }

  // So has the result of a move.
  lemma ResultBytes(hash: DigestFn, rules: seq<DeviceRule>, attached: seq<Prog>, progs: seq<AttachedProg>, moves: seq<Move>, i: nat, p: Prog)
    requires Planned(hash, rules, attached, progs, moves) && i < |moves|
    requires Fixed(moves[i].lineage.original) && ResultOf(p, moves[i], attached)
    ensures Target(hash, rules, moves[i].lineage).Some? && Target(hash, rules, moves[i].lineage) == Canonical(p.code)
  {
    assert MoveShape(hash, rules, progs, moves[i]);
    if moves[i].Keep? {
      ClassifyMeans(hash, moves[i].kept, p, progs[moves[i].kept]);
    } else {
      LoadedBytes(hash, rules, progs, moves[i], p);
    }
    hide *;
  }

  // --- Built on an original ---------------------------------------------------------------------------------

  // A list of rules whose wrapper stays below 2^32 instructions.
  ghost predicate Compiles(rules: seq<DeviceRule>) {
    Build(rules).Success? && Fits(Build(rules).value)
  }

  // A program around `original`: stripped down to it, or emitted around it.
  ghost predicate BuiltOn(hash: DigestFn, p: Prog, original: seq<Byte>) {
    && Canonical(p.code).Some?
    && (|| Innermost(hash, Canonical(p.code).value) == Success(original)
        || exists rules: seq<DeviceRule>, nonce: U64 ::
             Compiles(rules) && Emit(hash, rules, nonce, original) == Success(Canonical(p.code).value))
  }

  lemma TargetBuiltOn(hash: DigestFn, rules: seq<DeviceRule>, lineage: CachedLineage, p: Prog)
    requires BareOriginal(hash, lineage.original) && Target(hash, rules, lineage).Some?
    requires Target(hash, rules, lineage) == Canonical(p.code)
    requires Build(rules).Success? ==> Compiles(rules)
    ensures BuiltOn(hash, p, lineage.original)
  {
    if |rules| > 0 {
      EmitNeeds(hash, rules, lineage.nonce, lineage.original);
      hide Emit, Canonical, Innermost, Compiles;
    } else {
      hide Parse, Canonical;
    }
  }

  // Classifying a program built on an original finds that original, or fails.
  lemma BuiltOnFound(hash: DigestFn, p: Prog, original: seq<Byte>, a: AttachedProg)
    requires BuiltOn(hash, p, original) && BareOriginal(hash, original) && ClassifiedAs(hash, p, a)
    ensures a.original == original
  {
    if Innermost(hash, a.raw) != Success(original) {
      var rules: seq<DeviceRule>, nonce: U64 :| Compiles(rules) && Emit(hash, rules, nonce, original) == Success(a.raw);
      EmitNeeds(hash, rules, nonce, original);
      RoundTrip(hash, rules, nonce, original);
      hide Emit, Parse, Canonical, Build, RulesInRange, Normalise;
      InnermostStep(hash, a.raw);
      InnermostStep(hash, original);
    }
  }

  lemma InnermostStep(hash: DigestFn, raw: seq<Byte>)
    ensures Innermost(hash, raw) == match Parse(hash, raw)
                                    case Failure(error) => Failure(error)
                                    case Success(None) => Success(raw)
                                    case Success(Some(owned)) => Innermost(hash, owned.original)
  {
    hide Parse;
  }

  // --- What the programs let through --------------------------------------------------------------------------

  ghost predicate AllowOnly(rules: seq<DeviceRule>) {
    forall k | 0 <= k < |rules| :: rules[k].allow
  }

  lemma {:induction false} AllowOnlyMatch(rules: seq<DeviceRule>, q: DevRequest)
    requires AllowOnly(rules) && LastMatch(rules, q).Some?
    ensures LastMatch(rules, q).value.allow
  {
    hide BlockMatches;
    if |rules| > 0 {
      assert forall k | 0 <= k < |rules[1..]| :: rules[1..][k] == rules[k + 1];
      if LastMatch(rules[1..], q).Some? {
        AllowOnlyMatch(rules[1..], q);
      }
    }
  }

  // A stack of allow-only wrappers around an original the verifier accepted.
  ghost predicate AllowStack(cpu: Machine, hash: DigestFn, raw: seq<Byte>)
    decreases |raw|
  {
    hide Parse, Trusted;
    match Parse(hash, raw)
    case Failure(_) => false
    case Success(None) => Trusted(cpu, raw)
    case Success(Some(owned)) =>
      ParseShorter(hash, raw);
      AllowOnly(owned.rules) && AllowStack(cpu, hash, owned.original)
  }

  // Such a stack lets through at least what its original does.
  lemma {:induction false} StackWidens(cpu: Machine, hash: DigestFn, raw: seq<Byte>, q: DevRequest)
    requires AllowStack(cpu, hash, raw)
    ensures Innermost(hash, raw).Success? && Trusted(cpu, raw) && Trusted(cpu, Innermost(hash, raw).value)
    ensures Allows(cpu, Innermost(hash, raw).value, q) ==> Allows(cpu, raw, q)
    decreases |raw|
  {
    hide Parse, Trusted, Allows, Emit, Build, LastMatch;
    if Parse(hash, raw).value.Some? {
      var owned := Parse(hash, raw).value.value;
      ParseShorter(hash, raw);
      StackWidens(cpu, hash, owned.original, q);
      ValidatedIsEmitted(hash, raw);
      EmitNeeds(hash, owned.rules, owned.nonce, owned.original);
      WrapperTrusted(cpu, hash, owned.rules, owned.nonce, owned.original);
      WrapperAllows(cpu, hash, owned.rules, owned.nonce, owned.original, q);
      if LastMatch(owned.rules, q).Some? {
        AllowOnlyMatch(owned.rules, q);
      }
    }
  }

  // A target lets through what its rules grant and what its original does.
  lemma TargetAllows(cpu: Machine, hash: DigestFn, rules: seq<DeviceRule>, lineage: CachedLineage, q: DevRequest)
    requires AllowOnly(rules) && Trusted(cpu, lineage.original) && Target(hash, rules, lineage).Some?
    ensures Allows(cpu, Target(hash, rules, lineage).value, q) <==> LastMatch(rules, q).Some? || Allows(cpu, lineage.original, q)
  {
    hide Trusted, Allows, Emit, Build, LastMatch;
    if |rules| > 0 {
      EmitNeeds(hash, rules, lineage.nonce, lineage.original);
      WrapperAllows(cpu, hash, rules, lineage.nonce, lineage.original, q);
      if LastMatch(rules, q).Some? {
        AllowOnlyMatch(rules, q);
      }
    } else {
      NoRulesMatch(rules, q);
    }
  }

  lemma NoRulesMatch(rules: seq<DeviceRule>, q: DevRequest)
    requires |rules| == 0
    ensures LastMatch(rules, q).None?
  {
  }

  // The verdict of a cgroup: every attached program lets the request through.
  ghost predicate SetAllows(cpu: Machine, progs: seq<Prog>, q: DevRequest) {
    forall p | p in progs :: Allows(cpu, p.code, q)
  }

  // The verdict the pass is heading for: every lineage's target lets the request through.
  ghost predicate PlannedAllows(cpu: Machine, hash: DigestFn, rules: seq<DeviceRule>, moves: seq<Move>, q: DevRequest) {
    forall i | 0 <= i < |moves| :: Target(hash, rules, moves[i].lineage).Some? ==> Allows(cpu, Target(hash, rules, moves[i].lineage).value, q)
  }
}
