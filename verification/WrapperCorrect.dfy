/** What an emitted wrapper decides: the last rule that matches a request, else the original. */
module WrapperCorrect {
  import opened Wrappers
  import opened Words
  import opened Asm
  import opened DeviceFilter
  import opened Interp
  import opened FilterCorrect
  import opened Owned
  import opened OwnedRoundTrip
  import opened OwnedIdentity
  import opened Gate

  // --- The prefix ---------------------------------------------------------------------------------

  // Registers that differ at most in R0.
  predicate SameButR0(a: Registers, b: Registers) {
    forall r | 1 <= r < 11 :: a[r] == b[r]
  }

  // Markers are dead stores to R0.
  lemma {:induction false} MarkersRun(cpu: Machine, program: seq<Instruction>, q: DevRequest, fields: seq<U32>, at: nat, regs: Registers)
    returns (end: Registers)
    requires CodeAt(program, at, Markers(fields))
    ensures SameButR0(regs, end)
    ensures Iterate(cpu, program, q, At(at, regs), |fields|) == At(at + |fields|, end)
    decreases |fields|
  {
    hide StepOne;
    if |fields| == 0 {
      end := regs;
    } else {
      CodeIndex(program, at, Markers(fields), 0);
      var value := SignedI32(fields[0]);
      StepStore(cpu, q, value, at, regs);
      var next := regs[0 := Some(LowU32(value))];
      assert [Marker(fields[0])] + Markers(fields[1..]) == Markers(fields);
      SplitCode(program, at, [Marker(fields[0])], Markers(fields[1..]));
      end := MarkersRun(cpu, program, q, fields[1..], at + 1, next);
    }
  }

  lemma ContextWords(q: DevRequest)
    ensures Load(Context(q), 0, HALF) == Some(q.kind)
    ensures Load(Context(q), 0, WORD) == Some(q.access * 0x1_0000 + q.kind)
    ensures Load(Context(q), 4, WORD) == Some(q.major)
    ensures Load(Context(q), 8, WORD) == Some(q.minor)
  {
    var word := q.access * 0x1_0000 + q.kind;
    Word32OfBytes(word);
    Word32OfBytes(q.major);
    Word32OfBytes(q.minor);
    LowHalf(q.access, q.kind);
    var context := Context(q);
    assert context[0..4] == Bytes32(word) && context[4..8] == Bytes32(q.major) && context[8..12] == Bytes32(q.minor);
    hide Bytes32, Word32;
    assert forall k | 0 <= k < 4 :: context[k] == Bytes32(word)[k];
    assert context[4] == Bytes32(q.major)[0] && context[5] == Bytes32(q.major)[1];
    assert context[6] == Bytes32(q.major)[2] && context[7] == Bytes32(q.major)[3];
    assert context[8] == Bytes32(q.minor)[0] && context[9] == Bytes32(q.minor)[1];
    assert context[10] == Bytes32(q.minor)[2] && context[11] == Bytes32(q.minor)[3];
  }

  lemma LowHalf(high: U16, low: U16)
    ensures var b := Bytes32(high * 0x1_0000 + low); Word16(b[0], b[1]) == low
  {
    var word := high * 0x1_0000 + low;
    assert word == low % 0x100 + 0x100 * (low / 0x100 + 0x100 * high);
    SplitByte(low % 0x100, low / 0x100 + 0x100 * high);
    SplitByte(low / 0x100, high);
  }

  lemma StepLoads(cpu: Machine, q: DevRequest, dst: Register, offset: I16, size: U32, at: nat, regs: Registers)
    requires dst < 11 && (size == WORD || size == HALF) && Load(Context(q), offset, size).Some?
    ensures StepOne(cpu, LoadMem(dst, R1, offset, size), q, at, regs) == At(at + 1, regs[dst := Load(Context(q), offset, size)])
  {
    hide Load, Context;
  }

  lemma StepAccess(cpu: Machine, q: DevRequest, at: nat, regs: Registers)
    requires regs[3] == Some(q.access * 0x1_0000 + q.kind)
    ensures StepOne(cpu, Alu32Imm(RSH, R3, 16), q, at, regs) == At(at + 1, regs[3 := Some(q.access)])
  {
    hide BitAnd, BitOr, ShiftLeft, ShiftRight;
    AccessHalf(q.access, q.kind);
    assert UnsignedI64(16) == 16;
  }

  lemma AccessHalf(high: U16, low: U16)
    ensures var word := high * 0x1_0000 + low;
            ShiftRight(word, 16) == high && word < 0x1_0000_0000
  {
    var word := high * 0x1_0000 + low;
    ShiftBy16(word);
    hide ShiftRight;
  }

  lemma ShiftBy16(x: nat)
    ensures ShiftRight(x, 16) == x / 0x1_0000
  {
    ShiftOnce(x, 8);
    ShiftOnce(x / 0x100, 8);
    assert x / 0x100 / 0x100 == x / 0x1_0000;
    ShiftSplit(x, 8, 8);
  }

  lemma ShiftOnce(x: nat, by8: nat)
    requires by8 == 8
    ensures ShiftRight(x, by8) == x / 0x100
  {
    assert ShiftRight(x, 8) == ShiftRight(x / 2 / 2 / 2 / 2, 4);
    assert ShiftRight(x / 2 / 2 / 2 / 2, 4) == x / 2 / 2 / 2 / 2 / 2 / 2 / 2 / 2;
  }

  lemma {:induction false} ShiftSplit(x: nat, a: nat, b: nat)
    ensures ShiftRight(x, a + b) == ShiftRight(ShiftRight(x, a), b)
    decreases a
  {
    if a > 0 {
      ShiftSplit(x / 2, a - 1, b);
    }
  }

  // The context loads put type, access, major and minor in R2 to R5.
  lemma InitRuns(cpu: Machine, program: seq<Instruction>, q: DevRequest, at: nat, regs: Registers)
    requires CodeAt(program, at, Init()) && regs[1] == Some(0)
    ensures Reaches(cpu, program, q, at, regs, at + 5, 5)
  {
    hide StepOne, Load, Context;
    var init := Init();
    CodeIndex(program, at, init, 0);
    CodeIndex(program, at, init, 1);
    CodeIndex(program, at, init, 2);
    CodeIndex(program, at, init, 3);
    CodeIndex(program, at, init, 4);
    ContextWords(q);
    var word := q.access * 0x1_0000 + q.kind;
    var r1: Registers := regs[2 := Some(q.kind)];
    var r2: Registers := r1[3 := Some(word)];
    var r3: Registers := r2[3 := Some(q.access)];
    var r4: Registers := r3[4 := Some(q.major)];
    var r5: Registers := r4[5 := Some(q.minor)];
    StepLoads(cpu, q, R2, 0, HALF, at, regs);
    StepLoads(cpu, q, R3, 0, WORD, at + 1, r1);
    StepAccess(cpu, q, at + 2, r2);
    StepLoads(cpu, q, R4, 4, WORD, at + 3, r3);
    StepLoads(cpu, q, R5, 8, WORD, at + 4, r4);
    IterateFive(cpu, program, q, at, regs, r1, r2, r3, r4, r5);
    assert Loaded(r5, q);
    assert Iterate(cpu, program, q, At(at, regs), 5) == At(at + 5, r5);
  }

  lemma IterateFive(cpu: Machine, program: seq<Instruction>, q: DevRequest, at: nat, regs: Registers,
                    r1: Registers, r2: Registers, r3: Registers, r4: Registers, r5: Registers)
    requires Step(cpu, program, q, At(at, regs)) == At(at + 1, r1)
    requires Step(cpu, program, q, At(at + 1, r1)) == At(at + 2, r2)
    requires Step(cpu, program, q, At(at + 2, r2)) == At(at + 3, r3)
    requires Step(cpu, program, q, At(at + 3, r3)) == At(at + 4, r4)
    requires Step(cpu, program, q, At(at + 4, r4)) == At(at + 5, r5)
    ensures Iterate(cpu, program, q, At(at, regs), 5) == At(at + 5, r5)
  {
    hide Step;
    assert Iterate(cpu, program, q, At(at + 4, r4), 1) == At(at + 5, r5);
    assert Iterate(cpu, program, q, At(at + 3, r3), 2) == At(at + 5, r5);
    assert Iterate(cpu, program, q, At(at + 2, r2), 3) == At(at + 5, r5);
    assert Iterate(cpu, program, q, At(at + 1, r1), 4) == At(at + 5, r5);
  }

  // From any registers with the context pointer in R1, the wrapper returns the verdict of the last
  // rule that matches, or gets to the original with R1 intact.
  lemma PrefixRuns(cpu: Machine, rules: seq<DeviceRule>, nonce: U64, digest: Digest, original: seq<Instruction>, q: DevRequest, regs: Registers)
    requires Build(rules).Success? && regs[1] == Some(0)
    ensures var b := Build(rules).value;
            var program, length := Wrapper(b, nonce, digest, original), |Prefix(b, nonce, digest)|;
            match LastMatch(rules, q)
            case Some(rule) => Returns(cpu, program, q, 0, regs, length, VerdictValue(rule.allow))
            case None => Reaches(cpu, program, q, 0, regs, length, length)
  {
    hide Iterate, Loaded, Init, Build, ResolveAll, Markers, LastMatch, CodeAt, Reaches, Returns, HeaderFields, TrailerFields;
    var b := Build(rules).value;
    var fields, trailerFields := HeaderFields(nonce, digest, BlockLen(b)), TrailerFields(nonce);
    var header, code, trailer := Markers(fields), ResolveAll(b.blocks), Markers(trailerFields);
    var program := Wrapper(b, nonce, digest, original);
    WrapperCode(header, Init(), code, trailer, original, program);
    var loadedAt, end := HEADER_LEN + INIT_LEN, HEADER_LEN + INIT_LEN + |code|;
    HeaderAndInit(cpu, program, q, fields, regs);
    forall regs': Registers | Loaded(regs', q)
      ensures match LastMatch(rules, q)
              case Some(rule) => Returns(cpu, program, q, loadedAt, regs', |code|, VerdictValue(rule.allow))
              case None => Reaches(cpu, program, q, loadedAt, regs', end, |code|)
    {
      BlocksRun(cpu, program, q, rules, loadedAt, regs');
    }
    match LastMatch(rules, q)
    case Some(rule) =>
      ReachReturn(cpu, program, q, 0, regs, loadedAt, loadedAt, |code|, VerdictValue(rule.allow));
      ReturnsWithin(cpu, program, q, 0, regs, end, end + TRAILER_LEN, VerdictValue(rule.allow));
    case None =>
      ReachOn(cpu, program, q, 0, regs, loadedAt, end, loadedAt, |code|);
      forall regs': Registers | Loaded(regs', q)
        ensures Reaches(cpu, program, q, end, regs', end + TRAILER_LEN, TRAILER_LEN)
      {
        TrailerRuns(cpu, program, q, trailerFields, end, regs');
      }
      ReachOn(cpu, program, q, 0, regs, end, end + TRAILER_LEN, end, TRAILER_LEN);
  }

  lemma WrapperCode(header: seq<Instruction>, init: seq<Instruction>, code: seq<Instruction>,
                    trailer: seq<Instruction>, original: seq<Instruction>, program: seq<Instruction>)
    requires program == header + init + code + trailer + original
    ensures CodeAt(program, 0, header) && CodeAt(program, |header|, init)
    ensures CodeAt(program, |header| + |init|, code) && CodeAt(program, |header| + |init| + |code|, trailer)
  {
  }

  lemma RunOn(cpu: Machine, program: seq<Instruction>, q: DevRequest, at: nat, regs: Registers, via: nat, middle: Registers, to: nat, m: nat, n: nat)
    requires Iterate(cpu, program, q, At(at, regs), m) == At(via, middle) && Reaches(cpu, program, q, via, middle, to, n)
    ensures Reaches(cpu, program, q, at, regs, to, m + n)
  {
    hide Iterate, Loaded;
    var k: nat, end: Registers :| k <= n && Loaded(end, q) && Iterate(cpu, program, q, At(via, middle), k) == At(to, end);
    IterateAdds(cpu, program, q, At(at, regs), m, k);
    assert m + k <= m + n;
  }

  lemma HeaderAndInit(cpu: Machine, program: seq<Instruction>, q: DevRequest, fields: seq<U32>, regs: Registers)
    requires CodeAt(program, 0, Markers(fields)) && CodeAt(program, |fields|, Init()) && regs[1] == Some(0)
    ensures Reaches(cpu, program, q, 0, regs, |fields| + 5, |fields| + 5)
  {
    hide Iterate, Loaded, Init, Markers, CodeAt, Reaches;
    var after := MarkersRun(cpu, program, q, fields, 0, regs);
    InitRuns(cpu, program, q, |fields|, after);
    RunOn(cpu, program, q, 0, regs, |fields|, after, |fields| + 5, |fields|, 5);
  }

  lemma TrailerRuns(cpu: Machine, program: seq<Instruction>, q: DevRequest, fields: seq<U32>, at: nat, regs: Registers)
    requires CodeAt(program, at, Markers(fields)) && Loaded(regs, q)
    ensures Reaches(cpu, program, q, at, regs, at + |fields|, |fields|)
  {
    hide Iterate, Markers, CodeAt;
    var end := MarkersRun(cpu, program, q, fields, at, regs);
    assert Loaded(end, q);
  }

  // --- Compiler correctness -------------------------------------------------------------------------

  lemma BeforeDone(cpu: Machine, program: seq<Instruction>, q: DevRequest, c: Config, m: nat, n: nat)
    requires m <= n && Iterate(cpu, program, q, c, m).Done?
    ensures Iterate(cpu, program, q, c, n) == Iterate(cpu, program, q, c, m)
  {
    IterateAdds(cpu, program, q, c, m, n - m);
    DoneStays(cpu, program, q, Iterate(cpu, program, q, c, m).outcome, n - m);
  }

  lemma LoadedExtendsEntry(regs: Registers, q: DevRequest)
    requires Loaded(regs, q)
    ensures Extends(EntryRegs(), regs)
  {
  }

  // For every expressible rule list, every original whose branches stay inside it and which reads
  // only registers it has written, and every request: the wrapper returns the verdict of the last
  // rule that matches, else exactly what the original returns.
  lemma CompilerCorrect(cpu: Machine, rules: seq<DeviceRule>, nonce: U64, digest: Digest, original: seq<Instruction>, q: DevRequest, v: U64)
    requires Build(rules).Success? && BranchesInside(original) && ReadsOnlyWritten(cpu, original, q)
    ensures Decides(cpu, Wrapper(Build(rules).value, nonce, digest, original), q, v)
       <==> match LastMatch(rules, q)
            case Some(rule) => v == VerdictValue(rule.allow)
            case None => Decides(cpu, original, q, v)
  {
    hide Build, LastMatch, Prefix, Iterate, Loaded, BranchesInside, Extends;
    var prefix := Prefix(Build(rules).value, nonce, digest);
    var program := prefix + original;
    var entry := At(0, EntryRegs());
    PrefixRuns(cpu, rules, nonce, digest, original, q, EntryRegs());
    match LastMatch(rules, q)
    case Some(rule) =>
      assert Decides(cpu, program, q, VerdictValue(rule.allow));
      if Decides(cpu, program, q, v) {
        DecidesOnce(cpu, program, q, v, VerdictValue(rule.allow));
      }
    case None =>
      var k: nat, regs: Registers :| Loaded(regs, q) && Iterate(cpu, program, q, entry, k) == At(|prefix|, regs);
      LoadedExtendsEntry(regs, q);
      if Decides(cpu, original, q, v) {
        var n: nat :| Iterate(cpu, original, q, entry, n) == Done(Verdict(v));
        BehindPrefix(cpu, prefix, original, q, k, regs, n);
      }
      if Decides(cpu, program, q, v) {
        var m: nat :| Iterate(cpu, program, q, entry, m) == Done(Verdict(v));
        if m <= k {
          BeforeDone(cpu, program, q, entry, m, k);
        }
        BehindPrefix(cpu, prefix, original, q, k, regs, m - k);
      }
  }

  // Once the prefix is behind it, the original runs as it does alone.
  lemma BehindPrefix(cpu: Machine, prefix: seq<Instruction>, original: seq<Instruction>, q: DevRequest, k: nat, regs: Registers, n: nat)
    requires BranchesInside(original) && Extends(EntryRegs(), regs)
    requires Iterate(cpu, prefix + original, q, At(0, EntryRegs()), k) == At(|prefix|, regs)
    ensures Simulates(Iterate(cpu, original, q, At(0, EntryRegs()), n),
                      Iterate(cpu, prefix + original, q, At(0, EntryRegs()), k + n), |prefix|)
  {
    hide Iterate, BranchesInside;
    IterateAdds(cpu, prefix + original, q, At(0, EntryRegs()), k, n);
    Relocated(cpu, prefix, original, q, At(0, EntryRegs()), At(|prefix|, regs), n);
  }

  // A wrapper around such an original reads only what it has written too.
  lemma WrapperReadsOnlyWritten(cpu: Machine, rules: seq<DeviceRule>, nonce: U64, digest: Digest, original: seq<Instruction>, q: DevRequest)
    requires Build(rules).Success? && BranchesInside(original) && ReadsOnlyWritten(cpu, original, q)
    ensures ReadsOnlyWritten(cpu, Wrapper(Build(rules).value, nonce, digest, original), q)
  {
    hide Build, LastMatch, Prefix, Iterate, Loaded, BranchesInside, Extends;
    var prefix := Prefix(Build(rules).value, nonce, digest);
    var program := prefix + original;
    var entry := At(0, EntryRegs());
    PrefixRuns(cpu, rules, nonce, digest, original, q, EntryRegs());
    forall n: nat
      ensures Iterate(cpu, program, q, entry, n) != Done(Fault(UnsetRead))
    {
      match LastMatch(rules, q)
      case Some(rule) =>
        var k: nat :| Iterate(cpu, program, q, entry, k) == Done(Verdict(VerdictValue(rule.allow)));
        if k <= n {
          BeforeDone(cpu, program, q, entry, k, n);
        } else if Iterate(cpu, program, q, entry, n).Done? {
          BeforeDone(cpu, program, q, entry, n, k);
        }
      case None =>
        var k: nat, regs: Registers :| Loaded(regs, q) && Iterate(cpu, program, q, entry, k) == At(|prefix|, regs);
        LoadedExtendsEntry(regs, q);
        if n <= k {
          if Iterate(cpu, program, q, entry, n).Done? {
            BeforeDone(cpu, program, q, entry, n, k);
          }
        } else {
          BehindPrefix(cpu, prefix, original, q, k, regs, n - k);
        }
    }
  }

  // --- In the rules' own terms ------------------------------------------------------------------------

  // The last rule of the list that matches, by what the rules mean.
  ghost function LastMeant(rules: seq<DeviceRule>, q: DevRequest): Option<DeviceRule> {
    if |rules| == 0 then None
    else
      var later := LastMeant(rules[1..], q);
      if later.Some? then later else if Matches(rules[0], q) then Some(rules[0]) else None
  }

  lemma {:induction false} WildcardMeant(rules: seq<DeviceRule>, q: DevRequest)
    requires HasFullWildcard(rules)
    ensures LastMeant(rules, q).Some?
  {
    if !FullWildcard(rules[0]) {
      var k :| 0 <= k < |rules| && FullWildcard(rules[k]);
      assert FullWildcard(rules[1..][k - 1]);
      WildcardMeant(rules[1..], q);
    }
  }

  // With every effective number below 2^31, the compiled rules are the rules: those before the last
  // full wildcard make no difference.
  lemma {:induction false} CompiledIsMeant(rules: seq<DeviceRule>, q: DevRequest)
    requires Build(rules).Success? && RulesInRange(rules)
    ensures LastMatch(rules, q) == LastMeant(rules, q)
  {
    hide Check, Matches, BlockMatches, FullWildcard, InRange;
    if |rules| > 0 {
      KeptIsEffective(rules[1..]);
      if HasFullWildcard(rules[1..]) {
        assert Effective(rules) == Effective(rules[1..]);
        CompiledIsMeant(rules[1..], q);
        WildcardMeant(rules[1..], q);
      } else {
        NoWildcardEffective(rules[1..]);
        assert forall k | 0 <= k < |rules[1..]| :: rules[1..][k] == Effective(rules)[k + 1];
        CompiledIsMeant(rules[1..], q);
        assert Effective(rules)[0] == rules[0] && InRange(rules[0]);
        BlockMeansRule(rules[0]);
      }
    }
  }

  lemma NoWildcardEffective(rules: seq<DeviceRule>)
    requires !HasFullWildcard(rules)
    ensures Effective(rules) == rules
  {
  }

  // --- On bytes -----------------------------------------------------------------------------------------

  // The program `raw` lets the request through.
  ghost predicate Allows(cpu: Machine, raw: seq<Byte>, q: DevRequest) {
    DecodeAll(raw).Success? && exists v: U64 :: v != 0 && Decides(cpu, DecodeAll(raw).value, q, v)
  }

  // What the gate and the kernel's verifier guarantee of an original.
  ghost predicate Trusted(cpu: Machine, original: seq<Byte>) {
    && IsOriginal(original)
    && DecodeAll(original).Success?
    && Reloadable(DecodeAll(original).value)
    && forall q :: ReadsOnlyWritten(cpu, DecodeAll(original).value, q)
  }

  // The emitted bytes let a request through when the last rule that matches it allows it, and
  // when no rule matches exactly when the original does.
  lemma WrapperAllows(cpu: Machine, hash: DigestFn, rules: seq<DeviceRule>, nonce: U64, original: seq<Byte>, q: DevRequest)
    requires Build(rules).Success? && Trusted(cpu, original)
    ensures Emit(hash, rules, nonce, original).Success?
    ensures Allows(cpu, Emit(hash, rules, nonce, original).value, q)
       <==> match LastMatch(rules, q)
            case Some(rule) => rule.allow
            case None => Allows(cpu, original, q)
  {
    hide Build, LastMatch, Emit, Wrapper, IsOriginal, Decides, ReadsOnlyWritten, DecodeAll;
    EmitDecodes(hash, rules, nonce, original);
    var instructions := DecodeAll(original).value;
    var program := Wrapper(Build(rules).value, nonce, hash(original), instructions);
    forall v: U64
      ensures Decides(cpu, program, q, v)
         <==> match LastMatch(rules, q)
              case Some(rule) => v == VerdictValue(rule.allow)
              case None => Decides(cpu, instructions, q, v)
    {
      CompilerCorrect(cpu, rules, nonce, hash(original), instructions, q, v);
    }
    if LastMatch(rules, q).Some? {
      assert Decides(cpu, program, q, VerdictValue(LastMatch(rules, q).value.allow));
    }
  }

  // Wrapping keeps a program what the gate and the verifier guarantee.
  lemma WrapperTrusted(cpu: Machine, hash: DigestFn, rules: seq<DeviceRule>, nonce: U64, original: seq<Byte>)
    requires Build(rules).Success? && Trusted(cpu, original)
    ensures Emit(hash, rules, nonce, original).Success?
    ensures Trusted(cpu, Emit(hash, rules, nonce, original).value)
  {
    hide Build, Reloadable, ReadsOnlyWritten, CheckGate;
    EmitDecodes(hash, rules, nonce, original);
    var instructions := DecodeAll(original).value;
    var program := Wrapper(Build(rules).value, nonce, hash(original), instructions);
    var raw := Emit(hash, rules, nonce, original).value;
    EmittedCanonical(hash, rules, nonce, original);
    GateMeans(instructions, ProgMeta(true, 0));
    GateClosed(rules, nonce, hash(original), instructions, ProgMeta(true, 0));
    GateMeans(program, ProgMeta(true, 0));
    forall q
      ensures ReadsOnlyWritten(cpu, program, q)
    {
      ReloadableBranches(instructions);
      WrapperReadsOnlyWritten(cpu, rules, nonce, hash(original), instructions, q);
    }
  }

  lemma ReloadableBranches(program: seq<Instruction>)
    requires Reloadable(program)
    ensures BranchesInside(program)
  {
  }

  lemma EmittedCanonical(hash: DigestFn, rules: seq<DeviceRule>, nonce: U64, original: seq<Byte>)
    requires IsOriginal(original) && Build(rules).Success?
    ensures Emit(hash, rules, nonce, original).Success?
    ensures IsOriginal(Emit(hash, rules, nonce, original).value)
  {
    EmitDecodes(hash, rules, nonce, original);
    EmitLonger(hash, rules, nonce, original);
    hide Build, DecodeAt, EncodeAt, Prefix;
  }

  // --- The bounded interpreter ------------------------------------------------------------------------

  // Started with zeroed registers and stopped after ten steps per instruction, the interpreter
  // finds the same verdicts wherever it finds one for the original.
  lemma BoundedAgrees(rules: seq<DeviceRule>, nonce: U64, digest: Digest, original: seq<Instruction>, q: DevRequest, v: U64)
    requires Build(rules).Success? && BranchesInside(original) && ReadsOnlyWritten(REFERENCE, original, q)
    requires LastMatch(rules, q).None? ==> RunBounded(original, q) == Verdict(v)
    ensures RunBounded(Wrapper(Build(rules).value, nonce, digest, original), q)
         == match LastMatch(rules, q)
            case Some(rule) => Verdict(VerdictValue(rule.allow))
            case None => Verdict(v)
  {
    hide Build, LastMatch, Prefix, Iterate, Loaded, BranchesInside;
    var prefix := Prefix(Build(rules).value, nonce, digest);
    var program := prefix + original;
    var zero := At(0, ZeroRegs());
    PrefixRuns(REFERENCE, rules, nonce, digest, original, q, ZeroRegs());
    match LastMatch(rules, q)
    case Some(rule) =>
      var k: nat :| k <= |prefix| && Iterate(REFERENCE, program, q, zero, k) == Done(Verdict(VerdictValue(rule.allow)));
      BeforeDone(REFERENCE, program, q, zero, k, StepBound(program));
    case None =>
      var k: nat, regs: Registers :|
        k <= |prefix| && Loaded(regs, q) && Iterate(REFERENCE, program, q, zero, k) == At(|prefix|, regs);
      var n := StepBound(original);
      EntryAgrees(REFERENCE, original, q, n);
      LoadedExtendsEntry(regs, q);
      IterateAdds(REFERENCE, program, q, zero, k, n);
      Relocated(REFERENCE, prefix, original, q, At(0, EntryRegs()), At(|prefix|, regs), n);
      BeforeDone(REFERENCE, program, q, zero, k + n, StepBound(program));
  }

  // A program that reads only what it wrote does not notice what the other registers hold.
  lemma EntryAgrees(cpu: Machine, program: seq<Instruction>, q: DevRequest, n: nat)
    requires BranchesInside(program) && ReadsOnlyWritten(cpu, program, q)
    requires Iterate(cpu, program, q, At(0, ZeroRegs()), n).Done?
    ensures Iterate(cpu, program, q, At(0, EntryRegs()), n) == Iterate(cpu, program, q, At(0, ZeroRegs()), n)
  {
    hide Iterate, BranchesInside;
    assert [] + program == program;
    Relocated(cpu, [], program, q, At(0, EntryRegs()), At(0, ZeroRegs()), n);
  }
}
