/** What the compiled rule blocks do: a request leaves through the block of the last rule that
    matches it, or runs past all of them. */
module FilterCorrect {
  import opened Wrappers
  import opened Words
  import opened Asm
  import opened DeviceFilter
  import opened Interp

  // The access letters let the request's access bits through: 1 is mknod, 2 is read and 4 is write, as
  // the kernel numbers them. All three letters let anything through.
  predicate LettersAllow(letters: string, access: U16) {
    || ('r' in letters && 'w' in letters && 'm' in letters)
    || (&& access < 8
        && (access % 2 == 1 ==> 'm' in letters)
        && (access / 2 % 2 == 1 ==> 'r' in letters)
        && (access / 4 % 2 == 1 ==> 'w' in letters))
  }

  // The kernel's device types: 1 is a block device and 2 a character device.
  predicate KindMatches(kind: string, asked: U16) {
    kind == "a" || (kind == "b" && asked == 1) || (kind == "c" && asked == 2)
  }

  // What a rule means: type, access containment (rwm allows any access), major and minor.
  predicate Matches(rule: DeviceRule, q: DevRequest) {
    && KindMatches(rule.kind, q.kind) && LettersAllow(rule.access, q.access)
    && NumberMatches(rule.major, q.major) && NumberMatches(rule.minor, q.minor)
  }

  predicate NumberMatches(number: Option<I64>, asked: U32) {
    number.Some? && (number.value < 0 || number.value == asked)
  }

  // The immediate of a comparison is a sign-extended 32-bit number, so a number with its top bit
  // set equals no 32-bit device number.
  predicate Comparable(number: Option<I64>) {
    number.Some? && number.value < 0x8000_0000
  }

  predicate InRange(rule: DeviceRule) {
    Comparable(rule.major) && Comparable(rule.minor)
  }

  // What a compiled rule matches.
  ghost predicate BlockMatches(c: Checked, q: DevRequest) {
    && (c.deviceType.None? || c.deviceType.value == q.kind)
    && (c.mask == ACC_ALL || BitsWithin(q.access, c.mask))
    && (c.major < 0 || (c.major < 0x8000_0000 && c.major == q.major))
    && (c.minor < 0 || (c.minor < 0x8000_0000 && c.minor == q.minor))
  }

  // The last rule whose block matches.
  ghost function LastMatch(rules: seq<DeviceRule>, q: DevRequest): Option<DeviceRule> {
    if |rules| == 0 then None
    else
      var later := LastMatch(rules[1..], q);
      if later.Some? then later
      else if Check(rules[0]).Success? && BlockMatches(Check(rules[0]).value, q) then Some(rules[0])
      else None
  }

  // Containment in a three-bit mask, bit by bit.
  lemma WithinThreeBits(access: U16, mask: AccessBits)
    ensures BitsWithin(access, mask)
       <==> && access < 8 && (access % 2 == 1 ==> mask % 2 == 1)
            && (access / 2 % 2 == 1 ==> mask / 2 % 2 == 1) && (access / 4 % 2 == 1 ==> mask / 4 % 2 == 1)
  {
    hide BitsWithin;
    HalvesWithin(access, mask);
    HalvesWithin(access / 2, mask / 2);
    HalvesWithin(access / 2 / 2, mask / 2 / 2);
    WithinZero(access / 2 / 2 / 2);
  }

  lemma WithinZero(a: nat)
    ensures BitsWithin(a, 0) <==> a == 0
  {
    if a > 0 {
      var i := HasBit(a);
      ZeroHasNoBit(i);
    } else {
      forall i: nat
        ensures !Bit(0, i)
      {
        ZeroHasNoBit(i);
      }
    }
  }

  // The mask of the letters is the containment the letters mean.
  lemma MaskMeansLetters(letters: string, access: U16)
    ensures (AccessMask(letters) == ACC_ALL || BitsWithin(access, AccessMask(letters))) <==> LettersAllow(letters, access)
  {
    hide BitsWithin;
    WithinThreeBits(access, AccessMask(letters));
  }

  // A valid rule compiles to what it means for every request exactly when its numbers fit in 31
  // bits.
  lemma BlockMeansRule(rule: DeviceRule)
    requires Check(rule).Success?
    ensures (forall q :: BlockMatches(Check(rule).value, q) <==> Matches(rule, q)) <==> InRange(rule)
  {
    hide BitsWithin, LettersAllow, AccessMask;
    forall q: DevRequest
      ensures (Check(rule).value.mask == ACC_ALL || BitsWithin(q.access, Check(rule).value.mask)) <==> LettersAllow(rule.access, q.access)
    {
      MaskMeansLetters(rule.access, q.access);
    }
    if !InRange(rule) {
      var major := if rule.major.value < 0 then 0 else rule.major.value;
      var minor := if rule.minor.value < 0 then 0 else rule.minor.value;
      var q := DevRequest(if rule.kind == "b" then 1 else 2, 0, major, minor);
      NothingAsked(rule.access);
      assert Matches(rule, q) && !BlockMatches(Check(rule).value, q);
    }
  }

  lemma NothingAsked(letters: string)
    ensures LettersAllow(letters, 0)
  {
  }

  // A compiled rule and a single kind of access: mknod needs the letter m, read r and write w; and with
  // the letter the other fields decide.
  lemma OneAccess(rule: DeviceRule, q: DevRequest)
    requires Check(rule).Success? && InRange(rule) && (q.access == 1 || q.access == 2 || q.access == 4)
    ensures BlockMatches(Check(rule).value, q)
       <==> && (if q.access == 1 then 'm' in rule.access else if q.access == 2 then 'r' in rule.access else 'w' in rule.access)
            && (rule.kind == "a" || (rule.kind == "b" && q.kind == 1) || (rule.kind == "c" && q.kind == 2))
            && (rule.major.value < 0 || rule.major.value == q.major) && (rule.minor.value < 0 || rule.minor.value == q.minor)
  {
    BlockMeansRule(rule);
    hide BlockMatches, Check;
  }

  // Such a rule is accepted and matches nothing: 2^31 is a device number no compiled rule admits.
  lemma LargeMajorNeverMatches(q: DevRequest)
    ensures var rule := DeviceRule(true, "c", Some(0x8000_0000), Some(0), "rwm");
            Check(rule).Success? && !BlockMatches(Check(rule).value, q)
            && Matches(rule, DevRequest(2, 2, 0x8000_0000, 0))
  {
    var rule := DeviceRule(true, "c", Some(0x8000_0000), Some(0), "rwm");
    assert FirstUnknown("rwm").None?;
    assert AccessMask("rwm") == ACC_ALL;
  }

  // --- Running a block -------------------------------------------------------------------------

  // The registers the blocks compare: type, access, major and minor, and the context pointer.
  predicate Loaded(regs: Registers, q: DevRequest) {
    && regs[1] == Some(0)
    && regs[2] == Some(q.kind) && regs[3] == Some(q.access)
    && regs[4] == Some(q.major) && regs[5] == Some(q.minor)
  }

  predicate CodeAt(program: seq<Instruction>, at: nat, code: seq<Instruction>) {
    at + |code| <= |program| && program[at..at + |code|] == code
  }

  // Part of a block, its jumps leaving to `after` slots past its end.
  function ResolvePart(part: seq<BlockStep>, after: nat): (r: seq<Instruction>)
    ensures |r| == |part|
  {
    if |part| == 0 then []
    else
      var i := part[0].instruction;
      [if part[0].toNextBlock then i.(offset := JumpOffset(|part| + after, 0)) else i]
      + ResolvePart(part[1..], after)
  }

  predicate SingleSlots(part: seq<BlockStep>) {
    forall k | 0 <= k < |part| :: part[k].instruction.Width() == 1
  }

  lemma {:induction false} SingleSlotWidth(part: seq<BlockStep>)
    requires SingleSlots(part)
    ensures BlockWidth(part) == |part|
  {
    if |part| > 0 {
      SingleSlotWidth(part[1..]);
    }
  }

  lemma {:induction false} ResolveIsPart(part: seq<BlockStep>)
    requires SingleSlots(part)
    ensures Resolve(part) == ResolvePart(part, 0)
  {
    if |part| > 0 {
      SingleSlotWidth(part);
      ResolveIsPart(part[1..]);
    }
  }

  lemma {:induction false} ResolveSplit(a: seq<BlockStep>, b: seq<BlockStep>, after: nat)
    ensures ResolvePart(a + b, after) == ResolvePart(a, |b| + after) + ResolvePart(b, after)
  {
    if |a| == 0 {
      assert a + b == b;
    } else {
      assert (a + b)[1..] == a[1..] + b;
      ResolveSplit(a[1..], b, after);
    }
  }

  lemma SplitCode(program: seq<Instruction>, at: nat, a: seq<Instruction>, b: seq<Instruction>)
    requires CodeAt(program, at, a + b)
    ensures CodeAt(program, at, a) && CodeAt(program, at + |a|, b)
  {
    var code := program[at..at + |a + b|];
    assert a == code[..|a|] && b == code[|a|..];
  }

  // Within `limit` steps the program gets to `to`, with the compared registers loaded.
  ghost predicate Reaches(cpu: Machine, program: seq<Instruction>, q: DevRequest, at: nat, regs: Registers, to: nat, limit: nat) {
    exists k: nat, regs': Registers ::
      k <= limit && Loaded(regs', q) && Iterate(cpu, program, q, At(at, regs), k) == At(to, regs')
  }

  // The program gets to the end of a part when its check holds, and `after` slots further otherwise.
  ghost predicate Passes(cpu: Machine, program: seq<Instruction>, q: DevRequest, at: nat, regs: Registers,
                         length: nat, after: nat, holds: bool) {
    Reaches(cpu, program, q, at, regs, at + length + (if holds then 0 else after), length)
  }

  lemma StepCompare(cpu: Machine, q: DevRequest, r: Register, value: I32, at: nat, after: nat, regs: Registers)
    requires R2 <= r <= R5 && regs[r].Some? && after <= 8
    ensures StepOne(cpu, JumpImm(JNE, r, value, JumpOffset(1 + after, 0)), q, at, regs)
         == At(at + 1 + (if regs[r].value == UnsignedI64(value) then 0 else after), regs)
  {
    assert JumpOffset(1 + after, 0) == after;
    hide UnsignedI64, JumpOffset;
  }

  // A comparison with an immediate, the one instruction of the type and number checks.
  lemma CompareRuns(cpu: Machine, program: seq<Instruction>, q: DevRequest, r: Register, value: I32, at: nat, after: nat, regs: Registers)
    requires after <= 8 && R2 <= r <= R5
    requires CodeAt(program, at, [JumpImm(JNE, r, value, JumpOffset(1 + after, 0))]) && Loaded(regs, q)
    ensures Passes(cpu, program, q, at, regs, 1, after, regs[r].value == UnsignedI64(value))
  {
    hide StepOne, JumpOffset;
    CodeIndex(program, at, [JumpImm(JNE, r, value, JumpOffset(1 + after, 0))], 0);
    StepCompare(cpu, q, r, value, at, after, regs);
    assert Iterate(cpu, program, q, At(at, regs), 1) == Step(cpu, program, q, At(at, regs));
  }

  lemma NothingRuns(cpu: Machine, program: seq<Instruction>, q: DevRequest, at: nat, after: nat, regs: Registers)
    requires Loaded(regs, q)
    ensures Passes(cpu, program, q, at, regs, 0, after, true)
  {
    assert Iterate(cpu, program, q, At(at, regs), 0) == At(at, regs);
  }

  lemma TypeRuns(cpu: Machine, program: seq<Instruction>, q: DevRequest, c: Checked, at: nat, after: nat, regs: Registers)
    requires after <= 8
    requires c.deviceType.Some? ==> DEV_BLOCK <= c.deviceType.value <= DEV_CHAR
    requires CodeAt(program, at, ResolvePart(TypePart(c), after)) && Loaded(regs, q)
    ensures Passes(cpu, program, q, at, regs, |TypePart(c)|, after, c.deviceType.None? || c.deviceType.value == q.kind)
  {
    if c.deviceType.None? {
      NothingRuns(cpu, program, q, at, after, regs);
    } else {
      CompareRuns(cpu, program, q, R2, c.deviceType.value, at, after, regs);
    }
  }

  predicate NumberHolds(number: I64, asked: U32) {
    number < 0 || (number < 0x8000_0000 && number == asked)
  }

  lemma CompareNumber(number: I64, asked: U32)
    requires 0 <= number <= U32_MAX
    ensures asked == UnsignedI64(LowI32(number)) <==> NumberHolds(number, asked)
  {
  }

  lemma MajorRuns(cpu: Machine, program: seq<Instruction>, q: DevRequest, c: Checked, at: nat, after: nat, regs: Registers)
    requires after <= 8 && c.major <= U32_MAX
    requires CodeAt(program, at, ResolvePart(MajorPart(c), after)) && Loaded(regs, q)
    ensures Passes(cpu, program, q, at, regs, |MajorPart(c)|, after, NumberHolds(c.major, q.major))
  {
    hide LowI32, UnsignedI64;
    if c.major < 0 {
      NothingRuns(cpu, program, q, at, after, regs);
    } else {
      CompareRuns(cpu, program, q, R4, LowI32(c.major), at, after, regs);
      CompareNumber(c.major, q.major);
    }
  }

  lemma MinorRuns(cpu: Machine, program: seq<Instruction>, q: DevRequest, c: Checked, at: nat, after: nat, regs: Registers)
    requires after <= 8 && c.minor <= U32_MAX
    requires CodeAt(program, at, ResolvePart(MinorPart(c), after)) && Loaded(regs, q)
    ensures Passes(cpu, program, q, at, regs, |MinorPart(c)|, after, NumberHolds(c.minor, q.minor))
  {
    hide LowI32, UnsignedI64;
    if c.minor < 0 {
      NothingRuns(cpu, program, q, at, after, regs);
    } else {
      CompareRuns(cpu, program, q, R5, LowI32(c.minor), at, after, regs);
      CompareNumber(c.minor, q.minor);
    }
  }

  lemma CodeIndex(program: seq<Instruction>, at: nat, code: seq<Instruction>, k: nat)
    requires CodeAt(program, at, code) && k < |code|
    ensures program[at + k] == code[k]
  {
    assert program[at..at + |code|][k] == program[at + k];
  }

  lemma StepMoveAccess(cpu: Machine, q: DevRequest, at: nat, regs: Registers)
    requires Loaded(regs, q)
    ensures StepOne(cpu, Alu32Reg(MOV, R6, R3), q, at, regs) == At(at + 1, regs[6 := Some(q.access)])
  {
  }

  lemma StepMaskAccess(cpu: Machine, q: DevRequest, mask: AccessBits, at: nat, regs: Registers)
    requires regs[6] == Some(q.access)
    ensures StepOne(cpu, Alu32Imm(AND, R6, mask), q, at, regs) == At(at + 1, regs[6 := Some(BitAnd(q.access, mask))])
  {
    hide BitAnd, BitOr, ShiftLeft, ShiftRight;
  }

  lemma StepCompareAccess(cpu: Machine, q: DevRequest, masked: U64, at: nat, after: nat, regs: Registers)
    requires regs[6] == Some(masked) && regs[3] == Some(q.access) && after <= 8
    ensures StepOne(cpu, JumpReg(JNE, R6, R3, JumpOffset(1 + after, 0)), q, at, regs)
         == At(at + 1 + (if masked == q.access then 0 else after), regs)
  {
    assert JumpOffset(1 + after, 0) == after;
    hide JumpOffset;
  }

  lemma AccessCode(c: Checked, after: nat)
    requires c.mask != ACC_ALL
    ensures ResolvePart(AccessPart(c), after)
         == [Alu32Reg(MOV, R6, R3), Alu32Imm(AND, R6, c.mask), JumpReg(JNE, R6, R3, JumpOffset(1 + after, 0))]
  {
    hide JumpOffset;
    var part := AccessPart(c);
    assert part[1..] == [part[1], part[2]] && part[1..][1..] == [part[2]] && part[1..][1..][1..] == [];
    assert ResolvePart([part[2]], after) == [JumpReg(JNE, R6, R3, JumpOffset(1 + after, 0))];
    assert ResolvePart([part[1], part[2]], after) == [Alu32Imm(AND, R6, c.mask)] + ResolvePart([part[2]], after);
  }

  // R6 <- R3 & mask, then a comparison of R6 with R3: containment, not overlap.
  lemma AccessRuns(cpu: Machine, program: seq<Instruction>, q: DevRequest, c: Checked, at: nat, after: nat, regs: Registers)
    requires after <= 8
    requires CodeAt(program, at, ResolvePart(AccessPart(c), after)) && Loaded(regs, q)
    ensures Passes(cpu, program, q, at, regs, |AccessPart(c)|, after, c.mask == ACC_ALL || BitsWithin(q.access, c.mask))
  {
    hide StepOne, ResolvePart, BitAnd, JumpOffset;
    if c.mask == ACC_ALL {
      NothingRuns(cpu, program, q, at, after, regs);
    } else {
      AccessCode(c, after);
      var code := ResolvePart(AccessPart(c), after);
      CodeIndex(program, at, code, 0);
      CodeIndex(program, at, code, 1);
      CodeIndex(program, at, code, 2);
      var moved := regs[6 := Some(q.access)];
      var masked := moved[6 := Some(BitAnd(q.access, c.mask))];
      StepMoveAccess(cpu, q, at, regs);
      StepMaskAccess(cpu, q, c.mask, at + 1, moved);
      StepCompareAccess(cpu, q, BitAnd(q.access, c.mask), at + 2, after, masked);
      AndContainment(q.access, c.mask);
      var end := Step(cpu, program, q, At(at + 2, masked));
      assert Iterate(cpu, program, q, At(at, regs), 3) == Iterate(cpu, program, q, At(at + 1, moved), 2);
      assert Iterate(cpu, program, q, At(at + 1, moved), 2) == Iterate(cpu, program, q, At(at + 2, masked), 1);
      assert Iterate(cpu, program, q, At(at + 2, masked), 1) == end;
      assert |AccessPart(c)| == 3 && Loaded(masked, q);
      assert Iterate(cpu, program, q, At(at, regs), 3)
          == At(at + 3 + (if BitsWithin(q.access, c.mask) then 0 else after), masked);
    }
  }

  lemma ReachOn(cpu: Machine, program: seq<Instruction>, q: DevRequest, at: nat, regs: Registers, via: nat, to: nat, a: nat, b: nat)
    requires Reaches(cpu, program, q, at, regs, via, a)
    requires forall regs': Registers | Loaded(regs', q) :: Reaches(cpu, program, q, via, regs', to, b)
    ensures Reaches(cpu, program, q, at, regs, to, a + b)
  {
    hide Iterate, Loaded;
    var k: nat, middle: Registers :|
      k <= a && Loaded(middle, q) && Iterate(cpu, program, q, At(at, regs), k) == At(via, middle);
    assert Reaches(cpu, program, q, via, middle, to, b);
    var m: nat, end: Registers :|
      m <= b && Loaded(end, q) && Iterate(cpu, program, q, At(via, middle), m) == At(to, end);
    IterateAdds(cpu, program, q, At(at, regs), k, m);
    assert k + m <= a + b && Iterate(cpu, program, q, At(at, regs), k + m) == At(to, end);
  }

  lemma ReachesWithin(cpu: Machine, program: seq<Instruction>, q: DevRequest, at: nat, regs: Registers, to: nat, a: nat, b: nat)
    requires Reaches(cpu, program, q, at, regs, to, a) && a <= b
    ensures Reaches(cpu, program, q, at, regs, to, b)
  {
    hide Iterate, Loaded;
  }

  // Two checks in a row are one check.
  lemma ChainPasses(cpu: Machine, program: seq<Instruction>, q: DevRequest, at: nat, regs: Registers,
                    a: nat, b: nat, after: nat, first: bool, second: bool)
    requires Passes(cpu, program, q, at, regs, a, b + after, first)
    requires first ==> forall regs': Registers | Loaded(regs', q) :: Passes(cpu, program, q, at + a, regs', b, after, second)
    ensures Passes(cpu, program, q, at, regs, a + b, after, first && second)
  {
    hide Reaches, Loaded;
    var to := at + (a + b) + (if first && second then 0 else after);
    if first {
      forall regs': Registers | Loaded(regs', q)
        ensures Reaches(cpu, program, q, at + a, regs', to, b)
      {
        assert Passes(cpu, program, q, at + a, regs', b, after, second);
      }
      ReachOn(cpu, program, q, at, regs, at + a, to, a, b);
    } else {
      ReachesWithin(cpu, program, q, at, regs, to, a, a + b);
    }
  }

  function Checks(c: Checked): seq<BlockStep> {
    TypePart(c) + AccessPart(c) + MajorPart(c) + MinorPart(c)
  }

  lemma ChecksCode(program: seq<Instruction>, c: Checked, at: nat, after: nat)
    requires CodeAt(program, at, ResolvePart(Checks(c), after))
    ensures var t, a, m, n := TypePart(c), AccessPart(c), MajorPart(c), MinorPart(c);
            && CodeAt(program, at, ResolvePart(t, |a| + |m| + |n| + after))
            && CodeAt(program, at + |t|, ResolvePart(a, |m| + |n| + after))
            && CodeAt(program, at + |t| + |a|, ResolvePart(m, |n| + after))
            && CodeAt(program, at + |t| + |a| + |m|, ResolvePart(n, after))
  {
    hide ResolvePart, TypePart, AccessPart, MajorPart, MinorPart;
    var t, a, m, n := TypePart(c), AccessPart(c), MajorPart(c), MinorPart(c);
    ResolveSplit(t + a + m, n, after);
    ResolveSplit(t + a, m, |n| + after);
    ResolveSplit(t, a, |m| + (|n| + after));
    SplitCode(program, at, ResolvePart(t + a + m, |n| + after), ResolvePart(n, after));
    SplitCode(program, at, ResolvePart(t + a, |m| + (|n| + after)), ResolvePart(m, |n| + after));
    SplitCode(program, at, ResolvePart(t, |a| + (|m| + (|n| + after))), ResolvePart(a, |m| + (|n| + after)));
  }

  lemma ChecksRun(cpu: Machine, program: seq<Instruction>, q: DevRequest, c: Checked, at: nat, after: nat, regs: Registers)
    requires after == 2 && c.major <= U32_MAX && c.minor <= U32_MAX
    requires c.deviceType.Some? ==> DEV_BLOCK <= c.deviceType.value <= DEV_CHAR
    requires CodeAt(program, at, ResolvePart(Checks(c), after)) && Loaded(regs, q)
    ensures Passes(cpu, program, q, at, regs, |Checks(c)|, after, BlockMatches(c, q))
  {
    hide Passes, ResolvePart, Iterate, Loaded, BitsWithin, CodeAt;
    ChecksCode(program, c, at, after);
    var t, a, m, n := TypePart(c), AccessPart(c), MajorPart(c), MinorPart(c);
    var typeHolds := c.deviceType.None? || c.deviceType.value == q.kind;
    var accessHolds := c.mask == ACC_ALL || BitsWithin(q.access, c.mask);
    TypeRuns(cpu, program, q, c, at, |a| + |m| + |n| + after, regs);
    forall regs': Registers | Loaded(regs', q)
      ensures Passes(cpu, program, q, at + |t|, regs', |a|, |m| + |n| + after, accessHolds)
    {
      AccessRuns(cpu, program, q, c, at + |t|, |m| + |n| + after, regs');
    }
    ChainPasses(cpu, program, q, at, regs, |t|, |a|, |m| + |n| + after, typeHolds, accessHolds);
    forall regs': Registers | Loaded(regs', q)
      ensures Passes(cpu, program, q, at + (|t| + |a|), regs', |m|, |n| + after, NumberHolds(c.major, q.major))
    {
      MajorRuns(cpu, program, q, c, at + |t| + |a|, |n| + after, regs');
    }
    var majorHolds := typeHolds && accessHolds && NumberHolds(c.major, q.major);
    ChainPasses(cpu, program, q, at, regs, |t| + |a|, |m|, |n| + after, typeHolds && accessHolds, NumberHolds(c.major, q.major));
    forall regs': Registers | Loaded(regs', q)
      ensures Passes(cpu, program, q, at + (|t| + |a| + |m|), regs', |n|, after, NumberHolds(c.minor, q.minor))
    {
      MinorRuns(cpu, program, q, c, at + |t| + |a| + |m|, after, regs');
    }
    ChainPasses(cpu, program, q, at, regs, |t| + |a| + |m|, |n|, after, majorHolds, NumberHolds(c.minor, q.minor));
  }

  // The program returns `value` within `length` steps.
  ghost predicate Returns(cpu: Machine, program: seq<Instruction>, q: DevRequest, at: nat, regs: Registers, length: nat, value: U64) {
    exists k: nat :: k <= length && Iterate(cpu, program, q, At(at, regs), k) == Done(Verdict(value))
  }

  function VerdictValue(allow: bool): U64 {
    if allow then 1 else 0
  }

  lemma StepStore(cpu: Machine, q: DevRequest, value: I32, at: nat, regs: Registers)
    ensures StepOne(cpu, Alu32Imm(MOV, R0, value), q, at, regs) == At(at + 1, regs[0 := Some(LowU32(value))])
  {
    hide BitAnd, BitOr, ShiftLeft, ShiftRight;
    assert UnsignedI64(value) % 0x1_0000_0000 == LowU32(value);
  }

  lemma StepExit(cpu: Machine, q: DevRequest, at: nat, regs: Registers)
    requires regs[0].Some?
    ensures StepOne(cpu, Exit(), q, at, regs) == Done(Verdict(regs[0].value))
  {
  }

  lemma VerdictReturns(cpu: Machine, program: seq<Instruction>, q: DevRequest, c: Checked, at: nat, regs: Registers)
    requires CodeAt(program, at, ResolvePart(VerdictPart(c), 0))
    ensures Iterate(cpu, program, q, At(at, regs), 2) == Done(Verdict(VerdictValue(c.allow)))
  {
    hide StepOne;
    var part := VerdictPart(c);
    assert part[1..] == [part[1]] && part[1..][1..] == [];
    assert ResolvePart([part[1]], 0) == [Exit()];
    var code := ResolvePart(part, 0);
    var value := if c.allow then 1 else 0;
    assert code == [Alu32Imm(MOV, R0, value)] + [Exit()];
    CodeIndex(program, at, code, 0);
    CodeIndex(program, at, code, 1);
    var stored := regs[0 := Some(LowU32(value))];
    StepStore(cpu, q, value, at, regs);
    StepExit(cpu, q, at + 1, stored);
    assert Iterate(cpu, program, q, At(at, regs), 2) == Iterate(cpu, program, q, At(at + 1, stored), 1);
  }

  lemma BlockSingleSlots(c: Checked)
    ensures SingleSlots(Block(c))
  {
    hide LowI32;
    assert SingleSlots(TypePart(c)) && SingleSlots(AccessPart(c)) && SingleSlots(MajorPart(c));
    assert SingleSlots(MinorPart(c)) && SingleSlots(VerdictPart(c));
  }

  // A block returns its verdict when the rule matches, and otherwise runs on to the next block.
  lemma BlockRuns(cpu: Machine, program: seq<Instruction>, q: DevRequest, rule: DeviceRule, at: nat, regs: Registers)
    requires Check(rule).Success?
    requires CodeAt(program, at, Resolve(Block(Check(rule).value))) && Loaded(regs, q)
    ensures var c := Check(rule).value;
            if BlockMatches(c, q) then Returns(cpu, program, q, at, regs, |Block(c)|, VerdictValue(c.allow))
            else Reaches(cpu, program, q, at, regs, at + |Block(c)|, |Block(c)|)
  {
    hide Iterate, Loaded, ResolvePart, Resolve, BlockMatches, SingleSlots, Check, Checks, VerdictPart, Block, CodeAt;
    var c := Check(rule).value;
    var checks, verdict := Checks(c), VerdictPart(c);
    BlockSplits(c);
    BlockSingleSlots(c);
    ResolveIsPart(Block(c));
    ResolveSplit(checks, verdict, 0);
    SplitCode(program, at, ResolvePart(checks, 2), ResolvePart(verdict, 0));
    ChecksRun(cpu, program, q, c, at, 2, regs);
    if BlockMatches(c, q) {
      var k: nat, end: Registers :|
        k <= |checks| && Loaded(end, q) && Iterate(cpu, program, q, At(at, regs), k) == At(at + |checks|, end);
      VerdictReturns(cpu, program, q, c, at + |checks|, end);
      IterateAdds(cpu, program, q, At(at, regs), k, 2);
      assert k + 2 <= |Block(c)|;
    } else {
      ReachesWithin(cpu, program, q, at, regs, at + |Block(c)|, |checks|, |Block(c)|);
    }
  }

  lemma BlockSplits(c: Checked)
    ensures Block(c) == Checks(c) + VerdictPart(c) && |VerdictPart(c)| == 2
  {
  }

  lemma ReturnsWithin(cpu: Machine, program: seq<Instruction>, q: DevRequest, at: nat, regs: Registers, a: nat, b: nat, value: U64)
    requires Returns(cpu, program, q, at, regs, a, value) && a <= b
    ensures Returns(cpu, program, q, at, regs, b, value)
  {
    hide Iterate;
  }

  lemma CheckedVerdict(rule: DeviceRule)
    requires Check(rule).Success?
    ensures Check(rule).value.allow == rule.allow
  {
  }

  lemma ReachReturn(cpu: Machine, program: seq<Instruction>, q: DevRequest, at: nat, regs: Registers, via: nat, a: nat, b: nat, value: U64)
    requires Reaches(cpu, program, q, at, regs, via, a)
    requires forall regs': Registers | Loaded(regs', q) :: Returns(cpu, program, q, via, regs', b, value)
    ensures Returns(cpu, program, q, at, regs, a + b, value)
  {
    hide Iterate, Loaded;
    var k: nat, middle: Registers :|
      k <= a && Loaded(middle, q) && Iterate(cpu, program, q, At(at, regs), k) == At(via, middle);
    assert Returns(cpu, program, q, via, middle, b, value);
    var m: nat :| m <= b && Iterate(cpu, program, q, At(via, middle), m) == Done(Verdict(value));
    IterateAdds(cpu, program, q, At(at, regs), k, m);
    assert k + m <= a + b;
  }

  lemma {:induction false} ResolveAllAppends(blocks: seq<seq<BlockStep>>, last: seq<BlockStep>)
    ensures ResolveAll(blocks + [last]) == ResolveAll(blocks) + Resolve(last)
  {
    hide Resolve;
    if |blocks| == 0 {
      assert blocks + [last] == [last] && [last][1..] == [];
    } else {
      assert (blocks + [last])[1..] == blocks[1..] + [last];
      ResolveAllAppends(blocks[1..], last);
    }
  }

  // Once a block matches everything, some rule matches every request.
  lemma {:induction false} WildCardMatches(rules: seq<DeviceRule>, q: DevRequest)
    requires Build(rules).Success? && Build(rules).value.hasWildCard
    ensures LastMatch(rules, q).Some?
  {
    var earlier := Build(rules[1..]).value;
    if earlier.hasWildCard {
      WildCardMatches(rules[1..], q);
    }
  }

  // The compiled rules return the verdict of the last rule that matches, or run on past them all.
  lemma {:induction false} BlocksRun(cpu: Machine, program: seq<Instruction>, q: DevRequest, rules: seq<DeviceRule>, at: nat, regs: Registers)
    requires Build(rules).Success? && Loaded(regs, q)
    requires CodeAt(program, at, ResolveAll(Build(rules).value.blocks))
    ensures var length := |ResolveAll(Build(rules).value.blocks)|;
            match LastMatch(rules, q)
            case Some(rule) => Returns(cpu, program, q, at, regs, length, VerdictValue(rule.allow))
            case None => Reaches(cpu, program, q, at, regs, at + length, length)
    decreases |rules|
  {
    hide Iterate, Loaded, Resolve, Check, BlockMatches, Block;
    if |rules| == 0 {
      NothingRuns(cpu, program, q, at, 0, regs);
    } else {
      var earlier := Build(rules[1..]).value;
      if earlier.hasWildCard {
        WildCardMatches(rules[1..], q);
        BlocksRun(cpu, program, q, rules[1..], at, regs);
      } else {
        var c := Check(rules[0]).value;
        var before, last := ResolveAll(earlier.blocks), Resolve(Block(c));
        ResolveAllAppends(earlier.blocks, Block(c));
        SplitCode(program, at, before, last);
        BlocksRun(cpu, program, q, rules[1..], at, regs);
        AppendedBlock(cpu, program, q, rules, at, regs, |before|);
      }
    }
  }

  // The step of the induction above: one more block behind blocks that did not return.
  lemma AppendedBlock(cpu: Machine, program: seq<Instruction>, q: DevRequest, rules: seq<DeviceRule>, at: nat, regs: Registers, length: nat)
    requires |rules| > 0 && Check(rules[0]).Success? && Loaded(regs, q)
    requires CodeAt(program, at + length, Resolve(Block(Check(rules[0]).value)))
    requires match LastMatch(rules[1..], q)
             case Some(rule) => Returns(cpu, program, q, at, regs, length, VerdictValue(rule.allow))
             case None => Reaches(cpu, program, q, at, regs, at + length, length)
    ensures var whole := length + |Block(Check(rules[0]).value)|;
            match LastMatch(rules, q)
            case Some(rule) => Returns(cpu, program, q, at, regs, whole, VerdictValue(rule.allow))
            case None => Reaches(cpu, program, q, at, regs, at + whole, whole)
  {
    hide Iterate, Loaded, Resolve, BlockMatches, Block, Check, Reaches, Returns, CodeAt;
    var c := Check(rules[0]).value;
    if LastMatch(rules[1..], q).Some? {
      ReturnsWithin(cpu, program, q, at, regs, length, length + |Block(c)|, VerdictValue(LastMatch(rules[1..], q).value.allow));
    } else {
      forall regs': Registers | Loaded(regs', q)
        ensures if BlockMatches(c, q) then Returns(cpu, program, q, at + length, regs', |Block(c)|, VerdictValue(c.allow))
                else Reaches(cpu, program, q, at + length, regs', at + length + |Block(c)|, |Block(c)|)
      {
        BlockRuns(cpu, program, q, rules[0], at + length, regs');
      }
      CheckedVerdict(rules[0]);
      if BlockMatches(c, q) {
        ReachReturn(cpu, program, q, at, regs, at + length, length, |Block(c)|, VerdictValue(c.allow));
      } else {
        ReachOn(cpu, program, q, at, regs, at + length, at + length + |Block(c)|, length, |Block(c)|);
      }
    }
  }
}
