/** Parsing an emitted wrapper gives back what it was emitted from. */
module OwnedRoundTrip {
  import opened Wrappers
  import opened Words
  import opened Asm
  import opened AsmCanonical
  import opened DeviceFilter
  import opened FilterCorrect
  import opened Owned

  // --- The rules a wrapper keeps ---------------------------------------------------------------

  predicate Valid(c: Checked) {
    && c.major <= U32_MAX && c.minor <= U32_MAX
    && (c.deviceType.Some? ==> DEV_BLOCK <= c.deviceType.value <= DEV_CHAR)
  }

  // The checked rules the builder keeps, in list order.
  function Kept(rules: seq<DeviceRule>): (cs: seq<Checked>)
    requires Build(rules).Success?
    ensures forall k | 0 <= k < |cs| :: Valid(cs[k])
  {
    if |rules| == 0 then []
    else if Build(rules[1..]).value.hasWildCard then Kept(rules[1..])
    else [Check(rules[0]).value] + Kept(rules[1..])
  }

  // The blocks of a list of rules: the last rule's block comes first.
  function Code(cs: seq<Checked>): seq<Instruction> {
    if |cs| == 0 then [] else Code(cs[1..]) + Resolve(Block(cs[0]))
  }

  lemma {:induction false} BuildCode(rules: seq<DeviceRule>)
    requires Build(rules).Success?
    ensures ResolveAll(Build(rules).value.blocks) == Code(Kept(rules))
    ensures Build(rules).value.hasWildCard <==> |Kept(rules)| > 0 && Kept(rules)[0].MatchesAll()
    ensures forall k | 0 < k < |Kept(rules)| :: !Kept(rules)[k].MatchesAll()
  {
    hide Check, Block, Resolve;
    if |rules| > 0 {
      BuildCode(rules[1..]);
      var earlier := Build(rules[1..]).value;
      if !earlier.hasWildCard {
        var c := Check(rules[0]).value;
        ResolveAllAppends(earlier.blocks, Block(c));
        assert Kept(rules)[1..] == Kept(rules[1..]);
      }
    }
  }

  // --- Reading one block back ------------------------------------------------------------------

  // The number in the immediate of a comparison, or the wildcard.
  function ReadBackNumber(number: I64): I64 {
    if number >= 0 then LowI32(number) else WILDCARD
  }

  function Kind(deviceType: Option<I32>): string {
    if deviceType == Some(DEV_CHAR) then "c" else if deviceType == Some(DEV_BLOCK) then "b" else "a"
  }

  // The rule a block reads back as.
  function ReadBack(c: Checked): DeviceRule {
    DeviceRule(c.allow, Kind(c.deviceType), Some(ReadBackNumber(c.major)), Some(ReadBackNumber(c.minor)), AccessString(c.mask))
  }

  // What the instructions behind a part may start with.
  predicate AtVerdict(rest: seq<Instruction>) {
    |rest| > 0 && rest[0].opcode == 0x04 + MOV + IMM_SOURCE
  }

  predicate AtMinor(rest: seq<Instruction>) {
    AtVerdict(rest) || (|rest| > 0 && IsJumpImm(rest[0], JNE, R5))
  }

  predicate AtMajor(rest: seq<Instruction>) {
    AtMinor(rest) || (|rest| > 0 && IsJumpImm(rest[0], JNE, R4))
  }

  predicate AtAccess(rest: seq<Instruction>) {
    AtMajor(rest) || (|rest| > 0 && rest[0].opcode == 0x04 + MOV + REG_SOURCE)
  }

  lemma ReadVerdictPart(c: Checked, rest: seq<Instruction>)
    ensures var code := ResolvePart(VerdictPart(c), 0) + rest;
            AtVerdict(code) && ReadVerdict(code) == Success((c.allow, rest))
  {
    var part := VerdictPart(c);
    assert part[1..] == [part[1]] && part[1..][1..] == [];
    assert ResolvePart([part[1]], 0) == [Exit()];
    var code := ResolvePart(part, 0) + rest;
    assert code[0] == part[0].instruction && code[1] == Exit() && code[2..] == rest;
  }

  lemma ReadMinorPart(c: Checked, after: nat, rest: seq<Instruction>)
    requires AtVerdict(rest)
    ensures var code := ResolvePart(MinorPart(c), after) + rest;
            AtMinor(code) && ReadNumber(code, R5) == (ReadBackNumber(c.minor), rest)
  {
    hide LowI32, JumpOffset;
    var code := ResolvePart(MinorPart(c), after) + rest;
    if c.minor >= 0 {
      assert code[1..] == rest;
    } else {
      assert code == rest;
    }
  }

  lemma ReadMajorPart(c: Checked, after: nat, rest: seq<Instruction>)
    requires AtMinor(rest)
    ensures var code := ResolvePart(MajorPart(c), after) + rest;
            AtMajor(code) && ReadNumber(code, R4) == (ReadBackNumber(c.major), rest)
  {
    hide LowI32, JumpOffset;
    var code := ResolvePart(MajorPart(c), after) + rest;
    if c.major >= 0 {
      assert code[1..] == rest;
    } else {
      assert code == rest;
    }
  }

  lemma ReadAccessPart(c: Checked, after: nat, rest: seq<Instruction>)
    requires AtMajor(rest)
    ensures var code := ResolvePart(AccessPart(c), after) + rest;
            AtAccess(code) && ReadAccess(code) == Success((AccessString(c.mask), rest))
  {
    hide JumpOffset;
    var code := ResolvePart(AccessPart(c), after) + rest;
    if c.mask != ACC_ALL {
      AccessCode(c, after);
      hide ResolvePart;
      assert code[3..] == rest;
    } else {
      assert code == rest;
      assert AccessString(ACC_ALL) == "rwm";
    }
  }

  lemma ReadTypePart(c: Checked, after: nat, rest: seq<Instruction>)
    requires AtAccess(rest) && Valid(c)
    ensures var code := ResolvePart(TypePart(c), after) + rest;
            ReadType(code) == Success((Kind(c.deviceType), rest))
  {
    hide JumpOffset;
    var code := ResolvePart(TypePart(c), after) + rest;
    if c.deviceType.Some? {
      assert code[1..] == rest;
    } else {
      assert code == rest;
    }
  }

  // A resolved block part by part, in front of `rest`.
  function VerdictOn(c: Checked, rest: seq<Instruction>): seq<Instruction> {
    ResolvePart(VerdictPart(c), 0) + rest
  }

  function MinorOn(c: Checked, rest: seq<Instruction>): seq<Instruction> {
    ResolvePart(MinorPart(c), 2) + VerdictOn(c, rest)
  }

  function MajorOn(c: Checked, rest: seq<Instruction>): seq<Instruction> {
    ResolvePart(MajorPart(c), |MinorPart(c)| + 2) + MinorOn(c, rest)
  }

  function AccessOn(c: Checked, rest: seq<Instruction>): seq<Instruction> {
    ResolvePart(AccessPart(c), |MajorPart(c)| + (|MinorPart(c)| + 2)) + MajorOn(c, rest)
  }

  function TypeOn(c: Checked, rest: seq<Instruction>): seq<Instruction> {
    ResolvePart(TypePart(c), |AccessPart(c)| + (|MajorPart(c)| + (|MinorPart(c)| + 2))) + AccessOn(c, rest)
  }

  lemma BlockByParts(c: Checked, rest: seq<Instruction>)
    ensures Resolve(Block(c)) + rest == TypeOn(c, rest)
  {
    BlockSplits(c);
    hide TypePart, AccessPart, MajorPart, MinorPart, VerdictPart, ResolvePart, Resolve, SingleSlots;
    var t, a, m, n, v := TypePart(c), AccessPart(c), MajorPart(c), MinorPart(c), VerdictPart(c);
    BlockSingleSlots(c);
    ResolveIsPart(Block(c));
    ResolveSplit(t + a + m + n, v, 0);
    ResolveSplit(t + a + m, n, 2);
    ResolveSplit(t + a, m, |n| + 2);
    ResolveSplit(t, a, |m| + (|n| + 2));
  }

  lemma ReadResolvedBlock(c: Checked, rest: seq<Instruction>)
    requires Valid(c)
    ensures ReadBlock(Resolve(Block(c)) + rest) == Success((ReadBack(c), rest))
  {
    hide TypePart, AccessPart, MajorPart, MinorPart, VerdictPart, ResolvePart, Resolve, Block, Valid;
    hide ReadType, ReadAccess, ReadNumber, ReadVerdict, AtVerdict, AtMinor, AtMajor, AtAccess;
    hide AccessString, ReadBackNumber, Kind;
    BlockByParts(c, rest);
    ReadVerdictPart(c, rest);
    ReadMinorPart(c, 2, VerdictOn(c, rest));
    ReadMajorPart(c, |MinorPart(c)| + 2, MinorOn(c, rest));
    ReadAccessPart(c, |MajorPart(c)| + (|MinorPart(c)| + 2), MajorOn(c, rest));
    ReadTypePart(c, |AccessPart(c)| + (|MajorPart(c)| + (|MinorPart(c)| + 2)), AccessOn(c, rest));
  }

  function ReadBacks(cs: seq<Checked>): (rules: seq<DeviceRule>)
    ensures |rules| == |cs|
    ensures forall k | 0 <= k < |cs| :: rules[k] == ReadBack(cs[k])
  {
    if |cs| == 0 then [] else [ReadBack(cs[0])] + ReadBacks(cs[1..])
  }

  lemma ReadOneMore(c: Checked, tail: seq<Instruction>)
    requires Valid(c) && ReadBlocks(tail).Success?
    ensures ReadBlocks(Resolve(Block(c)) + tail) == Success(ReadBlocks(tail).value + [ReadBack(c)])
  {
    hide ReadBlock, Resolve, Block, Valid, ReadBack;
    ReadResolvedBlock(c, tail);
    assert |Block(c)| >= 2;
  }

  // Reading a wrapper's blocks gives its rules in list order, in front of those that follow.
  lemma {:induction false} ReadCode(cs: seq<Checked>, tail: seq<Instruction>)
    requires forall k | 0 <= k < |cs| :: Valid(cs[k])
    requires ReadBlocks(tail).Success?
    ensures ReadBlocks(Code(cs) + tail) == Success(ReadBlocks(tail).value + ReadBacks(cs))
  {
    hide ReadBlocks, Resolve, Block, Valid, ReadBack;
    if |cs| == 0 {
      assert Code(cs) + tail == tail;
      assert ReadBlocks(tail).value + [] == ReadBlocks(tail).value;
    } else {
      var block := Resolve(Block(cs[0]));
      assert Valid(cs[0]);
      var inner := block + tail;
      ReadOneMore(cs[0], tail);
      ReadCode(cs[1..], inner);
      assert Code(cs) + tail == Code(cs[1..]) + inner;
      assert ReadBlocks(tail).value + [ReadBack(cs[0])] + ReadBacks(cs[1..])
          == ReadBlocks(tail).value + ([ReadBack(cs[0])] + ReadBacks(cs[1..]));
    }
  }

  // --- Emitting what was read back -------------------------------------------------------------

  // Both numbers fit in the 31 bits a comparison can use.
  predicate InRangeChecked(c: Checked) {
    c.major < 0x8000_0000 && c.minor < 0x8000_0000
  }

  lemma AccessReadsBack(mask: AccessBits)
    ensures FirstUnknown(AccessString(mask)).None? && AccessMask(AccessString(mask)) == mask
  {
    var access := AccessString(mask);
    assert 'r' in access <==> mask / ACC_READ % 2 == 1;
    assert 'w' in access <==> mask / ACC_WRITE % 2 == 1;
    assert 'm' in access <==> mask / ACC_MKNOD % 2 == 1;
    forall k | 0 <= k < |access|
      ensures access[k] in "rwm"
    {
    }
    KnownLetters(access);
  }

  // A rule read back is always expressible: its numbers are those of the immediates.
  function Again(c: Checked): Checked {
    Checked(c.deviceType, c.mask, ReadBackNumber(c.major), ReadBackNumber(c.minor), c.allow)
  }

  lemma ReadBackChecks(c: Checked)
    requires Valid(c)
    ensures Check(ReadBack(c)) == Success(Again(c)) && Valid(Again(c))
  {
    hide AccessMask, FirstUnknown, AccessString;
    AccessReadsBack(c.mask);
  }

  // It compiles to the same block exactly when the numbers were in range, and else to a shorter one.
  lemma AgainBlock(c: Checked)
    requires Valid(c)
    ensures InRangeChecked(c) ==> Block(Again(c)) == Block(c) && (Again(c).MatchesAll() <==> c.MatchesAll())
    ensures !InRangeChecked(c) ==> |Block(Again(c))| < |Block(c)|
    ensures |Block(Again(c))| <= |Block(c)|
  {
    AgainNumber(c.major);
    AgainNumber(c.minor);
    hide ReadBackNumber;
    assert TypePart(Again(c)) == TypePart(c) && AccessPart(Again(c)) == AccessPart(c);
    assert VerdictPart(Again(c)) == VerdictPart(c);
    if InRangeChecked(c) {
      assert MajorPart(Again(c)) == MajorPart(c);
      assert MinorPart(Again(c)) == MinorPart(c);
    }
  }

  lemma AgainNumber(number: I64)
    requires number <= U32_MAX
    ensures if number < 0x8000_0000
            then (number >= 0 ==> ReadBackNumber(number) == number) && (number < 0 ==> ReadBackNumber(number) == WILDCARD)
            else ReadBackNumber(number) < 0
  {
  }

  // What building the rules read back keeps.
  lemma {:induction false} RebuildReadBacks(cs: seq<Checked>)
    requires forall k | 0 <= k < |cs| :: Valid(cs[k])
    ensures Build(ReadBacks(cs)).Success?
    ensures |Code(Kept(ReadBacks(cs)))| <= |Code(cs)|
    ensures (exists k :: 0 <= k < |cs| && !InRangeChecked(cs[k])) ==> |Code(Kept(ReadBacks(cs)))| < |Code(cs)|
  {
    hide Check, Valid, ReadBack, Block, Again, Resolve, InRangeChecked;
    if |cs| > 0 {
      assert Valid(cs[0]);
      ReadBackChecks(cs[0]);
      AgainBlock(cs[0]);
      var rules := ReadBacks(cs);
      assert rules[1..] == ReadBacks(cs[1..]);
      RebuildReadBacks(cs[1..]);
      assert |Block(cs[0])| >= 2;
      if Build(rules[1..]).value.hasWildCard {
        assert Kept(rules) == Kept(rules[1..]);
      } else {
        assert Kept(rules) == [Again(cs[0])] + Kept(rules[1..]);
        assert Kept(rules)[1..] == Kept(rules[1..]);
      }
      if k :| 0 <= k < |cs| && !InRangeChecked(cs[k]) {
        assert k > 0 ==> !InRangeChecked(cs[1..][k - 1]);
      }
    }
  }

  lemma {:induction false} RebuildInRange(cs: seq<Checked>)
    requires forall k | 0 <= k < |cs| :: Valid(cs[k]) && InRangeChecked(cs[k])
    requires forall k | 0 < k < |cs| :: !cs[k].MatchesAll()
    ensures Build(ReadBacks(cs)).Success?
    ensures Code(Kept(ReadBacks(cs))) == Code(cs)
    ensures Build(ReadBacks(cs)).value.hasWildCard <==> |cs| > 0 && cs[0].MatchesAll()
  {
    hide Check, Valid, ReadBack, Block, Again, Resolve, InRangeChecked;
    if |cs| > 0 {
      assert Valid(cs[0]) && InRangeChecked(cs[0]);
      ReadBackChecks(cs[0]);
      AgainBlock(cs[0]);
      var rules := ReadBacks(cs);
      assert rules[1..] == ReadBacks(cs[1..]);
      assert |cs| > 1 ==> cs[1..][0] == cs[1];
      RebuildInRange(cs[1..]);
      assert Kept(rules) == [Again(cs[0])] + Kept(rules[1..]);
      assert Kept(rules)[1..] == Kept(rules[1..]);
    }
  }

  // --- The emitted bytes decode as the wrapper --------------------------------------------------

  // The instructions the builder and the markers are made of.
  predicate BuilderJump(i: Instruction) {
    && (i.opcode == 0x05 + JNE + IMM_SOURCE || i.opcode == 0x05 + JNE + REG_SOURCE || i.opcode == 0x05 + EXIT)
    && i.dst < 0x10 && i.src < 0x10 && -0x8000_0000 <= i.constant < 0x8000_0000
  }

  predicate BuilderOther(i: Instruction) {
    && (|| (i.opcode == 0x04 + MOV + IMM_SOURCE && i.offset == 0)
        || (i.opcode == 0x04 + MOV + REG_SOURCE && i.offset == 0)
        || (i.opcode == 0x04 + AND + IMM_SOURCE && i.offset == 0)
        || (i.opcode == 0x04 + RSH + IMM_SOURCE && i.offset == 0)
        || (i.opcode == 0x01 + MODE_MEM + HALF && i.src == R1 && i.offset == 0)
        || (i.opcode == 0x01 + MODE_MEM + WORD && i.src == R1 && (i.offset == 0 || i.offset == 4 || i.offset == 8)))
    && i.dst < 0x10 && i.src < 0x10 && -0x8000_0000 <= i.constant < 0x8000_0000
  }

  predicate BuilderInstruction(i: Instruction) {
    BuilderJump(i) || BuilderOther(i)
  }

  predicate BuilderCode(code: seq<Instruction>) {
    forall k | 0 <= k < |code| :: BuilderInstruction(code[k])
  }

  lemma StableSlot(slot: Slot, i: Instruction)
    requires DecodeSlot(slot) == Success(i) && !IsDwordLoad(slot.op)
    requires CleanSlot(slot) == slot && !TaggedCall(i)
    ensures Stable(i)
  {
    hide DecodeSlot, EncodeSlots, ReadSlot, WriteSlot, WriteSlots, CleanSlot, TaggedCall, Normal;
    ReencodeSlot(slot);
    WriteOne(slot);
    ReadWriteSlot(slot, []);
    assert WriteSlot(slot) + [] == WriteSlot(slot);
  }

  lemma BuilderStable(i: Instruction)
    requires BuilderInstruction(i)
    ensures Stable(i) && i.Width() == 1
  {
    var slot := Slot(i.opcode, i.dst, i.src, i.offset, i.constant);
    assert DecodeSlot(slot) == Success(i) && CleanSlot(slot) == slot && !TaggedCall(i) by {
      hide LowU32, PlatformTag;
    }
    StableSlot(slot, i);
  }

  lemma {:induction false} ResolvedBuilderCode(part: seq<BlockStep>, after: nat)
    requires forall k | 0 <= k < |part| ::
               BuilderInstruction(part[k].instruction) && (part[k].toNextBlock ==> BuilderJump(part[k].instruction))
    ensures BuilderCode(ResolvePart(part, after))
  {
    hide BuilderOther, JumpOffset;
    if |part| > 0 {
      ResolvedBuilderCode(part[1..], after);
    }
  }

  lemma BlockBuilderCode(c: Checked)
    requires Valid(c)
    ensures BuilderCode(Resolve(Block(c)))
  {
    BlockSingleSlots(c);
    ResolveIsPart(Block(c));
    hide LowI32, Resolve, ResolvePart, SingleSlots;
    ResolvedBuilderCode(Block(c), 0);
  }

  lemma {:induction false} CodeIsBuilderCode(cs: seq<Checked>)
    requires forall k | 0 <= k < |cs| :: Valid(cs[k])
    ensures BuilderCode(Code(cs))
  {
    hide Valid, Block, Resolve, BuilderInstruction;
    if |cs| > 0 {
      assert Valid(cs[0]);
      BlockBuilderCode(cs[0]);
      CodeIsBuilderCode(cs[1..]);
    }
  }

  lemma InitIsBuilderCode()
    ensures BuilderCode(Init())
  {
  }

  lemma MarkersAreBuilderCode(fields: seq<U32>)
    ensures BuilderCode(Markers(fields))
  {
    hide SignedI32;
  }

  lemma PrefixIsBuilderCode(rules: seq<DeviceRule>, nonce: U64, digest: Digest)
    requires Build(rules).Success?
    ensures BuilderCode(Prefix(Build(rules).value, nonce, digest))
  {
    hide BuilderInstruction, Init, Code, ResolveAll, HeaderFields, TrailerFields, Build, Kept;
    var b := Build(rules).value;
    BuildCode(rules);
    CodeIsBuilderCode(Kept(rules));
    InitIsBuilderCode();
    MarkersAreBuilderCode(HeaderFields(nonce, digest, BlockLen(b)));
    MarkersAreBuilderCode(TrailerFields(nonce));
  }

  // What an original has to be: canonical bytes of at least one instruction.
  predicate IsOriginal(original: seq<Byte>) {
    Canonical(original) == Some(original) && original != []
  }

  lemma {:induction false} NormalProgramStable(raw: seq<Byte>, at: nat)
    requires DecodeAt(raw, at).Success?
    requires NoTaggedCall(DecodeAt(raw, at).value)
    requires NormalAll(DecodeAt(raw, at).value) == DecodeAt(raw, at).value
    ensures forall k | 0 <= k < |DecodeAt(raw, at).value| :: Stable(DecodeAt(raw, at).value[k])
    decreases |raw|
  {
    hide DecodeOne, Stable, TaggedCall, Normal;
    if |raw| > 0 {
      var first := DecodeOne(raw).value;
      var size := INSTRUCTION_SIZE * first.Width();
      var all, others := DecodeAt(raw, at).value, DecodeAt(raw[size..], at + size).value;
      assert all == [first] + others && all[1..] == others;
      NoTaggedCons(first, others);
      assert all[0] == first && Normal(first) == first;
      NormalStable(raw);
      NormalProgramStable(raw[size..], at + size);
    }
  }

  lemma OriginalStable(original: seq<Byte>)
    requires IsOriginal(original)
    ensures DecodeAll(original).Success? && |DecodeAll(original).value| > 0
    ensures EncodeAll(DecodeAll(original).value) == Success(original)
    ensures forall k | 0 <= k < |DecodeAll(original).value| :: Stable(DecodeAll(original).value[k])
  {
    hide Stable, TaggedCall, Normal, DecodeOne;
    CanonicalForm(original);
    NormalProgramStable(original, 0);
  }

  // The wrapper as instructions.
  function Wrapper(b: Builder, nonce: U64, digest: Digest, original: seq<Instruction>): seq<Instruction> {
    Prefix(b, nonce, digest) + original
  }

  lemma EmitDecodes(hash: DigestFn, rules: seq<DeviceRule>, nonce: U64, original: seq<Byte>)
    requires IsOriginal(original) && Build(rules).Success?
    ensures DecodeAll(original).Success?
    ensures Emit(hash, rules, nonce, original).Success?
    ensures DecodeAll(Emit(hash, rules, nonce, original).value)
         == Success(Wrapper(Build(rules).value, nonce, hash(original), DecodeAll(original).value))
  {
    hide Stable, BuilderInstruction, Build, Prefix, DecodeAt, EncodeAt, IsOriginal;
    OriginalStable(original);
    var prefix := Prefix(Build(rules).value, nonce, hash(original));
    var instructions := DecodeAll(original).value;
    PrefixIsBuilderCode(rules, nonce, hash(original));
    var all := prefix + instructions;
    forall k | 0 <= k < |all|
      ensures Stable(all[k])
    {
      if k < |prefix| {
        assert BuilderInstruction(prefix[k]);
        BuilderStable(prefix[k]);
      } else {
        assert all[k] == instructions[k - |prefix|];
      }
    }
    StableRoundTrip(all, 0, 0);
  }

  // --- The round trip ---------------------------------------------------------------------------

  lemma MarkerReads(value: U32)
    ensures MarkerValue(Marker(value)) == Some(value)
  {
  }

  lemma MarkersStep(fields: seq<U32>)
    requires |fields| > 0
    ensures Markers(fields)[0] == Marker(fields[0]) && Markers(fields)[1..] == Markers(fields[1..])
  {
    hide Marker;
  }

  lemma ValuesStep(instructions: seq<Instruction>, value: U32, values: seq<U32>, index: nat)
    requires |instructions| > 0 && MarkerValue(instructions[0]) == Some(value)
    requires MarkerValues(instructions[1..], index + 1) == Success(values)
    ensures MarkerValues(instructions, index) == Success([value] + values)
  {
    hide MarkerValue;
  }

  lemma NoMarkers(fields: seq<U32>, index: nat)
    requires |fields| == 0
    ensures MarkerValues(Markers(fields), index) == Success(fields)
  {
    hide Marker, MarkerValue;
  }

  lemma {:induction false} MarkersRead(fields: seq<U32>, index: nat)
    ensures MarkerValues(Markers(fields), index) == Success(fields)
  {
    hide Marker, MarkerValue, Markers, MarkerValues;
    if |fields| == 0 {
      NoMarkers(fields, index);
    } else {
      MarkerReads(fields[0]);
      MarkersStep(fields);
      MarkersRead(fields[1..], index + 1);
      ValuesStep(Markers(fields), fields[0], fields[1..], index);
      assert [fields[0]] + fields[1..] == fields;
    }
  }

  lemma MarkersMarkFields(fields: seq<U32>)
    ensures MarksFields(Markers(fields), fields)
  {
    hide Marker, MarkerValue;
    forall k | 0 <= k < |fields|
      ensures MarkerValue(Markers(fields)[k]) == Some(fields[k])
    {
      MarkerReads(fields[k]);
    }
  }

  lemma NonceJoins(nonce: U64)
    ensures JoinNonce(NonceLo(nonce), NonceHi(nonce)) == nonce
  {
  }

  // The parts of a wrapper sit where its header says.
  lemma WrapperSlices(header: seq<Instruction>, init: seq<Instruction>, code: seq<Instruction>,
                      trailer: seq<Instruction>, original: seq<Instruction>)
    requires |header| == HEADER_LEN && |init| == INIT_LEN && |trailer| == TRAILER_LEN
    ensures var all := header + init + code + trailer + original;
            var blockLen := HEADER_LEN + INIT_LEN + |code|;
            && |all| == blockLen + TRAILER_LEN + |original|
            && all[..HEADER_LEN] == header
            && all[HEADER_LEN + INIT_LEN..blockLen] == code
            && all[blockLen..blockLen + TRAILER_LEN] == trailer
            && all[blockLen + TRAILER_LEN..] == original
  {
  }

  // The wrapper's length fits the header field that carries it.
  predicate Fits(b: Builder) {
    HEADER_LEN + InstructionCount(b) < 0x1_0000_0000
  }

  // Reading the wrapper gets to the comparison of the regenerated bytes.
  lemma ValidateWrapper(hash: DigestFn, b: Builder, rules: seq<DeviceRule>, nonce: U64, original: seq<Byte>, raw: seq<Byte>)
    requires Fits(b) && ReadBlocks(ResolveAll(b.blocks)) == Success(rules)
    requires DecodeAll(original).Success? && |DecodeAll(original).value| > 0
    requires EncodeAll(DecodeAll(original).value) == Success(original)
    ensures Validate(hash, Wrapper(b, nonce, hash(original), DecodeAll(original).value), raw)
         == (match Emit(hash, rules, nonce, original)
             case Failure(error) => Failure(Regenerated(Some(error)))
             case Success(again) =>
               if again != raw then Failure(Regenerated(None)) else Success(OwnedProgram(nonce, rules, original)))
  {
    hide Init, ResolveAll, ReadBlocks, DecodeAll, EncodeAll, Emit, Marker, MarkerValue, NonceLo, NonceHi, JoinNonce;
    var digest := hash(original);
    var fields, trailerFields := HeaderFields(nonce, digest, BlockLen(b)), TrailerFields(nonce);
    var header, trailer := Markers(fields), Markers(trailerFields);
    var code, instructions := ResolveAll(b.blocks), DecodeAll(original).value;
    MarkersRead(fields, 0);
    MarkersMarkFields(trailerFields);
    NonceJoins(nonce);
    hide Markers, MarkerValues, MarksFields;
    WrapperSlices(header, Init(), code, trailer, instructions);
    assert trailerFields == [MAGIC_LO, MAGIC_HI, fields[3], fields[4]];
  }

  predicate AllInRange(cs: seq<Checked>) {
    forall k | 0 <= k < |cs| :: InRangeChecked(cs[k])
  }

  lemma SameCodeSamePrefix(b: Builder, d: Builder, nonce: U64, digest: Digest)
    requires ResolveAll(b.blocks) == ResolveAll(d.blocks)
    ensures Prefix(b, nonce, digest) == Prefix(d, nonce, digest)
  {
  }

  // Emitting the kept rules read back gives the same bytes exactly when they were in range.
  lemma RegeneratedBytes(hash: DigestFn, rules: seq<DeviceRule>, nonce: U64, original: seq<Byte>)
    requires IsOriginal(original) && Build(rules).Success?
    ensures Emit(hash, rules, nonce, original).Success?
    ensures Emit(hash, ReadBacks(Kept(rules)), nonce, original).Success?
    ensures Emit(hash, ReadBacks(Kept(rules)), nonce, original) == Emit(hash, rules, nonce, original)
       <==> AllInRange(Kept(rules))
  {
    hide IsOriginal, Build, Kept, Code, Valid, InRangeChecked, ReadBacks;
    var cs := Kept(rules);
    var again := ReadBacks(cs);
    BuildCode(rules);
    RebuildReadBacks(cs);
    BuildCode(again);
    EmitDecodes(hash, rules, nonce, original);
    EmitDecodes(hash, again, nonce, original);
    if AllInRange(cs) {
      RebuildInRange(cs);
      SameCodeSamePrefix(Build(rules).value, Build(again).value, nonce, hash(original));
    } else {
      var k :| 0 <= k < |cs| && !InRangeChecked(cs[k]);
      PrefixLength(Build(rules).value, nonce, hash(original));
      PrefixLength(Build(again).value, nonce, hash(original));
    }
  }

  lemma PrefixLength(b: Builder, nonce: U64, digest: Digest)
    ensures |Prefix(b, nonce, digest)| == HEADER_LEN + INIT_LEN + |ResolveAll(b.blocks)| + TRAILER_LEN
  {
  }

  // Parsing an emitted wrapper recovers its nonce, its kept rules and its original exactly when
  // the kept rules' numbers are below 2^31; otherwise the daemon rejects its own wrapper.
  lemma ParseEmitted(hash: DigestFn, rules: seq<DeviceRule>, nonce: U64, original: seq<Byte>)
    requires IsOriginal(original) && Build(rules).Success? && Fits(Build(rules).value)
    ensures Emit(hash, rules, nonce, original).Success?
    ensures Parse(hash, Emit(hash, rules, nonce, original).value)
         == (if AllInRange(Kept(rules)) then Success(Some(OwnedProgram(nonce, ReadBacks(Kept(rules)), original)))
             else Failure(Conflicts(Regenerated(None))))
  {
    hide IsOriginal, Build, Kept, Code, Valid, AllInRange, ReadBacks, Fits, ReadBlocks, Prefix, Validate, Emit;
    var b := Build(rules).value;
    OriginalStable(original);
    EmitDecodes(hash, rules, nonce, original);
    RegeneratedBytes(hash, rules, nonce, original);
    BuildCode(rules);
    ReadKept(Kept(rules));
    var raw := Emit(hash, rules, nonce, original).value;
    ValidateWrapper(hash, b, ReadBacks(Kept(rules)), nonce, original, raw);
    WrapperStartsLikeHeader(b, nonce, hash(original), DecodeAll(original).value);
  }

  lemma ReadKept(cs: seq<Checked>)
    requires forall k | 0 <= k < |cs| :: Valid(cs[k])
    ensures ReadBlocks(Code(cs)) == Success(ReadBacks(cs))
  {
    ReadCode(cs, []);
    assert Code(cs) + [] == Code(cs);
    assert [] + ReadBacks(cs) == ReadBacks(cs);
  }

  lemma WrapperStartsLikeHeader(b: Builder, nonce: U64, digest: Digest, original: seq<Instruction>)
    ensures var all := Wrapper(b, nonce, digest, original);
            |all| > 0 && MarkerValue(all[0]) == Some(MAGIC_LO)
  {
    hide ResolveAll, Init, MarkerValue, Marker;
    MarkerReads(MAGIC_LO);
    var fields := HeaderFields(nonce, digest, BlockLen(b));
    assert Markers(fields)[0] == Marker(fields[0]);
  }
}
