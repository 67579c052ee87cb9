/** The bytes of a wrapper, written out from the rules, the nonce and the original alone, in the numbers
    of RFC 9669 and of the kernel: an independent description that emission meets. */
module WrapperBytes {
  import opened Wrappers
  import opened Words
  import opened Asm
  import opened AsmCanonical
  import opened WireFormat
  import opened DeviceFilter
  import opened FilterCorrect
  import opened Owned
  import opened OwnedRoundTrip
  import opened OwnedIdentity

  // --- The description ----------------------------------------------------------------------------------

  // A 32-bit immediate, which is signed.
  function Immediate(x: int): I64 {
    var low := x % 0x1_0000_0000;
    if low < 0x8000_0000 then low else low - 0x1_0000_0000
  }

  // mov32 r0, value: a dead store, which is what a field of the header or the trailer is.
  function Field(value: U32): Instruction {
    Instruction(0xb4, 0, 0, 0, Immediate(value))
  }

  function Fields(values: seq<U32>): seq<Instruction> {
    if |values| == 0 then [] else [Field(values[0])] + Fields(values[1..])
  }

  function LowWord(nonce: U64): U32 { nonce % 0x1_0000_0000 }
  function HighWord(nonce: U64): U32 { nonce / 0x1_0000_0000 }

  // The context loads: the type is the low half of the first word and the access its high half, then
  // come the major and the minor number.
  function Loads(): seq<Instruction> {
    [Instruction(0x69, 2, 1, 0, 0), Instruction(0x61, 3, 1, 0, 0), Instruction(0x74, 3, 0, 0, 16), Instruction(0x61, 4, 1, 4, 0),
     Instruction(0x61, 5, 1, 8, 0)]
  }

  function KindChecks(rule: DeviceRule, skip: I16): seq<Instruction> {
    if rule.kind == "c" then [Instruction(0x55, 2, 0, skip, 2)]
    else if rule.kind == "b" then [Instruction(0x55, 2, 0, skip, 1)]
    else []
  }

  function AccessChecks(rule: DeviceRule, skip: I16): seq<Instruction> {
    if 'r' in rule.access && 'w' in rule.access && 'm' in rule.access then []
    else
      var mask := (if 'm' in rule.access then 1 else 0) + (if 'r' in rule.access then 2 else 0) + (if 'w' in rule.access then 4 else 0);
      [Instruction(0xbc, 6, 3, 0, 0), Instruction(0x54, 6, 0, 0, mask), Instruction(0x5d, 6, 3, skip, 0)]
  }

  function NumberChecks(register: Register, number: Option<I64>, skip: I16): seq<Instruction> {
    if number.Some? && number.value >= 0 then [Instruction(0x55, register, 0, skip, Immediate(number.value))] else []
  }

  // One block: a comparison for each thing to check, each skipping the rest of the block, then the
  // verdict.
  function ExpectedBlock(rule: DeviceRule): (block: seq<Instruction>)
    ensures 2 <= |block| <= 8
  {
    var verdict := [Instruction(0xb4, 0, 0, 0, if rule.allow then 1 else 0), Instruction(0x95, 0, 0, 0, 0)];
    var minor := NumberChecks(5, rule.minor, 2);
    var major := NumberChecks(4, rule.major, |minor| + 2);
    var access := AccessChecks(rule, |major| + |minor| + 2);
    KindChecks(rule, |access| + |major| + |minor| + 2) + access + major + minor + verdict
  }

  // The last rule's block comes first.
  function ExpectedBlocks(rules: seq<DeviceRule>): seq<Instruction> {
    if |rules| == 0 then [] else ExpectedBlocks(rules[1..]) + ExpectedBlock(rules[0])
  }

  // What comes before the original: only the rules from the last full wildcard on have blocks.
  function ExpectedPrefix(digest: Digest, rules: seq<DeviceRule>, nonce: U64): seq<Instruction> {
    var blocks := ExpectedBlocks(Effective(rules));
    var trailer := if 15 + |blocks| < 0x1_0000_0000 then 15 + |blocks| else 0xffff_ffff;
    Fields([0x5f41_4453, 0x4b4c_4244, 1, LowWord(nonce), HighWord(nonce), digest.d0, digest.d1, digest.d2, digest.d3, trailer])
    + Loads() + blocks + Fields([0x5f41_4453, 0x4b4c_4244, LowWord(nonce), HighWord(nonce)])
  }

  // --- Emission meets it ----------------------------------------------------------------------------------

  lemma {:induction false} FieldsAre(values: seq<U32>)
    ensures Markers(values) == Fields(values)
  {
    hide Markers;
    if |values| == 0 {
      assert Markers(values) == [];
    } else {
      FieldsAre(values[1..]);
      assert Markers(values) == [Marker(values[0])] + Markers(values[1..]);
    }
  }

  lemma OneJump(i: Instruction, skip: nat)
    requires skip <= 8
    ensures ResolvePart([JumpNext(i)], skip) == [i.(offset := skip)]
  {
    assert [JumpNext(i)][1..] == [];
  }

  lemma TypeChecks(rule: DeviceRule, skip: nat)
    requires Check(rule).Success? && skip <= 8
    ensures ResolvePart(TypePart(Check(rule).value), skip) == KindChecks(rule, skip)
  {
    var c := Check(rule).value;
    if c.deviceType.Some? {
      OneJump(JumpImm(JNE, R2, c.deviceType.value, -1), skip);
      hide ResolvePart;
    }
  }

  lemma LetterChecks(rule: DeviceRule, skip: nat)
    requires Check(rule).Success? && skip <= 8
    ensures ResolvePart(AccessPart(Check(rule).value), skip) == AccessChecks(rule, skip)
  {
    var c := Check(rule).value;
    if c.mask != ACC_ALL {
      AccessCode(c, skip);
      hide ResolvePart;
    }
  }

  lemma MajorChecks(rule: DeviceRule, skip: nat)
    requires Check(rule).Success? && skip <= 8
    ensures ResolvePart(MajorPart(Check(rule).value), skip) == NumberChecks(4, rule.major, skip)
  {
    if rule.major.value >= 0 {
      OneJump(JumpImm(JNE, R4, LowI32(rule.major.value), -1), skip);
      hide ResolvePart;
    }
  }

  lemma MinorChecks(rule: DeviceRule, skip: nat)
    requires Check(rule).Success? && skip <= 8
    ensures ResolvePart(MinorPart(Check(rule).value), skip) == NumberChecks(5, rule.minor, skip)
  {
    if rule.minor.value >= 0 {
      OneJump(JumpImm(JNE, R5, LowI32(rule.minor.value), -1), skip);
      hide ResolvePart;
    }
  }

  lemma VerdictIs(c: Checked)
    ensures ResolvePart(VerdictPart(c), 0) == [Instruction(0xb4, 0, 0, 0, if c.allow then 1 else 0), Instruction(0x95, 0, 0, 0, 0)]
  {
    var part := VerdictPart(c);
    assert part[1..] == [part[1]] && [part[1]][1..] == [];
    assert ResolvePart([part[1]], 0) == [Exit()];
  }

  lemma BlockIs(rule: DeviceRule)
    requires Check(rule).Success?
    ensures Resolve(Block(Check(rule).value)) == ExpectedBlock(rule)
  {
    hide ResolvePart, Resolve, SingleSlots, Check, KindChecks, AccessChecks, NumberChecks, TypePart, AccessPart, MajorPart, MinorPart,
         VerdictPart;
    var c := Check(rule).value;
    var t, a, m, n, v := TypePart(c), AccessPart(c), MajorPart(c), MinorPart(c), VerdictPart(c);
    PartsShort(c);
    BlockSingleSlots(c);
    ResolveIsPart(Block(c));
    PartsSplit(t, a, m, n, v);
    MinorChecks(rule, |v|);
    MajorChecks(rule, |n| + |v|);
    LetterChecks(rule, |m| + |n| + |v|);
    TypeChecks(rule, |a| + |m| + |n| + |v|);
    VerdictIs(c);
    SameVerdict(rule);
  }

  lemma SameVerdict(rule: DeviceRule)
    requires Check(rule).Success?
    ensures Check(rule).value.allow == rule.allow
  {
  }

  lemma PartsShort(c: Checked)
    ensures |TypePart(c)| <= 1 && |AccessPart(c)| <= 3 && |MajorPart(c)| <= 1 && |MinorPart(c)| <= 1 && |VerdictPart(c)| == 2
  {
  }

  lemma PartsSplit(t: seq<BlockStep>, a: seq<BlockStep>, m: seq<BlockStep>, n: seq<BlockStep>, v: seq<BlockStep>)
    ensures ResolvePart(t + a + m + n + v, 0)
         == ResolvePart(t, |a| + |m| + |n| + |v|) + ResolvePart(a, |m| + |n| + |v|) + ResolvePart(m, |n| + |v|) + ResolvePart(n, |v|)
            + ResolvePart(v, 0)
  {
    hide ResolvePart;
    ResolveSplit(t + a + m + n, v, 0);
    ResolveSplit(t + a + m, n, |v| + 0);
    ResolveSplit(t + a, m, |n| + (|v| + 0));
    ResolveSplit(t, a, |m| + (|n| + (|v| + 0)));
  }

  lemma {:induction false} BlocksAre(cs: seq<Checked>, rules: seq<DeviceRule>)
    requires |cs| == |rules| && forall k | 0 <= k < |cs| :: Check(rules[k]) == Success(cs[k])
    ensures Code(cs) == ExpectedBlocks(rules)
  {
    hide Check, Resolve, Block, ExpectedBlock;
    if |cs| > 0 {
      assert forall k | 0 <= k < |cs[1..]| :: cs[1..][k] == cs[k + 1] && rules[1..][k] == rules[k + 1];
      BlocksAre(cs[1..], rules[1..]);
      BlockIs(rules[0]);
    }
  }

  lemma PrefixIs(rules: seq<DeviceRule>, nonce: U64, digest: Digest)
    requires Build(rules).Success?
    ensures Prefix(Build(rules).value, nonce, digest) == ExpectedPrefix(digest, rules, nonce)
  {
    hide Markers, Fields, Code, Kept, Build, Effective, ExpectedBlocks, ResolveAll, Check;
    BuildCode(rules);
    KeptIsEffective(rules);
    BlocksAre(Kept(rules), Effective(rules));
    FieldsAre(HeaderFields(nonce, digest, BlockLen(Build(rules).value)));
    FieldsAre(TrailerFields(nonce));
  }

  lemma {:induction false} BytesJoin(a: seq<Instruction>, b: seq<Instruction>)
    ensures AllBytes(a + b) == AllBytes(a) + AllBytes(b)
  {
    hide WireBytes;
    if |a| == 0 {
      assert a + b == b;
    } else {
      assert (a + b)[0] == a[0] && (a + b)[1..] == a[1..] + b;
      BytesJoin(a[1..], b);
    }
  }

  lemma EmitUnfolds(hash: DigestFn, rules: seq<DeviceRule>, nonce: U64, original: seq<Byte>)
    requires Build(rules).Success? && DecodeAll(original).Success? && Emit(hash, rules, nonce, original).Success?
    ensures EncodeAll(Prefix(Build(rules).value, nonce, hash(original)) + DecodeAll(original).value)
         == Success(Emit(hash, rules, nonce, original).value)
  {
    hide DecodeAt, Build, Prefix, EncodeAt;
  }

  lemma OriginalEncodes(original: seq<Byte>)
    requires IsOriginal(original) && DecodeAll(original).Success?
    ensures EncodeAll(DecodeAll(original).value) == Success(original)
  {
    hide DecodeAt, EncodeAt;
  }

  lemma EncodedAll(instructions: seq<Instruction>)
    requires EncodeAll(instructions).Success?
    ensures EncodeAll(instructions).value == AllBytes(instructions)
  {
    hide EncodeAt, AllBytes;
    EncodesAsWritten(instructions, 0);
  }

  // The emitted bytes are the described ones, for every list of rules that builds and every original.
  lemma EmitsExpected(hash: DigestFn, rules: seq<DeviceRule>, nonce: U64, original: seq<Byte>)
    requires IsOriginal(original) && Build(rules).Success?
    ensures Emit(hash, rules, nonce, original) == Success(AllBytes(ExpectedPrefix(hash(original), rules, nonce)) + original)
  {
    hide *;
    EmitDecodes(hash, rules, nonce, original);
    EmitUnfolds(hash, rules, nonce, original);
    OriginalEncodes(original);
    var prefix, instructions := Prefix(Build(rules).value, nonce, hash(original)), DecodeAll(original).value;
    EncodedAll(prefix + instructions);
    EncodedAll(instructions);
    BytesJoin(prefix, instructions);
    PrefixIs(rules, nonce, hash(original));
  }

  // --- Whose program it is --------------------------------------------------------------------------------------

  // The first field of a header, as it is written.
  predicate StartsLikeOurs(raw: seq<Byte>) {
    raw[..if |raw| < 8 then |raw| else 8] == [0xb4, 0, 0, 0, 0x53, 0x44, 0x41, 0x5f]
  }

  lemma LowOfImmediate(raw: seq<Byte>)
    requires |raw| >= 8
    ensures LowU32(ImmediateAt(raw)) == UnsignedAt(raw)
  {
  }

  lemma MagicWord(raw: seq<Byte>)
    requires |raw| >= 8
    ensures UnsignedAt(raw) == 0x5f41_4453 <==> raw[4] == 0x53 && raw[5] == 0x44 && raw[6] == 0x41 && raw[7] == 0x5f
  {
  }

  lemma StartsByBytes(raw: seq<Byte>)
    requires |raw| >= 8
    ensures StartsLikeOurs(raw)
       <==> raw[0] == 0xb4 && raw[1] == 0 && raw[2] == 0 && raw[3] == 0
            && raw[4] == 0x53 && raw[5] == 0x44 && raw[6] == 0x41 && raw[7] == 0x5f
  {
    var first := raw[..8];
    assert forall k | 0 <= k < 8 :: first[k] == raw[k];
  }

  lemma FirstMarker(raw: seq<Byte>, i: Instruction)
    requires Reads(raw, i)
    ensures MarkerValue(i) == Some(MAGIC_LO) <==> StartsLikeOurs(raw)
  {
    StartsByBytes(raw);
    MagicWord(raw);
    LowOfImmediate(raw);
    ZeroOffset(raw);
    hide StartsLikeOurs, OffsetAt, ImmediateAt, UnsignedAt, LowU32, HelperCall, HighHalf;
    assert i.opcode == 0xb4 ==> raw[0] == 0xb4;
  }

  // A program is bare exactly when it decodes and does not begin with the bytes a header begins with;
  // one that does is the daemon's own or a conflict.
  lemma BareMeans(hash: DigestFn, raw: seq<Byte>)
    ensures Parse(hash, raw) == Success(None) <==> DecodeAll(raw).Success? && !StartsLikeOurs(raw)
  {
    hide Validate, MarkerValue, StartsLikeOurs, Reads, DecodeAt;
    if DecodeAll(raw).Success? {
      var instructions := DecodeAll(raw).value;
      DecodesAsWritten(raw, 0, instructions);
      if |instructions| > 0 {
        FirstMarker(raw, instructions[0]);
      } else {
        NothingStarts(raw);
      }
    }
  }

  lemma NothingStarts(raw: seq<Byte>)
    requires |raw| == 0
    ensures !StartsLikeOurs(raw)
  {
    assert |raw[..0]| == 0;
  }
}
