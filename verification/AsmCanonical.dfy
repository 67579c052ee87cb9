/** What decoding a program and encoding it again does to its bytes. */
module AsmCanonical {
  import opened Wrappers
  import opened Words
  import opened Asm

  // What re-encoding changes of a decoded instruction: an ALU offset with no extended meaning.
  function Normal(i: Instruction): Instruction {
    if ClassOf(i.opcode).IsAlu() then i.(offset := 0) else i
  }

  // A helper call with a platform tag. It decodes when its ID is negative, and never encodes.
  predicate TaggedCall(i: Instruction) {
    i.IsBuiltinCall() && PlatformTag(LowU32(i.constant)) != 0
  }

  // An ALU slot whose offset has no extended meaning.
  predicate SpareOffset(slot: Slot) {
    ClassOf(slot.op).IsAlu() && ExtendedAlu(AluOp(slot.op), slot.offset).None?
  }

  function CleanSlot(slot: Slot): Slot {
    if SpareOffset(slot) then slot.(offset := 0) else slot
  }

  // The byte-level reference: the two offset bytes of every such slot cleared, wide loads skipped
  // whole.
  function Zeroed(raw: seq<Byte>): (r: seq<Byte>)
    ensures |r| == |raw|
  {
    if |raw| < INSTRUCTION_SIZE then raw
    else if IsDwordLoad(raw[0]) then
      if |raw| < 2 * INSTRUCTION_SIZE then raw
      else raw[..2 * INSTRUCTION_SIZE] + Zeroed(raw[2 * INSTRUCTION_SIZE..])
    else ZeroedSlot(raw) + Zeroed(raw[INSTRUCTION_SIZE..])
  }

  function ZeroedSlot(raw: seq<Byte>): (r: seq<Byte>)
    requires |raw| >= INSTRUCTION_SIZE
    ensures |r| == INSTRUCTION_SIZE
  {
    if SpareOffset(ReadSlot(raw)) then raw[..INSTRUCTION_SIZE][2 := 0][3 := 0]
    else raw[..INSTRUCTION_SIZE]
  }

  lemma RegisterNibbles(dst: Nibble, src: Nibble)
    ensures (src * 0x10 + dst) % 0x10 == dst && (src * 0x10 + dst) / 0x10 == src
  {
  }

  lemma OffsetBytes(offset: I16)
    ensures var b := Bytes16(UnsignedI16(offset)); SignedI16(Word16(b[0], b[1])) == offset
  {
  }

  lemma ImmediateBytes(imm: I32)
    ensures var b := Bytes32(LowU32(imm)); SignedI32(Word32(b[0], b[1], b[2], b[3])) == imm
  {
    Word32OfBytes(LowU32(imm));
  }

  lemma ReadWriteSlot(slot: Slot, rest: seq<Byte>)
    ensures ReadSlot(WriteSlot(slot) + rest) == slot
  {
    RegisterNibbles(slot.dst, slot.src);
    OffsetBytes(slot.offset);
    ImmediateBytes(slot.imm);
    hide Bytes16, Bytes32, Word16, Word32, SignedI16, SignedI32, UnsignedI16, LowU32;
    var raw := WriteSlot(slot) + rest;
    var offset, imm := Bytes16(UnsignedI16(slot.offset)), Bytes32(LowU32(slot.imm));
    assert |offset| == 2 && |imm| == 4;
    assert raw[2] == offset[0] && raw[3] == offset[1];
    assert raw[4] == imm[0] && raw[5] == imm[1] && raw[6] == imm[2] && raw[7] == imm[3];
  }

  lemma BytesOffset(b0: Byte, b1: Byte)
    ensures Bytes16(UnsignedI16(SignedI16(Word16(b0, b1)))) == [b0, b1]
  {
    SplitByte(b0, b1);
  }

  lemma UnsignedOfSigned(x: U32)
    ensures LowU32(SignedI32(x)) == x
  {
  }

  lemma BytesImmediate(b0: Byte, b1: Byte, b2: Byte, b3: Byte)
    ensures Bytes32(LowU32(SignedI32(Word32(b0, b1, b2, b3)))) == [b0, b1, b2, b3]
  {
    UnsignedOfSigned(Word32(b0, b1, b2, b3));
    Bytes32OfWord(b0, b1, b2, b3);
    hide LowU32, SignedI32, Word32, Bytes32;
  }

  lemma WriteReadSlot(raw: seq<Byte>)
    requires |raw| >= INSTRUCTION_SIZE
    ensures WriteSlot(ReadSlot(raw)) == raw[..INSTRUCTION_SIZE]
  {
    hide Bytes16, Bytes32, Word16, Word32, SignedI16, SignedI32, UnsignedI16, LowU32;
    BytesOffset(raw[2], raw[3]);
    BytesImmediate(raw[4], raw[5], raw[6], raw[7]);
    assert raw[1] / 0x10 * 0x10 + raw[1] % 0x10 == raw[1];
    assert raw[..INSTRUCTION_SIZE] == [raw[0], raw[1]] + [raw[2], raw[3]] + [raw[4], raw[5], raw[6], raw[7]];
  }

  lemma WriteCleanSlot(raw: seq<Byte>)
    requires |raw| >= INSTRUCTION_SIZE
    ensures WriteSlot(CleanSlot(ReadSlot(raw))) == ZeroedSlot(raw)
  {
    WriteReadSlot(raw);
    var slot := ReadSlot(raw);
    assert Bytes16(UnsignedI16(0)) == [0, 0];
  }

  // Re-encoding the decoded slot cleans it, fails exactly on a tagged call, and the clean slot
  // decodes as the normalised instruction.
  predicate CleansOnReencode(slot: Slot) {
    match DecodeSlot(slot)
    case Failure(_) => true
    case Success(i) =>
      && (IsDwordLoad(i.opcode) <==> IsDwordLoad(slot.op))
      && EncodeSlots(i) == (if TaggedCall(i) then Failure(Unsupported(LowU32(i.constant)))
                            else Success([CleanSlot(slot)]))
      && DecodeSlot(CleanSlot(slot)) == Success(Normal(i))
  }

  lemma LowOfSigned(imm: I32)
    ensures LowI32(imm) == imm
  {
  }

  lemma AluSlot(slot: Slot)
    requires ClassOf(slot.op).IsAlu()
    ensures CleansOnReencode(slot)
  {
    hide ClassOf, AluOp, WithAluOp, JumpOp, LowI32, LowU32;
    LowOfSigned(slot.imm);
    AluOpcode(slot.op, 0);
    var op := AluOp(slot.op);
    AluOpcode(slot.op, op);
    if !SpareOffset(slot) {
      AluOpcode(slot.op, ExtendedAlu(op, slot.offset).value);
    }
  }

  lemma AtomicSlot(slot: Slot)
    requires IsAtomic(slot.op)
    ensures CleansOnReencode(slot)
  {
    hide ClassOf, AluOp, WithAluOp, JumpOp, LowI32, LowU32, IsAtomic;
    LowOfSigned(slot.imm);
    AtomicOpcode(slot.op, LowU32(slot.imm) % 0x200);
  }

  lemma PlainSlot(slot: Slot)
    requires !IsDwordLoad(slot.op) && !ClassOf(slot.op).IsAlu() && !IsAtomic(slot.op)
    ensures CleansOnReencode(slot)
  {
    hide ClassOf, JumpOp, Mode, LowI32, LowU32, PlatformTag;
    LowOfSigned(slot.imm);
  }

  lemma ReencodeSlot(slot: Slot)
    requires !IsDwordLoad(slot.op)
    ensures CleansOnReencode(slot)
  {
    if ClassOf(slot.op).IsAlu() {
      AluSlot(slot);
    } else if IsAtomic(slot.op) {
      AtomicSlot(slot);
    } else {
      PlainSlot(slot);
    }
  }

  // The bytes the first instruction of `raw` is re-encoded as.
  function ZeroedFirst(raw: seq<Byte>): seq<Byte>
    requires DecodeOne(raw).Success?
  {
    if IsDwordLoad(raw[0]) then raw[..2 * INSTRUCTION_SIZE] else ZeroedSlot(raw)
  }

  lemma WriteOne(slot: Slot)
    ensures WriteSlots([slot]) == WriteSlot(slot)
  {
    assert WriteSlots([slot]) == WriteSlot(slot) + WriteSlots([]);
  }

  lemma WriteTwo(first: Slot, second: Slot)
    ensures WriteSlots([first, second]) == WriteSlot(first) + WriteSlot(second)
  {
    WriteOne(second);
    assert [first, second][1..] == [second];
  }

  lemma WideConstant(low: I32, high: I32)
    ensures var constant := high * 0x1_0000_0000 + LowU32(low);
            && -0x8000_0000_0000_0000 <= constant < 0x8000_0000_0000_0000
            && LowI32(constant) == low && SignedI32(HighU32(constant)) == high
  {
    var constant := high * 0x1_0000_0000 + LowU32(low);
    assert constant / 0x1_0000_0000 == high;
    assert constant % 0x1_0000_0000 == LowU32(low);
  }

  lemma DwordSlots(first: Slot, second: Slot)
    requires IsDwordLoad(first.op) && second == HighSlot(second.imm)
    ensures var i := Instruction(first.op, first.dst, first.src, first.offset, first.imm);
            var wide := i.(constant := second.imm * 0x1_0000_0000 + LowU32(first.imm));
            && DecodeSlot(first) == Success(i)
            && !TaggedCall(wide) && Normal(wide) == wide
            && EncodeSlots(wide) == Success([first, second])
  {
    WideConstant(first.imm, second.imm);
    hide LowI32, LowU32, HighU32, SignedI32;
  }

  lemma SlotOp(raw: seq<Byte>)
    requires |raw| >= INSTRUCTION_SIZE
    ensures ReadSlot(raw).op == raw[0]
  {
  }

  lemma ReencodeDword(raw: seq<Byte>)
    requires DecodeOne(raw).Success? && IsDwordLoad(raw[0])
    ensures var i := DecodeOne(raw).value;
            IsDwordLoad(i.opcode) && !TaggedCall(i) && Normal(i) == i && Encode(i) == Success(raw[..2 * INSTRUCTION_SIZE])
  {
    hide ReadSlot, WriteSlot, WriteSlots, LowU32, DecodeSlot, EncodeSlots, Normal, TaggedCall;
    SlotOp(raw);
    var first, second := ReadSlot(raw), ReadSlot(raw[INSTRUCTION_SIZE..]);
    DwordSlots(first, second);
    WriteReadSlot(raw);
    WriteReadSlot(raw[INSTRUCTION_SIZE..]);
    WriteTwo(first, second);
    assert raw[..2 * INSTRUCTION_SIZE] == raw[..INSTRUCTION_SIZE] + raw[INSTRUCTION_SIZE..][..INSTRUCTION_SIZE];
  }

  // Decoding looks only at the slots of the instruction.
  lemma DecodeOnePrefix(raw: seq<Byte>, rest: seq<Byte>)
    requires DecodeOne(raw).Success?
    ensures var size := INSTRUCTION_SIZE * DecodeOne(raw).value.Width();
            DecodeOne(raw[..size] + rest) == DecodeOne(raw)
  {
    var i := DecodeOne(raw).value;
    var front := raw[..INSTRUCTION_SIZE * i.Width()] + rest;
    assert ReadSlot(front) == ReadSlot(raw);
    if IsDwordLoad(raw[0]) {
      assert ReadSlot(front[INSTRUCTION_SIZE..]) == ReadSlot(raw[INSTRUCTION_SIZE..]);
    }
  }

  // Re-encoding the first instruction clears its slot, fails exactly on a tagged call, and what it
  // writes decodes as the normalised instruction whatever follows it.
  lemma ReencodeOne(raw: seq<Byte>, rest: seq<Byte>)
    requires DecodeOne(raw).Success?
    ensures var i := DecodeOne(raw).value;
            && |ZeroedFirst(raw)| == INSTRUCTION_SIZE * i.Width()
            && Encode(i) == (if TaggedCall(i) then Failure(Unsupported(LowU32(i.constant)))
                             else Success(ZeroedFirst(raw)))
            && DecodeOne(ZeroedFirst(raw) + rest) == Success(Normal(i))
  {
    if IsDwordLoad(raw[0]) {
      ReencodeDword(raw);
      DecodeOnePrefix(raw, rest);
    } else {
      var slot := ReadSlot(raw);
      assert slot.op == raw[0];
      ReencodeSlot(slot);
      WriteCleanSlot(raw);
      WriteOne(CleanSlot(slot));
      ReadWriteSlot(CleanSlot(slot), rest);
      hide ReadSlot, WriteSlot, WriteSlots, DecodeSlot, EncodeSlots, LowU32;
    }
  }

  function NormalAll(instructions: seq<Instruction>): (r: seq<Instruction>)
    ensures |r| == |instructions|
    ensures forall k | 0 <= k < |r| :: r[k] == Normal(instructions[k])
  {
    if |instructions| == 0 then [] else [Normal(instructions[0])] + NormalAll(instructions[1..])
  }

  predicate NoTaggedCall(instructions: seq<Instruction>) {
    forall k | 0 <= k < |instructions| :: !TaggedCall(instructions[k])
  }

  lemma NoTaggedCons(first: Instruction, others: seq<Instruction>)
    ensures NoTaggedCall([first] + others) <==> !TaggedCall(first) && NoTaggedCall(others)
  {
    hide TaggedCall;
    var all := [first] + others;
    assert all[0] == first;
    assert forall k | 0 <= k < |others| :: others[k] == all[k + 1];
  }

  // A decoded program encodes again exactly when it has no tagged call, as the cleared program.
  lemma {:induction false} ReencodeAll(raw: seq<Byte>, at: nat, index: nat)
    requires DecodeAt(raw, at).Success?
    ensures var instructions := DecodeAt(raw, at).value;
            && (EncodeAt(instructions, index).Success? <==> NoTaggedCall(instructions))
            && (NoTaggedCall(instructions) ==> EncodeAt(instructions, index) == Success(Zeroed(raw)))
    decreases |raw|
  {
    hide DecodeOne, Encode, TaggedCall, Normal, ZeroedFirst, Zeroed, NoTaggedCall;
    if |raw| > 0 {
      var first := DecodeOne(raw).value;
      var size := INSTRUCTION_SIZE * first.Width();
      var others := DecodeAt(raw[size..], at + size).value;
      assert ([first] + others)[1..] == others;
      ReencodeAll(raw[size..], at + size, index + 1);
      ReencodeOne(raw, []);
      ZeroedUnfolds(raw);
      NoTaggedCons(first, others);
    } else {
      NoTaggedEmpty();
    }
  }

  lemma NoTaggedEmpty()
    ensures NoTaggedCall([]) && Zeroed([]) == []
  {
  }

  // The cleared program decodes as the normalised instructions.
  lemma {:induction false} DecodeZeroed(raw: seq<Byte>, at: nat)
    requires DecodeAt(raw, at).Success?
    ensures DecodeAt(Zeroed(raw), at) == Success(NormalAll(DecodeAt(raw, at).value))
    decreases |raw|
  {
    hide DecodeOne, TaggedCall, Normal, ZeroedFirst, Zeroed;
    if |raw| > 0 {
      var first := DecodeOne(raw).value;
      var size := INSTRUCTION_SIZE * first.Width();
      var others := DecodeAt(raw[size..], at + size).value;
      assert ([first] + others)[1..] == others;
      DecodeZeroed(raw[size..], at + size);
      ReencodeOne(raw, Zeroed(raw[size..]));
      ZeroedUnfolds(raw);
      assert Zeroed(raw)[size..] == Zeroed(raw[size..]);
      NormalWidth(first);
    } else {
      NoTaggedEmpty();
    }
  }

  lemma NormalWidth(i: Instruction)
    ensures Normal(i).Width() == i.Width()
  {
  }

  lemma ZeroedUnfolds(raw: seq<Byte>)
    requires DecodeOne(raw).Success?
    ensures Zeroed(raw) == ZeroedFirst(raw) + Zeroed(raw[INSTRUCTION_SIZE * DecodeOne(raw).value.Width()..])
  {
    ReencodeOne(raw, []);
    hide DecodeOne, Encode, TaggedCall, Normal, ZeroedSlot;
  }

  // Clearing an already cleared program changes nothing.
  lemma {:induction false} ZeroedIdempotent(raw: seq<Byte>)
    ensures Zeroed(Zeroed(raw)) == Zeroed(raw)
  {
    hide ReadSlot, SpareOffset;
    if |raw| >= INSTRUCTION_SIZE {
      if IsDwordLoad(raw[0]) {
        if |raw| >= 2 * INSTRUCTION_SIZE {
          ZeroedIdempotent(raw[2 * INSTRUCTION_SIZE..]);
          assert Zeroed(raw)[2 * INSTRUCTION_SIZE..] == Zeroed(raw[2 * INSTRUCTION_SIZE..]);
          assert Zeroed(raw)[..2 * INSTRUCTION_SIZE] == raw[..2 * INSTRUCTION_SIZE];
        }
      } else {
        ZeroedIdempotent(raw[INSTRUCTION_SIZE..]);
        assert Zeroed(raw)[INSTRUCTION_SIZE..] == Zeroed(raw[INSTRUCTION_SIZE..]);
        ZeroedSlotIdempotent(raw, Zeroed(raw[INSTRUCTION_SIZE..]));
      }
    }
  }

  lemma ZeroedSlotIdempotent(raw: seq<Byte>, rest: seq<Byte>)
    requires |raw| >= INSTRUCTION_SIZE
    ensures ZeroedSlot(ZeroedSlot(raw) + rest) == ZeroedSlot(raw)
  {
    var again := ZeroedSlot(raw) + rest;
    if SpareOffset(ReadSlot(raw)) {
      assert again[2] == 0 && again[3] == 0;
    } else {
      assert ReadSlot(again) == ReadSlot(raw);
    }
  }

  // Only the offset bytes of a slot with a spare offset are changed, to zero.
  lemma {:induction false} ZeroedOnlyOffsets(raw: seq<Byte>, slot: nat, field: nat)
    requires field < INSTRUCTION_SIZE
    requires INSTRUCTION_SIZE * slot + field < |raw|
    requires Zeroed(raw)[INSTRUCTION_SIZE * slot + field] != raw[INSTRUCTION_SIZE * slot + field]
    ensures Zeroed(raw)[INSTRUCTION_SIZE * slot + field] == 0 && (field == 2 || field == 3)
    ensures INSTRUCTION_SIZE * (slot + 1) <= |raw| && SpareOffset(ReadSlot(raw[INSTRUCTION_SIZE * slot..]))
    decreases slot
  {
    hide ReadSlot, SpareOffset;
    var slots := if IsDwordLoad(raw[0]) then 2 else 1;
    var size := INSTRUCTION_SIZE * slots;
    if slot >= slots {
      ZeroedOnlyOffsets(raw[size..], slot - slots, field);
      assert raw[size..][INSTRUCTION_SIZE * (slot - slots)..] == raw[INSTRUCTION_SIZE * slot..];
    } else {
      assert raw[0..] == raw;
    }
  }

  // Decoding and encoding again, as every comparison and digest does first.
  function Canonical(raw: seq<Byte>): Option<seq<Byte>> {
    match DecodeAll(raw)
    case Failure(_) => None
    case Success(instructions) =>
      match EncodeAll(instructions)
      case Failure(_) => None
      case Success(bytes) => Some(bytes)
  }

  // Canonicalisation keeps the length, clears spare offsets and nothing else, succeeds exactly on
  // decodable programs without a tagged call, and changes nothing the second time.
  lemma CanonicalForm(raw: seq<Byte>)
    ensures Canonical(raw).Some? <==> DecodeAll(raw).Success? && NoTaggedCall(DecodeAll(raw).value)
    ensures Canonical(raw).Some? ==>
              && Canonical(raw).value == Zeroed(raw)
              && |Canonical(raw).value| == |raw|
              && DecodeAll(Canonical(raw).value) == Success(NormalAll(DecodeAll(raw).value))
              && Canonical(Canonical(raw).value) == Canonical(raw)
  {
    hide DecodeAt, EncodeAt, TaggedCall, Normal, Zeroed;
    if DecodeAll(raw).Success? {
      ReencodeAll(raw, 0, 0);
      DecodeZeroed(raw, 0);
      var instructions := DecodeAll(raw).value;
      if NoTaggedCall(instructions) {
        ReencodeAll(Zeroed(raw), 0, 0);
        ZeroedIdempotent(raw);
        var normal := NormalAll(instructions);
        forall k | 0 <= k < |normal|
          ensures !TaggedCall(normal[k])
        {
          NormalTagged(instructions[k]);
        }
      }
    }
  }

  lemma NormalTagged(i: Instruction)
    ensures TaggedCall(Normal(i)) == TaggedCall(i)
  {
  }

  // An instruction that decodes as itself once encoded.
  predicate Stable(i: Instruction) {
    Encode(i).Success? && DecodeOne(Encode(i).value) == Success(i) && |Encode(i).value| == INSTRUCTION_SIZE * i.Width()
  }

  // Decoding what stable instructions encode to gives them back.
  lemma {:induction false} StableRoundTrip(instructions: seq<Instruction>, index: nat, at: nat)
    requires forall k | 0 <= k < |instructions| :: Stable(instructions[k])
    ensures EncodeAt(instructions, index).Success?
    ensures DecodeAt(EncodeAt(instructions, index).value, at) == Success(instructions)
  {
    hide Encode, DecodeOne;
    if |instructions| > 0 {
      var first, others := instructions[0], instructions[1..];
      assert Stable(first);
      var size := INSTRUCTION_SIZE * first.Width();
      StableRoundTrip(others, index + 1, at + size);
      var slots, rest := Encode(first).value, EncodeAt(others, index + 1).value;
      DecodeOnePrefix(slots, rest);
      assert slots[..size] == slots;
      assert (slots + rest)[size..] == rest;
      assert [first] + others == instructions;
    }
  }

  // Normalised decoded instructions are stable unless they are tagged calls.
  lemma NormalStable(raw: seq<Byte>)
    requires DecodeOne(raw).Success? && !TaggedCall(DecodeOne(raw).value)
    ensures Stable(Normal(DecodeOne(raw).value))
  {
    var i := DecodeOne(raw).value;
    ReencodeOne(raw, []);
    var clear := ZeroedFirst(raw);
    assert clear + [] == clear;
    NormalTagged(i);
    NormalWidth(i);
    hide Encode, DecodeOne, TaggedCall, Normal;
    ReencodeOne(clear, []);
    assert ZeroedFirst(clear) == clear by { ZeroedFirstIdempotent(raw); }
  }

  lemma ZeroedFirstIdempotent(raw: seq<Byte>)
    requires DecodeOne(raw).Success? && DecodeOne(ZeroedFirst(raw)).Success?
    ensures ZeroedFirst(ZeroedFirst(raw)) == ZeroedFirst(raw)
  {
    var clear := ZeroedFirst(raw);
    assert clear[0] == raw[0];
    if IsDwordLoad(raw[0]) {
      assert clear[..2 * INSTRUCTION_SIZE] == clear;
    } else {
      ZeroedSlotIdempotent(raw, []);
      assert clear + [] == clear;
    }
  }
}
