/** The wire format byte by byte, in the numbers of RFC 9669: where every field of a decoded instruction
    is in the bytes, and where every field of an instruction is written. */
module WireFormat {
  import opened Wrappers
  import opened Words
  import opened Asm
  import opened AsmCanonical

  // --- Reading ----------------------------------------------------------------------------------------

  // The signed little-endian words of a slot.
  function OffsetAt(raw: seq<Byte>): int
    requires |raw| >= 8
  {
    var word := raw[2] as int + 256 * raw[3] as int;
    if word < 0x8000 then word else word - 0x1_0000
  }

  function UnsignedAt(raw: seq<Byte>): int
    requires |raw| >= 8
  {
    raw[4] as int + 256 * raw[5] as int + 0x1_0000 * raw[6] as int + 0x100_0000 * raw[7] as int
  }

  function ImmediateAt(raw: seq<Byte>): int
    requires |raw| >= 8
  {
    if UnsignedAt(raw) < 0x8000_0000 then UnsignedAt(raw) else UnsignedAt(raw) - 0x1_0000_0000
  }

  // Arithmetic is class 4 (32 bits) or 7 (64 bits).
  predicate Arithmetic(opcode: Byte) {
    opcode % 8 == 4 || opcode % 8 == 7
  }

  // The offset that makes a division or modulo signed, or a move sign-extending, and the number the
  // operation is told apart by once decoded: 0 for none.
  function Extension(opcode: Byte, offset: int): nat {
    if !Arithmetic(opcode) then 0
    else if (opcode / 0x10 == 0x3 || opcode / 0x10 == 0x9) && offset == 1 then 1
    else if opcode / 0x10 == 0xb && offset == 8 then 1
    else if opcode / 0x10 == 0xb && offset == 16 then 2
    else if opcode / 0x10 == 0xb && offset == 32 then 3
    else 0
  }

  // Atomic operations are stores from a register (class 3) in mode 6.
  predicate AtomicStore(opcode: Byte) {
    opcode % 8 == 3 && opcode / 0x20 == 6
  }

  // A call of a helper by a number that carries a platform tag.
  predicate HelperCall(raw: seq<Byte>)
    requires |raw| >= 8
  {
    (raw[0] == 0x85 || raw[0] == 0x8d) && raw[1] == 0
  }

  lemma ExtensionIs(op: Byte, offset: I16)
    requires ClassOf(op).IsAlu()
    ensures Arithmetic(op)
    ensures match ExtendedAlu(AluOp(op), offset)
            case None => Extension(op, offset) == 0
            case Some(wide) => Extension(op, offset) > 0 && WithAluOp(op, wide) == op + 0x100 * Extension(op, offset)
  {
    assert AluOp(op) == op / 0x10 * 0x10;
    assert op / 0x4000 == 0;
  }

  lemma AtomicIs(op: Byte)
    ensures IsAtomic(op) <==> AtomicStore(op)
    ensures ClassOf(op).IsAlu() <==> Arithmetic(op)
  {
  }

  lemma CallIs(op: Byte)
    ensures JumpOp(op) == CALL <==> op == 0x85 || op == 0x8d
  {
    if JumpOp(op) == CALL {
      assert op % 8 == 5 && op / 0x10 == 8;
    }
  }

  lemma NibblesZero(b: Byte)
    ensures b % 0x10 == 0 && b / 0x10 == 0 <==> b == 0
  {
  }

  lemma SlotFields(raw: seq<Byte>)
    requires |raw| >= 8
    ensures var slot := ReadSlot(raw);
            && slot.op == raw[0] && slot.dst == raw[1] % 16 && slot.src == raw[1] / 16
            && slot.offset == OffsetAt(raw) && slot.imm == ImmediateAt(raw) && LowU32(slot.imm) == UnsignedAt(raw)
  {
  }

  // What is decoded from one slot.
  lemma SlotDecodes(raw: seq<Byte>)
    requires |raw| >= 8
    ensures DecodeSlot(ReadSlot(raw)).Failure? <==> HelperCall(raw) && ImmediateAt(raw) >= 0x1000_0000
    ensures DecodeSlot(ReadSlot(raw)).Success? ==>
              var i := DecodeSlot(ReadSlot(raw)).value;
              var extension := Extension(raw[0], OffsetAt(raw));
              && i.dst == raw[1] % 16 && i.src == raw[1] / 16 && i.constant == ImmediateAt(raw)
              && i.offset == (if extension > 0 then 0 else OffsetAt(raw))
              && i.opcode == raw[0] + 0x100 * (if AtomicStore(raw[0]) then UnsignedAt(raw) % 0x200 else extension)
  {
    SlotFields(raw);
    AtomicIs(raw[0]);
    CallIs(raw[0]);
    NibblesZero(raw[1]);
    if Arithmetic(raw[0]) {
      ExtensionIs(raw[0], OffsetAt(raw));
    }
    hide ReadSlot, ClassOf, AluOp, JumpOp, IsAtomic, WithAluOp, ExtendedAlu, AtomicStore, Arithmetic, OffsetAt, ImmediateAt, UnsignedAt, LowU32;
    assert AtomicStore(raw[0]) ==> !Arithmetic(raw[0]) by { NotBoth(raw[0]); }
  }

  lemma NotBoth(op: Byte)
    ensures !(AtomicStore(op) && Arithmetic(op)) && (op == 0x85 || op == 0x8d ==> !AtomicStore(op) && !Arithmetic(op))
  {
  }

  // The second slot of a 64-bit load: nothing but the high half.
  predicate HighHalf(raw: seq<Byte>) {
    |raw| >= 16 && raw[8] == 0 && raw[9] == 0 && raw[10] == 0 && raw[11] == 0
  }

  // `i` is what the bytes say: every field where it is on the wire, and nothing that does not decode.
  predicate Reads(raw: seq<Byte>, i: Instruction) {
    && |raw| >= 8
    && !(HelperCall(raw) && ImmediateAt(raw) >= 0x1000_0000) && (raw[0] == 0x18 ==> HighHalf(raw))
    && i.dst == raw[1] % 16 && i.src == raw[1] / 16
    && i.opcode == raw[0] as int + 0x100 * (if AtomicStore(raw[0]) then UnsignedAt(raw) % 0x200 else Extension(raw[0], OffsetAt(raw)))
    && i.offset == (if Extension(raw[0], OffsetAt(raw)) > 0 then 0 else OffsetAt(raw))
    && i.constant == if raw[0] == 0x18 then ImmediateAt(raw[8..]) * 0x1_0000_0000 + UnsignedAt(raw) else ImmediateAt(raw)
  }

  lemma DecodedNarrow(raw: seq<Byte>, i: Instruction)
    requires |raw| >= 8 && raw[0] != 0x18
    ensures DecodeOne(raw) == Success(i) <==> Reads(raw, i)
  {
    SlotFields(raw);
    SlotDecodes(raw);
    hide ReadSlot, DecodeSlot, Extension, AtomicStore, HelperCall, OffsetAt, ImmediateAt, UnsignedAt, LowU32;
  }

  lemma SecondSlot(raw: seq<Byte>)
    requires |raw| >= 16
    ensures var second := ReadSlot(raw[8..]);
            second.imm == ImmediateAt(raw[8..]) && (second == HighSlot(second.imm) <==> HighHalf(raw))
  {
    SlotFields(raw[8..]);
    NibblesZero(raw[9]);
    ZeroOffset(raw[8..]);
    assert raw[8..][0] == raw[8] && raw[8..][1] == raw[9] && raw[8..][2] == raw[10] && raw[8..][3] == raw[11];
    hide ReadSlot, OffsetAt, ImmediateAt, UnsignedAt, LowU32;
  }

  lemma DecodedWide(raw: seq<Byte>, i: Instruction)
    requires |raw| >= 16 && raw[0] == 0x18
    ensures DecodeOne(raw) == Success(i) <==> Reads(raw, i)
  {
    SlotFields(raw);
    SlotDecodes(raw);
    LoadIsNoCall(raw);
    SecondSlot(raw);
    hide HighHalf, HighSlot;
    hide ReadSlot, DecodeSlot, Extension, AtomicStore, HelperCall, OffsetAt, ImmediateAt, UnsignedAt, LowU32;
  }

  lemma DecodedFields(raw: seq<Byte>, i: Instruction)
    ensures DecodeOne(raw) == Success(i) <==> Reads(raw, i)
  {
    if |raw| >= 8 && raw[0] != 0x18 {
      DecodedNarrow(raw, i);
    } else if |raw| >= 16 {
      DecodedWide(raw, i);
    } else {
      hide ReadSlot, DecodeSlot;
      if |raw| >= 8 {
        SlotFields(raw);
      }
    }
  }

  // The instructions of a whole program, one behind the other.
  predicate ReadsAll(raw: seq<Byte>, instructions: seq<Instruction>)
    decreases |instructions|
  {
    if |instructions| == 0 then |raw| == 0
    else Reads(raw, instructions[0]) && ReadsAll(raw[if raw[0] == 0x18 then 16 else 8..], instructions[1..])
  }

  // Decoding gives exactly the instructions the bytes say, and fails exactly when they say none.
  lemma {:induction false} DecodesAsWritten(raw: seq<Byte>, at: nat, instructions: seq<Instruction>)
    ensures DecodeAt(raw, at) == Success(instructions) <==> ReadsAll(raw, instructions)
    decreases |raw|
  {
    hide DecodeOne, Reads;
    if |raw| == 0 {
      if |instructions| > 0 {
        NothingRead(instructions[0]);
      }
    } else if |instructions| > 0 {
      DecodedFields(raw, instructions[0]);
      if Reads(raw, instructions[0]) {
        var size := if raw[0] == 0x18 then 16 else 8;
        SizeOf(raw, instructions[0]);
        DecodesAsWritten(raw[size..], at + size, instructions[1..]);
        assert instructions == [instructions[0]] + instructions[1..];
      }
    }
  }

  lemma NothingRead(i: Instruction)
    ensures !Reads([], i)
  {
  }

  lemma SizeOf(raw: seq<Byte>, i: Instruction)
    requires Reads(raw, i)
    ensures 8 * i.Width() == (if raw[0] == 0x18 then 16 else 8) <= |raw|
  {
    hide HelperCall, OffsetAt, ImmediateAt, UnsignedAt;
    assert i.opcode % 0x100 == raw[0];
    assert raw[0] == 0x18 ==> !AtomicStore(raw[0]) && Extension(raw[0], OffsetAt(raw)) == 0;
  }

  lemma ZeroOffset(raw: seq<Byte>)
    requires |raw| >= 8
    ensures OffsetAt(raw) == 0 <==> raw[2] == 0 && raw[3] == 0
  {
  }

  lemma LoadIsNoCall(raw: seq<Byte>)
    requires |raw| >= 8 && raw[0] == 0x18
    ensures !HelperCall(raw)
  {
  }

  // Canonicalisation clears exactly the offsets of arithmetic that mean nothing.
  lemma SpareIs(raw: seq<Byte>)
    requires |raw| >= 8
    ensures SpareOffset(ReadSlot(raw)) <==> Arithmetic(raw[0]) && Extension(raw[0], OffsetAt(raw)) == 0
  {
    SlotFields(raw);
    AtomicIs(raw[0]);
    if Arithmetic(raw[0]) {
      ExtensionIs(raw[0], OffsetAt(raw));
    }
    hide ReadSlot, ClassOf, AluOp, ExtendedAlu, Extension, OffsetAt;
  }

  // --- Writing ----------------------------------------------------------------------------------------

  // A slot with these fields.
  function Raw(opcode: Byte, dst: nat, src: nat, offset: int, immediate: int): seq<Byte>
    requires dst < 16 && src < 16
  {
    var low := immediate % 0x1_0000_0000;
    [opcode, src * 16 + dst, offset % 256, offset / 256 % 256, low % 256, low / 256 % 256, low / 0x1_0000 % 256, low / 0x100_0000]
  }

  // The wire offset of an arithmetic instruction: that of its extended meaning, else none.
  function WireOffset(opcode: U32): int {
    var op := opcode / 0x10;
    if op == 0x13 || op == 0x19 then 1 else if op == 0x1b then 8 else if op == 0x2b then 16 else if op == 0x3b then 32 else 0
  }

  predicate ArithmeticClass(opcode: U32) {
    opcode % 8 == 4 || opcode % 8 == 7
  }

  lemma WordBytes(x: int)
    ensures var low := x % 0x1_0000_0000;
            Bytes32(LowU32(x)) == [low % 256, low / 256 % 256, low / 0x1_0000 % 256, low / 0x100_0000]
  {
    var low := LowU32(x);
    assert low / 256 / 256 == low / 0x1_0000 && low / 0x1_0000 / 256 == low / 0x100_0000;
  }

  lemma HalfBytes(x: I16)
    ensures Bytes16(UnsignedI16(x)) == [x % 256, x / 256 % 256]
  {
  }

  lemma WrittenSlot(slot: Slot)
    ensures WriteSlot(slot) == Raw(slot.op, slot.dst, slot.src, slot.offset, slot.imm)
  {
    WordBytes(slot.imm);
    HalfBytes(slot.offset);
  }

  // The wire form of arithmetic: the low byte of the opcode and the offset of the extended meaning.
  lemma ArithmeticWire(opcode: U32)
    requires ClassOf(opcode).IsAlu()
    ensures ArithmeticClass(opcode)
    ensures var (base, offset) := WireAlu(AluOp(opcode));
            WithAluOp(opcode, base) < 0x100 ==> WithAluOp(opcode, base) == opcode % 0x100 && offset == WireOffset(opcode)
  {
    var (base, offset) := WireAlu(AluOp(opcode));
    var op := opcode / 0x10 % 0x400;
    assert AluOp(opcode) == op * 0x10;
    if WithAluOp(opcode, base) < 0x100 {
      assert opcode < 0x4000 && op == opcode / 0x10;
      assert opcode == op * 0x10 + opcode % 0x10;
      assert base / 0x10 == op % 0x10 && base < 0x100;
    }
  }

  lemma AtomicWire(opcode: U32)
    requires opcode - opcode / 0x100 % 0x200 * 0x100 < 0x100
    ensures opcode - opcode / 0x100 % 0x200 * 0x100 == opcode % 0x100
  {
  }

  lemma ClassesApart(opcode: U32)
    ensures ClassOf(opcode).IsAlu() <==> ArithmeticClass(opcode)
    ensures JumpOp(opcode) == CALL ==> !ArithmeticClass(opcode)
  {
  }

  lemma WireForms(i: Instruction)
    requires WireForm(i).Success? && WireForm(i).value.0 < 0x100
    ensures WireForm(i).value == (i.opcode % 0x100, if ArithmeticClass(i.opcode) then WireOffset(i.opcode) else i.offset)
  {
    ClassesApart(i.opcode);
    if ClassOf(i.opcode).IsAlu() {
      ArithmeticWire(i.opcode);
    } else if IsAtomic(i.opcode) && !i.IsBuiltinCall() {
      AtomicWire(i.opcode);
    }
    hide ClassOf, AluOp, WithAluOp, JumpOp, IsAtomic, WireAlu, WireOffset, ArithmeticClass, PlatformTag;
  }

  // The bytes of an instruction, field by field.
  function WireBytes(i: Instruction): seq<Byte> {
    var offset := if ArithmeticClass(i.opcode) then WireOffset(i.opcode) else i.offset;
    var slot := Raw(i.opcode % 0x100, i.dst % 16, i.src % 16, offset, i.constant);
    if i.opcode % 0x100 == 0x18 then slot + Raw(0, 0, 0, 0, i.constant / 0x1_0000_0000) else slot
  }

  lemma EncodedFields(i: Instruction)
    requires Encode(i).Success?
    ensures Encode(i).value == WireBytes(i)
  {
    WireForms(i);
    hide WireForm;
    var (opcode, offset) := WireForm(i).value;
    var slot := Slot(opcode, i.dst % 0x10, i.src % 0x10, offset, LowI32(i.constant));
    var high := HighSlot(SignedI32(HighU32(i.constant)));
    WrittenSlot(slot);
    WrittenSlot(high);
    SameLow(i.constant);
    SameLow(i.constant / 0x1_0000_0000);
    assert high.imm == LowI32(i.constant / 0x1_0000_0000);
    WrittenSlots(slot, high);
    hide WriteSlot, WriteSlots, LowI32, SignedI32, HighU32;
    assert opcode == i.opcode % 0x100;
  }

  lemma WrittenSlots(slot: Slot, high: Slot)
    ensures WriteSlots([slot]) == WriteSlot(slot) && WriteSlots([slot, high]) == WriteSlot(slot) + WriteSlot(high)
  {
    hide WriteSlot;
    assert WriteSlots([]) == [];
    assert [slot][1..] == [] && [slot, high][1..] == [high] && [high][1..] == [];
    assert WriteSlot(slot) + [] == WriteSlot(slot) && WriteSlot(high) + [] == WriteSlot(high);
    assert WriteSlots([high]) == WriteSlot(high);
  }

  // The low half of a number is what is written of it.
  lemma SameLow(x: int)
    ensures LowI32(x) % 0x1_0000_0000 == x % 0x1_0000_0000
  {
  }

  function AllBytes(instructions: seq<Instruction>): seq<Byte> {
    if |instructions| == 0 then [] else WireBytes(instructions[0]) + AllBytes(instructions[1..])
  }

  // Encoding writes exactly those bytes, one instruction behind the other.
  lemma {:induction false} EncodesAsWritten(instructions: seq<Instruction>, index: nat)
    requires EncodeAt(instructions, index).Success?
    ensures EncodeAt(instructions, index).value == AllBytes(instructions)
    decreases |instructions|
  {
    hide Encode, WireBytes;
    if |instructions| > 0 {
      EncodedFields(instructions[0]);
      EncodesAsWritten(instructions[1..], index + 1);
    }
  }
}
