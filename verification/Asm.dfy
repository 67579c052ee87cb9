/** eBPF instructions: decoded from and encoded to the kernel's 8-byte slots in little-endian
    order, with the normalisations the wrapper format depends on. */
module Asm {
  import opened Wrappers
  import opened Words

  const INSTRUCTION_SIZE: nat := 8

  type Register = x: int | 0 <= x < 0x100

  const R0: Register := 0
  const R1: Register := 1
  const R2: Register := 2
  const R3: Register := 3
  const R4: Register := 4
  const R5: Register := 5
  const R6: Register := 6

  // Memory modes and sizes of loads and stores.
  const MODE_MEM: U32 := 0x60
  const MODE_ATOMIC: U32 := 0xc0
  const INVALID_MODE: U32 := 0xff
  const WORD: U32 := 0x00
  const HALF: U32 := 0x08
  const BYTE: U32 := 0x10
  const DWORD: U32 := 0x18
  const INVALID_SIZE: U32 := 0xff

  const IMM_SOURCE: U32 := 0x00
  const REG_SOURCE: U32 := 0x08
  const INVALID_SOURCE: U32 := 0xffff

  // ALU operations; the ones a wire offset tells apart have their own numbers once decoded.
  const DIV: U32 := 0x30
  const SDIV: U32 := 0x130
  const OR: U32 := 0x40
  const AND: U32 := 0x50
  const LSH: U32 := 0x60
  const RSH: U32 := 0x70
  const MOD: U32 := 0x90
  const SMOD: U32 := 0x190
  const MOV: U32 := 0xb0
  const MOVSX8: U32 := 0x1b0
  const MOVSX16: U32 := 0x2b0
  const MOVSX32: U32 := 0x3b0
  const SWAP: U32 := 0xd0
  const INVALID_ALU_OP: U32 := 0xffff

  const JA: U32 := 0x00
  const JEQ: U32 := 0x10
  const JGT: U32 := 0x20
  const JGE: U32 := 0x30
  const JSET: U32 := 0x40
  const JNE: U32 := 0x50
  const JSGT: U32 := 0x60
  const JSGE: U32 := 0x70
  const CALL: U32 := 0x80
  const EXIT: U32 := 0x90
  const JLT: U32 := 0xa0
  const JLE: U32 := 0xb0
  const JSLT: U32 := 0xc0
  const JSLE: U32 := 0xd0
  const INVALID_JUMP_OP: U32 := 0xff

  const INVALID_OPCODE: U32 := 0xffff
  const LD_IMM64: U32 := 0x18

  datatype Class = Ld | LdX | St | StX | Alu | Jump | Jump32 | Alu64 {
    predicate IsLoadOrStore() { Ld? || LdX? || St? || StX? }
    predicate IsAlu() { Alu? || Alu64? }
    predicate IsJump() { Jump? || Jump32? }
  }

  // The accessors mask the opcode: each field is a contiguous run of bits.
  function ClassOf(opcode: U32): Class {
    match opcode % 8
    case 0 => Ld
    case 1 => LdX
    case 2 => St
    case 3 => StX
    case 4 => Alu
    case 5 => Jump
    case 6 => Jump32
    case _ => Alu64
  }

  function Mode(opcode: U32): U32 {
    if ClassOf(opcode).IsLoadOrStore() then opcode / 0x20 % 8 * 0x20 else INVALID_MODE
  }

  function Size(opcode: U32): U32 {
    if ClassOf(opcode).IsLoadOrStore() then opcode / 8 % 4 * 8 else INVALID_SIZE
  }

  function AluOp(opcode: U32): U32 {
    if ClassOf(opcode).IsAlu() then opcode / 0x10 % 0x400 * 0x10 else INVALID_ALU_OP
  }

  function Source(opcode: U32): U32 {
    var kind := ClassOf(opcode);
    if !(kind.IsJump() || kind.IsAlu()) || AluOp(opcode) == SWAP then INVALID_SOURCE
    else opcode / 8 % 2 * 8
  }

  function JumpOp(opcode: U32): U32 {
    var kind := ClassOf(opcode);
    if !kind.IsJump() then INVALID_JUMP_OP
    else
      var op := opcode / 0x10 % 0x10 * 0x10;
      if kind.Jump32? && (op == EXIT || op == CALL) then INVALID_JUMP_OP else op
  }

  predicate IsAtomic(opcode: U32) {
    ClassOf(opcode).StX? && Mode(opcode) == MODE_ATOMIC
  }

  predicate IsDwordLoad(opcode: U32) {
    opcode == LD_IMM64
  }

  // `opcode` with its ALU operation replaced by `op`.
  function WithAluOp(opcode: U32, op: U32): U32
    requires op <= 0x3ff0
  {
    opcode / 0x4000 * 0x4000 + op + opcode % 0x10
  }

  datatype Instruction = Instruction(opcode: U32, dst: Register, src: Register, offset: I16, constant: I64) {
    // A ld_imm64 takes two slots.
    function Width(): nat {
      if IsDwordLoad(opcode) then 2 else 1
    }

    predicate IsBuiltinCall() {
      JumpOp(opcode) == CALL && src == R0 && dst == R0
    }
  }

  function LoadMem(dst: Register, src: Register, offset: I16, size: U32): Instruction
    requires size <= DWORD
  {
    Instruction(0x01 + MODE_MEM + size, dst, src, offset, 0)
  }

  function Alu32Imm(op: U32, dst: Register, value: I32): Instruction
    requires op <= SWAP
  {
    Instruction(0x04 + op + IMM_SOURCE, dst, R0, 0, value)
  }

  function Alu32Reg(op: U32, dst: Register, src: Register): Instruction
    requires op <= SWAP
  {
    Instruction(0x04 + op + REG_SOURCE, dst, src, 0, 0)
  }

  function JumpImm(op: U32, dst: Register, value: I32, offset: I16): Instruction
    requires op <= JSLE
  {
    Instruction(0x05 + op + IMM_SOURCE, dst, R0, offset, value)
  }

  function JumpReg(op: U32, dst: Register, src: Register, offset: I16): Instruction
    requires op <= JSLE
  {
    Instruction(0x05 + op + REG_SOURCE, dst, src, offset, 0)
  }

  function Exit(): Instruction {
    Instruction(0x05 + EXIT + IMM_SOURCE, R0, R0, 0, 0)
  }

  datatype DecodeCause =
    | UnexpectedEof
    | MissingSecondHalf
    | NonZeroFields
    | InvalidConstant(id: U32)

  datatype DecodeError = DecodeError(offset: nat, cause: DecodeCause)

  datatype EncodeCause =
    | InvalidOpCode
    | OpCodeBits(opcode: U32)
    | Unsupported(id: U32)
    | ExtendedOffset

  datatype EncodeError = EncodeError(index: nat, cause: EncodeCause)

  // A helper ID's platform tag: bits 28 to 30.
  function PlatformTag(id: U32): nat {
    id / 0x1000_0000 % 8
  }

  // The operation on the wire and the offset that stands for a decoded extended operation.
  function WireAlu(op: U32): (U32, I16) {
    if op == SDIV then (DIV, 1)
    else if op == SMOD then (MOD, 1)
    else if op == MOVSX8 then (MOV, 8)
    else if op == MOVSX16 then (MOV, 16)
    else if op == MOVSX32 then (MOV, 32)
    else (op, 0)
  }

  // The extended operation a wire offset turns `op` into.
  function ExtendedAlu(op: U32, offset: I16): Option<U32> {
    if op == DIV && offset == 1 then Some(SDIV)
    else if op == MOD && offset == 1 then Some(SMOD)
    else if op == MOV && offset == 8 then Some(MOVSX8)
    else if op == MOV && offset == 16 then Some(MOVSX16)
    else if op == MOV && offset == 32 then Some(MOVSX32)
    else None
  }

  type Nibble = x: int | 0 <= x < 0x10

  lemma SplitNibble(q: nat, r: Nibble)
    ensures (0x10 * q + r) / 0x10 == q && (0x10 * q + r) % 0x10 == r
  {
  }

  lemma SplitEighth(q: nat, r: nat)
    requires r < 8
    ensures (8 * q + r) % 8 == r
  {
  }

  lemma SplitOpcode(op: nat, low: Nibble)
    ensures var opcode := op * 0x10 + low;
            && opcode / 0x10 == op && opcode % 0x10 == low
            && opcode % 8 == low % 8
  {
    SplitNibble(op, low);
    SplitEighth(2 * op + low / 8, low % 8);
    assert op * 0x10 + low == 0x10 * op + low == 8 * (2 * op + low / 8) + low % 8;
  }

  // The ALU operation of an opcode byte replaced by `wide`, and put back.
  lemma AluOpcode(op: Byte, wide: U32)
    requires ClassOf(op).IsAlu() && wide < 0x400 && wide % 0x10 == 0
    ensures AluOp(op) < 0x100 && AluOp(op) % 0x10 == 0
    ensures var opcode := WithAluOp(op, wide);
            && opcode < 0x410 && opcode != LD_IMM64 && op != LD_IMM64
            && ClassOf(opcode) == ClassOf(op)
            && AluOp(opcode) == wide
            && WithAluOp(opcode, AluOp(op)) == op
            && JumpOp(opcode) == INVALID_JUMP_OP
    ensures WithAluOp(op, AluOp(op)) == op
  {
    var low := op % 0x10;
    SplitOpcode(op / 0x10, low);
    SplitOpcode(wide / 0x10, low);
    assert low == 4 || low == 7 || low == 12 || low == 15;
    assert WithAluOp(op, wide) == wide / 0x10 * 0x10 + low;
    assert AluOp(op) == op / 0x10 * 0x10;
  }

  lemma AtomicOpcode(op: Byte, operation: nat)
    requires IsAtomic(op) && operation < 0x200
    ensures var wide := op + operation * 0x100;
            && IsAtomic(wide)
            && wide - wide / 0x100 % 0x200 * 0x100 == op
            && wide != INVALID_OPCODE && wide != LD_IMM64 && op != LD_IMM64
            && JumpOp(wide) == INVALID_JUMP_OP && JumpOp(op) == INVALID_JUMP_OP
            && !ClassOf(wide).IsAlu() && !ClassOf(op).IsAlu()
  {
    var wide := op + operation * 0x100;
    assert wide / 0x100 == operation;
    assert wide % 8 == op % 8;
    assert wide / 0x20 == op / 0x20 + operation * 8;
  }

  // The fields of one 8-byte slot.
  datatype Slot = Slot(op: Byte, dst: Nibble, src: Nibble, offset: I16, imm: I32)

  function ReadSlot(raw: seq<Byte>): Slot
    requires |raw| >= INSTRUCTION_SIZE
  {
    Slot(raw[0], raw[1] % 0x10, raw[1] / 0x10, SignedI16(Word16(raw[2], raw[3])),
         SignedI32(Word32(raw[4], raw[5], raw[6], raw[7])))
  }

  function WriteSlot(slot: Slot): (raw: seq<Byte>)
    ensures |raw| == INSTRUCTION_SIZE
  {
    [slot.op, slot.src * 0x10 + slot.dst] + Bytes16(UnsignedI16(slot.offset)) + Bytes32(LowU32(slot.imm))
  }

  function WriteSlots(slots: seq<Slot>): (raw: seq<Byte>)
    ensures |raw| == INSTRUCTION_SIZE * |slots|
  {
    if |slots| == 0 then [] else WriteSlot(slots[0]) + WriteSlots(slots[1..])
  }

  // The wire opcode and offset of an instruction, before the opcode is checked to be a byte.
  function WireForm(i: Instruction): Result<(U32, I16), EncodeCause> {
    if i.opcode == INVALID_OPCODE then Failure(InvalidOpCode)
    else if i.IsBuiltinCall() then
      var id := LowU32(i.constant);
      if PlatformTag(id) != 0 then Failure(Unsupported(id)) else Success((i.opcode, i.offset))
    else if ClassOf(i.opcode).IsAlu() then
      var (base, wireOffset) := WireAlu(AluOp(i.opcode));
      if wireOffset != 0 && i.offset != 0 then Failure(ExtendedOffset)
      else Success((WithAluOp(i.opcode, base), wireOffset))
    else if IsAtomic(i.opcode) then
      Success((i.opcode - i.opcode / 0x100 % 0x200 * 0x100, i.offset))
    else Success((i.opcode, i.offset))
  }

  // The second slot of a ld_imm64 holds nothing but the high half of the immediate.
  function HighSlot(high: I32): Slot {
    Slot(0, 0, 0, 0, high)
  }

  function EncodeSlots(i: Instruction): Result<seq<Slot>, EncodeCause> {
    match WireForm(i)
    case Failure(cause) => Failure(cause)
    case Success((opcode, offset)) =>
      if opcode >= 0x100 then Failure(OpCodeBits(opcode))
      else
        var slot := Slot(opcode, i.dst % 0x10, i.src % 0x10, offset, LowI32(i.constant));
        Success(if IsDwordLoad(opcode) then [slot, HighSlot(SignedI32(HighU32(i.constant)))] else [slot])
  }

  function Encode(i: Instruction): Result<seq<Byte>, EncodeCause> {
    match EncodeSlots(i)
    case Failure(cause) => Failure(cause)
    case Success(slots) => Success(WriteSlots(slots))
  }

  // The instruction of one slot; a ld_imm64 has only the low half of its immediate.
  function DecodeSlot(slot: Slot): (r: Result<Instruction, DecodeCause>)
    ensures r.Success? ==> (IsDwordLoad(r.value.opcode) <==> IsDwordLoad(slot.op))
  {
    hide ClassOf, AluOp, JumpOp, WithAluOp, IsAtomic, LowU32;
    var plain := Instruction(slot.op, slot.dst, slot.src, slot.offset, slot.imm);
    if plain.IsBuiltinCall() then
      if slot.imm >= 0x1000_0000 then Failure(InvalidConstant(slot.imm)) else Success(plain)
    else if ClassOf(slot.op).IsAlu() then
      var extended := ExtendedAlu(AluOp(slot.op), slot.offset);
      if extended.None? then Success(plain)
      else
        AluOpcode(slot.op, extended.value);
        Success(plain.(opcode := WithAluOp(slot.op, extended.value), offset := 0))
    else if IsAtomic(slot.op) then
      AtomicOpcode(slot.op, LowU32(slot.imm) % 0x200);
      Success(plain.(opcode := slot.op + LowU32(slot.imm) % 0x200 * 0x100))
    else Success(plain)
  }

  // The instruction at the start of `raw`.
  function DecodeOne(raw: seq<Byte>): (r: Result<Instruction, DecodeCause>)
    ensures r.Success? ==> INSTRUCTION_SIZE * r.value.Width() <= |raw|
  {
    if |raw| < INSTRUCTION_SIZE then Failure(UnexpectedEof)
    else
      var slot := ReadSlot(raw);
      var first := DecodeSlot(slot);
      if first.Failure? || !IsDwordLoad(slot.op) then first
      else if |raw| < 2 * INSTRUCTION_SIZE then Failure(MissingSecondHalf)
      else
        var second := ReadSlot(raw[INSTRUCTION_SIZE..]);
        if second != HighSlot(second.imm) then Failure(NonZeroFields)
        else Success(first.value.(constant := second.imm * 0x1_0000_0000 + LowU32(slot.imm)))
  }

  // The instructions of `rest`, which starts at byte `at` of the whole program.
  function DecodeAt(rest: seq<Byte>, at: nat): Result<seq<Instruction>, DecodeError>
    decreases |rest|
  {
    if |rest| == 0 then Success([])
    else
      match DecodeOne(rest)
      case Failure(cause) => Failure(DecodeError(at, cause))
      case Success(first) =>
        var size := INSTRUCTION_SIZE * first.Width();
        match DecodeAt(rest[size..], at + size)
        case Failure(error) => Failure(error)
        case Success(others) => Success([first] + others)
  }

  function DecodeAll(raw: seq<Byte>): Result<seq<Instruction>, DecodeError> {
    DecodeAt(raw, 0)
  }

  function EncodeAt(instructions: seq<Instruction>, index: nat): Result<seq<Byte>, EncodeError> {
    if |instructions| == 0 then Success([])
    else
      match Encode(instructions[0])
      case Failure(cause) => Failure(EncodeError(index, cause))
      case Success(slots) =>
        match EncodeAt(instructions[1..], index + 1)
        case Failure(error) => Failure(error)
        case Success(others) => Success(slots + others)
  }

  function EncodeAll(instructions: seq<Instruction>): Result<seq<Byte>, EncodeError> {
    EncodeAt(instructions, 0)
  }

  method Decode(raw: seq<Byte>) returns (r: Result<seq<Instruction>, DecodeError>)
    ensures r == DecodeAll(raw)
  {
    hide DecodeOne;
    var instructions: seq<Instruction> := [];
    var offset := 0;
    assert raw[offset..] == raw;
    assert DecodeAll(raw).Success? ==> [] + DecodeAll(raw).value == DecodeAll(raw).value;
    while offset < |raw|
      invariant offset <= |raw|
      invariant match DecodeAt(raw[offset..], offset)
                case Failure(error) => DecodeAll(raw) == Failure(error)
                case Success(others) => DecodeAll(raw) == Success(instructions + others)
    {
      var rest := raw[offset..];
      match DecodeOne(rest) {
        case Failure(cause) =>
          return Failure(DecodeError(offset, cause));
        case Success(first) =>
          var size := INSTRUCTION_SIZE * first.Width();
          assert rest[size..] == raw[offset + size..];
          ghost var tail := DecodeAt(rest[size..], offset + size);
          assert tail.Success? ==> instructions + ([first] + tail.value) == instructions + [first] + tail.value;
          offset := offset + size;
          instructions := instructions + [first];
      }
    }
    assert instructions + [] == instructions;
    return Success(instructions);
  }

  method CanonicalBytes(instructions: seq<Instruction>) returns (r: Result<seq<Byte>, EncodeError>)
    ensures r == EncodeAll(instructions)
  {
    hide Encode;
    var raw: seq<Byte> := [];
    var index := 0;
    assert instructions[index..] == instructions;
    assert EncodeAll(instructions).Success? ==> [] + EncodeAll(instructions).value == EncodeAll(instructions).value;
    while index < |instructions|
      invariant index <= |instructions|
      invariant match EncodeAt(instructions[index..], index)
                case Failure(error) => EncodeAll(instructions) == Failure(error)
                case Success(others) => EncodeAll(instructions) == Success(raw + others)
    {
      var rest := instructions[index..];
      match Encode(instructions[index]) {
        case Failure(cause) =>
          return Failure(EncodeError(index, cause));
        case Success(slots) =>
          assert rest[1..] == instructions[index + 1..];
          ghost var tail := EncodeAt(rest[1..], index + 1);
          assert tail.Success? ==> raw + (slots + tail.value) == raw + slots + tail.value;
          index := index + 1;
          raw := raw + slots;
      }
    }
    assert instructions[index..] == [];
    assert raw + [] == raw;
    return Success(raw);
  }
}
