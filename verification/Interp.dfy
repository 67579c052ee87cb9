/** The reference semantics of the device filter subset: one step at a time, over registers that may
    not have been written yet. */
module Interp {
  import opened Wrappers
  import opened Words
  import opened Asm
  import opened DeviceFilter

  // A register is None until it is written.
  type Registers = r: seq<Option<U64>> | |r| == 11 witness seq(11, _ => None)

  datatype FaultCause = LeftBounds | UnsetRead | OutsideSubset | Undecodable

  datatype Outcome = Verdict(value: U64) | Fault(cause: FaultCause)

  datatype Config = At(pc: int, regs: Registers) | Done(outcome: Outcome)

  // The program context: `u32 access_type`, `u32 major`, `u32 minor`.
  function Context(q: DevRequest): (context: seq<Byte>)
    ensures |context| == 12
  {
    Bytes32(q.access * 0x1_0000 + q.kind) + Bytes32(q.major) + Bytes32(q.minor)
  }

  function Load(context: seq<Byte>, offset: I16, size: U32): Option<U64> {
    if size == WORD && 0 <= offset && offset + 4 <= |context| then
      Some(Word32(context[offset], context[offset + 1], context[offset + 2], context[offset + 3]))
    else if size == HALF && 0 <= offset && offset + 2 <= |context| then
      Some(Word16(context[offset], context[offset + 1]))
    else if size == BYTE && 0 <= offset < |context| then Some(context[offset])
    else None
  }

  // How instructions compute and compare, None outside what they support. What an original's
  // instructions compute is left open.
  datatype Semantics = Semantics(alu: (U32, bool, U64, U64) -> Option<U64>, compare: (U32, bool, U64, U64) -> Option<bool>)

  // A machine on which the instructions of the daemon's own blocks do what they should: the 32-bit
  // moves, masks and shifts by 16, and the 64-bit comparison for difference.
  ghost predicate RunsBlocks(s: Semantics) {
    && (forall value: U64, source: U64 :: s.alu(MOV, true, value, source) == Some(source % 0x1_0000_0000))
    && (forall value: U64, source: U64 :: s.alu(AND, true, value, source) == Some(BitAnd(value, source) % 0x1_0000_0000))
    && (forall value: U64 :: s.alu(RSH, true, value, 16) == Some(ShiftRight(value % 0x1_0000_0000, 16) % 0x1_0000_0000))
    && (forall left: U64, right: U64 :: s.compare(JNE, false, left, right) == Some(left != right))
  }

  type Machine = s: Semantics | RunsBlocks(s) ghost witness REFERENCE

  // What the reference interpreter computes; it stops at everything else.
  function ReferenceAlu(op: U32, alu32: bool, value: U64, source: U64): Option<U64> {
    var wide: Option<nat> :=
      if op == MOV then Some(source)
      else if op == AND then Some(BitAnd(value, source))
      else if op == OR then Some(BitOr(value, source))
      else if op == LSH then Some(ShiftLeft(value, source % 64))
      else if op == RSH && alu32 then Some(ShiftRight(value % 0x1_0000_0000, source % 32))
      else if op == RSH then Some(ShiftRight(value, source % 64))
      else None;
    if wide.None? then None
    else Some(if alu32 then wide.value % 0x1_0000_0000 else wide.value % 0x1_0000_0000_0000_0000)
  }

  function ReferenceCompare(op: U32, narrow: bool, left: U64, right: U64): Option<bool> {
    if op == JEQ then Some(left == right)
    else if op == JNE then Some(left != right)
    else if op == JGT then Some(left > right)
    else if op == JGE then Some(left >= right)
    else if op == JLT then Some(left < right)
    else if op == JLE then Some(left <= right)
    else if op == JSET then Some(BitAnd(left, right) != 0)
    else None
  }

  const REFERENCE := Semantics(ReferenceAlu, ReferenceCompare)

  // The signed comparisons as well, in two's complement of the comparison's width.
  function SignedCompare(op: U32, narrow: bool, left: U64, right: U64): Option<bool> {
    var l: int := if narrow then SignedI32(left % 0x1_0000_0000) else SignedI64(left);
    var r: int := if narrow then SignedI32(right % 0x1_0000_0000) else SignedI64(right);
    if op == JSGT then Some(l > r)
    else if op == JSGE then Some(l >= r)
    else if op == JSLT then Some(l < r)
    else if op == JSLE then Some(l <= r)
    else ReferenceCompare(op, narrow, left, right)
  }

  // Machines differ in what they support: this one compares signed numbers too.
  lemma SignedIsMachine()
    ensures RunsBlocks(Semantics(ReferenceAlu, SignedCompare))
  {
    hide BitAnd, ShiftRight;
  }

  // Reading a register: it may not have been written, or not exist.
  datatype Read = Got(value: U64) | NotWritten | NoRegister {
    function Fault(): Config {
      Done(Outcome.Fault(if NotWritten? then UnsetRead else OutsideSubset))
    }
  }

  function ReadRegister(regs: Registers, r: Register): Read {
    if r >= 11 then NoRegister else if regs[r].None? then NotWritten else Got(regs[r].value)
  }

  // The second operand: a register or the sign-extended immediate.
  function Operand(i: Instruction, regs: Registers): Read {
    if Source(i.opcode) == REG_SOURCE then ReadRegister(regs, i.src) else Got(UnsignedI64(i.constant))
  }

  function StepLoad(i: Instruction, q: DevRequest, pc: int, regs: Registers): Config {
    var value := Load(Context(q), i.offset, Size(i.opcode));
    if i.src != R1 || value.None? || i.dst >= 11 then Done(Fault(OutsideSubset))
    else At(pc + 1, regs[i.dst := value])
  }

  function StepAlu(cpu: Machine, i: Instruction, pc: int, regs: Registers): Config {
    var op, alu32 := AluOp(i.opcode), ClassOf(i.opcode).Alu?;
    var source := Operand(i, regs);
    // A move does not read its destination.
    var value := if op == MOV && i.dst < 11 then Got(0) else ReadRegister(regs, i.dst);
    if !source.Got? then source.Fault()
    else if !value.Got? then value.Fault()
    else
      match cpu.alu(op, alu32, value.value, source.value)
      case None => Done(Fault(OutsideSubset))
      case Some(result) => At(pc + 1, regs[i.dst := Some(result)])
  }

  function StepJump(cpu: Machine, i: Instruction, pc: int, regs: Registers): Config {
    var op := JumpOp(i.opcode);
    if op == EXIT then
      if regs[R0].None? then Done(Fault(UnsetRead)) else Done(Verdict(regs[R0].value))
    else if op == JA then At(pc + i.offset + 1, regs)
    else
      var left, right := ReadRegister(regs, i.dst), Operand(i, regs);
      if !left.Got? then left.Fault()
      else if !right.Got? then right.Fault()
      else
        var narrow := ClassOf(i.opcode).Jump32?;
        var l: int := if narrow then left.value % 0x1_0000_0000 else left.value;
        var r := if narrow then right.value % 0x1_0000_0000 else right.value;
        match cpu.compare(op, narrow, l, r)
        case None => Done(Fault(OutsideSubset))
        case Some(taken) => At(if taken then pc + i.offset + 1 else pc + 1, regs)
  }

  function StepOne(cpu: Machine, i: Instruction, q: DevRequest, pc: int, regs: Registers): Config {
    match ClassOf(i.opcode)
    case LdX => StepLoad(i, q, pc, regs)
    case Alu => StepAlu(cpu, i, pc, regs)
    case Alu64 => StepAlu(cpu, i, pc, regs)
    case Jump => StepJump(cpu, i, pc, regs)
    case Jump32 => StepJump(cpu, i, pc, regs)
    case Ld => Done(Fault(OutsideSubset))
    case St => Done(Fault(OutsideSubset))
    case StX => Done(Fault(OutsideSubset))
  }

  function Step(cpu: Machine, program: seq<Instruction>, q: DevRequest, c: Config): Config {
    if c.Done? then c
    else if !(0 <= c.pc < |program|) then Done(Fault(LeftBounds))
    else StepOne(cpu, program[c.pc], q, c.pc, c.regs)
  }

  function Iterate(cpu: Machine, program: seq<Instruction>, q: DevRequest, c: Config, n: nat): Config
    decreases n
  {
    if n == 0 then c else Iterate(cpu, program, q, Step(cpu, program, q, c), n - 1)
  }

  // What a program may rely on at entry: the context pointer in R1 and nothing else.
  function EntryRegs(): Registers {
    [None, Some(0), None, None, None, None, None, None, None, None, None]
  }

  // The interpreter's own registers, all zero.
  function ZeroRegs(): Registers {
    seq(11, _ => Some(0))
  }

  // The program returns `value` for the request.
  ghost predicate Decides(cpu: Machine, program: seq<Instruction>, q: DevRequest, value: U64) {
    exists n: nat :: Iterate(cpu, program, q, At(0, EntryRegs()), n) == Done(Verdict(value))
  }

  // What the kernel's verifier guarantees: no run reads a register it has not written.
  ghost predicate ReadsOnlyWritten(cpu: Machine, program: seq<Instruction>, q: DevRequest) {
    forall n: nat :: Iterate(cpu, program, q, At(0, EntryRegs()), n) != Done(Fault(UnsetRead))
  }

  function StepBound(program: seq<Instruction>): nat {
    10 * |program| + 1
  }

  function RunBounded(program: seq<Instruction>, q: DevRequest): Outcome {
    var end := Iterate(REFERENCE, program, q, At(0, ZeroRegs()), StepBound(program));
    if end.Done? then end.outcome else Fault(LeftBounds)
  }

  // The bounded interpreter loop on raw bytes.
  method RunDeviceFilter(raw: seq<Byte>, q: DevRequest) returns (r: Outcome)
    ensures r == match DecodeAll(raw)
                 case Failure(_) => Fault(Undecodable)
                 case Success(program) => RunBounded(program, q)
  {
    hide StepOne, DecodeAt;
    var decoded := Decode(raw);
    if decoded.Failure? {
      return Fault(Undecodable);
    }
    var program := decoded.value;
    var pc, regs := 0, ZeroRegs();
    for i := 0 to StepBound(program)
      invariant Iterate(REFERENCE, program, q, At(0, ZeroRegs()), StepBound(program))
             == Iterate(REFERENCE, program, q, At(pc, regs), StepBound(program) - i)
    {
      match Step(REFERENCE, program, q, At(pc, regs)) {
        case Done(outcome) =>
          DoneStays(REFERENCE, program, q, outcome, StepBound(program) - i - 1);
          return outcome;
        case At(next, after) =>
          pc, regs := next, after;
      }
    }
    return Fault(LeftBounds);
  }

  lemma {:induction false} DoneStays(cpu: Machine, program: seq<Instruction>, q: DevRequest, outcome: Outcome, n: nat)
    ensures Iterate(cpu, program, q, Done(outcome), n) == Done(outcome)
  {
    if n > 0 {
      DoneStays(cpu, program, q, outcome, n - 1);
    }
  }

  lemma {:induction false} IterateAdds(cpu: Machine, program: seq<Instruction>, q: DevRequest, c: Config, m: nat, n: nat)
    ensures Iterate(cpu, program, q, c, m + n) == Iterate(cpu, program, q, Iterate(cpu, program, q, c, m), n)
    decreases m
  {
    if m > 0 {
      IterateAdds(cpu, program, q, Step(cpu, program, q, c), m - 1, n);
    }
  }

  // A program returns at most one value.
  lemma DecidesOnce(cpu: Machine, program: seq<Instruction>, q: DevRequest, v: U64, w: U64)
    requires Decides(cpu, program, q, v) && Decides(cpu, program, q, w)
    ensures v == w
  {
    var m: nat :| Iterate(cpu, program, q, At(0, EntryRegs()), m) == Done(Verdict(v));
    var n: nat :| Iterate(cpu, program, q, At(0, EntryRegs()), n) == Done(Verdict(w));
    if m <= n {
      IterateAdds(cpu, program, q, At(0, EntryRegs()), m, n - m);
      DoneStays(cpu, program, q, Verdict(v), n - m);
    } else {
      IterateAdds(cpu, program, q, At(0, EntryRegs()), n, m - n);
      DoneStays(cpu, program, q, Verdict(w), m - n);
    }
  }

  // `b` agrees with `a` wherever `a` is written.
  predicate Extends(a: Registers, b: Registers) {
    forall r | 0 <= r < 11 :: a[r].Some? ==> b[r] == a[r]
  }

  predicate IsBranch(i: Instruction) {
    ClassOf(i.opcode).IsJump() && JumpOp(i.opcode) != EXIT
  }

  // Every branch of `program` stays inside it.
  predicate BranchesInside(program: seq<Instruction>) {
    forall k | 0 <= k < |program| ::
      IsBranch(program[k]) ==> 0 <= k + program[k].offset + 1 < |program|
  }

  // The same step further on, with more registers written.
  predicate Simulates(c: Config, d: Config, shift: nat) {
    || c == Done(Fault(UnsetRead))
    || (c.Done? && d == c)
    || (c.At? && d.At? && d.pc == c.pc + shift && Extends(c.regs, d.regs))
  }

  lemma StepOneSimulates(cpu: Machine, i: Instruction, q: DevRequest, pc: int, a: Registers, b: Registers, shift: nat)
    requires Extends(a, b)
    ensures Simulates(StepOne(cpu, i, q, pc, a), StepOne(cpu, i, q, pc + shift, b), shift)
  {
    hide Load, Context;
  }

  // A program behind a prefix runs as it does alone, until it reads what it has not written.
  lemma {:induction false} Relocated(cpu: Machine, prefix: seq<Instruction>, program: seq<Instruction>, q: DevRequest,
                                     c: Config, d: Config, n: nat)
    requires BranchesInside(program)
    requires Simulates(c, d, |prefix|) && (c.At? ==> 0 <= c.pc <= |program|)
    ensures Simulates(Iterate(cpu, program, q, c, n), Iterate(cpu, prefix + program, q, d, n), |prefix|)
    decreases n
  {
    hide StepOne;
    if c == Done(Fault(UnsetRead)) {
      DoneStays(cpu, program, q, c.outcome, n);
    } else if c.Done? {
      DoneStays(cpu, program, q, c.outcome, n);
      DoneStays(cpu, prefix + program, q, c.outcome, n);
    } else if n > 0 {
      var whole := prefix + program;
      if c.pc < |program| {
        assert whole[d.pc] == program[c.pc];
        StepOneSimulates(cpu, program[c.pc], q, c.pc, c.regs, d.regs, |prefix|);
        StepStaysInside(cpu, program, q, c);
      }
      Relocated(cpu, prefix, program, q, Step(cpu, program, q, c), Step(cpu, whole, q, d), n - 1);
    }
  }

  lemma StepStaysInside(cpu: Machine, program: seq<Instruction>, q: DevRequest, c: Config)
    requires BranchesInside(program) && c.At? && 0 <= c.pc < |program|
    ensures var next := Step(cpu, program, q, c); next.At? ==> 0 <= next.pc <= |program|
  {
    hide Load, Context;
    assert IsBranch(program[c.pc]) ==> 0 <= c.pc + program[c.pc].offset + 1 < |program|;
  }
}
