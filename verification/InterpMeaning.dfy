/** What the reference instructions compute and what a load of the context reads, in the kernel's
    numbers. */
module InterpMeaning {
  import opened Wrappers
  import opened Words
  import opened Asm
  import opened DeviceFilter
  import opened Interp

  // --- Comparisons -----------------------------------------------------------------------------------------

  lemma {:induction false} AndBit(a: nat, b: nat, i: nat)
    ensures Bit(BitAnd(a, b), i) <==> Bit(a, i) && Bit(b, i)
    decreases i
  {
    if a == 0 || b == 0 {
      ZeroHasNoBit(i);
    } else if i > 0 {
      AndBit(a / 2, b / 2, i - 1);
      assert BitAnd(a, b) / 2 == BitAnd(a / 2, b / 2);
    }
  }

  lemma {:induction false} OrBit(a: nat, b: nat, i: nat)
    ensures Bit(BitOr(a, b), i) <==> Bit(a, i) || Bit(b, i)
    decreases i
  {
    if a == 0 || b == 0 {
      ZeroHasNoBit(i);
    } else if i > 0 {
      OrBit(a / 2, b / 2, i - 1);
      assert BitOr(a, b) / 2 == BitOr(a / 2, b / 2);
    }
  }

  lemma SharedBit(a: nat, b: nat)
    ensures BitAnd(a, b) != 0 <==> exists i: nat :: Bit(a, i) && Bit(b, i)
  {
    hide BitAnd;
    if BitAnd(a, b) != 0 {
      var i := HasBit(BitAnd(a, b));
      AndBit(a, b, i);
    }
    if i: nat :| Bit(a, i) && Bit(b, i) {
      AndBit(a, b, i);
      if BitAnd(a, b) == 0 {
        ZeroHasNoBit(i);
      }
    }
  }

  // The jumps compare unsigned numbers, one looks for a shared bit, and nothing else is a comparison.
  lemma Compares(op: U32, narrow: bool, left: U64, right: U64)
    ensures ReferenceCompare(op, narrow, left, right)
         == match op
            case 0x10 => Some(left == right)
            case 0x20 => Some(left > right)
            case 0x30 => Some(left >= right)
            case 0x40 => Some(exists i: nat :: Bit(left, i) && Bit(right, i))
            case 0x50 => Some(left != right)
            case 0xa0 => Some(left < right)
            case 0xb0 => Some(left <= right)
            case _ => None
  {
    hide BitAnd, Bit;
    SharedBit(left, right);
  }

  // --- Arithmetic --------------------------------------------------------------------------------------------

  function Pow2(n: nat): (p: nat)
    ensures p > 0
  {
    if n == 0 then 1 else 2 * Pow2(n - 1)
  }

  lemma {:induction false} LeftMultiplies(x: nat, n: nat)
    ensures ShiftLeft(x, n) == x * Pow2(n)
    decreases n
  {
    if n > 0 {
      LeftMultiplies(2 * x, n - 1);
      assert 2 * x * Pow2(n - 1) == x * (2 * Pow2(n - 1));
    }
  }

  // Shifting right by n divides by the n-th power of two, rounding down.
  lemma {:induction false} RightDivides(x: nat, n: nat)
    ensures ShiftRight(x, n) * Pow2(n) <= x < (ShiftRight(x, n) + 1) * Pow2(n)
    decreases n
  {
    if n > 0 {
      RightDivides(x / 2, n - 1);
      Doubled(x, ShiftRight(x / 2, n - 1), Pow2(n - 1));
    }
  }

  lemma Doubled(x: nat, q: nat, p: nat)
    requires q * p <= x / 2 < (q + 1) * p
    ensures q * (2 * p) <= x < (q + 1) * (2 * p)
  {
    assert q * (2 * p) == 2 * (q * p) && (q + 1) * (2 * p) == 2 * ((q + 1) * p);
  }

  lemma {:induction false} LowBits(x: nat, n: nat, i: nat)
    ensures Bit(x % Pow2(n), i) <==> i < n && Bit(x, i)
    decreases i
  {
    if n == 0 {
      ZeroHasNoBit(i);
    } else {
      HalfOfRest(x, Pow2(n - 1));
      if i > 0 {
        LowBits(x / 2, n - 1, i - 1);
      }
    }
  }

  lemma HalfOfRest(x: nat, p: nat)
    requires p > 0
    ensures x % (2 * p) % 2 == x % 2 && x % (2 * p) / 2 == x / 2 % p
  {
    var q, r := x / 2 / p, x / 2 % p;
    assert x / 2 == q * p + r;
    var rest := 2 * r + x % 2;
    assert x == q * (2 * p) + rest by {
      assert q * (2 * p) == 2 * (q * p);
    }
    Remainder(x, q, 2 * p, rest);
  }

  lemma Remainder(x: nat, q: nat, d: nat, r: nat)
    requires x == q * d + r && r < d
    ensures x % d == r
  {
    var e := x / d - q;
    assert x == d * (x / d) + x % d;
    assert e * d == (x / d) * d - q * d;
    assert e * d == r - x % d;
    AtLeast(e, d);
  }

  lemma AtLeast(e: int, d: nat)
    ensures e > 0 ==> e * d >= d
    ensures e < 0 ==> e * d <= 0 - d
  {
    if e > 0 {
      Product(e - 1, d);
    } else if e < 0 {
      Product(-e - 1, d);
    }
  }

  lemma Product(a: nat, b: nat)
    ensures (a + 1) * b == a * b + b && (0 - a - 1) * b == 0 - a * b - b && a * b >= 0
  {
  }

  function Width(alu32: bool): (width: nat)
    ensures width > 0
  {
    if alu32 then 32 else 64
  }

  // `r` is what the operation makes of the two operands, in a register of that width.
  ghost predicate Means(op: U32, alu32: bool, value: U64, source: U64, r: nat) {
    var width := Width(alu32);
    match op
    case 0xb0 => r == source % Pow2(width)
    case 0x50 => forall i: nat :: Bit(r, i) <==> i < width && Bit(value, i) && Bit(source, i)
    case 0x40 => forall i: nat :: Bit(r, i) <==> i < width && (Bit(value, i) || Bit(source, i))
    case 0x60 => r == value * Pow2(source % 64) % Pow2(width)
    case 0x70 => r * Pow2(source % width) <= value % Pow2(width) < (r + 1) * Pow2(source % width)
    case _ => false
  }

  lemma Powers()
    ensures Pow2(32) == 0x1_0000_0000 && Pow2(64) == 0x1_0000_0000_0000_0000
  {
    hide Pow2;
    Pow16();
    Squared(16, 0x1_0000);
    Squared(32, 0x1_0000_0000);
  }

  lemma Pow16()
    ensures Pow2(16) == 0x1_0000
  {
    assert Pow2(2) == 4;
    hide Pow2;
    Squared(2, 4);
    Squared(4, 0x10);
    Squared(8, 0x100);
  }

  lemma Squared(n: nat, p: nat)
    requires Pow2(n) == p
    ensures Pow2(2 * n) == p * p
  {
    hide Pow2;
    PowerAdds(n, n);
  }

  lemma {:induction false} PowerAdds(m: nat, n: nat)
    ensures Pow2(m + n) == Pow2(m) * Pow2(n)
    decreases n
  {
    if n > 0 {
      PowerAdds(m, n - 1);
      assert Pow2(m) * (2 * Pow2(n - 1)) == 2 * (Pow2(m) * Pow2(n - 1));
    }
  }

  lemma {:induction false} ShiftsDown(x: nat, n: nat)
    ensures ShiftRight(x, n) <= x
    decreases n
  {
    if n > 0 {
      ShiftsDown(x / 2, n - 1);
    }
  }

  lemma BitwiseMeans(op: U32, alu32: bool, value: U64, source: U64)
    requires op == 0x50 || op == 0x40
    ensures Means(op, alu32, value, source, (if op == 0x50 then BitAnd(value, source) else BitOr(value, source)) % Pow2(Width(alu32)))
  {
    hide BitAnd, BitOr, Bit, Pow2, ReferenceAlu;
    var width := Width(alu32);
    Powers();
    forall i: nat
      ensures Bit(BitAnd(value, source) % Pow2(width), i) <==> i < width && Bit(value, i) && Bit(source, i)
      ensures Bit(BitOr(value, source) % Pow2(width), i) <==> i < width && (Bit(value, i) || Bit(source, i))
    {
      LowBits(BitAnd(value, source), width, i);
      LowBits(BitOr(value, source), width, i);
      AndBit(value, source, i);
      OrBit(value, source, i);
    }
  }

  lemma MoveMeans(alu32: bool, value: U64, source: U64)
    ensures Means(0xb0, alu32, value, source, source % Pow2(Width(alu32)))
  {
    hide Pow2, Bit;
  }

  lemma LeftMeans(alu32: bool, value: U64, source: U64)
    ensures Means(0x60, alu32, value, source, ShiftLeft(value, source % 64) % Pow2(Width(alu32)))
  {
    hide Pow2, Bit, ShiftLeft;
    LeftMultiplies(value, source % 64);
  }

  lemma RightMeans(alu32: bool, value: U64, source: U64)
    ensures Means(0x70, alu32, value, source, ShiftRight(value % Pow2(Width(alu32)), source % Width(alu32)))
  {
    hide Pow2, Bit, ShiftRight;
    RightDivides(value % Pow2(Width(alu32)), source % Width(alu32));
  }

  // The arithmetic of the subset, and that there is no other.
  lemma Computes(op: U32, alu32: bool, value: U64, source: U64)
    ensures ReferenceAlu(op, alu32, value, source).Some? <==> op in {0xb0, 0x50, 0x40, 0x60, 0x70}
    ensures var r := ReferenceAlu(op, alu32, value, source); r.Some? ==> Means(op, alu32, value, source, r.value)
  {
    hide BitAnd, BitOr, ShiftLeft, ShiftRight, Bit, Pow2, Means;
    Powers();
    if op == 0x50 || op == 0x40 {
      BitwiseMeans(op, alu32, value, source);
    } else if op == 0x60 {
      LeftMeans(alu32, value, source);
    } else if op == 0x70 {
      RightMeans(alu32, value, source);
      ShiftsDown(value % Pow2(Width(alu32)), source % Width(alu32));
    } else if op == 0xb0 {
      MoveMeans(alu32, value, source);
    }
  }

  // --- The context ----------------------------------------------------------------------------------------------

  // The context, byte by byte: the kind, the access, the major and the minor number, each with its
  // lowest byte first.
  lemma ContextBytes(q: DevRequest)
    ensures Context(q) == [q.kind % 0x100, q.kind / 0x100, q.access % 0x100, q.access / 0x100] + Bytes32(q.major) + Bytes32(q.minor)
  {
    var both := q.access * 0x1_0000 + q.kind;
    SplitByte(q.kind % 0x100, q.access * 0x100 + q.kind / 0x100);
    SplitByte(q.kind / 0x100, q.access);
  }

  // A load reads a word, a half or a byte of it, lowest byte first, and nothing outside it.
  lemma LoadsWords(context: seq<Byte>, offset: I16)
    requires |context| == 12
    ensures Load(context, offset, 0x00)
         == if 0 <= offset <= 8 then Some(Word32(context[offset], context[offset + 1], context[offset + 2], context[offset + 3])) else None
    ensures Load(context, offset, 0x08) == if 0 <= offset <= 10 then Some(Word16(context[offset], context[offset + 1])) else None
    ensures Load(context, offset, 0x10) == if 0 <= offset <= 11 then Some(context[offset]) else None
  {
    hide Word16, Word32;
  }

  // --- One instruction ----------------------------------------------------------------------------------------------

  // The second operand: bit 3 of the opcode tells a register from the sign-extended immediate.
  function Second(i: Instruction, regs: Registers): U64
    requires i.src < 11 && forall r | 0 <= r < 11 :: regs[r].Some?
  {
    if i.opcode % 0x10 >= 8 then regs[i.src].value
    else if i.constant < 0 then i.constant + 0x1_0000_0000_0000_0000
    else i.constant
  }

  function Narrowed(i: Instruction, x: U64): U64 {
    if i.opcode % 8 == 6 then x % 0x1_0000_0000 else x
  }

  lemma OpcodeFields(opcode: U32)
    requires opcode < 0x4000
    ensures opcode / 0x10 % 0x400 == opcode / 0x10
    ensures opcode < 0x100 ==> opcode / 0x10 % 0x10 == opcode / 0x10
    ensures opcode / 8 % 2 == 1 <==> opcode % 0x10 >= 8
  {
    assert opcode / 8 == opcode / 0x10 * 2 + opcode % 0x10 / 8;
  }

  // Arithmetic writes its destination and goes on. Classes 4 and 7 are 32 and 64 bits wide; a move does
  // not read what it overwrites, and a byte swap is no arithmetic of two operands.
  lemma StepsArithmetic(cpu: Machine, i: Instruction, q: DevRequest, pc: int, regs: Registers)
    requires i.dst < 11 && i.src < 11 && forall r | 0 <= r < 11 :: regs[r].Some?
    requires i.opcode < 0x4000 && (i.opcode % 8 == 4 || i.opcode % 8 == 7) && i.opcode / 0x10 != 0xd
    ensures var value := if i.opcode / 0x10 == 0xb then 0 else regs[i.dst].value;
            var result := cpu.alu(i.opcode / 0x10 * 0x10, i.opcode % 8 == 4, value, Second(i, regs));
            StepOne(cpu, i, q, pc, regs) == if result.None? then Done(Fault(OutsideSubset)) else At(pc + 1, regs[i.dst := result])
  {
    OpcodeFields(i.opcode);
    hide Load, Context;
  }

  // Exits return r0, a jump goes past its offset, and a comparison (class 6 of the low 32 bits) goes
  // past its offset or to the next instruction.
  lemma StepsJump(cpu: Machine, i: Instruction, q: DevRequest, pc: int, regs: Registers)
    requires i.dst < 11 && i.src < 11 && forall r | 0 <= r < 11 :: regs[r].Some?
    requires i.opcode < 0x100 && (i.opcode % 8 == 5 || i.opcode % 8 == 6)
    ensures i.opcode == 0x95 ==> StepOne(cpu, i, q, pc, regs) == Done(Verdict(regs[0].value))
    ensures i.opcode == 0x05 ==> StepOne(cpu, i, q, pc, regs) == At(pc + i.offset + 1, regs)
    ensures var op := i.opcode / 0x10 * 0x10;
            var taken := cpu.compare(op, i.opcode % 8 == 6, Narrowed(i, regs[i.dst].value), Narrowed(i, Second(i, regs)));
            var next := if taken.None? then Done(Fault(OutsideSubset)) else At(pc + (if taken.value then i.offset + 1 else 1), regs);
            op != 0 && op != 0x80 && op != 0x90 ==> StepOne(cpu, i, q, pc, regs) == next
  {
    OpcodeFields(i.opcode);
    hide Load, Context;
  }
}
