/** The reloadability gate, and that wrapping stays inside it. */
module Gate {
  import opened Wrappers
  import opened Words
  import opened Asm
  import opened DeviceFilter
  import opened Interp
  import opened FilterCorrect
  import opened Owned
  import opened OwnedRoundTrip

  // What the gate needs to know about a program besides its code.
  datatype ProgMeta = ProgMeta(mapIdsKnown: bool, mapCount: nat)

  datatype GateError =
    | MapIdsUnavailable
    | UsesMaps(count: nat)
    | Empty
    | OutsideInstruction(index: nat)
    | JumpsOut(index: nat)

  predicate InSubset(i: Instruction) {
    match ClassOf(i.opcode)
    case LdX => Mode(i.opcode) == MODE_MEM && i.src == R1 && (i.offset == 0 || i.offset == 4 || i.offset == 8)
    case Alu => SubsetAlu(i)
    case Alu64 => SubsetAlu(i)
    case Jump => ConditionalJump(JumpOp(i.opcode)) || JumpOp(i.opcode) == EXIT || JumpOp(i.opcode) == JA
    case Jump32 => ConditionalJump(JumpOp(i.opcode))
    case Ld => false
    case St => false
    case StX => false
  }

  predicate SubsetAlu(i: Instruction) {
    var op := AluOp(i.opcode);
    (op == MOV || op == AND || op == OR || op == RSH || op == LSH) && i.offset == 0
  }

  predicate ConditionalJump(op: U32) {
    op == JEQ || op == JNE || op == JGT || op == JGE || op == JLT || op == JLE || op == JSET
    || op == JSGT || op == JSGE || op == JSLT || op == JSLE
  }

  predicate LandsInside(program: seq<Instruction>, index: nat)
    requires index < |program|
  {
    IsBranch(program[index]) ==> 0 <= index + program[index].offset + 1 < |program|
  }

  // The first reason a program cannot be wrapped, from `index` on.
  function GateFrom(program: seq<Instruction>, index: nat): Result<(), GateError>
    requires index <= |program|
    decreases |program| - index
  {
    if index == |program| then Success(())
    else if !InSubset(program[index]) then Failure(OutsideInstruction(index))
    else if !LandsInside(program, index) then Failure(JumpsOut(index))
    else GateFrom(program, index + 1)
  }

  function CheckGate(program: seq<Instruction>, meta: ProgMeta): Result<(), GateError> {
    if !meta.mapIdsKnown then Failure(MapIdsUnavailable)
    else if meta.mapCount > 0 then Failure(UsesMaps(meta.mapCount))
    else if |program| == 0 then Failure(Empty)
    else GateFrom(program, 0)
  }

  method CheckWrappable(program: seq<Instruction>, meta: ProgMeta) returns (r: Result<(), GateError>)
    ensures r == CheckGate(program, meta)
  {
    if !meta.mapIdsKnown {
      return Failure(MapIdsUnavailable);
    }
    if meta.mapCount > 0 {
      return Failure(UsesMaps(meta.mapCount));
    }
    if |program| == 0 {
      return Failure(Empty);
    }
    for index := 0 to |program|
      invariant GateFrom(program, 0) == GateFrom(program, index)
    {
      if !InSubset(program[index]) {
        return Failure(OutsideInstruction(index));
      }
      var opcode := program[index].opcode;
      if ClassOf(opcode).IsJump() && JumpOp(opcode) != EXIT {
        var target := index + program[index].offset + 1;
        if !(0 <= target < |program|) {
          return Failure(JumpsOut(index));
        }
      }
    }
    return Success(());
  }

  // What passing the gate means.
  predicate Reloadable(program: seq<Instruction>) {
    && |program| > 0
    && (forall k | 0 <= k < |program| :: InSubset(program[k]))
    && BranchesInside(program)
  }

  lemma {:induction false} GateFromMeans(program: seq<Instruction>, index: nat)
    requires index <= |program|
    ensures GateFrom(program, index).Success?
       <==> forall k | index <= k < |program| :: InSubset(program[k]) && LandsInside(program, k)
    decreases |program| - index
  {
    hide InSubset, LandsInside;
    if index < |program| {
      GateFromMeans(program, index + 1);
    }
  }

  lemma GateMeans(program: seq<Instruction>, meta: ProgMeta)
    ensures CheckGate(program, meta).Success? <==> meta == ProgMeta(true, 0) && Reloadable(program)
  {
    hide InSubset, GateFrom;
    GateFromMeans(program, 0);
    if Reloadable(program) {
      forall k | 0 <= k < |program|
        ensures LandsInside(program, k)
      {
        assert IsBranch(program[k]) ==> 0 <= k + program[k].offset + 1 < |program|;
      }
    }
    if forall k | 0 <= k < |program| :: InSubset(program[k]) && LandsInside(program, k) {
      forall k | 0 <= k < |program| && IsBranch(program[k])
        ensures 0 <= k + program[k].offset + 1 < |program|
      {
        assert LandsInside(program, k);
      }
    }
  }

  // The subset in the kernel's numbers, opcode byte by opcode byte: loads of the context through r1,
  // moves, masks and shifts without an offset, exits, jumps and comparisons.
  predicate Allowed(i: Instruction) {
    var kind, operation := i.opcode % 8, i.opcode % 0x100 / 0x10;
    || (i.opcode % 0x100 in {0x61, 0x69, 0x71, 0x79} && i.src == 1 && i.offset in {0, 4, 8})
    || ((kind == 4 || kind == 7) && i.opcode % 0x4000 / 0x10 in {0x4, 0x5, 0x6, 0x7, 0xb} && i.offset == 0)
    || (kind == 5 && (operation <= 7 || 9 <= operation <= 13))
    || (kind == 6 && (1 <= operation <= 7 || 10 <= operation <= 13))
  }

  predicate Branches(i: Instruction) {
    i.opcode % 8 == 6 || (i.opcode % 8 == 5 && i.opcode % 0x100 / 0x10 != 9)
  }

  lemma LowByte(opcode: U32)
    ensures opcode % 0x100 % 8 == opcode % 8 && opcode / 0x10 % 0x10 == opcode % 0x100 / 0x10
    ensures opcode / 0x20 % 8 == opcode % 0x100 / 0x20 && opcode / 0x10 % 0x400 == opcode % 0x4000 / 0x10
  {
    LowClass(opcode);
    Nibble(opcode);
    TopBits(opcode);
    Operation(opcode);
  }

  lemma LowClass(opcode: U32)
    ensures opcode % 0x100 % 8 == opcode % 8
  {
  }

  lemma Nibble(opcode: U32)
    ensures opcode / 0x10 % 0x10 == opcode % 0x100 / 0x10
  {
    assert opcode / 0x10 / 0x10 == opcode / 0x100;
  }

  lemma TopBits(opcode: U32)
    ensures opcode / 0x20 % 8 == opcode % 0x100 / 0x20
  {
    assert opcode / 0x20 / 8 == opcode / 0x100;
  }

  lemma Operation(opcode: U32)
    ensures opcode / 0x10 % 0x400 == opcode % 0x4000 / 0x10
  {
    assert opcode / 0x10 / 0x400 == opcode / 0x4000;
  }

  lemma SubsetMeans(i: Instruction)
    ensures InSubset(i) <==> Allowed(i)
    ensures IsBranch(i) <==> Branches(i)
  {
    LowByte(i.opcode);
  }

  // The gate passes a program exactly when every instruction is allowed and every branch lands in the
  // program; otherwise it names the first that is not or does not.
  lemma GateNames(program: seq<Instruction>, meta: ProgMeta)
    ensures CheckGate(program, meta).Success?
       <==> && meta == ProgMeta(true, 0) && |program| > 0
            && forall k | 0 <= k < |program| :: Allowed(program[k]) && (Branches(program[k]) ==> 0 <= k + program[k].offset + 1 < |program|)
    ensures match CheckGate(program, meta)
            case Failure(OutsideInstruction(k)) => k < |program| && !Allowed(program[k]) && PassesBefore(program, k)
            case Failure(JumpsOut(k)) =>
              && k < |program| && Allowed(program[k]) && Branches(program[k])
              && !(0 <= k + program[k].offset + 1 < |program|) && PassesBefore(program, k)
            case _ => true
  {
    hide InSubset, Allowed, IsBranch, Branches;
    forall k | 0 <= k < |program|
      ensures (InSubset(program[k]) <==> Allowed(program[k])) && (IsBranch(program[k]) <==> Branches(program[k]))
    {
      SubsetMeans(program[k]);
    }
    GateFromMeans(program, 0);
    GateFromNames(program, 0);
  }

  predicate PassesBefore(program: seq<Instruction>, n: nat)
    requires n <= |program|
  {
    forall k | 0 <= k < n :: Allowed(program[k]) && (Branches(program[k]) ==> 0 <= k + program[k].offset + 1 < |program|)
  }

  lemma {:induction false} GateFromNames(program: seq<Instruction>, index: nat)
    requires index <= |program|
    ensures match GateFrom(program, index)
            case Failure(OutsideInstruction(k)) =>
              index <= k < |program| && !InSubset(program[k]) && forall j | index <= j < k :: InSubset(program[j]) && LandsInside(program, j)
            case Failure(JumpsOut(k)) =>
              && index <= k < |program| && InSubset(program[k]) && !LandsInside(program, k)
              && forall j | index <= j < k :: InSubset(program[j]) && LandsInside(program, j)
            case Failure(_) => false
            case Success(_) => true
    decreases |program| - index
  {
    hide InSubset, LandsInside;
    if index < |program| {
      GateFromNames(program, index + 1);
    }
  }

  lemma BuilderInSubset(i: Instruction)
    requires BuilderInstruction(i)
    ensures InSubset(i)
  {
  }

  // --- Jump resolution ----------------------------------------------------------------------------

  // Only the steps marked so are branches, and they are resolved to the end of the part.
  predicate JumpsMarked(part: seq<BlockStep>) {
    forall k | 0 <= k < |part| :: IsBranch(part[k].instruction) <==> part[k].toNextBlock
  }

  lemma {:induction false} PartJumpLands(part: seq<BlockStep>, after: nat, k: nat)
    requires JumpsMarked(part) && |part| + after < 0x8000 && k < |part|
    ensures IsBranch(ResolvePart(part, after)[k]) ==> k + ResolvePart(part, after)[k].offset + 1 == |part| + after
    decreases |part|
  {
    hide IsBranch;
    if k > 0 {
      assert ResolvePart(part, after)[k] == ResolvePart(part[1..], after)[k - 1];
      PartJumpLands(part[1..], after, k - 1);
    } else {
      BranchKeepsOpcode(part[0].instruction, JumpOffset(|part| + after, 0));
    }
  }

  lemma BranchKeepsOpcode(i: Instruction, offset: I16)
    ensures IsBranch(i.(offset := offset)) == IsBranch(i)
  {
  }

  lemma BlockJumpsMarked(c: Checked)
    ensures JumpsMarked(Block(c))
  {
    hide LowI32;
    assert JumpsMarked(TypePart(c)) && JumpsMarked(AccessPart(c)) && JumpsMarked(MajorPart(c));
    assert JumpsMarked(MinorPart(c)) && JumpsMarked(VerdictPart(c));
    hide IsBranch;
  }

  // Every branch of a resolved block lands on the first instruction after the block, untruncated.
  lemma BlockJumpLands(c: Checked, k: nat)
    requires k < |Block(c)|
    ensures IsBranch(Resolve(Block(c))[k]) ==> k + Resolve(Block(c))[k].offset + 1 == |Block(c)|
  {
    hide IsBranch, Resolve, ResolvePart, Block, JumpsMarked, SingleSlots;
    BlockSingleSlots(c);
    ResolveIsPart(Block(c));
    BlockJumpsMarked(c);
    PartJumpLands(Block(c), 0, k);
  }

  // The wrapper's instruction index of the block of the kept rule `r`.
  function BlockStart(cs: seq<Checked>, r: nat): nat
    requires r < |cs|
  {
    HEADER_LEN + INIT_LEN + |Code(cs[r + 1..])|
  }

  lemma {:induction false} CodeAtBlock(cs: seq<Checked>, r: nat)
    requires r < |cs|
    ensures |Code(cs[r + 1..])| + |Block(cs[r])| <= |Code(cs)|
    ensures Code(cs)[|Code(cs[r + 1..])|..|Code(cs[r + 1..])| + |Block(cs[r])|] == Resolve(Block(cs[r]))
    ensures |Code(cs[r..])| == |Code(cs[r + 1..])| + |Block(cs[r])|
    decreases |cs|
  {
    hide Resolve, Block;
    assert cs[0..] == cs;
    if r > 0 {
      CodeAtBlock(cs[1..], r - 1);
      assert cs[1..][r - 1..] == cs[r..] && cs[1..][r..] == cs[r + 1..];
    }
  }

  // In the laid out wrapper, every branch of a rule's block goes to the first instruction of the
  // block of the rule before it, and of the first rule's block to the trailer.
  lemma WrapperJumpsLand(rules: seq<DeviceRule>, nonce: U64, digest: Digest, original: seq<Instruction>, r: nat, k: nat)
    requires Build(rules).Success? && r < |Kept(rules)| && k < |Block(Kept(rules)[r])|
    ensures var all := Wrapper(Build(rules).value, nonce, digest, original);
            var at := BlockStart(Kept(rules), r) + k;
            var next := if r > 0 then BlockStart(Kept(rules), r - 1)
                        else HEADER_LEN + InstructionCount(Build(rules).value);
            at < |all| && (IsBranch(all[at]) ==> at + all[at].offset + 1 == next)
  {
    hide IsBranch, Resolve, Block, Build, Kept, Markers, Init, HeaderFields, TrailerFields;
    var cs, b := Kept(rules), Build(rules).value;
    BuildCode(rules);
    CodeAtBlock(cs, r);
    BlockJumpLands(cs[r], k);
    assert cs[0..] == cs;
    var all := Wrapper(b, nonce, digest, original);
    var front := Markers(HeaderFields(nonce, digest, BlockLen(b))) + Init();
    var code := Code(cs);
    assert all == front + code + (Markers(TrailerFields(nonce)) + original);
    var start := |Code(cs[r + 1..])|;
    assert all[|front| + start + k] == code[start + k];
    assert code[start..start + |Block(cs[r])|][k] == code[start + k];
  }

  // --- Gate closure -------------------------------------------------------------------------------

  // Branches of `code` go forward and no further than its end.
  predicate BranchesOn(code: seq<Instruction>) {
    forall k | 0 <= k < |code| :: IsBranch(code[k]) ==> 0 <= k + code[k].offset + 1 <= |code|
  }

  lemma BranchesOnSplit(a: seq<Instruction>, b: seq<Instruction>)
    requires BranchesOn(a) && BranchesOn(b)
    ensures BranchesOn(a + b)
  {
    hide IsBranch;
    var all := a + b;
    forall k | 0 <= k < |all| && IsBranch(all[k])
      ensures 0 <= k + all[k].offset + 1 <= |all|
    {
      if k < |a| {
        assert IsBranch(a[k]);
      } else {
        assert IsBranch(b[k - |a|]);
      }
    }
  }

  lemma {:induction false} CodeBranchesOn(cs: seq<Checked>)
    ensures BranchesOn(Code(cs))
  {
    hide Resolve, Block, IsBranch;
    if |cs| > 0 {
      CodeBranchesOn(cs[1..]);
      forall k | 0 <= k < |Block(cs[0])|
        ensures IsBranch(Resolve(Block(cs[0]))[k]) ==> k + Resolve(Block(cs[0]))[k].offset + 1 == |Block(cs[0])|
      {
        BlockJumpLands(cs[0], k);
      }
      BranchesOnSplit(Code(cs[1..]), Resolve(Block(cs[0])));
    }
  }

  lemma MarkersBranchesOn(fields: seq<U32>)
    ensures BranchesOn(Markers(fields))
  {
  }

  lemma PrefixBranchesOn(rules: seq<DeviceRule>, nonce: U64, digest: Digest)
    requires Build(rules).Success?
    ensures BranchesOn(Prefix(Build(rules).value, nonce, digest))
  {
    var b := Build(rules).value;
    var header, trailer := Markers(HeaderFields(nonce, digest, BlockLen(b))), Markers(TrailerFields(nonce));
    assert BranchesOn(Init());
    hide Build, Kept, Code, Init, Markers, HeaderFields, TrailerFields, BranchesOn;
    BuildCode(rules);
    CodeBranchesOn(Kept(rules));
    MarkersBranchesOn(HeaderFields(nonce, digest, BlockLen(b)));
    MarkersBranchesOn(TrailerFields(nonce));
    BranchesOnSplit(header, Init());
    BranchesOnSplit(header + Init(), Code(Kept(rules)));
    BranchesOnSplit(header + Init() + Code(Kept(rules)), trailer);
  }

  // Wrapping a program that passes the gate gives a program that passes it.
  lemma GateClosed(rules: seq<DeviceRule>, nonce: U64, digest: Digest, original: seq<Instruction>, meta: ProgMeta)
    requires Build(rules).Success? && CheckGate(original, meta).Success?
    ensures CheckGate(Wrapper(Build(rules).value, nonce, digest, original), meta).Success?
  {
    hide InSubset, IsBranch, BuilderInstruction, Build, Prefix;
    GateMeans(original, meta);
    var prefix := Prefix(Build(rules).value, nonce, digest);
    var all := prefix + original;
    PrefixIsBuilderCode(rules, nonce, digest);
    PrefixBranchesOn(rules, nonce, digest);
    forall k | 0 <= k < |all|
      ensures InSubset(all[k]) && (IsBranch(all[k]) ==> 0 <= k + all[k].offset + 1 < |all|)
    {
      if k < |prefix| {
        assert all[k] == prefix[k];
        assert BuilderInstruction(prefix[k]);
        BuilderInSubset(prefix[k]);
      } else {
        assert all[k] == original[k - |prefix|];
      }
    }
    GateMeans(all, meta);
  }
}
