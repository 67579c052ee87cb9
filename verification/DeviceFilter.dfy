/** Device rules, what they match, and the program builder that compiles one block per rule. */
module DeviceFilter {
  import opened Wrappers
  import opened Words
  import opened Asm

  const DEV_BLOCK: I32 := 1
  const DEV_CHAR: I32 := 2
  const ACC_MKNOD: I32 := 1
  const ACC_READ: I32 := 2
  const ACC_WRITE: I32 := 4
  const ACC_ALL: I32 := 7

  type AccessBits = x: int | 0 <= x <= 7

  const U32_MAX: int := 0xffff_ffff

  // One rule. A negative number is a wildcard.
  datatype DeviceRule = DeviceRule(allow: bool, kind: string, major: Option<I64>, minor: Option<I64>, access: string)

  datatype RuleError =
    | Finalized
    | InvalidType(kind: string)
    | NoMajor
    | NoMinor
    | InvalidMajor(major: I64)
    | InvalidMinor(minor: I64)
    | UnknownAccess(letter: char)
    | NoOriginal

  // What a process asks for: a device type, an access mask and a device number.
  datatype DevRequest = DevRequest(kind: U16, access: U16, major: U32, minor: U32)

  // The access letters as a mask.
  function AccessMask(access: string): (mask: AccessBits)
  {
    (if 'r' in access then ACC_READ else 0)
    + (if 'w' in access then ACC_WRITE else 0)
    + (if 'm' in access then ACC_MKNOD else 0)
  }

  function FirstUnknown(access: string): Option<char> {
    if access == [] then None
    else if access[0] !in "rwm" then Some(access[0])
    else FirstUnknown(access[1..])
  }

  lemma {:induction false} KnownLetters(access: string)
    ensures FirstUnknown(access).None? <==> forall k | 0 <= k < |access| :: access[k] in "rwm"
  {
    if access != [] {
      KnownLetters(access[1..]);
      assert forall k | 1 <= k < |access| :: access[k] == access[1..][k - 1];
    }
  }

  // A rule the builder accepts, taken apart.
  datatype Checked = Checked(deviceType: Option<I32>, mask: AccessBits, major: I64, minor: I64, allow: bool) {
    // Nothing to check: every request matches.
    predicate MatchesAll() {
      deviceType.None? && mask == ACC_ALL && major < 0 && minor < 0
    }
  }

  function Check(rule: DeviceRule): (r: Result<Checked, RuleError>)
    ensures r.Success? ==>
              && r.value.major <= U32_MAX && r.value.minor <= U32_MAX
              && (r.value.deviceType.Some? ==> DEV_BLOCK <= r.value.deviceType.value <= DEV_CHAR)
  {
    if rule.kind != "c" && rule.kind != "b" && rule.kind != "a" then Failure(InvalidType(rule.kind))
    else if rule.major.None? then Failure(NoMajor)
    else if rule.minor.None? then Failure(NoMinor)
    else if rule.major.value > U32_MAX then Failure(InvalidMajor(rule.major.value))
    else if rule.minor.value > U32_MAX then Failure(InvalidMinor(rule.minor.value))
    else if FirstUnknown(rule.access).Some? then Failure(UnknownAccess(FirstUnknown(rule.access).value))
    else
      var deviceType := if rule.kind == "c" then Some(DEV_CHAR) else if rule.kind == "b" then Some(DEV_BLOCK) else None;
      Success(Checked(deviceType, AccessMask(rule.access), rule.major.value, rule.minor.value, rule.allow))
  }

  // One instruction of a block, and whether it is a jump to the next block.
  datatype BlockStep = BlockStep(instruction: Instruction, toNextBlock: bool)

  function Plain(i: Instruction): BlockStep { BlockStep(i, false) }
  function JumpNext(i: Instruction): BlockStep { BlockStep(i, true) }

  // The parts of a block, each absent when there is nothing to check.
  function TypePart(c: Checked): seq<BlockStep> {
    if c.deviceType.Some? then [JumpNext(JumpImm(JNE, R2, c.deviceType.value, -1))] else []
  }

  function AccessPart(c: Checked): seq<BlockStep> {
    if c.mask != ACC_ALL then
      [Plain(Alu32Reg(MOV, R6, R3)), Plain(Alu32Imm(AND, R6, c.mask)), JumpNext(JumpReg(JNE, R6, R3, -1))]
    else []
  }

  function MajorPart(c: Checked): seq<BlockStep> {
    if c.major >= 0 then [JumpNext(JumpImm(JNE, R4, LowI32(c.major), -1))] else []
  }

  function MinorPart(c: Checked): seq<BlockStep> {
    if c.minor >= 0 then [JumpNext(JumpImm(JNE, R5, LowI32(c.minor), -1))] else []
  }

  function VerdictPart(c: Checked): seq<BlockStep> {
    [Plain(Alu32Imm(MOV, R0, if c.allow then 1 else 0)), Plain(Exit())]
  }

  function Block(c: Checked): (block: seq<BlockStep>)
    ensures 2 <= |block| <= 8
  {
    TypePart(c) + AccessPart(c) + MajorPart(c) + MinorPart(c) + VerdictPart(c)
  }

  // The builder's value: the blocks so far, and whether one of them matches everything.
  datatype Builder = Builder(blocks: seq<seq<BlockStep>>, hasWildCard: bool)

  function Append(b: Builder, rule: DeviceRule): Result<Builder, RuleError> {
    if b.hasWildCard then Success(b)
    else
      match Check(rule)
      case Failure(error) => Failure(error)
      case Success(c) => Success(Builder(b.blocks + [Block(c)], c.MatchesAll()))
  }

  // The rules appended from the last to the first.
  function Build(rules: seq<DeviceRule>): Result<Builder, RuleError> {
    if |rules| == 0 then Success(Builder([], false))
    else
      match Build(rules[1..])
      case Failure(error) => Failure(error)
      case Success(b) => Append(b, rules[0])
  }

  // The context loads: type, access, major and minor into R2 to R5.
  function Init(): (init: seq<Instruction>)
    ensures |init| == 5
  {
    [ LoadMem(R2, R1, 0, HALF),
      LoadMem(R3, R1, 0, WORD),
      Alu32Imm(RSH, R3, 16),
      LoadMem(R4, R1, 4, WORD),
      LoadMem(R5, R1, 8, WORD) ]
  }

  // The 16-bit jump offset from the slot `position` to the slot `target`.
  function JumpOffset(target: nat, position: nat): I16 {
    SignedI16((target - position - 1) % 0x1_0000)
  }

  function BlockWidth(block: seq<BlockStep>): nat {
    if |block| == 0 then 0 else block[0].instruction.Width() + BlockWidth(block[1..])
  }

  function TotalWidth(blocks: seq<seq<BlockStep>>): nat {
    if |blocks| == 0 then 0 else TotalWidth(blocks[..|blocks| - 1]) + BlockWidth(blocks[|blocks| - 1])
  }

  // A block with its jumps resolved to the slot after it.
  function Resolve(block: seq<BlockStep>): (r: seq<Instruction>)
    ensures |r| == |block|
  {
    if |block| == 0 then []
    else
      var i := block[0].instruction;
      [if block[0].toNextBlock then i.(offset := JumpOffset(BlockWidth(block), 0)) else i] + Resolve(block[1..])
  }

  function ResolveAll(blocks: seq<seq<BlockStep>>): seq<Instruction> {
    if |blocks| == 0 then [] else Resolve(blocks[0]) + ResolveAll(blocks[1..])
  }

  function Width(instructions: seq<Instruction>): nat {
    if |instructions| == 0 then 0 else instructions[0].Width() + Width(instructions[1..])
  }

  class FilterProgram {
    var blocks: seq<seq<BlockStep>>
    var hasWildCard: bool
    var finalized: bool

    constructor ()
      ensures Value() == Builder([], false) && !finalized
    {
      blocks, hasWildCard, finalized := [], false, false;
    }

    function Value(): Builder
      reads this
    {
      Builder(blocks, hasWildCard)
    }

    // Appends the block of `rule`; once a block matches everything, appending does nothing.
    method AppendDevice(rule: DeviceRule) returns (r: Result<(), RuleError>)
      modifies this
      ensures finalized == old(finalized)
      ensures finalized ==> r == Failure(Finalized) && Value() == old(Value())
      ensures !finalized ==>
                match Append(old(Value()), rule)
                case Failure(error) => r == Failure(error) && Value() == old(Value())
                case Success(b) => r == Success(()) && Value() == b
    {
      if finalized {
        return Failure(Finalized);
      }
      if hasWildCard {
        return Success(());
      }
      if rule.kind != "c" && rule.kind != "b" && rule.kind != "a" {
        return Failure(InvalidType(rule.kind));
      }
      var deviceType := if rule.kind == "c" then Some(DEV_CHAR) else if rule.kind == "b" then Some(DEV_BLOCK) else None;
      if rule.major.None? {
        return Failure(NoMajor);
      }
      if rule.minor.None? {
        return Failure(NoMinor);
      }
      var major, minor := rule.major.value, rule.minor.value;
      if major > U32_MAX {
        return Failure(InvalidMajor(major));
      }
      if minor > U32_MAX {
        return Failure(InvalidMinor(minor));
      }
      var access := ParseAccess(rule.access);
      if access.Failure? {
        return Failure(UnknownAccess(access.error));
      }
      var c := Checked(deviceType, access.value, major, minor, rule.allow);
      var block := BuildBlock(c);
      if deviceType.None? && c.mask == ACC_ALL && major < 0 && minor < 0 {
        hasWildCard := true;
      }
      blocks := blocks + [block];
      return Success(());
    }

    // `head`, the program and `tail`, every block's jumps resolved to the slot after the block.
    method Layout(head: seq<Instruction>, tail: seq<Instruction>) returns (laidOut: seq<Instruction>)
      ensures laidOut == head + Init() + ResolveAll(blocks) + tail
    {
      hide Init, Width, BlockWidth, Resolve, ResolveAll, TotalWidth;
      laidOut := head + Init();
      var position := Width(laidOut);
      var cursor := position;
      var nextStarts: seq<nat> := [];
      NoBlocks(blocks);
      for b := 0 to |blocks|
        invariant |nextStarts| == b
        invariant cursor == position + TotalWidth(blocks[..b])
        invariant forall k | 0 <= k < b :: nextStarts[k] == position + TotalWidth(blocks[..k + 1])
      {
        NextBlock(blocks, b);
        cursor := cursor + BlockWidth(blocks[b]);
        nextStarts := nextStarts + [cursor];
      }
      ghost var start := position;
      assert blocks[0..] == blocks;
      for b := 0 to |blocks|
        invariant position == start + TotalWidth(blocks[..b])
        invariant head + Init() + ResolveAll(blocks) == laidOut + ResolveAll(blocks[b..])
      {
        NextBlock(blocks, b);
        assert laidOut + (Resolve(blocks[b]) + ResolveAll(blocks[b + 1..])) == (laidOut + Resolve(blocks[b])) + ResolveAll(blocks[b + 1..]);
        position, laidOut := LayoutBlock(blocks[b], nextStarts[b], position, laidOut);
      }
      laidOut := laidOut + tail;
    }

    // No rule can be appended afterwards.
    method Finalize(original: seq<Instruction>) returns (laidOut: seq<Instruction>)
      modifies this
      ensures finalized && Value() == old(Value())
      ensures laidOut == Init() + ResolveAll(blocks) + original
    {
      finalized := true;
      laidOut := Layout([], original);
      assert [] + Init() == Init();
    }
  }

  lemma NoBlocks(blocks: seq<seq<BlockStep>>)
    ensures TotalWidth(blocks[..0]) == 0 && ResolveAll(blocks[|blocks|..]) == []
  {
  }

  lemma NextBlock(blocks: seq<seq<BlockStep>>, b: nat)
    requires b < |blocks|
    ensures TotalWidth(blocks[..b + 1]) == TotalWidth(blocks[..b]) + BlockWidth(blocks[b])
    ensures ResolveAll(blocks[b..]) == Resolve(blocks[b]) + ResolveAll(blocks[b + 1..])
  {
    hide BlockWidth, Resolve;
    assert blocks[..b + 1][..b] == blocks[..b] && blocks[b..][1..] == blocks[b + 1..];
  }

  method BuildBlock(c: Checked) returns (block: seq<BlockStep>)
    ensures block == Block(c)
  {
    hide LowI32;
    block := [];
    if c.deviceType.Some? {
      block := block + [JumpNext(JumpImm(JNE, R2, c.deviceType.value, -1))];
    }
    assert block == TypePart(c);
    if c.mask != ACC_ALL {
      block := block + [Plain(Alu32Reg(MOV, R6, R3))];
      block := block + [Plain(Alu32Imm(AND, R6, c.mask))];
      block := block + [JumpNext(JumpReg(JNE, R6, R3, -1))];
    }
    assert block == TypePart(c) + AccessPart(c);
    if c.major >= 0 {
      block := block + [JumpNext(JumpImm(JNE, R4, LowI32(c.major), -1))];
    }
    assert block == TypePart(c) + AccessPart(c) + MajorPart(c);
    if c.minor >= 0 {
      block := block + [JumpNext(JumpImm(JNE, R5, LowI32(c.minor), -1))];
    }
    assert block == TypePart(c) + AccessPart(c) + MajorPart(c) + MinorPart(c);
    block := block + [Plain(Alu32Imm(MOV, R0, if c.allow then 1 else 0))];
    block := block + [Plain(Exit())];
  }

  // One block of the layout, which starts at the slot `start` and ends before `nextStart`.
  method LayoutBlock(block: seq<BlockStep>, nextStart: nat, start: nat, before: seq<Instruction>)
    returns (position: nat, laidOut: seq<Instruction>)
    requires nextStart == start + BlockWidth(block)
    ensures position == nextStart
    ensures laidOut == before + Resolve(block)
  {
    position, laidOut := start, before;
    assert block[0..] == block;
    for s := 0 to |block|
      invariant before + Resolve(block) == laidOut + Resolve(block[s..])
      invariant position + BlockWidth(block[s..]) == nextStart
    {
      assert block[s..][1..] == block[s + 1..];
      var instruction := block[s].instruction;
      if block[s].toNextBlock {
        instruction := instruction.(offset := JumpOffset(nextStart, position));
      }
      position := position + instruction.Width();
      laidOut := laidOut + [instruction];
    }
    assert block[|block|..] == [];
  }

  method ParseAccess(access: string) returns (r: Result<AccessBits, char>)
    ensures r == match FirstUnknown(access) case Some(letter) => Failure(letter) case None => Success(AccessMask(access))
  {
    var mask: AccessBits := 0;
    assert access[0..] == access;
    for i := 0 to |access|
      invariant mask == AccessMask(access[..i])
      invariant FirstUnknown(access) == FirstUnknown(access[i..])
    {
      var letter := access[i];
      assert access[i..][1..] == access[i + 1..];
      if letter !in "rwm" {
        return Failure(letter);
      }
      mask := SetBit(mask, LetterBit(letter));
      AddLetter(access[..i], letter);
      assert access[..i + 1] == access[..i] + [letter];
    }
    assert access[..|access|] == access;
    return Success(mask);
  }

  function LetterBit(letter: char): I32 {
    if letter == 'r' then ACC_READ else if letter == 'w' then ACC_WRITE else ACC_MKNOD
  }

  // `mask | bit` for a single bit.
  function SetBit(mask: AccessBits, bit: I32): (r: AccessBits)
    requires bit == ACC_READ || bit == ACC_WRITE || bit == ACC_MKNOD
  {
    if mask / bit % 2 == 0 then mask + bit else mask
  }

  lemma AddLetter(seen: string, letter: char)
    requires letter in "rwm"
    ensures SetBit(AccessMask(seen), LetterBit(letter)) == AccessMask(seen + [letter])
  {
    var more := seen + [letter];
    assert forall c :: c in more <==> c in seen || c == letter;
  }

  // The rules' blocks in front of the original program.
  method PrependDeviceFilter(rules: seq<DeviceRule>, original: seq<Instruction>)
    returns (r: Result<seq<Instruction>, RuleError>)
    ensures r == if |original| == 0 then Failure(NoOriginal)
                 else match Build(rules)
                      case Failure(error) => Failure(error)
                      case Success(b) => Success(Init() + ResolveAll(b.blocks) + original)
  {
    if |original| == 0 {
      return Failure(NoOriginal);
    }
    var program := new FilterProgram();
    var i := |rules|;
    assert rules[0..] == rules;
    while i > 0
      invariant 0 <= i <= |rules|
      invariant !program.finalized
      invariant Build(rules[i..]) == Success(program.Value())
    {
      i := i - 1;
      assert rules[i..][1..] == rules[i + 1..];
      var r := program.AppendDevice(rules[i]);
      if r.Failure? {
        BuildFails(rules, i);
        return Failure(r.error);
      }
    }
    var laidOut := program.Finalize(original);
    return Success(laidOut);
  }

  // A failure on a suffix is the failure of the whole list.
  lemma {:induction false} BuildFails(rules: seq<DeviceRule>, i: nat)
    requires i <= |rules| && Build(rules[i..]).Failure?
    ensures Build(rules) == Build(rules[i..])
    decreases i
  {
    assert rules[0..] == rules;
    if i > 0 {
      assert rules[i - 1..][1..] == rules[i..];
      BuildFails(rules, i - 1);
    }
  }
}
