/** The daemon's own device filter: header, context loads, rule blocks, trailer, original. */
module Owned {
  import opened Wrappers
  import opened Words
  import opened Asm
  import opened DeviceFilter

  const MAGIC_LO: U32 := 0x5f41_4453
  const MAGIC_HI: U32 := 0x4b4c_4244
  const FORMAT_VERSION: U32 := 1
  const HEADER_LEN: nat := 10
  const INIT_LEN: nat := 5
  const TRAILER_LEN: nat := 4
  const WILDCARD: I64 := -1

  // The first 128 bits of a hash of the original, as four words.
  datatype Digest = Digest(d0: U32, d1: U32, d2: U32, d3: U32)

  type DigestFn = seq<Byte> -> Digest

  // A validated wrapper taken apart.
  datatype OwnedProgram = OwnedProgram(nonce: U64, rules: seq<DeviceRule>, original: seq<Byte>)

  datatype EmitError =
    | DecodeFailed(decode: DecodeError)
    | RuleFailed(rule: RuleError)
    | EncodeFailed(encode: EncodeError)

  datatype RuleBlockError =
    | DeviceTypeField(value: I64)
    | AccessMaskField
    | AccessCheckField
    | MissingVerdict
    | VerdictField
    | MissingExit

  datatype Conflict =
    | HeaderTooShort
    | HeaderField(index: nat)
    | MagicOrVersion
    | BlockLenRange(blockLen: U32)
    | TrailerMismatch
    | RuleBlocks(cause: RuleBlockError)
    | OriginalEncode(encode: EncodeError)
    | DigestMismatch
    | Regenerated(error: Option<EmitError>)

  datatype OwnedError = NotInstructions(decode: DecodeError) | Conflicts(cause: Conflict)

  // --- Emitting --------------------------------------------------------------------------------

  // The dead store of a value that the header and the trailer are made of.
  function Marker(value: U32): Instruction {
    Alu32Imm(MOV, R0, SignedI32(value))
  }

  function MarkerValue(i: Instruction): Option<U32> {
    if i.opcode == 0x04 + MOV + IMM_SOURCE && i.dst == R0 && i.src == R0 && i.offset == 0
    then Some(LowU32(i.constant))
    else None
  }

  function NonceLo(nonce: U64): U32 { nonce % 0x1_0000_0000 }
  function NonceHi(nonce: U64): U32 { nonce / 0x1_0000_0000 }

  function JoinNonce(lo: U32, hi: U32): U64 { lo as int + hi as int * 0x1_0000_0000 }

  function HeaderFields(nonce: U64, digest: Digest, blockLen: U32): (fields: seq<U32>)
    ensures |fields| == HEADER_LEN
  {
    [ MAGIC_LO, MAGIC_HI, FORMAT_VERSION, NonceLo(nonce), NonceHi(nonce),
      digest.d0, digest.d1, digest.d2, digest.d3, blockLen ]
  }

  function TrailerFields(nonce: U64): (fields: seq<U32>)
    ensures |fields| == TRAILER_LEN
  {
    [MAGIC_LO, MAGIC_HI, NonceLo(nonce), NonceHi(nonce)]
  }

  function Markers(fields: seq<U32>): (r: seq<Instruction>)
    ensures |r| == |fields|
    ensures forall k | 0 <= k < |r| :: r[k] == Marker(fields[k])
  {
    if |fields| == 0 then [] else [Marker(fields[0])] + Markers(fields[1..])
  }

  function InstructionCount(b: Builder): nat {
    INIT_LEN + |ResolveAll(b.blocks)|
  }

  // The instruction index of the trailer, as the header field that carries it.
  function BlockLen(b: Builder): U32 {
    var length := HEADER_LEN + InstructionCount(b);
    if length < 0x1_0000_0000 then length else 0xffff_ffff
  }

  // Everything in front of the original.
  function Prefix(b: Builder, nonce: U64, digest: Digest): seq<Instruction> {
    Markers(HeaderFields(nonce, digest, BlockLen(b))) + Init() + ResolveAll(b.blocks) + Markers(TrailerFields(nonce))
  }

  function Emit(hash: DigestFn, rules: seq<DeviceRule>, nonce: U64, original: seq<Byte>): Result<seq<Byte>, EmitError> {
    match DecodeAll(original)
    case Failure(error) => Failure(DecodeFailed(error))
    case Success(instructions) =>
      if |instructions| == 0 then Failure(RuleFailed(NoOriginal))
      else
        match Build(rules)
        case Failure(error) => Failure(RuleFailed(error))
        case Success(b) =>
          match EncodeAll(Prefix(b, nonce, hash(original)) + instructions)
          case Failure(error) => Failure(EncodeFailed(error))
          case Success(raw) => Success(raw)
  }

  method EmitOwned(hash: DigestFn, rules: seq<DeviceRule>, nonce: U64, original: seq<Byte>)
    returns (r: Result<seq<Byte>, EmitError>)
    ensures r == Emit(hash, rules, nonce, original)
  {
    var decoded := Decode(original);
    if decoded.Failure? {
      return Failure(DecodeFailed(decoded.error));
    }
    var instructions := decoded.value;
    if |instructions| == 0 {
      return Failure(RuleFailed(NoOriginal));
    }
    var body := new FilterProgram();
    var i := |rules|;
    assert rules[0..] == rules;
    while i > 0
      invariant 0 <= i <= |rules|
      invariant !body.finalized
      invariant Build(rules[i..]) == Success(body.Value())
    {
      i := i - 1;
      assert rules[i..][1..] == rules[i + 1..];
      var appended := body.AppendDevice(rules[i]);
      if appended.Failure? {
        BuildFails(rules, i);
        return Failure(RuleFailed(appended.error));
      }
    }
    ghost var b := body.Value();
    var header := Markers(HeaderFields(nonce, hash(original), BlockLen(body.Value())));
    var trailer := Markers(TrailerFields(nonce));
    var all := body.Layout(header, trailer + instructions);
    assert all == Prefix(b, nonce, hash(original)) + instructions;
    var raw := CanonicalBytes(all);
    match raw {
      case Failure(error) => return Failure(EncodeFailed(error));
      case Success(bytes) => return Success(bytes);
    }
  }

  // --- Parsing ---------------------------------------------------------------------------------

  predicate IsJumpImm(i: Instruction, op: U32, dst: Register)
    requires op <= JSLE
  {
    i.opcode == 0x05 + op + IMM_SOURCE && i.dst == dst
  }

  function AccessString(mask: I64): string {
    (if mask / ACC_READ % 2 == 1 then "r" else "")
    + (if mask / ACC_WRITE % 2 == 1 then "w" else "")
    + (if mask / ACC_MKNOD % 2 == 1 then "m" else "")
  }

  // Each field reader takes the instructions it recognises off the front.
  function ReadType(rest: seq<Instruction>): Result<(string, seq<Instruction>), RuleBlockError> {
    if |rest| == 0 || !IsJumpImm(rest[0], JNE, R2) then Success(("a", rest))
    else if rest[0].constant == DEV_CHAR then Success(("c", rest[1..]))
    else if rest[0].constant == DEV_BLOCK then Success(("b", rest[1..]))
    else Failure(DeviceTypeField(rest[0].constant))
  }

  function ReadAccess(rest: seq<Instruction>): Result<(string, seq<Instruction>), RuleBlockError> {
    if |rest| == 0 || rest[0].opcode != 0x04 + MOV + REG_SOURCE || rest[0].dst != R6 then Success(("rwm", rest))
    else if |rest| == 1 || rest[1].opcode != 0x04 + AND + IMM_SOURCE || rest[1].dst != R6 then Failure(AccessMaskField)
    else if |rest| == 2 then Failure(AccessCheckField)
    else Success((AccessString(rest[1].constant), rest[3..]))
  }

  function ReadNumber(rest: seq<Instruction>, r: Register): (I64, seq<Instruction>) {
    if |rest| > 0 && IsJumpImm(rest[0], JNE, r) then (rest[0].constant, rest[1..]) else (WILDCARD, rest)
  }

  function ReadVerdict(rest: seq<Instruction>): Result<(bool, seq<Instruction>), RuleBlockError> {
    if |rest| == 0 then Failure(MissingVerdict)
    else if MarkerValue(rest[0]) != Some(0) && MarkerValue(rest[0]) != Some(1) then Failure(VerdictField)
    else if |rest| == 1 || rest[1].opcode != 0x05 + EXIT + IMM_SOURCE then Failure(MissingExit)
    else Success((MarkerValue(rest[0]) == Some(1), rest[2..]))
  }

  // One rule block, and what follows it.
  function ReadBlock(rest: seq<Instruction>): (r: Result<(DeviceRule, seq<Instruction>), RuleBlockError>)
    ensures r.Success? ==> |r.value.1| < |rest|
  {
    match ReadType(rest)
    case Failure(error) => Failure(error)
    case Success((kind, afterType)) =>
      match ReadAccess(afterType)
      case Failure(error) => Failure(error)
      case Success((access, afterAccess)) =>
        var (major, afterMajor) := ReadNumber(afterAccess, R4);
        var (minor, afterMinor) := ReadNumber(afterMajor, R5);
        match ReadVerdict(afterMinor)
        case Failure(error) => Failure(error)
        case Success((allow, after)) => Success((DeviceRule(allow, kind, Some(major), Some(minor), access), after))
  }

  // The rules of a run of blocks: the first block is the last rule.
  function ReadBlocks(rest: seq<Instruction>): Result<seq<DeviceRule>, RuleBlockError>
    decreases |rest|
  {
    if |rest| == 0 then Success([])
    else
      match ReadBlock(rest)
      case Failure(error) => Failure(error)
      case Success((rule, after)) =>
        match ReadBlocks(after)
        case Failure(error) => Failure(error)
        case Success(rules) => Success(rules + [rule])
  }

  function Reversed<T>(s: seq<T>): seq<T> {
    if |s| == 0 then [] else [s[|s| - 1]] + Reversed(s[..|s| - 1])
  }

  method ParseRuleBlocks(instructions: seq<Instruction>) returns (r: Result<seq<DeviceRule>, RuleBlockError>)
    ensures r == ReadBlocks(instructions)
  {
    hide ReadBlock;
    var rules: seq<DeviceRule> := [];
    ghost var all := ReadBlocks(instructions);
    assert all.Success? ==> all.value + [] == all.value;
    var rest := instructions;
    while |rest| > 0
      invariant match ReadBlocks(rest)
                case Failure(error) => ReadBlocks(instructions) == Failure(error)
                case Success(more) => ReadBlocks(instructions) == Success(more + Reversed(rules))
      decreases |rest|
    {
      match ReadBlock(rest) {
        case Failure(error) =>
          return Failure(error);
        case Success((rule, after)) =>
          ghost var more := ReadBlocks(after);
          assert (rules + [rule])[..|rules|] == rules;
          assert more.Success? ==> more.value + [rule] + Reversed(rules) == more.value + Reversed(rules + [rule]);
          rules := rules + [rule];
          rest := after;
      }
    }
    assert [] + Reversed(rules) == Reversed(rules);
    return Success(Reversed(rules));
  }

  // The values of a run of markers, or the index of the first instruction that is not one.
  function MarkerValues(instructions: seq<Instruction>, index: nat): (r: Result<seq<U32>, nat>)
    ensures r.Success? ==> |r.value| == |instructions|
  {
    if |instructions| == 0 then Success([])
    else
      match MarkerValue(instructions[0])
      case None => Failure(index)
      case Some(value) =>
        match MarkerValues(instructions[1..], index + 1)
        case Failure(bad) => Failure(bad)
        case Success(values) => Success([value] + values)
  }

  predicate MarksFields(instructions: seq<Instruction>, fields: seq<U32>)
    requires |instructions| == |fields|
  {
    forall k | 0 <= k < |fields| :: MarkerValue(instructions[k]) == Some(fields[k])
  }

  function Validate(hash: DigestFn, instructions: seq<Instruction>, raw: seq<Byte>): Result<OwnedProgram, Conflict> {
    if |instructions| < HEADER_LEN then Failure(HeaderTooShort)
    else
      match MarkerValues(instructions[..HEADER_LEN], 0)
      case Failure(index) => Failure(HeaderField(index))
      case Success(header) =>
        var blockLen := header[9];
        if header[1] != MAGIC_HI || header[2] != FORMAT_VERSION then Failure(MagicOrVersion)
        else if blockLen < HEADER_LEN + INIT_LEN || blockLen + TRAILER_LEN >= |instructions| then Failure(BlockLenRange(blockLen))
        else if !MarksFields(instructions[blockLen..blockLen + TRAILER_LEN], [MAGIC_LO, MAGIC_HI, header[3], header[4]])
        then Failure(TrailerMismatch)
        else
          match ReadBlocks(instructions[HEADER_LEN + INIT_LEN..blockLen])
          case Failure(error) => Failure(RuleBlocks(error))
          case Success(rules) =>
            match EncodeAll(instructions[blockLen + TRAILER_LEN..])
            case Failure(error) => Failure(OriginalEncode(error))
            case Success(original) => Regenerate(hash, header, rules, original, raw)
  }

  // The wrapper is the daemon's own only if what was read from it emits it again, byte for byte.
  function Regenerate(hash: DigestFn, header: seq<U32>, rules: seq<DeviceRule>, original: seq<Byte>, raw: seq<Byte>)
    : Result<OwnedProgram, Conflict>
    requires |header| == HEADER_LEN
  {
    if hash(original) != Digest(header[5], header[6], header[7], header[8]) then Failure(DigestMismatch)
    else
      var nonce := JoinNonce(header[3], header[4]);
      match Emit(hash, rules, nonce, original)
      case Failure(error) => Failure(Regenerated(Some(error)))
      case Success(again) =>
        if again != raw then Failure(Regenerated(None))
        else Success(OwnedProgram(nonce, rules, original))
  }

  // None for a program that does not start like a header.
  function Parse(hash: DigestFn, raw: seq<Byte>): Result<Option<OwnedProgram>, OwnedError> {
    match DecodeAll(raw)
    case Failure(error) => Failure(NotInstructions(error))
    case Success(instructions) =>
      if |instructions| == 0 || MarkerValue(instructions[0]) != Some(MAGIC_LO) then Success(None)
      else
        match Validate(hash, instructions, raw)
        case Failure(cause) => Failure(Conflicts(cause))
        case Success(owned) => Success(Some(owned))
  }
}
