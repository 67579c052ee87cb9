# Device access in Dafny

swarm-device-access is a daemon that gives running containers access to device nodes by changing the
device filters of their cgroups. This project models the parts of it that must not go wrong, and proves
what they promise.

- **The filter compiler** (`Asm`, `AsmCanonical`, `WireFormat`, `DeviceFilter`, `Interp`, `InterpMeaning`,
  `FilterCorrect`, `Owned`, `OwnedRoundTrip`, `OwnedIdentity`, `WrapperBytes`, `Gate`, `WrapperCorrect`).
  Device rules are compiled to eBPF blocks
  (RFC 9669 encodings) and put in front of a runtime's own filter, between a header and a trailer. A
  wrapper decides each request as its last matching rule does, else exactly as the original. Parsing a
  wrapper gives back what it was emitted from. Canonical bytes are a fixed point of decoding and encoding.
  What a slot, an instruction, a rule and a whole wrapper mean is also written out in the standard's and
  the kernel's numbers, and the code is proved to agree.
- **The cgroup v2 pass** (`V2Plan`, `V2Kernel`, `V2Execution`, `V2Conservation`, `V2Jobs`, `V2Pass`,
  `V2Meaning`, `V2Safety`, `V2Convergence`, `V2FixedPoint`, `V2Recovery`, `V2Runs`, `V2Counts`,
  `V2Witness`, `V2Controller`).
  One pass classifies the attached programs, plans, and executes step by step; any kernel call may fail,
  the rollback included. The model keeps the list of every set of programs that was ever attached, so
  safety is stated of each intermediate state. A cgroup lets a request through when every attached
  program does (`BPF_F_ALLOW_MULTI`).
- **The cgroup v1 set and its ledger** (`V1Set`, `V1Call`, `V1Correct`, `V1Controller`). Revokes before
  grants, the ledger updated with every write, any access failing.
- **The coordinator** (`Coordinator`, `CoordinatorRun`, `CoordinatorHolds`, `CoordinatorInv`,
  `CoordinatorSound`, `CoordinatorLive`, `CoordinatorWork`, `CoordinatorDone`, `CoordinatorRetry`,
  `CoordinatorEvents`). Every section of code under its lock is one step; the run
  loop, the holds, events, retries and requests interleave in any order.
- **Run history** (`Lifecycle`), **coalesced reloads** (`Coalescer`), **path cleaning** (`LexPath`).

`Wrappers`, `Words` and `Handle` hold what the others share. `dafny verify dfyconfig.toml` checks
everything.

## How it is modelled

- Bytes and machine words are integers with explicit ranges; truncation and sign extension are written
  out. SHA-256 is any function from bytes to four words. Nonces, clock readings, directory listings and
  the outcome of each system call are inputs.
- What an instruction of an original computes or compares is left open: the theorems hold on every
  machine (`Interp.Machine`) that runs the few instructions of the daemon's own blocks as RFC 9669 says.
  The reference interpreter is one such machine; it stops at the signed comparisons, others do not.
- Registers are optional values, and only the context pointer is set at entry. What the kernel's verifier
  guarantees of a loaded program, that it reads no register it has not written, is a hypothesis
  (`Interp.ReadsOnlyWritten`, part of `WrapperCorrect.Trusted`).
- A kernel call takes effect or fails without effect, and a dump reads back what was loaded.
- Code that changes things in place is a class or a method with a loop, proved equal to a function on
  values; the theorems are about those functions. Concurrency is a state machine over lock sections.
- `past` in `CoordinatorRun.Sys`, `trace` in the kernel and in the cgroup v1 state, and the counters of
  `Coalescer.Sys` are history: nothing reads them to decide anything.

## Where the code and its documentation differ

- A major or minor number of 2^31 or more is accepted, but its comparison sign-extends the immediate, so
  the block never matches a request that carries the number (`FilterCorrect.LargeMajorNeverMatches`,
  `FilterCorrect.BlockMeansRule`). Such a wrapper is rejected by the daemon itself afterwards, and every
  later pass on that cgroup stops on a conflict (`OwnedIdentity.RoundTrip`,
  `V2FixedPoint.OutOfRangeConflicts`).
- The comment on `execute` says that every intermediate state is at most as wide as the desired one.
  That holds under all failures exactly when the start already is (`V2Safety.NeverWiderThanPlannedIff`);
  what always holds is that no state is wider than the start and the desired end together
  (`V2Safety.PassNeverWider`). `V2Witness.WiderThanPlanned` is a cgroup where the comment fails.
- `terminate` is documented to end the verified record with the latest start, and with none every
  provisional one; the code also considers records that have ended. It does what is documented exactly
  when no ended run is a candidate or the latest candidate is verified (`Lifecycle.EndsAsDocumentedIff`);
  two runs of operations show the two ways it does not (`Lifecycle.EndedRunShadowsVerified`,
  `Lifecycle.EndedRunShadowsProvisional`).
- A lineage is not always rebuilt as often as it was cached: a wrapper and a bare copy of one lineage,
  left by a failed rollback, account for two (`V2Witness.LineageLost`, `V2Counts.LineageCountSurvives`).

## Model

| member | source | states |
|---|---|---|
| Asm.Decode | src/cgroup/asm.rs:823-832 | the decoding loop gives the instruction sequence, or the first error with its byte offset |
| Asm.CanonicalBytes | src/cgroup/owned.rs:89-97 | the encoding loop gives the encodings in order, or the first failure with its index |
| WireFormat.DecodesAsWritten | src/cgroup/asm.rs:823-898 | bytes decode to a program exactly when each slot says so: registers in the low and high half of the second byte, little-endian signed offset and immediate, the numbers that tell extended and atomic operations apart, and the second slot of a wide load |
| WireFormat.EncodesAsWritten | src/cgroup/asm.rs:634-688 | a program encodes to those bytes, slot by slot, with the offset and the immediate that extended and atomic operations carry on the wire |
| WireFormat.SpareIs | src/cgroup/asm.rs:659-672 | the offset that canonicalisation clears is that of 32- and 64-bit arithmetic for which it means nothing |
| AsmCanonical.ReencodeAll | src/cgroup/asm.rs:634-688 | decoded instructions encode again unless one is a tagged helper call, to the same bytes with the spare ALU offsets cleared |
| AsmCanonical.DecodeZeroed | src/cgroup/asm.rs:839-898 | clearing spare offsets commutes with decoding, across wide loads, atomics, signed division and sign-extending moves |
| AsmCanonical.ZeroedOnlyOffsets | src/cgroup/asm.rs:659-672 | a byte that canonicalisation changes is an offset byte of an ALU slot without extended meaning, and becomes zero |
| AsmCanonical.ZeroedIdempotent | src/cgroup/asm.rs:659-672 | clearing twice is clearing once |
| AsmCanonical.CanonicalForm | src/cgroup/owned.rs:84-106 | canonicalisation succeeds exactly on decodable programs without a tagged call, keeps the length, and changes nothing the second time |
| AsmCanonical.StableRoundTrip | src/cgroup/asm.rs:634-898 | stable instructions encode and decode back to themselves |
| DeviceFilter.FilterProgram.AppendDevice | src/cgroup/ebpf.rs:142-222 | appending a rule adds its block, is skipped behind a full wildcard, and fails as the rule check says, leaving the rest |
| DeviceFilter.FilterProgram.Layout | src/cgroup/ebpf.rs:234-258 | the layout loop is head, context loads, resolved blocks, tail |
| DeviceFilter.FilterProgram.Finalize | src/cgroup/ebpf.rs:226-229 | the finished program is the blocks in front of the original, and no rule can be appended after |
| DeviceFilter.ParseAccess | src/cgroup/ebpf.rs:166-174 | the letter loop gives the access mask, or the first unknown letter |
| FilterCorrect.MaskMeansLetters | src/cgroup/ebpf.rs:165-176 | the mask of some letters contains an access exactly when each bit asked for, 1 for mknod, 2 for read and 4 for write, has its letter |
| DeviceFilter.PrependDeviceFilter | src/cgroup/ebpf.rs:274-289 | rules are appended last to first in front of the original, or the first failing rule is the error |
| Interp.RunDeviceFilter | src/cgroup/bpfinterp.rs:76-157 | the bounded interpreter loop is the bounded iteration of the step function |
| Interp.Relocated | src/cgroup/bpfinterp.rs:82-157 | a program whose branches stay inside behaves behind any prefix as alone, whatever the registers it did not write hold |
| Interp.DecidesOnce | src/cgroup/bpfinterp.rs:82-157 | a program returns at most one verdict for a request |
| Interp.SignedIsMachine | src/cgroup/owned.rs:416-417 | the machines the theorems range over include one that executes the signed comparisons the gate lets through |
| InterpMeaning.Compares | src/cgroup/bpfinterp.rs:123-145 | each jump number compares unsigned operands as RFC 9669 says, one looks for a shared bit, and nothing else is a comparison |
| InterpMeaning.Computes | src/cgroup/bpfinterp.rs:101-122 | each arithmetic number moves, combines bit by bit, multiplies or divides by a power of two within its width, and there is no other |
| InterpMeaning.StepsArithmetic | src/cgroup/bpfinterp.rs:101-122 | an arithmetic instruction combines its destination with a register or the sign-extended immediate, in the width of its class |
| InterpMeaning.StepsJump | src/cgroup/bpfinterp.rs:123-150 | exits return register 0, jumps add their offset, and comparisons of class 6 are of the low 32 bits |
| InterpMeaning.ContextBytes | src/cgroup/bpfinterp.rs:66-71 | the context is the type, the access, the major and the minor number, each with its lowest byte first |
| InterpMeaning.LoadsWords | src/cgroup/bpfinterp.rs:88-100 | a load reads a word, a half or a byte of the context at its offset, lowest byte first, and nothing beyond it |
| FilterCorrect.BlockMeansRule | src/cgroup/ebpf.rs:142-222 | a rule's block matches exactly the requests the rule matches, in its own letters and the kernel's numbers, if and only if its numbers are below 2^31 |
| FilterCorrect.LargeMajorNeverMatches | src/cgroup/ebpf.rs:192-209 | a rule whose major is 2^31 matches a request its block does not |
| FilterCorrect.OneAccess | src/cgroup/ebpf.rs:183-191 | a rule with known letters matches a request for one kind of access exactly when it has that letter |
| FilterCorrect.BlocksRun | src/cgroup/ebpf.rs:234-265 | the compiled blocks return the verdict of the last rule whose block matches, else fall through to their end with the loaded registers intact |
| Owned.EmitOwned | src/cgroup/owned.rs:157-200 | emission is header, context loads, blocks, trailer, original, canonically encoded, or its first failure |
| WrapperBytes.EmitsExpected | src/cgroup/owned.rs:157-200 | the bytes of a wrapper are the ones described from its rules, nonce, digest and original alone, opcode by opcode and jump by jump |
| WrapperBytes.BareMeans | src/cgroup/owned.rs:210-221 | a program is taken for a bare one exactly when it decodes and does not begin with the eight bytes a header begins with |
| Owned.ParseRuleBlocks | src/cgroup/owned.rs:298-347 | the block parser gives the rules in list order, or the first malformed part |
| OwnedRoundTrip.ParseEmitted | src/cgroup/owned.rs:157-289 | an emitted wrapper parses to its nonce, the rules read back and its original exactly when every kept number is below 2^31, else it is a conflict |
| OwnedIdentity.KeptIsEffective | src/cgroup/ebpf.rs:142-152 | the rules a wrapper keeps are those from the last full wildcard on |
| OwnedIdentity.BuildAccepts | src/cgroup/ebpf.rs:142-174 | a list of rules compiles exactly when every rule from the last full wildcard on has a known type and letters and numbers of at most 32 bits; those before it are not looked at |
| OwnedIdentity.RoundTrip | src/cgroup/owned.rs:157-356 | parsing an emitted wrapper gives the same nonce and original and the normalised rules, or a conflict exactly when an effective number is 2^31 or more |
| OwnedIdentity.SameBytes | src/cgroup/owned.rs:157-289 | two wrappers are byte-equal exactly when nonce, original and normalised rules agree |
| OwnedIdentity.ValidatedIsEmitted | src/cgroup/owned.rs:240-289 | whatever parses as a wrapper is what emission makes of its parts |
| OwnedIdentity.ParsesExactly | src/cgroup/owned.rs:240-289 | a program parses as a wrapper of given parts exactly when emission makes it of them, with normal rules and numbers below 2^31 |
| OwnedIdentity.ParseShorter | src/cgroup/owned.rs:230-238 | a wrapper is longer than the original in it, so stripping ends |
| OwnedIdentity.ParseOwnedInnermost | src/cgroup/owned.rs:230-238 | the stripping loop gives the outermost nonce and rules with the innermost original |
| OwnedIdentity.InnermostIsBare | src/cgroup/owned.rs:230-238 | what stripping leaves is not a wrapper, and stripping it again changes nothing |
| Gate.CheckWrappable | src/cgroup/owned.rs:375-402 | the gate loop gives the first reason against wrapping |
| Gate.GateMeans | src/cgroup/owned.rs:375-426 | the gate passes exactly non-empty programs without maps, in the instruction subset, whose branches land inside |
| Gate.GateNames | src/cgroup/owned.rs:375-426 | the same in opcode bytes, and that a refusal names the first instruction outside the subset or branching out of the program |
| Gate.BlockJumpLands | src/cgroup/ebpf.rs:234-265 | every jump of a resolved block lands on the first instruction after the block, without truncation |
| Gate.WrapperJumpsLand | src/cgroup/ebpf.rs:234-265 | in a wrapper every rule-block jump lands on the next block or the trailer |
| Gate.GateClosed | src/cgroup/owned.rs:375-426 | wrapping a program that passes the gate gives one that passes it |
| WrapperCorrect.PrefixRuns | src/cgroup/owned.rs:157-200 | a wrapper returns the verdict of the last matching rule, or gets to the original with the context pointer intact |
| WrapperCorrect.CompilerCorrect | src/cgroup/owned.rs:157-200 | for every expressible rule list, original and request: the wrapper returns the last matching rule's verdict, else exactly what the original returns |
| WrapperCorrect.CompiledIsMeant | src/cgroup/ebpf.rs:142-222 | with numbers below 2^31 the compiled rules are the rules as written, those before a full wildcard making no difference |
| WrapperCorrect.WrapperReadsOnlyWritten | src/cgroup/owned.rs:157-200 | a wrapper reads only registers it has written if its original does |
| WrapperCorrect.WrapperAllows | src/cgroup/owned.rs:157-200 | on bytes: a wrapper lets a request through when its last matching rule allows it, and without one exactly when the original does |
| WrapperCorrect.WrapperTrusted | src/cgroup/owned.rs:157-200 | wrapping keeps what the gate and the kernel's verifier guarantee, so wrappers can be wrapped again |
| WrapperCorrect.BoundedAgrees | src/cgroup/bpfinterp.rs:76-157 | the interpreter with zeroed registers and a step bound finds the same verdict for a wrapper wherever it finds one for the original |
| V2Plan.ClassifyAll | src/cgroup/v2.rs:110-115 | the programs classified in order, or the first failure |
| V2Plan.GroupWrappers | src/cgroup/v2plan.rs:251-274 | the grouping loop gives the lineages in order of first appearance, and the bare programs |
| V2Plan.PlanGrant | src/cgroup/v2plan.rs:282-324 | the loops that push loads, steps and lineages render one move per lineage and per bare program |
| V2Plan.PlanRestore | src/cgroup/v2plan.rs:331-365 | the same for empty rules, each free bare copy used for one lineage |
| V2Plan.AddRebuild | src/cgroup/v2plan.rs:156-179 | the attaches added for cached lineages, under their nonce or a new one |
| V2Plan.FindMissing | src/cgroup/v2plan.rs:370-397 | the cached lineages no attached program accounts for, each program accounting for one |
| V2Kernel.ProbeDecidesOnce | src/cgroup/v2ops.rs:343-369 | the first success or EINVAL of a replace decides, and nothing changes it |
| V2Execution.SwapSwaps | src/cgroup/v2.rs:196-225 | whatever fails, the rollback included: in every state of a swap the old or the new program is attached, at success only the new, otherwise still the old |
| V2Execution.SwapEnds | src/cgroup/v2.rs:196-225 | how a swap ends for each fate of its calls: replaced in place, refused, or attached and detached where there is no replace; and what the probe has learnt |
| V2Execution.SwapRollsBack | src/cgroup/v2.rs:196-225 | a swap that fails leaves the attached programs as they were, unless the attach worked and both detaches were refused; then, and only then, the rollback error is reported and the new program is left attached |
| V2Execution.ExecuteMoves | src/cgroup/v2plan.rs:213-240 | executing a plan touches only its programs, keeps each lineage covered in every state, leaves exactly its result when it succeeds, and succeeds when no call fails |
| V2Conservation.GroupingKeepsAll | src/cgroup/v2plan.rs:251-274 | grouping loses and repeats no program |
| V2Conservation.GroupingSound | src/cgroup/v2plan.rs:251-274 | a group's members share its nonce and original, and no two groups share both |
| V2Conservation.PlanConserves | src/cgroup/v2plan.rs:282-365 | every attached program is in exactly one move, of its own original, and every move ends as its lineage's desired bytes |
| V2Counts.PassTouchesOnce | src/cgroup/v2plan.rs:282-365 | no attached program is touched by two steps, and every load is used by exactly one, in order |
| V2Counts.RestoreCounts | src/cgroup/v2plan.rs:331-365 | where a restore ends: no attached program classifies as a wrapper, and of each original there are as many bare programs as the larger of its wrapper lineages and its bare copies, and one for each lineage a wipe lost |
| V2Counts.GrantCounts | src/cgroup/v2plan.rs:282-324 | where a grant ends: exactly one program with the desired bytes per wrapper lineage, one per bare program under its new nonce, and one per lineage a wipe lost |
| V2Counts.LineageCountSurvives | src/cgroup/v2plan.rs:370-397 | the number of cached lineages that share an original survives a pass if and only if the attached programs account for no more of them than the pass keeps; after a wipe a grant keeps all of them, and so does any rebuild of an empty cgroup |
| V2Witness.LineageLost | src/cgroup/v2plan.rs:331-397 | a run in which it does not: a rebuild that stops halfway, a swap whose rollback fails, then empty rules leave one program where two lineages were cached |
| V2Jobs.JobsSound | src/cgroup/v2plan.rs:213-240 | no two moves work on the same program, and everything a move needs is there when it starts |
| V2Pass.PassRuns | src/cgroup/v2.rs:87-161 | every state of a planned pass holds only what was attached or loaded for it, with each lineage covered; a success leaves exactly one result per move; with no failure it succeeds |
| V2Pass.PassRefused | src/cgroup/v2.rs:87-105 | a failed query, inaccessible filters, an empty cgroup with nothing cached, or an attach mode without the multi flag: the pass fails saying so and changes neither kernel nor cache |
| V2Meaning.CanonicalAllows | src/cgroup/v2plan.rs:185-207 | canonicalising a program does not change what it lets through |
| V2Meaning.ParsedFixed | src/cgroup/owned.rs:240-289 | the original inside a canonical wrapper is canonical |
| V2Meaning.BuiltOnFound | src/cgroup/v2plan.rs:185-207 | classifying a program built on an original finds that original, or fails |
| V2Meaning.StackWidens | src/cgroup/v2.rs:59-69 | a stack of allow-only wrappers lets through at least what its original does |
| V2Meaning.TargetAllows | src/cgroup/v2.rs:59-69 | a lineage's desired program lets through exactly what the rules grant or its original does |
| V2Safety.PassNeverWider | src/cgroup/v2plan.rs:209-240 | with allow-only rules, whatever call fails, every state of a pass lets through only what the start or the planned end does |
| V2Safety.RestoreNeverWider | src/cgroup/v2plan.rs:326-365 | with empty rules every state lets through only what the start does, whatever the bare programs are |
| V2Safety.NeverWiderThanPlannedIff | src/cgroup/v2plan.rs:209-212 | every state under all failures is at most as wide as the planned end if and only if the start is |
| V2Witness.WiderThanPlanned | src/cgroup/v2plan.rs:209-212 | a cgroup whose grants are taken away with the first kernel call refused is in a state wider than the planned end |
| V2Safety.PassArrives | src/cgroup/v2.rs:59-83 | a pass that succeeds lets a request through exactly when a rule grants it or every lineage's original does |
| V2Safety.LineagesKeepTheirOwn | src/cgroup/v2plan.rs:209-240 | in every state every attached lineage has a program of its own built on its original, none counting twice |
| V2Convergence.OriginalsKept | src/cgroup/v2.rs:108-131 | outside a rebuild the set of attached originals is the same in every state of a pass |
| V2Convergence.PassKeepsSound | src/cgroup/v2.rs:87-161 | a pass, wherever it stops and also with rules that do not build, leaves a cgroup the next pass can work on, with the same originals |
| V2Convergence.Converges | src/cgroup/v2.rs:108-131 | after any number of failed passes, those with rules that do not build included, one without failures succeeds, over the same originals, letting a request through exactly when a rule grants it or all of them do |
| V2FixedPoint.FixedPoint | src/cgroup/v2plan.rs:251-365 | repeating a pass that succeeded plans no load, and no step if and only if no two lineages share nonce and original |
| V2FixedPoint.NewNoncesDistinct | src/cgroup/v2plan.rs:310-322 | with new nonces, and after a wipe with distinct cached keys, a grant gives its lineages distinct keys |
| V2Runs.RunKeepsTidy | src/cgroup/v2.rs:87-183 | over any passes with new nonces, failures and wipes no two cached lineages that were ever wrapped share nonce and original |
| V2Runs.RunFixedPoint | src/cgroup/v2.rs:87-183 | after any such run a pass that succeeded plans no load and no step when repeated, the first one after a wipe included |
| V2FixedPoint.OutOfRangeConflicts | src/cgroup/v2plan.rs:185-207 | after a success with a number of 2^31 or more every later pass fails with a conflict and plans nothing |
| V2Recovery.CachedPlanned | src/cgroup/v2.rs:116-130 | the plan of a pass has a lineage for every cached original |
| V2Recovery.RunKeepsCached | src/cgroup/v2.rs:87-183 | over any passes, failures and wipes the cache never loses an original |
| V2Recovery.WipeRecovery | src/cgroup/v2.rs:87-183 | after any such run a pass that succeeds has every original ever cached attached again, bare or in the rules' wrapper |
| V2Controller.FilterCache.Forget | src/cgroup/v2plan.rs:59-61 | one identity's entry is dropped and no other |
| V2Controller.ReplaceProbe.Record | src/cgroup/v2ops.rs:356-369 | only an undecided probe takes an answer |
| V2Controller.CgroupV2.Swap | src/cgroup/v2.rs:196-225 | the swap with its fallback and rollback, on one cgroup |
| V2Controller.CgroupV2.Execute | src/cgroup/v2plan.rs:213-240 | every load, then the steps up to the first failure |
| V2Controller.CgroupV2.Commit | src/cgroup/v2.rs:135-161 | the lineages are cached first, and rebuilding ends only with a success |
| V2Controller.CgroupV2.Rebuild | src/cgroup/v2.rs:168-183 | an empty cgroup is one whole pass from the cache |
| V2Controller.CgroupV2.SetRules | src/cgroup/v2.rs:87-131 | one call is one pass on the cgroup, and no other cgroup or cache entry changes |
| V1Set.WithoutOwned | src/cgroup/v1set.rs:174-193 | the nested loops strip the owned bits from exact entries and drop the empty ones |
| V1Set.StrippedIsBaseline | src/cgroup/v1set.rs:174-193 | the stripped list covers a bit exactly when a wildcard entry does, or an exact entry has it and the ledger does not |
| V1Set.LinesCover | src/cgroup/v1set.rs:90-100 | what a list covers, in the letters and numbers of its lines |
| V1Set.AllowedMeans | src/cgroup/v1set.rs:17-25 | an allow adds exactly its bit to the exact entries |
| V1Set.DeniedMeans | src/cgroup/v1set.rs:17-25 | a deny takes exactly its bit from the exact entries |
| V1Call.ExpandMeans | src/cgroup/v1set.rs:196-221 | the rules expand exactly when each is an allow rule of a concrete type and device with known letters, and then to the bits, in the rules' own letters, that some rule grants |
| V1Call.ExpandRules | src/cgroup/v1set.rs:196-221 | the expansion loop gives those bits, or the first rule's error |
| V1Call.MatchingList | src/cgroup/v1set.rs:20-25 | when the files hold the ledger's bits, the effective bits are the baseline and the ledger |
| V1Correct.CallKeeps | src/cgroup/v1set.rs:275-335 | under any failures, after every write with its ledger update: the baseline is unchanged, the ledger stays disjoint from it, and the list stays baseline plus ledger |
| V1Correct.BaselineNeverDenied | src/cgroup/v1set.rs:290-310 | a bit the runtime grants by itself is effective in every state |
| V1Correct.FailedRevokeStops | src/cgroup/v1set.rs:302-309 | after a failed revoke nothing was added to the list or the ledger |
| V1Correct.CallAchieves | src/cgroup/v1set.rs:275-335 | with every access working: rules that are not concrete are refused and change nothing; otherwise no error and no drift, effective bits exactly the baseline and what some rule grants, ledger exactly what the baseline lacks of it |
| V1Correct.SuccessMeansEffective | src/cgroup/v1set.rs:339-363 | success is never wrong, even when writes are accepted without effect: every bit some rule grants is effective |
| V1Correct.RunKeeps | src/cgroup/v1set.rs:275-335 | over any calls, failures and lost bits the baseline stays the same and the ledger disjoint from it |
| V1Correct.RunConverges | src/cgroup/v1set.rs:275-335 | after any such run one call without failures ends with exactly the baseline and what some rule grants |
| V1Controller.Ledger.Forget | src/cgroup/ledger.rs:39-41 | one record is dropped and no other |
| V1Controller.Ledger.Add | src/cgroup/ledger.rs:48-50 | one bit is added to one record |
| V1Controller.Ledger.Remove | src/cgroup/ledger.rs:52-60 | one bit is removed, and a record left empty is dropped |
| V1Controller.CgroupV1.Revoke | src/cgroup/v1set.rs:290-310 | the revoke loop, forgetting what the baseline covers |
| V1Controller.CgroupV1.Grant | src/cgroup/v1set.rs:312-326 | the grant loop, writing what is not effective and going on past failures |
| V1Controller.FindMismatched | src/cgroup/v1set.rs:347-357 | the bits whose effect is not as wanted, in order |
| V1Controller.CgroupV1.CheckDrift | src/cgroup/v1set.rs:339-363 | the list is read again and compared |
| V1Controller.CgroupV1.SetDeviceRules | src/cgroup/v1set.rs:275-335 | one call is one such run on the cgroup, and no other cgroup's files or record change |
| Coordinator.Shared.Request | src/daemon/coordinator.rs:276-290 | the latest key is bumped and every pending entry re-tagged with it |
| Coordinator.Shared.TakeRequest | src/daemon/coordinator.rs:417-424 | the latest request, if no pass has started for it |
| Coordinator.Shared.Reserve | src/daemon/coordinator.rs:627-656 | a free container is claimed; a held one gets the work queued unless a start event is covered |
| Coordinator.Shared.Next | src/daemon/coordinator.rs:660-683 | the queued work, or the release, which wakes the loop if the container is pending |
| CoordinatorLive.QueueKeepsLatest | src/daemon/coordinator.rs:643-654 | queueing keeps the latest end time and drops only start events not newer than the running apply |
| CoordinatorLive.CleanupFirst | src/daemon/coordinator.rs:566-590 | taking queued work leads to the cleanup, at the latest queued time, before the queued reconcile can begin |
| Coordinator.Shared.Settle | src/daemon/coordinator.rs:699-728 | an entry is cleared only under its own key, and rescheduled with backoff on failure |
| Coordinator.Shared.Announce | src/daemon/coordinator.rs:757-774 | completion is announced whenever nothing is left for the latest request and it has not been |
| Coordinator.Shared.FinishPass | src/daemon/coordinator.rs:731-738 | a pass for the latest request ends incompleteness |
| Coordinator.Shared.NextDue | src/daemon/coordinator.rs:790-798 | the earliest due time among pending containers nobody holds |
| Coordinator.Shared.DueIds | src/daemon/coordinator.rs:801-812 | exactly the pending containers due and not held, each once |
| Coordinator.Shared.SkipEvent | src/daemon/coordinator.rs:829-837 | the entry is used up, and skips an event not newer than an inspect that has not expired |
| Coordinator.Shared.PruneProcessed | src/daemon/coordinator.rs:854-859 | exactly the expired entries go |
| CoordinatorInv.EndLocal | src/daemon/coordinator.rs:699-728 | a settled reconcile never makes a visited container lose its claim to a later one |
| CoordinatorInv.ActSteps | src/daemon/coordinator.rs:320-366 | every step of every part keeps the reservations, the queued work and the pending keys consistent |
| CoordinatorSound.ActPass | src/daemon/coordinator.rs:438-475 | every step keeps each container a pass visited served, queued, running late, or pending with nothing that could clear it early |
| CoordinatorLive.AnnouncementSound | src/daemon/coordinator.rs:438-475 | whenever completion is logged, every container the latest request's finished pass listed had a reconcile that began after the pass and ended in success or gone |
| CoordinatorLive.LoggedOnce | src/daemon/coordinator.rs:757-774 | completion is logged at most once per request |
| CoordinatorDone.RestIsLogged | src/daemon/coordinator.rs:731-774 | in every reachable state with no pass outstanding, nothing pending and nobody holding a container, the completion of the latest request has been logged |
| CoordinatorDone.CompletionIsLogged | src/daemon/coordinator.rs:660-774 | it has been logged as soon as a pass or retry round ends or a task lets go of its container with nothing pending and no reconcile running or queued |
| CoordinatorLive.MutualExclusion | src/daemon/coordinator.rs:552-591 | in every reachable state a container has at most one holder, and one exactly while reserved |
| CoordinatorLive.NoLostWork | src/daemon/coordinator.rs:552-591 | no container is free with a reconcile asked for and not begun, or a cleanup asked for and not run, covered start events excepted |
| CoordinatorWork.RequestedReconcileBegins | src/daemon/coordinator.rs:552-591 | over every run: between a request for a reconcile that no running apply covers and the release of the container, one begins |
| CoordinatorWork.HolderBegins | src/daemon/coordinator.rs:552-591 | it is the holder that begins it, before it lets go of the container |
| CoordinatorWork.RequestedCleanupRuns | src/daemon/coordinator.rs:566-590 | over every run: between an end of run and the release of the container, it is cleaned up after that run |
| CoordinatorWork.CleanupBeforeReconcile | src/daemon/coordinator.rs:566-590 | over every run: an end of run that came before the holder asked for more work is cleaned up after before the holder begins a reconcile |
| CoordinatorLive.NothingStranded | src/daemon/coordinator.rs:320-366 | pending entries carry the latest key; while incomplete a pass is requested, running or armed for retry, unless the daemon is stopping; a waiting loop with work is about to be woken |
| CoordinatorLive.OlderNeverClears | src/daemon/coordinator.rs:699-728 | a reconcile begun under an older request never clears a pending entry |
| CoordinatorRetry.BacksOff | src/daemon/coordinator.rs:699-728 | over every run: a container is pending exactly while its last attempts failed, and is due 1, 2, 4, 8, 16, then always 30 seconds after the last failure, or at once where a reconcile of an older request succeeded since |
| CoordinatorEvents.LatestIs | src/daemon/coordinator.rs:276-290 | over every run the latest key counts the requests and carries the largest generation asked for |
| CoordinatorEvents.StartEventQueued | src/daemon/coordinator.rs:627-656 | over every run: a start event for a held container queues a reconcile unless the work its holder is at was taken up no earlier |
| CoordinatorLive.SkipsOnlyCovered | src/daemon/coordinator.rs:825-837 | an event is skipped only if a successful reconcile of the container was inspected no earlier and ended at most a minute ago |
| Lifecycle.Lifecycles.Append | src/processor/lifecycle.rs:310-319 | the eviction loop drops the oldest records without identity while over the bound |
| Lifecycle.Lifecycles.SetProvisional | src/processor/lifecycle.rs:145-168 | one provisional record is refreshed or added |
| Lifecycle.Lifecycles.SetVerified | src/processor/lifecycle.rs:172-208 | the same run's record is upgraded, else a provisional one, else one is added |
| Lifecycle.LatestCandidate | src/processor/lifecycle.rs:231-245 | the loop finds the identified run with the latest start not after the event, the first of equals |
| Lifecycle.Lifecycles.End | src/processor/lifecycle.rs:222-258 | that run alone ends, or with none the provisional records |
| Lifecycle.Lifecycles.MarkRun | src/processor/lifecycle.rs:261-283 | only records of that start time change, and only ended ones become revoked |
| Lifecycle.Lifecycles.Remove | src/processor/lifecycle.rs:288-299 | the records of that start and creation time go, and an empty history with them |
| Lifecycle.RunKeeps | src/processor/lifecycle.rs:145-319 | over any operations: at most one provisional record, one record per known start time, within the bound unless all hold identities |
| Lifecycle.OnlyReleaseRemoves | src/processor/lifecycle.rs:99-106 | over any operations only release removes a record that holds an identity |
| Lifecycle.EndNeverEndsLater | src/processor/lifecycle.rs:219-258 | over any operations an end event never ends an identified run that started after it |
| Lifecycle.EndsAsDocumentedIff | src/processor/lifecycle.rs:219-258 | an end event does what is documented of it (the verified run with the latest start ends, else the provisional records) if and only if no ended run is a candidate or the latest candidate is verified |
| Lifecycle.EndedRunShadowsVerified | src/processor/lifecycle.rs:219-258 | a run of operations after which an end event returns an ended run again and leaves the verified one alone |
| Lifecycle.EndedRunShadowsProvisional | src/processor/lifecycle.rs:219-258 | one after which it returns an ended run again and leaves the provisional record alone |
| Lifecycle.ReleaseRemovesOne | src/processor/lifecycle.rs:285-299 | release of a record with a known start removes that record and no other |
| Coalescer.Shared.Trigger | src/systemd.rs:552-560 | a trigger starts a worker or leaves a pending run |
| Coalescer.Shared.Check | src/systemd.rs:565-573 | a worker runs again for a pending trigger, or stops |
| Coalescer.OneRunAtATime | src/systemd.rs:529-575 | under every interleaving one run at most is active, and runs never exceed triggers |
| Coalescer.TriggersAreServed | src/systemd.rs:529-575 | every trigger is followed by a run that begins after it before the workers are gone |
| Coalescer.WaitReturnsLast | src/systemd.rs:577-583 | once waiting has returned nothing runs, is owed or ever runs |
| LexPath.Clean | src/lexpath.rs:57-110 | the buffer algorithm with its backtracking is the component stack written out, for every input |
| LexPath.CleanedTwice | src/lexpath.rs:53-110 | cleaning is idempotent |
| LexPath.RootedIsClean | src/lexpath.rs:53-110 | a rooted path is its own cleaning if and only if it is the root or has no empty, dot or dot-dot element |
| LexPath.UpUndoes | src/lexpath.rs:57-110 | a name followed by dot-dot, a trailing dot and a trailing separator change nothing about what any path is cleaned to |
| LexPath.LeadingUp | src/lexpath.rs:57-110 | a leading dot-dot stays in front of a relative path's cleaning and disappears in front of a rooted one's |
| LexPath.Join | src/lexpath.rs:38-51 | the non-empty elements joined and cleaned, a clean path unless there is none |

## Left out

- System calls, file access, the Docker client and the event stream: their outcomes are inputs, and each takes effect or fails without effect.
- SHA-256 and random nonces: the digest is any function; that new nonces are distinct is a hypothesis where it is needed.
- Big-endian register layout: only the little-endian form is modelled.
- Rule lists whose wrapper reaches 2^32 instructions: the header field saturates there, and the round trip is stated below it.
- Wrap-around of the 64-bit request epoch and overflow of due times: counters and times are unbounded integers.
- What the coordinator's reconcile, cleanup and sweep do inside: they are steps with an outcome.
- Fairness: the coordinator's and the coalescer's threads take steps in any order, so nothing is said about when they do.
- `Display` wording, logging text and metrics, except that and when completion is logged.
- Parsing of `/proc` files and of `devices.list` text, and of RFC 3339 times, which is a parameter.
- The last path element (`base`), policy globs and YAML reading are not modelled.
- The D-Bus owner tracking around the coalescer is not modelled.
- A kernel that accepts a cgroup v1 write without effect: only `V1Correct.SuccessMeansEffective` covers it.
