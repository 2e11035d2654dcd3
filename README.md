# mcsema function lifting, modelled in Dafny

mcsema lifts machine code to LLVM bitcode. It starts from a control-flow
graph (CFG) recovered from a binary. A CFG module maps addresses to
functions. Each function holds basic blocks keyed by address, and each block
holds decoded instructions.

`mcsema/BC/Function.cpp` turns each such function into a bitcode function. It:

- declares a bitcode function for every non-external CFG function;
- gives each CFG block a bitcode basic block, and lifts every instruction into it;
- ends each block with a terminator chosen from the category of its last
  instruction, or with a fall-through ending;
- resolves call targets to external drivers (`call_extern_<name>`), to
  lifted functions, or to remill's error intrinsic;
- creates a block on demand for every program counter a branch reaches;
- after each lifted instruction, annotates every instruction of the function
  that has no annotation yet with that instruction's address
  (`mcsema_real_eip`). The fall-through ending of the last block lifted is
  therefore left unannotated, and a block's program-counter store gets the
  address of the next instruction lifted.

This project models that control-flow reconstruction. LLVM is abstracted:

- A bitcode function is a `class` whose `blocks` the lifter appends to in place.
- A block is a name and a sequence of instructions. Each instruction is an
  abstract operation (`Op`) and an optional annotation.
- The module is a `class` holding a map from names to functions.
- The per-function translation state (`TranslationContext`) is a `class`.
  Its `eaToBlock` map, current CFG block and current instruction are
  reassigned as in the source.

What the model proves:

- Annotation keeps existing annotations and is idempotent.
- `GetOrCreateBlock` memoizes.
- `FindFunction` follows its priority order and declares each driver once.
- `TryLiftTerminator` gives the exact lowering of every instruction category
  (`Lowered`). `LiftInstIntoBlock` carries that lowering, before annotation.
- `LiftIndirectJump` has exactly three outcomes (`IndirectLowered`).
- `LiftBlockIntoFunction` has three fall-through endings, and every lifted
  block ends in exactly one terminator whose targets exist.
- A function lifted from a CFG with blocks is well formed: every block is
  terminated, and every branch stays inside the function. It has one block
  per CFG block, named after it, and its entry branches to the block at the
  function's address.
- Declaring is idempotent, and defining leaves already-defined functions alone.

Files:

- `wrappers.dfy` defines `Option`.
- `cfg.dfy`: the CFG records and the decoded-instruction record.
- `bitcode.dfy`: the abstract bitcode, plus the intrinsic and entry-block names.
- `hex.dfy`: formats block names in hexadecimal.
- `annotation.dfy`: the `mcsema_real_eip` annotations.
- `lifting.dfy`: the translation context and block lifting.
- `lifted_functions.dfy`: `LiftFunction`, and declaring and defining a module's functions.

The CFG containers' types are not part of this model. A function's blocks
are a sequence in iteration order, and they are keyed by address, so no two of
them share one (`DistinctEas`). The order in which the module's functions are
defined is left open.

## Model

| member | source | states |
|---|---|---|
| Annotation.AnnotateInst | mcsema/BC/Function.cpp:81-85 | The operation is unchanged. An instruction that already has an annotation keeps it; one without gets the current pc. |
| Annotation.AnnotateBlocksEffect | mcsema/BC/Function.cpp:89-96 | Annotating a function keeps every block's name and operations and every existing annotation. It gives each unannotated instruction the pc, and afterwards every instruction is annotated. |
| Annotation.AnnotateBlocksFirstWins | mcsema/BC/Function.cpp:89-96 | A second pass with any pc changes nothing: the first annotation of an instruction wins. |
| Annotation.AnnotateListFirstWins | mcsema/BC/Function.cpp:81-85 | The same, for the instructions of one block. |
| Annotation.AnnotateBlocksIdempotent | mcsema/BC/Function.cpp:89-96 | Annotating twice with the same pc equals annotating once. |
| Annotation.AnnotateInsts | mcsema/BC/Function.cpp:89-96 | The in-place loops over blocks and instructions leave exactly `AnnotateBlocks` of the old blocks. |
| Hex.FormatRoundTrip | mcsema/BC/Function.cpp:180-181 | The hexadecimal text of a pc is non-empty, made of hex digits, and parses back to the pc. |
| Hex.FormatInjective | mcsema/BC/Function.cpp:180-181 | Distinct numbers have distinct hexadecimal texts. |
| Lifting.BlockNamesDistinct | mcsema/BC/Function.cpp:180-182 | Blocks created on demand for distinct pcs get distinct `block_<hex pc>` names. |
| Lifting.LiftedFunctionAt | mcsema/BC/Function.cpp:99-105 | The lifted function at a pc exists exactly when the CFG has a function there and its lifted name is declared. It is then that name. |
| Lifting.TranslationContext.FindFunction | mcsema/BC/Function.cpp:135-173 | The callee is chosen in priority order. First comes the driver `call_extern_<name>` of the current instruction's external flow target: it is declared fresh and empty the first time, and reused unchanged after that. Otherwise it is the lifted function at the target pc; otherwise the error intrinsic. The result is never missing, and nothing but drivers is added to the module. |
| Lifting.TranslationContext.GetOrCreateBlock | mcsema/BC/Function.cpp:177-206 | A pc already in the block map returns its block, and nothing else changes. A new pc appends exactly one block, named `block_<hex pc>`, that tail-calls the `FindFunction` result. The new pc maps to this block, and every other entry is unchanged. |
| Lifting.TranslationContext.LiftConditionalBranch | mcsema/BC/Function.cpp:211-221 | The source block gets a conditional branch: true goes to the block of the taken pc, false to the block of the not-taken pc. Other blocks are unchanged, and any added block is a single tail call. |
| Lifting.TranslationContext.LiftIndirectJump | mcsema/BC/Function.cpp:224-277 | Three outcomes. With successors, a switch whose cases are exactly the successor addresses and whose default is a new block tail-calling `missing_block`. With none and one known block, a tail call to the jump intrinsic; no switch and no new block. Otherwise, a switch over the whole block map whose default tail-calls the jump intrinsic. |
| Lifting.TranslationContext.CreateSuccessorBlocks | mcsema/BC/Function.cpp:231-234 | The block map of a jump has exactly the successor addresses as keys, each mapped to its block from `GetOrCreateBlock`. |
| Lifting.TranslationContext.KnownBlocks | mcsema/BC/Function.cpp:250-252 | Copying the entries of the block map gives the block map. |
| Lifting.TranslationContext.AddSwitch | mcsema/BC/Function.cpp:255-276 | Appends one switch over the cases to the block. Its default is a new, unnamed block that tail-calls the fallback. |
| Lifting.TranslationContext.TryLiftTerminator | mcsema/BC/Function.cpp:281-344 | Returns true exactly for invalid, error, direct and indirect jumps, returns, conditional branches and conditional async hyper-calls. `Lowered` states what is appended for every category. Errors tail-call the error intrinsic. Jumps and branches go to the blocks of their targets. An indirect jump has one of the three `LiftIndirectJump` outcomes. Calls store `next_pc` after the call, and a direct call to `next_pc` (`call +5`) calls nothing. |
| Lifting.TranslationContext.LiftTerminator | mcsema/BC/Function.cpp:281-344 | The ending categories each append a single terminator whose targets exist, as `Lowered` gives it. |
| Lifting.TranslationContext.LiftNonTerminator | mcsema/BC/Function.cpp:281-344 | The other categories append only the calls and pc stores `Lowered` gives. They add no block and leave the block map as it was. |
| Lifting.TranslationContext.LiftInstIntoBlock | mcsema/BC/Function.cpp:347-384 | The block gets the instruction's semantics, then what `Lowered` says its category adds. The function is then `AnnotateBlocks` of the lowered blocks: every unannotated instruction gets the instruction's address, and existing annotations are kept. Only a last instruction may end a block. |
| Lifting.TranslationContext.LiftBlockIntoFunction | mcsema/BC/Function.cpp:387-428 | The bitcode block looked up for the CFG block starts with the store of its address. Its lifted instructions are exactly the CFG block's, in order. A block that started without a terminator ends well formed. When no instruction ended it, the ending is an error tail call after a no-return instruction, a branch to the only successor's block, or else a `missing_block` tail call. |
| Lifting.TranslationContext.BeginBlock | mcsema/BC/Function.cpp:392-393 | Appends the store of the block's address into the program counter. |
| Lifting.TranslationContext.LiftInsts | mcsema/BC/Function.cpp:395-408 | The loop lifts every instruction of the block in order. It leaves the last one as the current instruction and keeps `Progress`. |
| Lifting.TranslationContext.LiftNextInst | mcsema/BC/Function.cpp:398-401 | Makes instruction `i` the current instruction and advances `Progress` from `i` to `i + 1` lifted instructions. The block keeps its name, and the block map only grows. |
| Lifting.TranslationContext.EndBlock | mcsema/BC/Function.cpp:410-427 | A block that already ends in a terminator is left alone. Otherwise it gets the single terminator `FallThroughEnding` chooses. |
| Lifting.TranslationContext.FinishBlock | mcsema/BC/Function.cpp:410-427 | After the last instruction, the block is done: it lifted exactly the CFG block's addresses and is well formed. When no instruction ended it, its last operation is the ending `FallThroughEnding` chooses. |
| Lifting.TranslationContext.FallThroughTerm | mcsema/BC/Function.cpp:411-426 | Chooses the fall-through terminator by the three cases, creating the successor's block when needed. |
| Lifting.ProgressStart | mcsema/BC/Function.cpp:392-393 | After the store of the block's pc, no instruction is lifted yet, and the block has no terminator if it had none. |
| Lifting.ProgressStep | mcsema/BC/Function.cpp:395-408 | Lifting one more instruction extends the lifted addresses by its address. Any terminator stays last, and the block ends in one exactly when that instruction ends blocks. |
| Lifting.ProgressEnd | mcsema/BC/Function.cpp:410-427 | After the loop and the fall-through ending, the block lifted exactly the CFG block's addresses, in order, and is well formed. |
| Lifting.TranslationContext.CreateBlocks | mcsema/BC/Function.cpp:484-489 | Appends one empty block per CFG block, in order and named after it. The block map then holds exactly the CFG blocks' addresses, each mapped to its new block. |
| Lifting.TranslationContext.LiftBlocks | mcsema/BC/Function.cpp:495-498 | Lifts every CFG block into its block in order, keeping `BlocksProgress`: lifted blocks stay lifted, later ones stay empty, and extra blocks are tail calls. |
| Lifting.TranslationContext.LiftBlockAt | mcsema/BC/Function.cpp:495-498 | Lifting CFG block `i` takes `BlocksProgress` from `i` to `i + 1` lifted blocks. The block map only grows, and the module only gains external drivers. |
| Lifting.LiftBlockStep | mcsema/BC/Function.cpp:495-498 | Lifting CFG block `i` into block `i + 1` takes `BlocksProgress` from `i` to `i + 1`. |
| Lifting.BlocksProgressWellFormed | mcsema/BC/Function.cpp:484-498 | Once every CFG block is lifted, every block of the function is terminated and branches only to blocks of the function. |
| LiftedFunctions.LiftFunction | mcsema/BC/Function.cpp:430-501 | The result is the declaration of the lifted name. If it already has a body, it is returned unchanged. A CFG function without blocks gets one entry block that tail-calls `missing_block`. Otherwise it gets a well-formed body: an entry block that branches to the block at the function's address, then one block per CFG block, named after it and holding its lifted block. The module only gains external drivers. |
| LiftedFunctions.LiftBlocksOf | mcsema/BC/Function.cpp:465-498 | From the cloned entry block, produces a body `LiftedBody` describes. |
| LiftedFunctions.StartLift | mcsema/BC/Function.cpp:473-493 | A new context over the function, one empty block per CFG block mapped from its address, and an entry branch to the block at the function's address; `BlocksProgress` then holds with nothing lifted. |
| LiftedFunctions.StartBlocks | mcsema/BC/Function.cpp:484-493 | Right after the blocks are created and the entry branch is added, `BlocksProgress` holds with nothing lifted. |
| LiftedFunctions.LiftedBodyEntry | mcsema/BC/Function.cpp:491-493 | In a lifted body, the entry block's branch targets a block of the function whose first operation stores the function's address. |
| LiftedFunctions.DeclareLiftedFunctions | mcsema/BC/Function.cpp:509-531 | The module's names become the old names plus the lifted names of the non-external functions. Existing functions are kept as they were; each new one is a fresh declaration. When every lifted name is already declared, nothing changes (idempotence). |
| LiftedFunctions.DefineLiftedFunctions | mcsema/BC/Function.cpp:536-564 | Returns true and skips external functions. Functions that had a body, and functions that are not lifted names, keep their bodies. Each lifted declaration gets the body `LiftFunction` gives it from a non-external CFG function of that name. The module only gains external drivers. |
| LiftedFunctions.DefineStep | mcsema/BC/Function.cpp:545-552 | Lifting one non-external function advances `DefineProgress` by its lifted name. |
| LiftedFunctions.DefineProgressStep | mcsema/BC/Function.cpp:545-552 | If only the function being defined changes, `DefineProgress` still holds, with its name added. |
| Lifting.TranslationContext.constructor | mcsema/BC/Function.cpp:473-482 | A new context holds the module, the CFG function and its bitcode function, with no current block or instruction and an empty block map. |
| Lifting.ExternDriverName | mcsema/BC/Function.cpp:142-144 | The driver's name is `call_extern_` followed by the external function's name. |
| Lifting.BlockName | mcsema/BC/Function.cpp:181-182 | A block created on demand is named `block_` followed by the lower-case hexadecimal pc. |
| Lifting.ResolveCallee | mcsema/BC/Function.cpp:135-173 | The priority order: the driver of the flow target when there is one; else the lifted function at the pc, which is declared; else the error intrinsic. |
| Bitcode.Function.Declare | mcsema/BC/Function.cpp:148-150 | A new function has the given name and no blocks, so it is a declaration. |
| Bitcode.Function.Append | mcsema/BC/Function.cpp:295-298 | Appends one unannotated instruction to the end of one block; nothing else changes. |
| Bitcode.Function.HasTerminator | mcsema/BC/Function.cpp:411 | A block has a terminator exactly when its last instruction is one. |
| Bitcode.Function.CloneBlockFunction | mcsema/BC/Function.cpp:465 | A declaration gets the entry block cloned from remill's block function. |
| Bitcode.Function.AddBlock | mcsema/BC/Function.cpp:487-488 | Appends one new, empty block with the given name and returns its index. |

## Left out

- LLVM itself is abstract:
  - Metadata nodes appear as an optional address on each instruction.
  - An emitted instruction is an abstract operation; `IRBuilder` details are not modelled.
  - Calling conventions, function attributes, linkage and visibility (150-156, 467-471) are not modelled.
  - The function type of drivers is not modelled.
  - The `#if` on the LLVM version (71-76) is not modelled.
- The remill decoder and instruction lifter are an oracle. Each CFG instruction carries the decoded record. Lifting its semantics appends a single `Semantics(pc)` operation.
- Lifting.TranslationContext.LiftInstIntoBlock: the decoder's validity check (355), the size warning (358-362) and the status of `LiftIntoBlock` (364-373) are not modelled. They are outcomes of the oracle.
- Logging and gflags are not modelled, including `add_reg_tracer`.
- The optimisation passes in `DefineLiftedFunctions` (537-543, 559, 562) are left out. They belong to LLVM's pass pipeline, which is outside this model.
- The lazily created `IntrinsicTable` (436-439) is left out. The intrinsics are fixed names (`__remill_error`, `__remill_jump`, `__remill_missing_block`, `__remill_function_call`, `__remill_async_hyper_call`) and are kept apart from the module's functions.
- The `else` branch of `GetOrCreateBlock` (196-203) is left out as unreachable. `FindFunction` never returns null: its contract states that the result is a function of the module or the error intrinsic.
- The `false` return of `DefineLiftedFunctions` (553-557) is left out as unreachable, because `LiftFunction` always returns a function.
- `CHECK` failures become preconditions:
  - flow targets are external (139);
  - only a block's last instruction may end it (376);
  - the lifted function is declared (442);
  - the function is not external (433).
- Two more preconditions are implicit in the code (`FunctionOk`). They are required only of a function whose declaration has no body yet, because one with a body is returned without reading its blocks (448-453):
  - the entry address is one of the function's blocks, since `ea_to_block[cfg_func->ea]` at 492 would otherwise insert a null block;
  - the first block holds an instruction, since the fall-through ending at 412 reads the current instruction, which is still unset before any instruction.
- A later empty block reuses the previous block's current instruction, as in the source.
- LiftedFunctions.LiftFunction: a CFG function without blocks gets the block function's entry block, then a tail call to `missing_block`. This takes remill's `AddTerminatingTailCall` on a declaration to clone the block function first. remill is not part of this model.
- LiftedFunctions.DefineLiftedFunctions: when several CFG functions share a lifted name, the contract states that one of them defines the declaration, not which one. The loop takes addresses in an order it leaves open, because the CFG container's iteration order is not part of this model.
- LiftedFunctions.DeclareLiftedFunctions: the set of declared names does not depend on order, so addresses are taken in any order. `remill::DeclareLiftedFunction` gives an empty declaration.
- Lifting.TranslationContext.FindFunction: states freshness of a new driver, but callers only carry forward that the module gains external drivers and keeps its existing functions.
- `mc-sema/tests/demo_driver2.c` is not part of this model. It only seeds two registers of a state structure and calls the translated `sub_8000001`, which is code outside this model. Its output is printed I/O.
