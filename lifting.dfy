/**
 * Control-flow reconstruction of a lifted function: how the blocks of a
 * recovered CFG function become the basic blocks of its bitcode function,
 * how each block is ended, how call targets are resolved, and how the
 * functions of a module are declared and then defined.
 */
module Lifting {
  import opened Wrappers
  import opened Cfg
  import opened Bitcode
  import opened Annotation
  import Hex

  const ExternDriverPrefix: string := "call_extern_"

  /** The name of the driver through which lifted code calls an external function. */
  function ExternDriverName(name: string): (r: string)
    ensures IsExternDriverName(r) && r[|ExternDriverPrefix|..] == name
  {
    ExternDriverPrefix + name
  }

  predicate IsExternDriverName(n: string) {
    |ExternDriverPrefix| <= |n| && n[..|ExternDriverPrefix|] == ExternDriverPrefix
  }

  /** The name given to a block created on demand for `pc`. */
  function BlockName(pc: Ea): (r: string)
    ensures |r| > 6 && r[..6] == "block_" && r[6..] == Hex.Format(pc)
  {
    "block_" + Hex.Format(pc)
  }

  /** Blocks created for distinct program counters have distinct names. */
  lemma BlockNamesDistinct(p: Ea, q: Ea)
    requires p != q
    ensures BlockName(p) != BlockName(q)
  {
    assert BlockName(p)[6..] == Hex.Format(p);
    assert BlockName(q)[6..] == Hex.Format(q);
    Hex.FormatInjective(p, q);
  }

  /**
   * The lifted function starting at `pc`: the function of the CFG at `pc`,
   * provided the bitcode module declares its lifted name.
   */
  function LiftedFunctionAt(cfg: NativeModule, declared: set<string>, pc: Ea): (r: Option<string>)
    ensures r.Some? <==> pc in cfg.eaToFunc && cfg.eaToFunc[pc].liftedName in declared
    ensures r.Some? ==> r.value == cfg.eaToFunc[pc].liftedName
  {
    match TryGetFunction(cfg, pc)
    case Some(f) => if f.liftedName in declared then Some(f.liftedName) else None
    case None => None
  }

  /**
   * The function a transfer to `pc` calls, in priority order: the driver of
   * the external function the current instruction refers to, else the
   * lifted function at `pc`, else the error intrinsic.
   */
  function ResolveCallee(flow: Option<FlowTarget>, cfg: NativeModule, declared: set<string>, pc: Ea): (r: string)
    ensures flow.Some? ==> r == ExternDriverName(flow.value.name)
    ensures flow.None? && LiftedFunctionAt(cfg, declared, pc).Some? ==> r in declared && r == cfg.eaToFunc[pc].liftedName
    ensures flow.None? && LiftedFunctionAt(cfg, declared, pc).None? ==> r == ErrorIntrinsic
  {
    if flow.Some? then ExternDriverName(flow.value.name)
    else match LiftedFunctionAt(cfg, declared, pc)
      case Some(n) => n
      case None => ErrorIntrinsic
  }

  /** The module's functions `f1` keep every function of `f0`, and add only external drivers. */
  predicate DriversAdded(f0: map<string, Function>, f1: map<string, Function>) {
    && (forall n :: n in f0 ==> n in f1 && f1[n] == f0[n])
    && (forall n :: n in f1 && n !in f0 ==> IsExternDriverName(n))
  }

  lemma DriversAddedTrans(f0: map<string, Function>, f1: map<string, Function>, f2: map<string, Function>)
    requires DriversAdded(f0, f1) && DriversAdded(f1, f2)
    ensures DriversAdded(f0, f2)
  {
  }

  /** Every entry of `m0` is still in `m1`, with the same block. */
  predicate MapExtends(m0: map<Ea, BlockId>, m1: map<Ea, BlockId>) {
    forall ea :: ea in m0 ==> ea in m1 && m1[ea] == m0[ea]
  }

  /** A block that consists of a single tail call. */
  predicate IsTailCallBlock(b: Block) {
    |Ops(b)| == 1 && Ops(b)[0].TailCall?
  }

  /**
   * `b1` keeps every block of `b0` except possibly block `src`, and every
   * block it adds is a single tail call.
   */
  predicate BlocksGrow(b0: seq<Block>, b1: seq<Block>, src: int) {
    && |b0| <= |b1|
    && (forall k :: 0 <= k < |b0| && k != src ==> b1[k] == b0[k])
    && (forall k :: |b0| <= k < |b1| ==> IsTailCallBlock(b1[k]))
  }

  /** As `BlocksGrow`, up to the annotations of the instructions. */
  predicate ShapesGrow(b0: seq<Block>, b1: seq<Block>, src: int) {
    && |b0| <= |b1|
    && (forall k :: 0 <= k < |b0| && k != src ==> b1[k].name == b0[k].name && Ops(b1[k]) == Ops(b0[k]))
    && (forall k :: |b0| <= k < |b1| ==> IsTailCallBlock(b1[k]))
  }

  /** Every block of a function with blocks `bs` is terminated and branches only to its blocks. */
  predicate WellFormed(bs: seq<Block>) {
    forall k :: 0 <= k < |bs| ==> Terminated(Ops(bs[k]), |bs|)
  }

  lemma TargetsBelowMono(ops: seq<Op>, n: nat, n': nat)
    requires AllTargetsBelow(ops, n) && n <= n'
    ensures AllTargetsBelow(ops, n')
  {
    forall k | 0 <= k < |ops| ensures TargetsBelow(ops[k], n') {
      assert TargetsBelow(ops[k], n);
    }
  }

  lemma LiftedPcsNone(ops: seq<Op>)
    requires forall k :: 0 <= k < |ops| ==> !ops[k].Semantics?
    ensures LiftedPcs(ops) == []
    decreases |ops|
  {
    if ops != [] {
      LiftedPcsNone(ops[..|ops| - 1]);
    }
  }

  /**
   * What lifting one instruction appends after its semantics: a single
   * terminator, with targets below `n`, when the instruction ends its block;
   * otherwise only calls and stores of the program counter.
   */
  predicate ShapedTail(ends: bool, added: seq<Op>, n: nat) {
    if ends then |added| == 1 && IsTerminator(added[0]) && TargetsBelow(added[0], n)
    else forall k :: 0 <= k < |added| ==> added[k].CallSub? || added[k].StorePc?
  }

  lemma ShapedTailFacts(ends: bool, added: seq<Op>, n: nat)
    requires ShapedTail(ends, added, n)
    ensures ends <==> EndsInTerminator(added)
    ensures TerminatorOnlyLast(added) && AllTargetsBelow(added, n)
    ensures forall k :: 0 <= k < |added| ==> !added[k].Semantics?
  {
  }

  /**
   * Appending one non-terminator and then `b`, whose only terminator may be its
   * last element, to a terminator-free `a` leaves a terminator at most at the
   * end, and one there exactly when `b` ends in one.
   */
  lemma AppendTerminators(a: seq<Op>, x: Op, b: seq<Op>)
    requires NoTerminator(a) && !IsTerminator(x) && TerminatorOnlyLast(b)
    ensures TerminatorOnlyLast(a + [x] + b)
    ensures EndsInTerminator(a + [x] + b) <==> EndsInTerminator(b)
  {
    var s := a + [x] + b;
    forall k | 0 <= k < |s| - 1 ensures !IsTerminator(s[k]) {
      if k < |a| {
        assert s[k] == a[k];
      } else if k == |a| {
        assert s[k] == x;
      } else {
        assert s[k] == b[k - |a| - 1];
      }
    }
  }

  /** Closing a terminator-free block with terminator `t` makes it well formed. */
  lemma CloseBlock(a: seq<Op>, t: Op, n: nat)
    requires NoTerminator(a) && AllTargetsBelow(a, n)
    requires IsTerminator(t) && TargetsBelow(t, n)
    ensures Terminated(a + [t], n)
  {
    var s := a + [t];
    assert forall k :: 0 <= k < |a| ==> s[k] == a[k];
  }

  lemma BlocksGrowShapes(b0: seq<Block>, b1: seq<Block>, src: int)
    requires BlocksGrow(b0, b1, src)
    ensures ShapesGrow(b0, b1, src)
  {
  }

  lemma ShapesGrowTrans(b0: seq<Block>, b1: seq<Block>, b2: seq<Block>, src: int)
    requires ShapesGrow(b0, b1, src) && ShapesGrow(b1, b2, src) && src < |b0|
    ensures ShapesGrow(b0, b2, src)
  {
  }

  /**
   * How a block whose instructions did not end it is closed: with a tail
   * call to the error intrinsic after an instruction that does not return,
   * with a branch to the only successor, or else with a tail call to the
   * missing-block intrinsic.
   */
  predicate FallThroughEnding(last: Op, doesNotReturn: bool, follows: set<Ea>, m: map<Ea, BlockId>) {
    if doesNotReturn then last == TailCall(ErrorIntrinsic)
    else if |follows| == 1 then forall ea :: ea in follows ==> ea in m && last == Br(m[ea])
    else last == TailCall(MissingBlockIntrinsic)
  }

  /**
   * `ops` are the operations of a block whose operations were `ops0`, with
   * targets below `n0`, once the store of `pc` and the first `i`
   * instructions of `insts` have been lifted into it, in a function of `n`
   * blocks.
   */
  predicate Progress(ops: seq<Op>, n: nat, ops0: seq<Op>, n0: nat, pc: Ea, insts: seq<NativeInstruction>, i: nat)
    requires i <= |insts|
  {
    && |ops| > |ops0| && ops[..|ops0| + 1] == ops0 + [StorePc(pc)]
    && LiftedPcs(ops) == LiftedPcs(ops0) + InstEas(insts[..i])
    && (NoTerminator(ops0) ==>
          TerminatorOnlyLast(ops) && (EndsInTerminator(ops) <==> i > 0 && EndsBlock(insts[i - 1].decoded.category)))
    && (AllTargetsBelow(ops0, n0) ==> AllTargetsBelow(ops, n))
  }

  lemma ProgressStart(ops: seq<Op>, ops0: seq<Op>, n0: nat, pc: Ea, insts: seq<NativeInstruction>)
    requires ops == ops0 + [StorePc(pc)]
    ensures Progress(ops, n0, ops0, n0, pc, insts, 0)
  {
    LiftedPcsAppend(ops0, [StorePc(pc)]);
    assert LiftedPcs([StorePc(pc)]) == [];
    assert insts[..0] == [];
    if NoTerminator(ops0) {
      forall k | 0 <= k < |ops| ensures !IsTerminator(ops[k]) {
        if k < |ops0| {
          assert ops[k] == ops0[k];
        }
      }
    }
    if AllTargetsBelow(ops0, n0) {
      forall k | 0 <= k < |ops| ensures TargetsBelow(ops[k], n0) {
        if k < |ops0| {
          assert ops[k] == ops0[k];
        }
      }
    }
  }

  /** Lifting instruction `i` as `x` followed by `added` keeps `Progress`. */
  lemma ProgressStep(before: seq<Op>, nBefore: nat, after: seq<Op>, n: nat, added: seq<Op>,
                     ops0: seq<Op>, n0: nat, pc: Ea, insts: seq<NativeInstruction>, i: nat)
    requires i < |insts| && Progress(before, nBefore, ops0, n0, pc, insts, i)
    requires i > 0 ==> !EndsBlock(insts[i - 1].decoded.category)
    requires after == before + [Semantics(insts[i].ea)] + added && nBefore <= n
    requires ShapedTail(EndsBlock(insts[i].decoded.category), added, n)
    ensures Progress(after, n, ops0, n0, pc, insts, i + 1)
  {
    var x := Semantics(insts[i].ea);
    ShapedTailFacts(EndsBlock(insts[i].decoded.category), added, n);
    if NoTerminator(ops0) {
      assert NoTerminator(before);
      AppendTerminators(before, x, added);
    }
    assert after[..|ops0| + 1] == before[..|ops0| + 1];
    LiftedPcsAppend(before + [x], added);
    LiftedPcsAppend(before, [x]);
    assert LiftedPcs([x]) == [insts[i].ea];
    LiftedPcsNone(added);
    assert insts[..i + 1] == insts[..i] + [insts[i]];
    assert InstEas(insts[..i + 1]) == InstEas(insts[..i]) + [insts[i].ea];
    if AllTargetsBelow(ops0, n0) {
      TargetsBelowMono(before, nBefore, n);
      forall k | 0 <= k < |after| ensures TargetsBelow(after[k], n) {
        if k < |before| {
          assert after[k] == before[k];
        } else if k > |before| {
          assert after[k] == added[k - |before| - 1];
        }
      }
    }
  }

  /**
   * `ops` are the operations of a fully lifted block that had operations
   * `ops0`: the store of `pc` follows them, the lifted instructions are
   * exactly `insts`, in order, and a block that had no terminator and only
   * targets below `n0` is now well formed in a function of `n` blocks.
   */
  predicate BlockDone(ops: seq<Op>, n: nat, ops0: seq<Op>, n0: nat, pc: Ea, insts: seq<NativeInstruction>) {
    && |ops| > |ops0| && ops[..|ops0| + 1] == ops0 + [StorePc(pc)]
    && LiftedPcs(ops) == LiftedPcs(ops0) + InstEas(insts)
    && (NoTerminator(ops0) && AllTargetsBelow(ops0, n0) ==> Terminated(ops, n))
  }

  /**
   * Once every instruction is lifted, the block is done: as it is when it
   * ends in a terminator, or closed with terminator `t` when it does not.
   */
  lemma ProgressEnd(ops: seq<Op>, n: nat, ops1: seq<Op>, n1: nat, t: Op,
                    ops0: seq<Op>, n0: nat, pc: Ea, insts: seq<NativeInstruction>)
    requires Progress(ops, n, ops0, n0, pc, insts, |insts|) && n <= n1
    requires EndsInTerminator(ops) ==> ops1 == ops
    requires !EndsInTerminator(ops) ==> ops1 == ops + [t] && IsTerminator(t) && TargetsBelow(t, n1)
    ensures BlockDone(ops1, n1, ops0, n0, pc, insts)
  {
    assert insts[..|insts|] == insts;
    if AllTargetsBelow(ops0, n0) {
      TargetsBelowMono(ops, n, n1);
    }
    if !EndsInTerminator(ops) {
      LiftedPcsAppend(ops, [t]);
      assert LiftedPcs([t]) == [];
      assert (ops + [t])[..|ops0| + 1] == ops[..|ops0| + 1];
      if AllTargetsBelow(ops0, n0) && NoTerminator(ops0) {
        CloseBlock(ops, t, n1);
      }
    }
  }

  /**
   * `ops` are the operations of the bitcode block made for CFG block `b`, in
   * a function of `n` blocks: the store of `b`'s address comes first, the
   * lifted instructions are exactly `b`'s, in order, and the block is well
   * formed.
   */
  predicate LiftedBlock(ops: seq<Op>, n: nat, b: NativeBlock) {
    |ops| > 0 && ops[0] == StorePc(b.ea) && LiftedPcs(ops) == InstEas(b.instructions) && Terminated(ops, n)
  }

  lemma LiftedBlockGrow(ops: seq<Op>, n: nat, n': nat, b: NativeBlock)
    requires LiftedBlock(ops, n, b) && n <= n'
    ensures LiftedBlock(ops, n', b)
  {
    TargetsBelowMono(ops, n, n');
  }

  lemma TerminatedGrow(ops: seq<Op>, n: nat, n': nat)
    requires Terminated(ops, n) && n <= n'
    ensures Terminated(ops, n')
  {
    TargetsBelowMono(ops, n, n');
  }

  /**
   * The terminator `term` of an indirect jump out of a block whose CFG
   * successors are `successors`, when the block map goes from `m0` to `m1`
   * and the function from `n0` blocks to blocks `b1`. Known successors are
   * switched over, with a new default block that tail-calls the
   * missing-block intrinsic. Without any, a map of a single entry means a
   * thunk, which tail-calls the jump intrinsic; otherwise every block known
   * so far is a case and a new default block tail-calls the jump intrinsic.
   */
  predicate IndirectLowered(successors: set<Ea>, m0: map<Ea, BlockId>, n0: nat,
                            m1: map<Ea, BlockId>, b1: seq<Block>, term: Op) {
    if successors != {} then
      && term.Switch? && term.cases.Keys == successors
      && (forall ea :: ea in term.cases ==> ea in m1 && term.cases[ea] == m1[ea])
      && |b1| > 0 && term.default == |b1| - 1
      && b1[|b1| - 1] == Block("", [Inst(TailCall(MissingBlockIntrinsic), None)])
    else if |m0| == 1 then
      term == TailCall(JumpIntrinsic) && m1 == m0
    else
      && term == Switch(m0, n0) && m1 == m0
      && n0 < |b1| && b1[n0] == Block("", [Inst(TailCall(JumpIntrinsic), None)])
  }

  /**
   * `added` is what decoded instruction `instr` appends to its block, by
   * category, when the block map goes from `m0` to `m1` and the function from
   * `n0` blocks to blocks `b1`. `flow` is the instruction's cross-reference,
   * `declared` the functions the module declared before, and `successors`
   * the CFG successors of the block. Errors tail-call the error intrinsic;
   * jumps and branches go to the blocks the map now holds for their
   * targets; calls store the next address into the program counter after
   * the call, and a direct call to the next instruction calls nothing.
   */
  predicate Lowered(instr: Instr, flow: Option<FlowTarget>, cfg: NativeModule, declared: set<string>,
                    successors: set<Ea>, m0: map<Ea, BlockId>, n0: nat,
                    m1: map<Ea, BlockId>, b1: seq<Block>, added: seq<Op>) {
    match instr.category
    case Invalid | Error => added == [TailCall(ErrorIntrinsic)]
    case Normal | NoOp => added == []
    case DirectJump =>
      instr.branchTakenPc in m1 && added == [Br(m1[instr.branchTakenPc])]
    case IndirectJump =>
      |added| == 1 && IndirectLowered(successors, m0, n0, m1, b1, added[0])
    case FunctionReturn => added == [Return]
    case ConditionalBranch | ConditionalAsyncHyperCall =>
      && instr.branchTakenPc in m1 && instr.branchNotTakenPc in m1
      && added == [CondBr(m1[instr.branchTakenPc], m1[instr.branchNotTakenPc])]
    case DirectFunctionCall =>
      if instr.branchTakenPc != instr.nextPc then
        added == [CallSub(ResolveCallee(flow, cfg, declared, instr.branchTakenPc)), StorePc(instr.nextPc)]
      else
        added == [StorePc(instr.nextPc)]
    case IndirectFunctionCall => added == [CallSub(FunctionCallIntrinsic), StorePc(instr.nextPc)]
    case AsyncHyperCall => added == [CallSub(AsyncHyperCallIntrinsic), StorePc(instr.nextPc)]
  }

  /**
   * The state of lifting one function: the CFG it comes from, the bitcode
   * function it fills, the CFG block and instruction being lifted, and the
   * bitcode block made for each program counter.
   */
  class TranslationContext {
    const bitcode: Module
    const cfgModule: NativeModule
    const cfgFunc: NativeFunction
    const liftedFunc: Function
    var cfgBlock: Option<NativeBlock>
    var cfgInst: Option<NativeInstruction>
    var eaToBlock: map<Ea, BlockId>

    ghost predicate Valid()
      reads this, bitcode, liftedFunc
    {
      && bitcode.Valid()
      && (cfgInst.Some? ==> FlowOk(cfgInst.value))
      && (forall ea :: ea in eaToBlock ==> eaToBlock[ea] < |liftedFunc.blocks|)
    }

    constructor (bitcode: Module, cfgModule: NativeModule, cfgFunc: NativeFunction, liftedFunc: Function)
      ensures this.bitcode == bitcode && this.cfgModule == cfgModule
      ensures this.cfgFunc == cfgFunc && this.liftedFunc == liftedFunc
      ensures cfgBlock == None && cfgInst == None && eaToBlock == map[]
    {
      this.bitcode := bitcode;
      this.cfgModule := cfgModule;
      this.cfgFunc := cfgFunc;
      this.liftedFunc := liftedFunc;
      cfgBlock := None;
      cfgInst := None;
      eaToBlock := map[];
    }

    /**
     * Resolves the function a transfer to `targetPc` calls. The driver of an
     * external function is declared the first time it is needed and reused
     * afterwards; the result is a function of the module, or the error
     * intrinsic when nothing is known at `targetPc`.
     */
    method FindFunction(targetPc: Ea) returns (callee: string)
      requires Valid() && cfgInst.Some?
      modifies bitcode
      ensures Valid()
      ensures callee == ResolveCallee(cfgInst.value.flow, cfgModule, old(bitcode.functions.Keys), targetPc)
      ensures callee in bitcode.functions || callee == ErrorIntrinsic
      ensures cfgInst.value.flow.Some? ==> callee in bitcode.functions
      ensures cfgInst.value.flow.None? || callee in old(bitcode.functions) ==>
        bitcode.functions == old(bitcode.functions)
      ensures cfgInst.value.flow.Some? && callee !in old(bitcode.functions) ==>
        bitcode.functions == old(bitcode.functions)[callee := bitcode.functions[callee]] &&
        fresh(bitcode.functions[callee]) && bitcode.functions[callee].blocks == []
      ensures DriversAdded(old(bitcode.functions), bitcode.functions)
    {
      var inst := cfgInst.value;
      if inst.flow.Some? {
        var driverName := ExternDriverName(inst.flow.value.name);
        if driverName !in bitcode.functions {
          var extFunc := new Function.Declare(driverName);
          bitcode.functions := bitcode.functions[driverName := extFunc];
        }
        callee := driverName;
      } else {
        var lifted := LiftedFunctionAt(cfgModule, bitcode.functions.Keys, targetPc);
        if lifted.Some? {
          callee := lifted.value;
        } else {
          callee := ErrorIntrinsic;
        }
      }
    }

    /**
     * The block for `pc`, created at most once: a new block tail-calls the
     * function a transfer to `pc` resolves to.
     */
    method GetOrCreateBlock(pc: Ea) returns (id: BlockId)
      requires Valid()
      requires pc in eaToBlock || cfgInst.Some?
      modifies this`eaToBlock, liftedFunc, bitcode
      ensures Valid()
      ensures pc in eaToBlock && id == eaToBlock[pc] && id < |liftedFunc.blocks|
      ensures pc in old(eaToBlock) ==>
        id == old(eaToBlock[pc]) && eaToBlock == old(eaToBlock) &&
        liftedFunc.blocks == old(liftedFunc.blocks) && bitcode.functions == old(bitcode.functions)
      ensures pc !in old(eaToBlock) ==>
        id == |old(liftedFunc.blocks)| && eaToBlock == old(eaToBlock)[pc := id] &&
        liftedFunc.blocks == old(liftedFunc.blocks) +
          [Block(BlockName(pc),
                 [Inst(TailCall(ResolveCallee(cfgInst.value.flow, cfgModule, old(bitcode.functions.Keys), pc)), None)])]
      ensures DriversAdded(old(bitcode.functions), bitcode.functions)
    {
      if pc in eaToBlock {
        id := eaToBlock[pc];
      } else {
        ghost var b0 := liftedFunc.blocks;
        id := liftedFunc.AddBlock(BlockName(pc));
        eaToBlock := eaToBlock[pc := id];
        var tailCalled := FindFunction(pc);
        assert liftedFunc.blocks == b0 + [Block(BlockName(pc), [])];
        liftedFunc.Append(id, TailCall(tailCalled));
        assert liftedFunc.blocks[id].insts == [Inst(TailCall(tailCalled), None)];
        assert liftedFunc.blocks == b0 + [Block(BlockName(pc), [Inst(TailCall(tailCalled), None)])];
      }
    }

    /**
     * Ends block `source` with a conditional branch whose true edge goes to
     * the block for the taken target and whose false edge goes to the block
     * for the fall-through target.
     */
    method LiftConditionalBranch(source: BlockId, instr: Instr)
      requires Valid() && cfgInst.Some? && source < |liftedFunc.blocks|
      modifies this`eaToBlock, liftedFunc, bitcode
      ensures Valid() && MapExtends(old(eaToBlock), eaToBlock)
      ensures BlocksGrow(old(liftedFunc.blocks), liftedFunc.blocks, source)
      ensures instr.branchTakenPc in eaToBlock && instr.branchNotTakenPc in eaToBlock
      ensures liftedFunc.blocks[source] == old(liftedFunc.blocks[source]).(insts := old(liftedFunc.blocks[source].insts) +
        [Inst(CondBr(eaToBlock[instr.branchTakenPc], eaToBlock[instr.branchNotTakenPc]), None)])
      ensures DriversAdded(old(bitcode.functions), bitcode.functions)
    {
      var blockTrue := GetOrCreateBlock(instr.branchTakenPc);
      var blockFalse := GetOrCreateBlock(instr.branchNotTakenPc);
      liftedFunc.Append(source, CondBr(blockTrue, blockFalse));
    }

    /**
     * Ends block `block` at an indirect jump. With known successors it
     * switches over exactly those, defaulting to the missing-block
     * intrinsic. Without any, a function of a single block is taken to be a
     * thunk and tail-calls the jump intrinsic; otherwise every block known so
     * far is a case and the default tail-calls the jump intrinsic.
     */
    method LiftIndirectJump(block: BlockId, instr: Instr) returns (ghost term: Op)
      requires Valid() && cfgInst.Some? && cfgBlock.Some? && block < |liftedFunc.blocks|
      modifies this`eaToBlock, liftedFunc, bitcode
      ensures Valid() && MapExtends(old(eaToBlock), eaToBlock)
      ensures BlocksGrow(old(liftedFunc.blocks), liftedFunc.blocks, block)
      ensures liftedFunc.blocks[block] ==
        old(liftedFunc.blocks[block]).(insts := old(liftedFunc.blocks[block].insts) + [Inst(term, None)])
      ensures TargetsBelow(term, |liftedFunc.blocks|)
      ensures cfgBlock.value.successorEas != {} ==>
        && term.Switch? && term.cases.Keys == cfgBlock.value.successorEas
        && (forall ea :: ea in term.cases ==> ea in eaToBlock && term.cases[ea] == eaToBlock[ea])
        && term.default == |liftedFunc.blocks| - 1 && term.default != block
        && liftedFunc.blocks[term.default] == Block("", [Inst(TailCall(MissingBlockIntrinsic), None)])
      ensures cfgBlock.value.successorEas == {} && |old(eaToBlock)| == 1 ==>
        && term == TailCall(JumpIntrinsic)
        && eaToBlock == old(eaToBlock) && |liftedFunc.blocks| == |old(liftedFunc.blocks)|
      ensures cfgBlock.value.successorEas == {} && |old(eaToBlock)| != 1 ==>
        && term == Switch(old(eaToBlock), |old(liftedFunc.blocks)|)
        && eaToBlock == old(eaToBlock)
        && liftedFunc.blocks == old(liftedFunc.blocks)[block := liftedFunc.blocks[block]] +
             [Block("", [Inst(TailCall(JumpIntrinsic), None)])]
      ensures IndirectLowered(cfgBlock.value.successorEas, old(eaToBlock), |old(liftedFunc.blocks)|,
                              eaToBlock, liftedFunc.blocks, term)
      ensures DriversAdded(old(bitcode.functions), bitcode.functions)
    {
      var successors := cfgBlock.value.successorEas;
      var blockMap := CreateSuccessorBlocks(successors);
      var fallback := if blockMap == map[] then JumpIntrinsic else MissingBlockIntrinsic;

      // No successors: the cases become the whole block map, unless it has a single entry.
      if blockMap == map[] {
        if |eaToBlock| == 1 {
          liftedFunc.Append(block, TailCall(fallback));
          term := TailCall(fallback);
          return;
        }
        blockMap := KnownBlocks();
      }

      var fallbackBlock := AddSwitch(block, blockMap, fallback);
      term := Switch(blockMap, fallbackBlock);
    }

    /** The block for each of `successors`, creating the missing ones. */
    method CreateSuccessorBlocks(successors: set<Ea>) returns (blockMap: map<Ea, BlockId>)
      requires Valid() && cfgInst.Some?
      modifies this`eaToBlock, liftedFunc, bitcode
      ensures Valid() && MapExtends(old(eaToBlock), eaToBlock)
      ensures BlocksGrow(old(liftedFunc.blocks), liftedFunc.blocks, -1)
      ensures blockMap.Keys == successors
      ensures forall ea :: ea in blockMap ==> ea in eaToBlock && blockMap[ea] == eaToBlock[ea]
      ensures successors == {} ==> eaToBlock == old(eaToBlock) && liftedFunc.blocks == old(liftedFunc.blocks)
      ensures DriversAdded(old(bitcode.functions), bitcode.functions)
    {
      blockMap := map[];
      var todo := successors;
      while todo != {}
        invariant todo <= successors
        invariant Valid()
        invariant blockMap.Keys == successors - todo
        invariant forall ea :: ea in blockMap ==> ea in eaToBlock && blockMap[ea] == eaToBlock[ea]
        invariant MapExtends(old(eaToBlock), eaToBlock)
        invariant BlocksGrow(old(liftedFunc.blocks), liftedFunc.blocks, -1)
        invariant successors == {} ==> eaToBlock == old(eaToBlock) && liftedFunc.blocks == old(liftedFunc.blocks)
        invariant DriversAdded(old(bitcode.functions), bitcode.functions)
        decreases todo
      {
        var targetEa :| targetEa in todo;
        var target := GetOrCreateBlock(targetEa);
        blockMap := blockMap[targetEa := target];
        todo := todo - {targetEa};
      }
    }

    /** A copy of every entry of the block map. */
    method KnownBlocks() returns (blockMap: map<Ea, BlockId>)
      ensures blockMap == eaToBlock
    {
      blockMap := map[];
      var rest := eaToBlock.Keys;
      while rest != {}
        invariant rest <= eaToBlock.Keys
        invariant blockMap.Keys == eaToBlock.Keys - rest
        invariant forall ea :: ea in blockMap ==> blockMap[ea] == eaToBlock[ea]
        decreases rest
      {
        var knownEa :| knownEa in rest;
        blockMap := blockMap[knownEa := eaToBlock[knownEa]];
        rest := rest - {knownEa};
      }
    }

    /**
     * Ends block `block` with a switch over `cases` whose default is a new
     * block that tail-calls `fallback`.
     */
    method AddSwitch(block: BlockId, cases: map<Ea, BlockId>, fallback: string) returns (fallbackBlock: BlockId)
      requires Valid() && block < |liftedFunc.blocks|
      requires forall ea :: ea in cases ==> cases[ea] < |liftedFunc.blocks|
      modifies liftedFunc
      ensures Valid()
      ensures fallbackBlock == |old(liftedFunc.blocks)|
      ensures liftedFunc.blocks ==
        old(liftedFunc.blocks)[block := old(liftedFunc.blocks[block]).(insts :=
            old(liftedFunc.blocks[block].insts) + [Inst(Switch(cases, fallbackBlock), None)])] +
        [Block("", [Inst(TailCall(fallback), None)])]
    {
      ghost var b0 := liftedFunc.blocks;
      fallbackBlock := liftedFunc.AddBlock("");
      assert liftedFunc.blocks == b0 + [Block("", [])];
      liftedFunc.Append(fallbackBlock, TailCall(fallback));
      assert liftedFunc.blocks[fallbackBlock].insts == [Inst(TailCall(fallback), None)];
      assert liftedFunc.blocks == b0 + [Block("", [Inst(TailCall(fallback), None)])];
      liftedFunc.Append(block, Switch(cases, fallbackBlock));
    }

    /**
     * Emits what ends, or continues, block `block` after the instruction
     * `instr`, and says whether the instruction ends the block.
     */
    method TryLiftTerminator(block: BlockId, instr: Instr) returns (ended: bool, ghost added: seq<Op>)
      requires Valid() && cfgInst.Some? && cfgBlock.Some? && block < |liftedFunc.blocks|
      modifies this`eaToBlock, liftedFunc, bitcode
      ensures Valid() && MapExtends(old(eaToBlock), eaToBlock)
      ensures BlocksGrow(old(liftedFunc.blocks), liftedFunc.blocks, block)
      ensures liftedFunc.blocks[block] ==
        old(liftedFunc.blocks[block]).(insts := old(liftedFunc.blocks[block].insts) + Unannotated(added))
      ensures ended == EndsBlock(instr.category)
      ensures ShapedTail(ended, added, |liftedFunc.blocks|)
      ensures Lowered(instr, cfgInst.value.flow, cfgModule, old(bitcode.functions.Keys), cfgBlock.value.successorEas,
                      old(eaToBlock), |old(liftedFunc.blocks)|, eaToBlock, liftedFunc.blocks, added)
      ensures DriversAdded(old(bitcode.functions), bitcode.functions)
    {
      if EndsBlock(instr.category) {
        added := LiftTerminator(block, instr);
        ended := true;
      } else {
        added := LiftNonTerminator(block, instr);
        ended := false;
      }
    }

    /** The categories that end a block: each appends one terminator. */
    method LiftTerminator(block: BlockId, instr: Instr) returns (ghost added: seq<Op>)
      requires EndsBlock(instr.category)
      requires Valid() && cfgInst.Some? && cfgBlock.Some? && block < |liftedFunc.blocks|
      modifies this`eaToBlock, liftedFunc, bitcode
      ensures Valid() && MapExtends(old(eaToBlock), eaToBlock)
      ensures BlocksGrow(old(liftedFunc.blocks), liftedFunc.blocks, block)
      ensures liftedFunc.blocks[block] ==
        old(liftedFunc.blocks[block]).(insts := old(liftedFunc.blocks[block].insts) + Unannotated(added))
      ensures ShapedTail(true, added, |liftedFunc.blocks|)
      ensures Lowered(instr, cfgInst.value.flow, cfgModule, old(bitcode.functions.Keys), cfgBlock.value.successorEas,
                      old(eaToBlock), |old(liftedFunc.blocks)|, eaToBlock, liftedFunc.blocks, added)
      ensures DriversAdded(old(bitcode.functions), bitcode.functions)
    {
      match instr.category {
        case Invalid | Error =>
          var ops := [TailCall(ErrorIntrinsic)];
          AppendOps(block, ops);
          added := ops;
        case DirectJump =>
          var target := GetOrCreateBlock(instr.branchTakenPc);
          var ops := [Br(target)];
          AppendOps(block, ops);
          added := ops;
        case IndirectJump =>
          var term := LiftIndirectJump(block, instr);
          added := [term];
        case FunctionReturn =>
          var ops := [Return];
          AppendOps(block, ops);
          added := ops;
        case ConditionalBranch | ConditionalAsyncHyperCall =>
          LiftConditionalBranch(block, instr);
          added := [CondBr(eaToBlock[instr.branchTakenPc], eaToBlock[instr.branchNotTakenPc])];
      }
    }

    /**
     * The categories that do not end a block. Calls store the address of the
     * next instruction into the program counter; a direct call to the very
     * next instruction (`call +5`) calls nothing.
     */
    method LiftNonTerminator(block: BlockId, instr: Instr) returns (ghost added: seq<Op>)
      requires !EndsBlock(instr.category)
      requires Valid() && cfgInst.Some? && cfgBlock.Some? && block < |liftedFunc.blocks|
      modifies this`eaToBlock, liftedFunc, bitcode
      ensures Valid() && MapExtends(old(eaToBlock), eaToBlock)
      ensures BlocksGrow(old(liftedFunc.blocks), liftedFunc.blocks, block)
      ensures liftedFunc.blocks[block] ==
        old(liftedFunc.blocks[block]).(insts := old(liftedFunc.blocks[block].insts) + Unannotated(added))
      ensures ShapedTail(false, added, |liftedFunc.blocks|)
      ensures eaToBlock == old(eaToBlock) && |liftedFunc.blocks| == |old(liftedFunc.blocks)|
      ensures Lowered(instr, cfgInst.value.flow, cfgModule, old(bitcode.functions.Keys), cfgBlock.value.successorEas,
                      old(eaToBlock), |old(liftedFunc.blocks)|, eaToBlock, liftedFunc.blocks, added)
      ensures DriversAdded(old(bitcode.functions), bitcode.functions)
    {
      match instr.category {
        case Normal | NoOp =>
          added := [];
        case DirectFunctionCall =>
          // When the taken target is the next instruction, only the StorePc is emitted.
          var ops: seq<Op>;
          if instr.branchTakenPc != instr.nextPc {
            var targFunc := FindFunction(instr.branchTakenPc);
            ops := [CallSub(targFunc), StorePc(instr.nextPc)];
          } else {
            ops := [StorePc(instr.nextPc)];
          }
          AppendOps(block, ops);
          added := ops;
        case IndirectFunctionCall =>
          var ops := [CallSub(FunctionCallIntrinsic), StorePc(instr.nextPc)];
          AppendOps(block, ops);
          added := ops;
        case AsyncHyperCall =>
          var ops := [CallSub(AsyncHyperCallIntrinsic), StorePc(instr.nextPc)];
          AppendOps(block, ops);
          added := ops;
      }
    }

    /** Appends `ops`, unannotated, to block `block`. */
    method AppendOps(block: BlockId, ops: seq<Op>)
      requires block < |liftedFunc.blocks|
      modifies liftedFunc
      ensures liftedFunc.blocks ==
        old(liftedFunc.blocks)[block := old(liftedFunc.blocks[block]).(insts :=
            old(liftedFunc.blocks[block].insts) + Unannotated(ops))]
    {
      ghost var b0 := liftedFunc.blocks;
      var i := 0;
      assert b0[block].insts + Unannotated(ops[..0]) == b0[block].insts;
      assert b0[block := b0[block].(insts := b0[block].insts)] == b0;
      while i < |ops|
        invariant 0 <= i <= |ops|
        invariant liftedFunc.blocks == b0[block := b0[block].(insts := b0[block].insts + Unannotated(ops[..i]))]
      {
        liftedFunc.Append(block, ops[i]);
        assert Unannotated(ops[..i + 1]) == Unannotated(ops[..i]) + [Inst(ops[i], None)];
        assert b0[block].insts + Unannotated(ops[..i + 1]) == b0[block].insts + Unannotated(ops[..i]) + [Inst(ops[i], None)];
        i := i + 1;
      }
      assert ops[..i] == ops;
    }

    /**
     * Lifts the current instruction into block `block`: its semantics, then
     * what its category adds, then the annotation of every instruction of
     * the function that has none yet with the instruction's address. Only
     * the last instruction of a block may end it.
     */
    method LiftInstIntoBlock(block: BlockId, isLast: bool) returns (ghost added: seq<Op>, ghost lowered: seq<Block>)
      requires Valid() && cfgInst.Some? && cfgBlock.Some? && block < |liftedFunc.blocks|
      requires EndsBlock(cfgInst.value.decoded.category) ==> isLast
      modifies this`eaToBlock, liftedFunc, bitcode
      ensures Valid() && MapExtends(old(eaToBlock), eaToBlock)
      ensures ShapesGrow(old(liftedFunc.blocks), liftedFunc.blocks, block)
      ensures liftedFunc.blocks[block].name == old(liftedFunc.blocks[block].name)
      ensures Ops(liftedFunc.blocks[block]) ==
        old(Ops(liftedFunc.blocks[block])) + [Semantics(cfgInst.value.ea)] + added
      ensures ShapedTail(EndsBlock(cfgInst.value.decoded.category), added, |liftedFunc.blocks|)
      ensures Lowered(cfgInst.value.decoded, cfgInst.value.flow, cfgModule, old(bitcode.functions.Keys),
                      cfgBlock.value.successorEas, old(eaToBlock), |old(liftedFunc.blocks)|, eaToBlock, lowered, added)
      ensures liftedFunc.blocks == AnnotateBlocks(lowered, cfgInst.value.ea)
      ensures AllAnnotated(liftedFunc.blocks)
      ensures forall k, j :: 0 <= k < |old(liftedFunc.blocks)| && 0 <= j < |old(liftedFunc.blocks[k].insts)| ==>
        j < |liftedFunc.blocks[k].insts| &&
        liftedFunc.blocks[k].insts[j].realEip ==
          (if old(liftedFunc.blocks[k].insts[j].realEip).Some? then old(liftedFunc.blocks[k].insts[j].realEip)
           else Some(cfgInst.value.ea))
      ensures DriversAdded(old(bitcode.functions), bitcode.functions)
    {
      ghost var b0 := liftedFunc.blocks;
      var inst := cfgInst.value;
      liftedFunc.Append(block, Semantics(inst.ea));
      var ended;
      ended, added := TryLiftTerminator(block, inst.decoded);
      ghost var b2 := liftedFunc.blocks;
      lowered := b2;
      AnnotateInsts(liftedFunc, inst.ea);
      AnnotateBlocksEffect(b2, inst.ea);
      OpsOfAppendOne(b0[block].insts, Semantics(inst.ea));
      OpsOfAppend(b0[block].insts + [Inst(Semantics(inst.ea), None)], added);
      assert b2[block].insts == b0[block].insts + [Inst(Semantics(inst.ea), None)] + Unannotated(added);
      forall k, j | 0 <= k < |b0| && 0 <= j < |b0[k].insts|
        ensures j < |b2[k].insts| && b2[k].insts[j] == b0[k].insts[j]
      {
      }
    }

    /**
     * Lifts the current CFG block into its bitcode block: the store of the
     * block's address into the program counter, every instruction in order,
     * and, when no instruction ended the block, a fall-through ending.
     */
    method LiftBlockIntoFunction() returns (ghost lifted: BlockId)
      requires Valid() && cfgBlock.Some? && BlockOk(cfgBlock.value) && cfgBlock.value.ea in eaToBlock
      requires |cfgBlock.value.instructions| > 0 || cfgInst.Some?
      modifies this`eaToBlock, this`cfgInst, liftedFunc, bitcode
      ensures lifted == old(eaToBlock[cfgBlock.value.ea]) && lifted < |old(liftedFunc.blocks)|
      ensures Valid() && MapExtends(old(eaToBlock), eaToBlock)
      ensures ShapesGrow(old(liftedFunc.blocks), liftedFunc.blocks, lifted)
      ensures liftedFunc.blocks[lifted].name == old(liftedFunc.blocks[lifted].name)
      ensures cfgInst == if cfgBlock.value.instructions != [] then Some(Last(cfgBlock.value.instructions)) else old(cfgInst)
      ensures BlockDone(Ops(liftedFunc.blocks[lifted]), |liftedFunc.blocks|, old(Ops(liftedFunc.blocks[lifted])),
                        |old(liftedFunc.blocks)|, cfgBlock.value.ea, cfgBlock.value.instructions)
      ensures NoTerminator(old(Ops(liftedFunc.blocks[lifted]))) &&
              (cfgBlock.value.instructions == [] || !EndsBlock(Last(cfgBlock.value.instructions).decoded.category)) ==>
        FallThroughEnding(Last(Ops(liftedFunc.blocks[lifted])), cfgInst.value.doesNotReturn,
                          cfgBlock.value.successorEas, eaToBlock)
      ensures DriversAdded(old(bitcode.functions), bitcode.functions)
    {
      var block := eaToBlock[cfgBlock.value.ea];
      lifted := block;
      ghost var ops0 := Ops(liftedFunc.blocks[block]);
      ghost var n0 := |liftedFunc.blocks|;

      // StorePc(cfgBlock.ea), then Progress from 0.
      BeginBlock(block);
      ProgressStart(Ops(liftedFunc.blocks[block]), ops0, n0, cfgBlock.value.ea, cfgBlock.value.instructions);

      // LiftNextInst for each instruction, keeping Progress; FinishBlock then gives BlockDone.
      ghost var b1 := liftedFunc.blocks;
      ghost var f1 := bitcode.functions;
      LiftInsts(block, ops0, n0);
      ShapesGrowTrans(old(liftedFunc.blocks), b1, liftedFunc.blocks, block);

      ghost var b2 := liftedFunc.blocks;
      ghost var f2 := bitcode.functions;
      FinishBlock(block, ops0, n0);
      ShapesGrowTrans(old(liftedFunc.blocks), b2, liftedFunc.blocks, block);
      DriversAddedTrans(f1, f2, bitcode.functions);
    }

    /**
     * Closes block `block` once every instruction of the current CFG block
     * is lifted into it: `EndBlock` adds the fall-through ending unless an
     * instruction already ended the block, and the block is then done.
     */
    method FinishBlock(block: BlockId, ghost ops0: seq<Op>, ghost n0: nat)
      requires Valid() && cfgInst.Some? && cfgBlock.Some? && block < |liftedFunc.blocks|
      requires Progress(Ops(liftedFunc.blocks[block]), |liftedFunc.blocks|, ops0, n0,
                        cfgBlock.value.ea, cfgBlock.value.instructions, |cfgBlock.value.instructions|)
      modifies this`eaToBlock, liftedFunc, bitcode
      ensures Valid() && MapExtends(old(eaToBlock), eaToBlock)
      ensures ShapesGrow(old(liftedFunc.blocks), liftedFunc.blocks, block)
      ensures liftedFunc.blocks[block].name == old(liftedFunc.blocks[block].name)
      ensures BlockDone(Ops(liftedFunc.blocks[block]), |liftedFunc.blocks|, ops0, n0,
                        cfgBlock.value.ea, cfgBlock.value.instructions)
      ensures NoTerminator(ops0) &&
              (cfgBlock.value.instructions == [] || !EndsBlock(Last(cfgBlock.value.instructions).decoded.category)) ==>
        FallThroughEnding(Last(Ops(liftedFunc.blocks[block])), cfgInst.value.doesNotReturn,
                          cfgBlock.value.successorEas, eaToBlock)
      ensures DriversAdded(old(bitcode.functions), bitcode.functions)
    {
      ghost var before := Ops(liftedFunc.blocks[block]);
      ghost var n1 := |liftedFunc.blocks|;
      ghost var t := EndBlock(block);
      ProgressEnd(before, n1, Ops(liftedFunc.blocks[block]), |liftedFunc.blocks|, t, ops0, n0,
                  cfgBlock.value.ea, cfgBlock.value.instructions);
    }

    /** Appends the store of the current block's address to block `block`. */
    method BeginBlock(block: BlockId)
      requires cfgBlock.Some? && block < |liftedFunc.blocks|
      modifies liftedFunc
      ensures |liftedFunc.blocks| == |old(liftedFunc.blocks)|
      ensures ShapesGrow(old(liftedFunc.blocks), liftedFunc.blocks, block)
      ensures liftedFunc.blocks[block].name == old(liftedFunc.blocks[block].name)
      ensures Ops(liftedFunc.blocks[block]) == old(Ops(liftedFunc.blocks[block])) + [StorePc(cfgBlock.value.ea)]
    {
      OpsOfAppendOne(liftedFunc.blocks[block].insts, StorePc(cfgBlock.value.ea));
      liftedFunc.Append(block, StorePc(cfgBlock.value.ea));
    }

    /** Lifts every instruction of the current CFG block into block `block`. */
    method LiftInsts(block: BlockId, ghost ops0: seq<Op>, ghost n0: nat)
      requires Valid() && cfgBlock.Some? && BlockOk(cfgBlock.value) && block < |liftedFunc.blocks|
      requires Progress(Ops(liftedFunc.blocks[block]), |liftedFunc.blocks|, ops0, n0,
                        cfgBlock.value.ea, cfgBlock.value.instructions, 0)
      modifies this`eaToBlock, this`cfgInst, liftedFunc, bitcode
      ensures Valid() && block < |liftedFunc.blocks|
      ensures cfgInst == if cfgBlock.value.instructions != [] then Some(Last(cfgBlock.value.instructions)) else old(cfgInst)
      ensures MapExtends(old(eaToBlock), eaToBlock)
      ensures ShapesGrow(old(liftedFunc.blocks), liftedFunc.blocks, block)
      ensures liftedFunc.blocks[block].name == old(liftedFunc.blocks[block].name)
      ensures Progress(Ops(liftedFunc.blocks[block]), |liftedFunc.blocks|, ops0, n0,
                       cfgBlock.value.ea, cfgBlock.value.instructions, |cfgBlock.value.instructions|)
      ensures DriversAdded(old(bitcode.functions), bitcode.functions)
    {
      var insts := cfgBlock.value.instructions;
      var i := 0;
      while i < |insts|
        invariant 0 <= i <= |insts|
        invariant Valid() && block < |liftedFunc.blocks| && cfgBlock == old(cfgBlock)
        invariant i == 0 ==> cfgInst == old(cfgInst)
        invariant i > 0 ==> cfgInst == Some(insts[i - 1])
        invariant MapExtends(old(eaToBlock), eaToBlock)
        invariant ShapesGrow(old(liftedFunc.blocks), liftedFunc.blocks, block)
        invariant liftedFunc.blocks[block].name == old(liftedFunc.blocks[block].name)
        invariant Progress(Ops(liftedFunc.blocks[block]), |liftedFunc.blocks|, ops0, n0, cfgBlock.value.ea, insts, i)
        invariant DriversAdded(old(bitcode.functions), bitcode.functions)
      {
        ghost var b1 := liftedFunc.blocks;
        LiftNextInst(block, i, ops0, n0);
        ShapesGrowTrans(old(liftedFunc.blocks), b1, liftedFunc.blocks, block);
        i := i + 1;
      }
    }

    /** Lifts instruction `i` of the current CFG block into block `block`. */
    method LiftNextInst(block: BlockId, i: nat, ghost ops0: seq<Op>, ghost n0: nat)
      requires Valid() && cfgBlock.Some? && BlockOk(cfgBlock.value)
      requires i < |cfgBlock.value.instructions| && block < |liftedFunc.blocks|
      requires Progress(Ops(liftedFunc.blocks[block]), |liftedFunc.blocks|, ops0, n0,
                        cfgBlock.value.ea, cfgBlock.value.instructions, i)
      modifies this`eaToBlock, this`cfgInst, liftedFunc, bitcode
      ensures Valid() && cfgInst == Some(cfgBlock.value.instructions[i])
      ensures MapExtends(old(eaToBlock), eaToBlock)
      ensures ShapesGrow(old(liftedFunc.blocks), liftedFunc.blocks, block)
      ensures liftedFunc.blocks[block].name == old(liftedFunc.blocks[block].name)
      ensures Progress(Ops(liftedFunc.blocks[block]), |liftedFunc.blocks|, ops0, n0,
                       cfgBlock.value.ea, cfgBlock.value.instructions, i + 1)
      ensures DriversAdded(old(bitcode.functions), bitcode.functions)
    {
      var insts := cfgBlock.value.instructions;
      ghost var before := Ops(liftedFunc.blocks[block]);
      ghost var nBefore := |liftedFunc.blocks|;
      cfgInst := Some(insts[i]);
      var isLast := i + 1 >= |insts|;
      ghost var added, lowered := LiftInstIntoBlock(block, isLast);
      ProgressStep(before, nBefore, Ops(liftedFunc.blocks[block]), |liftedFunc.blocks|, added,
                   ops0, n0, cfgBlock.value.ea, insts, i);
    }

    /**
     * Closes block `block` when it has no terminator yet, as
     * `FallThroughEnding` describes, after the current instruction.
     */
    method EndBlock(block: BlockId) returns (ghost term: Op)
      requires Valid() && cfgInst.Some? && cfgBlock.Some? && block < |liftedFunc.blocks|
      modifies this`eaToBlock, liftedFunc, bitcode
      ensures Valid() && MapExtends(old(eaToBlock), eaToBlock)
      ensures ShapesGrow(old(liftedFunc.blocks), liftedFunc.blocks, block)
      ensures liftedFunc.blocks[block].name == old(liftedFunc.blocks[block].name)
      ensures |old(liftedFunc.blocks)| <= |liftedFunc.blocks|
      ensures EndsInTerminator(old(Ops(liftedFunc.blocks[block]))) ==> liftedFunc.blocks == old(liftedFunc.blocks)
      ensures !EndsInTerminator(old(Ops(liftedFunc.blocks[block]))) ==>
        && Ops(liftedFunc.blocks[block]) == old(Ops(liftedFunc.blocks[block])) + [term]
        && IsTerminator(term) && TargetsBelow(term, |liftedFunc.blocks|)
        && FallThroughEnding(term, cfgInst.value.doesNotReturn, cfgBlock.value.successorEas, eaToBlock)
      ensures DriversAdded(old(bitcode.functions), bitcode.functions)
    {
      term := Return;
      if !liftedFunc.HasTerminator(block) {
        ghost var b1 := liftedFunc.blocks;
        var t := FallThroughTerm();
        term := t;
        BlocksGrowShapes(b1, liftedFunc.blocks, -1);
        OpsOfAppendOne(liftedFunc.blocks[block].insts, t);
        liftedFunc.Append(block, t);
      }
    }

    /** The terminator `FallThroughEnding` chooses for the current block. */
    method FallThroughTerm() returns (term: Op)
      requires Valid() && cfgInst.Some? && cfgBlock.Some?
      modifies this`eaToBlock, liftedFunc, bitcode
      ensures Valid() && MapExtends(old(eaToBlock), eaToBlock)
      ensures BlocksGrow(old(liftedFunc.blocks), liftedFunc.blocks, -1)
      ensures IsTerminator(term) && TargetsBelow(term, |liftedFunc.blocks|)
      ensures FallThroughEnding(term, cfgInst.value.doesNotReturn, cfgBlock.value.successorEas, eaToBlock)
      ensures DriversAdded(old(bitcode.functions), bitcode.functions)
    {
      var follows := cfgBlock.value.successorEas;
      if cfgInst.value.doesNotReturn {
        term := TailCall(ErrorIntrinsic);
      } else if |follows| == 1 {
        var next :| next in follows;
        assert follows * {next} == {next};
        assert |follows - {next}| == 0;
        assert follows - {next} == {};
        var target := GetOrCreateBlock(next);
        term := Br(target);
      } else {
        term := TailCall(MissingBlockIntrinsic);
      }
    }

    /**
     * Creates a new, empty block for each block of the CFG function, in
     * order and named after it, and records it for the block's address.
     */
    method CreateBlocks()
      requires Valid() && DistinctEas(cfgFunc.blocks) && eaToBlock == map[]
      modifies this`eaToBlock, liftedFunc
      ensures Valid()
      ensures |liftedFunc.blocks| == |old(liftedFunc.blocks)| + |cfgFunc.blocks|
      ensures liftedFunc.blocks[..|old(liftedFunc.blocks)|] == old(liftedFunc.blocks)
      ensures forall k :: 0 <= k < |cfgFunc.blocks| ==>
        liftedFunc.blocks[|old(liftedFunc.blocks)| + k] == Block(cfgFunc.blocks[k].liftedName, [])
      ensures forall k :: 0 <= k < |cfgFunc.blocks| ==>
        cfgFunc.blocks[k].ea in eaToBlock && eaToBlock[cfgFunc.blocks[k].ea] == |old(liftedFunc.blocks)| + k
      ensures forall ea :: ea in eaToBlock ==> ea in BlockEas(cfgFunc.blocks)
    {
      var base := |liftedFunc.blocks|;
      var i := 0;
      while i < |cfgFunc.blocks|
        invariant 0 <= i <= |cfgFunc.blocks|
        invariant Valid()
        invariant |liftedFunc.blocks| == base + i
        invariant liftedFunc.blocks[..base] == old(liftedFunc.blocks)
        invariant forall k :: 0 <= k < i ==> liftedFunc.blocks[base + k] == Block(cfgFunc.blocks[k].liftedName, [])
        invariant forall k :: 0 <= k < i ==>
          cfgFunc.blocks[k].ea in eaToBlock && eaToBlock[cfgFunc.blocks[k].ea] == base + k
        invariant forall ea :: ea in eaToBlock ==> exists k :: 0 <= k < i && cfgFunc.blocks[k].ea == ea
      {
        var b := cfgFunc.blocks[i];
        var id := liftedFunc.AddBlock(b.liftedName);
        eaToBlock := eaToBlock[b.ea := id];
        i := i + 1;
      }
    }

    /**
     * Lifts every block of the CFG function into the block `CreateBlocks`
     * made for it, in order.
     */
    method LiftBlocks()
      requires Valid() && FunctionOk(cfgFunc) && cfgFunc.blocks != []
      requires forall k :: 0 <= k < |cfgFunc.blocks| ==>
        cfgFunc.blocks[k].ea in eaToBlock && eaToBlock[cfgFunc.blocks[k].ea] == k + 1
      requires |liftedFunc.blocks| == |cfgFunc.blocks| + 1
      requires BlocksProgress(liftedFunc.blocks, Ops(liftedFunc.blocks[0]), cfgFunc.blocks, 0)
      modifies this`eaToBlock, this`cfgBlock, this`cfgInst, liftedFunc, bitcode
      ensures Valid() && DriversAdded(old(bitcode.functions), bitcode.functions)
      ensures BlocksProgress(liftedFunc.blocks, old(Ops(liftedFunc.blocks[0])), cfgFunc.blocks, |cfgFunc.blocks|)
    {
      var cfgBlocks := cfgFunc.blocks;
      ghost var entryOps := Ops(liftedFunc.blocks[0]);
      var i := 0;
      while i < |cfgBlocks|
        invariant 0 <= i <= |cfgBlocks|
        invariant Valid() && DriversAdded(old(bitcode.functions), bitcode.functions)
        invariant i > 0 ==> cfgInst.Some?
        invariant forall k :: 0 <= k < |cfgBlocks| ==>
          cfgBlocks[k].ea in eaToBlock && eaToBlock[cfgBlocks[k].ea] == k + 1
        invariant BlocksProgress(liftedFunc.blocks, entryOps, cfgBlocks, i)
      {
        ghost var f0 := bitcode.functions;
        LiftBlockAt(i, entryOps);
        DriversAddedTrans(old(bitcode.functions), f0, bitcode.functions);
        i := i + 1;
      }
    }

    /** Lifts CFG block `i` into block `i + 1`, advancing `BlocksProgress` by one block. */
    method LiftBlockAt(i: nat, ghost entryOps: seq<Op>)
      requires Valid() && FunctionOk(cfgFunc) && i < |cfgFunc.blocks|
      requires i > 0 ==> cfgInst.Some?
      requires forall k :: 0 <= k < |cfgFunc.blocks| ==>
        cfgFunc.blocks[k].ea in eaToBlock && eaToBlock[cfgFunc.blocks[k].ea] == k + 1
      requires BlocksProgress(liftedFunc.blocks, entryOps, cfgFunc.blocks, i)
      modifies this`eaToBlock, this`cfgBlock, this`cfgInst, liftedFunc, bitcode
      ensures Valid() && DriversAdded(old(bitcode.functions), bitcode.functions)
      ensures cfgInst.Some? && MapExtends(old(eaToBlock), eaToBlock)
      ensures BlocksProgress(liftedFunc.blocks, entryOps, cfgFunc.blocks, i + 1)
    {
      ghost var b0 := liftedFunc.blocks;
      cfgBlock := Some(cfgFunc.blocks[i]);
      ghost var lifted := LiftBlockIntoFunction();
      LiftBlockStep(b0, liftedFunc.blocks, entryOps, cfgFunc.blocks, i);
    }
  }

  /**
   * The blocks `bs` of a function being lifted from CFG blocks `cfgBlocks`,
   * once the first `i` of them are lifted: the entry block holds `entryOps`,
   * block `k + 1` is named after CFG block `k` and is its lifted block when
   * `k < i` and still empty otherwise, and the blocks after those are
   * single tail calls.
   */
  predicate BlocksProgress(bs: seq<Block>, entryOps: seq<Op>, cfgBlocks: seq<NativeBlock>, i: nat) {
    && i <= |cfgBlocks| < |bs|
    && bs[0].name == EntryBlockName && Ops(bs[0]) == entryOps && Terminated(entryOps, |bs|)
    && (forall k :: 0 <= k < |cfgBlocks| ==> bs[k + 1].name == cfgBlocks[k].liftedName)
    && (forall k :: 0 <= k < i ==> LiftedBlock(Ops(bs[k + 1]), |bs|, cfgBlocks[k]))
    && (forall k :: i < k <= |cfgBlocks| ==> bs[k].insts == [])
    && (forall k :: |cfgBlocks| < k < |bs| ==> IsTailCallBlock(bs[k]))
  }

  /** Lifting CFG block `i` into block `i + 1` of `b0`, giving `b1`, advances `BlocksProgress`. */
  lemma LiftBlockStep(b0: seq<Block>, b1: seq<Block>, entryOps: seq<Op>, cfgBlocks: seq<NativeBlock>, i: nat)
    requires i < |cfgBlocks| && BlocksProgress(b0, entryOps, cfgBlocks, i)
    requires ShapesGrow(b0, b1, i + 1) && b1[i + 1].name == b0[i + 1].name
    requires BlockDone(Ops(b1[i + 1]), |b1|, [], |b0|, cfgBlocks[i].ea, cfgBlocks[i].instructions)
    ensures BlocksProgress(b1, entryOps, cfgBlocks, i + 1)
  {
    TerminatedGrow(entryOps, |b0|, |b1|);
    LiftedBlocksGrow(b0, b1, cfgBlocks, i);
    var ops := Ops(b1[i + 1]);
    assert LiftedPcs([]) == [];
    assert ops[..1] == [StorePc(cfgBlocks[i].ea)];
    assert LiftedBlock(ops, |b1|, cfgBlocks[i]);
    forall k | i + 1 < k <= |cfgBlocks| ensures b1[k].insts == [] {
      assert |Ops(b1[k])| == |Ops(b0[k])|;
    }
  }

  /** The blocks lifted before block `i + 1` stay lifted when the function grows. */
  lemma LiftedBlocksGrow(b0: seq<Block>, b1: seq<Block>, cfgBlocks: seq<NativeBlock>, i: nat)
    requires i < |cfgBlocks| < |b0| && ShapesGrow(b0, b1, i + 1)
    requires forall k :: 0 <= k < i ==> LiftedBlock(Ops(b0[k + 1]), |b0|, cfgBlocks[k])
    ensures forall k :: 0 <= k < i ==> LiftedBlock(Ops(b1[k + 1]), |b1|, cfgBlocks[k])
  {
    forall k | 0 <= k < i ensures LiftedBlock(Ops(b1[k + 1]), |b1|, cfgBlocks[k]) {
      LiftedBlockGrow(Ops(b0[k + 1]), |b0|, |b1|, cfgBlocks[k]);
    }
  }

  /** Once every CFG block is lifted, every block of the function is well formed. */
  lemma BlocksProgressWellFormed(bs: seq<Block>, entryOps: seq<Op>, cfgBlocks: seq<NativeBlock>)
    requires BlocksProgress(bs, entryOps, cfgBlocks, |cfgBlocks|)
    ensures WellFormed(bs)
  {
    forall k | 0 <= k < |bs| ensures Terminated(Ops(bs[k]), |bs|) {
      if k > |cfgBlocks| {
        assert IsTailCallBlock(bs[k]);
      } else if k > 0 {
        assert LiftedBlock(Ops(bs[k]), |bs|, cfgBlocks[k - 1]);
      }
    }
  }
}
