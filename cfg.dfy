/**
 * The recovered control-flow graph that the lifter consumes (the
 * `NativeModule`, `NativeFunction`, `NativeBlock` and `NativeInstruction`
 * records), together with the decoded form of an instruction that the
 * remill decoder supplies. The decoder itself is an oracle: a CFG
 * instruction carries the record the decoder returns for its bytes.
 */
module Cfg {
  import opened Wrappers

  /** An effective address: a 64-bit unsigned machine address. */
  type Ea = x: int | 0 <= x < 0x1_0000_0000_0000_0000

  /** The instruction categories of `remill::Instruction`. */
  datatype Category =
    | Invalid
    | Error
    | Normal
    | NoOp
    | DirectJump
    | IndirectJump
    | DirectFunctionCall
    | IndirectFunctionCall
    | FunctionReturn
    | ConditionalBranch
    | AsyncHyperCall
    | ConditionalAsyncHyperCall

  /** The categories whose instruction ends a basic block. */
  predicate EndsBlock(c: Category) {
    || c.Invalid? || c.Error? || c.DirectJump? || c.IndirectJump? || c.FunctionReturn?
    || c.ConditionalBranch? || c.ConditionalAsyncHyperCall?
  }

  /** A decoded instruction, as the decoder reports it. */
  datatype Instr = Instr(
    pc: Ea,
    nextPc: Ea,
    branchTakenPc: Ea,
    branchNotTakenPc: Ea,
    category: Category)

  /** The function a cross-reference (`flow`) of an instruction points to. */
  datatype FlowTarget = FlowTarget(name: string, isExternal: bool)

  datatype NativeInstruction = NativeInstruction(
    ea: Ea,
    decoded: Instr,
    flow: Option<FlowTarget>,
    doesNotReturn: bool)

  datatype NativeBlock = NativeBlock(
    ea: Ea,
    liftedName: string,
    instructions: seq<NativeInstruction>,
    successorEas: set<Ea>)

  /** A function of the CFG; `blocks` lists its blocks in iteration order. */
  datatype NativeFunction = NativeFunction(
    ea: Ea,
    name: string,
    liftedName: string,
    isExternal: bool,
    blocks: seq<NativeBlock>)

  datatype NativeModule = NativeModule(eaToFunc: map<Ea, NativeFunction>)

  /** The function of the CFG that begins at `pc`, if any. */
  function TryGetFunction(m: NativeModule, pc: Ea): (r: Option<NativeFunction>)
    ensures r.Some? <==> pc in m.eaToFunc
    ensures r.Some? ==> r.value == m.eaToFunc[pc]
  {
    if pc in m.eaToFunc then Some(m.eaToFunc[pc]) else None
  }

  function Last<T>(s: seq<T>): (x: T)
    requires s != []
  {
    s[|s| - 1]
  }

  /** The addresses of `insts`, in order. */
  function InstEas(insts: seq<NativeInstruction>): (r: seq<Ea>)
    ensures |r| == |insts|
    ensures forall k :: 0 <= k < |insts| ==> r[k] == insts[k].ea
  {
    seq(|insts|, k requires 0 <= k < |insts| => insts[k].ea)
  }

  /** The lifted names of the functions at addresses `eas` that are lifted (the non-external ones). */
  function LiftedNamesAt(m: NativeModule, eas: set<Ea>): (r: set<string>)
    ensures forall n :: n in r <==> exists ea :: ea in eas && ea in m.eaToFunc && !m.eaToFunc[ea].isExternal && m.eaToFunc[ea].liftedName == n
  {
    set ea | ea in eas && ea in m.eaToFunc && !m.eaToFunc[ea].isExternal :: m.eaToFunc[ea].liftedName
  }

  /** The lifted names of all functions of `m` that are lifted. */
  function LiftedNames(m: NativeModule): (r: set<string>) {
    LiftedNamesAt(m, m.eaToFunc.Keys)
  }

  /** Taking one more address adds at most the lifted name of its function. */
  lemma LiftedNamesAtAdd(m: NativeModule, eas: set<Ea>, ea: Ea)
    requires ea in m.eaToFunc
    ensures LiftedNamesAt(m, eas + {ea}) ==
      LiftedNamesAt(m, eas) + (if m.eaToFunc[ea].isExternal then {} else {m.eaToFunc[ea].liftedName})
  {
    var f := m.eaToFunc[ea];
    if !f.isExternal {
      assert f.liftedName in LiftedNamesAt(m, eas + {ea});
    }
  }

  /** A cross-reference of an instruction may only point to an external function. */
  predicate FlowOk(i: NativeInstruction) {
    i.flow.Some? ==> i.flow.value.isExternal
  }

  /**
   * What lifting a block demands of it: every cross-reference is external,
   * and only its last instruction may end the block.
   */
  predicate BlockOk(b: NativeBlock) {
    forall k :: 0 <= k < |b.instructions| ==>
      FlowOk(b.instructions[k]) &&
      (k < |b.instructions| - 1 ==> !EndsBlock(b.instructions[k].decoded.category))
  }

  /** The addresses of the blocks of `f`, in iteration order. */
  function BlockEas(blocks: seq<NativeBlock>): (r: seq<Ea>)
    ensures |r| == |blocks|
    ensures forall k :: 0 <= k < |r| ==> r[k] == blocks[k].ea
  {
    if blocks == [] then [] else [blocks[0].ea] + BlockEas(blocks[1..])
  }

  /** The blocks of a function are keyed by address, so no two of them share one. */
  predicate DistinctEas(blocks: seq<NativeBlock>) {
    forall j, k :: 0 <= j < |blocks| && 0 <= k < |blocks| && j != k ==> blocks[j].ea != blocks[k].ea
  }

  /**
   * What lifting a function demands of it: its blocks are keyed by
   * distinct addresses, its entry address is one of them, its first block
   * holds an instruction (the fall-through of that block reads the current
   * instruction, which is otherwise still unset), and every block is
   * well formed.
   */
  predicate FunctionOk(f: NativeFunction) {
    && DistinctEas(f.blocks)
    && (f.blocks != [] ==> f.ea in BlockEas(f.blocks))
    && (f.blocks != [] ==> |f.blocks[0].instructions| > 0)
    && (forall k :: 0 <= k < |f.blocks| ==> BlockOk(f.blocks[k]))
  }
}
