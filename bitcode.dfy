/**
 * An abstraction of the LLVM bitcode the lifter builds. A function is a
 * list of basic blocks; a block is a list of instructions, each carrying an
 * optional `mcsema_real_eip` annotation slot; only the operations that shape
 * control flow are distinguished. Callees are referred to by name.
 */
module Bitcode {
  import opened Wrappers
  import opened Cfg

  /** The index of a basic block within its function. */
  type BlockId = nat

  /**
   * The remill intrinsics the lifter calls. They come from remill's
   * intrinsic table, which exists before lifting starts, and are referred to
   * by name.
   */
  const ErrorIntrinsic: string := "__remill_error"
  const JumpIntrinsic: string := "__remill_jump"
  const MissingBlockIntrinsic: string := "__remill_missing_block"
  const FunctionCallIntrinsic: string := "__remill_function_call"
  const AsyncHyperCallIntrinsic: string := "__remill_async_hyper_call"

  /** The name of the entry block cloned from remill's block function. */
  const EntryBlockName: string := "entry"

  datatype Op =
    | Setup                     // the register variables cloned into the entry block
    | Semantics(pc: Ea)         // the code the instruction lifter emits for the instruction at `pc`
    | StorePc(value: Ea)        // store into the program counter of the state structure
    | CallSub(callee: string)   // call a function and keep the memory pointer it returns
    | Br(target: BlockId)
    | CondBr(ifTrue: BlockId, ifFalse: BlockId)
    | Switch(cases: map<Ea, BlockId>, default: BlockId)
    | TailCall(callee: string)  // a terminating tail call followed by a return
    | Return

  predicate IsTerminator(op: Op) {
    op.Br? || op.CondBr? || op.Switch? || op.TailCall? || op.Return?
  }

  /** Every block `op` may transfer control to lies below `n`. */
  predicate TargetsBelow(op: Op, n: nat) {
    match op
    case Br(t) => t < n
    case CondBr(t, f) => t < n && f < n
    case Switch(cases, d) => d < n && forall ea :: ea in cases ==> cases[ea] < n
    case _ => true
  }

  datatype Inst = Inst(op: Op, realEip: Option<Ea>)

  datatype Block = Block(name: string, insts: seq<Inst>)

  function OpsOf(insts: seq<Inst>): (r: seq<Op>)
    ensures |r| == |insts|
    ensures forall k :: 0 <= k < |insts| ==> r[k] == insts[k].op
  {
    seq(|insts|, k requires 0 <= k < |insts| => insts[k].op)
  }

  function Ops(b: Block): (ops: seq<Op>) {
    OpsOf(b.insts)
  }

  /** Newly emitted instructions carry no annotation. */
  function Unannotated(ops: seq<Op>): (r: seq<Inst>)
    ensures |r| == |ops|
    ensures forall k :: 0 <= k < |ops| ==> r[k] == Inst(ops[k], None)
  {
    seq(|ops|, k requires 0 <= k < |ops| => Inst(ops[k], None))
  }

  lemma OpsOfAppend(insts: seq<Inst>, ops: seq<Op>)
    ensures OpsOf(insts + Unannotated(ops)) == OpsOf(insts) + ops
  {
    assert OpsOf(insts + Unannotated(ops)) == OpsOf(insts) + ops;
  }

  lemma OpsOfAppendOne(insts: seq<Inst>, op: Op)
    ensures OpsOf(insts + [Inst(op, None)]) == OpsOf(insts) + [op]
  {
    assert OpsOf(insts + [Inst(op, None)]) == OpsOf(insts) + [op];
  }

  predicate NoTerminator(ops: seq<Op>) {
    forall k :: 0 <= k < |ops| ==> !IsTerminator(ops[k])
  }

  /** Any terminator in `ops` is its last element. */
  predicate TerminatorOnlyLast(ops: seq<Op>) {
    forall k :: 0 <= k < |ops| - 1 ==> !IsTerminator(ops[k])
  }

  predicate AllTargetsBelow(ops: seq<Op>, n: nat) {
    forall k :: 0 <= k < |ops| ==> TargetsBelow(ops[k], n)
  }

  /** The last operation of `ops` is a terminator (LLVM's `getTerminator`). */
  predicate EndsInTerminator(ops: seq<Op>) {
    |ops| > 0 && IsTerminator(ops[|ops| - 1])
  }

  /**
   * A well-formed basic block of a function with `n` blocks: it ends in a
   * terminator, holds no other, and every branch target exists.
   */
  predicate Terminated(ops: seq<Op>, n: nat) {
    EndsInTerminator(ops) && TerminatorOnlyLast(ops) && AllTargetsBelow(ops, n)
  }

  /** The program counters of the lifted instructions in `ops`, in order. */
  function LiftedPcs(ops: seq<Op>): (pcs: seq<Ea>) {
    if ops == [] then []
    else LiftedPcs(ops[..|ops| - 1]) + (if ops[|ops| - 1].Semantics? then [ops[|ops| - 1].pc] else [])
  }

  lemma {:induction false} LiftedPcsAppend(a: seq<Op>, b: seq<Op>)
    ensures LiftedPcs(a + b) == LiftedPcs(a) + LiftedPcs(b)
    decreases |b|
  {
    if b == [] {
      assert a + b == a;
    } else {
      var b' := b[..|b| - 1];
      assert (a + b)[..|a + b| - 1] == a + b';
      LiftedPcsAppend(a, b');
    }
  }

  /** A function of the bitcode module; it is a declaration while it has no blocks. */
  class Function {
    const name: string
    var blocks: seq<Block>

    constructor Declare(name: string)
      ensures this.name == name && blocks == []
    {
      this.name := name;
      blocks := [];
    }

    /** Gives a declaration the entry block of remill's block function. */
    method CloneBlockFunction()
      requires blocks == []
      modifies this
      ensures blocks == [Block(EntryBlockName, [Inst(Setup, None)])]
    {
      blocks := [Block(EntryBlockName, [Inst(Setup, None)])];
    }

    /** Appends a new, empty block to the function. */
    method AddBlock(blockName: string) returns (id: BlockId)
      modifies this
      ensures id == |old(blocks)|
      ensures blocks == old(blocks) + [Block(blockName, [])]
    {
      id := |blocks|;
      blocks := blocks + [Block(blockName, [])];
    }

    /** Appends an unannotated instruction to the end of block `id`. */
    method Append(id: BlockId, op: Op)
      requires id < |blocks|
      modifies this
      ensures blocks == old(blocks)[id := old(blocks)[id].(insts := old(blocks)[id].insts + [Inst(op, None)])]
    {
      blocks := blocks[id := blocks[id].(insts := blocks[id].insts + [Inst(op, None)])];
    }

    /** Whether block `id` already ends in a terminator. */
    predicate HasTerminator(id: BlockId): (r: bool)
      requires id < |blocks|
      reads this
      ensures r <==> |blocks[id].insts| > 0 && IsTerminator(blocks[id].insts[|blocks[id].insts| - 1].op)
    {
      EndsInTerminator(Ops(blocks[id]))
    }
  }

  /**
   * The bitcode module: the functions the lifter declares and defines, by
   * name; the intrinsics are kept apart from them.
   */
  class Module {
    var functions: map<string, Function>

    ghost predicate Valid()
      reads this
    {
      forall n :: n in functions ==> functions[n].name == n
    }
  }
}
