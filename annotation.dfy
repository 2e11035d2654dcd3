/**
 * The `mcsema_real_eip` annotations: after an instruction is lifted, every
 * instruction of the function that has no annotation yet is annotated with
 * that instruction's program counter, so each emitted instruction records
 * the address of the machine instruction it came from.
 */
module Annotation {
  import opened Wrappers
  import opened Cfg
  import opened Bitcode

  /** Annotates `i` with `pc` unless it already carries an annotation. */
  function AnnotateInst(i: Inst, pc: Ea): (r: Inst)
    ensures r.op == i.op
    ensures i.realEip.Some? ==> r.realEip == i.realEip
    ensures i.realEip.None? ==> r.realEip == Some(pc)
  {
    if i.realEip.None? then i.(realEip := Some(pc)) else i
  }

  function AnnotateList(s: seq<Inst>, pc: Ea): (r: seq<Inst>) {
    if s == [] then [] else [AnnotateInst(s[0], pc)] + AnnotateList(s[1..], pc)
  }

  function AnnotateBlock(b: Block, pc: Ea): (r: Block) {
    b.(insts := AnnotateList(b.insts, pc))
  }

  /** Every instruction of every block annotated with `pc` unless already annotated. */
  function AnnotateBlocks(bs: seq<Block>, pc: Ea): (r: seq<Block>) {
    if bs == [] then [] else [AnnotateBlock(bs[0], pc)] + AnnotateBlocks(bs[1..], pc)
  }

  predicate AllAnnotated(bs: seq<Block>) {
    forall k, j :: 0 <= k < |bs| && 0 <= j < |bs[k].insts| ==> bs[k].insts[j].realEip.Some?
  }

  lemma {:induction false} AnnotateListAt(s: seq<Inst>, pc: Ea)
    ensures |AnnotateList(s, pc)| == |s|
    ensures forall k :: 0 <= k < |s| ==> AnnotateList(s, pc)[k] == AnnotateInst(s[k], pc)
  {
    if s != [] {
      AnnotateListAt(s[1..], pc);
    }
  }

  lemma {:induction false} AnnotateBlocksAt(bs: seq<Block>, pc: Ea)
    ensures |AnnotateBlocks(bs, pc)| == |bs|
    ensures forall k :: 0 <= k < |bs| ==> AnnotateBlocks(bs, pc)[k] == AnnotateBlock(bs[k], pc)
  {
    if bs != [] {
      AnnotateBlocksAt(bs[1..], pc);
    }
  }

  /**
   * Annotating keeps every block's name and operations and every existing
   * annotation, and gives each unannotated instruction the annotation `pc`;
   * afterwards every instruction is annotated.
   */
  lemma AnnotateBlocksEffect(bs: seq<Block>, pc: Ea)
    ensures |AnnotateBlocks(bs, pc)| == |bs|
    ensures forall k :: 0 <= k < |bs| ==>
      AnnotateBlocks(bs, pc)[k].name == bs[k].name &&
      Ops(AnnotateBlocks(bs, pc)[k]) == Ops(bs[k])
    ensures forall k, j :: 0 <= k < |bs| && 0 <= j < |bs[k].insts| ==>
      |AnnotateBlocks(bs, pc)[k].insts| == |bs[k].insts| &&
      AnnotateBlocks(bs, pc)[k].insts[j].realEip ==
        (if bs[k].insts[j].realEip.Some? then bs[k].insts[j].realEip else Some(pc))
    ensures AllAnnotated(AnnotateBlocks(bs, pc))
  {
    AnnotateBlocksAt(bs, pc);
    forall k | 0 <= k < |bs|
      ensures |AnnotateBlocks(bs, pc)[k].insts| == |bs[k].insts|
      ensures Ops(AnnotateBlocks(bs, pc)[k]) == Ops(bs[k])
      ensures forall j :: 0 <= j < |bs[k].insts| ==>
        AnnotateBlocks(bs, pc)[k].insts[j] == AnnotateInst(bs[k].insts[j], pc)
    {
      AnnotateListAt(bs[k].insts, pc);
    }
  }

  /** A second pass, with any program counter, changes nothing: the first annotation wins. */
  lemma {:induction false} AnnotateListFirstWins(s: seq<Inst>, p: Ea, q: Ea)
    ensures AnnotateList(AnnotateList(s, p), q) == AnnotateList(s, p)
  {
    if s != [] {
      AnnotateListFirstWins(s[1..], p, q);
    }
  }

  lemma {:induction false} AnnotateBlocksFirstWins(bs: seq<Block>, p: Ea, q: Ea)
    ensures AnnotateBlocks(AnnotateBlocks(bs, p), q) == AnnotateBlocks(bs, p)
  {
    if bs != [] {
      AnnotateListFirstWins(bs[0].insts, p, q);
      AnnotateBlocksFirstWins(bs[1..], p, q);
    }
  }

  /** Annotating twice with the same program counter equals annotating once. */
  lemma AnnotateBlocksIdempotent(bs: seq<Block>, pc: Ea)
    ensures AnnotateBlocks(AnnotateBlocks(bs, pc), pc) == AnnotateBlocks(bs, pc)
  {
    AnnotateBlocksFirstWins(bs, pc, pc);
  }

  /** Annotates every unannotated instruction of `f` with `pc`, in place. */
  method AnnotateInsts(f: Function, pc: Ea)
    modifies f
    ensures f.blocks == AnnotateBlocks(old(f.blocks), pc)
  {
    ghost var b0 := f.blocks;
    var i := 0;
    while i < |f.blocks|
      invariant 0 <= i <= |f.blocks| == |b0|
      invariant forall k :: 0 <= k < i ==> f.blocks[k] == AnnotateBlock(b0[k], pc)
      invariant forall k :: i <= k < |f.blocks| ==> f.blocks[k] == b0[k]
    {
      ghost var outer := f.blocks;
      var j := 0;
      while j < |f.blocks[i].insts|
        invariant |f.blocks| == |b0|
        invariant 0 <= j <= |f.blocks[i].insts| == |b0[i].insts|
        invariant f.blocks[i].name == b0[i].name
        invariant forall t :: 0 <= t < j ==> f.blocks[i].insts[t] == AnnotateInst(b0[i].insts[t], pc)
        invariant forall t :: j <= t < |b0[i].insts| ==> f.blocks[i].insts[t] == b0[i].insts[t]
        invariant forall k :: 0 <= k < |f.blocks| && k != i ==> f.blocks[k] == outer[k]
      {
        var b := f.blocks[i];
        f.blocks := f.blocks[i := b.(insts := b.insts[j := AnnotateInst(b.insts[j], pc)])];
        j := j + 1;
      }
      AnnotateListAt(b0[i].insts, pc);
      assert f.blocks[i].insts == AnnotateList(b0[i].insts, pc);
      i := i + 1;
    }
    AnnotateBlocksAt(b0, pc);
  }
}
