/**
 * Lifting whole functions: `LiftFunction` turns one CFG function into the
 * body of its bitcode function, and `DeclareLiftedFunctions` and
 * `DefineLiftedFunctions` declare, then define, the bitcode function of
 * every function of a CFG module that is not external.
 */
module LiftedFunctions {
  import opened Wrappers
  import opened Cfg
  import opened Bitcode
  import opened Lifting

  /** The body of a lifted function whose CFG function has no blocks: its entry block tail-calls the missing-block intrinsic. */
  function EmptyBody(): (bs: seq<Block>)
    ensures |bs| == 1 && bs[0].name == EntryBlockName && WellFormed(bs)
  {
    [Block(EntryBlockName, [Inst(Setup, None), Inst(TailCall(MissingBlockIntrinsic), None)])]
  }

  /** The entry block's operations `ops`: the cloned setup, then a branch to the block of the CFG block at `f`'s entry address. */
  predicate EntryBranch(ops: seq<Op>, f: NativeFunction) {
    && |ops| == 2 && ops[0] == Setup && ops[1].Br?
    && 1 <= ops[1].target <= |f.blocks|
    && f.blocks[ops[1].target - 1].ea == f.ea
  }

  /**
   * `bs` is the body lifted from CFG function `f`, which has blocks: the
   * entry block branches to the block at `f`'s entry address, block `k + 1`
   * is named after CFG block `k` and is its lifted block, the blocks after
   * those are single tail calls, and every block is well formed.
   */
  predicate LiftedBody(bs: seq<Block>, f: NativeFunction) {
    && |bs| > 0
    && BlocksProgress(bs, Ops(bs[0]), f.blocks, |f.blocks|)
    && EntryBranch(Ops(bs[0]), f)
    && WellFormed(bs)
  }

  /** The body `LiftFunction` gives the declaration of CFG function `f`. */
  predicate DefinedFrom(bs: seq<Block>, f: NativeFunction) {
    if f.blocks == [] then bs == EmptyBody() else LiftedBody(bs, f)
  }

  /** The entry block's branch goes to a block whose first operation stores the function's entry address. */
  lemma LiftedBodyEntry(bs: seq<Block>, f: NativeFunction)
    requires f.blocks != [] && LiftedBody(bs, f)
    ensures var t := Ops(bs[0])[1].target;
      0 < t < |bs| && |Ops(bs[t])| > 0 && Ops(bs[t])[0] == StorePc(f.ea)
  {
    var t := Ops(bs[0])[1].target;
    assert LiftedBlock(Ops(bs[t]), |bs|, f.blocks[t - 1]);
  }

  /**
   * Gives the bitcode function declared for the non-external CFG function
   * `cfgFunc` its body. A function that already has a body is left as it
   * is; a CFG function without blocks gets an entry block that tail-calls
   * the missing-block intrinsic; otherwise every CFG block gets a block,
   * the entry block branches to the block at the function's address, and
   * every CFG block is lifted into its block.
   */
  method LiftFunction(m: Module, cfgModule: NativeModule, cfgFunc: NativeFunction) returns (f: Function)
    requires m.Valid() && !cfgFunc.isExternal && cfgFunc.liftedName in m.functions
    requires m.functions[cfgFunc.liftedName].blocks == [] ==> FunctionOk(cfgFunc)
    modifies m, m.functions[cfgFunc.liftedName]
    ensures f == old(m.functions[cfgFunc.liftedName])
    ensures m.Valid() && DriversAdded(old(m.functions), m.functions)
    ensures old(f.blocks) != [] ==> f.blocks == old(f.blocks) && m.functions == old(m.functions)
    ensures old(f.blocks) == [] && cfgFunc.blocks == [] ==> m.functions == old(m.functions)
    ensures old(f.blocks) == [] ==> DefinedFrom(f.blocks, cfgFunc)
  {
    f := m.functions[cfgFunc.liftedName];
    if f.blocks != [] {
      return;
    }
    f.CloneBlockFunction();
    if cfgFunc.blocks == [] {
      f.Append(0, TailCall(MissingBlockIntrinsic));
      assert [Inst(Setup, None)] + [Inst(TailCall(MissingBlockIntrinsic), None)]
          == [Inst(Setup, None), Inst(TailCall(MissingBlockIntrinsic), None)];
      assert f.blocks[0] == EmptyBody()[0];
      return;
    }
    LiftBlocksOf(m, cfgModule, cfgFunc, f);
  }

  /**
   * Lifts the blocks of CFG function `cfgFunc`, which has some, into `f`,
   * which holds only the cloned entry block.
   */
  method LiftBlocksOf(m: Module, cfgModule: NativeModule, cfgFunc: NativeFunction, f: Function)
    requires m.Valid() && FunctionOk(cfgFunc) && cfgFunc.blocks != []
    requires f.blocks == [Block(EntryBlockName, [Inst(Setup, None)])]
    modifies m, f
    ensures m.Valid() && DriversAdded(old(m.functions), m.functions)
    ensures LiftedBody(f.blocks, cfgFunc)
  {
    var ctx, entry := StartLift(m, cfgModule, cfgFunc, f);
    ctx.LiftBlocks();
    BlocksProgressWellFormed(f.blocks, [Setup, Br(entry)], cfgFunc.blocks);
  }

  /**
   * Sets up the lifting of `cfgFunc` into `f`: a translation context, one
   * empty block per CFG block, and the entry block's branch to the block
   * at the function's address.
   */
  method StartLift(m: Module, cfgModule: NativeModule, cfgFunc: NativeFunction, f: Function)
    returns (ctx: TranslationContext, entry: BlockId)
    requires m.Valid() && FunctionOk(cfgFunc) && cfgFunc.blocks != []
    requires f.blocks == [Block(EntryBlockName, [Inst(Setup, None)])]
    modifies f
    ensures fresh(ctx) && ctx.bitcode == m && ctx.cfgFunc == cfgFunc && ctx.liftedFunc == f
    ensures ctx.Valid() && 1 <= entry <= |cfgFunc.blocks| && cfgFunc.blocks[entry - 1].ea == cfgFunc.ea
    ensures forall k :: 0 <= k < |cfgFunc.blocks| ==>
      cfgFunc.blocks[k].ea in ctx.eaToBlock && ctx.eaToBlock[cfgFunc.blocks[k].ea] == k + 1
    ensures |f.blocks| == |cfgFunc.blocks| + 1
    ensures BlocksProgress(f.blocks, [Setup, Br(entry)], cfgFunc.blocks, 0)
  {
    ctx := new TranslationContext(m, cfgModule, cfgFunc, f);
    ctx.CreateBlocks();
    ghost var k :| 0 <= k < |cfgFunc.blocks| && cfgFunc.blocks[k].ea == cfgFunc.ea;
    entry := ctx.eaToBlock[cfgFunc.ea];
    f.Append(0, Br(entry));
    StartBlocks(f.blocks, cfgFunc.blocks, entry);
  }

  /** Before any CFG block is lifted, the entry block branches to `entry` and the other blocks are empty. */
  lemma StartBlocks(bs: seq<Block>, cfgBlocks: seq<NativeBlock>, entry: BlockId)
    requires |bs| == |cfgBlocks| + 1 && 1 <= entry <= |cfgBlocks|
    requires bs[0] == Block(EntryBlockName, [Inst(Setup, None), Inst(Br(entry), None)])
    requires forall k :: 0 <= k < |cfgBlocks| ==> bs[k + 1] == Block(cfgBlocks[k].liftedName, [])
    ensures BlocksProgress(bs, [Setup, Br(entry)], cfgBlocks, 0)
  {
    assert Ops(bs[0]) == [Setup, Br(entry)];
    forall k | 0 < k <= |cfgBlocks| ensures bs[k].insts == [] {
      assert bs[(k - 1) + 1] == Block(cfgBlocks[k - 1].liftedName, []);
    }
  }

  /**
   * Declares a bitcode function, named by its lifted name, for every
   * non-external function of `cfg` that the module does not have yet.
   */
  method DeclareLiftedFunctions(m: Module, cfg: NativeModule)
    requires m.Valid()
    modifies m
    ensures m.Valid()
    ensures m.functions.Keys == old(m.functions.Keys) + LiftedNames(cfg)
    ensures forall n :: n in old(m.functions) ==> m.functions[n] == old(m.functions[n])
    ensures forall n :: n in m.functions && n !in old(m.functions) ==>
      fresh(m.functions[n]) && m.functions[n].blocks == []
    ensures LiftedNames(cfg) <= old(m.functions.Keys) ==> m.functions == old(m.functions)
  {
    var todo := cfg.eaToFunc.Keys;
    while todo != {}
      invariant todo <= cfg.eaToFunc.Keys
      invariant m.Valid()
      invariant m.functions.Keys == old(m.functions.Keys) + LiftedNamesAt(cfg, cfg.eaToFunc.Keys - todo)
      invariant forall n :: n in old(m.functions) ==> m.functions[n] == old(m.functions[n])
      invariant forall n :: n in m.functions && n !in old(m.functions) ==>
        fresh(m.functions[n]) && m.functions[n].blocks == []
      decreases todo
    {
      var ea :| ea in todo;
      var cfgFunc := cfg.eaToFunc[ea];
      if !cfgFunc.isExternal && cfgFunc.liftedName !in m.functions {
        var declared := new Function.Declare(cfgFunc.liftedName);
        m.functions := m.functions[cfgFunc.liftedName := declared];
      }
      LiftedNamesAtAdd(cfg, cfg.eaToFunc.Keys - todo, ea);
      assert (cfg.eaToFunc.Keys - todo) + {ea} == cfg.eaToFunc.Keys - (todo - {ea});
      todo := todo - {ea};
    }
  }

  /** CFG function `ea` of `cfg` is lifted, is named `n`, and `bs` is the body it gives its declaration. */
  predicate DefinedBy(cfg: NativeModule, ea: Ea, n: string, bs: seq<Block>) {
    && ea in cfg.eaToFunc && !cfg.eaToFunc[ea].isExternal && cfg.eaToFunc[ea].liftedName == n
    && DefinedFrom(bs, cfg.eaToFunc[ea])
  }

  /** The body of every function of `m`, by name. */
  ghost function Bodies(m: Module): (bodies: map<string, seq<Block>>)
    reads m, m.functions.Values
  {
    map n | n in m.functions :: m.functions[n].blocks
  }

  /**
   * While the functions named in `done` are being defined from `cfg`, with
   * bodies `bodies` now: of the functions that had the bodies `start`,
   * those that had a body, and those not in `done`, keep it, and the
   * declarations in `done` are defined by a CFG function of their name.
   */
  predicate DefineProgress(bodies: map<string, seq<Block>>, cfg: NativeModule, start: map<string, seq<Block>>, done: set<string>) {
    && start.Keys <= bodies.Keys
    && (forall n :: n in start && start[n] != [] ==> bodies[n] == start[n])
    && (forall n :: n in start && n !in done ==> bodies[n] == start[n])
    && (forall n :: n in start && n in done && start[n] == [] ==> exists ea :: DefinedBy(cfg, ea, n, bodies[n]))
  }

  /** Defining the function `name` from CFG function `ea` advances `DefineProgress` by `name`. */
  lemma DefineProgressStep(b0: map<string, seq<Block>>, b1: map<string, seq<Block>>, cfg: NativeModule,
                           start: map<string, seq<Block>>, done: set<string>, ea: Ea, name: string)
    requires DefineProgress(b0, cfg, start, done)
    requires ea in cfg.eaToFunc && !cfg.eaToFunc[ea].isExternal && cfg.eaToFunc[ea].liftedName == name
    requires b0.Keys <= b1.Keys && name in b0
    requires forall n :: n in b0 && n != name ==> b1[n] == b0[n]
    requires b0[name] != [] ==> b1[name] == b0[name]
    requires b0[name] == [] ==> DefinedFrom(b1[name], cfg.eaToFunc[ea])
    ensures DefineProgress(b1, cfg, start, done + {name})
  {
    forall n | n in start && n in done + {name} && start[n] == []
      ensures exists e :: DefinedBy(cfg, e, n, b1[n])
    {
      if n != name {
        var e :| DefinedBy(cfg, e, n, b0[n]);
        assert DefinedBy(cfg, e, n, b1[n]);
      } else if b0[name] == [] {
        assert DefinedBy(cfg, ea, n, b1[n]);
      } else {
        var e :| DefinedBy(cfg, e, n, b0[n]);
        assert DefinedBy(cfg, e, n, b1[n]);
      }
    }
  }

  /**
   * Defines the bitcode function of every non-external function of `cfg`,
   * in the map's iteration order, which is left open; every one of them
   * must be declared, and those whose declaration has no body yet must
   * satisfy `FunctionOk`.
   * Lifting a function cannot fail, so the result is always `true`.
   */
  method DefineLiftedFunctions(m: Module, cfg: NativeModule) returns (ok: bool)
    requires m.Valid() && LiftedNames(cfg) <= m.functions.Keys
    requires forall ea ::
      (ea in cfg.eaToFunc && !cfg.eaToFunc[ea].isExternal && m.functions[cfg.eaToFunc[ea].liftedName].blocks == []) ==>
        FunctionOk(cfg.eaToFunc[ea])
    modifies m, m.functions.Values
    ensures ok
    ensures m.Valid() && DriversAdded(old(m.functions), m.functions)
    ensures DefineProgress(Bodies(m), cfg, old(Bodies(m)), LiftedNames(cfg))
  {
    ghost var start := Bodies(m);
    var todo := cfg.eaToFunc.Keys;
    ghost var visited: set<Ea> := {};
    ghost var done: set<string> := {};
    while todo != {}
      invariant todo <= cfg.eaToFunc.Keys && visited == cfg.eaToFunc.Keys - todo
      invariant done == LiftedNamesAt(cfg, visited)
      invariant m.Valid() && DriversAdded(old(m.functions), m.functions)
      invariant DefineProgress(Bodies(m), cfg, start, done)
      decreases todo
    {
      var ea :| ea in todo;
      var cfgFunc := cfg.eaToFunc[ea];
      if !cfgFunc.isExternal {
        assert cfgFunc.liftedName in LiftedNames(cfg);
        ghost var f0 := m.functions;
        assert Bodies(m)[cfgFunc.liftedName] == m.functions[cfgFunc.liftedName].blocks;
        assert m.functions[cfgFunc.liftedName].blocks == [] ==> start[cfgFunc.liftedName] == [];
        DefineStep(m, cfg, ea, start, done);
        DriversAddedTrans(old(m.functions), f0, m.functions);
      }
      LiftedNamesAtAdd(cfg, visited, ea);
      visited := visited + {ea};
      done := LiftedNamesAt(cfg, visited);
      todo := todo - {ea};
    }
    ok := true;
  }

  /** Defines the bitcode function of the non-external CFG function `ea`. */
  method DefineStep(m: Module, cfg: NativeModule, ea: Ea, ghost start: map<string, seq<Block>>, ghost done: set<string>)
    requires m.Valid() && ea in cfg.eaToFunc && !cfg.eaToFunc[ea].isExternal
    requires cfg.eaToFunc[ea].liftedName in m.functions
    requires m.functions[cfg.eaToFunc[ea].liftedName].blocks == [] ==> FunctionOk(cfg.eaToFunc[ea])
    requires DefineProgress(Bodies(m), cfg, start, done)
    modifies m, m.functions[cfg.eaToFunc[ea].liftedName]
    ensures m.Valid() && DriversAdded(old(m.functions), m.functions)
    ensures DefineProgress(Bodies(m), cfg, start, done + {cfg.eaToFunc[ea].liftedName})
  {
    var cfgFunc := cfg.eaToFunc[ea];
    var name := cfgFunc.liftedName;
    ghost var b0 := Bodies(m);
    ghost var f0 := m.functions;
    var lifted := LiftFunction(m, cfg, cfgFunc);
    ghost var b1 := Bodies(m);
    forall n | n in b0 && n != name ensures b1[n] == b0[n] {
      assert f0[n] == m.functions[n] && f0[n].name == n;
    }
    DefineProgressStep(b0, b1, cfg, start, done, ea, name);
  }
}
