/** The block walker that executes a lowered body, and two trees on which the graph and the
    tree differ. */
module Interp {
  import opened Wrappers
  import opened Hir
  import opened Semantics
  import opened Mir
  import opened Lower
  import opened LowerTarget
  import opened LowerFit
  import Effects
  import opened LowerTheorem

  /** Runs the statements of block `bb` in order; `None` is a trap. */
  method RunBlock(blocks: seq<BasicBlock>, calls: Calls, bb: nat, m: seq<Slot>)
    returns (r: Option<seq<Slot>>, ghost n: nat)
    requires bb < |blocks|
    ensures Run(blocks, calls, At(bb, 0, m), n) ==
            (if r.Some? then At(bb, |blocks[bb].stmts|, r.value) else Done(Trapped))
  {
    var stmts := blocks[bb].stmts;
    var cur, pc := m, 0;
    n := 0;
    while pc < |stmts|
      invariant 0 <= pc <= |stmts|
      invariant Run(blocks, calls, At(bb, 0, m), n) == At(bb, pc, cur)
    {
      var next := ExecStmt(calls, cur, stmts[pc]);
      OneMore(blocks, calls, At(bb, 0, m), n);
      n := n + 1;
      if next.None? {
        return None, n;
      }
      cur, pc := next.value, pc + 1;
    }
    r := Some(cur);
  }

  lemma OneMore(blocks: seq<BasicBlock>, calls: Calls, c: Cfg, n: nat)
    ensures Run(blocks, calls, c, n + 1) == Tick(blocks, calls, Run(blocks, calls, c, n))
  {
    RunCompose(blocks, calls, c, n, 1);
    var d := Run(blocks, calls, c, n);
    assert Run(blocks, calls, d, 1) == Run(blocks, calls, Tick(blocks, calls, d), 0);
  }

  /** Walks from block to block. `fuel` bounds the number of blocks, because a loop in the
      program need not end: a run that ends within so many steps is always answered. */
  method CallBody(body: Body, calls: Calls, args: seq<Value>, fuel: nat) returns (r: Option<Res>)
    ensures r.Some? && |args| == body.params ==>
      Reaches(body.blocks, calls, At(0, 0, ParamLocals(args, |body.locals|)), Done(r.value))
    ensures r.Some? && |args| != body.params ==> r.value == Trapped
    ensures r.None? ==>
      forall n: nat :: n <= fuel ==> !Run(body.blocks, calls, At(0, 0, ParamLocals(args, |body.locals|)), n).Done?
  {
    if |args| != body.params {
      return Some(Trapped);
    }
    var start := ParamLocals(args, |body.locals|);
    var bb: nat, m := 0, start;
    ghost var c := At(0, 0, start);
    ghost var n: nat := 0;
    var left := fuel;
    while left > 0
      invariant left <= fuel && n >= fuel - left
      invariant Run(body.blocks, calls, c, n) == At(bb, 0, m)
    {
      if bb >= |body.blocks| {
        OneMore(body.blocks, calls, c, n);
        return Some(Trapped);
      }
      var after, k := RunBlock(body.blocks, calls, bb, m);
      RunCompose(body.blocks, calls, c, n, k);
      n := n + k;
      if after.None? {
        return Some(Trapped);
      }
      var next := Jump(body.blocks[bb].term, after.value);
      OneMore(body.blocks, calls, c, n);
      n := n + 1;
      if next.Done? {
        return Some(next.res);
      }
      bb, m := next.bb, next.m;
      left := left - 1;
    }
    r := None;
    forall k: nat | k <= fuel
      ensures !Run(body.blocks, calls, c, k).Done?
    {
      NotDoneBefore(body.blocks, calls, c, k, n);
    }
  }

  /** A run that is not done after `n` steps was not done before. */
  lemma NotDoneBefore(blocks: seq<BasicBlock>, calls: Calls, c: Cfg, k: nat, n: nat)
    requires k <= n && !Run(blocks, calls, c, n).Done?
    ensures !Run(blocks, calls, c, k).Done?
  {
    RunCompose(blocks, calls, c, k, n - k);
    var d := Run(blocks, calls, c, k);
    if d.Done? {
      DoneStays(blocks, calls, d.res, n - k);
    }
  }

  /** When the walker ends on a lowered body, it ends with the meaning of the tree. */
  lemma {:induction false} WalkerAgrees(E: Env, params: seq<Sym>, root: Expr, args: seq<Value>, r: Res)
    requires !E.strict && Fits(E.contracts, root) && |args| == |params| && NoRepeat(params)
    requires Distinct(LowerFn(E.contracts, params, root).locals)
    requires var B := LowerFn(E.contracts, params, root);
      Reaches(B.blocks, E.calls, At(0, 0, ParamLocals(args, |B.locals|)), Done(r))
    requires !Eval(E, root, MoveCtx, ParamStore(params, args)).Misuse?
    ensures r == ResultOf(Eval(E, root, MoveCtx, ParamStore(params, args)))
  {
    hide Reaches, Fits, Eval;
    var B := LowerFn(E.contracts, params, root);
    LowerFnCorrect(E, params, root, args);
    DoneUnique(B.blocks, E.calls, At(0, 0, ParamLocals(args, |B.locals|)), r,
      ResultOf(Eval(E, root, MoveCtx, ParamStore(params, args))));
  }

  // ---------- a later operand that writes an earlier place ----------

  /** `x + { x = 2; x }` */
  const LATE_READ := Prim(Bin(Add), [Var(0), Block([Assign(0, [], Lit(IntV(2)))], Some(Var(0)))])

  const LATE_BLOCK := BasicBlock(0,
    [Set(0, [], Use(Const(IntV(2)))), Set(1, [], Compute(Bin(Add), [Place(0, []), Place(0, [])], []))],
    Leave(Place(1, [])))

  lemma LateReadLowers(cs: Contracts)
    ensures LowerFn(cs, [0], LATE_READ) == Body(1, [Some(0), None], [LATE_BLOCK])
  {
    var S := Start([0]);
    assert S.locals == [Some(0)];
    var l := Var(0);
    var put := Assign(0, [], Lit(IntV(2)));
    var r := Block([put], Some(Var(0)));
    assert LowerExpr(cs, l, S) == (S, Place(0, []));
    var A := LowerStmt(cs, put, S);
    assert LowerExpr(cs, Lit(IntV(2)), S) == (S, Const(IntV(2)));
    assert LocalFor(S, 0) == (S, 0);
    assert S.blocks[0].stmts + [Set(0, [], Use(Const(IntV(2))))] == [Set(0, [], Use(Const(IntV(2))))];
    assert A == Emit(S, Set(0, [], Use(Const(IntV(2)))));
    assert A == S.(blocks := [BasicBlock(0, [Set(0, [], Use(Const(IntV(2))))], Pending)]);
    assert [put][1..] == [] && LowerStmts(cs, [put], S) == A;
    assert LowerExpr(cs, r, S) == (A, Place(0, []));
    assert [l, r][1..] == [r] && [r][1..] == [];
    var p: Operand := Place(0, []);
    assert LowerAll(cs, [], A) == (A, []);
    assert LowerAll(cs, [r], S) == (A, [p] + []);
    assert [p] + [] == [p] && LowerAll(cs, [l, r][1..], S) == (A, [p]);
    assert LowerAll(cs, [l, r], S) == (A, [p] + [p]);
    var add := Set(1, [], Compute(Bin(Add), [p, p], []));
    assert ContractList(cs, Bin(Add)) == [];
    assert [p] + [p] == [p, p];
    var T := EmitTemp(A, Compute(Bin(Add), [p, p], []));
    assert LowerExpr(cs, LATE_READ, S) == T;
    assert T.0.locals == [Some(0), None];
    assert A.blocks[0].stmts + [add] == [Set(0, [], Use(Const(IntV(2)))), add];
    assert T.0 == Emit(Alloc(A, None), add);
    assert T.0.blocks == [BasicBlock(0, [Set(0, [], Use(Const(IntV(2)))), add], Pending)];
    assert Build(cs, [0], LATE_READ).blocks == [LATE_BLOCK];
    assert Sweep([LATE_BLOCK]) == [LATE_BLOCK];
  }

  lemma LateReadTree(E: Env, h: Store, v: int)
    requires !E.strict && 0 in h && h[0] == Live(IntV(v))
    ensures var o := Eval(E, LATE_READ, MoveCtx, h); o.Norm? && o.v == IntV(v + 2)
  {
    var put := Assign(0, [], Lit(IntV(2)));
    var r := Block([put], Some(Var(0)));
    var g := h[0 := Live(IntV(2))];
    assert [put][1..] == [] && EvalStmts(E, [put], h) == EvalStmt(E, put, h) == Norm(UnitV, g);
    assert Eval(E, r, ReadCtx, h) == Norm(IntV(2), g);
    assert [Var(0), r][1..] == [r] && [r][1..] == [];
    assert EvalArgs(E, Bin(Add), [r], 1, MoveCtx, h) == NormSeq([IntV(2)], g);
    assert EvalArgs(E, Bin(Add), [Var(0), r], 0, MoveCtx, h) == NormSeq([IntV(v)] + [IntV(2)], g);
  }

  lemma LateReadRuns(calls: Calls, v: int)
    ensures Reaches([LATE_BLOCK], calls, At(0, 0, [Live(IntV(v)), Hole]), Done(Returned(IntV(4))))
  {
    var bs := [LATE_BLOCK];
    var m := [Live(IntV(2)), Hole];
    var c := At(0, 0, [Live(IntV(v)), Hole]);
    assert Tick(bs, calls, c) == At(0, 1, m);
    var os := [Place(0, []), Place(0, [])];
    assert ReadAll(m, []) == Some([]);
    assert os[1..] == [Place(0, [])] && [os[0]][1..] == [];
    assert [IntV(2)] + [] == [IntV(2)] && ReadAll(m, os[1..]) == Some([IntV(2)]);
    assert ReadAll(m, os) == Some([IntV(2)] + [IntV(2)]);
    assert Tick(bs, calls, At(0, 1, m)) == At(0, 2, [Live(IntV(2)), Live(IntV(4))]);
    ReachesStep(bs, calls, c);
    ReachesStep(bs, calls, At(0, 1, m));
    ReachesStep(bs, calls, At(0, 2, [Live(IntV(2)), Live(IntV(4))]));
    ReachesTrans(bs, calls, c, At(0, 1, m), At(0, 2, [Live(IntV(2)), Live(IntV(4))]));
    ReachesTrans(bs, calls, c, At(0, 2, [Live(IntV(2)), Live(IntV(4))]), Done(Returned(IntV(4))));
  }

  /** Without the operand condition the theorem fails: the graph reads the first operand after
      the second one was evaluated. */
  lemma LateReadDiffers(E: Env, v: int)
    requires !E.strict && v != 2
    ensures var B := LowerFn(E.contracts, [0], LATE_READ);
      var o := Eval(E, LATE_READ, MoveCtx, map[0 := Live(IntV(v))]);
      o.Norm? && o.v != IntV(4) &&
      Reaches(B.blocks, E.calls, At(0, 0, ParamLocals([IntV(v)], |B.locals|)), Done(Returned(IntV(4))))
    ensures !Fits(E.contracts, LATE_READ)
  {
    LateReadLowers(E.contracts);
    LateReadTree(E, map[0 := Live(IntV(v))], v);
    LateReadRuns(E.calls, v);
    assert ParamLocals([IntV(v)], 2) == [Live(IntV(v)), Hole];
    LateReadUnfit(E.contracts);
  }

  lemma LateReadUnfit(cs: Contracts)
    ensures !Fits(cs, LATE_READ)
  {
    var put := Assign(0, [], Lit(IntV(2)));
    var r := Block([put], Some(Var(0)));
    assert [Var(0), r][1..] == [r];
    assert 0 in Effects.WritesStmt(cs, put);
    assert 0 in Effects.WritesStmts(cs, [put]);
    assert 0 in Effects.Writes(cs, r);
    assert 0 in Effects.WritesAll(cs, [r]);
  }

  // ---------- a range body that writes its counter ----------

  /** `for i in 0..1 { i = -1 }` */
  const WRITTEN_COUNTER := ForRange(0, Some(Lit(IntV(0))), Some(Lit(IntV(1))),
    Block([Assign(0, [], Lit(IntV(-1)))], None))

  const COUNTER_BLOCKS: seq<BasicBlock> := [
    BasicBlock(0, [Set(1, [], Use(Const(IntV(0)))), Set(2, [], Use(Const(IntV(1)))), Set(0, [], Use(Place(1, [])))],
      Goto(1)),
    BasicBlock(1, [Set(3, [], Compute(Bin(Lt), [Place(0, []), Place(2, [])], []))], Branch(Place(3, []), 2, 3)),
    BasicBlock(2, [Set(0, [], Use(Const(IntV(-1)))), Set(0, [], Compute(Bin(Add), [Place(0, []), Const(IntV(1))], []))],
      Goto(1)),
    BasicBlock(3, [], Leave(Const(UnitV)))]

  lemma WrittenCounterEntry(cs: Contracts, C: Builder)
    requires C == Builder([COUNTER_BLOCKS[0].(term := Pending)], [Some(0), None, None], 0, false)
    ensures var A0 := Alloc(Start([]), Some(0));
      var (A, lo) := LowerBound(cs, WRITTEN_COUNTER.lo, A0);
      var (B, hi) := LowerBound(cs, WRITTEN_COUNTER.hi, A);
      hi == Place(2, []) && Emit(B, Set(0, [], Use(lo))) == C
  {
    var A0 := Alloc(Start([]), Some(0));
    assert A0 == Builder([BasicBlock(0, [], Pending)], [Some(0)], 0, false);
    var (A, lo) := LowerBound(cs, WRITTEN_COUNTER.lo, A0);
    assert [] + [Set(1, [], Use(Const(IntV(0))))] == [Set(1, [], Use(Const(IntV(0))))];
    assert A == Builder([BasicBlock(0, [Set(1, [], Use(Const(IntV(0))))], Pending)], [Some(0), None], 0, false);
    var (B, hi) := LowerBound(cs, WRITTEN_COUNTER.hi, A);
    var two := [Set(1, [], Use(Const(IntV(0)))), Set(2, [], Use(Const(IntV(1))))];
    assert B == Builder([BasicBlock(0, two, Pending)], [Some(0), None, None], 0, false) by {
      assert [Set(1, [], Use(Const(IntV(0))))] + [Set(2, [], Use(Const(IntV(1))))] == two;
    }
    assert lo == Place(1, []);
    assert two + [Set(0, [], Use(lo))] == COUNTER_BLOCKS[0].stmts;
    assert Emit(B, Set(0, [], Use(lo))).blocks == C.blocks;
  }

  lemma WrittenCounterLoop(cs: Contracts, C: Builder)
    requires C == Builder([COUNTER_BLOCKS[0].(term := Pending)], [Some(0), None, None], 0, false)
    ensures LowerLoop(cs, WRITTEN_COUNTER.body, 0, Place(2, []), None, 0, C) ==
      Builder(COUNTER_BLOCKS[3 := BasicBlock(3, [], Pending)], [Some(0), None, None, None], 3, false)
  {
    var K := COUNTER_BLOCKS;
    var one, two, three := BasicBlock(1, [], Pending), BasicBlock(2, [], Pending), BasicBlock(3, [], Pending);
    assert AddBlocks(C, 1).blocks == C.blocks + [one];
    assert AddBlocks(C, 2).blocks == C.blocks + [one, two];
    assert AddBlocks(C, 3).blocks == C.blocks + [one, two, three];
    var A := Fork(C, 3, Goto(1), 1);
    assert A == Builder([K[0], one, two, three], C.locals, 1, false);
    var H := LoopHead(C, 0, Place(2, []));
    assert [] + K[1].stmts == K[1].stmts;
    hide LowerExpr, LoopEnd;
    assert H == Builder([K[0], K[1], two, three], [Some(0), None, None, None], 2, false);
    WrittenCounterBody(cs, H);
  }

  lemma WrittenCounterBody(cs: Contracts, H: Builder)
    requires H ==
      Builder([COUNTER_BLOCKS[0], COUNTER_BLOCKS[1], BasicBlock(2, [], Pending), BasicBlock(3, [], Pending)],
                          [Some(0), None, None, None], 2, false)
    ensures LoopEnd(LowerExpr(cs, WRITTEN_COUNTER.body, H).0, 0, 1) ==
      H.(blocks := COUNTER_BLOCKS[3 := BasicBlock(3, [], Pending)], closed := true)
  {
    var K := COUNTER_BLOCKS;
    var put := Assign(0, [], Lit(IntV(-1)));
    assert LocalFor(H, 0) == (H, 0) by {
      assert H.locals[..3] == [Some(0), None, None] && H.locals[..3][..2] == [Some(0), None] &&
        H.locals[..3][..2][..1] == [Some(0)];
    }
    var D := LowerStmt(cs, put, H);
    var write := Set(0, [], Use(Const(IntV(-1))));
    assert [] + [write] == [write];
    assert LowerExpr(cs, Lit(IntV(-1)), H) == (H, Const(IntV(-1)));
    assert D == Emit(H, write);
    assert D.blocks == [K[0], K[1], BasicBlock(2, [write], Pending), BasicBlock(3, [], Pending)];
    assert [put][1..] == [] && LowerStmts(cs, [put], H) == D;
    assert LowerExpr(cs, WRITTEN_COUNTER.body, H).0 == D;
    WrittenCounterLatch(D);
  }

  lemma WrittenCounterLatch(D: Builder)
    requires D ==
      Builder([COUNTER_BLOCKS[0], COUNTER_BLOCKS[1], BasicBlock(2, [Set(0, [], Use(Const(IntV(-1))))], Pending),
                           BasicBlock(3, [], Pending)], [Some(0), None, None, None], 2, false)
    ensures LoopEnd(D, 0, 1) == D.(blocks := COUNTER_BLOCKS[3 := BasicBlock(3, [], Pending)], closed := true)
  {
    var K := COUNTER_BLOCKS;
    var bump := Set(0, [], Compute(Bin(Add), [Place(0, []), Const(IntV(1))], []));
    assert [Set(0, [], Use(Const(IntV(-1))))] + [bump] == K[2].stmts;
    assert LoopEnd(D, 0, 1).blocks == [K[0], K[1], K[2], BasicBlock(3, [], Pending)];
  }

  lemma WrittenCounterLowers(cs: Contracts)
    ensures LowerFn(cs, [], WRITTEN_COUNTER) == Body(0, [Some(0), None, None, None], COUNTER_BLOCKS)
  {
    hide LowerBound, LowerLoop;
    var C := Builder([COUNTER_BLOCKS[0].(term := Pending)], [Some(0), None, None], 0, false);
    WrittenCounterEntry(cs, C);
    WrittenCounterLoop(cs, C);
    var F := LowerRange(cs, WRITTEN_COUNTER, Start([]));
    assert LowerExpr(cs, WRITTEN_COUNTER, Start([])) == (F, Const(UnitV));
    assert Build(cs, [], WRITTEN_COUNTER).blocks == COUNTER_BLOCKS;
    assert Sweep(COUNTER_BLOCKS) == COUNTER_BLOCKS;
  }

  /** The configurations the loop goes round in. */
  predicate Spinning(c: Cfg) {
    c.At? && |c.m| == 4 && c.m[2] == Live(IntV(1)) &&
    match (c.bb, c.pc)
    case (1, 0) => c.m[0] == Live(IntV(0))
    case (1, 1) => c.m[0] == Live(IntV(0)) && c.m[3] == Live(BoolV(true))
    case (2, 0) => true
    case (2, 1) => c.m[0] == Live(IntV(-1))
    case (2, 2) => c.m[0] == Live(IntV(0))
    case _ => false
  }

  lemma SpinsOn(calls: Calls, c: Cfg)
    requires Spinning(c)
    ensures Spinning(Tick(COUNTER_BLOCKS, calls, c))
  {
    var m := c.m;
    if c.bb == 1 && c.pc == 0 {
      assert ReadAll(m, [Place(0, []), Place(2, [])]) == Some([IntV(0), IntV(1)]) by {
        TwoRead(m, Place(0, []), Place(2, []));
      }
    } else if c.bb == 2 && c.pc == 1 {
      assert ReadAll(m, [Place(0, []), Const(IntV(1))]) == Some([IntV(-1), IntV(1)]) by {
        TwoRead(m, Place(0, []), Const(IntV(1)));
      }
    }
  }

  lemma TwoRead(m: seq<Slot>, a: Operand, b: Operand)
    requires Read(m, a).Some? && Read(m, b).Some?
    ensures ReadAll(m, [a, b]) == Some([Read(m, a).value, Read(m, b).value])
  {
    var os := [a, b];
    assert os[1..] == [b] && [b][1..] == [];
    assert ReadAll(m, []) == Some([]);
    assert [Read(m, b).value] + [] == [Read(m, b).value] && ReadAll(m, os[1..]) == Some([Read(m, b).value]);
    assert ReadAll(m, os) == Some([Read(m, a).value] + [Read(m, b).value]);
    assert [Read(m, a).value] + [Read(m, b).value] == [Read(m, a).value, Read(m, b).value];
  }

  lemma {:induction false} SpinsForever(calls: Calls, c: Cfg, n: nat)
    requires Spinning(c)
    ensures Spinning(Run(COUNTER_BLOCKS, calls, c, n))
    decreases n
  {
    hide Spinning;
    if n > 0 {
      SpinsOn(calls, c);
      SpinsForever(calls, Tick(COUNTER_BLOCKS, calls, c), n - 1);
    }
  }

  lemma WrittenCounterTree(E: Env, h: Semantics.Store)
    requires !E.strict
    ensures Eval(E, WRITTEN_COUNTER, MoveCtx, h) == Norm(UnitV, h - {0})
  {
    var put := Assign(0, [], Lit(IntV(-1)));
    var body := Block([put], None);
    var g := h[0 := Live(IntV(0))];
    assert [put][1..] == [] && EvalStmts(E, [put], g) == EvalStmt(E, put, g) == Norm(UnitV, g[0 := Live(IntV(-1))]);
    assert Eval(E, body, MoveCtx, g) == Norm(UnitV, g[0 := Live(IntV(-1))]);
    assert CountLoop(E, 0, body, 1, 1, g[0 := Live(IntV(-1))]) == Norm(UnitV, g[0 := Live(IntV(-1))] - {0});
    assert g[0 := Live(IntV(-1))] - {0} == h - {0};
    assert CountLoop(E, 0, body, 0, 1, h) == Norm(UnitV, h - {0});
  }

  /** Without the condition on the range variable the theorem fails: the semantics runs the body
      once, the blocks count the written variable up again and never end. */
  lemma WrittenCounterSpins(E: Env)
    requires !E.strict
    ensures var B := LowerFn(E.contracts, [], WRITTEN_COUNTER);
      && Eval(E, WRITTEN_COUNTER, MoveCtx, map[]).Norm?
      && forall r :: !Reaches(B.blocks, E.calls, At(0, 0, ParamLocals([], |B.locals|)), Done(r))
    ensures !Fits(E.contracts, WRITTEN_COUNTER)
  {
    hide LowerFn, Eval, Reaches;
    WrittenCounterLowers(E.contracts);
    WrittenCounterTree(E, map[]);
    assert ParamLocals([], 4) == [Hole, Hole, Hole, Hole];
    forall r
      ensures !Reaches(COUNTER_BLOCKS, E.calls, At(0, 0, ParamLocals([], 4)), Done(r))
    {
      NeverDone(E.calls, r);
    }
    WrittenCounterUnfit(E.contracts);
  }

  /** The entry block leads into the loop. */
  lemma EntersSpinning(calls: Calls)
    ensures Spinning(Run(COUNTER_BLOCKS, calls, At(0, 0, [Hole, Hole, Hole, Hole]), 4))
  {
    var K := COUNTER_BLOCKS;
    var m1 := [Hole, Live(IntV(0)), Hole, Hole];
    var m2 := [Hole, Live(IntV(0)), Live(IntV(1)), Hole];
    var m3 := [Live(IntV(0)), Live(IntV(0)), Live(IntV(1)), Hole];
    var c := At(0, 0, [Hole, Hole, Hole, Hole]);
    assert Tick(K, calls, c) == At(0, 1, m1);
    assert Tick(K, calls, At(0, 1, m1)) == At(0, 2, m2);
    assert Tick(K, calls, At(0, 2, m2)) == At(0, 3, m3);
    assert Tick(K, calls, At(0, 3, m3)) == At(1, 0, m3);
    hide Tick;
    assert Run(K, calls, c, 4) == Run(K, calls, At(0, 1, m1), 3) == Run(K, calls, At(0, 2, m2), 2);
    assert Run(K, calls, At(0, 2, m2), 2) == Run(K, calls, At(0, 3, m3), 1) == Run(K, calls, At(1, 0, m3), 0);
  }

  lemma NeverDone(calls: Calls, r: Res)
    ensures !Reaches(COUNTER_BLOCKS, calls, At(0, 0, [Hole, Hole, Hole, Hole]), Done(r))
  {
    hide Run;
    var K := COUNTER_BLOCKS;
    var c := At(0, 0, [Hole, Hole, Hole, Hole]);
    EntersSpinning(calls);
    forall n: nat
      ensures Run(K, calls, c, n) != Done(r)
    {
      SpinsForever(calls, Run(K, calls, c, 4), n);
      RunCompose(K, calls, c, 4, n);
      RunCompose(K, calls, c, n, 4);
      DoneStays(K, calls, r, 4);
    }
  }

  lemma WrittenCounterUnfit(cs: Contracts)
    ensures !Fits(cs, WRITTEN_COUNTER)
  {
    var put := Assign(0, [], Lit(IntV(-1)));
    assert 0 in Effects.WritesStmt(cs, put);
    assert 0 in Effects.WritesStmts(cs, [put]);
    assert 0 in Effects.Writes(cs, WRITTEN_COUNTER.body);
  }
}
