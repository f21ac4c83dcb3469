/** Lowering only ever extends the graph: whatever expression is lowered, blocks that are
    closed or waiting are left alone and the builder stays consistent. */
module LowerShape {
  import opened Wrappers
  import opened Hir
  import opened Semantics
  import opened Mir
  import opened Lower

  ghost predicate Step(L: Builder, M: Builder) {
    WF(M) && Grows(L, M)
  }

  lemma StepTrans(L: Builder, M: Builder, N: Builder)
    requires Step(L, M) && Step(M, N)
    ensures Step(L, N)
  {
    GrowsTrans(L, M, N);
  }

  // ---------- single steps ----------

  lemma StepRefl(L: Builder)
    requires WF(L)
    ensures Step(L, L)
  {
  }

  lemma AddBlocksStep(L: Builder, n: nat)
    requires WF(L)
    ensures Step(L, AddBlocks(L, n))
  {
  }

  lemma AllocStep(L: Builder, s: Option<Sym>)
    requires WF(L)
    ensures Step(L, Alloc(L, s))
  {
  }

  lemma LocalForStep(L: Builder, s: Sym)
    requires WF(L)
    ensures Step(L, LocalFor(L, s).0)
  {
  }

  lemma EnsureOpenStep(L: Builder)
    requires WF(L)
    ensures Step(L, EnsureOpen(L)) && !EnsureOpen(L).closed
  {
  }

  lemma EmitStep(L: Builder, s: MStmt)
    requires WF(L)
    ensures Step(L, Emit(L, s)) && !Emit(L, s).closed
  {
    var O := EnsureOpen(L);
    EnsureOpenStep(L);
    assert Step(O, PutStmt(O, s));
    StepTrans(L, O, PutStmt(O, s));
  }

  lemma CloseStep(L: Builder, t: Term)
    requires WF(L) && !t.Pending?
    ensures Step(L, Close(L, t)) && Close(L, t).closed
  {
    var O := EnsureOpen(L);
    EnsureOpenStep(L);
    assert Step(O, PutTerm(O, t));
    StepTrans(L, O, PutTerm(O, t));
  }

  lemma EnterStep(L: Builder, M: Builder, b: nat)
    requires Step(L, M) && |L.blocks| <= b < |M.blocks| && M.blocks[b].term.Pending?
    ensures Step(L, Enter(M, b)) && !Enter(M, b).closed
  {
  }

  /** A waiting block is untouched as long as it is not entered. */
  lemma Waiting(L: Builder, M: Builder, b: nat)
    requires Grows(L, M) && b < |L.blocks| && b != L.cur && L.blocks[b].term.Pending?
    ensures b < |M.blocks| && M.blocks[b] == L.blocks[b] && M.cur != b
  {
    assert BlockGrows(L.blocks[b], M.blocks[b], false);
  }

  lemma EmitTempStep(L: Builder, rv: Rvalue)
    requires WF(L)
    ensures Step(L, EmitTemp(L, rv).0) && !EmitTemp(L, rv).0.closed
  {
    hide Grows, Emit;
    AllocStep(L, None);
    EmitStep(Alloc(L, None), Set(|L.locals|, [], rv));
    StepTrans(L, Alloc(L, None), EmitTemp(L, rv).0);
  }

  lemma EnsurePlaceStep(L: Builder, o: Operand)
    requires WF(L)
    ensures Step(L, EnsurePlace(L, o).0)
  {
    hide Grows, EmitTemp;
    StepRefl(L);
    EmitTempStep(L, Use(o));
  }

  lemma EndArmStep(L: Builder, result: Option<nat>, v: Operand, join: nat)
    requires WF(L)
    ensures Step(L, EndArm(L, result, v, join)) && EndArm(L, result, v, join).closed
  {
    hide Emit, Close, Grows;
    StepRefl(L);
    if result.Some? {
      var A := Emit(L, Set(result.value, [], Use(v)));
      EmitStep(L, Set(result.value, [], Use(v)));
      CloseStep(A, Goto(join));
      StepTrans(L, A, Close(A, Goto(join)));
    } else if !L.closed {
      CloseStep(L, Goto(join));
    }
  }

  lemma ResultSlotStep(L: Builder, unit: bool)
    requires WF(L)
    ensures Step(L, ResultSlot(L, unit).0) && ResultSlot(L, unit).0.blocks == L.blocks
  {
    StepRefl(L);
    AllocStep(L, None);
  }

  lemma ForkStep(L: Builder, n: nat, t: Term, enter: nat)
    requires WF(L) && !t.Pending? && |L.blocks| <= enter < |L.blocks| + n
    ensures var M := Fork(L, n, t, enter);
      Step(L, M) && M.cur == enter && !M.closed && M.locals == L.locals && |L.blocks| + n <= |M.blocks| &&
      forall b {:trigger M.blocks[b]} :: |L.blocks| <= b < |L.blocks| + n ==> M.blocks[b] == BasicBlock(b, [], Pending)
  {
    var A := AddBlocks(L, n);
    AddBlocksStep(L, n);
    CloseStep(A, t);
    StepTrans(L, A, Close(A, t));
    EnterStep(L, Close(A, t), enter);
  }

  lemma LogicForkStep(L: Builder, c: Operand, isOr: bool)
    requires WF(L)
    ensures var M := LogicFork(L, c, isOr);
      Step(L, M) && M.cur == |L.blocks| && !M.closed && |L.blocks| + 3 <= |M.blocks| &&
      forall b {:trigger M.blocks[b]} :: |L.blocks| <= b < |L.blocks| + 3 ==> M.blocks[b] == BasicBlock(b, [], Pending)
  {
    hide Grows, Fork;
    var first := |L.blocks|;
    AllocStep(L, None);
    ForkStep(Alloc(L, None), 3, Branch(c, if isOr then first + 1 else first, if isOr then first else first + 1), first);
    StepTrans(L, Alloc(L, None), LogicFork(L, c, isOr));
  }

  lemma LogicTailStep(A: Builder, L: Builder, t: nat, v: Operand, first: nat, isOr: bool)
    requires WF(A) && Step(A, L) && |A.blocks| <= first && first + 2 < |L.blocks| && L.cur != first + 1
    requires L.cur != first + 2
    requires L.blocks[first + 1].term.Pending? && L.blocks[first + 2].term.Pending?
    ensures Step(A, LogicTail(L, t, v, first, isOr))
  {
    hide Grows, Emit, Close;
    StepRefl(L);
    EmitStep(L, Set(t, [], Use(v)));
    var E := if L.closed then L else Close(Emit(L, Set(t, [], Use(v))), Goto(first + 2));
    if !L.closed {
      CloseStep(Emit(L, Set(t, [], Use(v))), Goto(first + 2));
      StepTrans(L, Emit(L, Set(t, [], Use(v))), E);
    }
    Waiting(L, E, first + 1);
    Waiting(L, E, first + 2);
    StepTrans(A, L, E);
    EnterStep(A, E, first + 1);
    var B := Enter(E, first + 1);
    var s := Set(t, [], Use(Const(BoolV(isOr))));
    EmitStep(B, s);
    CloseStep(Emit(B, s), Goto(first + 2));
    StepTrans(B, Emit(B, s), Close(Emit(B, s), Goto(first + 2)));
    Waiting(B, Close(Emit(B, s), Goto(first + 2)), first + 2);
    StepTrans(A, B, Close(Emit(B, s), Goto(first + 2)));
    EnterStep(A, Close(Emit(B, s), Goto(first + 2)), first + 2);
  }

  lemma LoopHeadStep(L: Builder, counter: nat, limit: Operand)
    requires WF(L)
    ensures var M := LoopHead(L, counter, limit);
      Step(L, M) && !M.closed && M.cur == |L.blocks| + 1 && |L.blocks| + 3 <= |M.blocks| &&
      M.blocks[|L.blocks| + 2].term.Pending?
  {
    hide Grows, Fork, EmitTemp, Close;
    var head := |L.blocks|;
    var A := Fork(L, 3, Goto(head), head);
    ForkStep(L, 3, Goto(head), head);
    var rv := Compute(Bin(Lt), [Place(counter, []), limit], []);
    EmitTempStep(A, rv);
    var (B, c) := EmitTemp(A, rv);
    var C := Close(B, Branch(c, head + 1, head + 2));
    CloseStep(B, Branch(c, head + 1, head + 2));
    StepTrans(A, B, C);
    Waiting(A, C, head + 1);
    Waiting(A, C, head + 2);
    StepTrans(L, A, C);
    EnterStep(L, C, head + 1);
  }

  lemma LoopEndStep(L: Builder, counter: nat, head: nat)
    requires WF(L)
    ensures Step(L, LoopEnd(L, counter, head))
  {
    hide Grows, Emit, Close;
    StepRefl(L);
    if L.blocks[L.cur].term.Pending? {
      var s := Set(counter, [], Compute(Bin(Add), [Place(counter, []), Const(IntV(1))], []));
      EmitStep(L, s);
      CloseStep(Emit(L, s), Goto(head));
      StepTrans(L, Emit(L, s), Close(Emit(L, s), Goto(head)));
    }
  }

  lemma MatchForkStep(L: Builder, s: Operand, arms: seq<Arm>)
    requires WF(L)
    ensures var M := MatchFork(L, s, arms);
      Step(L, M) && M.closed && |L.blocks| + 1 + |arms| <= |M.blocks| && M.locals == L.locals &&
      (forall b {:trigger M.blocks[b]} ::
        |L.blocks| <= b < |L.blocks| + 1 + |arms| ==> M.blocks[b] == BasicBlock(b, [], Pending)) &&
      (M.cur < |L.blocks| || M.cur >= |L.blocks| + 1 + |arms|)
  {
    var A := AddBlocks(L, 1 + |arms|);
    AddBlocksStep(L, 1 + |arms|);
    var t := Switch(s, ArmTargets(arms, |L.blocks| + 1), DefaultTarget(arms, |L.blocks| + 1));
    CloseStep(A, t);
    StepTrans(L, A, Close(A, t));
  }

  lemma {:induction false} LowerBindsStep(binds: seq<Option<Sym>>, n: nat, scrut: Operand, L: Builder)
    requires WF(L) && n <= |binds|
    ensures Step(L, LowerBinds(binds, n, scrut, L))
    decreases n
  {
    hide Grows, Emit;
    if n == 0 {
      StepRefl(L);
    } else {
      LowerBindsStep(binds, n - 1, scrut, L);
      var A := LowerBinds(binds, n - 1, scrut, L);
      if binds[n - 1].Some? {
        var (B, l) := LocalFor(A, binds[n - 1].value);
        LocalForStep(A, binds[n - 1].value);
        EmitStep(B, Set(l, [], Payload(scrut, n - 1)));
        StepTrans(A, B, Emit(B, Set(l, [], Payload(scrut, n - 1))));
        StepTrans(L, A, LowerBinds(binds, n, scrut, L));
      }
    }
  }

  lemma LowerPatStep(p: Pat, scrut: Operand, L: Builder)
    requires WF(L)
    ensures Step(L, LowerPat(p, scrut, L))
  {
    hide Grows, Emit;
    StepRefl(L);
    match p
    case VariantPat(_, binds) => LowerBindsStep(binds, |binds|, scrut, L);
    case BindPat(Some(s)) =>
      var (B, l) := LocalFor(L, s);
      LocalForStep(L, s);
      EmitStep(B, Set(l, [], Duplicate(scrut)));
      StepTrans(L, B, Emit(B, Set(l, [], Duplicate(scrut))));
    case _ =>
  }

  // ---------- expressions ----------

  lemma {:induction false} LowerExprStep(cs: Contracts, e: Expr, L: Builder)
    requires WF(L)
    ensures Step(L, LowerExpr(cs, e, L).0)
    decreases e, 4
  {
    hide Grows, EmitTemp, LowerAll, LowerPlace, LowerLogic, LowerIf, LowerMatch, LowerRange, LowerEach, LowerStmts;
    match e
    case Lit(v) => StepRefl(L);
    case Poison => StepRefl(L);
    case Var(_) => LowerPlaceStep(cs, e, L);
    case Field(_, _, _) => LowerPlaceStep(cs, e, L);
    case Prim(op, args) =>
      LowerAllStep(cs, args, L);
      var (A, ops) := LowerAll(cs, args, L);
      var rv := Compute(op, ops, ContractList(cs, op));
      EmitTempStep(A, rv);
      StepTrans(L, A, EmitTemp(A, rv).0);
    case Logic(_, _, _) => LowerLogicStep(cs, e, L);
    case If(_, _, _, _) => LowerIfStep(cs, e, L);
    case Block(stmts, tail) =>
      LowerStmtsStep(cs, stmts, L);
      var A := LowerStmts(cs, stmts, L);
      if tail.Some? {
        LowerExprStep(cs, tail.value, A);
        StepTrans(L, A, LowerExpr(cs, tail.value, A).0);
      }
    case Match(_, _, _) => LowerMatchStep(cs, e, L);
    case ForRange(_, _, _, _) => LowerRangeStep(cs, e, L);
    case ForEach(_, _, _) => LowerEachStep(cs, e, L);
  }

  lemma {:induction false} LowerPlaceStep(cs: Contracts, e: Expr, L: Builder)
    requires WF(L)
    ensures Step(L, LowerPlace(cs, e, L).0)
    decreases e, if e.Var? || e.Field? then 3 else 5
  {
    hide Grows, EnsurePlace;
    match e
    case Var(s) => LocalForStep(L, s);
    case Field(b, _, _) => LowerPlaceStep(cs, b, L);
    case _ =>
      LowerExprStep(cs, e, L);
      var (A, o) := LowerExpr(cs, e, L);
      EnsurePlaceStep(A, o);
      StepTrans(L, A, EnsurePlace(A, o).0);
  }

  lemma {:induction false} LowerAllStep(cs: Contracts, args: seq<Expr>, L: Builder)
    requires WF(L)
    ensures Step(L, LowerAll(cs, args, L).0)
    decreases args, 0
  {
    hide Grows;
    if args == [] {
      StepRefl(L);
    } else {
      LowerExprStep(cs, args[0], L);
      var A := LowerExpr(cs, args[0], L).0;
      LowerAllStep(cs, args[1..], A);
      StepTrans(L, A, LowerAll(cs, args[1..], A).0);
    }
  }

  lemma {:induction false} LowerLogicStep(cs: Contracts, e: Expr, L: Builder)
    requires WF(L) && e.Logic?
    ensures Step(L, LowerLogic(cs, e, L).0)
    decreases e, 3
  {
    hide Grows, LogicFork, LogicTail;
    LowerExprStep(cs, e.lhs, L);
    var (A, c) := LowerExpr(cs, e.lhs, L);
    var F := LogicFork(A, c, e.isOr);
    LogicForkStep(A, c, e.isOr);
    LowerExprStep(cs, e.rhs, F);
    var (B, v) := LowerExpr(cs, e.rhs, F);
    Waiting(F, B, |A.blocks| + 1);
    Waiting(F, B, |A.blocks| + 2);
    StepTrans(A, F, B);
    LogicTailStep(A, B, |A.locals|, v, |A.blocks|, e.isOr);
    StepTrans(L, A, LowerLogic(cs, e, L).0);
  }

  lemma {:induction false} LowerBranchStep(cs: Contracts, e: Expr, result: Option<nat>, join: nat, L: Builder)
    requires WF(L)
    ensures Step(L, LowerBranch(cs, e, result, join, L)) && LowerBranch(cs, e, result, join, L).closed
    decreases e, 5
  {
    hide Grows, EndArm;
    LowerExprStep(cs, e, L);
    var (A, v) := LowerExpr(cs, e, L);
    EndArmStep(A, result, v, join);
    StepTrans(L, A, EndArm(A, result, v, join));
  }

  lemma {:induction false} LowerIfStep(cs: Contracts, e: Expr, L: Builder)
    requires WF(L) && e.If?
    ensures Step(L, LowerIf(cs, e, L).0)
    decreases e, 3
  {
    hide Grows, Fork, LowerBranch, ResultSlot;
    LowerExprStep(cs, e.cond, L);
    var (A, c) := LowerExpr(cs, e.cond, L);
    ResultSlotStep(A, e.unit);
    var (B, result) := ResultSlot(A, e.unit);
    var first := |B.blocks|;
    var n := if e.els.None? then 2 else 3;
    var F := Fork(B, n, Branch(c, first, first + 1), first);
    ForkStep(B, n, Branch(c, first, first + 1), first);
    var C := LowerBranch(cs, e.thn, result, first + n - 1, F);
    LowerBranchStep(cs, e.thn, result, first + n - 1, F);
    Waiting(F, C, first + 1);
    Waiting(F, C, first + n - 1);
    StepTrans(L, A, B);
    StepTrans(B, F, C);
    StepTrans(L, B, C);
    EnterStep(L, C, first + 1);
    if e.els.Some? {
      var G := Enter(C, first + 1);
      var D := LowerBranch(cs, e.els.value, result, first + 2, G);
      LowerBranchStep(cs, e.els.value, result, first + 2, G);
      Waiting(G, D, first + 2);
      StepTrans(L, G, D);
      EnterStep(L, D, first + 2);
    }
  }

  /** Blocks `bb..bb + n` may be continued; every other block of `L` is finished. */
  ghost predicate GrowsIn(L: Builder, M: Builder, bb: nat, n: nat) {
    && |L.blocks| <= |M.blocks|
    && L.locals <= M.locals
    && (M.cur == L.cur || bb <= M.cur < bb + n || M.cur >= |L.blocks|)
    && forall b {:trigger M.blocks[b]} :: 0 <= b < |L.blocks| ==> BlockGrows(L.blocks[b], M.blocks[b], bb <= b < bb + n)
  }

  lemma GrowsInTrans(L: Builder, M: Builder, N: Builder, bb: nat, n: nat)
    requires Grows(L, M) && GrowsIn(M, N, bb, n) && |L.blocks| <= bb
    ensures Grows(L, N)
  {
    forall b | 0 <= b < |L.blocks|
      ensures BlockGrows(L.blocks[b], N.blocks[b], b == L.cur)
    {
      assert BlockGrows(M.blocks[b], N.blocks[b], false);
    }
  }

  lemma GrowsInStep(L: Builder, A: Builder, M: Builder, bb: nat, n: nat)
    requires WF(L) && L.closed && 0 < n && bb + n <= |L.blocks| && L.blocks[bb].term.Pending?
    requires Grows(Enter(L, bb), A) && GrowsIn(A, M, bb + 1, n - 1)
    ensures GrowsIn(L, M, bb, n)
  {
    forall b | 0 <= b < |L.blocks|
      ensures BlockGrows(L.blocks[b], M.blocks[b], bb <= b < bb + n)
    {
      assert BlockGrows(A.blocks[b], M.blocks[b], bb + 1 <= b < bb + n);
    }
  }

  lemma {:induction false} LowerArmStep(cs: Contracts, arm: Arm, s: Operand, result: Option<nat>, join: nat, L: Builder)
    requires WF(L)
    ensures Step(L, LowerArm(cs, arm, s, result, join, L)) && LowerArm(cs, arm, s, result, join, L).closed
    decreases arm, 5
  {
    hide Grows, LowerPat;
    var A := LowerPat(arm.pat, s, L);
    LowerPatStep(arm.pat, s, L);
    LowerBranchStep(cs, arm.body, result, join, A);
    StepTrans(L, A, LowerBranch(cs, arm.body, result, join, A));
  }

  lemma {:induction false} LowerArmsStep(cs: Contracts, arms: seq<Arm>, bb: nat, s: Operand, result: Option<nat>,
        join: nat, L: Builder)
    requires WF(L) && L.closed && bb + |arms| <= |L.blocks| && !(bb <= L.cur < bb + |arms|)
    requires forall b {:trigger L.blocks[b]} :: bb <= b < bb + |arms| ==> L.blocks[b].term.Pending?
    ensures var M := LowerArms(cs, arms, bb, s, result, join, L); WF(M) && M.closed && GrowsIn(L, M, bb, |arms|)
    decreases arms, 0
  {
    if arms != [] {
      hide Grows, LowerArm;
      var A := LowerArm(cs, arms[0], s, result, join, Enter(L, bb));
      LowerArmStep(cs, arms[0], s, result, join, Enter(L, bb));
      forall b {:trigger A.blocks[b]} | bb + 1 <= b < bb + |arms|
        ensures b < |A.blocks| && A.blocks[b].term.Pending?
      {
        Waiting(Enter(L, bb), A, b);
      }
      assert !(bb + 1 <= A.cur < bb + |arms|) by {
        if bb + 1 <= A.cur < bb + |arms| {
          Waiting(Enter(L, bb), A, A.cur);
        }
      }
      LowerArmsStep(cs, arms[1..], bb + 1, s, result, join, A);
      GrowsInStep(L, A, LowerArms(cs, arms, bb, s, result, join, L), bb, |arms|);
    }
  }

  lemma {:induction false} LowerMatchStep(cs: Contracts, e: Expr, L: Builder)
    requires WF(L) && e.Match?
    ensures Step(L, LowerMatch(cs, e, L).0)
    decreases e, 3
  {
    hide Grows, ResultSlot, MatchFork, LowerArms;
    LowerExprStep(cs, e.scrut, L);
    var (A, o) := LowerExpr(cs, e.scrut, L);
    ResultSlotStep(A, e.unit);
    var (B, result) := ResultSlot(A, e.unit);
    var join := |B.blocks|;
    var F := MatchFork(B, o, e.arms);
    MatchForkStep(B, o, e.arms);
    var C := LowerArms(cs, e.arms, join + 1, o, result, join, F);
    LowerArmsStep(cs, e.arms, join + 1, o, result, join, F);
    StepTrans(L, A, B);
    StepTrans(L, B, F);
    GrowsInTrans(L, F, C, join + 1, |e.arms|);
    assert BlockGrows(F.blocks[join], C.blocks[join], false);
    EnterStep(L, C, join);
  }

  lemma {:induction false} LowerBoundStep(cs: Contracts, bound: Option<Expr>, L: Builder)
    requires WF(L)
    ensures Step(L, LowerBound(cs, bound, L).0) && !LowerBound(cs, bound, L).0.closed
    decreases bound, 5
  {
    hide Grows, EmitTemp;
    if bound.None? {
      EmitTempStep(L, Use(Const(IntV(0))));
    } else {
      LowerExprStep(cs, bound.value, L);
      var (A, o) := LowerExpr(cs, bound.value, L);
      EmitTempStep(A, Use(o));
      StepTrans(L, A, EmitTemp(A, Use(o)).0);
    }
  }

  lemma {:induction false} LowerRangeStep(cs: Contracts, e: Expr, L: Builder)
    requires WF(L) && e.ForRange?
    ensures Step(L, LowerRange(cs, e, L))
    decreases e, 3
  {
    hide Grows, LowerBound, LowerLoop, Emit;
    var X := Alloc(L, Some(e.var_));
    AllocStep(L, Some(e.var_));
    LowerBoundStep(cs, e.lo, X);
    var (A, lo) := LowerBound(cs, e.lo, X);
    LowerBoundStep(cs, e.hi, A);
    var (B, hi) := LowerBound(cs, e.hi, A);
    var C := Emit(B, Set(|L.locals|, [], Use(lo)));
    EmitStep(B, Set(|L.locals|, [], Use(lo)));
    LowerLoopStep(cs, e.body, |L.locals|, hi, None, |L.locals|, C);
    StepTrans(L, X, A);
    StepTrans(L, A, B);
    StepTrans(L, B, C);
    StepTrans(L, C, LowerRange(cs, e, L));
  }

  lemma {:induction false} LowerEachStep(cs: Contracts, e: Expr, L: Builder)
    requires WF(L) && e.ForEach?
    ensures Step(L, LowerEach(cs, e, L))
    decreases e, 3
  {
    hide Grows, LowerLoop, EachHead;
    var X := Alloc(L, Some(e.var_));
    AllocStep(L, Some(e.var_));
    LowerExprStep(cs, e.iter, X);
    var (A, o) := LowerExpr(cs, e.iter, X);
    EachHeadStep(A, o);
    var (B, arr, len, idx) := EachHead(A, o);
    LowerLoopStep(cs, e.body, idx, len, Some(arr), |L.locals|, B);
    StepTrans(L, X, A);
    StepTrans(L, A, B);
    StepTrans(L, B, LowerEach(cs, e, L));
  }

  lemma EachHeadStep(L: Builder, o: Operand)
    requires WF(L)
    ensures Step(L, EachHead(L, o).0) && !EachHead(L, o).0.closed
  {
    hide Grows, EmitTemp;
    EmitTempStep(L, Use(o));
    var (A, arr) := EmitTemp(L, Use(o));
    EmitTempStep(A, Compute(Len, [arr], []));
    var (B, len) := EmitTemp(A, Compute(Len, [arr], []));
    EmitTempStep(B, Use(Const(IntV(0))));
    StepTrans(L, A, B);
    StepTrans(L, B, EmitTemp(B, Use(Const(IntV(0)))).0);
  }

  lemma {:induction false} LowerLoopStep(cs: Contracts, body: Expr, counter: nat, limit: Operand, elem: Option<Operand>,
        x: nat, L: Builder)
    requires WF(L)
    ensures Step(L, LowerLoop(cs, body, counter, limit, elem, x, L))
    decreases body, 5
  {
    hide Grows, LoopHead, LoopEnd, Emit;
    var A := LoopHead(L, counter, limit);
    LoopHeadStep(L, counter, limit);
    var B := if elem.None? then A else Emit(A, Set(x, [], Compute(Index(true), [elem.value, Place(counter, [])], [])));
    StepRefl(A);
    if elem.Some? {
      EmitStep(A, Set(x, [], Compute(Index(true), [elem.value, Place(counter, [])], [])));
    }
    LowerExprStep(cs, body, B);
    var C := LowerExpr(cs, body, B).0;
    LoopEndStep(C, counter, |L.blocks|);
    var D := LoopEnd(C, counter, |L.blocks|);
    StepTrans(A, B, C);
    StepTrans(A, C, D);
    Waiting(A, D, |L.blocks| + 2);
    StepTrans(L, A, D);
    EnterStep(L, D, |L.blocks| + 2);
  }

  // ---------- statements ----------

  lemma {:induction false} LowerStmtsStep(cs: Contracts, stmts: seq<Stmt>, L: Builder)
    requires WF(L)
    ensures Step(L, LowerStmts(cs, stmts, L))
    decreases stmts, 0
  {
    hide Grows, LowerStmt;
    if stmts == [] {
      StepRefl(L);
    } else {
      LowerStmtStep(cs, stmts[0], L);
      var A := LowerStmt(cs, stmts[0], L);
      LowerStmtsStep(cs, stmts[1..], A);
      StepTrans(L, A, LowerStmts(cs, stmts[1..], A));
    }
  }

  lemma {:induction false} LowerStmtStep(cs: Contracts, s: Stmt, L: Builder)
    requires WF(L)
    ensures Step(L, LowerStmt(cs, s, L))
    decreases s, 1
  {
    hide Grows, Emit, Close;
    match s
    case Let(x, init) =>
      LocalForStep(L, x);
      var (A, l) := LocalFor(L, x);
      if init.Some? {
        LowerExprStep(cs, init.value, A);
        var (B, o) := LowerExpr(cs, init.value, A);
        EmitStep(B, Set(l, [], Use(o)));
        StepTrans(L, A, B);
        StepTrans(L, B, Emit(B, Set(l, [], Use(o))));
      }
    case Assign(x, path, e) =>
      LowerExprStep(cs, e, L);
      var (A, o) := LowerExpr(cs, e, L);
      LocalForStep(A, x);
      var (B, l) := LocalFor(A, x);
      EmitStep(B, Set(l, path, Use(o)));
      StepTrans(L, A, B);
      StepTrans(L, B, Emit(B, Set(l, path, Use(o))));
    case ExprStmt(e) => LowerExprStep(cs, e, L);
    case Return(result) =>
      if result.None? {
        CloseStep(L, Leave(Const(UnitV)));
      } else {
        LowerExprStep(cs, result.value, L);
        var (A, o) := LowerExpr(cs, result.value, L);
        CloseStep(A, Leave(o));
        StepTrans(L, A, Close(A, Leave(o)));
      }
  }
}
