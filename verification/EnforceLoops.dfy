/** Loops in the enforcement walk: bodies without loops are always steady, and a loop body
    walked once can be accepted although its second pass misuses a binding. */
module EnforceLoops {
  import opened Wrappers
  import opened Hir
  import opened Semantics
  import opened Enforce
  import opened EnforceSound

  predicate LoopFree(e: Expr)
    decreases e, 1
  {
    match e
    case Field(b, _, _) => LoopFree(b)
    case Prim(_, args) => AllLoopFree(args)
    case Logic(_, l, r) => LoopFree(l) && LoopFree(r)
    case If(c, t, f, _) => LoopFree(c) && LoopFree(t) && (f.Some? ==> LoopFree(f.value))
    case Block(stmts, tail) => StmtsLoopFree(stmts) && (tail.Some? ==> LoopFree(tail.value))
    case Match(s, arms, _) => LoopFree(s) && ArmsLoopFree(arms)
    case ForRange(_, _, _, _) => false
    case ForEach(_, _, _) => false
    case _ => true
  }

  predicate AllLoopFree(es: seq<Expr>)
    decreases es, 0
  {
    es == [] || (LoopFree(es[0]) && AllLoopFree(es[1..]))
  }

  predicate ArmsLoopFree(arms: seq<Arm>)
    decreases arms, 0
  {
    arms == [] || (ArmLoopFree(arms[0]) && ArmsLoopFree(arms[1..]))
  }

  predicate ArmLoopFree(arm: Arm)
    decreases arm, 2
  {
    LoopFree(arm.body)
  }

  predicate StmtsLoopFree(ss: seq<Stmt>)
    decreases ss, 0
  {
    ss == [] || (StmtLoopFree(ss[0]) && StmtsLoopFree(ss[1..]))
  }

  predicate StmtLoopFree(s: Stmt)
    decreases s, 1
  {
    match s
    case Let(_, init) => init.Some? ==> LoopFree(init.value)
    case Assign(_, _, e) => LoopFree(e)
    case ExprStmt(e) => LoopFree(e)
    case Return(o) => o.Some? ==> LoopFree(o.value)
  }

  lemma {:induction false} LoopFreeSteady(R: Rules, e: Expr, ctx: Ctx, W: Walk)
    requires LoopFree(e)
    ensures Check(R, e, ctx, W).steady == W.steady
    decreases e, 2
  {
    hide EnterExpr, Merge, CanComplete;
    var V := EnterExpr(R, e, ctx, W);
    EnterKeeps(R, e, ctx, W);
    match e
    case Field(b, _, copy) => LoopFreeSteady(R, b, if copy then ReadCtx else ctx, V);
    case Prim(op, args) => ArgsSteady(R, op, args, 0, ctx, V);
    case Logic(_, l, r) =>
      LoopFreeSteady(R, l, ReadCtx, V);
      LoopFreeSteady(R, r, ReadCtx, Check(R, l, ReadCtx, V));
    case If(c, t, f, _) =>
      LoopFreeSteady(R, c, ReadCtx, V);
      var A := Check(R, c, ReadCtx, V);
      LoopFreeSteady(R, t, ctx, A);
      if f.Some? {
        LoopFreeSteady(R, f.value, ctx, Check(R, t, ctx, A).(state := A.state));
      }
    case Block(stmts, tail) =>
      StmtsSteady(R, stmts, V);
      if tail.Some? {
        LoopFreeSteady(R, tail.value, ctx, CheckStmts(R, stmts, V));
      }
    case Match(s, arms, _) =>
      LoopFreeSteady(R, s, ReadCtx, V);
      var A := Check(R, s, ReadCtx, V);
      ArmsSteady(R, arms, ctx, A.state, None, A);
    case Var(_) =>
    case Lit(_) =>
    case Poison =>
  }

  lemma {:induction false} ArgsSteady(R: Rules, op: Op, args: seq<Expr>, i: nat, ctx: Ctx, W: Walk)
    requires AllLoopFree(args)
    ensures CheckArgs(R, op, args, i, ctx, W).steady == W.steady
    decreases args, 0
  {
    if args != [] {
      var c := ArgCtx(R.contracts, op, i, ctx);
      LoopFreeSteady(R, args[0], c, W);
      var A := Check(R, args[0], c, W);
      AfterArgGrows(R, op, i, args[0], A);
      ArgsSteady(R, op, args[1..], i + 1, ctx, AfterArg(R, op, i, args[0], A));
    }
  }

  lemma {:induction false} ArmsSteady(R: Rules, arms: seq<Arm>, ctx: Ctx, saved: States, joined: Option<States>,
        W: Walk)
    requires ArmsLoopFree(arms) && (joined.Some? ==> saved.Keys <= joined.value.Keys)
    ensures CheckArms(R, arms, ctx, saved, joined, W).1.steady == W.steady
    decreases arms, 0
  {
    if arms != [] {
      ArmSteady(R, arms[0], ctx, W.(state := saved));
      var A := CheckArm(R, arms[0], ctx, W.(state := saved));
      var j := if !ArmCompletes(arms[0]) then joined
               else if joined.None? then Some(A.state)
               else Some(Merge(joined.value, A.state));
      ArmsSteady(R, arms[1..], ctx, saved, j, A);
    }
  }

  lemma {:induction false} ArmSteady(R: Rules, arm: Arm, ctx: Ctx, W: Walk)
    requires ArmLoopFree(arm)
    ensures CheckArm(R, arm, ctx, W).steady == W.steady
    decreases arm, 3
  {
    LoopFreeSteady(R, arm.body, ctx, W.(state := BindStates(W.state, arm.pat)));
  }

  lemma {:induction false} StmtsSteady(R: Rules, ss: seq<Stmt>, W: Walk)
    requires StmtsLoopFree(ss)
    ensures CheckStmts(R, ss, W).steady == W.steady
    decreases ss, 0
  {
    if ss != [] {
      StmtSteady(R, ss[0], W);
      StmtsSteady(R, ss[1..], CheckStmt(R, ss[0], W));
    }
  }

  lemma {:induction false} StmtSteady(R: Rules, s: Stmt, W: Walk)
    requires StmtLoopFree(s)
    ensures CheckStmt(R, s, W).steady == W.steady
    decreases s, 1
  {
    match s
    case Let(_, None) =>
    case Let(_, Some(e)) => LoopFreeSteady(R, e, MoveCtx, W);
    case Assign(_, _, e) => LoopFreeSteady(R, e, MoveCtx, W);
    case ExprStmt(e) => LoopFreeSteady(R, e, MoveCtx, W);
    case Return(None) =>
    case Return(Some(e)) => LoopFreeSteady(R, e, MoveCtx, W);
  }

  /** A loop-free body without diagnostics is safe for every argument and every callee: no run
      reads a binding that holds no value, and none writes a binding that is not `mut` twice. */
  lemma {:induction false} LoopFreeAccepted(R: Rules, E: Env, params: seq<Sym>, root: Expr, h: Store)
    requires Follows(R, E) && Scoped(root, set s | s in params) && LoopFree(root)
    requires forall s <- params :: IsLive(h, s)
    requires CheckBody(R, params, root).diags == []
    ensures !Eval(E, root, MoveCtx, h).Misuse?
  {
    LoopFreeSteady(R, root, MoveCtx, Walk(ParamStates(params), [], [], true));
    BodyNeverMisuses(R, E, params, root, h);
  }

  // ---------- what walking a loop body once misses ----------

  /** Moves binding 0 on every pass: `for i in 0..2 { let t = a; }`. */
  const MOVE_EACH_PASS := ForRange(1, Some(Lit(IntV(0))), Some(Lit(IntV(2))), MOVING_BODY)

  const MOVING_BODY := Block([Let(2, Some(Var(0)))], None)

  lemma PassAccepted(R: Rules, W: Walk)
    requires 0 in W.state && W.state[0] == READY && W.loans == []
    ensures Check(R, MOVING_BODY, MoveCtx, W).diags == W.diags
  {
    var step := Let(2, Some(Var(0)));
    assert [step][1..] == [];
    assert CheckStmts(R, [step], W) == CheckStmt(R, step, W);
  }

  /** One pass empties the binding, so the next pass reads a hole. */
  lemma PassRuns(E: Env, h: Store)
    requires E.strict && E.copies == {}
    ensures var o := Eval(E, MOVING_BODY, MoveCtx, h);
      if IsLive(h, 0) then o == Norm(UnitV, h[0 := Hole][2 := h[0]]) else o.Misuse?
  {
    var step := Let(2, Some(Var(0)));
    assert [step][1..] == [];
    assert EvalStmt(E, step, h) == if IsLive(h, 0) then Norm(UnitV, h[0 := Hole][2 := h[0]]) else Misuse;
  }

  /** The walk accepts the loop, and the second pass reads the moved binding. */
  lemma LoopBodyWalkedOnce(E: Env, v: Value)
    requires E.strict && E.copies == {}
    ensures CheckBody(Rules({}, {}, E.contracts), [0], MOVE_EACH_PASS).diags == []
    ensures Scoped(MOVE_EACH_PASS, {0})
    ensures Eval(E, MOVE_EACH_PASS, MoveCtx, map[0 := Live(v)]).Misuse?
  {
    hide Check, Eval;
    var R := Rules({}, {}, E.contracts);
    LoopAccepted(R);
    LoopMisuses(E, map[0 := Live(v)]);
  }

  lemma LoopAccepted(R: Rules)
    ensures CheckBody(R, [0], MOVE_EACH_PASS).diags == []
  {
    hide Merge, Repeatable, Check;
    var W := Walk(map[0 := READY], [], [], true);
    PassAccepted(R, SetState(W, 1, READY));
    TwoPasses(R, MOVING_BODY, W);
  }

  /** The bounds of these loops are constants. */
  lemma TwoPasses(R: Rules, body: Expr, W: Walk)
    requires W == Walk(map[0 := READY], [], [], true)
    ensures var e := ForRange(1, Some(Lit(IntV(0))), Some(Lit(IntV(2))), body);
      CheckBody(R, [0], e) == CheckLoop(R, 1, body, W)
  {
    hide CheckLoop;
    var e := ForRange(1, Some(Lit(IntV(0))), Some(Lit(IntV(2))), body);
    assert ParamStates([0]) == map[0 := READY];
    assert EnterExpr(R, e, MoveCtx, W) == W;
    assert CheckOpt(R, Some(Lit(IntV(0))), W) == W && CheckOpt(R, Some(Lit(IntV(2))), W) == W;
    assert Check(R, e, MoveCtx, W) == CheckLoop(R, 1, body, W);
  }

  /** Refills binding 0 and moves it on every pass: `for i in 0..2 { a = 7; let t = a; }`. */
  const REFILL_EACH_PASS := ForRange(1, Some(Lit(IntV(0))), Some(Lit(IntV(2))), REFILLING_BODY)

  const REFILLING_BODY := Block([Assign(0, [], Lit(IntV(7))), Let(2, Some(Var(0)))], None)

  const EMPTIED := Binding(InitYes, MovedYes)

  lemma RefillPass(R: Rules, W: Walk)
    requires R.muts == {0} && R.copies == {} && W.loans == []
    ensures Check(R, REFILLING_BODY, MoveCtx, W) == W.(state := W.state[0 := EMPTIED][2 := READY])
  {
    var refill, move := Assign(0, [], Lit(IntV(7))), Let(2, Some(Var(0)));
    var A := SetState(W, 0, READY);
    assert CheckStmt(R, refill, W) == A;
    assert CheckStmt(R, move, A) == W.(state := W.state[0 := EMPTIED][2 := READY]) by {
      assert A.state[0 := EMPTIED] == W.state[0 := EMPTIED];
    }
    assert [refill, move][1..] == [move] && [move][1..] == [];
    assert CheckStmts(R, [refill, move], W) == CheckStmts(R, [move], A) == CheckStmt(R, move, A);
  }

  /** A loop that no pass leaves as it found it, and that is steady because of the joined state:
      a second walk from there reports nothing and leaves it as definite. */
  lemma RefillSteady(cs: Contracts)
    ensures var R := Rules({}, {0}, cs);
      && CheckBody(R, [0], REFILL_EACH_PASS).diags == [] && CheckBody(R, [0], REFILL_EACH_PASS).steady
      && !Repeatable(R, 1, REFILLING_BODY, Walk(map[0 := READY], [], [], true))
  {
    hide Check;
    var R := Rules({}, {0}, cs);
    var W := Walk(map[0 := READY], [], [], true);
    RefillPass(R, SetState(W, 1, READY));
    var A := Check(R, REFILLING_BODY, MoveCtx, SetState(W, 1, READY));
    var J := A.(state := Merge(A.state - {1}, W.state));
    assert A.state - {1} == map[0 := EMPTIED, 2 := READY];
    assert 0 in W.state - {1} && !AsDefinite((A.state - {1})[0], (W.state - {1})[0]);
    assert J.state == map[0 := Binding(InitYes, MovedMaybe), 2 := READY];
    RefillPass(R, SetState(J, 1, READY));
    assert Repeatable(R, 1, REFILLING_BODY, J);
    TwoPasses(R, REFILLING_BODY, W);
  }

  lemma LoopMisuses(E: Env, h: Store)
    requires E.strict && E.copies == {} && IsLive(h, 0)
    ensures Eval(E, MOVE_EACH_PASS, MoveCtx, h).Misuse?
  {
    var h1 := h[1 := Live(IntV(0))];
    PassRuns(E, h1);
    var g := h1[0 := Hole][2 := h1[0]];
    PassRuns(E, g[1 := Live(IntV(1))]);
    assert CountLoop(E, 1, MOVING_BODY, 1, 2, g).Misuse?;
    assert CountLoop(E, 1, MOVING_BODY, 0, 2, h).Misuse?;
  }
}
