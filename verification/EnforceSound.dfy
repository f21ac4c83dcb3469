/** Soundness of the enforcement walk: a body it accepts never touches a binding that holds
    no value, whatever its inputs and callees do. */
module EnforceSound {
  import opened Wrappers
  import opened Hir
  import opened Semantics
  import opened Effects
  import opened Place
  import opened Enforce

  // ---------- completion ----------

  /** A run that ends normally was predicted to be possible. */
  lemma {:induction false} CompletesSound(E: Env, e: Expr, ctx: Ctx, h: Store)
    requires Eval(E, e, ctx, h).Norm?
    ensures CanComplete(e)
    decreases e, 1
  {
    match e
    case Lit(_) =>
    case Poison =>
    case Var(_) =>
    case Field(b, _, copy) => CompletesSound(E, b, if copy then ReadCtx else ctx, h);
    case Prim(op, args) => ArgsCompleteSound(E, op, args, 0, ctx, h);
    case Logic(_, l, _) => CompletesSound(E, l, ReadCtx, h);
    case If(c, t, f, _) =>
      CompletesSound(E, c, ReadCtx, h);
      var o := Eval(E, c, ReadCtx, h);
      if o.v.b {
        CompletesSound(E, t, ctx, o.h);
      } else if f.Some? {
        CompletesSound(E, f.value, ctx, o.h);
      }
    case Block(stmts, tail) =>
      StmtsCompleteSound(E, stmts, h);
      if tail.Some? {
        CompletesSound(E, tail.value, ctx, EvalStmts(E, stmts, h).h);
      }
    case Match(s, arms, _) =>
      CompletesSound(E, s, ReadCtx, h);
      var o := Eval(E, s, ReadCtx, h);
      var k := FindArm(arms, o.v.tag).value;
      CompletesSound(E, arms[k].body, ctx, BindArm(arms[k].pat, o.v, o.h).value);
      ArmCounts(arms, k);
    case ForRange(_, lo, hi, _) =>
      BoundCompleteSound(E, lo, h);
      BoundCompleteSound(E, hi, EvalBound(E, lo, h).h);
    case ForEach(_, iter, _) => CompletesSound(E, iter, ReadCtx, h);
  }

  lemma {:induction false} ArmCounts(arms: seq<Arm>, k: nat)
    requires k < |arms| && CanComplete(arms[k].body)
    ensures AnyArmCompletes(arms)
  {
    if k > 0 {
      ArmCounts(arms[1..], k - 1);
    }
  }

  lemma {:induction false} BoundCompleteSound(E: Env, o: Option<Expr>, h: Store)
    requires EvalBound(E, o, h).Norm?
    ensures OptCompletes(o)
    decreases o, 2
  {
    if o.Some? {
      CompletesSound(E, o.value, ReadCtx, h);
    }
  }

  lemma {:induction false} ArgsCompleteSound(E: Env, op: Op, args: seq<Expr>, i: nat, ctx: Ctx, h: Store)
    requires EvalArgs(E, op, args, i, ctx, h).NormSeq?
    ensures AllComplete(args)
    decreases args, 0
  {
    if args != [] {
      var c := ArgCtx(E.contracts, op, i, ctx);
      CompletesSound(E, args[0], c, h);
      ArgsCompleteSound(E, op, args[1..], i + 1, ctx, Eval(E, args[0], c, h).h);
    }
  }

  lemma {:induction false} StmtsCompleteSound(E: Env, ss: seq<Stmt>, h: Store)
    requires EvalStmts(E, ss, h).Norm?
    ensures StmtsComplete(ss)
    decreases ss, 0
  {
    if ss != [] {
      StmtCompleteSound(E, ss[0], h);
      StmtsCompleteSound(E, ss[1..], EvalStmt(E, ss[0], h).h);
    }
  }

  lemma {:induction false} StmtCompleteSound(E: Env, s: Stmt, h: Store)
    requires EvalStmt(E, s, h).Norm?
    ensures StmtCompletes(s)
    decreases s, 1
  {
    match s
    case Let(_, init) =>
      if init.Some? {
        CompletesSound(E, init.value, MoveCtx, h);
      }
    case Assign(_, _, e) => CompletesSound(E, e, MoveCtx, h);
    case ExprStmt(e) => CompletesSound(E, e, MoveCtx, h);
    case Return(_) =>
  }

  // ---------- scoping ----------

  /** Every binding is used inside its scope, and no declaration reuses a binding in scope. */
  predicate Scoped(e: Expr, sc: set<Sym>)
    decreases e, 1
  {
    match e
    case Lit(_) => true
    case Poison => true
    case Var(s) => s in sc
    case Field(b, _, _) => Scoped(b, sc)
    case Prim(_, args) => ScopedAll(args, sc)
    case Logic(_, l, r) => Scoped(l, sc) && Scoped(r, sc)
    case If(c, t, f, _) => Scoped(c, sc) && Scoped(t, sc) && ScopedOpt(f, sc)
    case Block(stmts, tail) => ScopedStmts(stmts, sc) && ScopedOpt(tail, ScopeAfter(stmts, sc))
    case Match(s, arms, _) => Scoped(s, sc) && ScopedArms(arms, sc)
    case ForRange(x, lo, hi, body) => ScopedOpt(lo, sc) && ScopedOpt(hi, sc) && x !in sc && Scoped(body, sc + {x})
    case ForEach(x, iter, body) => Scoped(iter, sc) && x !in sc && Scoped(body, sc + {x})
  }

  predicate ScopedOpt(o: Option<Expr>, sc: set<Sym>)
    decreases o, 2
  {
    o.Some? ==> Scoped(o.value, sc)
  }

  predicate ScopedAll(es: seq<Expr>, sc: set<Sym>)
    decreases es, 0
  {
    es == [] || (Scoped(es[0], sc) && ScopedAll(es[1..], sc))
  }

  predicate ScopedArms(arms: seq<Arm>, sc: set<Sym>)
    decreases arms, 0
  {
    arms == [] || (ScopedArm(arms[0], sc) && ScopedArms(arms[1..], sc))
  }

  predicate ScopedArm(arm: Arm, sc: set<Sym>)
    decreases arm, 2
  {
    PatSyms(arm.pat) !! sc && Scoped(arm.body, sc + PatSyms(arm.pat))
  }

  function DeclaredBy(s: Stmt): set<Sym> {
    if s.Let? then {s.sym} else {}
  }

  function ScopeAfter(ss: seq<Stmt>, sc: set<Sym>): (r: set<Sym>)
    ensures sc <= r
  {
    if ss == [] then sc else ScopeAfter(ss[1..], sc + DeclaredBy(ss[0]))
  }

  predicate ScopedStmts(ss: seq<Stmt>, sc: set<Sym>)
    decreases ss, 0
  {
    ss == [] || (ScopedStmt(ss[0], sc) && ScopedStmts(ss[1..], sc + DeclaredBy(ss[0])))
  }

  predicate ScopedStmt(s: Stmt, sc: set<Sym>)
    decreases s, 1
  {
    match s
    case Let(x, init) => x !in sc && ScopedOpt(init, sc)
    case Assign(x, _, e) => x in sc && Scoped(e, sc)
    case ExprStmt(e) => Scoped(e, sc)
    case Return(o) => ScopedOpt(o, sc)
  }

  // ---------- what the abstract state promises ----------

  /** A binding called ready holds a value; one called fresh was never written. */
  predicate Covers(st: States, h: Store, sc: set<Sym>) {
    forall s <- sc :: s in st && (st[s] == READY ==> IsLive(h, s)) && (st[s] == FRESH ==> s !in h)
  }

  predicate LoansLive(loans: seq<Loan>, h: Store, sc: set<Sym>) {
    forall l <- loans :: l.place.base in sc && IsLive(h, l.place.base)
  }

  predicate Follows(R: Rules, E: Env) {
    E.strict && E.copies == R.copies && E.muts == R.muts && E.contracts == R.contracts
  }

  /** `r` was accepted as a continuation of `W`. */
  predicate Clean(W: Walk, r: Walk) {
    |r.diags| == |W.diags| && r.steady
  }

  predicate Safe(W: Walk, h: Store, sc: set<Sym>) {
    Covers(W.state, h, sc) && LoansLive(W.loans, h, sc)
  }

  lemma CoversKeys(st: States, h: Store, sc: set<Sym>)
    requires Covers(st, h, sc)
    ensures sc <= st.Keys
  {
  }

  lemma MergeCovers(a: States, b: States, h: Store, sc: set<Sym>)
    requires sc <= a.Keys && sc <= b.Keys && (Covers(a, h, sc) || Covers(b, h, sc))
    ensures Covers(Merge(a, b), h, sc)
  {
  }

  lemma UseVarSafe(R: Rules, E: Env, s: Sym, ctx: Ctx, W: Walk, h: Store, sc: set<Sym>)
    requires Follows(R, E) && Safe(W, h, sc) && s in sc
    requires ctx.MoveCtx? && s !in R.copies ==> !Loaned(W.loans, Path(s, []))
    requires Clean(W, UseVar(R, s, ctx, W))
    ensures var o := ReadVar(E, s, ctx, h); o.Norm? && Safe(UseVar(R, s, ctx, W), o.h, sc)
  {
    assert StateOf(W.state, s) == READY;
    var g := ReadVar(E, s, ctx, h).h;
    forall l <- W.loans
      ensures IsLive(g, l.place.base)
    {
      assert l.place.base == s ==> Overlaps(l.place, Path(s, []));
    }
  }

  lemma WriteSafe(R: Rules, E: Env, x: Sym, path: seq<nat>, v: Value, W: Walk, h: Store, sc: set<Sym>)
    requires Follows(R, E) && Safe(W, h, sc) && x in sc
    requires Clean(W, AssignPlace(R, x, path, W))
    ensures var o := Write(E, x, path, v, h);
      !o.Misuse? && (o.Norm? ==> Safe(AssignPlace(R, x, path, W), o.h, sc))
  {
    if path == [] {
      RootWriteSafe(R, E, x, v, W, h, sc);
    } else {
      PathWriteSafe(R, E, x, path, v, W, h, sc);
    }
  }

  lemma RootWriteSafe(R: Rules, E: Env, x: Sym, v: Value, W: Walk, h: Store, sc: set<Sym>)
    requires Follows(R, E) && Safe(W, h, sc) && x in sc
    requires Clean(W, AssignPlace(R, x, [], W))
    ensures var o := Write(E, x, [], v, h);
      !o.Misuse? && (o.Norm? ==> Safe(AssignPlace(R, x, [], W), o.h, sc))
  {
    assert x in W.state;
  }

  lemma PathWriteSafe(R: Rules, E: Env, x: Sym, path: seq<nat>, v: Value, W: Walk, h: Store, sc: set<Sym>)
    requires Follows(R, E) && Safe(W, h, sc) && x in sc && path != []
    requires Clean(W, AssignPlace(R, x, path, W))
    ensures var o := Write(E, x, path, v, h);
      !o.Misuse? && (o.Norm? ==> Safe(AssignPlace(R, x, path, W), o.h, sc))
  {
    hide SetPath;
    assert StateOf(W.state, x) == READY;
  }

  // ---------- calls ----------

  /** Whether an argument in position `i` of a call is a borrowed place. */
  predicate Borrows(cs: Contracts, op: Op, i: nat, arg: Expr) {
    op.Call? && ContractAt(cs, op.def, i) in {Borrow, BorrowMut} && PlaceBase(arg).Some?
  }

  /** A borrowed place argument has its loan, and is `mut` where the callee may write. */
  predicate LoanFor(R: Rules, op: Op, i: nat, arg: Expr, loans: seq<Loan>) {
    Borrows(R.contracts, op, i, arg) ==>
      (exists l <- loans :: l.place.base == PlaceBase(arg).value) &&
      (ContractAt(R.contracts, op.def, i).BorrowMut? ==> PlaceBase(arg).value in R.muts)
  }

  predicate LoansFor(R: Rules, op: Op, args: seq<Expr>, i: nat, loans: seq<Loan>) {
    forall k: nat {:trigger args[k]} :: k < |args| ==> LoanFor(R, op, i + k, args[k], loans)
  }

  lemma {:induction false} LoansMakeLive(R: Rules, E: Env, op: Op, args: seq<Expr>, n: nat, loans: seq<Loan>, h: Store,
        sc: set<Sym>)
    requires Follows(R, E) && op.Call? && n <= |args| && LoansFor(R, op, args, 0, loans) && LoansLive(loans, h, sc)
    ensures BorrowsLive(E, op.def, args, n, h)
  {
    if n > 0 {
      LoansMakeLive(R, E, op, args, n - 1, loans, h, sc);
      assert LoanFor(R, op, 0 + (n - 1), args[n - 1], loans);
    }
  }

  lemma {:induction false} WriteBackLive(E: Env, def: Def, args: seq<Expr>, n: nat, outs: seq<Value>, h: Store)
    requires n <= |args|
    ensures var g := WriteBack(E, def, args, n, outs, h);
      g.Keys == h.Keys && forall s :: IsLive(h, s) ==> IsLive(g, s)
  {
    if n > 0 {
      WriteBackLive(E, def, args, n - 1, outs, h);
    }
  }

  lemma FinishSafe(R: Rules, E: Env, op: Op, args: seq<Expr>, vals: seq<Value>, W: Walk, loans: seq<Loan>, h: Store,
        sc: set<Sym>)
    requires Follows(R, E) && Safe(W, h, sc) && LoansFor(R, op, args, 0, W.loans)
    requires loans <= W.loans
    ensures var o := Finish(E, op, args, vals, h);
      !o.Misuse? && (o.Norm? ==> Safe(W.(loans := loans), o.h, sc))
  {
    assert forall l <- loans :: l in W.loans;
    if op.Call? {
      LoansMakeLive(R, E, op, args, |args|, W.loans, h, sc);
      var r := E.calls(op.def, vals);
      if r.CallDone? {
        WriteBackLive(E, op.def, args, |args|, r.outs, h);
      }
    }
  }

  lemma AfterArgSafe(R: Rules, op: Op, i: nat, arg: Expr, W: Walk, h: Store, sc: set<Sym>)
    requires Safe(W, h, sc) && Clean(W, AfterArg(R, op, i, arg, W))
    requires Borrows(R.contracts, op, i, arg) ==> PlaceBase(arg).value in sc && IsLive(h, PlaceBase(arg).value)
    ensures var r := AfterArg(R, op, i, arg, W);
      W.loans <= r.loans && Safe(r, h, sc) && LoanFor(R, op, i, arg, r.loans)
  {
    if Borrows(R.contracts, op, i, arg) {
      var p := PlaceOf(arg).value;
      var kind := if ContractAt(R.contracts, op.def, i).Borrow? then Shared else Mut;
      var r := AfterArg(R, op, i, arg, W);
      assert r.loans == W.loans + [Loan(p, kind)];
      assert r.loans[|W.loans|] == Loan(p, kind);
    }
  }

  lemma {:induction false} PlaceScoped(e: Expr, sc: set<Sym>)
    requires Scoped(e, sc) && PlaceBase(e).Some?
    ensures PlaceBase(e).value in sc
  {
    if e.Field? {
      PlaceScoped(e.base, sc);
    }
  }

  /** A place read without being moved still holds its value. */
  lemma {:induction false} PlaceStaysLive(E: Env, e: Expr, h: Store)
    requires PlaceBase(e).Some? && Eval(E, e, ReadCtx, h).Norm?
    ensures IsLive(Eval(E, e, ReadCtx, h).h, PlaceBase(e).value)
  {
    if e.Field? {
      PlaceStaysLive(E, e.base, h);
    }
  }

  // ---------- the walk ----------

  lemma BindSafe(p: Pat, v: Value, st: States, h: Store, sc: set<Sym>)
    requires v.VariantV? && BindArm(p, v, h).Some? && Covers(st, h, sc) && PatSyms(p) !! sc
    ensures Covers(BindStates(st, p), BindArm(p, v, h).value, sc + PatSyms(p))
    ensures forall s <- sc :: SameAt(h, BindArm(p, v, h).value, s)
  {
    if p.VariantPat? {
      BindAllSafe(p.binds, |p.binds|, v.payload, st, h, sc);
      assert p.binds[..|p.binds|] == p.binds;
    }
  }

  lemma {:induction false} BindAllSafe(binds: seq<Option<Sym>>, n: nat, payload: seq<Value>, st: States, h: Store,
        sc: set<Sym>)
    requires n <= |binds| && BindPayload(binds, n, payload, h).Some? && Covers(st, h, sc) && BindSet(binds) !! sc
    ensures Covers(BindAll(st, binds, n), BindPayload(binds, n, payload, h).value, sc + BindSet(binds[..n]))
    ensures forall s <- sc :: SameAt(h, BindPayload(binds, n, payload, h).value, s)
  {
    if n > 0 {
      BindAllSafe(binds, n - 1, payload, st, h, sc);
      assert binds[..n] == binds[..n - 1] + [binds[n - 1]];
      assert binds[n - 1] in binds;
      assert BindSet(binds[..n]) == BindSet(binds[..n - 1]) + OptSet(binds[n - 1]);
    } else {
      assert BindSet(binds[..0]) == {};
    }
  }

  /** What acceptance of an expression gives for every run of it. */
  ghost predicate SafeOut(W: Walk, r: Walk, o: Out, sc: set<Sym>) {
    !o.Misuse? && (o.Norm? ==> Safe(r, o.h, sc))
  }

  /** Main result: from a store the abstract state covers, an accepted expression never misuses
      a binding, and where it ends normally the abstract state covers the store again. */
  lemma {:induction false} CheckSafe(R: Rules, E: Env, e: Expr, ctx: Ctx, W: Walk, h: Store, sc: set<Sym>)
    requires Follows(R, E) && Scoped(e, sc) && Safe(W, h, sc)
    requires Clean(W, Check(R, e, ctx, W))
    ensures SafeOut(W, Check(R, e, ctx, W), Eval(E, e, ctx, h), sc)
    decreases e, 2, 0
  {
    hide Covers, LoansLive, EnterExpr, Loaned;
    var V := EnterExpr(R, e, ctx, W);
    EnterKeeps(R, e, ctx, W);
    match e
    case Lit(_) =>
    case Poison =>
    case Var(s) =>
      EnterVar(R, s, ctx, W);
      UseVarSafe(R, E, s, ctx, V, h, sc);
    case Field(b, _, copy) => CheckSafe(R, E, b, if copy then ReadCtx else ctx, V, h, sc);
    case Prim(_, _) => PrimSafe(R, E, e, ctx, V, h, sc);
    case Logic(isOr, l, r) => LogicSafe(R, E, e, ctx, V, h, sc);
    case If(_, _, _, _) => IfSafe(R, E, e, ctx, V, h, sc);
    case Block(_, _) => BlockSafe(R, E, e, ctx, V, h, sc);
    case Match(_, _, _) => MatchSafe(R, E, e, ctx, V, h, sc);
    case ForRange(_, _, _, _) => RangeSafe(R, E, e, V, h, sc);
    case ForEach(_, _, _) => EachLoopSafe(R, E, e, ctx, V, h, sc);
  }

  lemma {:induction false} PrimSafe(R: Rules, E: Env, e: Expr, ctx: Ctx, W: Walk, h: Store, sc: set<Sym>)
    requires Follows(R, E) && e.Prim? && Scoped(e, sc) && Safe(W, h, sc)
    requires Clean(W, Check(R, e, ctx, W))
    ensures SafeOut(W, Check(R, e, ctx, W), Eval(E, e, ctx, h), sc)
    decreases e, 1, 0
  {
    hide Covers, LoansLive, Finish;
    ArgsSafe(R, E, e.op, e.args, 0, ctx, W, h, sc);
    var o := EvalArgs(E, e.op, e.args, 0, ctx, h);
    if o.NormSeq? {
      FinishSafe(R, E, e.op, e.args, o.vals, CheckArgs(R, e.op, e.args, 0, ctx, W), W.loans, o.h, sc);
    }
  }

  lemma {:induction false} EachLoopSafe(R: Rules, E: Env, e: Expr, ctx: Ctx, W: Walk, h: Store, sc: set<Sym>)
    requires Follows(R, E) && e.ForEach? && Scoped(e, sc) && Safe(W, h, sc)
    requires Clean(W, Check(R, e, ctx, W))
    ensures SafeOut(W, Check(R, e, ctx, W), Eval(E, e, ctx, h), sc)
    decreases e, 1, 0
  {
    hide Covers, LoansLive, EachLoop, CheckLoop;
    CheckSafe(R, E, e.iter, ReadCtx, W, h, sc);
    var o := Eval(E, e.iter, ReadCtx, h);
    if o.Norm? && o.v.ArrayV? {
      var A := Check(R, e.iter, ReadCtx, W);
      LoopJoin(R, e.var_, e.body, A, o.h, sc);
      EachSafe(R, E, e.var_, e.body, o.v.elems, 0, LoopState(R, e.var_, e.body, A), o.h, sc);
      var p := EachLoop(E, e.var_, e.body, o.v.elems, 0, o.h);
      if p.Norm? {
        LoopEnds(R, e.var_, e.body, A, p.h, sc);
      }
    }
  }

  lemma EnterKeeps(R: Rules, e: Expr, ctx: Ctx, W: Walk)
    ensures var V := EnterExpr(R, e, ctx, W);
      V.state == W.state && V.loans == W.loans && V.steady == W.steady && |W.diags| <= |V.diags|
    ensures PlaceBase(e).None? ==> EnterExpr(R, e, ctx, W) == W
  {
  }

  lemma EnterVar(R: Rules, s: Sym, ctx: Ctx, W: Walk)
    requires |EnterExpr(R, Var(s), ctx, W).diags| == |W.diags|
    ensures ctx.MoveCtx? && s !in R.copies ==> !Loaned(W.loans, Path(s, []))
  {
  }

  /** Bindings declared inside a block are forgotten at its end. */
  lemma Narrow(loans: seq<Loan>, r: Walk, h: Store, g: Store, sc: set<Sym>, inner: set<Sym>)
    requires sc <= inner && LoansLive(loans, h, sc) && r.loans == loans && Safe(r, g, inner)
    ensures Safe(r, g, sc)
  {
  }

  lemma {:induction false} BlockSafe(R: Rules, E: Env, e: Expr, ctx: Ctx, W: Walk, h: Store, sc: set<Sym>)
    requires Follows(R, E) && e.Block? && Scoped(e, sc) && Safe(W, h, sc)
    requires Clean(W,
      (if e.tail.None? then CheckStmts(R, e.stmts, W) else Check(R, e.tail.value, ctx, CheckStmts(R, e.stmts, W))))
    ensures SafeOut(W,
      if e.tail.None? then CheckStmts(R, e.stmts, W) else Check(R, e.tail.value, ctx, CheckStmts(R, e.stmts, W)),
                    Eval(E, e, ctx, h), sc)
    decreases e, 1, 0
  {
    hide Covers, LoansLive;
    var A := CheckStmts(R, e.stmts, W);
    var inner := ScopeAfter(e.stmts, sc);
    StmtsSafe(R, E, e.stmts, W, h, sc);
    var o := EvalStmts(E, e.stmts, h);
    if o.Norm? {
      if e.tail.Some? {
        CheckSafe(R, E, e.tail.value, ctx, A, o.h, inner);
        var p := Eval(E, e.tail.value, ctx, o.h);
        if p.Norm? {
          Narrow(W.loans, Check(R, e.tail.value, ctx, A), h, p.h, sc, inner);
        }
      } else {
        Narrow(W.loans, A, h, o.h, sc, inner);
      }
    }
  }

  lemma {:induction false} RangeSafe(R: Rules, E: Env, e: Expr, W: Walk, h: Store, sc: set<Sym>)
    requires Follows(R, E) && e.ForRange? && Scoped(e, sc) && Safe(W, h, sc)
    requires Clean(W, CheckLoop(R, e.var_, e.body, CheckOpt(R, e.hi, CheckOpt(R, e.lo, W))))
    ensures SafeOut(W, CheckLoop(R, e.var_, e.body, CheckOpt(R, e.hi, CheckOpt(R, e.lo, W))), Eval(E, e, ReadCtx, h),
      sc)
    ensures Eval(E, e, ReadCtx, h) == Eval(E, e, MoveCtx, h)
    decreases e, 1, 0
  {
    hide Covers, LoansLive;
    var A := CheckOpt(R, e.lo, W);
    var B := CheckOpt(R, e.hi, A);
    OptSafe(R, E, e.lo, W, h, sc);
    var a := EvalBound(E, e.lo, h);
    if a.Norm? {
      OptSafe(R, E, e.hi, A, a.h, sc);
      var b := EvalBound(E, e.hi, a.h);
      if b.Norm? && a.v.IntV? && b.v.IntV? {
        LoopJoin(R, e.var_, e.body, B, b.h, sc);
        CountSafe(R, E, e.var_, e.body, a.v.i, b.v.i, LoopState(R, e.var_, e.body, B), b.h, sc);
        var p := CountLoop(E, e.var_, e.body, a.v.i, b.v.i, b.h);
        if p.Norm? {
          LoopEnds(R, e.var_, e.body, B, p.h, sc);
        }
      }
    }
  }

  lemma {:induction false} LogicSafe(R: Rules, E: Env, e: Expr, ctx: Ctx, W: Walk, h: Store, sc: set<Sym>)
    requires Follows(R, E) && e.Logic? && Scoped(e, sc) && Safe(W, h, sc)
    requires Clean(W, Check(R, e, ctx, W))
    ensures SafeOut(W, Check(R, e, ctx, W), Eval(E, e, ctx, h), sc)
    decreases e, 1, 0
  {
    hide Covers, LoansLive, Merge;
    var A := Check(R, e.lhs, ReadCtx, W);
    var B := Check(R, e.rhs, ReadCtx, A);
    CoversKeys(W.state, h, sc);
    CheckSafe(R, E, e.lhs, ReadCtx, W, h, sc);
    var o := Eval(E, e.lhs, ReadCtx, h);
    if o.Norm? {
      if o.v.BoolV? && o.v.b != e.isOr {
        CheckSafe(R, E, e.rhs, ReadCtx, A, o.h, sc);
        var p := Eval(E, e.rhs, ReadCtx, o.h);
        if p.Norm? {
          CompletesSound(E, e.rhs, ReadCtx, o.h);
          MergeCovers(A.state, B.state, p.h, sc);
        }
      } else {
        MergeCovers(A.state, B.state, o.h, sc);
      }
    }
  }

  lemma {:induction false} IfSafe(R: Rules, E: Env, e: Expr, ctx: Ctx, W: Walk, h: Store, sc: set<Sym>)
    requires Follows(R, E) && e.If? && Scoped(e, sc) && Safe(W, h, sc)
    requires Clean(W, CheckIf(R, e, ctx, W))
    ensures SafeOut(W, CheckIf(R, e, ctx, W), Eval(E, e, ctx, h), sc)
    decreases e, 1, 0
  {
    hide Covers, LoansLive, Merge, CanComplete;
    var A := Check(R, e.cond, ReadCtx, W);
    var B := Check(R, e.thn, ctx, A);
    var C := if e.els.None? then B.(state := A.state) else Check(R, e.els.value, ctx, B.(state := A.state));
    CoversKeys(W.state, h, sc);
    CheckSafe(R, E, e.cond, ReadCtx, W, h, sc);
    var o := Eval(E, e.cond, ReadCtx, h);
    if o.Norm? && o.v.BoolV? {
      if o.v.b {
        CheckSafe(R, E, e.thn, ctx, A, o.h, sc);
        var p := Eval(E, e.thn, ctx, o.h);
        if p.Norm? {
          CompletesSound(E, e.thn, ctx, o.h);
          MergeCovers(C.state, B.state, p.h, sc);
        }
      } else if e.els.Some? {
        CheckSafe(R, E, e.els.value, ctx, B.(state := A.state), o.h, sc);
        var p := Eval(E, e.els.value, ctx, o.h);
        if p.Norm? {
          CompletesSound(E, e.els.value, ctx, o.h);
          MergeCovers(C.state, B.state, p.h, sc);
        }
      } else {
        MergeCovers(C.state, B.state, o.h, sc);
      }
    }
  }

  lemma {:induction false} MatchSafe(R: Rules, E: Env, e: Expr, ctx: Ctx, W: Walk, h: Store, sc: set<Sym>)
    requires Follows(R, E) && e.Match? && Scoped(e, sc) && Safe(W, h, sc)
    requires Clean(W, Check(R, e, ctx, W))
    ensures SafeOut(W, Check(R, e, ctx, W), Eval(E, e, ctx, h), sc)
    decreases e, 1, 0
  {
    var A := Check(R, e.scrut, ReadCtx, W);
    CheckSafe(R, E, e.scrut, ReadCtx, W, h, sc);
    var o := Eval(E, e.scrut, ReadCtx, h);
    if o.Norm? && o.v.VariantV? && FindArm(e.arms, o.v.tag).Some? {
      ArmsSafe(R, E, e.arms, FindArm(e.arms, o.v.tag).value, o.v, ctx, A.state, None, A, o.h, sc);
    }
  }

  /** The arm taken contributes to the join, and later joins only weaken what it promises. */
  lemma {:induction false} ArmsSafe(R: Rules, E: Env, arms: seq<Arm>, k: nat, v: Value, ctx: Ctx, saved: States,
        joined: Option<States>, W: Walk, h: Store, sc: set<Sym>)
    requires Follows(R, E) && ScopedArms(arms, sc) && k < |arms| && v.VariantV?
    requires Covers(saved, h, sc) && LoansLive(W.loans, h, sc)
    requires joined.Some? ==> saved.Keys <= joined.value.Keys
    requires Clean(W, CheckArms(R, arms, ctx, saved, joined, W).1)
    ensures var g := BindArm(arms[k].pat, v, h);
      g.Some? ==>
        var p := Eval(E, arms[k].body, ctx, g.value);
        var j := CheckArms(R, arms, ctx, saved, joined, W).0;
        !p.Misuse? && (p.Norm? ==> j.Some? && Covers(j.value, p.h, sc) && LoansLive(W.loans, p.h, sc))
    decreases arms, 0, 0
  {
    var A := CheckArm(R, arms[0], ctx, W.(state := saved));
    var j := if !ArmCompletes(arms[0]) then joined
             else if joined.None? then Some(A.state)
             else Some(Merge(joined.value, A.state));
    if k > 0 {
      ArmsSafe(R, E, arms[1..], k - 1, v, ctx, saved, j, A, h, sc);
    } else {
      ArmSafe(R, E, arms[0], v, ctx, W.(state := saved), h, sc);
      var g := BindArm(arms[0].pat, v, h);
      if g.Some? {
        var p := Eval(E, arms[0].body, ctx, g.value);
        if p.Norm? {
          CompletesSound(E, arms[0].body, ctx, g.value);
          if joined.Some? {
            MergeCovers(joined.value, A.state, p.h, sc);
          }
          ArmsKeepCover(R, arms[1..], ctx, saved, j.value, A, p.h, sc);
        }
      }
    }
  }

  lemma {:induction false} ArmSafe(R: Rules, E: Env, arm: Arm, v: Value, ctx: Ctx, W: Walk, h: Store, sc: set<Sym>)
    requires Follows(R, E) && ScopedArm(arm, sc) && v.VariantV? && Safe(W, h, sc)
    requires Clean(W, CheckArm(R, arm, ctx, W))
    ensures var g := BindArm(arm.pat, v, h);
      g.Some? ==> SafeOut(W, CheckArm(R, arm, ctx, W), Eval(E, arm.body, ctx, g.value), sc)
    decreases arm, 3, 0
  {
    var g := BindArm(arm.pat, v, h);
    if g.Some? {
      BindSafe(arm.pat, v, W.state, h, sc);
      var inner := sc + PatSyms(arm.pat);
      var V := W.(state := BindStates(W.state, arm.pat));
      assert LoansLive(V.loans, g.value, inner);
      CheckSafe(R, E, arm.body, ctx, V, g.value, inner);
      var p := Eval(E, arm.body, ctx, g.value);
      if p.Norm? {
        LoansStay(W.loans, h, p.h, sc, inner);
      }
    }
  }

  lemma LoansStay(loans: seq<Loan>, h: Store, g: Store, sc: set<Sym>, inner: set<Sym>)
    requires LoansLive(loans, h, sc) && LoansLive(loans, g, inner)
    ensures LoansLive(loans, g, sc)
  {
  }

  lemma {:induction false} ArmsKeepCover(R: Rules, arms: seq<Arm>, ctx: Ctx, saved: States, joined: States, W: Walk,
        h: Store, sc: set<Sym>)
    requires saved.Keys <= joined.Keys && sc <= saved.Keys && Covers(joined, h, sc)
    ensures var j := CheckArms(R, arms, ctx, saved, Some(joined), W).0; j.Some? && Covers(j.value, h, sc)
    decreases arms, 0, 0
  {
    if arms != [] {
      var A := CheckArm(R, arms[0], ctx, W.(state := saved));
      var j := if ArmCompletes(arms[0]) then Merge(joined, A.state) else joined;
      if ArmCompletes(arms[0]) {
        MergeCovers(joined, A.state, h, sc);
      }
      ArmsKeepCover(R, arms[1..], ctx, saved, j, A, h, sc);
    }
  }

  lemma {:induction false} OptSafe(R: Rules, E: Env, o: Option<Expr>, W: Walk, h: Store, sc: set<Sym>)
    requires Follows(R, E) && ScopedOpt(o, sc) && Safe(W, h, sc)
    requires Clean(W, CheckOpt(R, o, W))
    ensures SafeOut(W, CheckOpt(R, o, W), EvalBound(E, o, h), sc)
    decreases o, 3, 0
  {
    if o.Some? {
      CheckSafe(R, E, o.value, ReadCtx, W, h, sc);
    }
  }

  lemma {:induction false} ArgsSafe(R: Rules, E: Env, op: Op, args: seq<Expr>, i: nat, ctx: Ctx, W: Walk, h: Store,
        sc: set<Sym>)
    requires Follows(R, E) && ScopedAll(args, sc) && Safe(W, h, sc)
    requires Clean(W, CheckArgs(R, op, args, i, ctx, W))
    ensures var r := CheckArgs(R, op, args, i, ctx, W);
      var o := EvalArgs(E, op, args, i, ctx, h);
      (o.Stop? ==> !o.o.Misuse?) && (o.NormSeq? ==> Safe(r, o.h, sc) && LoansFor(R, op, args, i, r.loans))
    decreases args, 0, 0
  {
    hide Covers, LoansLive, AfterArg, LoansFor, LoanFor;
    if args == [] {
      NoLoans(R, op, i, W.loans);
    } else {
      AfterArgGrows(R, op, i, args[0], Check(R, args[0], ArgCtx(E.contracts, op, i, ctx), W));
      var c := ArgCtx(E.contracts, op, i, ctx);
      var A := Check(R, args[0], c, W);
      var B := AfterArg(R, op, i, args[0], A);
      CheckSafe(R, E, args[0], c, W, h, sc);
      var o := Eval(E, args[0], c, h);
      if o.Norm? {
        if Borrows(R.contracts, op, i, args[0]) {
          PlaceScoped(args[0], sc);
          PlaceStaysLive(E, args[0], h);
        }
        AfterArgSafe(R, op, i, args[0], A, o.h, sc);
        ArgsSafe(R, E, op, args[1..], i + 1, ctx, B, o.h, sc);
        if EvalArgs(E, op, args[1..], i + 1, ctx, o.h).NormSeq? {
          LoansForCons(R, op, args, i, B.loans, CheckArgs(R, op, args, i, ctx, W).loans);
        }
      }
    }
  }

  lemma NoLoans(R: Rules, op: Op, i: nat, loans: seq<Loan>)
    ensures LoansFor(R, op, [], i, loans)
  {
  }

  lemma AfterArgGrows(R: Rules, op: Op, i: nat, arg: Expr, W: Walk)
    ensures var r := AfterArg(R, op, i, arg, W); |W.diags| <= |r.diags| && r.steady == W.steady && r.state == W.state
  {
  }

  lemma LoansForCons(R: Rules, op: Op, args: seq<Expr>, i: nat, mid: seq<Loan>, loans: seq<Loan>)
    requires args != [] && mid <= loans && LoanFor(R, op, i, args[0], mid) && LoansFor(R, op, args[1..], i + 1, loans)
    ensures LoansFor(R, op, args, i, loans)
  {
    forall k: nat | k < |args|
      ensures LoanFor(R, op, i + k, args[k], loans)
    {
      if k == 0 {
        assert forall l <- mid :: l in loans;
      } else {
        assert args[k] == args[1..][k - 1];
      }
    }
  }

  lemma {:induction false} StmtsSafe(R: Rules, E: Env, ss: seq<Stmt>, W: Walk, h: Store, sc: set<Sym>)
    requires Follows(R, E) && ScopedStmts(ss, sc) && Safe(W, h, sc)
    requires Clean(W, CheckStmts(R, ss, W))
    ensures SafeOut(W, CheckStmts(R, ss, W), EvalStmts(E, ss, h), ScopeAfter(ss, sc))
    decreases ss, 0, 0
  {
    if ss != [] {
      StmtSafe(R, E, ss[0], W, h, sc);
      var o := EvalStmt(E, ss[0], h);
      if o.Norm? {
        StmtsSafe(R, E, ss[1..], CheckStmt(R, ss[0], W), o.h, sc + DeclaredBy(ss[0]));
      }
    }
  }

  lemma {:induction false} StmtSafe(R: Rules, E: Env, s: Stmt, W: Walk, h: Store, sc: set<Sym>)
    requires Follows(R, E) && ScopedStmt(s, sc) && Safe(W, h, sc)
    requires Clean(W, CheckStmt(R, s, W))
    ensures SafeOut(W, CheckStmt(R, s, W), EvalStmt(E, s, h), sc + DeclaredBy(s))
    decreases s, 1, 0
  {
    hide Covers, LoansLive, Check, Eval;
    assert !s.Let? ==> sc + DeclaredBy(s) == sc;
    match s
    case Let(x, None) => DeclareSafe(R, E, x, W, h, sc);
    case Let(x, Some(e)) => LetSafe(R, E, x, e, W, h, sc);
    case Assign(x, path, e) => AssignSafe(R, E, x, path, e, W, h, sc);
    case ExprStmt(e) => CheckSafe(R, E, e, MoveCtx, W, h, sc);
    case Return(None) =>
    case Return(Some(e)) => CheckSafe(R, E, e, MoveCtx, W, h, sc);
  }

  lemma DeclareSafe(R: Rules, E: Env, x: Sym, W: Walk, h: Store, sc: set<Sym>)
    requires ScopedStmt(Let(x, None), sc) && Safe(W, h, sc)
    ensures SafeOut(W, CheckStmt(R, Let(x, None), W), EvalStmt(E, Let(x, None), h), sc + {x})
  {
  }

  lemma {:induction false} LetSafe(R: Rules, E: Env, x: Sym, e: Expr, W: Walk, h: Store, sc: set<Sym>)
    requires Follows(R, E) && ScopedStmt(Let(x, Some(e)), sc) && Safe(W, h, sc)
    requires Clean(W, CheckStmt(R, Let(x, Some(e)), W))
    ensures SafeOut(W, CheckStmt(R, Let(x, Some(e)), W), EvalStmt(E, Let(x, Some(e)), h), sc + {x})
    decreases e, 3, 0
  {
    CheckSafe(R, E, e, MoveCtx, W, h, sc);
    hide Check, Eval;
    var o := Eval(E, e, MoveCtx, h);
    if o.Norm? {
      EnterLoop(Check(R, e, MoveCtx, W), x, o.v, o.h, sc);
    }
  }

  lemma {:induction false} AssignSafe(R: Rules, E: Env, x: Sym, path: seq<nat>, e: Expr, W: Walk, h: Store,
        sc: set<Sym>)
    requires Follows(R, E) && ScopedStmt(Assign(x, path, e), sc) && Safe(W, h, sc)
    requires Clean(W, CheckStmt(R, Assign(x, path, e), W))
    ensures SafeOut(W, CheckStmt(R, Assign(x, path, e), W), EvalStmt(E, Assign(x, path, e), h), sc)
    decreases e, 3, 0
  {
    CheckSafe(R, E, e, MoveCtx, W, h, sc);
    hide Check, Eval, Write, Covers, LoansLive;
    var o := Eval(E, e, MoveCtx, h);
    if o.Norm? {
      AssignGrows(R, x, path, Check(R, e, MoveCtx, W));
      WriteSafe(R, E, x, path, o.v, Check(R, e, MoveCtx, W), o.h, sc);
    }
  }

  lemma AssignGrows(R: Rules, x: Sym, path: seq<nat>, W: Walk)
    ensures |W.diags| <= |AssignPlace(R, x, path, W).diags|
  {
  }

  // ---------- loops ----------

  /** One pass from a state that can be repeated leaves it valid for the next pass. */
  lemma {:induction false} BodySafe(R: Rules, E: Env, x: Sym, body: Expr, v: Value, W: Walk, h: Store, sc: set<Sym>)
    requires Follows(R, E) && x !in sc && Scoped(body, sc + {x}) && Safe(W, h, sc)
    requires Repeatable(R, x, body, W)
    ensures SafeOut(W, W, Eval(E, body, MoveCtx, h[x := Live(v)]), sc)
    decreases body, 3, 0
  {
    hide LoopSteady, Covers, LoansLive, Check, Eval;
    var V := SetState(W, x, READY);
    var A := Check(R, body, MoveCtx, V);
    EnterLoop(W, x, v, h, sc);
    CheckSafe(R, E, body, MoveCtx, V, h[x := Live(v)], sc + {x});
    var o := Eval(E, body, MoveCtx, h[x := Live(v)]);
    if o.Norm? {
      CoversKeys(W.state, h, sc);
      SteadyCovers(W.state, A.state, o.h, x, sc);
      LoansOuter(W.loans, h, o.h, x, sc);
    }
  }

  lemma LoansOuter(loans: seq<Loan>, h: Store, g: Store, x: Sym, sc: set<Sym>)
    requires LoansLive(loans, h, sc) && LoansLive(loans, g, sc + {x})
    ensures LoansLive(loans, g, sc)
  {
  }

  lemma EnterLoop(W: Walk, x: Sym, v: Value, h: Store, sc: set<Sym>)
    requires x !in sc && Safe(W, h, sc)
    ensures Safe(SetState(W, x, READY), h[x := Live(v)], sc + {x})
  {
  }

  lemma SteadyCovers(before: States, after: States, h: Store, x: Sym, sc: set<Sym>)
    requires x !in sc && sc <= before.Keys && LoopSteady(before - {x}, after - {x}) && Covers(after, h, sc + {x})
    ensures Covers(before, h, sc)
  {
    forall s <- sc
      ensures (before[s] == READY ==> IsLive(h, s)) && (before[s] == FRESH ==> s !in h)
    {
      assert s in before - {x} && AsDefinite((after - {x})[s], before[s]);
    }
  }

  lemma {:induction false} CountSafe(R: Rules, E: Env, x: Sym, body: Expr, i: int, n: int, W: Walk, h: Store,
        sc: set<Sym>)
    requires Follows(R, E) && x !in sc && Scoped(body, sc + {x}) && Safe(W, h, sc)
    requires Repeatable(R, x, body, W)
    ensures SafeOut(W, W, CountLoop(E, x, body, i, n, h), sc)
    decreases body, 4, n - i
  {
    hide Repeatable, Check, Eval, Covers, LoansLive;
    if i < n {
      BodySafe(R, E, x, body, IntV(i), W, h, sc);
      var o := Eval(E, body, MoveCtx, h[x := Live(IntV(i))]);
      if o.Norm? {
        CountSafe(R, E, x, body, i + 1, n, W, o.h, sc);
      }
    } else {
      LeaveLoop(W, h, x, sc);
    }
  }

  lemma {:induction false} EachSafe(R: Rules, E: Env, x: Sym, body: Expr, elems: seq<Value>, i: nat, W: Walk, h: Store,
        sc: set<Sym>)
    requires Follows(R, E) && x !in sc && Scoped(body, sc + {x}) && Safe(W, h, sc)
    requires Repeatable(R, x, body, W)
    ensures SafeOut(W, W, EachLoop(E, x, body, elems, i, h), sc)
    decreases body, 4, |elems| - i
  {
    hide Repeatable, Check, Eval, Covers, LoansLive;
    if i < |elems| {
      BodySafe(R, E, x, body, elems[i], W, h, sc);
      var o := Eval(E, body, MoveCtx, h[x := Live(elems[i])]);
      if o.Norm? {
        EachSafe(R, E, x, body, elems, i + 1, W, o.h, sc);
      }
    } else {
      LeaveLoop(W, h, x, sc);
    }
  }

  lemma LeaveLoop(W: Walk, h: Store, x: Sym, sc: set<Sym>)
    requires x !in sc && Safe(W, h, sc)
    ensures Safe(W, h - {x}, sc)
  {
  }

  /** The state a steady loop can be repeated from: the one before it, or the joined one. */
  function LoopState(R: Rules, x: Sym, body: Expr, W: Walk): (V: Walk)
    ensures CheckLoop(R, x, body, W).steady ==> Repeatable(R, x, body, V)
  {
    hide Repeatable, Check, Merge;
    var A := Check(R, body, MoveCtx, SetState(W, x, READY));
    if Repeatable(R, x, body, W) then W else A.(state := Merge(A.state - {x}, W.state))
  }

  /** Joining with the state after the body only weakens the state before the loop. */
  lemma LoopJoin(R: Rules, x: Sym, body: Expr, W: Walk, h: Store, sc: set<Sym>)
    requires x !in sc && Safe(W, h, sc)
    ensures Safe(CheckLoop(R, x, body, W), h, sc) && Safe(LoopState(R, x, body, W), h, sc)
  {
    hide Merge, Check, Covers, Repeatable;
    var A := Check(R, body, MoveCtx, SetState(W, x, READY));
    CoversKeys(W.state, h, sc);
    MergeCovers(A.state - {x}, W.state, h, sc);
  }

  /** Where the loop ends, the walk's state covers the store. */
  lemma LoopEnds(R: Rules, x: Sym, body: Expr, W: Walk, h: Store, sc: set<Sym>)
    requires x !in sc && Safe(LoopState(R, x, body, W), h, sc)
    ensures Safe(CheckLoop(R, x, body, W), h, sc)
  {
    hide Merge, Check, Covers, Repeatable;
    if Repeatable(R, x, body, W) {
      LoopJoin(R, x, body, W, h, sc);
    }
  }

  // ---------- whole bodies ----------

  /** A body the walk accepts, parameters bound to any arguments, never misuses a binding. */
  lemma {:induction false} BodyNeverMisuses(R: Rules, E: Env, params: seq<Sym>, root: Expr, h: Store)
    requires Follows(R, E) && Scoped(root, set s | s in params)
    requires forall s <- params :: IsLive(h, s)
    requires CheckBody(R, params, root).diags == [] && CheckBody(R, params, root).steady
    ensures !Eval(E, root, MoveCtx, h).Misuse?
  {
    var W := Walk(ParamStates(params), [], [], true);
    CheckSafe(R, E, root, MoveCtx, W, h, set s | s in params);
  }
}
