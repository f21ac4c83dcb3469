/** One slot per binding. The lowering gives a loop variable a new slot unconditionally, so
    slots are unique exactly because no binding is declared by two loops or used before its
    loop; that is a property of the tree, stated here. */
module LowerSlots {
  import opened Wrappers
  import opened Hir
  import opened Effects
  import opened Mir
  import opened Lower
  import opened LowerTarget
  import opened LowerTheorem

  // ---------- bindings of a tree ----------

  /** Every binding a tree mentions or declares. */
  function Syms(e: Expr): set<Sym>
    decreases e, 1
  {
    match e
    case Lit(_) => {}
    case Poison => {}
    case Var(s) => {s}
    case Field(b, _, _) => Syms(b)
    case Prim(_, args) => SymsAll(args)
    case Logic(_, l, r) => Syms(l) + Syms(r)
    case If(c, t, f, _) => Syms(c) + Syms(t) + SymsOpt(f)
    case Block(stmts, tail) => SymsStmts(stmts) + SymsOpt(tail)
    case Match(s, arms, _) => Syms(s) + SymsArms(arms)
    case ForRange(x, lo, hi, body) => {x} + SymsOpt(lo) + SymsOpt(hi) + Syms(body)
    case ForEach(x, iter, body) => {x} + Syms(iter) + Syms(body)
  }

  function SymsOpt(o: Option<Expr>): set<Sym>
    decreases o, 2
  {
    if o.None? then {} else Syms(o.value)
  }

  function SymsAll(es: seq<Expr>): set<Sym>
    decreases es, 0
  {
    if es == [] then {} else Syms(es[0]) + SymsAll(es[1..])
  }

  function SymsArms(arms: seq<Arm>): set<Sym>
    decreases arms, 0
  {
    if arms == [] then {} else SymsArm(arms[0]) + SymsArms(arms[1..])
  }

  function SymsArm(arm: Arm): set<Sym>
    decreases arm, 2
  {
    PatSyms(arm.pat) + Syms(arm.body)
  }

  function SymsStmts(ss: seq<Stmt>): set<Sym>
    decreases ss, 0
  {
    if ss == [] then {} else SymsStmt(ss[0]) + SymsStmts(ss[1..])
  }

  function SymsStmt(s: Stmt): set<Sym>
    decreases s, 1
  {
    match s
    case Let(x, init) => {x} + SymsOpt(init)
    case Assign(x, _, e) => {x} + Syms(e)
    case ExprStmt(e) => Syms(e)
    case Return(o) => SymsOpt(o)
  }

  /** No loop variable is among the bindings `U` that occur before its loop. */
  predicate Once(e: Expr, U: set<Sym>)
    decreases e, 1
  {
    match e
    case Field(b, _, _) => Once(b, U)
    case Prim(_, args) => OnceAll(args, U)
    case Logic(_, l, r) => Once(l, U) && Once(r, U + Syms(l))
    case If(c, t, f, _) => Once(c, U) && Once(t, U + Syms(c)) && OnceOpt(f, U + Syms(c) + Syms(t))
    case Block(stmts, tail) => OnceStmts(stmts, U) && OnceOpt(tail, U + SymsStmts(stmts))
    case Match(s, arms, _) => Once(s, U) && OnceArms(arms, U + Syms(s))
    case ForRange(x, lo, hi, body) =>
      x !in U && OnceOpt(lo, U + {x}) && OnceOpt(hi, U + {x} + SymsOpt(lo)) &&
      Once(body, U + {x} + SymsOpt(lo) + SymsOpt(hi))
    case ForEach(x, iter, body) => x !in U && Once(iter, U + {x}) && Once(body, U + {x} + Syms(iter))
    case _ => true
  }

  predicate OnceOpt(o: Option<Expr>, U: set<Sym>)
    decreases o, 2
  {
    o.Some? ==> Once(o.value, U)
  }

  predicate OnceAll(es: seq<Expr>, U: set<Sym>)
    decreases es, 0
  {
    es == [] || (Once(es[0], U) && OnceAll(es[1..], U + Syms(es[0])))
  }

  predicate OnceArms(arms: seq<Arm>, U: set<Sym>)
    decreases arms, 0
  {
    arms == [] || (OnceArm(arms[0], U) && OnceArms(arms[1..], U + SymsArm(arms[0])))
  }

  predicate OnceArm(arm: Arm, U: set<Sym>)
    decreases arm, 2
  {
    Once(arm.body, U + PatSyms(arm.pat))
  }

  predicate OnceStmts(ss: seq<Stmt>, U: set<Sym>)
    decreases ss, 0
  {
    ss == [] || (OnceStmt(ss[0], U) && OnceStmts(ss[1..], U + SymsStmt(ss[0])))
  }

  predicate OnceStmt(s: Stmt, U: set<Sym>)
    decreases s, 1
  {
    match s
    case Let(x, init) => OnceOpt(init, U + {x})
    case Assign(_, _, e) => Once(e, U)
    case ExprStmt(e) => Once(e, U)
    case Return(o) => OnceOpt(o, U)
  }

  // ---------- slots ----------

  /** Slots are unique and belong to bindings of `U`. */
  ghost predicate Slots(L: Builder, U: set<Sym>) {
    Distinct(L.locals) && forall i {:trigger L.locals[i]} ::
      0 <= i < |L.locals| && L.locals[i].Some? ==> L.locals[i].value in U
  }

  lemma SlotsMore(L: Builder, U: set<Sym>, V: set<Sym>)
    requires Slots(L, U) && U <= V
    ensures Slots(L, V)
  {
  }

  lemma AllocSlots(L: Builder, s: Option<Sym>, U: set<Sym>)
    requires Slots(L, U) && (s.Some? ==> s.value !in U)
    ensures Slots(Alloc(L, s), U + OptSet(s))
  {
  }

  lemma LocalForSlots(L: Builder, s: Sym, U: set<Sym>)
    requires Slots(L, U)
    ensures Slots(LocalFor(L, s).0, U + {s})
  {
  }

  /** The step allocates nothing. */
  ghost predicate SameLocals(L: Builder, M: Builder) {
    M.locals == L.locals
  }

  lemma SameSlots(L: Builder, M: Builder, U: set<Sym>)
    requires Slots(L, U) && SameLocals(L, M)
    ensures Slots(M, U)
  {
  }

  lemma EmitTempSlots(L: Builder, rv: Rvalue, U: set<Sym>)
    requires InRange(L) && Slots(L, U)
    ensures Slots(EmitTemp(L, rv).0, U)
  {
    AllocSlots(L, None, U);
    assert U + OptSet(None) == U;
    SameSlots(Alloc(L, None), EmitTemp(L, rv).0, U);
  }

  lemma ResultSlots(L: Builder, unit: bool, U: set<Sym>)
    requires Slots(L, U)
    ensures Slots(ResultSlot(L, unit).0, U)
  {
    AllocSlots(L, None, U);
    assert U + OptSet(None) == U;
  }

  lemma LogicForkSlots(L: Builder, c: Operand, isOr: bool, U: set<Sym>)
    requires InRange(L) && Slots(L, U)
    ensures Slots(LogicFork(L, c, isOr), U)
  {
    AllocSlots(L, None, U);
    assert U + OptSet(None) == U;
    SameSlots(Alloc(L, None), LogicFork(L, c, isOr), U);
  }

  lemma LoopHeadSlots(L: Builder, counter: nat, limit: Operand, U: set<Sym>)
    requires InRange(L) && Slots(L, U)
    ensures Slots(LoopHead(L, counter, limit), U)
  {
    var head := |L.blocks|;
    var A := Fork(L, 3, Goto(head), head);
    SameSlots(L, A, U);
    EmitTempSlots(A, Compute(Bin(Lt), [Place(counter, []), limit], []), U);
    SameSlots(EmitTemp(A, Compute(Bin(Lt), [Place(counter, []), limit], [])).0, LoopHead(L, counter, limit), U);
  }

  lemma {:induction false} BindsSlots(binds: seq<Option<Sym>>, n: nat, scrut: Operand, L: Builder, U: set<Sym>)
    requires InRange(L) && n <= |binds| && Slots(L, U) && BindSet(binds) <= U
    ensures Slots(LowerBinds(binds, n, scrut, L), U)
    decreases n
  {
    hide Slots;
    if n > 0 {
      BindsSlots(binds, n - 1, scrut, L, U);
      var A := LowerBinds(binds, n - 1, scrut, L);
      if binds[n - 1].Some? {
        var s := binds[n - 1].value;
        assert binds[n - 1] in binds && s in BindSet(binds) && U + {s} == U;
        LocalForSlots(A, s, U);
        var (B, l) := LocalFor(A, s);
        SameSlots(B, LowerBinds(binds, n, scrut, L), U);
      } else {
        SameSlots(A, LowerBinds(binds, n, scrut, L), U);
      }
    }
  }

  lemma PatSlots(p: Pat, scrut: Operand, L: Builder, U: set<Sym>)
    requires InRange(L) && Slots(L, U)
    ensures Slots(LowerPat(p, scrut, L), U + PatSyms(p))
  {
    hide Slots;
    var V := U + PatSyms(p);
    SlotsMore(L, U, V);
    if p.VariantPat? {
      BindsSlots(p.binds, |p.binds|, scrut, L, V);
    } else if p.BindPat? && p.sym.Some? {
      LocalForSlots(L, p.sym.value, U);
      SameSlots(LocalFor(L, p.sym.value).0, LowerPat(p, scrut, L), V);
    }
  }

  // ---------- expressions ----------

  lemma {:induction false} ExprSlots(cs: Contracts, e: Expr, L: Builder, U: set<Sym>)
    requires InRange(L) && Slots(L, U) && Once(e, U)
    ensures Slots(LowerExpr(cs, e, L).0, U + Syms(e))
    decreases e, 4
  {
    hide Slots, EmitTemp;
    match e
    case Lit(_) => SlotsMore(L, U, U + Syms(e));
    case Poison => SlotsMore(L, U, U + Syms(e));
    case Var(_) => PlaceSlots(cs, e, L, U);
    case Field(_, _, _) => PlaceSlots(cs, e, L, U);
    case Prim(op, args) =>
      AllSlots(cs, args, L, U);
      var (A, ops) := LowerAll(cs, args, L);
      EmitTempSlots(A, Compute(op, ops, ContractList(cs, op)), U + Syms(e));
    case Logic(_, _, _) => LogicSlots(cs, e, L, U);
    case If(_, _, _, _) => IfSlots(cs, e, L, U);
    case Block(stmts, tail) =>
      StmtsSlots(cs, stmts, L, U);
      if tail.Some? {
        ExprSlots(cs, tail.value, LowerStmts(cs, stmts, L), U + SymsStmts(stmts));
        assert U + SymsStmts(stmts) + Syms(tail.value) == U + Syms(e);
      } else {
        assert U + SymsStmts(stmts) == U + Syms(e);
      }
    case Match(_, _, _) => MatchSlots(cs, e, L, U);
    case ForRange(_, _, _, _) => RangeSlots(cs, e, L, U);
    case ForEach(_, _, _) => EachSlots(cs, e, L, U);
  }

  lemma {:induction false} PlaceSlots(cs: Contracts, e: Expr, L: Builder, U: set<Sym>)
    requires InRange(L) && Slots(L, U) && Once(e, U)
    ensures Slots(LowerPlace(cs, e, L).0, U + Syms(e))
    decreases e, if e.Var? || e.Field? then 3 else 5
  {
    hide Slots, EmitTemp, LocalFor;
    if e.Var? {
      LocalForSlots(L, e.sym, U);
    } else if e.Field? {
      PlaceSlots(cs, e.base, L, U);
    } else {
      ExprSlots(cs, e, L, U);
      var (A, o) := LowerExpr(cs, e, L);
      if o.Const? {
        EmitTempSlots(A, Use(o), U + Syms(e));
      }
    }
  }

  lemma {:induction false} AllSlots(cs: Contracts, args: seq<Expr>, L: Builder, U: set<Sym>)
    requires InRange(L) && Slots(L, U) && OnceAll(args, U)
    ensures Slots(LowerAll(cs, args, L).0, U + SymsAll(args))
    decreases args, 0
  {
    hide Slots;
    if args == [] {
      assert U + SymsAll(args) == U;
    } else {
      ExprSlots(cs, args[0], L, U);
      AllSlots(cs, args[1..], LowerExpr(cs, args[0], L).0, U + Syms(args[0]));
      assert U + Syms(args[0]) + SymsAll(args[1..]) == U + SymsAll(args);
    }
  }

  lemma {:induction false} LogicSlots(cs: Contracts, e: Expr, L: Builder, U: set<Sym>)
    requires InRange(L) && e.Logic? && Slots(L, U) && Once(e, U)
    ensures Slots(LowerLogic(cs, e, L).0, U + Syms(e))
    decreases e, 3
  {
    hide Slots, LogicFork;
    ExprSlots(cs, e.lhs, L, U);
    var (A, c) := LowerExpr(cs, e.lhs, L);
    LogicForkSlots(A, c, e.isOr, U + Syms(e.lhs));
    LogicForkInRange(A, c, e.isOr);
    var F := LogicFork(A, c, e.isOr);
    ExprSlots(cs, e.rhs, F, U + Syms(e.lhs));
    var (B, v) := LowerExpr(cs, e.rhs, F);
    assert U + Syms(e.lhs) + Syms(e.rhs) == U + Syms(e);
    SameSlots(B, LogicTail(B, |A.locals|, v, |A.blocks|, e.isOr), U + Syms(e));
  }

  lemma LogicForkInRange(L: Builder, c: Operand, isOr: bool)
    requires InRange(L)
    ensures InRange(LogicFork(L, c, isOr)) && |L.blocks| + 3 <= |LogicFork(L, c, isOr).blocks|
  {
  }

  lemma {:induction false} BranchSlots(cs: Contracts, e: Expr, result: Option<nat>, join: nat, L: Builder, U: set<Sym>)
    requires InRange(L) && Slots(L, U) && Once(e, U)
    ensures Slots(LowerBranch(cs, e, result, join, L), U + Syms(e))
    decreases e, 5
  {
    hide Slots;
    ExprSlots(cs, e, L, U);
    var (A, v) := LowerExpr(cs, e, L);
    SameSlots(A, EndArm(A, result, v, join), U + Syms(e));
  }

  lemma ForkSame(L: Builder, n: nat, t: Term, enter: nat)
    requires InRange(L) && enter < |L.blocks| + n
    ensures var M := Fork(L, n, t, enter); SameLocals(L, M) && InRange(M) && |L.blocks| + n <= |M.blocks|
  {
  }

  lemma {:induction false} IfSlots(cs: Contracts, e: Expr, L: Builder, U: set<Sym>)
    requires InRange(L) && e.If? && Slots(L, U) && Once(e, U)
    ensures Slots(LowerIf(cs, e, L).0, U + Syms(e))
    decreases e, 3
  {
    hide Slots, Fork, LowerBranch;
    ExprSlots(cs, e.cond, L, U);
    var (A, c) := LowerExpr(cs, e.cond, L);
    var V := U + Syms(e.cond);
    ResultSlots(A, e.unit, V);
    var (B, result) := ResultSlot(A, e.unit);
    var first := |B.blocks|;
    var n := if e.els.None? then 2 else 3;
    var join := first + n - 1;
    ForkSame(B, n, Branch(c, first, first + 1), first);
    var F := Fork(B, n, Branch(c, first, first + 1), first);
    SameSlots(B, F, V);
    BranchSlots(cs, e.thn, result, join, F, V);
    var C := LowerBranch(cs, e.thn, result, join, F);
    var W := V + Syms(e.thn);
    if e.els.None? {
      assert W == U + Syms(e);
      SameSlots(C, Enter(C, join), W);
    } else {
      var D := Enter(C, first + 1);
      SameSlots(C, D, W);
      BranchSlots(cs, e.els.value, result, join, D, W);
      assert W + Syms(e.els.value) == U + Syms(e);
      var G := LowerBranch(cs, e.els.value, result, join, D);
      SameSlots(G, Enter(G, join), U + Syms(e));
    }
  }

  lemma {:induction false} ArmsSlots(cs: Contracts, arms: seq<Arm>, bb: nat, s: Operand, result: Option<nat>, join: nat,
        L: Builder, U: set<Sym>)
    requires InRange(L) && bb + |arms| <= |L.blocks| && Slots(L, U) && OnceArms(arms, U)
    ensures Slots(LowerArms(cs, arms, bb, s, result, join, L), U + SymsArms(arms))
    decreases arms, 0
  {
    hide Slots, LowerArm;
    if arms == [] {
      assert U + SymsArms(arms) == U;
    } else {
      SameSlots(L, Enter(L, bb), U);
      ArmSlots(cs, arms[0], s, result, join, Enter(L, bb), U);
      ArmsSlots(cs, arms[1..], bb + 1, s, result, join, LowerArm(cs, arms[0], s, result, join, Enter(L, bb)),
        U + SymsArm(arms[0]));
      assert U + SymsArm(arms[0]) + SymsArms(arms[1..]) == U + SymsArms(arms);
    }
  }

  lemma {:induction false} ArmSlots(cs: Contracts, arm: Arm, s: Operand, result: Option<nat>, join: nat, L: Builder,
        U: set<Sym>)
    requires InRange(L) && Slots(L, U) && OnceArm(arm, U)
    ensures Slots(LowerArm(cs, arm, s, result, join, L), U + SymsArm(arm))
    decreases arm, 6
  {
    hide Slots, LowerPat, LowerBranch;
    PatSlots(arm.pat, s, L, U);
    BranchSlots(cs, arm.body, result, join, LowerPat(arm.pat, s, L), U + PatSyms(arm.pat));
    assert U + PatSyms(arm.pat) + Syms(arm.body) == U + SymsArm(arm);
  }

  lemma {:induction false} MatchSlots(cs: Contracts, e: Expr, L: Builder, U: set<Sym>)
    requires InRange(L) && e.Match? && Slots(L, U) && Once(e, U)
    ensures Slots(LowerMatch(cs, e, L).0, U + Syms(e))
    decreases e, 3
  {
    hide Slots, LowerArms;
    ExprSlots(cs, e.scrut, L, U);
    var (A, o) := LowerExpr(cs, e.scrut, L);
    var V := U + Syms(e.scrut);
    ResultSlots(A, e.unit, V);
    var (B, result) := ResultSlot(A, e.unit);
    var join := |B.blocks|;
    var F := MatchFork(B, o, e.arms);
    SameSlots(B, F, V);
    ArmsSlots(cs, e.arms, join + 1, o, result, join, F, V);
    assert V + SymsArms(e.arms) == U + Syms(e);
    var C := LowerArms(cs, e.arms, join + 1, o, result, join, F);
    SameSlots(C, Enter(C, join), U + Syms(e));
  }

  lemma {:induction false} BoundSlots(cs: Contracts, bound: Option<Expr>, L: Builder, U: set<Sym>)
    requires InRange(L) && Slots(L, U) && OnceOpt(bound, U)
    ensures Slots(LowerBound(cs, bound, L).0, U + SymsOpt(bound))
    decreases bound, 5
  {
    hide Slots, EmitTemp;
    if bound.None? {
      assert U + SymsOpt(bound) == U;
      EmitTempSlots(L, Use(Const(IntV(0))), U);
    } else {
      ExprSlots(cs, bound.value, L, U);
      var (A, o) := LowerExpr(cs, bound.value, L);
      EmitTempSlots(A, Use(o), U + SymsOpt(bound));
    }
  }

  lemma {:induction false} RangeSlots(cs: Contracts, e: Expr, L: Builder, U: set<Sym>)
    requires InRange(L) && e.ForRange? && Slots(L, U) && Once(e, U)
    ensures Slots(LowerRange(cs, e, L), U + Syms(e))
    decreases e, 3
  {
    hide Slots, LowerLoop, LowerBound, Emit;
    var V0 := Alloc(L, Some(e.var_));
    var U0 := U + {e.var_};
    AllocSlots(L, Some(e.var_), U);
    BoundSlots(cs, e.lo, V0, U0);
    var (A, lo) := LowerBound(cs, e.lo, V0);
    BoundSlots(cs, e.hi, A, U0 + SymsOpt(e.lo));
    var (B, hi) := LowerBound(cs, e.hi, A);
    var U1 := U0 + SymsOpt(e.lo) + SymsOpt(e.hi);
    var s := Set(|L.locals|, [], Use(lo));
    EmitSame(B, s);
    SameSlots(B, Emit(B, s), U1);
    LoopSlots(cs, e.body, |L.locals|, hi, None, |L.locals|, Emit(B, s), U1);
    assert U1 + Syms(e.body) == U + Syms(e);
  }

  lemma EmitSame(L: Builder, s: MStmt)
    requires InRange(L)
    ensures InRange(Emit(L, s)) && SameLocals(L, Emit(L, s))
  {
  }

  lemma {:induction false} EachSlots(cs: Contracts, e: Expr, L: Builder, U: set<Sym>)
    requires InRange(L) && e.ForEach? && Slots(L, U) && Once(e, U)
    ensures Slots(LowerEach(cs, e, L), U + Syms(e))
    decreases e, 3
  {
    hide Slots, LowerLoop, EachHead;
    var V0 := Alloc(L, Some(e.var_));
    AllocSlots(L, Some(e.var_), U);
    ExprSlots(cs, e.iter, V0, U + {e.var_});
    var (A, o) := LowerExpr(cs, e.iter, V0);
    var U1 := U + {e.var_} + Syms(e.iter);
    EachHeadSlots(A, o, U1);
    var (B, arr, len, idx) := EachHead(A, o);
    LoopSlots(cs, e.body, idx, len, Some(arr), |L.locals|, B, U1);
    assert U1 + Syms(e.body) == U + Syms(e);
  }

  lemma EachHeadSlots(L: Builder, o: Operand, U: set<Sym>)
    requires InRange(L) && Slots(L, U)
    ensures Slots(EachHead(L, o).0, U)
  {
    hide Slots;
    EmitTempSlots(L, Use(o), U);
    var (A, arr) := EmitTemp(L, Use(o));
    EmitTempSlots(A, Compute(Len, [arr], []), U);
    var (B, len) := EmitTemp(A, Compute(Len, [arr], []));
    EmitTempSlots(B, Use(Const(IntV(0))), U);
  }

  lemma {:induction false} LoopSlots(cs: Contracts, body: Expr, counter: nat, limit: Operand, elem: Option<Operand>,
        x: nat, L: Builder, U: set<Sym>)
    requires InRange(L) && Slots(L, U) && Once(body, U)
    ensures Slots(LowerLoop(cs, body, counter, limit, elem, x, L), U + Syms(body))
    decreases body, 5
  {
    hide Slots, LoopHead, Emit;
    LoopHeadSlots(L, counter, limit, U);
    LoopHeadInRange(L, counter, limit);
    var A := LoopHead(L, counter, limit);
    var B := A;
    if elem.Some? {
      var s := Set(x, [], Compute(Index(true), [elem.value, Place(counter, [])], []));
      EmitSame(A, s);
      B := Emit(A, s);
      SameSlots(A, B, U);
    }
    ExprSlots(cs, body, B, U);
    var C := LowerExpr(cs, body, B).0;
    LoopEndSame(C, counter, |L.blocks|);
    SameSlots(C, Enter(LoopEnd(C, counter, |L.blocks|), |L.blocks| + 2), U + Syms(body));
  }

  lemma LoopHeadInRange(L: Builder, counter: nat, limit: Operand)
    requires InRange(L)
    ensures InRange(LoopHead(L, counter, limit))
  {
  }

  lemma LoopEndSame(L: Builder, counter: nat, head: nat)
    requires InRange(L)
    ensures SameLocals(L, LoopEnd(L, counter, head))
  {
  }

  // ---------- statements ----------

  lemma {:induction false} StmtsSlots(cs: Contracts, stmts: seq<Stmt>, L: Builder, U: set<Sym>)
    requires InRange(L) && Slots(L, U) && OnceStmts(stmts, U)
    ensures Slots(LowerStmts(cs, stmts, L), U + SymsStmts(stmts))
    decreases stmts, 0
  {
    hide Slots, LowerStmt;
    if stmts == [] {
      assert U + SymsStmts(stmts) == U;
    } else {
      StmtSlots(cs, stmts[0], L, U);
      StmtsSlots(cs, stmts[1..], LowerStmt(cs, stmts[0], L), U + SymsStmt(stmts[0]));
      assert U + SymsStmt(stmts[0]) + SymsStmts(stmts[1..]) == U + SymsStmts(stmts);
    }
  }

  lemma {:induction false} StmtSlots(cs: Contracts, s: Stmt, L: Builder, U: set<Sym>)
    requires InRange(L) && Slots(L, U) && OnceStmt(s, U)
    ensures Slots(LowerStmt(cs, s, L), U + SymsStmt(s))
    decreases s, 1
  {
    hide Slots, LocalFor;
    var V := U + SymsStmt(s);
    match s
    case Let(x, init) =>
      LocalForSlots(L, x, U);
      var (A, l) := LocalFor(L, x);
      if init.Some? {
        ExprSlots(cs, init.value, A, U + {x});
        assert SymsOpt(init) == Syms(init.value);
        assert U + {x} + Syms(init.value) == V;
        var (B, o) := LowerExpr(cs, init.value, A);
        SameSlots(B, LowerStmt(cs, s, L), V);
      } else {
        assert SymsOpt(init) == {};
        assert U + {x} == V;
      }
    case Assign(x, path, e) =>
      ExprSlots(cs, e, L, U);
      var (A, o) := LowerExpr(cs, e, L);
      LocalForSlots(A, x, U + Syms(e));
      assert U + Syms(e) + {x} == V;
      SameSlots(LocalFor(A, x).0, LowerStmt(cs, s, L), V);
    case ExprStmt(e) => ExprSlots(cs, e, L, U);
    case Return(result) =>
      if result.None? {
        assert U == V;
        SameSlots(L, LowerStmt(cs, s, L), V);
      } else {
        ExprSlots(cs, result.value, L, U);
        assert SymsOpt(result) == Syms(result.value);
        SameSlots(LowerExpr(cs, result.value, L).0, LowerStmt(cs, s, L), V);
      }
  }

  // ---------- whole functions ----------

  /** In a tree whose loops declare their variables once, every binding has one slot. */
  lemma {:induction false} OneSlotEach(cs: Contracts, params: seq<Sym>, root: Expr)
    requires NoRepeat(params) && Once(root, set s | s in params)
    ensures Distinct(LowerFn(cs, params, root).locals)
  {
    hide LowerExpr;
    var U := set s | s in params;
    var S := Start(params);
    assert Slots(S, U);
    ExprSlots(cs, root, S, U);
    var (A, o) := LowerExpr(cs, root, S);
    SameSlots(A, Build(cs, params, root), U + Syms(root));
  }
}
