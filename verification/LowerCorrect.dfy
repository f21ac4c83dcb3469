/** Lowering preserves meaning: running the emitted blocks has the outcome the reference
    semantics gives the tree. */
module LowerCorrect {
  import opened Wrappers
  import opened Hir
  import opened Semantics
  import opened Mir
  import opened Lower
  import opened LowerShape
  import opened LowerTarget
  import opened LowerFit

  ghost predicate Goes(E: Env, T: Builder, c: Cfg, d: Cfg) {
    Reaches(T.blocks, E.calls, c, d)
  }

  lemma GoesTrans(E: Env, T: Builder, c: Cfg, d: Cfg, e: Cfg)
    requires Goes(E, T, c, d) && Goes(E, T, d, e)
    ensures Goes(E, T, c, e)
  {
    ReachesTrans(T.blocks, E.calls, c, d, e);
  }

  /** From `c` the machine does what `out` says: it arrives at the point after `M` with the
      value in `o`, or it finishes with the same return or trap. A misuse promises nothing. */
  ghost predicate Simulated(E: Env, T: Builder, c: Cfg, M: Builder, o: Operand, n: nat, out: Out, m: seq<Slot>,
        m': seq<Slot>)
    requires InRange(M)
  {
    match out
    case Norm(v, h) =>
      !M.closed && |m'| == |T.locals| && Agree(h, m', T) && Kept(n, m, m', T) && Read(m', o) == Some(v) &&
      Goes(E, T, c, Point(M, m'))
    case Ret(v) => Goes(E, T, c, Done(Returned(v)))
    case Trap => Goes(E, T, c, Done(Trapped))
    case Misuse => true
  }

  /** Where a simulation can start. */
  ghost predicate Ready(E: Env, T: Builder, L: Builder, M: Builder, h: Store, m: seq<Slot>) {
    !E.strict && WF(L) && !L.closed && InRange(M) && Ext(M, T) && |m| == |T.locals| && Agree(h, m, T) &&
    Distinct(T.locals)
  }

  lemma SimulatedAfter(E: Env, T: Builder, c: Cfg, d: Cfg, M: Builder, o: Operand, n: nat, k: nat, out: Out,
        m: seq<Slot>, m1: seq<Slot>, m2: seq<Slot>)
    requires InRange(M) && Goes(E, T, c, d) && Kept(n, m, m1, T) && n <= k
    requires Simulated(E, T, d, M, o, k, out, m1, m2)
    ensures Simulated(E, T, c, M, o, n, out, m, m2)
  {
    match out
    case Norm(v, h) =>
      KeptTrans(n, k, m, m1, m2, T);
      GoesTrans(E, T, c, d, Point(M, m2));
    case Ret(v) => GoesTrans(E, T, c, d, Done(Returned(v)));
    case Trap => GoesTrans(E, T, c, d, Done(Trapped));
    case Misuse =>
  }

  lemma SimulatedStop(E: Env, T: Builder, c: Cfg, A: Builder, a: Operand, M: Builder, o: Operand, n: nat, out: Out,
        m: seq<Slot>, m1: seq<Slot>)
    requires InRange(A) && InRange(M) && !out.Norm? && Simulated(E, T, c, A, a, n, out, m, m1)
    ensures Simulated(E, T, c, M, o, n, out, m, m1)
  {
    hide Goes;
  }

  lemma SimulatedTrap(E: Env, T: Builder, c: Cfg, d: Cfg, M: Builder, o: Operand, n: nat, m: seq<Slot>, m1: seq<Slot>)
    requires InRange(M) && Goes(E, T, c, d) && Goes(E, T, d, Done(Trapped))
    ensures Simulated(E, T, c, M, o, n, Trap, m, m1)
  {
    GoesTrans(E, T, c, d, Done(Trapped));
  }

  lemma SimulatedMeans(E: Env, T: Builder, c: Cfg, M: Builder, o: Operand, n: nat, out: Out, m: seq<Slot>,
        m1: seq<Slot>)
    requires InRange(M) && out.Norm? && Simulated(E, T, c, M, o, n, out, m, m1)
    ensures !M.closed && |m1| == |T.locals| && Agree(out.h, m1, T) && Kept(n, m, m1, T) && Read(m1, o) == Some(out.v)
    ensures Goes(E, T, c, Point(M, m1))
  {
  }

  lemma SimulatedNorm(E: Env, T: Builder, c: Cfg, M: Builder, o: Operand, n: nat, v: Value, h: Store,
        m: seq<Slot>, m1: seq<Slot>)
    requires InRange(M) && !M.closed && |m1| == |T.locals| && Agree(h, m1, T) && Kept(n, m, m1, T)
    requires Read(m1, o) == Some(v) && Goes(E, T, c, Point(M, m1))
    ensures Simulated(E, T, c, M, o, n, Norm(v, h), m, m1)
  {
  }

  // ---------- operands ----------

  /** The operand of `e` is a constant, a temporary not older than `lo`, or the slot of the
      binding `e` ends in. */
  ghost predicate OperandOk(e: Expr, o: Operand, lo: nat, locals: seq<Option<Sym>>) {
    if o.Const? then TailVar(e).None?
    else
      o.proj == [] && o.local < |locals| &&
      (if TailVar(e).Some? then locals[o.local] == TailVar(e) else locals[o.local].None? && lo <= o.local)
  }

  lemma OperandGrows(e: Expr, o: Operand, lo: nat, k: nat, a: seq<Option<Sym>>, b: seq<Option<Sym>>)
    requires OperandOk(e, o, k, a) && a <= b && lo <= k
    ensures OperandOk(e, o, lo, b)
  {
  }

  lemma {:induction false} OperandShape(cs: Contracts, e: Expr, L: Builder)
    requires WF(L) && Fits(cs, e)
    ensures OperandOk(e, LowerExpr(cs, e, L).1, |L.locals|, LowerExpr(cs, e, L).0.locals)
    decreases e
  {
    hide Grows, LowerLogic, LowerIf, LowerMatch, LowerRange, LowerEach, LowerStmts, LowerAll, Emit, FitsAll, FitsStmts,
      FitsArms;
    match e
    case Lit(_) =>
    case Poison =>
    case Var(_) =>
    case Prim(op, args) =>
      LowerAllStep(cs, args, L);
      StepLocals(L, LowerAll(cs, args, L).0);
      EmitTempLocals(LowerAll(cs, args, L).0, Compute(op, LowerAll(cs, args, L).1, ContractList(cs, op)));
    case Logic(_, _, _) => LogicOperand(cs, e, L);
    case If(_, _, _, _) => IfOperand(cs, e, L);
    case Block(stmts, tail) =>
      if tail.Some? {
        LowerStmtsStep(cs, stmts, L);
        var A := LowerStmts(cs, stmts, L);
        StepLocals(L, A);
        OperandShape(cs, tail.value, A);
      }
    case Match(_, _, _) => MatchOperand(cs, e, L);
    case ForRange(_, _, _, _) =>
    case ForEach(_, _, _) =>
  }

  lemma StepLocals(L: Builder, M: Builder)
    requires Step(L, M)
    ensures InRange(M) && L.locals <= M.locals
  {
  }

  lemma EmitTempLocals(L: Builder, rv: Rvalue)
    requires InRange(L)
    ensures EmitTemp(L, rv).0.locals == L.locals + [None] && EmitTemp(L, rv).1 == Place(|L.locals|, [])
  {
  }

  lemma LogicOperand(cs: Contracts, e: Expr, L: Builder)
    requires WF(L) && e.Logic?
    ensures OperandOk(e, LowerLogic(cs, e, L).1, |L.locals|, LowerLogic(cs, e, L).0.locals)
  {
    hide Grows, LogicTail, Fork;
    LowerExprStep(cs, e.lhs, L);
    var (A, c) := LowerExpr(cs, e.lhs, L);
    StepLocals(L, A);
    LogicForkLocals(A, c, e.isOr);
    LogicForkStep(A, c, e.isOr);
    var F := LogicFork(A, c, e.isOr);
    LowerExprStep(cs, e.rhs, F);
    var (B, v) := LowerExpr(cs, e.rhs, F);
    StepLocals(F, B);
    LogicTailLocals(B, |A.locals|, v, |A.blocks|, e.isOr);
    assert F.locals[|A.locals|].None?;
    assert B.locals[|A.locals|].None?;
  }

  lemma LogicForkLocals(L: Builder, c: Operand, isOr: bool)
    requires InRange(L)
    ensures LogicFork(L, c, isOr).locals == L.locals + [None]
  {
  }

  lemma LogicTailLocals(L: Builder, t: nat, v: Operand, first: nat, isOr: bool)
    requires InRange(L) && first + 2 < |L.blocks|
    ensures LogicTail(L, t, v, first, isOr).locals == L.locals
  {
  }

  lemma ResultOk(e: Expr, A: Builder, unit: bool, lo: nat, M: Builder)
    requires lo <= |A.locals| && ResultSlot(A, unit).0.locals <= M.locals && TailVar(e).None?
    ensures OperandOk(e, ResultOperand(ResultSlot(A, unit).1), lo, M.locals)
  {
  }

  lemma IfOperand(cs: Contracts, e: Expr, L: Builder)
    requires WF(L) && e.If?
    ensures OperandOk(e, LowerIf(cs, e, L).1, |L.locals|, LowerIf(cs, e, L).0.locals)
  {
    hide Grows, Fork, LowerBranch;
    LowerExprStep(cs, e.cond, L);
    var (A, c) := LowerExpr(cs, e.cond, L);
    StepLocals(L, A);
    ResultSlotStep(A, e.unit);
    var (B, result) := ResultSlot(A, e.unit);
    var first := |B.blocks|;
    var n := if e.els.None? then 2 else 3;
    ForkStep(B, n, Branch(c, first, first + 1), first);
    var F := Fork(B, n, Branch(c, first, first + 1), first);
    LowerBranchStep(cs, e.thn, result, first + n - 1, F);
    var C := LowerBranch(cs, e.thn, result, first + n - 1, F);
    StepLocals(F, C);
    if e.els.Some? {
      Waiting(F, C, first + 1);
      StepTrans(B, F, C);
      EnterStep(B, C, first + 1);
      LowerBranchStep(cs, e.els.value, result, first + 2, Enter(C, first + 1));
      StepLocals(Enter(C, first + 1), LowerBranch(cs, e.els.value, result, first + 2, Enter(C, first + 1)));
    }
    ResultOk(e, A, e.unit, |L.locals|, LowerIf(cs, e, L).0);
  }

  lemma MatchOperand(cs: Contracts, e: Expr, L: Builder)
    requires WF(L) && e.Match?
    ensures OperandOk(e, LowerMatch(cs, e, L).1, |L.locals|, LowerMatch(cs, e, L).0.locals)
  {
    hide Grows, MatchFork, LowerArms;
    LowerExprStep(cs, e.scrut, L);
    var (A, o) := LowerExpr(cs, e.scrut, L);
    StepLocals(L, A);
    ResultSlotStep(A, e.unit);
    var (B, result) := ResultSlot(A, e.unit);
    MatchForkStep(B, o, e.arms);
    var F := MatchFork(B, o, e.arms);
    LowerArmsStep(cs, e.arms, |B.blocks| + 1, o, result, |B.blocks|, F);
    ResultOk(e, A, e.unit, |L.locals|, LowerMatch(cs, e, L).0);
  }

  // ---------- emitted statements ----------

  lemma SetRun(E: Env, T: Builder, L: Builder, l: nat, rv: Rvalue, m: seq<Slot>)
    requires WF(L) && !L.closed && Ext(Emit(L, Set(l, [], rv)), T) && |m| == |T.locals| && l < |m|
    ensures var c := Exec(E.calls, m, rv);
      Goes(E, T, Point(L, m),
        if c.None? then Done(Trapped) else Point(Emit(L, Set(l, [], rv)), c.value.m[l := Live(c.value.v)]))
  {
    EmitRun(E.calls, L, Set(l, [], rv), T, m);
  }

  lemma TempRun(E: Env, T: Builder, L: Builder, rv: Rvalue, m: seq<Slot>)
    requires WF(L) && !L.closed && Ext(EmitTemp(L, rv).0, T) && |m| == |T.locals|
    ensures |L.locals| < |T.locals| && T.locals[|L.locals|].None?
    ensures var c := Exec(E.calls, m, rv);
      Goes(E, T, Point(L, m),
        if c.None? then Done(Trapped) else Point(EmitTemp(L, rv).0, c.value.m[|L.locals| := Live(c.value.v)]))
  {
    var A := Alloc(L, None);
    AllocStep(L, None);
    assert Ext(EmitTemp(L, rv).0, T);
    assert EmitTemp(L, rv).0.locals[|L.locals|].None?;
    SetRun(E, T, A, |L.locals|, rv, m);
  }

  // ---------- calls ----------

  lemma SameContract(cs: Contracts, op: Op, i: nat)
    requires op.Call?
    ensures var a, b := ExecContract(ContractList(cs, op), i), ContractAt(cs, op.def, i);
      (Consumes(a) <==> Consumes(b)) && (a == BorrowMut <==> b == BorrowMut)
  {
  }

  ghost predicate OperandsOk(args: seq<Expr>, ops: seq<Operand>, lo: nat, locals: seq<Option<Sym>>) {
    |ops| == |args| && forall i {:trigger ops[i]} :: 0 <= i < |ops| ==> OperandOk(args[i], ops[i], lo, locals)
  }

  lemma {:induction false} ShareBackAgrees(E: Env, T: Builder, op: Op, args: seq<Expr>, ops: seq<Operand>, n: nat,
        outs: seq<Value>, h: Store, m: seq<Slot>, lo: nat)
    requires op.Call? && n <= |args| && OperandsOk(args, ops, lo, T.locals) && SharesPlaces(E.contracts, op.def, args)
    requires Agree(h, m, T) && Distinct(T.locals)
    ensures var m1 := ShareBack(m, ops, ContractList(E.contracts, op), n, outs);
      Agree(WriteBack(E, op.def, args, n, outs, h), m1, T) && Kept(lo, m, m1, T)
  {
    if n > 0 {
      ShareBackAgrees(E, T, op, args, ops, n - 1, outs, h, m, lo);
      var cl := ContractList(E.contracts, op);
      var g, k := WriteBack(E, op.def, args, n - 1, outs, h), ShareBack(m, ops, cl, n - 1, outs);
      SameContract(E.contracts, op, n - 1);
      assert OperandOk(args[n - 1], ops[n - 1], lo, T.locals);
      ShareOne(E, T, op, args, ops[n - 1], n, outs, g, k, lo);
      KeptTrans(lo, lo, m, k, ShareBack(m, ops, cl, n, outs), T);
    }
  }

  /** One argument of `ShareBackAgrees`. */
  lemma ShareOne(E: Env, T: Builder, op: Op, args: seq<Expr>, o: Operand, n: nat, outs: seq<Value>, g: Store,
        k: seq<Slot>, lo: nat)
    requires op.Call? && 0 < n <= |args| && OperandOk(args[n - 1], o, lo, T.locals)
    requires SharesPlaces(E.contracts, op.def, args)
    requires Agree(g, k, T) && Distinct(T.locals)
    ensures var arg := args[n - 1];
      var share := ContractAt(E.contracts, op.def, n - 1) == BorrowMut && |outs| >= n;
      var g1 := if !share || PlaceBase(arg).None? || !IsLive(g, PlaceBase(arg).value) then g
        else (match SetPath(g[PlaceBase(arg).value].v, PlacePath(arg), outs[n - 1])
          case Some(w) => g[PlaceBase(arg).value := Live(w)]
          case None => g);
      var k1 := if !share || o.Const? || !k[o.local].Live? then k
        else (match SetPath(k[o.local].v, o.proj, outs[n - 1]) case Some(w) => k[o.local := Live(w)] case None => k);
      Agree(g1, k1, T) && Kept(lo, k, k1, T)
  {
    var arg := args[n - 1];
    if ContractAt(E.contracts, op.def, n - 1) == BorrowMut && |outs| >= n {
      assert TailVar(arg) == PlaceBase(arg);
      if o.Place? {
        if TailVar(arg).Some? {
          TailPlace(arg);
          if IsLive(g, TailVar(arg).value) {
            AgreeRead(g, k, T, TailVar(arg).value, o.local);
            AgreeSet(g, k, T, TailVar(arg).value, o.local, Live(outs[n - 1]));
          } else {
            AgreeLoose(g, k, T, TailVar(arg).value, o.local, Live(outs[n - 1]));
          }
        } else {
          AgreeTemp(g, k, T, o.local, Live(outs[n - 1]));
        }
      }
    }
  }

  lemma TailPlace(e: Expr)
    requires TailVar(e).Some? && TailVar(e) == PlaceBase(e)
    ensures PlacePath(e) == []
  {
  }

  lemma {:induction false} EmptyAgrees(E: Env, T: Builder, op: Op, args: seq<Expr>, ops: seq<Operand>, n: nat, h: Store,
        m: seq<Slot>, lo: nat)
    requires op.Call? && n <= |args| && OperandsOk(args, ops, lo, T.locals) && Agree(h, m, T) && Distinct(T.locals)
    ensures var m1 := Empty(m, ops, ContractList(E.contracts, op), n);
      Agree(Consumed(E, op.def, args, n, h), m1, T) && Kept(lo, m, m1, T)
  {
    if n > 0 {
      EmptyAgrees(E, T, op, args, ops, n - 1, h, m, lo);
      var cl := ContractList(E.contracts, op);
      var g, k := Consumed(E, op.def, args, n - 1, h), Empty(m, ops, cl, n - 1);
      SameContract(E.contracts, op, n - 1);
      assert OperandOk(args[n - 1], ops[n - 1], lo, T.locals);
      var o := ops[n - 1];
      if Consumes(ContractAt(E.contracts, op.def, n - 1)) && o.Place? {
        if TailVar(args[n - 1]).Some? {
          AgreeSet(g, k, T, TailVar(args[n - 1]).value, o.local, Hole);
        } else {
          AgreeTemp(g, k, T, o.local, Hole);
        }
      }
      KeptTrans(lo, lo, m, k, Empty(m, ops, cl, n), T);
    }
  }

  /** One operation on operands that already hold their values. */
  lemma ComputeRun(E: Env, T: Builder, op: Op, args: seq<Expr>, ops: seq<Operand>, vals: seq<Value>, L: Builder,
        h: Store, m: seq<Slot>, lo: nat)
    returns (m': seq<Slot>)
    requires !E.strict && WF(L) && !L.closed && Agree(h, m, T) && Distinct(T.locals) && lo <= |L.locals|
    requires Ext(EmitTemp(L, Compute(op, ops, ContractList(E.contracts, op))).0, T)
    requires OperandsOk(args, ops, lo, T.locals) && ReadAll(m, ops) == Some(vals)
    requires op.Call? ==> SharesPlaces(E.contracts, op.def, args)
    ensures var (M, o) := EmitTemp(L, Compute(op, ops, ContractList(E.contracts, op)));
      InRange(M) && Simulated(E, T, Point(L, m), M, o, lo, Finish(E, op, args, vals, h), m, m')
  {
    hide Reaches;
    var cl := ContractList(E.contracts, op);
    var rv := Compute(op, ops, cl);
    EmitTempStep(L, rv);
    TempRun(E, T, L, rv, m);
    var c := Exec(E.calls, m, rv);
    m' := m;
    if c.Some? {
      var t := |L.locals|;
      m' := c.value.m[t := Live(c.value.v)];
      var g := h;
      if op.Call? {
        var r := E.calls(op.def, vals);
        var m1 := ShareBack(m, ops, cl, |args|, r.outs);
        ShareBackAgrees(E, T, op, args, ops, |args|, r.outs, h, m, lo);
        var h1 := WriteBack(E, op.def, args, |args|, r.outs, h);
        EmptyAgrees(E, T, op, args, ops, |args|, h1, m1, lo);
        KeptTrans(lo, lo, m, m1, c.value.m, T);
        g := Consumed(E, op.def, args, |args|, h1);
      }
      AgreeTemp(g, c.value.m, T, t, Live(c.value.v));
    }
  }
}
