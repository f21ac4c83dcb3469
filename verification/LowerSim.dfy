/** The simulation itself: one lemma per lowering function, by induction on the tree. */
module LowerSim {
  import opened Wrappers
  import opened Hir
  import opened Semantics
  import opened Effects
  import opened Mir
  import opened Lower
  import opened LowerShape
  import opened LowerTarget
  import opened LowerFit
  import opened LowerCorrect

  // ---------- jumps ----------

  /** `Fork` closes the current block; the machine takes its terminator. */
  lemma ForkRun(E: Env, T: Builder, L: Builder, n: nat, t: Term, enter: nat, m: seq<Slot>)
    requires WF(L) && !L.closed && !t.Pending? && Ext(Fork(L, n, t, enter), T)
    ensures Goes(E, T, Point(L, m), Jump(t, m))
  {
    var A := AddBlocks(L, n);
    AddBlocksStep(L, n);
    assert Ext(Close(A, t), T);
    assert A.blocks[L.cur] == L.blocks[L.cur];
    CloseRun(E.calls, A, t, T, m);
  }

  /** Entering a waiting block that is still empty. */
  lemma AtEntry(L: Builder, b: nat, m: seq<Slot>)
    requires b < |L.blocks| && L.blocks[b] == BasicBlock(b, [], Pending)
    ensures Point(Enter(L, b), m) == At(b, 0, m)
  {
  }

  lemma KeptSet(n: nat, m: seq<Slot>, m1: seq<Slot>, T: Builder, t: nat, slot: Slot)
    requires Kept(n, m, m1, T) && t < |T.locals| && (t >= n || T.locals[t].Some?)
    ensures Kept(n, m, m1[t := slot], T)
  {
    forall l | 0 <= l < n && l < |T.locals| && T.locals[l].None?
      ensures m1[t := slot][l] == m[l]
    {
      assert m1[l] == m[l];
    }
  }

  lemma KeptRefl(n: nat, m: seq<Slot>, T: Builder)
    requires |m| == |T.locals|
    ensures Kept(n, m, m, T)
  {
  }

  lemma GoesRefl(E: Env, T: Builder, c: Cfg)
    ensures Goes(E, T, c, c)
  {
    ReachesRefl(T.blocks, E.calls, c);
  }

  // ---------- branches that meet in a join block ----------

  /** Like `Simulated`, but the normal outcome is at the start of block `join`. */
  ghost predicate Joins(E: Env, T: Builder, c: Cfg, join: nat, o: Operand, n: nat, out: Out, m: seq<Slot>,
        m': seq<Slot>)
  {
    match out
    case Norm(v, h) =>
      |m'| == |T.locals| && Agree(h, m', T) && Kept(n, m, m', T) && Read(m', o) == Some(v) &&
      Goes(E, T, c, At(join, 0, m'))
    case Ret(v) => Goes(E, T, c, Done(Returned(v)))
    case Trap => Goes(E, T, c, Done(Trapped))
    case Misuse => true
  }

  /** The result slot of an `if` or `match`, absent for unit. */
  ghost predicate SlotFor(T: Builder, unit: bool, result: Option<nat>, n: nat) {
    if unit then result.None?
    else result.Some? && n <= result.value < |T.locals| && T.locals[result.value].None?
  }

  lemma EndArmRun(E: Env, T: Builder, L: Builder, unit: bool, result: Option<nat>, o: Operand, join: nat, n: nat,
        v: Value, h: Store, m: seq<Slot>, m1: seq<Slot>)
    returns (m': seq<Slot>)
    requires WF(L) && !L.closed && Ext(EndArm(L, result, o, join), T) && SlotFor(T, unit, result, n)
    requires Agree(h, m1, T) && Kept(n, m, m1, T) && Read(m1, o) == Some(v)
    ensures Joins(E, T, Point(L, m1), join, ResultOperand(result), n, Coerce(unit, Norm(v, h)), m, m')
  {
    hide Reaches;
    if unit {
      m' := m1;
      CloseRun(E.calls, L, Goto(join), T, m1);
    } else {
      var r := result.value;
      var s := Set(r, [], Use(o));
      m' := m1[r := Live(v)];
      EmitStep(L, s);
      CloseStep(Emit(L, s), Goto(join));
      ExtStep(Emit(L, s), EndArm(L, result, o, join), T);
      SetRun(E, T, L, r, Use(o), m1);
      CloseRun(E.calls, Emit(L, s), Goto(join), T, m');
      GoesTrans(E, T, Point(L, m1), Point(Emit(L, s), m'), At(join, 0, m'));
      AgreeTemp(h, m1, T, r, Live(v));
      KeptSet(n, m, m1, T, r, Live(v));
    }
  }

  lemma JoinsAfter(E: Env, T: Builder, c: Cfg, d: Cfg, join: nat, o: Operand, n: nat, k: nat, out: Out, m: seq<Slot>,
        m1: seq<Slot>, m2: seq<Slot>)
    requires Goes(E, T, c, d) && Kept(n, m, m1, T) && n <= k && Joins(E, T, d, join, o, k, out, m1, m2)
    ensures Joins(E, T, c, join, o, n, out, m, m2)
  {
    match out
    case Norm(v, h) =>
      KeptTrans(n, k, m, m1, m2, T);
      GoesTrans(E, T, c, d, At(join, 0, m2));
    case Ret(v) => GoesTrans(E, T, c, d, Done(Returned(v)));
    case Trap => GoesTrans(E, T, c, d, Done(Trapped));
    case Misuse =>
  }

  /** Arriving at an empty join block is arriving at the point after it was entered. */
  lemma JoinsSimulated(E: Env, T: Builder, c: Cfg, M: Builder, join: nat, o: Operand, n: nat, out: Out, m: seq<Slot>,
        m': seq<Slot>)
    requires Joins(E, T, c, join, o, n, out, m, m') && join < |M.blocks|
    requires M.blocks[join] == BasicBlock(join, [], Pending)
    ensures Simulated(E, T, c, Enter(M, join), o, n, out, m, m')
  {
    AtEntry(M, join, m');
  }

  // ---------- expressions ----------

  lemma {:induction false} SimExpr(E: Env, T: Builder, e: Expr, ctx: Ctx, L: Builder, h: Store, m: seq<Slot>)
    returns (m': seq<Slot>)
    requires InRange(L) && Ready(E, T, L, LowerExpr(E.contracts, e, L).0, h, m) && Fits(E.contracts, e)
    ensures var (M, o) := LowerExpr(E.contracts, e, L);
      Simulated(E, T, Point(L, m), M, o, |L.locals|, Eval(E, e, ctx, h), m, m')
    decreases e, 4
  {
    hide Reaches, Grows, Ext, Agree, Kept, LowerLogic, LowerIf, LowerMatch, LowerRange, LowerEach, LowerStmts, LowerAll,
      EmitTemp;
    var cs := E.contracts;
    m' := m;
    match e
    case Lit(v) => SimStay(E, T, Const(v), v, L, h, m);
    case Poison => SimStay(E, T, Const(UnitV), UnitV, L, h, m);
    case Var(s) => SimVar(E, T, s, ctx, L, h, m);
    case Prim(_, _) => m' := SimPrim(E, T, e, ctx, L, h, m);
    case Logic(_, _, _) => m' := SimLogic(E, T, e, ctx, L, h, m);
    case If(_, _, _, _) => m' := SimIf(E, T, e, ctx, L, h, m);
    case Block(_, _) => m' := SimBlock(E, T, e, ctx, L, h, m);
    case Match(_, _, _) => m' := SimMatch(E, T, e, ctx, L, h, m);
    case ForRange(_, _, _, _) => m' := SimRange(E, T, e, ctx, L, h, m);
    case ForEach(_, _, _) => m' := SimEach(E, T, e, ctx, L, h, m);
  }

  lemma SimStay(E: Env, T: Builder, o: Operand, v: Value, L: Builder, h: Store, m: seq<Slot>)
    requires Ready(E, T, L, L, h, m) && Read(m, o) == Some(v)
    ensures Simulated(E, T, Point(L, m), L, o, |L.locals|, Norm(v, h), m, m)
  {
    KeptRefl(|L.locals|, m, T);
    GoesRefl(E, T, Point(L, m));
  }

  lemma SimVar(E: Env, T: Builder, s: Sym, ctx: Ctx, L: Builder, h: Store, m: seq<Slot>)
    requires InRange(L) && Ready(E, T, L, LocalFor(L, s).0, h, m)
    ensures var (M, l) := LocalFor(L, s);
      Simulated(E, T, Point(L, m), M, Place(l, []), |L.locals|, ReadVar(E, s, ctx, h), m, m)
  {
    hide Reaches;
    var (M, l) := LocalFor(L, s);
    assert T.locals[l] == Some(s);
    KeptRefl(|L.locals|, m, T);
    GoesRefl(E, T, Point(L, m));
    if IsLive(h, s) {
      AgreeRead(h, m, T, s, l);
    }
  }

  lemma {:induction false} SimPrim(E: Env, T: Builder, e: Expr, ctx: Ctx, L: Builder, h: Store, m: seq<Slot>)
    returns (m': seq<Slot>)
    requires InRange(L) && e.Prim? && Ready(E, T, L, LowerExpr(E.contracts, e, L).0, h, m) && Fits(E.contracts, e)
    ensures var (M, o) := LowerExpr(E.contracts, e, L);
      Simulated(E, T, Point(L, m), M, o, |L.locals|, Eval(E, e, ctx, h), m, m')
    decreases e, 3
  {
    hide Reaches, Grows, Ext, Agree, Kept, LowerAll, EmitTemp, Finish;
    var cs := E.contracts;
    LowerAllStep(cs, e.args, L);
    var (A, ops) := LowerAll(cs, e.args, L);
    var rv := Compute(e.op, ops, ContractList(cs, e.op));
    EmitTempStep(A, rv);
    ExtStep(A, EmitTemp(A, rv).0, T);
    m' := SimAll(E, T, e.op, e.args, 0, ctx, L, h, m);
    var o := EvalArgs(E, e.op, e.args, 0, ctx, h);
    if o.NormSeq? {
      AllShape(cs, e.args, L);
      OperandsGrow(e.args, ops, |L.locals|, A, T);
      StepLocals(L, A);
      var m1 := m';
      m' := ComputeRun(E, T, e.op, e.args, ops, o.vals, A, o.h, m1, |L.locals|);
      SimulatedAfter(E, T, Point(L, m), Point(A, m1), EmitTemp(A, rv).0, EmitTemp(A, rv).1, |L.locals|, |L.locals|,
        Finish(E, e.op, e.args, o.vals, o.h), m, m1, m');
    }
  }

  lemma OperandsGrow(args: seq<Expr>, ops: seq<Operand>, lo: nat, A: Builder, T: Builder)
    requires OperandsOk(args, ops, lo, A.locals) && Ext(A, T)
    ensures OperandsOk(args, ops, lo, T.locals)
  {
    forall i {:trigger ops[i]} | 0 <= i < |ops|
      ensures OperandOk(args[i], ops[i], lo, T.locals)
    {
      OperandGrows(args[i], ops[i], lo, lo, A.locals, T.locals);
    }
  }

  lemma {:induction false} AllShape(cs: Contracts, args: seq<Expr>, L: Builder)
    requires WF(L) && FitsAll(cs, args)
    ensures OperandsOk(args, LowerAll(cs, args, L).1, |L.locals|, LowerAll(cs, args, L).0.locals)
    decreases args
  {
    hide Grows, Fits;
    if args != [] {
      var (A, o) := LowerExpr(cs, args[0], L);
      LowerExprStep(cs, args[0], L);
      OperandShape(cs, args[0], L);
      AllShape(cs, args[1..], A);
      LowerAllStep(cs, args[1..], A);
      var (B, os) := LowerAll(cs, args[1..], A);
      StepLocals(L, A);
      StepLocals(A, B);
      var ops := LowerAll(cs, args, L).1;
      forall i {:trigger ops[i]} | 0 <= i < |ops|
        ensures OperandOk(args[i], ops[i], |L.locals|, B.locals)
      {
        if i == 0 {
          OperandGrows(args[0], o, |L.locals|, |L.locals|, A.locals, B.locals);
        } else {
          assert ops[i] == os[i - 1] && args[i] == args[1..][i - 1];
          OperandGrows(args[i], ops[i], |L.locals|, |A.locals|, B.locals, B.locals);
        }
      }
    }
  }

  /** What the machine has done once every operand of a list is evaluated. */
  ghost predicate SimulatedAll(E: Env, T: Builder, c: Cfg, M: Builder, ops: seq<Operand>, n: nat, out: OutSeq,
        m: seq<Slot>, m': seq<Slot>)
    requires InRange(M)
  {
    match out
    case NormSeq(vals, h) =>
      !M.closed && |m'| == |T.locals| && Agree(h, m', T) && Kept(n, m, m', T) && ReadAll(m', ops) == Some(vals) &&
      Goes(E, T, c, Point(M, m'))
    case Stop(o) => !o.Norm? && Simulated(E, T, c, M, Const(UnitV), n, o, m, m')
  }

  lemma {:induction false} SimAll(E: Env, T: Builder, op: Op, args: seq<Expr>, i: nat, ctx: Ctx, L: Builder, h: Store,
        m: seq<Slot>)
    returns (m': seq<Slot>)
    requires InRange(L) && Ready(E, T, L, LowerAll(E.contracts, args, L).0, h, m)
    requires FitsAll(E.contracts, args) && Undisturbed(E.contracts, args)
    ensures var (M, ops) := LowerAll(E.contracts, args, L);
      SimulatedAll(E, T, Point(L, m), M, ops, |L.locals|, EvalArgs(E, op, args, i, ctx, h), m, m')
    decreases args, 0
  {
    hide Reaches, Grows, Ext, Agree, Kept, Fits, Undisturbed;
    m' := m;
    if args == [] {
      KeptRefl(|L.locals|, m, T);
      GoesRefl(E, T, Point(L, m));
    } else {
      var cs := E.contracts;
      var A := LowerExpr(cs, args[0], L).0;
      LowerExprStep(cs, args[0], L);
      LowerAllStep(cs, args[1..], A);
      ExtStep(A, LowerAll(cs, args[1..], A).0, T);
      var actx := ArgCtx(cs, op, i, ctx);
      var m1 := SimExpr(E, T, args[0], actx, L, h, m);
      m' := m1;
      var r := Eval(E, args[0], actx, h);
      if r.Norm? {
        UndisturbedTail(cs, args);
        m' := SimAll(E, T, op, args[1..], i + 1, ctx, A, r.h, m1);
        SimAllCons(E, T, op, args, i, ctx, L, h, m, m1, m');
      }
    }
  }

  lemma UndisturbedTail(cs: Contracts, args: seq<Expr>)
    requires args != [] && Undisturbed(cs, args)
    ensures Undisturbed(cs, args[1..])
  {
  }

  /** One operand in front of a list that is already simulated. */
  lemma SimAllCons(E: Env, T: Builder, op: Op, args: seq<Expr>, i: nat, ctx: Ctx, L: Builder, h: Store, m: seq<Slot>,
        m1: seq<Slot>, m2: seq<Slot>)
    requires args != [] && WF(L) && !E.strict && Distinct(T.locals) && Fits(E.contracts, args[0])
    requires Undisturbed(E.contracts, args)
    requires var (A, o) := LowerExpr(E.contracts, args[0], L);
      var r := Eval(E, args[0], ArgCtx(E.contracts, op, i, ctx), h);
      Ext(A, T) && r.Norm? && Simulated(E, T, Point(L, m), A, o, |L.locals|, r, m, m1) &&
      var (B, os) := LowerAll(E.contracts, args[1..], A);
      SimulatedAll(E, T, Point(A, m1), B, os, |A.locals|, EvalArgs(E, op, args[1..], i + 1, ctx, r.h), m1, m2)
    ensures var (M, ops) := LowerAll(E.contracts, args, L);
      SimulatedAll(E, T, Point(L, m), M, ops, |L.locals|, EvalArgs(E, op, args, i, ctx, h), m, m2)
  {
    hide Reaches, Grows, Ext, Agree, Kept, Fits, Undisturbed, Eval, LowerExpr, SimulatedAll, EvalArgs, LowerAll,
      Simulated;
    var (A, o) := LowerExpr(E.contracts, args[0], L);
    var (B, os) := LowerAll(E.contracts, args[1..], A);
    var r := Eval(E, args[0], ArgCtx(E.contracts, op, i, ctx), h);
    var s := EvalArgs(E, op, args[1..], i + 1, ctx, r.h);
    ConsUnfolds(E, op, args, i, ctx, L, h);
    LowerExprStep(E.contracts, args[0], L);
    StepLocals(L, A);
    if s.NormSeq? {
      SimConsNorm(E, T, op, args, i, ctx, L, h, m, m1, m2);
    } else {
      SimConsStop(E, T, A, o, B, os, L, r, s, m, m1, m2);
    }
  }

  /** One step of operand evaluation and of operand lowering. */
  lemma ConsUnfolds(E: Env, op: Op, args: seq<Expr>, i: nat, ctx: Ctx, L: Builder, h: Store)
    requires args != [] && InRange(L)
    requires Eval(E, args[0], ArgCtx(E.contracts, op, i, ctx), h).Norm?
    ensures var r := Eval(E, args[0], ArgCtx(E.contracts, op, i, ctx), h);
      var s := EvalArgs(E, op, args[1..], i + 1, ctx, r.h);
      EvalArgs(E, op, args, i, ctx, h) == (if s.Stop? then s else NormSeq([r.v] + s.vals, s.h))
    ensures var (A, o) := LowerExpr(E.contracts, args[0], L);
      var (B, os) := LowerAll(E.contracts, args[1..], A);
      LowerAll(E.contracts, args, L) == (B, [o] + os)
  {
    hide Eval, LowerExpr;
  }

  lemma SimConsStop(E: Env, T: Builder, A: Builder, o: Operand, B: Builder, os: seq<Operand>, L: Builder, r: Out,
        s: OutSeq,
        m: seq<Slot>, m1: seq<Slot>, m2: seq<Slot>)
    requires InRange(L) && InRange(A) && InRange(B) && r.Norm? && s.Stop? && |L.locals| <= |A.locals|
    requires Simulated(E, T, Point(L, m), A, o, |L.locals|, r, m, m1)
    requires SimulatedAll(E, T, Point(A, m1), B, os, |A.locals|, s, m1, m2)
    ensures SimulatedAll(E, T, Point(L, m), B, [o] + os, |L.locals|, s, m, m2)
  {
    hide Reaches, Agree, Kept;
    SimulatedAfter(E, T, Point(L, m), Point(A, m1), B, Const(UnitV), |L.locals|, |A.locals|, s.o, m, m1, m2);
  }

  lemma SimConsNorm(E: Env, T: Builder, op: Op, args: seq<Expr>, i: nat, ctx: Ctx, L: Builder, h: Store,
        m: seq<Slot>, m1: seq<Slot>, m2: seq<Slot>)
    requires args != [] && WF(L) && !E.strict && Distinct(T.locals) && Fits(E.contracts, args[0])
    requires Undisturbed(E.contracts, args)
    requires var (A, o) := LowerExpr(E.contracts, args[0], L);
      var r := Eval(E, args[0], ArgCtx(E.contracts, op, i, ctx), h);
      Ext(A, T) && |L.locals| <= |A.locals| && r.Norm? && Simulated(E, T, Point(L, m), A, o, |L.locals|, r, m, m1) &&
      var (B, os) := LowerAll(E.contracts, args[1..], A);
      var s := EvalArgs(E, op, args[1..], i + 1, ctx, r.h);
      s.NormSeq? && SimulatedAll(E, T, Point(A, m1), B, os, |A.locals|, s, m1, m2)
    ensures var (A, o) := LowerExpr(E.contracts, args[0], L);
      var (B, os) := LowerAll(E.contracts, args[1..], A);
      var r := Eval(E, args[0], ArgCtx(E.contracts, op, i, ctx), h);
      var s := EvalArgs(E, op, args[1..], i + 1, ctx, r.h);
      SimulatedAll(E, T, Point(L, m), B, [o] + os, |L.locals|, NormSeq([r.v] + s.vals, s.h), m, m2)
  {
    hide Reaches, Grows, Ext, Agree, Kept, Fits, Undisturbed, Eval, LowerExpr, EvalArgs, LowerAll, Goes;
    var (A, o) := LowerExpr(E.contracts, args[0], L);
    var (B, os) := LowerAll(E.contracts, args[1..], A);
    OperandShape(E.contracts, args[0], L);
    OperandSurvives(E, T, op, args, i, ctx, A, o, |L.locals|, h, m1, m2);
    KeptTrans(|L.locals|, |A.locals|, m, m1, m2, T);
    GoesTrans(E, T, Point(L, m), Point(A, m1), Point(B, m2));
    assert ([o] + os)[1..] == os;
  }

  /** The first operand still has its value after the others are evaluated. */
  lemma OperandSurvives(E: Env, T: Builder, op: Op, args: seq<Expr>, i: nat, ctx: Ctx, A: Builder, o: Operand, lo: nat,
        h: Store, m1: seq<Slot>, m2: seq<Slot>)
    requires !E.strict && args != [] && Undisturbed(E.contracts, args) && OperandOk(args[0], o, lo, A.locals)
    requires Ext(A, T) && Distinct(T.locals)
    requires var r := Eval(E, args[0], ArgCtx(E.contracts, op, i, ctx), h);
      r.Norm? && Agree(r.h, m1, T) && Read(m1, o) == Some(r.v) &&
      var s := EvalArgs(E, op, args[1..], i + 1, ctx, r.h);
      s.NormSeq? && Agree(s.h, m2, T) && Kept(|A.locals|, m1, m2, T)
    ensures Read(m2, o) == Read(m1, o)
  {
    hide Eval, EvalArgs;
    var actx := ArgCtx(E.contracts, op, i, ctx);
    var r := Eval(E, args[0], actx, h);
    var s := EvalArgs(E, op, args[1..], i + 1, ctx, r.h);
    if o.Place? {
      if TailVar(args[0]).Some? {
        var x := TailVar(args[0]).value;
        TailVarHolds(E, args[0], actx, h);
        EvalArgsKeeps(E, op, args[1..], i + 1, ctx, r.h, x);
        assert T.locals[o.local] == Some(x);
        AgreeRead(r.h, m1, T, x, o.local);
        AgreeRead(s.h, m2, T, x, o.local);
      } else {
        assert T.locals[o.local].None?;
        assert m2[o.local] == m1[o.local];
      }
    }
  }

  lemma {:induction false} SimBlock(E: Env, T: Builder, e: Expr, ctx: Ctx, L: Builder, h: Store, m: seq<Slot>)
    returns (m': seq<Slot>)
    requires InRange(L) && e.Block? && Ready(E, T, L, LowerExpr(E.contracts, e, L).0, h, m) && Fits(E.contracts, e)
    ensures var (M, o) := LowerExpr(E.contracts, e, L);
      Simulated(E, T, Point(L, m), M, o, |L.locals|, Eval(E, e, ctx, h), m, m')
    decreases e, 3
  {
    hide Reaches, Grows, Ext, Agree, Kept, FitsStmts;
    var cs := E.contracts;
    LowerStmtsStep(cs, e.stmts, L);
    var A := LowerStmts(cs, e.stmts, L);
    if e.tail.None? {
      m' := SimStmts(E, T, e.stmts, L, h, m);
    } else {
      LowerExprStep(cs, e.tail.value, A);
      var (B, o) := LowerExpr(cs, e.tail.value, A);
      ExtStep(A, B, T);
      var m1 := SimStmts(E, T, e.stmts, L, h, m);
      m' := m1;
      var r := EvalStmts(E, e.stmts, h);
      if r.Norm? {
        m' := SimExpr(E, T, e.tail.value, ctx, A, r.h, m1);
        StepLocals(L, A);
        SimulatedAfter(E, T, Point(L, m), Point(A, m1), B, o, |L.locals|, |A.locals|, Eval(E, e.tail.value, ctx, r.h),
          m, m1, m');
      }
    }
  }

  // ---------- logical operators ----------

  lemma LogicTailRun(E: Env, T: Builder, L: Builder, t: nat, v: Operand, first: nat, isOr: bool, m: seq<Slot>)
    requires WF(L) && first + 2 < |L.blocks| && L.cur != first + 1 && L.cur != first + 2
    requires L.blocks[first + 1] == BasicBlock(first + 1, [], Pending)
    requires L.blocks[first + 2] == BasicBlock(first + 2, [], Pending)
    requires Ext(LogicTail(L, t, v, first, isOr), T) && |m| == |T.locals| && t < |m|
    ensures Goes(E, T, At(first + 1, 0, m), At(first + 2, 0, m[t := Live(BoolV(isOr))]))
    ensures !L.closed && Read(m, v).Some? ==> Goes(E, T, Point(L, m), At(first + 2, 0, m[t := Live(Read(m, v).value)]))
  {
    hide Reaches, Grows;
    StepRefl(L);
    EmitStep(L, Set(t, [], Use(v)));
    CloseStep(Emit(L, Set(t, [], Use(v))), Goto(first + 2));
    var X := if L.closed then L else Close(Emit(L, Set(t, [], Use(v))), Goto(first + 2));
    if !L.closed {
      StepTrans(L, Emit(L, Set(t, [], Use(v))), X);
    }
    Waiting(L, X, first + 1);
    Waiting(L, X, first + 2);
    var B := Enter(X, first + 1);
    var s := Set(t, [], Use(Const(BoolV(isOr))));
    EmitStep(B, s);
    var C := Emit(B, s);
    CloseStep(C, Goto(first + 2));
    var D := Close(C, Goto(first + 2));
    StepTrans(B, C, D);
    Waiting(B, D, first + 2);
    assert Ext(D, T);
    ExtStep(C, D, T);
    ExtStep(B, D, T);
    AtEntry(X, first + 1, m);
    SetRun(E, T, B, t, Use(Const(BoolV(isOr))), m);
    CloseRun(E.calls, C, Goto(first + 2), T, m[t := Live(BoolV(isOr))]);
    GoesTrans(E, T, At(first + 1, 0, m), Point(C, m[t := Live(BoolV(isOr))]),
      At(first + 2, 0, m[t := Live(BoolV(isOr))]));
    if !L.closed && Read(m, v).Some? {
      LogicValueRun(E, T, L, X, t, v, first, m);
    }
  }

  lemma LogicTailJoin(L: Builder, t: nat, v: Operand, first: nat, isOr: bool)
    requires WF(L) && first + 2 < |L.blocks| && L.cur != first + 1 && L.cur != first + 2
    requires L.blocks[first + 1] == BasicBlock(first + 1, [], Pending)
    requires L.blocks[first + 2] == BasicBlock(first + 2, [], Pending)
    ensures var M := LogicTail(L, t, v, first, isOr);
      M.cur == first + 2 < |M.blocks| && !M.closed && M.blocks[first + 2] == BasicBlock(first + 2, [], Pending)
  {
    hide Grows;
    StepRefl(L);
    EmitStep(L, Set(t, [], Use(v)));
    CloseStep(Emit(L, Set(t, [], Use(v))), Goto(first + 2));
    var X := if L.closed then L else Close(Emit(L, Set(t, [], Use(v))), Goto(first + 2));
    if !L.closed {
      StepTrans(L, Emit(L, Set(t, [], Use(v))), X);
    }
    Waiting(L, X, first + 1);
    Waiting(L, X, first + 2);
    var B := Enter(X, first + 1);
    var s := Set(t, [], Use(Const(BoolV(isOr))));
    EmitStep(B, s);
    CloseStep(Emit(B, s), Goto(first + 2));
    StepTrans(B, Emit(B, s), Close(Emit(B, s), Goto(first + 2)));
    Waiting(B, Close(Emit(B, s), Goto(first + 2)), first + 2);
  }

  /** The right operand's value goes to the result slot. */
  lemma LogicValueRun(E: Env, T: Builder, L: Builder, X: Builder, t: nat, v: Operand, first: nat, m: seq<Slot>)
    requires WF(L) && !L.closed && X == Close(Emit(L, Set(t, [], Use(v))), Goto(first + 2))
    requires Ext(X, T) && |m| == |T.locals| && t < |m| && Read(m, v).Some?
    ensures Goes(E, T, Point(L, m), At(first + 2, 0, m[t := Live(Read(m, v).value)]))
  {
    hide Reaches, Grows;
    var A := Emit(L, Set(t, [], Use(v)));
    EmitStep(L, Set(t, [], Use(v)));
    CloseStep(A, Goto(first + 2));
    ExtStep(A, X, T);
    SetRun(E, T, L, t, Use(v), m);
    var m1 := m[t := Live(Read(m, v).value)];
    CloseRun(E.calls, A, Goto(first + 2), T, m1);
    GoesTrans(E, T, Point(L, m), Point(A, m1), At(first + 2, 0, m1));
  }

  /** The states of a lowered `&&` or `||`. */
  datatype LogicShape = LogicShape(A: Builder, c: Operand, F: Builder, B: Builder, v: Operand, M: Builder)

  ghost function ShapeOfLogic(cs: Contracts, e: Expr, L: Builder): LogicShape
    requires InRange(L) && e.Logic?
  {
    var (A, c) := LowerExpr(cs, e.lhs, L);
    var F := LogicFork(A, c, e.isOr);
    var (B, v) := LowerExpr(cs, e.rhs, F);
    LogicShape(A, c, F, B, v, LogicTail(B, |A.locals|, v, |A.blocks|, e.isOr))
  }

  lemma LogicShapeFacts(cs: Contracts, e: Expr, L: Builder, T: Builder)
    requires WF(L) && e.Logic? && Ext(LowerLogic(cs, e, L).0, T)
    ensures var S := ShapeOfLogic(cs, e, L);
      var first, t := |S.A.blocks|, |S.A.locals|;
      && LowerLogic(cs, e, L) == (S.M, Place(t, [])) && S.A == LowerExpr(cs, e.lhs, L).0
      && S.c == LowerExpr(cs, e.lhs, L).1
      && InRange(S.F) && (S.B, S.v) == LowerExpr(cs, e.rhs, S.F) && first + 2 < |S.F.blocks|
      && S.M == LogicTail(S.B, t, S.v, first, e.isOr) && WF(S.A) && S.F == LogicFork(S.A, S.c, e.isOr)
      && Ext(S.A, T) && Ext(S.F, T) && Ext(S.B, T) && Ext(S.M, T)
      && WF(S.F) && !S.F.closed && S.F.cur == first && S.F.blocks[first] == BasicBlock(first, [], Pending)
      && WF(S.B) && S.B.cur != first + 1 && S.B.cur != first + 2 && first + 2 < |S.B.blocks|
      && S.B.blocks[first + 1] == BasicBlock(first + 1, [], Pending)
      && S.B.blocks[first + 2] == BasicBlock(first + 2, [], Pending)
      && S.M.cur == first + 2 < |S.M.blocks| && !S.M.closed
      && S.M.blocks[first + 2] == BasicBlock(first + 2, [], Pending)
      && |L.locals| <= t < |T.locals| && T.locals[t].None? && S.A.locals <= S.F.locals
  {
    hide Grows, LogicFork, LogicTail;
    var S := ShapeOfLogic(cs, e, L);
    var first, t := |S.A.blocks|, |S.A.locals|;
    LowerExprStep(cs, e.lhs, L);
    LogicForkStep(S.A, S.c, e.isOr);
    LowerExprStep(cs, e.rhs, S.F);
    Waiting(S.F, S.B, first + 1);
    Waiting(S.F, S.B, first + 2);
    LogicTailExt(S.B, t, S.v, first, e.isOr, T);
    LogicTailJoin(S.B, t, S.v, first, e.isOr);
    ExtStep(S.F, S.B, T);
    ExtStep(S.A, S.F, T);
    StepLocals(L, S.A);
    StepLocals(S.A, S.F);
    LogicSlot(S.A, S.c, e.isOr, S.F, T);
  }

  lemma {:induction false} SimLogic(E: Env, T: Builder, e: Expr, ctx: Ctx, L: Builder, h: Store, m: seq<Slot>)
    returns (m': seq<Slot>)
    requires InRange(L) && e.Logic? && Ready(E, T, L, LowerExpr(E.contracts, e, L).0, h, m) && Fits(E.contracts, e)
    ensures var (M, o) := LowerExpr(E.contracts, e, L);
      Simulated(E, T, Point(L, m), M, o, |L.locals|, Eval(E, e, ctx, h), m, m')
    decreases e, 3
  {
    hide Reaches, Grows, Ext, Agree, Kept, LogicFork, LogicTail, LowerLogic, ShapeOfLogic, Goes, Simulated;
    var cs := E.contracts;
    var S := ShapeOfLogic(cs, e, L);
    LogicShapeFacts(cs, e, L, T);
    var first, t := |S.A.blocks|, |S.A.locals|;
    var m1 := SimExpr(E, T, e.lhs, ReadCtx, L, h, m);
    m' := m1;
    var r := Eval(E, e.lhs, ReadCtx, h);
    var o := Place(t, []);
    if !r.Norm? {
      SimulatedStop(E, T, Point(L, m), S.A, S.c, S.M, o, |L.locals|, r, m, m1);
      return;
    }
    SimulatedMeans(E, T, Point(L, m), S.A, S.c, |L.locals|, r, m, m1);
    m' := SimLogicRest(E, T, e, L, r.v, r.h, m, m1);
  }

  /** What follows the left operand, whose value is `v`. */
  lemma {:induction false} SimLogicRest(E: Env, T: Builder, e: Expr, L: Builder, v: Value, h: Store,
        m: seq<Slot>, m1: seq<Slot>)
    returns (m': seq<Slot>)
    requires InRange(L) && WF(L) && !E.strict && e.Logic? && Fits(E.contracts, e) && Distinct(T.locals)
    requires Ext(LowerLogic(E.contracts, e, L).0, T) && |m1| == |T.locals|
    requires var (A, c) := LowerExpr(E.contracts, e.lhs, L);
      InRange(A) && !A.closed && Read(m1, c) == Some(v) && Goes(E, T, Point(L, m), Point(A, m1))
    requires Agree(h, m1, T) && Kept(|L.locals|, m, m1, T)
    ensures var (M, o) := LowerLogic(E.contracts, e, L);
      InRange(M) && Simulated(E, T, Point(L, m), M, o, |L.locals|,
        if !v.BoolV? then Trap else if v.b == e.isOr then Norm(v, h) else Eval(E, e.rhs, ReadCtx, h), m, m')
    decreases e, 2
  {
    hide Reaches, Grows, Ext, Agree, Kept, LogicFork, LogicTail, LowerLogic, ShapeOfLogic, Goes, Simulated, Eval;
    var S := ShapeOfLogic(E.contracts, e, L);
    LogicShapeFacts(E.contracts, e, L, T);
    var first, t := |S.A.blocks|, |S.A.locals|;
    var o := Place(t, []);
    m' := m1;
    LogicForkRun(E, T, S.A, S.c, e.isOr, S.F, m1);
    if !v.BoolV? {
      SimulatedTrap(E, T, Point(L, m), Point(S.A, m1), S.M, o, |L.locals|, m, m1);
    } else if v.b == e.isOr {
      LogicTailRun(E, T, S.B, t, S.v, first, e.isOr, m1);
      m' := m1[t := Live(v)];
      AgreeTemp(h, m1, T, t, Live(v));
      KeptSet(|L.locals|, m, m1, T, t, Live(v));
      GoesTrans(E, T, Point(L, m), Point(S.A, m1), At(first + 1, 0, m1));
      GoesTrans(E, T, Point(L, m), At(first + 1, 0, m1), Point(S.M, m'));
      SimulatedNorm(E, T, Point(L, m), S.M, o, |L.locals|, v, h, m, m');
    } else {
      GoesTrans(E, T, Point(L, m), Point(S.A, m1), Point(S.F, m1));
      m' := SimLogicRhs(E, T, e, L, S.A, S.F, first, t, Point(L, m), h, m, m1);
    }
  }

  lemma LogicSlot(A: Builder, c: Operand, isOr: bool, F: Builder, T: Builder)
    requires InRange(A) && F == LogicFork(A, c, isOr) && Ext(F, T)
    ensures |A.locals| < |T.locals| && T.locals[|A.locals|].None?
  {
    LogicForkLocals(A, c, isOr);
    assert F.locals[|A.locals|].None?;
  }

  lemma LogicTailExt(B: Builder, t: nat, v: Operand, first: nat, isOr: bool, T: Builder)
    requires WF(B) && first + 2 < |B.blocks| && B.cur != first + 1 && B.cur != first + 2
    requires B.blocks[first + 1].term.Pending? && B.blocks[first + 2].term.Pending?
    requires Ext(LogicTail(B, t, v, first, isOr), T)
    ensures Ext(B, T)
  {
    hide Grows;
    StepRefl(B);
    EmitStep(B, Set(t, [], Use(v)));
    CloseStep(Emit(B, Set(t, [], Use(v))), Goto(first + 2));
    var X := if B.closed then B else Close(Emit(B, Set(t, [], Use(v))), Goto(first + 2));
    if !B.closed {
      StepTrans(B, Emit(B, Set(t, [], Use(v))), X);
    }
    Waiting(B, X, first + 1);
    Waiting(B, X, first + 2);
    var Y := Enter(X, first + 1);
    var s := Set(t, [], Use(Const(BoolV(isOr))));
    EmitStep(Y, s);
    CloseStep(Emit(Y, s), Goto(first + 2));
    StepTrans(Y, Emit(Y, s), Close(Emit(Y, s), Goto(first + 2)));
    assert Ext(Close(Emit(Y, s), Goto(first + 2)), T);
    ExtStep(Y, Close(Emit(Y, s), Goto(first + 2)), T);
    assert Ext(X, T);
    ExtStep(B, X, T);
  }

  lemma LogicForkRun(E: Env, T: Builder, A: Builder, c: Operand, isOr: bool, F: Builder, m: seq<Slot>)
    requires WF(A) && !A.closed && F == LogicFork(A, c, isOr) && Ext(F, T)
    ensures var first := |A.blocks|;
      Goes(E, T, Point(A, m), Jump(Branch(c, if isOr then first + 1 else first, if isOr then first else first + 1), m))
  {
    hide Reaches, Grows, Fork;
    var first := |A.blocks|;
    AllocStep(A, None);
    ForkRun(E, T, Alloc(A, None), 3, Branch(c, if isOr then first + 1 else first, if isOr then first else first + 1),
      first, m);
  }

  /** The right operand is evaluated because the left one did not decide. */
  lemma {:induction false} SimLogicRhs(E: Env, T: Builder, e: Expr, L: Builder, A: Builder, F: Builder, first: nat,
        t: nat, c: Cfg, h: Store, m: seq<Slot>, m1: seq<Slot>)
    returns (m': seq<Slot>)
    requires e.Logic? && Fits(E.contracts, e) && WF(F) && !F.closed
    requires |L.locals| <= t == |A.locals| < |T.locals| && T.locals[t].None? && A.locals <= F.locals
    requires Ready(E, T, F, LowerExpr(E.contracts, e.rhs, F).0, h, m1) && Kept(|L.locals|, m, m1, T)
    requires Goes(E, T, c, Point(F, m1))
    requires var (B, v) := LowerExpr(E.contracts, e.rhs, F);
      B.cur != first + 1 && B.cur != first + 2 && first + 2 < |B.blocks| && WF(B) &&
      B.blocks[first + 1] == BasicBlock(first + 1, [], Pending) &&
      B.blocks[first + 2] == BasicBlock(first + 2, [], Pending) &&
      Ext(LogicTail(B, t, v, first, e.isOr), T)
    ensures var (B, v) := LowerExpr(E.contracts, e.rhs, F);
      Simulated(E, T, c, LogicTail(B, t, v, first, e.isOr), Place(t, []), |L.locals|, Eval(E, e.rhs, ReadCtx, h), m, m')
    decreases e, 1
  {
    hide Reaches, Grows, Ext, Agree, Kept, LogicTail;
    var (B, v) := LowerExpr(E.contracts, e.rhs, F);
    var m2 := SimExpr(E, T, e.rhs, ReadCtx, F, h, m1);
    m' := m2;
    LogicTailJoin(B, t, v, first, e.isOr);
    SimulatedAfter(E, T, c, Point(F, m1), B, v, |L.locals|, |F.locals|, Eval(E, e.rhs, ReadCtx, h), m, m1, m2);
    var r := Eval(E, e.rhs, ReadCtx, h);
    if r.Norm? {
      LogicTailRun(E, T, B, t, v, first, e.isOr, m2);
      m' := m2[t := Live(r.v)];
      AgreeTemp(r.h, m2, T, t, Live(r.v));
      KeptSet(|L.locals|, m, m2, T, t, Live(r.v));
      GoesTrans(E, T, c, Point(B, m2), At(first + 2, 0, m'));
    }
  }

  // ---------- if ----------

  lemma {:induction false} SimBranch(E: Env, T: Builder, e: Expr, ctx: Ctx, unit: bool, result: Option<nat>, join: nat,
        n: nat, L: Builder, h: Store, m: seq<Slot>)
    returns (m': seq<Slot>)
    requires InRange(L) && Ready(E, T, L, LowerBranch(E.contracts, e, result, join, L), h, m) && Fits(E.contracts, e)
    requires SlotFor(T, unit, result, n) && n <= |L.locals|
    ensures Joins(E, T, Point(L, m), join, ResultOperand(result), n, Coerce(unit, Eval(E, e, ctx, h)), m, m')
    decreases e, 5
  {
    hide Reaches, Grows, Ext, Agree, Kept, EndArm;
    var (A, o) := LowerExpr(E.contracts, e, L);
    LowerExprStep(E.contracts, e, L);
    EndArmStep(A, result, o, join);
    ExtStep(A, EndArm(A, result, o, join), T);
    var m1 := SimExpr(E, T, e, ctx, L, h, m);
    m' := m1;
    var r := Eval(E, e, ctx, h);
    if r.Norm? {
      KeptLess(n, |L.locals|, m, m1, T);
      m' := EndArmRun(E, T, A, unit, result, o, join, n, r.v, r.h, m, m1);
      JoinsFrom(E, T, Point(L, m), Point(A, m1), join, ResultOperand(result), n, Coerce(unit, r), m, m');
    }
  }

  lemma KeptLess(n: nat, k: nat, m: seq<Slot>, m1: seq<Slot>, T: Builder)
    requires Kept(k, m, m1, T) && n <= k
    ensures Kept(n, m, m1, T)
  {
  }

  lemma JoinsFrom(E: Env, T: Builder, c: Cfg, d: Cfg, join: nat, o: Operand, n: nat, out: Out, m: seq<Slot>,
        m': seq<Slot>)
    requires Goes(E, T, c, d) && Joins(E, T, d, join, o, n, out, m, m')
    ensures Joins(E, T, c, join, o, n, out, m, m')
  {
    match out
    case Norm(v, h) => GoesTrans(E, T, c, d, At(join, 0, m'));
    case Ret(v) => GoesTrans(E, T, c, d, Done(Returned(v)));
    case Trap => GoesTrans(E, T, c, d, Done(Trapped));
    case Misuse =>
  }

  /** The blocks and states of a lowered `if`. */
  datatype IfShape = IfShape(A: Builder, c: Operand, B: Builder, result: Option<nat>, first: nat, join: nat, F: Builder,
    C: Builder, M: Builder)

  ghost function ShapeOfIf(cs: Contracts, e: Expr, L: Builder): IfShape
    requires InRange(L) && e.If?
  {
    var (A, c) := LowerExpr(cs, e.cond, L);
    var (B, result) := ResultSlot(A, e.unit);
    var first := |B.blocks|;
    var n := if e.els.None? then 2 else 3;
    var F := Fork(B, n, Branch(c, first, first + 1), first);
    var C := LowerBranch(cs, e.thn, result, first + n - 1, F);
    IfShape(A, c, B, result, first, first + n - 1, F, C, LowerIf(cs, e, L).0)
  }

  /** What holds when the then-branch has been lowered. */
  ghost predicate IfThenFacts(e: Expr, L: Builder, S: IfShape)
    requires e.If?
  {
    && Step(L, S.A) && WF(S.B) && S.B.blocks == S.A.blocks && S.B.cur == S.A.cur && S.B.closed == S.A.closed
    && Step(S.A, S.B) && Step(S.B, S.F) && !S.F.closed && S.F.cur == S.first && S.B.locals == S.F.locals
    && S.first < |S.F.blocks| && S.F.blocks[S.first] == BasicBlock(S.first, [], Pending)
    && Step(S.F, S.C) && S.first + 1 < |S.C.blocks| && S.C.blocks[S.first + 1] == BasicBlock(S.first + 1, [], Pending)
    && S.join < |S.C.blocks| && S.C.blocks[S.join] == BasicBlock(S.join, [], Pending) && S.C.cur != S.join
    && S.join == S.first + (if e.els.None? then 1 else 2)
  }

  lemma IfThen(cs: Contracts, e: Expr, L: Builder)
    requires WF(L) && e.If?
    ensures IfThenFacts(e, L, ShapeOfIf(cs, e, L))
  {
    hide Grows, Fork, LowerBranch;
    var S := ShapeOfIf(cs, e, L);
    LowerExprStep(cs, e.cond, L);
    ResultSlotStep(S.A, e.unit);
    var n := if e.els.None? then 2 else 3;
    ForkStep(S.B, n, Branch(S.c, S.first, S.first + 1), S.first);
    LowerBranchStep(cs, e.thn, S.result, S.join, S.F);
    Waiting(S.F, S.C, S.first + 1);
    Waiting(S.F, S.C, S.join);
  }

  lemma IfElse(cs: Contracts, e: Expr, L: Builder, S: IfShape, T: Builder)
    requires WF(L) && e.If? && e.els.Some? && S == ShapeOfIf(cs, e, L) && IfThenFacts(e, L, S)
    requires Ext(LowerIf(cs, e, L).0, T)
    ensures var D := LowerBranch(cs, e.els.value, S.result, S.join, Enter(S.C, S.first + 1));
      Ext(D, T) && S.M == Enter(D, S.join) && S.join < |D.blocks| &&
      D.blocks[S.join] == BasicBlock(S.join, [], Pending) && Ext(S.C, T)
  {
    hide Grows, Fork, LowerBranch;
    var G := Enter(S.C, S.first + 1);
    StepTrans(S.B, S.F, S.C);
    EnterStep(S.B, S.C, S.first + 1);
    LowerBranchStep(cs, e.els.value, S.result, S.join, G);
    var D := LowerBranch(cs, e.els.value, S.result, S.join, G);
    Waiting(G, D, S.join);
    assert Ext(D, T);
    ExtStep(G, D, T);
  }

  lemma IfShapeFacts(cs: Contracts, e: Expr, L: Builder, T: Builder)
    requires WF(L) && e.If? && Ext(LowerIf(cs, e, L).0, T)
    ensures var S := ShapeOfIf(cs, e, L);
      && IfThenFacts(e, L, S) && Ext(S.A, T) && Ext(S.F, T) && Ext(S.C, T) && |S.A.locals| <= |S.B.locals|
      && SlotFor(T, e.unit, S.result, |S.A.locals|)
      && (e.els.None? ==> S.M == Enter(S.C, S.join))
      && (e.els.Some? ==>
            var D := LowerBranch(cs, e.els.value, S.result, S.join, Enter(S.C, S.first + 1));
            Ext(D, T) && S.M == Enter(D, S.join) && S.join < |D.blocks| &&
            D.blocks[S.join] == BasicBlock(S.join, [], Pending))
  {
    hide Grows, Fork, LowerBranch;
    var S := ShapeOfIf(cs, e, L);
    IfThen(cs, e, L);
    if e.els.Some? {
      IfElse(cs, e, L, S, T);
    }
    assert Ext(S.C, T);
    ExtStep(S.F, S.C, T);
    ExtStep(S.B, S.F, T);
    ExtStep(S.A, S.B, T);
    StepLocals(S.A, S.B);
    assert S.B.locals <= T.locals;
  }

  lemma {:induction false} SimIf(E: Env, T: Builder, e: Expr, ctx: Ctx, L: Builder, h: Store, m: seq<Slot>)
    returns (m': seq<Slot>)
    requires InRange(L) && e.If? && Ready(E, T, L, LowerExpr(E.contracts, e, L).0, h, m) && Fits(E.contracts, e)
    ensures var (M, o) := LowerExpr(E.contracts, e, L);
      Simulated(E, T, Point(L, m), M, o, |L.locals|, Eval(E, e, ctx, h), m, m')
    decreases e, 3
  {
    hide Reaches, Grows, Ext, Agree, Kept, LowerIf, Fork, ShapeOfIf, Simulated, Goes;
    var cs := E.contracts;
    var S := ShapeOfIf(cs, e, L);
    IfShapeFacts(cs, e, L, T);
    IfShapeIs(cs, e, L);
    StepLocals(L, S.A);
    var m1 := SimExpr(E, T, e.cond, ReadCtx, L, h, m);
    m' := m1;
    var r := Eval(E, e.cond, ReadCtx, h);
    var (M, o) := LowerExpr(cs, e, L);
    if r.Norm? {
      SimulatedMeans(E, T, Point(L, m), S.A, S.c, |L.locals|, r, m, m1);
      IfForkRun(E, T, cs, e, L, m1);
      if !r.v.BoolV? {
        SimulatedTrap(E, T, Point(L, m), Point(S.A, m1), M, o, |L.locals|, m, m1);
      } else {
        GoesTrans(E, T, Point(L, m), Point(S.A, m1), At(if r.v.b then S.first else S.first + 1, 0, m1));
        m' := SimIfBranches(E, T, e, ctx, L, S, r.v.b, Point(L, m), r.h, m, m1);
      }
    } else {
      SimulatedStop(E, T, Point(L, m), S.A, S.c, M, o, |L.locals|, r, m, m1);
    }
  }

  lemma IfShapeIs(cs: Contracts, e: Expr, L: Builder)
    requires InRange(L) && e.If?
    ensures var S := ShapeOfIf(cs, e, L);
      S.A == LowerExpr(cs, e.cond, L).0 && S.c == LowerExpr(cs, e.cond, L).1 && S.M == LowerIf(cs, e, L).0 &&
      LowerIf(cs, e, L).1 == ResultOperand(S.result) && InRange(S.F) &&
      S.C == LowerBranch(cs, e.thn, S.result, S.join, S.F) &&
      S.join == S.first + (if e.els.None? then 1 else 2)
  {
  }

  lemma IfForkRun(E: Env, T: Builder, cs: Contracts, e: Expr, L: Builder, m: seq<Slot>)
    requires WF(L) && e.If? && Ext(LowerIf(cs, e, L).0, T) && !ShapeOfIf(cs, e, L).A.closed
    ensures var S := ShapeOfIf(cs, e, L);
      InRange(S.A) && Goes(E, T, Point(S.A, m), Jump(Branch(S.c, S.first, S.first + 1), m))
  {
    hide Reaches, Grows, Fork, LowerBranch, LowerIf;
    IfShapeFacts(cs, e, L, T);
    var S := ShapeOfIf(cs, e, L);
    var n := if e.els.None? then 2 else 3;
    ForkRun(E, T, S.B, n, Branch(S.c, S.first, S.first + 1), S.first, m);
  }

  /** The chosen branch of an `if`. */
  lemma {:induction false} SimIfBranches(E: Env, T: Builder, e: Expr, ctx: Ctx, L: Builder, S: IfShape, b: bool, c: Cfg,
        h: Store, m: seq<Slot>, m1: seq<Slot>)
    returns (m': seq<Slot>)
    requires WF(L) && e.If? && Fits(E.contracts, e) && Ext(LowerIf(E.contracts, e, L).0, T)
    requires S == ShapeOfIf(E.contracts, e, L)
    requires !E.strict && |m1| == |T.locals| && Agree(h, m1, T) && Distinct(T.locals) && Kept(|L.locals|, m, m1, T)
    requires Goes(E, T, c, At(if b then S.first else S.first + 1, 0, m1))
    ensures InRange(S.M) && Simulated(E, T, c, S.M, ResultOperand(S.result), |L.locals|,
      if b then Coerce(e.unit, Eval(E, e.thn, ctx, h))
      else if e.els.Some? then Coerce(e.unit, Eval(E, e.els.value, ctx, h))
      else Norm(UnitV, h), m, m')
    decreases e, 2
  {
    hide Reaches, Grows, Ext, Agree, Kept, LowerIf, ShapeOfIf;
    var cs := E.contracts;
    IfShapeFacts(cs, e, L, T);
    IfShapeIs(cs, e, L);
    StepLocals(L, S.A);
    var n := |S.A.locals|;
    m' := m1;
    if b {
      AtEntry(S.F, S.first, m1);
      m' := SimBranch(E, T, e.thn, ctx, e.unit, S.result, S.join, n, S.F, h, m1);
      JoinsAfter(E, T, c, At(S.first, 0, m1), S.join, ResultOperand(S.result), |L.locals|, n,
        Coerce(e.unit, Eval(E, e.thn, ctx, h)), m, m1, m');
      IfJoinBlock(cs, e, L, T);
      JoinsSimulated(E, T, c, S.M, S.join, ResultOperand(S.result), |L.locals|, Coerce(e.unit, Eval(E, e.thn, ctx, h)),
        m, m');
    } else if e.els.Some? {
      var G := Enter(S.C, S.first + 1);
      AtEntry(S.C, S.first + 1, m1);
      EnterExt(S.C, S.first + 1, T);
      IfElseLocals(cs, e, L, S, T);
      m' := SimBranch(E, T, e.els.value, ctx, e.unit, S.result, S.join, n, G, h, m1);
      JoinsAfter(E, T, c, At(S.first + 1, 0, m1), S.join, ResultOperand(S.result), |L.locals|, n,
        Coerce(e.unit, Eval(E, e.els.value, ctx, h)), m, m1, m');
      IfJoinBlock(cs, e, L, T);
      JoinsSimulated(E, T, c, S.M, S.join, ResultOperand(S.result), |L.locals|,
        Coerce(e.unit, Eval(E, e.els.value, ctx, h)), m, m');
    } else {
      AtEntry(S.C, S.join, m1);
    }
  }

  lemma EnterExt(L: Builder, b: nat, T: Builder)
    requires Ext(L, T)
    ensures Ext(Enter(L, b), T)
  {
  }

  lemma IfElseLocals(cs: Contracts, e: Expr, L: Builder, S: IfShape, T: Builder)
    requires WF(L) && e.If? && S == ShapeOfIf(cs, e, L) && Ext(LowerIf(cs, e, L).0, T)
    ensures |S.A.locals| <= |S.C.locals|
  {
    hide Grows, LowerBranch, LowerIf, Fork;
    IfShapeFacts(cs, e, L, T);
    StepLocals(S.F, S.C);
  }

  lemma IfJoinBlock(cs: Contracts, e: Expr, L: Builder, T: Builder)
    requires WF(L) && e.If? && Ext(LowerIf(cs, e, L).0, T)
    ensures var S := ShapeOfIf(cs, e, L);
      S.join < |S.M.blocks| && S.M.blocks[S.join] == BasicBlock(S.join, [], Pending) && S.M == Enter(S.M, S.join)
  {
    hide Grows, LowerBranch, LowerIf, Fork;
    IfShapeFacts(cs, e, L, T);
  }

  // ---------- match ----------

  lemma {:induction false} SimBinds(E: Env, T: Builder, binds: seq<Option<Sym>>, n: nat, scrut: Operand, v: Value,
        L: Builder, h: Store, m: seq<Slot>)
    returns (m': seq<Slot>)
    requires InRange(L) && n <= |binds| && v.VariantV? && Ready(E, T, L, LowerBinds(binds, n, scrut, L), h, m)
    requires Read(m, scrut) == Some(v) && KeepsOperand(T, scrut, |L.locals|, BindSet(binds))
    ensures var g := BindPayload(binds, n, v.payload, h);
      var M := LowerBinds(binds, n, scrut, L);
      Simulated(E, T, Point(L, m), M, Const(UnitV), |L.locals|,
        if g.None? then Trap else Norm(UnitV, g.value), m, m') &&
      (g.Some? ==> Read(m', scrut) == Some(v))
    decreases n
  {
    hide Reaches, Grows, Ext, Agree, Kept, Goes, Emit;
    m' := m;
    if n == 0 {
      SimStay(E, T, Const(UnitV), UnitV, L, h, m);
    } else {
      var A := LowerBinds(binds, n - 1, scrut, L);
      var M := LowerBinds(binds, n, scrut, L);
      LowerBindsStep(binds, n - 1, scrut, L);
      BindStep(binds, n, scrut, A);
      ExtStep(A, M, T);
      m' := SimBinds(E, T, binds, n - 1, scrut, v, L, h, m);
      var g := BindPayload(binds, n - 1, v.payload, h);
      StepLocals(L, A);
      if g.Some? && binds[n - 1].Some? {
        var m1 := m';
        var x := binds[n - 1].value;
        assert x in BindSet(binds);
        m' := SimBindOne(E, T, A, x, Payload(scrut, n - 1),
          if n - 1 < |v.payload| then Some(v.payload[n - 1]) else None, g.value, m1, scrut, v, |L.locals|,
          BindSet(binds));
        SimulatedAfter(E, T, Point(L, m), Point(A, m1), M, Const(UnitV), |L.locals|, |L.locals|,
          if n - 1 < |v.payload| then Norm(UnitV, g.value[x := Live(v.payload[n - 1])]) else Trap, m, m1, m');
      }
    }
  }

  /** Writing the slots of `syms` leaves the operand alone. */
  ghost predicate KeepsOperand(T: Builder, o: Operand, n: nat, syms: set<Sym>) {
    o.Place? ==>
      o.local < |T.locals| && (if T.locals[o.local].Some? then T.locals[o.local].value !in syms else o.local < n)
  }

  lemma BindStep(binds: seq<Option<Sym>>, n: nat, scrut: Operand, A: Builder)
    requires 0 < n <= |binds| && WF(A)
    ensures Step(A, if binds[n - 1].None? then A else
      var (B, l) := LocalFor(A, binds[n - 1].value); Emit(B, Set(l, [], Payload(scrut, n - 1))))
  {
    hide Grows, Emit;
    StepRefl(A);
    if binds[n - 1].Some? {
      var (B, l) := LocalFor(A, binds[n - 1].value);
      LocalForStep(A, binds[n - 1].value);
      EmitStep(B, Set(l, [], Payload(scrut, n - 1)));
      StepTrans(A, B, Emit(B, Set(l, [], Payload(scrut, n - 1))));
    }
  }

  /** Binding one symbol from a value read out of the scrutinee. */
  lemma SimBindOne(E: Env, T: Builder, A: Builder, x: Sym, rv: Rvalue, w: Option<Value>, h: Store, m: seq<Slot>,
        scrut: Operand, v: Value, n: nat, syms: set<Sym>)
    returns (m': seq<Slot>)
    requires !E.strict && WF(A) && !A.closed && |m| == |T.locals| && Agree(h, m, T) && Distinct(T.locals)
    requires n <= |A.locals|
    requires var (B, l) := LocalFor(A, x); Ext(Emit(B, Set(l, [], rv)), T)
    requires Exec(E.calls, m, rv) == (if w.None? then None else Some(Computed(w.value, m)))
    requires Read(m, scrut) == Some(v) && x in syms && KeepsOperand(T, scrut, n, syms)
    ensures var (B, l) := LocalFor(A, x);
      Simulated(E, T, Point(A, m), Emit(B, Set(l, [], rv)), Const(UnitV), n,
        if w.None? then Trap else Norm(UnitV, h[x := Live(w.value)]), m, m') &&
      (w.Some? ==> Read(m', scrut) == Some(v))
  {
    hide Reaches, Grows;
    var (B, l) := LocalFor(A, x);
    LocalForStep(A, x);
    EmitStep(B, Set(l, [], rv));
    StepLocals(B, Emit(B, Set(l, [], rv)));
    assert T.locals[l] == Some(x);
    SetRun(E, T, B, l, rv, m);
    m' := m;
    if w.Some? {
      m' := m[l := Live(w.value)];
      AgreeSet(h, m, T, x, l, Live(w.value));
      KeptRefl(n, m, T);
      KeptSet(n, m, m, T, l, Live(w.value));
    }
  }

  lemma SimPat(E: Env, T: Builder, p: Pat, scrut: Operand, v: Value, L: Builder, h: Store, m: seq<Slot>)
    returns (m': seq<Slot>)
    requires InRange(L) && v.VariantV? && Ready(E, T, L, LowerPat(p, scrut, L), h, m)
    requires Read(m, scrut) == Some(v) && KeepsOperand(T, scrut, |L.locals|, PatSyms(p))
    ensures var g := BindArm(p, v, h);
      Simulated(E, T, Point(L, m), LowerPat(p, scrut, L), Const(UnitV), |L.locals|,
        if g.None? then Trap else Norm(UnitV, g.value), m, m')
  {
    hide Reaches, Grows, Ext, Agree, Kept;
    m' := m;
    match p
    case VariantPat(_, binds) => m' := SimBinds(E, T, binds, |binds|, scrut, v, L, h, m);
    case BindPat(Some(s)) => m' := SimBindOne(E, T, L, s, Duplicate(scrut), Some(v), h, m, scrut, v, |L.locals|, {s});
    case BindPat(None) => SimStay(E, T, Const(UnitV), UnitV, L, h, m);
    case PoisonPat => SimStay(E, T, Const(UnitV), UnitV, L, h, m);
  }

  function ArmOut(E: Env, arm: Arm, v: Value, ctx: Ctx, h: Store): Out
    requires v.VariantV?
  {
    var g := BindArm(arm.pat, v, h);
    if g.None? then Trap else Eval(E, arm.body, ctx, g.value)
  }

  lemma {:induction false} SimArm(E: Env, T: Builder, arm: Arm, v: Value, ctx: Ctx, unit: bool, s: Operand,
        result: Option<nat>, join: nat, n: nat, L: Builder, h: Store, m: seq<Slot>)
    returns (m': seq<Slot>)
    requires InRange(L) && v.VariantV? && Ready(E, T, L, LowerArm(E.contracts, arm, s, result, join, L), h, m)
    requires FitsArm(E.contracts, arm)
    requires SlotFor(T, unit, result, n) && n <= |L.locals|
    requires Read(m, s) == Some(v) && KeepsOperand(T, s, |L.locals|, PatSyms(arm.pat))
    ensures Joins(E, T, Point(L, m), join, ResultOperand(result), n, Coerce(unit, ArmOut(E, arm, v, ctx, h)), m, m')
    decreases arm, 5
  {
    hide Reaches, Grows, Ext, Agree, Kept, LowerPat, LowerBranch;
    var A := LowerPat(arm.pat, s, L);
    LowerPatStep(arm.pat, s, L);
    LowerBranchStep(E.contracts, arm.body, result, join, A);
    ExtStep(A, LowerBranch(E.contracts, arm.body, result, join, A), T);
    var m1 := SimPat(E, T, arm.pat, s, v, L, h, m);
    m' := m1;
    var g := BindArm(arm.pat, v, h);
    if g.Some? {
      StepLocals(L, A);
      KeptLess(n, |L.locals|, m, m1, T);
      m' := SimBranch(E, T, arm.body, ctx, unit, result, join, n, A, g.value, m1);
      JoinsAfter(E, T, Point(L, m), Point(A, m1), join, ResultOperand(result), n, n,
        Coerce(unit, ArmOut(E, arm, v, ctx, h)), m, m1, m');
    }
  }

  /** The arm the reference semantics selects runs from its own block to the join block. */
  lemma {:induction false} SimArms(E: Env, T: Builder, arms: seq<Arm>, v: Value, ctx: Ctx, unit: bool, bb: nat,
        s: Operand, result: Option<nat>, join: nat, n: nat, L: Builder, h: Store, m: seq<Slot>)
    returns (m': seq<Slot>)
    requires !E.strict && WF(L) && L.closed && bb + |arms| <= |L.blocks| && !(bb <= L.cur < bb + |arms|)
    requires forall b {:trigger L.blocks[b]} :: bb <= b < bb + |arms| ==> L.blocks[b] == BasicBlock(b, [], Pending)
    requires v.VariantV? && FindArm(arms, v.tag).Some? && FitsArms(E.contracts, arms)
    requires Ext(LowerArms(E.contracts, arms, bb, s, result, join, L), T) && |m| == |T.locals| && Agree(h, m, T)
    requires Distinct(T.locals)
    requires SlotFor(T, unit, result, n) && n <= |L.locals| && Read(m, s) == Some(v)
    requires forall k {:trigger arms[k]} :: 0 <= k < |arms| ==> KeepsOperand(T, s, |L.locals|, PatSyms(arms[k].pat))
    ensures var k := FindArm(arms, v.tag).value;
      Joins(E, T, At(bb + k, 0, m), join, ResultOperand(result), n, Coerce(unit, ArmOut(E, arms[k], v, ctx, h)), m, m')
    decreases arms, 0
  {
    hide Reaches, Grows, Agree, Kept, LowerArm, GrowsIn, Ext, KeepsOperand;
    var cs := E.contracts;
    var G := Enter(L, bb);
    var A := LowerArm(cs, arms[0], s, result, join, G);
    LowerArmStep(cs, arms[0], s, result, join, G);
    ArmsTail(G, A, bb, |arms|);
    var Z := LowerArms(cs, arms[1..], bb + 1, s, result, join, A);
    LowerArmsStep(cs, arms[1..], bb + 1, s, result, join, A);
    ExtIn(A, Z, bb + 1, |arms| - 1, T);
    if PatMatches(arms[0].pat, v.tag) {
      AtEntry(L, bb, m);
      m' := SimArm(E, T, arms[0], v, ctx, unit, s, result, join, n, G, h, m);
    } else {
      StepLocals(G, A);
      forall k {:trigger arms[1..][k]} | 0 <= k < |arms| - 1
        ensures KeepsOperand(T, s, |A.locals|, PatSyms(arms[1..][k].pat))
      {
        OperandKeptMore(T, s, |L.locals|, |A.locals|, PatSyms(arms[k + 1].pat));
      }
      m' := SimArms(E, T, arms[1..], v, ctx, unit, bb + 1, s, result, join, n, A, h, m);
    }
  }

  lemma OperandKeptMore(T: Builder, o: Operand, n: nat, k: nat, syms: set<Sym>)
    requires KeepsOperand(T, o, n, syms) && n <= k
    ensures KeepsOperand(T, o, k, syms)
  {
  }

  lemma ArmsTail(G: Builder, A: Builder, bb: nat, n: nat)
    requires Step(G, A) && G.cur == bb && 0 < n && bb + n <= |G.blocks|
    requires forall b {:trigger G.blocks[b]} :: bb <= b < bb + n ==> G.blocks[b] == BasicBlock(b, [], Pending)
    ensures bb + n <= |A.blocks| && !(bb + 1 <= A.cur < bb + n)
    ensures forall b {:trigger A.blocks[b]} :: bb + 1 <= b < bb + n ==> A.blocks[b] == BasicBlock(b, [], Pending)
  {
    forall b {:trigger A.blocks[b]} | bb + 1 <= b < bb + n
      ensures b < |A.blocks| && A.blocks[b] == BasicBlock(b, [], Pending)
    {
      Waiting(G, A, b);
    }
  }

  lemma ExtIn(L: Builder, M: Builder, bb: nat, n: nat, T: Builder)
    requires GrowsIn(L, M, bb, n) && Ext(M, T)
    ensures Ext(L, T)
  {
    forall b {:trigger T.blocks[b]} | 0 <= b < |L.blocks|
      ensures L.blocks[b].stmts <= T.blocks[b].stmts && (!L.blocks[b].term.Pending? ==> L.blocks[b] == T.blocks[b])
    {
      assert BlockGrows(L.blocks[b], M.blocks[b], bb <= b < bb + n);
    }
  }

  lemma MatchForkRun(E: Env, T: Builder, L: Builder, s: Operand, arms: seq<Arm>, m: seq<Slot>)
    requires WF(L) && !L.closed && Ext(MatchFork(L, s, arms), T)
    ensures Goes(E, T, Point(L, m),
      Jump(Switch(s, ArmTargets(arms, |L.blocks| + 1), DefaultTarget(arms, |L.blocks| + 1)), m))
  {
    hide Reaches;
    var A := AddBlocks(L, 1 + |arms|);
    AddBlocksStep(L, 1 + |arms|);
    assert A.blocks[L.cur] == L.blocks[L.cur];
    CloseRun(E.calls, A, Switch(s, ArmTargets(arms, |L.blocks| + 1), DefaultTarget(arms, |L.blocks| + 1)), T, m);
  }

  /** The states of a lowered `match`. */
  datatype MatchShape = MatchShape(A: Builder, o: Operand, B: Builder, result: Option<nat>, join: nat, F: Builder,
    C: Builder)

  ghost function ShapeOfMatch(cs: Contracts, e: Expr, L: Builder): MatchShape
    requires InRange(L) && e.Match?
  {
    var (A, o) := LowerExpr(cs, e.scrut, L);
    var (B, result) := ResultSlot(A, e.unit);
    var join := |B.blocks|;
    var F := MatchFork(B, o, e.arms);
    MatchShape(A, o, B, result, join, F, LowerArms(cs, e.arms, join + 1, o, result, join, F))
  }

  lemma MatchShapeFacts(cs: Contracts, e: Expr, L: Builder, T: Builder)
    requires WF(L) && e.Match? && Ext(LowerMatch(cs, e, L).0, T)
    ensures var S := ShapeOfMatch(cs, e, L);
      && LowerMatch(cs, e, L) == (Enter(S.C, S.join), ResultOperand(S.result))
      && S.A == LowerExpr(cs, e.scrut, L).0 && S.o == LowerExpr(cs, e.scrut, L).1
      && |L.locals| <= |S.A.locals| <= |S.F.locals|
      && Ext(S.A, T) && WF(S.B) && S.B.blocks == S.A.blocks && S.B.cur == S.A.cur && S.B.closed == S.A.closed
      && S.F == MatchFork(S.B, S.o, e.arms) && Ext(S.F, T) && WF(S.F) && S.F.closed && S.join == |S.B.blocks|
      && S.join + 1 + |e.arms| <= |S.F.blocks| && !(S.join + 1 <= S.F.cur < S.join + 1 + |e.arms|)
      && (forall b {:trigger S.F.blocks[b]} ::
        S.join + 1 <= b < S.join + 1 + |e.arms| ==> S.F.blocks[b] == BasicBlock(b, [], Pending))
      && S.C == LowerArms(cs, e.arms, S.join + 1, S.o, S.result, S.join, S.F) && Ext(S.C, T)
      && S.join < |S.C.blocks| && S.C.blocks[S.join] == BasicBlock(S.join, [], Pending)
      && SlotFor(T, e.unit, S.result, |S.A.locals|)
  {
    hide Grows, MatchFork, LowerArms;
    var S := ShapeOfMatch(cs, e, L);
    LowerExprStep(cs, e.scrut, L);
    ResultSlotStep(S.A, e.unit);
    MatchForkStep(S.B, S.o, e.arms);
    LowerArmsStep(cs, e.arms, S.join + 1, S.o, S.result, S.join, S.F);
    assert BlockGrows(S.F.blocks[S.join], S.C.blocks[S.join], false);
    assert Ext(S.C, T);
    ExtIn(S.F, S.C, S.join + 1, |e.arms|, T);
    ExtStep(S.B, S.F, T);
    ExtStep(S.A, S.B, T);
    StepLocals(L, S.A);
    StepLocals(S.A, S.B);
    assert S.B.locals <= T.locals;
  }

  /** An outcome that is not normal does not depend on where the code continues. */
  lemma {:induction false} SimMatch(E: Env, T: Builder, e: Expr, ctx: Ctx, L: Builder, h: Store, m: seq<Slot>)
    returns (m': seq<Slot>)
    requires InRange(L) && e.Match? && Ready(E, T, L, LowerExpr(E.contracts, e, L).0, h, m) && Fits(E.contracts, e)
    ensures var (M, o) := LowerExpr(E.contracts, e, L);
      Simulated(E, T, Point(L, m), M, o, |L.locals|, Eval(E, e, ctx, h), m, m')
    decreases e, 3
  {
    hide Reaches, Grows, Ext, Agree, Kept, LowerMatch, ShapeOfMatch, MatchFork, LowerArms, InOrder, FitsArms, Dispatch,
      FirstMatch;
    hide Simulated, Goes;
    var S := ShapeOfMatch(E.contracts, e, L);
    MatchShapeFacts(E.contracts, e, L, T);
    var m1 := SimExpr(E, T, e.scrut, ReadCtx, L, h, m);
    m' := m1;
    var r := Eval(E, e.scrut, ReadCtx, h);
    var (M, o) := LowerExpr(E.contracts, e, L);
    if r.Norm? {
      SimulatedMeans(E, T, Point(L, m), S.A, S.o, |L.locals|, r, m, m1);
      MatchGoes(E, T, e, S, r.v, m1);
      if r.v.VariantV? && FindArm(e.arms, r.v.tag).Some? {
        GoesTrans(E, T, Point(L, m), Point(S.A, m1), At(S.join + 1 + FindArm(e.arms, r.v.tag).value, 0, m1));
        m' := SimMatchArm(E, T, e, ctx, L, S, r.v, Point(L, m), r.h, m, m1);
      } else {
        SimulatedTrap(E, T, Point(L, m), Point(S.A, m1), M, o, |L.locals|, m, m1);
      }
    } else {
      SimulatedStop(E, T, Point(L, m), S.A, S.o, M, o, |L.locals|, r, m, m1);
    }
  }

  /** The dispatch goes where the written order says. */
  lemma MatchGoes(E: Env, T: Builder, e: Expr, S: MatchShape, v: Value, m: seq<Slot>)
    requires e.Match? && InOrder(e.arms) && WF(S.B) && !S.B.closed && Ext(S.F, T)
    requires S.F == MatchFork(S.B, S.o, e.arms) && S.join == |S.B.blocks|
    requires Read(m, S.o) == Some(v)
    ensures var k := if v.VariantV? then FindArm(e.arms, v.tag) else None;
      Goes(E, T, Point(S.B, m), if k.Some? then At(S.join + 1 + k.value, 0, m) else Done(Trapped))
  {
    hide Reaches, Grows, Ext, MatchFork, InOrder;
    MatchForkRun(E, T, S.B, S.o, e.arms, m);
    if v.VariantV? {
      DispatchInOrder(e.arms, S.join + 1, v.tag);
    }
  }

  lemma {:induction false} SimMatchArm(E: Env, T: Builder, e: Expr, ctx: Ctx, L: Builder, S: MatchShape, v: Value,
        c: Cfg, h: Store, m: seq<Slot>, m1: seq<Slot>)
    returns (m': seq<Slot>)
    requires e.Match? && WF(L) && Fits(E.contracts, e) && Ext(LowerMatch(E.contracts, e, L).0, T)
    requires S == ShapeOfMatch(E.contracts, e, L)
    requires !E.strict && |m1| == |T.locals| && Agree(h, m1, T) && Distinct(T.locals) && Kept(|L.locals|, m, m1, T)
    requires v.VariantV? && FindArm(e.arms, v.tag).Some? && Read(m1, S.o) == Some(v)
    requires Goes(E, T, c, At(S.join + 1 + FindArm(e.arms, v.tag).value, 0, m1))
    ensures var k := FindArm(e.arms, v.tag).value;
      Simulated(E, T, c, LowerMatch(E.contracts, e, L).0, ResultOperand(S.result), |L.locals|,
        Coerce(e.unit, ArmOut(E, e.arms[k], v, ctx, h)), m, m')
    decreases e, 2
  {
    hide Reaches, Grows, Ext, Agree, Kept, LowerMatch, ShapeOfMatch, MatchFork, LowerArms, InOrder, FitsArms,
      KeepsOperand, ArmTargets, DefaultTarget;
    MatchShapeFacts(E.contracts, e, L, T);
    ScrutKept(E.contracts, e, L, S, T);
    var k := FindArm(e.arms, v.tag).value;
    m' := SimArms(E, T, e.arms, v, ctx, e.unit, S.join + 1, S.o, S.result, S.join, |S.A.locals|, S.F, h, m1);
    var out := Coerce(e.unit, ArmOut(E, e.arms[k], v, ctx, h));
    JoinsAfter(E, T, c, At(S.join + 1 + k, 0, m1), S.join, ResultOperand(S.result), |L.locals|, |S.A.locals|, out, m,
      m1, m');
    JoinsSimulated(E, T, c, S.C, S.join, ResultOperand(S.result), |L.locals|, out, m, m');
  }

  /** Pattern bindings never overwrite the scrutinee. */
  lemma ScrutKept(cs: Contracts, e: Expr, L: Builder, S: MatchShape, T: Builder)
    requires WF(L) && e.Match? && Fits(cs, e) && S == ShapeOfMatch(cs, e, L) && Ext(LowerMatch(cs, e, L).0, T)
    ensures forall k {:trigger e.arms[k]} ::
      0 <= k < |e.arms| ==> KeepsOperand(T, S.o, |S.F.locals|, PatSyms(e.arms[k].pat))
  {
    hide Grows, ShapeOfMatch, LowerMatch, InOrder, FitsArms;
    MatchShapeFacts(cs, e, L, T);
    OperandShape(cs, e.scrut, L);
    OperandGrows(e.scrut, S.o, |L.locals|, |L.locals|, S.A.locals, T.locals);
  }

  // ---------- loops ----------

  lemma {:induction false} SimBound(E: Env, T: Builder, bound: Option<Expr>, L: Builder, h: Store, m: seq<Slot>)
    returns (m': seq<Slot>)
    requires InRange(L) && Ready(E, T, L, LowerBound(E.contracts, bound, L).0, h, m) && FitsOpt(E.contracts, bound)
    ensures var (M, o) := LowerBound(E.contracts, bound, L);
      Simulated(E, T, Point(L, m), M, o, |L.locals|, EvalBound(E, bound, h), m, m')
    decreases bound, 5
  {
    hide Reaches, Grows, Ext, Agree, Kept, EmitTemp;
    if bound.None? {
      m' := SimTemp(E, T, L, Const(IntV(0)), IntV(0), h, m);
    } else {
      var (A, o) := LowerExpr(E.contracts, bound.value, L);
      LowerExprStep(E.contracts, bound.value, L);
      EmitTempStep(A, Use(o));
      ExtStep(A, EmitTemp(A, Use(o)).0, T);
      StepLocals(L, A);
      var m1 := SimExpr(E, T, bound.value, ReadCtx, L, h, m);
      m' := m1;
      var r := Eval(E, bound.value, ReadCtx, h);
      if r.Norm? {
        m' := SimTemp(E, T, A, o, r.v, r.h, m1);
        SimulatedAfter(E, T, Point(L, m), Point(A, m1), EmitTemp(A, Use(o)).0, EmitTemp(A, Use(o)).1, |L.locals|,
          |A.locals|, r, m, m1, m');
      }
    }
  }

  /** Copying an operand into a temporary. */
  lemma SimTemp(E: Env, T: Builder, L: Builder, o: Operand, v: Value, h: Store, m: seq<Slot>) returns (m': seq<Slot>)
    requires InRange(L) && Ready(E, T, L, EmitTemp(L, Use(o)).0, h, m) && Read(m, o) == Some(v)
    ensures var (M, t) := EmitTemp(L, Use(o));
      Simulated(E, T, Point(L, m), M, t, |L.locals|, Norm(v, h), m, m') && m' == m[|L.locals| := Live(v)]
    ensures |L.locals| < |T.locals| && T.locals[|L.locals|].None?
  {
    hide Reaches, Grows;
    EmitTempStep(L, Use(o));
    TempRun(E, T, L, Use(o), m);
    m' := m[|L.locals| := Live(v)];
    AgreeTemp(h, m, T, |L.locals|, Live(v));
    KeptRefl(|L.locals|, m, T);
    KeptSet(|L.locals|, m, m, T, |L.locals|, Live(v));
  }

  /** The loop test: one comparison, then the body block or the exit block. */
  lemma HeadRun(E: Env, T: Builder, L: Builder, counter: nat, limit: Operand, u: Value, w: Value, m: seq<Slot>)
    requires WF(L) && Ext(LoopHead(L, counter, limit), T) && |m| == |T.locals|
    requires Read(m, Place(counter, [])) == Some(u) && Read(m, limit) == Some(w)
    ensures |L.locals| < |T.locals| && T.locals[|L.locals|].None?
    ensures u.IntV? && w.IntV? ==>
      Goes(E, T, At(|L.blocks|, 0, m),
        At(|L.blocks| + (if u.i < w.i then 1 else 2), 0, m[|L.locals| := Live(BoolV(u.i < w.i))]))
    ensures !(u.IntV? && w.IntV?) ==> Goes(E, T, At(|L.blocks|, 0, m), Done(Trapped))
  {
    hide Reaches, Grows, EmitTemp;
    var head := |L.blocks|;
    var A := Fork(L, 3, Goto(head), head);
    ForkStep(L, 3, Goto(head), head);
    var rv := Compute(Bin(Lt), [Place(counter, []), limit], []);
    EmitTempStep(A, rv);
    var (B, c) := EmitTemp(A, rv);
    var t := Branch(c, head + 1, head + 2);
    CloseStep(B, t);
    assert Ext(Close(B, t), T);
    ExtStep(B, Close(B, t), T);
    TempRun(E, T, A, rv, m);
    ReadPair(m, Place(counter, []), limit, u, w);
    if u.IntV? && w.IntV? {
      assert Exec(E.calls, m, rv) == Some(Computed(BoolV(u.i < w.i), m));
      EmitTempLocals(A, rv);
      var m1 := m[|L.locals| := Live(BoolV(u.i < w.i))];
      CloseRun(E.calls, B, t, T, m1);
      GoesTrans(E, T, At(head, 0, m), Point(B, m1), Jump(t, m1));
      assert Read(m1, c) == Some(BoolV(u.i < w.i));
      assert Jump(t, m1) == At(head + (if u.i < w.i then 1 else 2), 0, m1);
    }
  }

  lemma ReadPair(m: seq<Slot>, a: Operand, b: Operand, u: Value, w: Value)
    requires Read(m, a) == Some(u) && Read(m, b) == Some(w)
    ensures ReadAll(m, [a, b]) == Some([u, w])
  {
    assert [a, b][1..] == [b];
    assert [b][1..] == [];
    assert [w] + [] == [w];
    assert ReadAll(m, [b]) == Some([w]);
    assert [u] + [w] == [u, w];
  }

  /** The loop latch bumps the counter and returns to the test. */
  lemma LatchRun(E: Env, T: Builder, L: Builder, counter: nat, head: nat, i: int, m: seq<Slot>)
    requires WF(L) && !L.closed && Ext(LoopEnd(L, counter, head), T) && |m| == |T.locals| && counter < |m|
    requires m[counter] == Live(IntV(i))
    ensures Goes(E, T, Point(L, m), At(head, 0, m[counter := Live(IntV(i + 1))]))
  {
    hide Reaches, Grows;
    var rv := Compute(Bin(Add), [Place(counter, []), Const(IntV(1))], []);
    var s := Set(counter, [], rv);
    EmitStep(L, s);
    var A := Emit(L, s);
    CloseStep(A, Goto(head));
    ExtStep(A, Close(A, Goto(head)), T);
    ReadPair(m, Place(counter, []), Const(IntV(1)), IntV(i), IntV(1));
    SetRun(E, T, L, counter, rv, m);
    var m1 := m[counter := Live(IntV(i + 1))];
    CloseRun(E.calls, A, Goto(head), T, m1);
    GoesTrans(E, T, Point(L, m), Point(A, m1), At(head, 0, m1));
  }

  /** The states of a lowered loop. */
  datatype LoopShape = LoopShape(A: Builder, B: Builder, C: Builder, D: Builder, M: Builder)

  ghost function ShapeOfLoop(cs: Contracts, body: Expr, counter: nat, limit: Operand, elem: Option<Operand>, x: nat,
        L: Builder): LoopShape
    requires InRange(L)
  {
    var A := LoopHead(L, counter, limit);
    var B := if elem.None? then A else Emit(A, Set(x, [], Compute(Index(true), [elem.value, Place(counter, [])], [])));
    var C := LowerExpr(cs, body, B).0;
    var D := LoopEnd(C, counter, |L.blocks|);
    LoopShape(A, B, C, D, Enter(D, |L.blocks| + 2))
  }

  lemma LoopShapeFacts(cs: Contracts, body: Expr, counter: nat, limit: Operand, elem: Option<Operand>, x: nat,
        L: Builder, T: Builder)
    requires WF(L) && Ext(LowerLoop(cs, body, counter, limit, elem, x, L), T)
    ensures var S := ShapeOfLoop(cs, body, counter, limit, elem, x, L);
      && S.M == LowerLoop(cs, body, counter, limit, elem, x, L) && S.A == LoopHead(L, counter, limit)
      && WF(S.A) && !S.A.closed && Ext(S.A, T) && (forall m :: Point(S.A, m) == At(|L.blocks| + 1, 0, m))
      && WF(S.B) && !S.B.closed && Ext(S.B, T) && S.C == LowerExpr(cs, body, S.B).0 && |L.locals| <= |S.B.locals|
      && S.B ==
        (if elem.None? then S.A else Emit(S.A, Set(x, [], Compute(Index(true), [elem.value, Place(counter, [])], []))))
      && WF(S.C) && Ext(S.C, T) && S.D == LoopEnd(S.C, counter, |L.blocks|) && Ext(S.D, T)
      && InRange(S.M) && !S.M.closed && (forall m :: Point(S.M, m) == At(|L.blocks| + 2, 0, m))
  {
    hide Grows, LoopHead, LoopEnd, Emit;
    var S := ShapeOfLoop(cs, body, counter, limit, elem, x, L);
    LoopHeadStep(L, counter, limit);
    LoopHeadBlocks(L, counter, limit);
    StepRefl(S.A);
    var s := Set(x, [],
      Compute(Index(true), [if elem.Some? then elem.value else Const(UnitV), Place(counter, [])], []));
    EmitStep(S.A, s);
    LowerExprStep(cs, body, S.B);
    LoopEndStep(S.C, counter, |L.blocks|);
    StepTrans(S.A, S.B, S.C);
    StepTrans(S.A, S.C, S.D);
    Waiting(S.A, S.D, |L.blocks| + 2);
    assert Ext(S.D, T);
    ExtStep(S.C, S.D, T);
    ExtStep(S.B, S.C, T);
    ExtStep(S.A, S.B, T);
    StepLocals(L, S.A);
    StepLocals(S.A, S.B);
  }

  lemma LoopHeadBlocks(L: Builder, counter: nat, limit: Operand)
    requires WF(L)
    ensures var M := LoopHead(L, counter, limit);
      |L.blocks| + 2 < |M.blocks| && M.cur == |L.blocks| + 1 &&
      M.blocks[|L.blocks| + 1] == BasicBlock(|L.blocks| + 1, [], Pending) &&
      M.blocks[|L.blocks| + 2] == BasicBlock(|L.blocks| + 2, [], Pending)
  {
    hide Grows, Fork, EmitTemp, Close;
    var head := |L.blocks|;
    var A := Fork(L, 3, Goto(head), head);
    ForkStep(L, 3, Goto(head), head);
    var rv := Compute(Bin(Lt), [Place(counter, []), limit], []);
    EmitTempStep(A, rv);
    var (B, c) := EmitTemp(A, rv);
    CloseStep(B, Branch(c, head + 1, head + 2));
    var C := Close(B, Branch(c, head + 1, head + 2));
    StepTrans(A, B, C);
    Waiting(A, C, head + 1);
    Waiting(A, C, head + 2);
  }

  /** A value the loop machinery keeps in a temporary. */
  ghost predicate Held(T: Builder, o: Operand, v: Value, n: nat, m: seq<Slot>) {
    o.Place? && o.proj == [] && o.local < n && o.local < |m| == |T.locals| && T.locals[o.local].None? &&
    m[o.local] == Live(v)
  }

  lemma HeldOn(T: Builder, o: Operand, v: Value, n: nat, m: seq<Slot>, m1: seq<Slot>)
    requires Held(T, o, v, n, m) && Kept(n, m, m1, T)
    ensures Held(T, o, v, n, m1)
  {
    assert m1[o.local] == m[o.local];
  }

  /** From the loop header to the body or past the loop. */
  lemma CountHead(E: Env, T: Builder, xl: nat, i: int, n: int, limit: Operand, k: nat, L: Builder, h: Store,
        m: seq<Slot>)
    returns (m1: seq<Slot>)
    requires WF(L) && Ext(LoopHead(L, xl, limit), T) && |m| == |T.locals| && k <= |L.locals|
    requires Agree(h, m, T) && xl < |T.locals| && m[xl] == Live(IntV(i)) && T.locals[xl].Some?
    requires Held(T, limit, IntV(n), |L.locals|, m)
    ensures |m1| == |T.locals| && Agree(h, m1, T) && Kept(|L.locals|, m, m1, T) && Kept(k, m, m1, T)
    ensures m1[xl] == Live(IntV(i))
    ensures Goes(E, T, At(|L.blocks|, 0, m), At(|L.blocks| + (if i < n then 1 else 2), 0, m1))
  {
    hide Reaches, Grows, Ext, Agree, Kept, LoopHead, Goes;
    HeadRun(E, T, L, xl, limit, IntV(i), IntV(n), m);
    m1 := m[|L.locals| := Live(BoolV(i < n))];
    AgreeTemp(h, m, T, |L.locals|, Live(BoolV(i < n)));
    KeptRefl(|L.locals|, m, T);
    KeptSet(|L.locals|, m, m, T, |L.locals|, Live(BoolV(i < n)));
    KeptLess(k, |L.locals|, m, m1, T);
  }

  lemma {:induction false} SimCount(E: Env, T: Builder, x: Sym, xl: nat, body: Expr, i: int, n: int, limit: Operand,
        k: nat, L: Builder, h: Store, m: seq<Slot>)
    returns (m': seq<Slot>)
    requires !E.strict && WF(L) && Ext(LowerLoop(E.contracts, body, xl, limit, None, xl, L), T)
    requires |m| == |T.locals| && Distinct(T.locals)
    requires Agree(h - {x}, m, T) && xl < |T.locals| && T.locals[xl] == Some(x) && m[xl] == Live(IntV(i))
    requires k <= |L.locals|
    requires Held(T, limit, IntV(n), |L.locals|, m) && Fits(E.contracts, body) && x !in Writes(E.contracts, body)
    ensures Simulated(E, T, At(|L.blocks|, 0, m), LowerLoop(E.contracts, body, xl, limit, None, xl, L), Const(UnitV), k,
      CountLoop(E, x, body, i, n, h), m, m')
    decreases body, 5, n - i
  {
    hide Reaches, Grows, Ext, Agree, Kept, LowerLoop, ShapeOfLoop, LoopHead, Eval, Writes, Goes, Fits, Distinct,
      Simulated, Held;
    var S := ShapeOfLoop(E.contracts, body, xl, limit, None, xl, L);
    LoopShapeFacts(E.contracts, body, xl, limit, None, xl, L, T);
    var m1 := CountHead(E, T, xl, i, n, limit, k, L, h - {x}, m);
    m' := m1;
    if i >= n {
      SimulatedNorm(E, T, At(|L.blocks|, 0, m), S.M, Const(UnitV), k, UnitV, h - {x}, m, m1);
      return;
    }
    var g := h[x := Live(IntV(i))];
    AgreeBind(h, m1, T, x, xl, IntV(i));
    var m2 := SimExpr(E, T, body, MoveCtx, S.B, g, m1);
    m' := m2;
    var r := Eval(E, body, MoveCtx, g);
    var c := LowerExpr(E.contracts, body, S.B).1;
    if r.Norm? {
      SimulatedMeans(E, T, Point(S.B, m1), S.C, c, |S.B.locals|, r, m1, m2);
      GoesTrans(E, T, At(|L.blocks|, 0, m), Point(S.B, m1), Point(S.C, m2));
      EvalKeeps(E, body, MoveCtx, g, x);
      var m3 := SimLatch(E, T, x, xl, i, n, limit, k, L, S, r, m, m1, m2);
      m' := SimCount(E, T, x, xl, body, i + 1, n, limit, k, L, r.h, m3);
      SimulatedAfter(E, T, At(|L.blocks|, 0, m), At(|L.blocks|, 0, m3), S.M, Const(UnitV), k, k,
        CountLoop(E, x, body, i + 1, n, r.h), m, m3, m');
    } else {
      SimulatedAfter(E, T, At(|L.blocks|, 0, m), Point(S.B, m1), S.C, c, k, |S.B.locals|, r, m, m1, m2);
      SimulatedStop(E, T, At(|L.blocks|, 0, m), S.C, c, S.M, Const(UnitV), k, r, m, m2);
    }
  }

  /** From the end of a pass back to the loop header. */
  lemma SimLatch(E: Env, T: Builder, x: Sym, xl: nat, i: int, n: int, limit: Operand, k: nat, L: Builder, S: LoopShape,
        r: Out,
        m: seq<Slot>, m1: seq<Slot>, m2: seq<Slot>)
    returns (m3: seq<Slot>)
    requires WF(S.C) && !S.C.closed && Ext(S.C, T) && S.D == LoopEnd(S.C, xl, |L.blocks|) && Ext(S.D, T)
    requires Distinct(T.locals)
    requires xl < |T.locals| && T.locals[xl] == Some(x) && k <= |L.locals| <= |S.B.locals| && |m| == |m2| == |T.locals|
    requires r.Norm? && x in r.h && r.h[x] == Live(IntV(i)) && Agree(r.h, m2, T)
    requires Kept(|L.locals|, m, m1, T) && Kept(|S.B.locals|, m1, m2, T) && Held(T, limit, IntV(n), |L.locals|, m)
    requires Goes(E, T, At(|L.blocks|, 0, m), Point(S.C, m2))
    ensures |m3| == |T.locals| && Agree(r.h - {x}, m3, T) && m3[xl] == Live(IntV(i + 1)) && Kept(k, m, m3, T)
    ensures Held(T, limit, IntV(n), |L.locals|, m3) && Goes(E, T, At(|L.blocks|, 0, m), At(|L.blocks|, 0, m3))
  {
    hide Reaches, Grows, Ext, Agree, Kept, LoopEnd, Goes, Distinct;
    AgreeRead(r.h, m2, T, x, xl);
    LatchRun(E, T, S.C, xl, |L.blocks|, i, m2);
    m3 := m2[xl := Live(IntV(i + 1))];
    AgreeSet(r.h, m2, T, x, xl, Live(IntV(i + 1)));
    AgreeDrop(r.h[x := Live(IntV(i + 1))], m3, T, x);
    assert r.h[x := Live(IntV(i + 1))] - {x} == r.h - {x};
    KeptLess(|L.locals|, |S.B.locals|, m1, m2, T);
    KeptTrans(|L.locals|, |L.locals|, m, m1, m2, T);
    KeptSet(|L.locals|, m, m2, T, xl, Live(IntV(i + 1)));
    KeptLess(k, |L.locals|, m, m3, T);
    HeldOn(T, limit, IntV(n), |L.locals|, m, m3);
    GoesTrans(E, T, At(|L.blocks|, 0, m), Point(S.C, m2), At(|L.blocks|, 0, m3));
  }

  lemma AgreeBind(h: Store, m: seq<Slot>, T: Builder, x: Sym, l: nat, v: Value)
    requires Agree(h - {x}, m, T) && Distinct(T.locals) && l < |T.locals| && T.locals[l] == Some(x) && l < |m|
    requires m[l] == Live(v)
    ensures Agree(h[x := Live(v)], m, T)
  {
    AgreeSet(h - {x}, m, T, x, l, Live(v));
    assert (h - {x})[x := Live(v)] == h[x := Live(v)];
    assert m[l := Live(v)] == m;
  }

  lemma {:induction false} SimRange(E: Env, T: Builder, e: Expr, ctx: Ctx, L: Builder, h: Store, m: seq<Slot>)
    returns (m': seq<Slot>)
    requires InRange(L) && e.ForRange? && Ready(E, T, L, LowerExpr(E.contracts, e, L).0, h, m) && Fits(E.contracts, e)
    ensures var (M, o) := LowerExpr(E.contracts, e, L);
      Simulated(E, T, Point(L, m), M, o, |L.locals|, Eval(E, e, ctx, h), m, m')
    decreases e, 3
  {
    hide Reaches, Grows, Ext, Agree, Kept, LowerBound, LowerLoop, Emit;
    var cs := E.contracts;
    var x := |L.locals|;
    var X := Alloc(L, Some(e.var_));
    AllocStep(L, Some(e.var_));
    LowerBoundStep(cs, e.lo, X);
    var (A, lo) := LowerBound(cs, e.lo, X);
    LowerBoundStep(cs, e.hi, A);
    var (B, hi) := LowerBound(cs, e.hi, A);
    var C := Emit(B, Set(x, [], Use(lo)));
    EmitStep(B, Set(x, [], Use(lo)));
    LowerLoopStep(cs, e.body, x, hi, None, x, C);
    RangeExt(cs, e, L, X, A, B, C, T);
    var m1 := SimBound(E, T, e.lo, X, h, m);
    m' := m1;
    var a := EvalBound(E, e.lo, h);
    KeptMore(E, T, Point(L, m), A, lo, |L.locals|, |X.locals|, a, m, m1);
    if a.Norm? {
      var m2 := SimBound(E, T, e.hi, A, a.h, m1);
      m' := m2;
      var b := EvalBound(E, e.hi, a.h);
      SimulatedAfter(E, T, Point(L, m), Point(A, m1), B, hi, |L.locals|, |A.locals|, b, m, m1, m2);
      if b.Norm? {
        BoundShape(cs, e.lo, X, T);
        BoundShape(cs, e.hi, A, T);
        HeldOn(T, lo, a.v, |A.locals|, m1, m2);
        m' := SimRangeLoop(E, T, e, L, C, B, lo, hi, a.v, b.v, Point(L, m), b.h, m, m2);
      }
    }
  }

  lemma KeptMore(E: Env, T: Builder, c: Cfg, M: Builder, o: Operand, n: nat, k: nat, out: Out, m: seq<Slot>,
        m': seq<Slot>)
    requires InRange(M) && n <= k && Simulated(E, T, c, M, o, k, out, m, m')
    ensures Simulated(E, T, c, M, o, n, out, m, m')
  {
  }

  lemma RangeExt(cs: Contracts, e: Expr, L: Builder, X: Builder, A: Builder, B: Builder, C: Builder, T: Builder)
    requires e.ForRange? && WF(L) && X == Alloc(L, Some(e.var_)) && Step(L, X) && Step(X, A) && Step(A, B) && Step(B, C)
    requires Step(C, LowerLoop(cs, e.body, |L.locals|, LowerBound(cs, e.hi, A).1, None, |L.locals|, C))
    requires Ext(LowerLoop(cs, e.body, |L.locals|, LowerBound(cs, e.hi, A).1, None, |L.locals|, C), T)
    ensures Ext(C, T) && Ext(B, T) && Ext(A, T) && Ext(X, T)
    ensures |L.locals| < |X.locals| <= |A.locals| <= |B.locals| <= |C.locals|
    ensures |L.locals| < |T.locals| && T.locals[|L.locals|] == Some(e.var_)
  {
    hide Grows, LowerLoop, LowerBound;
    ExtStep(C, LowerLoop(cs, e.body, |L.locals|, LowerBound(cs, e.hi, A).1, None, |L.locals|, C), T);
    ExtStep(B, C, T);
    ExtStep(A, B, T);
    ExtStep(X, A, T);
    StepLocals(L, X);
    StepLocals(X, A);
    StepLocals(A, B);
    StepLocals(B, C);
    assert X.locals[|L.locals|] == Some(e.var_);
  }

  /** A lowered bound is the newest temporary. */
  lemma BoundShape(cs: Contracts, bound: Option<Expr>, L: Builder, T: Builder)
    requires WF(L) && Ext(LowerBound(cs, bound, L).0, T)
    ensures var (M, o) := LowerBound(cs, bound, L);
      o.Place? && o.proj == [] && |L.locals| <= o.local < |M.locals| <= |T.locals| && T.locals[o.local].None?
  {
    hide Grows, LowerExpr, Emit;
    if bound.None? {
      EmitTempLocals(L, Use(Const(IntV(0))));
      assert LowerBound(cs, bound, L).0.locals[|L.locals|].None?;
    } else {
      LowerExprStep(cs, bound.value, L);
      var (A, o) := LowerExpr(cs, bound.value, L);
      StepLocals(L, A);
      EmitTempLocals(A, Use(o));
      assert LowerBound(cs, bound, L).0.locals[|A.locals|].None?;
    }
  }

  /** Both bounds are fixed: set the loop variable and count. */
  lemma {:induction false} SimRangeLoop(E: Env, T: Builder, e: Expr, L: Builder, C: Builder, B: Builder, lo: Operand,
        hi: Operand, a: Value, b: Value, c: Cfg, h: Store, m: seq<Slot>, m2: seq<Slot>)
    returns (m': seq<Slot>)
    requires e.ForRange? && Fits(E.contracts, e) && WF(B) && !B.closed && C == Emit(B, Set(|L.locals|, [], Use(lo)))
    requires Ready(E, T, B, LowerLoop(E.contracts, e.body, |L.locals|, hi, None, |L.locals|, C), h, m2)
    requires Ext(C, T) && WF(C) && !C.closed
    requires Goes(E, T, c, Point(B, m2)) && Kept(|L.locals|, m, m2, T) && |L.locals| < |T.locals|
    requires T.locals[|L.locals|] == Some(e.var_)
    requires Held(T, lo, a, |B.locals|, m2) && Held(T, hi, b, |B.locals|, m2) && |L.locals| <= |B.locals|
    ensures Simulated(E, T, c, LowerLoop(E.contracts, e.body, |L.locals|, hi, None, |L.locals|, C), Const(UnitV),
      |L.locals|,
      if !a.IntV? || !b.IntV? then Trap else CountLoop(E, e.var_, e.body, a.i, b.i, h), m, m')
    decreases e, 2
  {
    hide Reaches, Grows, Ext, Agree, Kept, LowerLoop, LoopHead, Emit;
    var x := |L.locals|;
    var cs := E.contracts;
    SetRun(E, T, B, x, Use(lo), m2);
    var m3 := m2[x := Live(a)];
    AgreeSet(h, m2, T, e.var_, x, Live(a));
    AgreeDrop(h[e.var_ := Live(a)], m3, T, e.var_);
    assert h[e.var_ := Live(a)] - {e.var_} == h - {e.var_};
    KeptSet(x, m, m2, T, x, Live(a));
    EmitLocals(B, Set(x, [], Use(lo)));
    LoopShapeFacts(cs, e.body, x, hi, None, x, C, T);
    CloseLoopEntry(E, T, C, x, hi, m3);
    var head := |C.blocks|;
    GoesTrans(E, T, c, Point(B, m2), Point(C, m3));
    GoesTrans(E, T, c, Point(C, m3), At(head, 0, m3));
    if a.IntV? && b.IntV? {
      m' := SimCount(E, T, e.var_, x, e.body, a.i, b.i, hi, x, C, h, m3);
      SimulatedAfter(E, T, c, At(head, 0, m3), LowerLoop(cs, e.body, x, hi, None, x, C), Const(UnitV), x, x,
        CountLoop(E, e.var_, e.body, a.i, b.i, h), m, m3, m');
    } else {
      m' := m3;
      HeadRun(E, T, C, x, hi, a, b, m3);
      GoesTrans(E, T, c, At(head, 0, m3), Done(Trapped));
    }
  }

  lemma EmitLocals(L: Builder, s: MStmt)
    requires InRange(L)
    ensures Emit(L, s).locals == L.locals
  {
  }

  lemma CloseLoopEntry(E: Env, T: Builder, L: Builder, counter: nat, limit: Operand, m: seq<Slot>)
    requires WF(L) && !L.closed && Ext(LoopHead(L, counter, limit), T)
    ensures Goes(E, T, Point(L, m), At(|L.blocks|, 0, m))
  {
    hide Reaches, Grows, EmitTemp;
    var head := |L.blocks|;
    var A := Fork(L, 3, Goto(head), head);
    ForkStep(L, 3, Goto(head), head);
    var rv := Compute(Bin(Lt), [Place(counter, []), limit], []);
    EmitTempStep(A, rv);
    var (B, c) := EmitTemp(A, rv);
    CloseStep(B, Branch(c, head + 1, head + 2));
    assert Ext(Close(B, Branch(c, head + 1, head + 2)), T);
    ExtStep(B, Close(B, Branch(c, head + 1, head + 2)), T);
    ExtStep(A, B, T);
    ForkRun(E, T, L, 3, Goto(head), head, m);
  }

  /** Snapshot, length and position of an array loop are in temporaries. */
  lemma EachHeadRun(E: Env, T: Builder, L: Builder, o: Operand, v: Value, h: Store, m: seq<Slot>)
    returns (m': seq<Slot>)
    requires InRange(L) && Ready(E, T, L, EachHead(L, o).0, h, m) && Read(m, o) == Some(v)
    ensures var (M, arr, len, idx) := EachHead(L, o);
      if v.ArrayV? then
        Simulated(E, T, Point(L, m), M, Const(UnitV), |L.locals|, Norm(UnitV, h), m, m') &&
        |L.locals| <= idx < |M.locals| && idx < |T.locals| && T.locals[idx].None? && m'[idx] == Live(IntV(0)) &&
        Held(T, arr, v, idx, m') && Held(T, len, IntV(|v.elems|), idx, m')
      else Goes(E, T, Point(L, m), Done(Trapped))
  {
    hide Reaches, Grows, Ext, Agree, Kept, EmitTemp;
    EmitTempStep(L, Use(o));
    var (A, arr) := EmitTemp(L, Use(o));
    var rv := Compute(Len, [arr], []);
    EmitTempStep(A, rv);
    var (B, len) := EmitTemp(A, rv);
    EmitTempStep(B, Use(Const(IntV(0))));
    var M := EmitTemp(B, Use(Const(IntV(0)))).0;
    ExtStep(B, M, T);
    ExtStep(A, B, T);
    EachLocals(L, o);
    EmitTempLocals(L, Use(o));
    EmitTempLocals(A, rv);
    EmitTempLocals(B, Use(Const(IntV(0))));
    var m1 := SimTemp(E, T, L, o, v, h, m);
    m' := m1;
    TempRun(E, T, A, rv, m1);
    assert [arr][1..] == [];
    assert [v] + [] == [v];
    assert ReadAll(m1, [arr]) == Some([v]);
    if v.ArrayV? {
      var m2 := m1[|A.locals| := Live(IntV(|v.elems|))];
      AgreeTemp(h, m1, T, |A.locals|, Live(IntV(|v.elems|)));
      KeptSet(|L.locals|, m, m1, T, |A.locals|, Live(IntV(|v.elems|)));
      m' := SimTemp(E, T, B, Const(IntV(0)), IntV(0), h, m2);
      GoesTrans(E, T, Point(L, m), Point(A, m1), Point(B, m2));
      SimulatedAfter(E, T, Point(L, m), Point(B, m2), M, Const(UnitV), |L.locals|, |B.locals|, Norm(UnitV, h), m, m2,
        m');
    } else {
      GoesTrans(E, T, Point(L, m), Point(A, m1), Done(Trapped));
    }
  }

  lemma EachLocals(L: Builder, o: Operand)
    requires InRange(L)
    ensures var (M, arr, len, idx) := EachHead(L, o);
      arr == Place(|L.locals|, []) && len == Place(|L.locals| + 1, []) && idx == |L.locals| + 2 &&
      |M.locals| == |L.locals| + 3
  {
    EmitTempLocals(L, Use(o));
    var (A, arr) := EmitTemp(L, Use(o));
    EmitTempLocals(A, Compute(Len, [arr], []));
    var (B, len) := EmitTemp(A, Compute(Len, [arr], []));
    EmitTempLocals(B, Use(Const(IntV(0))));
  }

  /** The element is read at the start of each round. */
  lemma ElemRun(E: Env, T: Builder, A: Builder, x: Sym, xl: nat, arr: Operand, idx: nat, elems: seq<Value>, i: nat,
        h: Store, m: seq<Slot>)
    requires WF(A) && !A.closed && Ext(Emit(A, Set(xl, [], Compute(Index(true), [arr, Place(idx, [])], []))), T)
    requires |m| == |T.locals| && Distinct(T.locals)
    requires Agree(h - {x}, m, T) && xl < |T.locals| && T.locals[xl] == Some(x) && i < |elems| && idx < |m|
    requires m[idx] == Live(IntV(i))
    requires Held(T, arr, ArrayV(elems), |m|, m)
    ensures var m1 := m[xl := Live(elems[i])];
      Goes(E, T, Point(A, m), Point(Emit(A, Set(xl, [], Compute(Index(true), [arr, Place(idx, [])], []))), m1)) &&
      Agree(h[x := Live(elems[i])], m1, T)
  {
    hide Reaches, Grows;
    var rv := Compute(Index(true), [arr, Place(idx, [])], []);
    ReadPair(m, arr, Place(idx, []), ArrayV(elems), IntV(i));
    assert Exec(E.calls, m, rv) == Some(Computed(elems[i], m));
    SetRun(E, T, A, xl, rv, m);
    AgreeSet(h - {x}, m, T, x, xl, Live(elems[i]));
    assert (h - {x})[x := Live(elems[i])] == h[x := Live(elems[i])];
  }

  lemma {:induction false} SimElems(E: Env, T: Builder, x: Sym, xl: nat, body: Expr, elems: seq<Value>, i: nat,
        arr: Operand, len: Operand, idx: nat, k: nat, L: Builder, h: Store, m: seq<Slot>)
    returns (m': seq<Slot>)
    requires !E.strict && WF(L) && Ext(LowerLoop(E.contracts, body, idx, len, Some(arr), xl, L), T)
    requires |m| == |T.locals| && Distinct(T.locals)
    requires Agree(h - {x}, m, T) && xl < |T.locals| && T.locals[xl] == Some(x) && i <= |elems| && k <= idx < |L.locals|
    requires idx < |T.locals| && T.locals[idx].None? && m[idx] == Live(IntV(i))
    requires Held(T, len, IntV(|elems|), idx, m) && Held(T, arr, ArrayV(elems), idx, m) && Fits(E.contracts, body)
    ensures Simulated(E, T, At(|L.blocks|, 0, m), LowerLoop(E.contracts, body, idx, len, Some(arr), xl, L),
      Const(UnitV), k, EachLoop(E, x, body, elems, i, h), m, m')
    decreases body, 5, |elems| - i
  {
    hide Reaches, Grows, Ext, Agree, Kept, LowerLoop, ShapeOfLoop, LoopHead, Eval;
    var S := ShapeOfLoop(E.contracts, body, idx, len, Some(arr), xl, L);
    LoopShapeFacts(E.contracts, body, idx, len, Some(arr), xl, L, T);
    HeadRun(E, T, L, idx, len, IntV(i), IntV(|elems|), m);
    var test := Live(BoolV(i < |elems|));
    var m1 := m[|L.locals| := test];
    AgreeTemp(h - {x}, m, T, |L.locals|, test);
    KeptRefl(|L.locals|, m, T);
    KeptSet(|L.locals|, m, m, T, |L.locals|, test);
    KeptLess(k, |L.locals|, m, m1, T);
    m' := m1;
    if i < |elems| {
      ElemRun(E, T, S.A, x, xl, arr, idx, elems, i, h, m1);
      var m2 := m1[xl := Live(elems[i])];
      KeptSet(|L.locals|, m, m1, T, xl, Live(elems[i]));
      GoesTrans(E, T, At(|L.blocks|, 0, m), Point(S.A, m1), Point(S.B, m2));
      KeptLess(k, |L.locals|, m, m2, T);
      KeptLess(idx, |L.locals|, m, m2, T);
      m' := SimElemsBody(E, T, x, xl, body, elems, i, arr, len, idx, k, L, S, h, m, m2);
    }
  }

  /** One round of an array loop and all the rounds after it. */
  lemma {:induction false} SimElemsBody(E: Env, T: Builder, x: Sym, xl: nat, body: Expr, elems: seq<Value>, i: nat,
        arr: Operand, len: Operand, idx: nat, k: nat, L: Builder, S: LoopShape, h: Store, m: seq<Slot>, m2: seq<Slot>)
    returns (m': seq<Slot>)
    requires !E.strict && WF(L) && Ext(LowerLoop(E.contracts, body, idx, len, Some(arr), xl, L), T)
    requires |m2| == |T.locals| && Distinct(T.locals)
    requires S == ShapeOfLoop(E.contracts, body, idx, len, Some(arr), xl, L)
    requires i < |elems| && Agree(h[x := Live(elems[i])], m2, T) && xl < |T.locals| && T.locals[xl] == Some(x)
    requires k <= idx < |L.locals|
    requires idx < |T.locals| && T.locals[idx].None? && m2[idx] == Live(IntV(i)) && Kept(k, m, m2, T)
    requires Kept(idx, m, m2, T)
    requires Held(T, len, IntV(|elems|), idx, m2) && Held(T, arr, ArrayV(elems), idx, m2) && Fits(E.contracts, body)
    requires InRange(S.B) && Goes(E, T, At(|L.blocks|, 0, m), Point(S.B, m2))
    ensures Simulated(E, T, At(|L.blocks|, 0, m), LowerLoop(E.contracts, body, idx, len, Some(arr), xl, L),
      Const(UnitV), k, EachLoop(E, x, body, elems, i, h), m, m')
    decreases body, 5, |elems| - i, 0
  {
    hide Reaches, Grows, Ext, Agree, Kept, LowerLoop, ShapeOfLoop, LoopHead, Eval;
    LoopShapeFacts(E.contracts, body, idx, len, Some(arr), xl, L, T);
    var g := h[x := Live(elems[i])];
    var m3 := SimExpr(E, T, body, MoveCtx, S.B, g, m2);
    m' := m3;
    var r := Eval(E, body, MoveCtx, g);
    SimulatedAfter(E, T, At(|L.blocks|, 0, m), Point(S.B, m2), S.C, LowerExpr(E.contracts, body, S.B).1, k,
      |S.B.locals|, r, m, m2, m3);
    if r.Norm? {
      IdxKept(T, idx, |S.B.locals|, m2, m3);
      LatchRun(E, T, S.C, idx, |L.blocks|, i, m3);
      var m4 := m3[idx := Live(IntV(i + 1))];
      AgreeTemp(r.h, m3, T, idx, Live(IntV(i + 1)));
      AgreeDrop(r.h, m4, T, x);
      KeptLess(idx, |S.B.locals|, m2, m3, T);
      KeptSet(idx, m2, m3, T, idx, Live(IntV(i + 1)));
      KeptSet(k, m, m3, T, idx, Live(IntV(i + 1)));
      HeldOn(T, len, IntV(|elems|), idx, m2, m4);
      HeldOn(T, arr, ArrayV(elems), idx, m2, m4);
      m' := SimElems(E, T, x, xl, body, elems, i + 1, arr, len, idx, k, L, r.h, m4);
      GoesTrans(E, T, At(|L.blocks|, 0, m), Point(S.C, m3), At(|L.blocks|, 0, m4));
      SimulatedAfter(E, T, At(|L.blocks|, 0, m), At(|L.blocks|, 0, m4), S.M, Const(UnitV), k, k,
        EachLoop(E, x, body, elems, i + 1, r.h), m, m4, m');
    }
  }

  lemma IdxKept(T: Builder, idx: nat, n: nat, m: seq<Slot>, m': seq<Slot>)
    requires Kept(n, m, m', T) && idx < n && idx < |T.locals| && T.locals[idx].None?
    ensures m'[idx] == m[idx]
  {
  }

  lemma {:induction false} SimEach(E: Env, T: Builder, e: Expr, ctx: Ctx, L: Builder, h: Store, m: seq<Slot>)
    returns (m': seq<Slot>)
    requires InRange(L) && e.ForEach? && Ready(E, T, L, LowerExpr(E.contracts, e, L).0, h, m) && Fits(E.contracts, e)
    ensures var (M, o) := LowerExpr(E.contracts, e, L);
      Simulated(E, T, Point(L, m), M, o, |L.locals|, Eval(E, e, ctx, h), m, m')
    decreases e, 3
  {
    hide Reaches, Grows, Agree, Kept, EachHead, LowerLoop;
    var cs := E.contracts;
    var X := Alloc(L, Some(e.var_));
    AllocStep(L, Some(e.var_));
    LowerExprStep(cs, e.iter, X);
    var (A, o) := LowerExpr(cs, e.iter, X);
    EachHeadStep(A, o);
    var (B, arr, len, idx) := EachHead(A, o);
    LowerLoopStep(cs, e.body, idx, len, Some(arr), |L.locals|, B);
    var M := LowerLoop(cs, e.body, idx, len, Some(arr), |L.locals|, B);
    ExtStep(B, M, T);
    ExtStep(A, B, T);
    ExtStep(X, A, T);
    StepLocals(X, A);
    assert X.locals[|L.locals|] == Some(e.var_);
    var m1 := SimExpr(E, T, e.iter, ReadCtx, X, h, m);
    m' := m1;
    var r := Eval(E, e.iter, ReadCtx, h);
    KeptMore(E, T, Point(L, m), A, o, |L.locals|, |X.locals|, r, m, m1);
    if r.Norm? {
      var m2 := EachHeadRun(E, T, A, o, r.v, r.h, m1);
      m' := m2;
      if r.v.ArrayV? {
        SimulatedAfter(E, T, Point(L, m), Point(A, m1), B, Const(UnitV), |L.locals|, |A.locals|, Norm(UnitV, r.h), m,
          m1, m2);
        LoopShapeFacts(cs, e.body, idx, len, Some(arr), |L.locals|, B, T);
        CloseLoopEntry(E, T, B, idx, len, m2);
        AgreeDrop(r.h, m2, T, e.var_);
        m' := SimElems(E, T, e.var_, |L.locals|, e.body, r.v.elems, 0, arr, len, idx, |L.locals|, B, r.h, m2);
        GoesTrans(E, T, Point(L, m), Point(B, m2), At(|B.blocks|, 0, m2));
        SimulatedAfter(E, T, Point(L, m), At(|B.blocks|, 0, m2), M, Const(UnitV), |L.locals|, |L.locals|,
          EachLoop(E, e.var_, e.body, r.v.elems, 0, r.h), m, m2, m');
      } else {
        GoesTrans(E, T, Point(L, m), Point(A, m1), Done(Trapped));
      }
    }
  }

  // ---------- statements ----------

  lemma {:induction false} SimStmts(E: Env, T: Builder, stmts: seq<Stmt>, L: Builder, h: Store, m: seq<Slot>)
    returns (m': seq<Slot>)
    requires InRange(L) && Ready(E, T, L, LowerStmts(E.contracts, stmts, L), h, m) && FitsStmts(E.contracts, stmts)
    ensures Simulated(E, T, Point(L, m), LowerStmts(E.contracts, stmts, L), Const(UnitV), |L.locals|,
      EvalStmts(E, stmts, h), m, m')
    decreases stmts, 0
  {
    hide Reaches, Grows, Ext, Agree, Kept, LowerStmt, FitsStmt, EvalStmt;
    m' := m;
    if stmts == [] {
      SimStay(E, T, Const(UnitV), UnitV, L, h, m);
    } else {
      var A := LowerStmt(E.contracts, stmts[0], L);
      LowerStmtStep(E.contracts, stmts[0], L);
      LowerStmtsStep(E.contracts, stmts[1..], A);
      var M := LowerStmts(E.contracts, stmts[1..], A);
      ExtStep(A, M, T);
      StepLocals(L, A);
      var m1 := SimStmt(E, T, stmts[0], L, h, m);
      m' := m1;
      var r := EvalStmt(E, stmts[0], h);
      if r.Norm? {
        m' := SimStmts(E, T, stmts[1..], A, r.h, m1);
        SimulatedAfter(E, T, Point(L, m), Point(A, m1), M, Const(UnitV), |L.locals|, |A.locals|,
          EvalStmts(E, stmts[1..], r.h), m, m1, m');
      }
    }
  }

  lemma {:induction false} SimStmt(E: Env, T: Builder, s: Stmt, L: Builder, h: Store, m: seq<Slot>)
    returns (m': seq<Slot>)
    requires InRange(L) && Ready(E, T, L, LowerStmt(E.contracts, s, L), h, m) && FitsStmt(E.contracts, s)
    ensures Simulated(E, T, Point(L, m), LowerStmt(E.contracts, s, L), Const(UnitV), |L.locals|, EvalStmt(E, s, h), m,
      m')
    decreases s, 1
  {
    hide Reaches, Grows, Ext, Agree, Kept, Emit, Close, LowerExpr, Eval, Fits;
    var cs := E.contracts;
    m' := m;
    match s
    case Let(x, None) => SimDeclare(E, T, x, L, h, m);
    case Let(x, Some(e)) => m' := SimLet(E, T, x, e, L, h, m);
    case Assign(x, _, e) => m' := SimAssign(E, T, x, e, L, h, m);
    case ExprStmt(e) => m' := SimExpr(E, T, e, MoveCtx, L, h, m);
    case Return(None) => CloseRun(E.calls, L, Leave(Const(UnitV)), T, m);
    case Return(Some(e)) =>
      var (A, o) := LowerExpr(cs, e, L);
      LowerExprStep(cs, e, L);
      CloseStep(A, Leave(o));
      ExtStep(A, Close(A, Leave(o)), T);
      m' := SimExpr(E, T, e, MoveCtx, L, h, m);
      var r := Eval(E, e, MoveCtx, h);
      if r.Norm? {
        CloseRun(E.calls, A, Leave(o), T, m');
        GoesTrans(E, T, Point(L, m), Point(A, m'), Done(Returned(r.v)));
      }
  }

  lemma SimDeclare(E: Env, T: Builder, x: Sym, L: Builder, h: Store, m: seq<Slot>)
    requires InRange(L) && Ready(E, T, L, LocalFor(L, x).0, h, m)
    ensures Simulated(E, T, Point(L, m), LocalFor(L, x).0, Const(UnitV), |L.locals|, Norm(UnitV, h - {x}), m, m)
  {
    hide Reaches;
    AgreeDrop(h, m, T, x);
    KeptRefl(|L.locals|, m, T);
    GoesRefl(E, T, Point(L, m));
  }

  /** Storing an evaluated value into a symbol's slot. */
  lemma SimStore(E: Env, T: Builder, A: Builder, x: Sym, l: nat, o: Operand, v: Value, h: Store, m: seq<Slot>)
    returns (m': seq<Slot>)
    requires !E.strict && WF(A) && !A.closed && Ext(Emit(A, Set(l, [], Use(o))), T) && |m| == |T.locals|
    requires Agree(h, m, T) && Distinct(T.locals)
    requires l < |A.locals| && A.locals[l] == Some(x) && Read(m, o) == Some(v)
    ensures Simulated(E, T, Point(A, m), Emit(A, Set(l, [], Use(o))), Const(UnitV), |A.locals|,
      Norm(UnitV, h[x := Live(v)]), m, m')
  {
    hide Reaches, Grows;
    var M := Emit(A, Set(l, [], Use(o)));
    EmitStep(A, Set(l, [], Use(o)));
    StepLocals(A, M);
    assert T.locals[l] == M.locals[l] == Some(x);
    SetRun(E, T, A, l, Use(o), m);
    m' := m[l := Live(v)];
    AgreeSet(h, m, T, x, l, Live(v));
    KeptRefl(|A.locals|, m, T);
    KeptSet(|A.locals|, m, m, T, l, Live(v));
  }

  lemma {:induction false} SimLet(E: Env, T: Builder, x: Sym, e: Expr, L: Builder, h: Store, m: seq<Slot>)
    returns (m': seq<Slot>)
    requires InRange(L) && Ready(E, T, L, LowerStmt(E.contracts, Let(x, Some(e)), L), h, m) && Fits(E.contracts, e)
    ensures Simulated(E, T, Point(L, m), LowerStmt(E.contracts, Let(x, Some(e)), L), Const(UnitV), |L.locals|,
      EvalStmt(E, Let(x, Some(e)), h), m, m')
    decreases e, 5
  {
    hide Reaches, Grows, Ext, Agree, Kept, Emit, LowerExpr, Eval, Fits;
    var cs := E.contracts;
    var (X, l) := LocalFor(L, x);
    LocalForStep(L, x);
    var (A, o) := LowerExpr(cs, e, X);
    LowerExprStep(cs, e, X);
    EmitStep(A, Set(l, [], Use(o)));
    var M := Emit(A, Set(l, [], Use(o)));
    ExtStep(A, M, T);
    StepLocals(X, A);
    var m1 := SimExpr(E, T, e, MoveCtx, X, h, m);
    m' := m1;
    var r := Eval(E, e, MoveCtx, h);
    KeptMore(E, T, Point(L, m), A, o, |L.locals|, |X.locals|, r, m, m1);
    if r.Norm? {
      m' := SimStore(E, T, A, x, l, o, r.v, r.h, m1);
      SimulatedAfter(E, T, Point(L, m), Point(A, m1), M, Const(UnitV), |L.locals|, |A.locals|,
        Norm(UnitV, r.h[x := Live(r.v)]), m, m1, m');
    }
  }

  lemma {:induction false} SimAssign(E: Env, T: Builder, x: Sym, e: Expr, L: Builder, h: Store, m: seq<Slot>)
    returns (m': seq<Slot>)
    requires InRange(L) && Ready(E, T, L, LowerStmt(E.contracts, Assign(x, [], e), L), h, m) && Fits(E.contracts, e)
    ensures Simulated(E, T, Point(L, m), LowerStmt(E.contracts, Assign(x, [], e), L), Const(UnitV), |L.locals|,
      EvalStmt(E, Assign(x, [], e), h), m, m')
    decreases e, 5
  {
    hide Reaches, Grows, Ext, Agree, Kept, Emit, LowerExpr, Eval, Fits;
    var cs := E.contracts;
    var (A, o) := LowerExpr(cs, e, L);
    LowerExprStep(cs, e, L);
    var (X, l) := LocalFor(A, x);
    LocalForStep(A, x);
    EmitStep(X, Set(l, [], Use(o)));
    var M := Emit(X, Set(l, [], Use(o)));
    ExtStep(X, M, T);
    ExtStep(A, X, T);
    StepLocals(L, A);
    StepLocals(A, X);
    var m1 := SimExpr(E, T, e, MoveCtx, L, h, m);
    m' := m1;
    var r := Eval(E, e, MoveCtx, h);
    if r.Norm? {
      m' := SimStore(E, T, X, x, l, o, r.v, r.h, m1);
      SimulatedAfter(E, T, Point(L, m), Point(X, m1), M, Const(UnitV), |L.locals|, |X.locals|,
        Norm(UnitV, r.h[x := Live(r.v)]), m, m1, m');
    }
  }
}
