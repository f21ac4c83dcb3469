/** Which bindings a tree may write, and the shape of tree the lowering theorem covers. */
module Effects {
  import opened Wrappers
  import opened Hir
  import opened Semantics

  function OptSet(o: Option<Sym>): set<Sym> {
    if o.Some? then {o.value} else {}
  }

  function BindSet(binds: seq<Option<Sym>>): set<Sym> {
    set o <- binds | o.Some? :: o.value
  }

  function PatSyms(p: Pat): set<Sym> {
    match p
    case VariantPat(_, binds) => BindSet(binds)
    case BindPat(s) => OptSet(s)
    case PoisonPat => {}
  }

  /** Bindings a call changes: consumed arguments and mutably borrowed places. */
  function CallWrites(cs: Contracts, def: Def, args: seq<Expr>, n: nat): set<Sym>
    requires n <= |args|
  {
    if n == 0 then {}
    else
      CallWrites(cs, def, args, n - 1) +
      (if Consumes(ContractAt(cs, def, n - 1)) then OptSet(TailVar(args[n - 1]))
       else if ContractAt(cs, def, n - 1) == BorrowMut then OptSet(PlaceBase(args[n - 1]))
       else {})
  }

  /** The bindings a tree may write, declare or consume. */
  function Writes(cs: Contracts, e: Expr): set<Sym>
    decreases e, 1
  {
    match e
    case Lit(_) => {}
    case Poison => {}
    case Var(_) => {}
    case Field(b, _, _) => Writes(cs, b)
    case Prim(op, args) => WritesAll(cs, args) + (if op.Call? then CallWrites(cs, op.def, args, |args|) else {})
    case Logic(_, l, r) => Writes(cs, l) + Writes(cs, r)
    case If(c, t, f, _) => Writes(cs, c) + Writes(cs, t) + WritesOpt(cs, f)
    case Block(stmts, tail) => WritesStmts(cs, stmts) + WritesOpt(cs, tail)
    case Match(s, arms, _) => Writes(cs, s) + WritesArms(cs, arms)
    case ForRange(x, lo, hi, body) => {x} + WritesOpt(cs, lo) + WritesOpt(cs, hi) + Writes(cs, body)
    case ForEach(x, iter, body) => {x} + Writes(cs, iter) + Writes(cs, body)
  }

  function WritesOpt(cs: Contracts, o: Option<Expr>): set<Sym>
    decreases o, 2
  {
    if o.None? then {} else Writes(cs, o.value)
  }

  function WritesAll(cs: Contracts, es: seq<Expr>): set<Sym>
    decreases es, 0
  {
    if es == [] then {} else Writes(cs, es[0]) + WritesAll(cs, es[1..])
  }

  function WritesStmts(cs: Contracts, ss: seq<Stmt>): set<Sym>
    decreases ss, 0
  {
    if ss == [] then {} else WritesStmt(cs, ss[0]) + WritesStmts(cs, ss[1..])
  }

  function WritesStmt(cs: Contracts, s: Stmt): set<Sym>
    decreases s, 1
  {
    match s
    case Let(x, init) => {x} + WritesOpt(cs, init)
    case Assign(x, _, e) => {x} + Writes(cs, e)
    case ExprStmt(e) => Writes(cs, e)
    case Return(o) => WritesOpt(cs, o)
  }

  function WritesArms(cs: Contracts, arms: seq<Arm>): set<Sym>
    decreases arms, 0
  {
    if arms == [] then {} else WritesArm(cs, arms[0]) + WritesArms(cs, arms[1..])
  }

  function WritesArm(cs: Contracts, arm: Arm): set<Sym>
    decreases arm, 1
  {
    PatSyms(arm.pat) + Writes(cs, arm.body)
  }

  /** The stores agree on `s`. */
  predicate SameAt(h: Store, g: Store, s: Sym) {
    (s in h <==> s in g) && (s in h ==> h[s] == g[s])
  }

  /** Nothing was written to `s`; a strict run may still have consumed it. */
  predicate KeptAt(strict: bool, h: Store, g: Store, s: Sym) {
    if strict then IsLive(g, s) ==> IsLive(h, s) && g[s] == h[s] else SameAt(h, g, s)
  }

  // ---------- an expression only changes what it may write ----------

  lemma {:induction false} WriteBackKeeps(E: Env, def: Def, args: seq<Expr>, n: nat, outs: seq<Value>, h: Store, s: Sym)
    requires n <= |args| && s !in CallWrites(E.contracts, def, args, n)
    ensures SameAt(h, WriteBack(E, def, args, n, outs, h), s)
  {
    if n > 0 {
      WriteBackKeeps(E, def, args, n - 1, outs, h, s);
    }
  }

  lemma {:induction false} ConsumedKeeps(E: Env, def: Def, args: seq<Expr>, n: nat, h: Store, s: Sym)
    requires n <= |args| && s !in CallWrites(E.contracts, def, args, n)
    ensures SameAt(h, Consumed(E, def, args, n, h), s)
  {
    if n > 0 {
      ConsumedKeeps(E, def, args, n - 1, h, s);
    }
  }

  lemma FinishKeeps(E: Env, op: Op, args: seq<Expr>, vals: seq<Value>, h: Store, s: Sym)
    requires (op.Call? ==> s !in CallWrites(E.contracts, op.def, args, |args|))
    ensures var o := Finish(E, op, args, vals, h); o.Norm? ==> KeptAt(E.strict, h, o.h, s)
  {
    if op.Call? {
      var r := E.calls(op.def, vals);
      if r.CallDone? {
        WriteBackKeeps(E, op.def, args, |args|, r.outs, h, s);
        ConsumedKeeps(E, op.def, args, |args|, WriteBack(E, op.def, args, |args|, r.outs, h), s);
      }
    }
  }

  lemma {:induction false} BindPayloadKeeps(binds: seq<Option<Sym>>, n: nat, payload: seq<Value>, h: Store, s: Sym)
    requires n <= |binds| && s !in BindSet(binds)
    ensures var g := BindPayload(binds, n, payload, h); g.Some? ==> SameAt(h, g.value, s)
  {
    if n > 0 {
      BindPayloadKeeps(binds, n - 1, payload, h, s);
    }
  }

  lemma {:induction false} EvalKeeps(E: Env, e: Expr, ctx: Ctx, h: Store, s: Sym)
    requires s !in Writes(E.contracts, e)
    ensures var o := Eval(E, e, ctx, h); o.Norm? ==> KeptAt(E.strict, h, o.h, s)
    decreases e, 1, 0
  {
    match e
    case Lit(_) =>
    case Poison =>
    case Var(_) =>
    case Field(b, _, copy) =>
      hide KeptAt;
      EvalKeeps(E, b, if copy then ReadCtx else ctx, h, s);
    case Prim(_, _) => PrimKeeps(E, e, ctx, h, s);
    case Logic(_, _, _) => LogicKeeps(E, e, ctx, h, s);
    case If(_, _, _, _) => IfKeeps(E, e, ctx, h, s);
    case Block(_, _) => BlockKeeps(E, e, ctx, h, s);
    case Match(_, _, _) => MatchKeeps(E, e, ctx, h, s);
    case ForRange(_, _, _, _) => RangeKeeps(E, e, ctx, h, s);
    case ForEach(_, _, _) => EachKeeps(E, e, ctx, h, s);
  }

  lemma KeptAtTrans(strict: bool, h: Store, g: Store, k: Store, s: Sym)
    requires KeptAt(strict, h, g, s) && KeptAt(strict, g, k, s)
    ensures KeptAt(strict, h, k, s)
  {
  }

  lemma {:induction false} PrimKeeps(E: Env, e: Expr, ctx: Ctx, h: Store, s: Sym)
    requires e.Prim? && s !in Writes(E.contracts, e)
    ensures var o := Eval(E, e, ctx, h); o.Norm? ==> KeptAt(E.strict, h, o.h, s)
    decreases e, 0, 0
  {
    hide KeptAt, Finish;
    EvalArgsKeeps(E, e.op, e.args, 0, ctx, h, s);
    var o := EvalArgs(E, e.op, e.args, 0, ctx, h);
    if o.NormSeq? {
      FinishKeeps(E, e.op, e.args, o.vals, o.h, s);
      var r := Finish(E, e.op, e.args, o.vals, o.h);
      if r.Norm? {
        KeptAtTrans(E.strict, h, o.h, r.h, s);
      }
    }
  }

  lemma {:induction false} LogicKeeps(E: Env, e: Expr, ctx: Ctx, h: Store, s: Sym)
    requires e.Logic? && s !in Writes(E.contracts, e)
    ensures var o := Eval(E, e, ctx, h); o.Norm? ==> KeptAt(E.strict, h, o.h, s)
    decreases e, 0, 0
  {
    hide KeptAt;
    EvalKeeps(E, e.lhs, ReadCtx, h, s);
    var o := Eval(E, e.lhs, ReadCtx, h);
    if o.Norm? {
      EvalKeeps(E, e.rhs, ReadCtx, o.h, s);
      var r := Eval(E, e.rhs, ReadCtx, o.h);
      if r.Norm? {
        KeptAtTrans(E.strict, h, o.h, r.h, s);
      }
    }
  }

  lemma {:induction false} IfKeeps(E: Env, e: Expr, ctx: Ctx, h: Store, s: Sym)
    requires e.If? && s !in Writes(E.contracts, e)
    ensures var o := Eval(E, e, ctx, h); o.Norm? ==> KeptAt(E.strict, h, o.h, s)
    decreases e, 0, 0
  {
    hide KeptAt;
    EvalKeeps(E, e.cond, ReadCtx, h, s);
    var o := Eval(E, e.cond, ReadCtx, h);
    if o.Norm? {
      EvalKeeps(E, e.thn, ctx, o.h, s);
      var r := Eval(E, e.thn, ctx, o.h);
      if r.Norm? {
        KeptAtTrans(E.strict, h, o.h, r.h, s);
      }
      if e.els.Some? {
        EvalKeeps(E, e.els.value, ctx, o.h, s);
        var q := Eval(E, e.els.value, ctx, o.h);
        if q.Norm? {
          KeptAtTrans(E.strict, h, o.h, q.h, s);
        }
      }
    }
  }

  lemma {:induction false} BlockKeeps(E: Env, e: Expr, ctx: Ctx, h: Store, s: Sym)
    requires e.Block? && s !in Writes(E.contracts, e)
    ensures var o := Eval(E, e, ctx, h); o.Norm? ==> KeptAt(E.strict, h, o.h, s)
    decreases e, 0, 0
  {
    hide KeptAt;
    EvalStmtsKeeps(E, e.stmts, h, s);
    var o := EvalStmts(E, e.stmts, h);
    if o.Norm? && e.tail.Some? {
      EvalKeeps(E, e.tail.value, ctx, o.h, s);
      var r := Eval(E, e.tail.value, ctx, o.h);
      if r.Norm? {
        KeptAtTrans(E.strict, h, o.h, r.h, s);
      }
    }
  }

  lemma {:induction false} MatchKeeps(E: Env, e: Expr, ctx: Ctx, h: Store, s: Sym)
    requires e.Match? && s !in Writes(E.contracts, e)
    ensures var o := Eval(E, e, ctx, h); o.Norm? ==> KeptAt(E.strict, h, o.h, s)
    decreases e, 0, 0
  {
    hide KeptAt, BindArm;
    EvalKeeps(E, e.scrut, ReadCtx, h, s);
    var o := Eval(E, e.scrut, ReadCtx, h);
    if o.Norm? && o.v.VariantV? && FindArm(e.arms, o.v.tag).Some? {
      var k := FindArm(e.arms, o.v.tag).value;
      ArmsKeep(E, e.arms, k, o.v, ctx, o.h, s);
      var g := BindArm(e.arms[k].pat, o.v, o.h);
      if g.Some? {
        var r := Eval(E, e.arms[k].body, ctx, g.value);
        if r.Norm? {
          KeptAtTrans(E.strict, h, o.h, r.h, s);
        }
      }
    }
  }

  lemma {:induction false} RangeKeeps(E: Env, e: Expr, ctx: Ctx, h: Store, s: Sym)
    requires e.ForRange? && s !in Writes(E.contracts, e)
    ensures var o := Eval(E, e, ctx, h); o.Norm? ==> KeptAt(E.strict, h, o.h, s)
    decreases e, 0, 0
  {
    hide KeptAt, EvalBound, CountLoop;
    EvalBoundKeeps(E, e.lo, h, s);
    var a := EvalBound(E, e.lo, h);
    if a.Norm? {
      EvalBoundKeeps(E, e.hi, a.h, s);
      var b := EvalBound(E, e.hi, a.h);
      if b.Norm? && a.v.IntV? && b.v.IntV? {
        CountLoopKeeps(E, e.var_, e.body, a.v.i, b.v.i, b.h, s);
        var r := CountLoop(E, e.var_, e.body, a.v.i, b.v.i, b.h);
        if r.Norm? {
          KeptAtTrans(E.strict, h, a.h, b.h, s);
          KeptAtTrans(E.strict, h, b.h, r.h, s);
        }
      }
    }
  }

  lemma {:induction false} EachKeeps(E: Env, e: Expr, ctx: Ctx, h: Store, s: Sym)
    requires e.ForEach? && s !in Writes(E.contracts, e)
    ensures var o := Eval(E, e, ctx, h); o.Norm? ==> KeptAt(E.strict, h, o.h, s)
    decreases e, 0, 0
  {
    hide KeptAt, EachLoop;
    EvalKeeps(E, e.iter, ReadCtx, h, s);
    var o := Eval(E, e.iter, ReadCtx, h);
    if o.Norm? && o.v.ArrayV? {
      EachLoopKeeps(E, e.var_, e.body, o.v.elems, 0, o.h, s);
      var r := EachLoop(E, e.var_, e.body, o.v.elems, 0, o.h);
      if r.Norm? {
        KeptAtTrans(E.strict, h, o.h, r.h, s);
      }
    }
  }

  lemma {:induction false} ArmsKeep(E: Env, arms: seq<Arm>, k: nat, v: Value, ctx: Ctx, h: Store, s: Sym)
    requires k < |arms| && v.VariantV? && s !in WritesArms(E.contracts, arms)
    ensures var g := BindArm(arms[k].pat, v, h);
      g.Some? ==> var o := Eval(E, arms[k].body, ctx, g.value); o.Norm? ==> KeptAt(E.strict, h, o.h, s)
    decreases arms, 0, 0
  {
    if k == 0 {
      ArmKeeps(E, arms[0], v, ctx, h, s);
    } else {
      ArmsKeep(E, arms[1..], k - 1, v, ctx, h, s);
    }
  }

  lemma {:induction false} ArmKeeps(E: Env, arm: Arm, v: Value, ctx: Ctx, h: Store, s: Sym)
    requires v.VariantV? && s !in WritesArm(E.contracts, arm)
    ensures var g := BindArm(arm.pat, v, h);
      g.Some? ==> var o := Eval(E, arm.body, ctx, g.value); o.Norm? ==> KeptAt(E.strict, h, o.h, s)
    decreases arm, 5, 0
  {
    var g := BindArm(arm.pat, v, h);
    if g.Some? {
      if arm.pat.VariantPat? {
        BindPayloadKeeps(arm.pat.binds, |arm.pat.binds|, v.payload, h, s);
      }
      EvalKeeps(E, arm.body, ctx, g.value, s);
    }
  }

  lemma {:induction false} EvalBoundKeeps(E: Env, bound: Option<Expr>, h: Store, s: Sym)
    requires s !in WritesOpt(E.contracts, bound)
    ensures var o := EvalBound(E, bound, h); o.Norm? ==> KeptAt(E.strict, h, o.h, s)
    decreases bound, 2, 0
  {
    if bound.Some? {
      EvalKeeps(E, bound.value, ReadCtx, h, s);
    }
  }

  lemma {:induction false} EvalArgsKeeps(E: Env, op: Op, args: seq<Expr>, i: nat, ctx: Ctx, h: Store, s: Sym)
    requires s !in WritesAll(E.contracts, args)
    ensures var o := EvalArgs(E, op, args, i, ctx, h); o.NormSeq? ==> KeptAt(E.strict, h, o.h, s)
    decreases args, 0, 0
  {
    if args != [] {
      EvalKeeps(E, args[0], ArgCtx(E.contracts, op, i, ctx), h, s);
      var o := Eval(E, args[0], ArgCtx(E.contracts, op, i, ctx), h);
      if o.Norm? {
        EvalArgsKeeps(E, op, args[1..], i + 1, ctx, o.h, s);
      }
    }
  }

  lemma {:induction false} EvalStmtsKeeps(E: Env, stmts: seq<Stmt>, h: Store, s: Sym)
    requires s !in WritesStmts(E.contracts, stmts)
    ensures var o := EvalStmts(E, stmts, h); o.Norm? ==> KeptAt(E.strict, h, o.h, s)
    decreases stmts, 0, 0
  {
    if stmts != [] {
      EvalStmtKeeps(E, stmts[0], h, s);
      var o := EvalStmt(E, stmts[0], h);
      if o.Norm? {
        EvalStmtsKeeps(E, stmts[1..], o.h, s);
      }
    }
  }

  lemma {:induction false} EvalStmtKeeps(E: Env, t: Stmt, h: Store, s: Sym)
    requires s !in WritesStmt(E.contracts, t)
    ensures var o := EvalStmt(E, t, h); o.Norm? ==> KeptAt(E.strict, h, o.h, s)
    decreases t, 1, 0
  {
    match t
    case Let(x, init) =>
      if init.Some? {
        EvalKeeps(E, init.value, MoveCtx, h, s);
      }
    case Assign(x, path, e) => EvalKeeps(E, e, MoveCtx, h, s);
    case ExprStmt(e) => EvalKeeps(E, e, MoveCtx, h, s);
    case Return(_) =>
  }

  lemma {:induction false} CountLoopKeeps(E: Env, x: Sym, body: Expr, i: int, n: int, h: Store, s: Sym)
    requires s != x && s !in Writes(E.contracts, body)
    ensures var o := CountLoop(E, x, body, i, n, h); o.Norm? ==> KeptAt(E.strict, h, o.h, s)
    decreases body, 2, n - i
  {
    if i < n {
      var g := h[x := Live(IntV(i))];
      EvalKeeps(E, body, MoveCtx, g, s);
      var o := Eval(E, body, MoveCtx, g);
      if o.Norm? {
        CountLoopKeeps(E, x, body, i + 1, n, o.h, s);
      }
    }
  }

  lemma {:induction false} EachLoopKeeps(E: Env, x: Sym, body: Expr, elems: seq<Value>, i: nat, h: Store, s: Sym)
    requires s != x && s !in Writes(E.contracts, body)
    ensures var o := EachLoop(E, x, body, elems, i, h); o.Norm? ==> KeptAt(E.strict, h, o.h, s)
    decreases body, 2, |elems| - i
  {
    if i < |elems| {
      var g := h[x := Live(elems[i])];
      EvalKeeps(E, body, MoveCtx, g, s);
      var o := Eval(E, body, MoveCtx, g);
      if o.Norm? {
        EachLoopKeeps(E, x, body, elems, i + 1, o.h, s);
      }
    }
  }

  /** The value of an expression that ends in a binding is still in that binding. */
  lemma {:induction false} TailVarHolds(E: Env, e: Expr, ctx: Ctx, h: Store)
    requires !E.strict && TailVar(e).Some?
    ensures var o := Eval(E, e, ctx, h); o.Norm? ==> TailVar(e).value in o.h && o.h[TailVar(e).value] == Live(o.v)
  {
    if e.Block? {
      var o := EvalStmts(E, e.stmts, h);
      if o.Norm? {
        TailVarHolds(E, e.tail.value, ctx, o.h);
      }
    }
  }
}
