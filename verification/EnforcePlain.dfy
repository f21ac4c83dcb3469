/** Runs that consume bindings at every move agree with plain by-value runs, so a body the
    enforcement walk accepts cannot misuse a binding on the executor either. */
module EnforcePlain {
  import opened Wrappers
  import opened Hir
  import opened Semantics
  import opened Effects
  import opened LowerFit
  import opened Enforce
  import opened EnforceSound

  /** Every value the consuming run still holds, the plain run holds too. */
  ghost predicate Below(hs: Store, hp: Store) {
    forall s :: IsLive(hs, s) ==> IsLive(hp, s) && hp[s] == hs[s]
  }

  /** The plain run ends the same way, if the consuming run did not misuse a binding. */
  ghost predicate Agrees(os: Out, op: Out) {
    match os
    case Misuse => true
    case Norm(v, h) => op.Norm? && op.v == v && Below(h, op.h)
    case Ret(v) => op == Ret(v)
    case Trap => op == Trap
  }

  ghost predicate Twins(ES: Env, EP: Env) {
    ES.strict && EP == ES.(strict := false)
  }

  // ---------- calls whose operands are settled ----------

  /** Consumed arguments are not copies, and no later operand writes an earlier place. */
  predicate Settled(cs: Contracts, copies: set<Sym>, op: Op, args: seq<Expr>) {
    op.Call? ==> Undisturbed(cs, args) && NoCopyConsumed(cs, copies, op.def, args, 0)
  }

  predicate NoCopyConsumed(cs: Contracts, copies: set<Sym>, def: Def, args: seq<Expr>, i: nat) {
    args == [] ||
    (NoCopyConsumed(cs, copies, def, args[1..], i + 1) &&
     (Consumes(ContractAt(cs, def, i)) && TailVar(args[0]).Some? ==> TailVar(args[0]).value !in copies))
  }

  predicate AllSettled(cs: Contracts, copies: set<Sym>, e: Expr)
    decreases e, 1
  {
    match e
    case Field(b, _, _) => AllSettled(cs, copies, b)
    case Prim(op, args) => Settled(cs, copies, op, args) && ArgsSettled(cs, copies, args)
    case Logic(_, l, r) => AllSettled(cs, copies, l) && AllSettled(cs, copies, r)
    case If(c, t, f, _) => AllSettled(cs, copies, c) && AllSettled(cs, copies, t) && OptSettled(cs, copies, f)
    case Block(stmts, tail) => StmtsSettled(cs, copies, stmts) && OptSettled(cs, copies, tail)
    case Match(s, arms, _) => AllSettled(cs, copies, s) && ArmsSettled(cs, copies, arms)
    case ForRange(_, lo, hi, body) =>
      OptSettled(cs, copies, lo) && OptSettled(cs, copies, hi) && AllSettled(cs, copies, body)
    case ForEach(_, iter, body) => AllSettled(cs, copies, iter) && AllSettled(cs, copies, body)
    case _ => true
  }

  predicate OptSettled(cs: Contracts, copies: set<Sym>, o: Option<Expr>)
    decreases o, 2
  {
    o.Some? ==> AllSettled(cs, copies, o.value)
  }

  predicate ArgsSettled(cs: Contracts, copies: set<Sym>, es: seq<Expr>)
    decreases es, 0
  {
    es == [] || (AllSettled(cs, copies, es[0]) && ArgsSettled(cs, copies, es[1..]))
  }

  predicate ArmsSettled(cs: Contracts, copies: set<Sym>, arms: seq<Arm>)
    decreases arms, 0
  {
    arms == [] || (ArmSettled(cs, copies, arms[0]) && ArmsSettled(cs, copies, arms[1..]))
  }

  predicate ArmSettled(cs: Contracts, copies: set<Sym>, arm: Arm)
    decreases arm, 2
  {
    AllSettled(cs, copies, arm.body)
  }

  predicate StmtsSettled(cs: Contracts, copies: set<Sym>, ss: seq<Stmt>)
    decreases ss, 0
  {
    ss == [] || (StmtSettled(cs, copies, ss[0]) && StmtsSettled(cs, copies, ss[1..]))
  }

  predicate StmtSettled(cs: Contracts, copies: set<Sym>, s: Stmt)
    decreases s, 1
  {
    match s
    case Let(_, init) => OptSettled(cs, copies, init)
    case Assign(_, _, e) => AllSettled(cs, copies, e)
    case ExprStmt(e) => AllSettled(cs, copies, e)
    case Return(o) => OptSettled(cs, copies, o)
  }

  // ---------- calls ----------

  /** Every binding a consuming argument ends in is empty. */
  ghost predicate Emptied(cs: Contracts, def: Def, args: seq<Expr>, i: nat, h: Store) {
    forall k: nat {:trigger args[k]} :: k < |args| && Consumes(ContractAt(cs, def, i + k)) && TailVar(args[k]).Some? ==>
      !IsLive(h, TailVar(args[k]).value)
  }

  /** A consumed argument leaves its binding empty. */
  lemma {:induction false} MoveEmpties(E: Env, e: Expr, h: Store)
    requires E.strict && TailVar(e).Some? && TailVar(e).value !in E.copies
    ensures var o := Eval(E, e, MoveCtx, h); o.Norm? ==> !IsLive(o.h, TailVar(e).value)
    decreases e
  {
    if e.Block? {
      var o := EvalStmts(E, e.stmts, h);
      if o.Norm? {
        MoveEmpties(E, e.tail.value, o.h);
      }
    }
  }

  lemma {:induction false} ArgsEmptied(E: Env, op: Op, args: seq<Expr>, i: nat, ctx: Ctx, h: Store)
    requires E.strict && op.Call? && Undisturbed(E.contracts, args)
    requires NoCopyConsumed(E.contracts, E.copies, op.def, args, i)
    ensures var o := EvalArgs(E, op, args, i, ctx, h); o.NormSeq? ==> Emptied(E.contracts, op.def, args, i, o.h)
    decreases args
  {
    var o := EvalArgs(E, op, args, i, ctx, h);
    if args != [] && o.NormSeq? {
      var c := ArgCtx(E.contracts, op, i, ctx);
      var g := Eval(E, args[0], c, h).h;
      ArgsEmptied(E, op, args[1..], i + 1, ctx, g);
      forall k: nat | k < |args| && Consumes(ContractAt(E.contracts, op.def, i + k)) && TailVar(args[k]).Some?
        ensures !IsLive(o.h, TailVar(args[k]).value)
      {
        if k == 0 {
          MoveEmpties(E, args[0], h);
          EvalArgsKeeps(E, op, args[1..], i + 1, ctx, g, TailVar(args[0]).value);
        } else {
          assert args[k] == args[1..][k - 1];
        }
      }
    }
  }

  lemma {:induction false} WriteBackTwins(ES: Env, EP: Env, def: Def, args: seq<Expr>, n: nat, outs: seq<Value>,
        hs: Store, hp: Store)
    requires Twins(ES, EP) && n <= |args| && Below(hs, hp) && BorrowsLive(ES, def, args, n, hs)
    ensures var gs := WriteBack(ES, def, args, n, outs, hs);
      Below(gs, WriteBack(EP, def, args, n, outs, hp)) && forall s :: IsLive(gs, s) <==> IsLive(hs, s)
  {
    if n > 0 {
      WriteBackTwins(ES, EP, def, args, n - 1, outs, hs, hp);
    }
  }

  lemma {:induction false} ConsumedBelow(E: Env, def: Def, args: seq<Expr>, n: nat, hs: Store, hp: Store)
    requires n <= |args| && Below(hs, hp) && Emptied(E.contracts, def, args, 0, hs)
    ensures Below(hs, Consumed(E, def, args, n, hp))
  {
    if n > 0 {
      ConsumedBelow(E, def, args, n - 1, hs, hp);
      assert Consumes(ContractAt(E.contracts, def, 0 + (n - 1))) && TailVar(args[n - 1]).Some? ==>
        !IsLive(hs, TailVar(args[n - 1]).value);
    }
  }

  lemma FinishTwins(ES: Env, EP: Env, op: Op, args: seq<Expr>, vals: seq<Value>, hs: Store, hp: Store)
    requires Twins(ES, EP) && Below(hs, hp) && (op.Call? ==> Emptied(ES.contracts, op.def, args, 0, hs))
    ensures Agrees(Finish(ES, op, args, vals, hs), Finish(EP, op, args, vals, hp))
  {
    if op.Call? && BorrowsLive(ES, op.def, args, |args|, hs) {
      var r := ES.calls(op.def, vals);
      if r.CallDone? {
        WriteBackTwins(ES, EP, op.def, args, |args|, r.outs, hs, hp);
        var gs := WriteBack(ES, op.def, args, |args|, r.outs, hs);
        ConsumedBelow(EP, op.def, args, |args|, gs, WriteBack(EP, op.def, args, |args|, r.outs, hp));
      }
    }
  }

  lemma {:induction false} BindTwins(binds: seq<Option<Sym>>, n: nat, payload: seq<Value>, hs: Store, hp: Store)
    requires n <= |binds| && Below(hs, hp)
    ensures var gs := BindPayload(binds, n, payload, hs);
      var gp := BindPayload(binds, n, payload, hp);
      (gs.Some? <==> gp.Some?) && (gs.Some? ==> Below(gs.value, gp.value))
  {
    if n > 0 {
      BindTwins(binds, n - 1, payload, hs, hp);
    }
  }

  lemma WriteTwins(ES: Env, EP: Env, s: Sym, path: seq<nat>, v: Value, hs: Store, hp: Store)
    requires Twins(ES, EP) && Below(hs, hp)
    ensures Agrees(Write(ES, s, path, v, hs), Write(EP, s, path, v, hp))
  {
  }

  lemma BelowSet(hs: Store, hp: Store, s: Sym, v: Value)
    requires Below(hs, hp)
    ensures Below(hs[s := Live(v)], hp[s := Live(v)]) && Below(hs - {s}, hp - {s})
  {
  }

  // ---------- expressions ----------

  /** A consuming run that misuses nothing and a plain run end alike, value for value. */
  lemma {:induction false} PlainAgrees(ES: Env, EP: Env, e: Expr, ctx: Ctx, hs: Store, hp: Store)
    requires Twins(ES, EP) && Below(hs, hp) && AllSettled(ES.contracts, ES.copies, e)
    ensures Agrees(Eval(ES, e, ctx, hs), Eval(EP, e, ctx, hp))
    decreases e, 1, 0
  {
    hide Below, Settled;
    match e
    case Lit(_) =>
    case Poison =>
    case Var(s) => ReadTwins(ES, EP, s, ctx, hs, hp);
    case Field(b, f, copy) => PlainAgrees(ES, EP, b, if copy then ReadCtx else ctx, hs, hp);
    case Prim(_, _) => PrimAgrees(ES, EP, e, ctx, hs, hp);
    case Logic(isOr, l, r) =>
      PlainAgrees(ES, EP, l, ReadCtx, hs, hp);
      var o := Eval(ES, l, ReadCtx, hs);
      if o.Norm? {
        PlainAgrees(ES, EP, r, ReadCtx, o.h, Eval(EP, l, ReadCtx, hp).h);
      }
    case If(_, _, _, _) => IfAgrees(ES, EP, e, ctx, hs, hp);
    case Block(stmts, tail) =>
      StmtsAgree(ES, EP, stmts, hs, hp);
      var o := EvalStmts(ES, stmts, hs);
      if o.Norm? && tail.Some? {
        PlainAgrees(ES, EP, tail.value, ctx, o.h, EvalStmts(EP, stmts, hp).h);
      }
    case Match(_, _, _) => MatchAgrees(ES, EP, e, ctx, hs, hp);
    case ForRange(_, _, _, _) => RangeAgrees(ES, EP, e, ctx, hs, hp);
    case ForEach(_, _, _) => ForEachAgrees(ES, EP, e, ctx, hs, hp);
  }

  lemma {:induction false} PrimAgrees(ES: Env, EP: Env, e: Expr, ctx: Ctx, hs: Store, hp: Store)
    requires e.Prim? && Twins(ES, EP) && Below(hs, hp) && AllSettled(ES.contracts, ES.copies, e)
    ensures Agrees(Eval(ES, e, ctx, hs), Eval(EP, e, ctx, hp))
    decreases e, 0, 1
  {
    hide Below, Settled, Finish;
    ArgsAgree(ES, EP, e.op, e.args, 0, ctx, hs, hp);
    var o := EvalArgs(ES, e.op, e.args, 0, ctx, hs);
    if o.NormSeq? {
      SettledEmptied(ES, e.op, e.args, ctx, hs);
      FinishTwins(ES, EP, e.op, e.args, o.vals, o.h, EvalArgs(EP, e.op, e.args, 0, ctx, hp).h);
    }
  }

  lemma {:induction false} MatchAgrees(ES: Env, EP: Env, e: Expr, ctx: Ctx, hs: Store, hp: Store)
    requires e.Match? && Twins(ES, EP) && Below(hs, hp) && AllSettled(ES.contracts, ES.copies, e)
    ensures Agrees(Eval(ES, e, ctx, hs), Eval(EP, e, ctx, hp))
    decreases e, 0, 1
  {
    hide Below, BindArm;
    PlainAgrees(ES, EP, e.scrut, ReadCtx, hs, hp);
    var o := Eval(ES, e.scrut, ReadCtx, hs);
    if o.Norm? && o.v.VariantV? && FindArm(e.arms, o.v.tag).Some? {
      ArmsAgree(ES, EP, e.arms, FindArm(e.arms, o.v.tag).value, o.v, ctx, o.h, Eval(EP, e.scrut, ReadCtx, hp).h);
    }
  }

  lemma {:induction false} ForEachAgrees(ES: Env, EP: Env, e: Expr, ctx: Ctx, hs: Store, hp: Store)
    requires e.ForEach? && Twins(ES, EP) && Below(hs, hp) && AllSettled(ES.contracts, ES.copies, e)
    ensures Agrees(Eval(ES, e, ctx, hs), Eval(EP, e, ctx, hp))
    decreases e, 0, 1
  {
    hide Below, EachLoop;
    PlainAgrees(ES, EP, e.iter, ReadCtx, hs, hp);
    var o := Eval(ES, e.iter, ReadCtx, hs);
    if o.Norm? && o.v.ArrayV? {
      EachAgrees(ES, EP, e.var_, e.body, o.v.elems, 0, o.h, Eval(EP, e.iter, ReadCtx, hp).h);
    }
  }

  lemma {:induction false} IfAgrees(ES: Env, EP: Env, e: Expr, ctx: Ctx, hs: Store, hp: Store)
    requires Twins(ES, EP) && Below(hs, hp) && e.If? && AllSettled(ES.contracts, ES.copies, e)
    ensures Agrees(Eval(ES, e, ctx, hs), Eval(EP, e, ctx, hp))
    decreases e, 0, 0
  {
    hide Below;
    PlainAgrees(ES, EP, e.cond, ReadCtx, hs, hp);
    var o := Eval(ES, e.cond, ReadCtx, hs);
    if o.Norm? {
      var g := Eval(EP, e.cond, ReadCtx, hp).h;
      PlainAgrees(ES, EP, e.thn, ctx, o.h, g);
      if e.els.Some? {
        PlainAgrees(ES, EP, e.els.value, ctx, o.h, g);
      }
    }
  }

  lemma {:induction false} RangeAgrees(ES: Env, EP: Env, e: Expr, ctx: Ctx, hs: Store, hp: Store)
    requires Twins(ES, EP) && Below(hs, hp) && e.ForRange? && AllSettled(ES.contracts, ES.copies, e)
    ensures Agrees(Eval(ES, e, ctx, hs), Eval(EP, e, ctx, hp))
    decreases e, 0, 0
  {
    hide Below;
    BoundAgrees(ES, EP, e.lo, hs, hp);
    var a := EvalBound(ES, e.lo, hs);
    if a.Norm? {
      var p := EvalBound(EP, e.lo, hp).h;
      BoundAgrees(ES, EP, e.hi, a.h, p);
      var b := EvalBound(ES, e.hi, a.h);
      if b.Norm? && a.v.IntV? && b.v.IntV? {
        CountAgrees(ES, EP, e.var_, e.body, a.v.i, b.v.i, b.h, EvalBound(EP, e.hi, p).h);
      }
    }
  }

  lemma ReadTwins(ES: Env, EP: Env, s: Sym, ctx: Ctx, hs: Store, hp: Store)
    requires Twins(ES, EP) && Below(hs, hp)
    ensures Agrees(ReadVar(ES, s, ctx, hs), ReadVar(EP, s, ctx, hp))
  {
  }

  lemma SettledEmptied(E: Env, op: Op, args: seq<Expr>, ctx: Ctx, h: Store)
    requires E.strict && Settled(E.contracts, E.copies, op, args)
    ensures var o := EvalArgs(E, op, args, 0, ctx, h);
      op.Call? && o.NormSeq? ==> Emptied(E.contracts, op.def, args, 0, o.h)
  {
    if op.Call? {
      ArgsEmptied(E, op, args, 0, ctx, h);
    }
  }

  ghost predicate SeqAgrees(os: OutSeq, op: OutSeq) {
    match os
    case NormSeq(vals, h) => op.NormSeq? && op.vals == vals && Below(h, op.h)
    case Stop(o) => o.Misuse? || op == os
  }

  lemma {:induction false} ArgsAgree(ES: Env, EP: Env, op: Op, args: seq<Expr>, i: nat, ctx: Ctx, hs: Store, hp: Store)
    requires Twins(ES, EP) && Below(hs, hp) && ArgsSettled(ES.contracts, ES.copies, args)
    ensures SeqAgrees(EvalArgs(ES, op, args, i, ctx, hs), EvalArgs(EP, op, args, i, ctx, hp))
    decreases args, 0, 0
  {
    hide Below;
    if args != [] {
      var c := ArgCtx(ES.contracts, op, i, ctx);
      PlainAgrees(ES, EP, args[0], c, hs, hp);
      var o := Eval(ES, args[0], c, hs);
      if o.Norm? {
        ArgsAgree(ES, EP, op, args[1..], i + 1, ctx, o.h, Eval(EP, args[0], c, hp).h);
      }
    }
  }

  lemma {:induction false} ArmsAgree(ES: Env, EP: Env, arms: seq<Arm>, k: nat, v: Value, ctx: Ctx, hs: Store, hp: Store)
    requires Twins(ES, EP) && Below(hs, hp) && ArmsSettled(ES.contracts, ES.copies, arms) && k < |arms| && v.VariantV?
    ensures var gs := BindArm(arms[k].pat, v, hs);
      var gp := BindArm(arms[k].pat, v, hp);
      (gs.Some? <==> gp.Some?) &&
      (gs.Some? ==> Agrees(Eval(ES, arms[k].body, ctx, gs.value), Eval(EP, arms[k].body, ctx, gp.value)))
    decreases arms, 0, 0
  {
    if k > 0 {
      ArmsAgree(ES, EP, arms[1..], k - 1, v, ctx, hs, hp);
    } else {
      ArmAgrees(ES, EP, arms[0], v, ctx, hs, hp);
    }
  }

  lemma {:induction false} ArmAgrees(ES: Env, EP: Env, arm: Arm, v: Value, ctx: Ctx, hs: Store, hp: Store)
    requires Twins(ES, EP) && Below(hs, hp) && ArmSettled(ES.contracts, ES.copies, arm) && v.VariantV?
    ensures var gs := BindArm(arm.pat, v, hs);
      var gp := BindArm(arm.pat, v, hp);
      (gs.Some? <==> gp.Some?) &&
      (gs.Some? ==> Agrees(Eval(ES, arm.body, ctx, gs.value), Eval(EP, arm.body, ctx, gp.value)))
    decreases arm, 3, 0
  {
    if arm.pat.VariantPat? {
      BindTwins(arm.pat.binds, |arm.pat.binds|, v.payload, hs, hp);
    }
    var gs := BindArm(arm.pat, v, hs);
    if gs.Some? {
      PlainAgrees(ES, EP, arm.body, ctx, gs.value, BindArm(arm.pat, v, hp).value);
    }
  }

  lemma {:induction false} BoundAgrees(ES: Env, EP: Env, o: Option<Expr>, hs: Store, hp: Store)
    requires Twins(ES, EP) && Below(hs, hp) && OptSettled(ES.contracts, ES.copies, o)
    ensures Agrees(EvalBound(ES, o, hs), EvalBound(EP, o, hp))
    decreases o, 2, 0
  {
    if o.Some? {
      PlainAgrees(ES, EP, o.value, ReadCtx, hs, hp);
    }
  }

  lemma {:induction false} StmtsAgree(ES: Env, EP: Env, ss: seq<Stmt>, hs: Store, hp: Store)
    requires Twins(ES, EP) && Below(hs, hp) && StmtsSettled(ES.contracts, ES.copies, ss)
    ensures Agrees(EvalStmts(ES, ss, hs), EvalStmts(EP, ss, hp))
    decreases ss, 0, 0
  {
    hide Below;
    if ss != [] {
      StmtAgrees(ES, EP, ss[0], hs, hp);
      var o := EvalStmt(ES, ss[0], hs);
      if o.Norm? {
        StmtsAgree(ES, EP, ss[1..], o.h, EvalStmt(EP, ss[0], hp).h);
      }
    }
  }

  lemma {:induction false} StmtAgrees(ES: Env, EP: Env, s: Stmt, hs: Store, hp: Store)
    requires Twins(ES, EP) && Below(hs, hp) && StmtSettled(ES.contracts, ES.copies, s)
    ensures Agrees(EvalStmt(ES, s, hs), EvalStmt(EP, s, hp))
    decreases s, 1, 0
  {
    hide Below;
    match s
    case Let(x, None) => BelowSet(hs, hp, x, UnitV);
    case Let(x, Some(e)) =>
      PlainAgrees(ES, EP, e, MoveCtx, hs, hp);
      var o := Eval(ES, e, MoveCtx, hs);
      if o.Norm? {
        BelowSet(o.h, Eval(EP, e, MoveCtx, hp).h, x, o.v);
      }
    case Assign(x, path, e) =>
      PlainAgrees(ES, EP, e, MoveCtx, hs, hp);
      var o := Eval(ES, e, MoveCtx, hs);
      if o.Norm? {
        WriteTwins(ES, EP, x, path, o.v, o.h, Eval(EP, e, MoveCtx, hp).h);
      }
    case ExprStmt(e) => PlainAgrees(ES, EP, e, MoveCtx, hs, hp);
    case Return(None) =>
    case Return(Some(e)) => PlainAgrees(ES, EP, e, MoveCtx, hs, hp);
  }

  lemma {:induction false} CountAgrees(ES: Env, EP: Env, x: Sym, body: Expr, i: int, n: int, hs: Store, hp: Store)
    requires Twins(ES, EP) && Below(hs, hp) && AllSettled(ES.contracts, ES.copies, body)
    ensures Agrees(CountLoop(ES, x, body, i, n, hs), CountLoop(EP, x, body, i, n, hp))
    decreases body, 2, n - i
  {
    hide Below;
    BelowSet(hs, hp, x, IntV(i));
    if i < n {
      var gs, gp := hs[x := Live(IntV(i))], hp[x := Live(IntV(i))];
      PlainAgrees(ES, EP, body, MoveCtx, gs, gp);
      var o := Eval(ES, body, MoveCtx, gs);
      if o.Norm? {
        CountAgrees(ES, EP, x, body, i + 1, n, o.h, Eval(EP, body, MoveCtx, gp).h);
      }
    }
  }

  lemma {:induction false} EachAgrees(ES: Env, EP: Env, x: Sym, body: Expr, elems: seq<Value>, i: nat, hs: Store,
        hp: Store)
    requires Twins(ES, EP) && Below(hs, hp) && AllSettled(ES.contracts, ES.copies, body)
    ensures Agrees(EachLoop(ES, x, body, elems, i, hs), EachLoop(EP, x, body, elems, i, hp))
    decreases body, 2, |elems| - i
  {
    hide Below;
    if i < |elems| {
      BelowSet(hs, hp, x, elems[i]);
      var gs, gp := hs[x := Live(elems[i])], hp[x := Live(elems[i])];
      PlainAgrees(ES, EP, body, MoveCtx, gs, gp);
      var o := Eval(ES, body, MoveCtx, gs);
      if o.Norm? {
        EachAgrees(ES, EP, x, body, elems, i + 1, o.h, Eval(EP, body, MoveCtx, gp).h);
      }
    } else {
      BelowSet(hs, hp, x, UnitV);
    }
  }

  // ---------- accepted bodies on the executor ----------

  /** Acceptance carries over to plain runs: the same result, and never a misuse. */
  lemma AcceptedRunsPlain(R: Rules, ES: Env, params: seq<Sym>, root: Expr, h: Store)
    requires Follows(R, ES) && Scoped(root, set s | s in params) && AllSettled(R.contracts, R.copies, root)
    requires forall s <- params :: IsLive(h, s)
    requires CheckBody(R, params, root).diags == [] && CheckBody(R, params, root).steady
    ensures var os := Eval(ES, root, MoveCtx, h);
      var op := Eval(ES.(strict := false), root, MoveCtx, h);
      !op.Misuse? && Agrees(os, op)
  {
    BodyNeverMisuses(R, ES, params, root, h);
    PlainAgrees(ES, ES.(strict := false), root, MoveCtx, h, h);
  }
}
