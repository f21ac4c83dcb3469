/** The induction behind the escape contracts: the walk foresees where a run leaves a mark. */
module InferEscape {
  import opened Wrappers
  import opened Hir
  import opened Semantics
  import opened Effects
  import opened EnforceSound
  import opened Infer
  import opened InferUses
  import opened InferRuns
  import opened InferMarks
  import opened InferSound

  // ---------- bindings that come into scope ----------

  lemma LetAccounts(G: Trial, T: Taint, x: Sym, c: Carriers, o: Out, sc: set<Sym>)
    requires Foreseen(G, T, c, o, sc) && o.Norm? && ParamsIn(G.fun, sc) && x !in sc
    ensures Accounts(G, Carry(T, x, c), o.h[x := Live(o.v)], sc + {x})
  {
  }

  lemma DeclareAccounts(G: Trial, T: Taint, x: Sym, h: Store, sc: set<Sym>)
    requires Accounts(G, T, h, sc) && ParamsIn(G.fun, sc) && x !in sc
    ensures Accounts(G, Carry(T, x, {}), h - {x}, sc + {x})
  {
  }

  lemma WriteForeseen(G: Trial, T: Taint, x: Sym, path: seq<nat>, c: Carriers, o: Out, sc: set<Sym>)
    requires Foreseen(G, T, c, o, sc) && o.Norm? && x in sc
    requires Position(G.fun.params, x).Some? ==> c <= {Position(G.fun.params, x).value}
    ensures var B := FlagMutated(G.fun, x, T);
      Foreseen(G, if c == {} then B else Carry(B, x, Carried(B, x) + c), {}, Write(G.env, x, path, o.v, o.h), sc)
  {
    FlagGrows(G.fun, x, ReadCtx, T, sc);
    if path != [] && IsLive(o.h, x) {
      var w := SetPath(o.h[x].v, path, o.v);
      if w.Some? && Marked(w.value, G.def) {
        SetPathMarked(o.h[x].v, path, o.v, G.def);
      }
    }
  }

  /** Pattern bindings of a non-copy type carry what the scrutinee carried. */
  predicate BoundBy(G: Trial, T: Taint, h: Store, syms: set<Sym>) {
    forall s <- syms ::
      IsLive(h, s) && Marked(h[s].v, G.def) ==> s in G.fun.copies || G.pos in Carried(T, s)
  }

  lemma {:induction false} BindsAccount(G: Trial, binds: seq<Option<Sym>>, n: nat, payload: seq<Value>, c: Carriers,
        T: Taint, h: Store, sc: set<Sym>)
    requires n <= |binds| && Accounts(G, T, h, sc) && BindSet(binds) !! sc && ParamsIn(G.fun, sc)
    requires AnyMarked(payload, G.def) ==> G.pos in c
    requires BindPayload(binds, n, payload, h).Some?
    ensures var g := BindPayload(binds, n, payload, h).value;
      var U := CarryBinds(G.fun, binds, n, c, T);
      Accounts(G, U, g, sc) && BoundBy(G, U, g, BindSet(binds[..n]))
  {
    hide Marked;
    if n == 0 {
      assert BindSet(binds[..0]) == {};
    } else {
      BindsAccount(G, binds, n - 1, payload, c, T, h, sc);
      assert binds[..n] == binds[..n - 1] + [binds[n - 1]];
      assert BindSet(binds[..n]) == BindSet(binds[..n - 1]) + OptSet(binds[n - 1]);
      if binds[n - 1].Some? {
        assert binds[n - 1] in binds && binds[n - 1].value in BindSet(binds);
        assert payload[n - 1] in payload;
      }
    }
  }

  lemma PatAccounts(G: Trial, p: Pat, v: Value, c: Carriers, T: Taint, h: Store, sc: set<Sym>)
    requires v.VariantV? && BindArm(p, v, h).Some? && Accounts(G, T, h, sc) && PatSyms(p) !! sc && ParamsIn(G.fun, sc)
    requires Marked(v, G.def) ==> G.pos in c
    requires forall s <- PatSyms(p) * G.fun.copies ::
      IsLive(BindArm(p, v, h).value, s) ==> !Marked(BindArm(p, v, h).value[s].v, G.def)
    ensures Accounts(G, CarryPat(G.fun, p, c, T), BindArm(p, v, h).value, sc + PatSyms(p))
  {
    if p.VariantPat? {
      assert p.binds[..|p.binds|] == p.binds;
      BindsAccount(G, p.binds, |p.binds|, v.payload, c, T, h, sc);
    }
  }

  // ---------- the induction ----------

  /** Main step: from a store the walk accounts for, an expression's outcome is foreseen. */
  lemma {:induction false} FlowSound(G: Trial, e: Expr, ctx: Ctx, T: Taint, h: Store, sc: set<Sym>)
    requires Fits(G) && Scoped(e, sc) && ParamsIn(G.fun, sc) && Accounts(G, T, h, sc)
    requires Tracks(G.fun, G.view, e, ctx, T, sc) && Honest(G.env, G.fun, G.def, e, ctx, h)
    ensures var (U, c) := Walk(G.fun, G.view, e, ctx, T);
      Foreseen(G, U, c, Eval(G.env, e, ctx, h), sc)
    decreases e, 2, 0
  {
    hide Fits, Accounts, Foreseen, Marked;
    match e
    case Lit(v) => PlainForeseen(G, T, {}, v, h, sc);
    case Poison => UnitForeseen(G, T, {}, h, sc);
    case Var(s) => VarForeseen(G, s, ctx, T, h, sc);
    case Field(_, _, _) => FieldSound(G, e, ctx, T, h, sc);
    case Prim(_, _) => PrimSound(G, e, ctx, T, h, sc);
    case Logic(_, _, _) => LogicSound(G, e, ctx, T, h, sc);
    case If(_, _, _, _) => IfSound(G, e, ctx, T, h, sc);
    case Block(_, _) => BlockSound(G, e, ctx, T, h, sc);
    case Match(_, _, _) => MatchSound(G, e, ctx, T, h, sc);
    case ForRange(_, _, _, _) => RangeSound(G, e, ctx, T, h, sc);
    case ForEach(_, _, _) => EachSound(G, e, ctx, T, h, sc);
  }

  lemma UnitForeseen(G: Trial, T: Taint, c: Carriers, h: Store, sc: set<Sym>)
    requires Accounts(G, T, h, sc)
    ensures Foreseen(G, T, c, Norm(UnitV, h), sc) && Foreseen(G, T, c, Trap, sc) && Foreseen(G, T, c, Misuse, sc)
  {
  }

  lemma TrapForeseen(G: Trial, T: Taint, c: Carriers, sc: set<Sym>)
    ensures Foreseen(G, T, c, Trap, sc) && Foreseen(G, T, c, Misuse, sc)
  {
  }

  lemma {:induction false} FieldSound(G: Trial, e: Expr, ctx: Ctx, T: Taint, h: Store, sc: set<Sym>)
    requires e.Field? && Fits(G) && Scoped(e, sc) && ParamsIn(G.fun, sc) && Accounts(G, T, h, sc)
    requires Tracks(G.fun, G.view, e, ctx, T, sc) && Honest(G.env, G.fun, G.def, e, ctx, h)
    ensures var (U, c) := Walk(G.fun, G.view, e, ctx, T);
      Foreseen(G, U, c, Eval(G.env, e, ctx, h), sc)
    decreases e, 1, 0
  {
    hide Fits, Accounts, Foreseen, Marked;
    var b := if e.copy then ReadCtx else ctx;
    FlowSound(G, e.base, b, T, h, sc);
    var o := Eval(G.env, e.base, b, h);
    var (U, c) := Walk(G.fun, G.view, e.base, b, T);
    PartForeseen(G, U, c, o, e.field, sc);
    if e.copy {
      CopyForeseen(G, U, c, {}, Eval(G.env, e, ctx, h), sc);
    }
  }

  lemma PartForeseen(G: Trial, U: Taint, c: Carriers, o: Out, f: nat, sc: set<Sym>)
    requires Foreseen(G, U, c, o, sc)
    ensures Foreseen(G, U, c, if !o.Norm? then o
              else if o.v.StructV? && f in o.v.fields then Norm(o.v.fields[f], o.h) else Trap, sc)
  {
  }

  lemma {:induction false} PrimSound(G: Trial, e: Expr, ctx: Ctx, T: Taint, h: Store, sc: set<Sym>)
    requires e.Prim? && Fits(G) && Scoped(e, sc) && ParamsIn(G.fun, sc) && Accounts(G, T, h, sc)
    requires Tracks(G.fun, G.view, e, ctx, T, sc) && Honest(G.env, G.fun, G.def, e, ctx, h)
    ensures var (U, c) := Walk(G.fun, G.view, e, ctx, T);
      Foreseen(G, U, c, Eval(G.env, e, ctx, h), sc)
    decreases e, 1, 0
  {
    hide Fits, Accounts, Foreseen, Marked, Finish, ArgsForeseen;
    var op, args := e.op, e.args;
    var S := if op.Call? then T.(seen := T.seen[op.def := G.view(op.def)]) else T;
    SeenGrows(G.fun, S.seen, T, sc);
    AccountsGrow(G, T, S, h, sc);
    ArgsSound(G, op, args, 0, ctx, S, h, sc);
    var o := EvalArgs(G.env, op, args, 0, ctx, h);
    var (U, c) := WalkArgs(G.fun, G.view, op, ContractOf(G.view, op), args, 0, ctx, S);
    if o.NormSeq? {
      FinishForeseen(G, U, c, op, args, o.vals, o.h, sc);
    }
  }

  lemma {:induction false} ArgsSound(G: Trial, op: Op, args: seq<Expr>, i: nat, ctx: Ctx, T: Taint, h: Store,
        sc: set<Sym>)
    requires Fits(G) && ScopedAll(args, sc) && ParamsIn(G.fun, sc) && Accounts(G, T, h, sc)
    requires TracksArgs(G.fun, G.view, op, ContractOf(G.view, op), args, i, ctx, T, sc)
    requires HonestArgs(G.env, G.fun, G.def, op, args, i, ctx, h)
    ensures var (U, c) := WalkArgs(G.fun, G.view, op, ContractOf(G.view, op), args, i, ctx, T);
      var o := EvalArgs(G.env, op, args, i, ctx, h);
      && (o.NormSeq? ==> Accounts(G, U, o.h, sc) && ArgsForeseen(G, U, c, op, args, i, o.vals))
      && (o.Stop? ==> Foreseen(G, U, c, o.o, sc))
    decreases args, 0, 0
  {
    hide Accounts, Foreseen, Marked, Walk, Eval, Tracks, Honest, Lend, OperandCtx, ArgCtx, Grows, ContractOf, FlowsOn;
    hide ArgsForeseen, SameContracts, CalleesKeep;
    if args == [] {
      NoArgsForeseen(G, T, op, i);
    } else {
      var contract := ContractOf(G.view, op);
      SameCtx(G.env.contracts, G.view, op, i, ctx);
      var k := ArgCtx(G.env.contracts, op, i, ctx);
      FlowSound(G, args[0], k, T, h, sc);
      var o := Eval(G.env, args[0], k, h);
      var (A, c) := Walk(G.fun, G.view, args[0], k, T);
      LendGrows(G.fun, op, contract, i, args[0], A, sc);
      var B := Lend(G.fun, op, contract, i, args[0], A);
      ArgsGrow(G.fun, G.view, op, contract, args[1..], i + 1, ctx, B, sc);
      var (U, rest) := WalkArgs(G.fun, G.view, op, contract, args[1..], i + 1, ctx, B);
      GrowsThen(G.fun, A, B, U, sc, sc);
      var all := (if FlowsOn(op, contract, i) then c else {}) + rest;
      if o.Norm? {
        ForeseenAccounts(G, A, c, o, sc);
        AccountsGrow(G, A, B, o.h, sc);
        ArgsSound(G, op, args[1..], i + 1, ctx, B, o.h, sc);
        var r := EvalArgs(G.env, op, args[1..], i + 1, ctx, o.h);
        if r.Stop? {
          StopsForeseen(G, U, U, rest, all, r.o, sc, sc, sc) by {
            GrowsNot(G.fun, U, sc);
          }
        } else {
          WalkGrows(G.fun, G.view, args[0], k, T, sc);
          GrowsThen(G.fun, T, A, U, sc, sc);
          HeadForeseen(G, args[0], k, T, U, c, A, h, sc);
          ArgsForeseenCons(G, U, if FlowsOn(op, contract, i) then c else {}, rest, op, args, i, o.v, r.vals);
        }
      } else {
        StopsForeseen(G, A, U, c, all, o, sc, sc, sc);
      }
    }
  }

  lemma NoArgsForeseen(G: Trial, T: Taint, op: Op, i: nat)
    ensures ArgsForeseen(G, T, {}, op, [], i, [])
  {
  }

  lemma HeadForeseen(G: Trial, arg: Expr, k: Ctx, T: Taint, U: Taint, c: Carriers, A: Taint, h: Store, sc: set<Sym>)
    requires Scoped(arg, sc) && Accounts(G, T, h, sc) && Grows(G.fun, T, U, sc)
    requires Eval(G.env, arg, k, h).Norm? && Foreseen(G, A, c, Eval(G.env, arg, k, h), sc)
    ensures Marked(Eval(G.env, arg, k, h).v, G.def) ==>
      G.pos in c && (PlaceBase(arg).Some? ==> G.pos in Held(G.fun, U, PlaceBase(arg).value))
  {
    hide Marked, Eval;
    if Marked(Eval(G.env, arg, k, h).v, G.def) && PlaceBase(arg).Some? {
      PlaceMarked(G.env, arg, k, h, G.def);
      PlaceScoped(arg, sc);
    }
  }

  lemma {:induction false} LogicSound(G: Trial, e: Expr, ctx: Ctx, T: Taint, h: Store, sc: set<Sym>)
    requires e.Logic? && Fits(G) && Scoped(e, sc) && ParamsIn(G.fun, sc) && Accounts(G, T, h, sc)
    requires Tracks(G.fun, G.view, e, ctx, T, sc) && Honest(G.env, G.fun, G.def, e, ctx, h)
    ensures var (U, c) := Walk(G.fun, G.view, e, ctx, T);
      Foreseen(G, U, c, Eval(G.env, e, ctx, h), sc)
    decreases e, 1, 0
  {
    hide Fits, Accounts, Foreseen, Marked, Grows;
    FlowSound(G, e.lhs, ReadCtx, T, h, sc);
    var o := Eval(G.env, e.lhs, ReadCtx, h);
    var (A, c) := Walk(G.fun, G.view, e.lhs, ReadCtx, T);
    WalkGrows(G.fun, G.view, e.rhs, ReadCtx, A, sc);
    var (U, d) := Walk(G.fun, G.view, e.rhs, ReadCtx, A);
    var r := Eval(G.env, e, ctx, h);
    TrapForeseen(G, U, {}, sc);
    if !o.Norm? {
      StopsForeseen(G, A, U, c, {}, o, sc, sc, sc);
    } else if o.v.BoolV? {
      ForeseenAccounts(G, A, c, o, sc);
      FlowSound(G, e.rhs, ReadCtx, A, o.h, sc);
      if o.v.b == e.isOr {
        MoreForeseen(G, A, U, c, c, o, sc, sc);
        CopyForeseen(G, U, c, {}, r, sc);
      } else {
        CopyForeseen(G, U, d, {}, r, sc);
      }
    }
  }

  lemma {:induction false} IfSound(G: Trial, e: Expr, ctx: Ctx, T: Taint, h: Store, sc: set<Sym>)
    requires e.If? && Fits(G) && Scoped(e, sc) && ParamsIn(G.fun, sc) && Accounts(G, T, h, sc)
    requires Tracks(G.fun, G.view, e, ctx, T, sc) && Honest(G.env, G.fun, G.def, e, ctx, h)
    ensures var (U, c) := Walk(G.fun, G.view, e, ctx, T);
      Foreseen(G, U, c, Eval(G.env, e, ctx, h), sc)
    decreases e, 1, 0
  {
    hide Fits, Accounts, Foreseen, Marked, Grows, Coerce;
    FlowSound(G, e.cond, ReadCtx, T, h, sc);
    var o := Eval(G.env, e.cond, ReadCtx, h);
    var (A, c) := Walk(G.fun, G.view, e.cond, ReadCtx, T);
    WalkGrows(G.fun, G.view, e.thn, ctx, A, sc);
    var (B, d) := Walk(G.fun, G.view, e.thn, ctx, A);
    ElseGrows(G, e.els, ctx, B, sc);
    var (U, all) := Walk(G.fun, G.view, e, ctx, T);
    GrowsThen(G.fun, A, B, U, sc, sc);
    TrapForeseen(G, U, all, sc);
    if !o.Norm? {
      StopsForeseen(G, A, U, c, all, o, sc, sc, sc);
    } else if o.v.BoolV? {
      ForeseenAccounts(G, A, c, o, sc);
      if o.v.b {
        FlowSound(G, e.thn, ctx, A, o.h, sc);
        var r := Eval(G.env, e.thn, ctx, o.h);
        MoreForeseen(G, B, U, d, all, r, sc, sc);
        CoerceForeseen(G, U, all, e.unit, r, sc);
      } else {
        AccountsGrow(G, A, B, o.h, sc);
        AccountsGrow(G, A, U, o.h, sc);
        UnitForeseen(G, U, all, o.h, sc);
        if e.els.Some? {
          FlowSound(G, e.els.value, ctx, B, o.h, sc);
          var r := Eval(G.env, e.els.value, ctx, o.h);
          GrowsNot(G.fun, U, sc);
          MoreForeseen(G, U, U, Walk(G.fun, G.view, e.els.value, ctx, B).1, all, r, sc, sc);
          CoerceForeseen(G, U, all, e.unit, r, sc);
        }
      }
    }
  }

  lemma ElseGrows(G: Trial, o: Option<Expr>, ctx: Ctx, T: Taint, sc: set<Sym>)
    requires ScopedOpt(o, sc)
    ensures Grows(G.fun, T, if o.None? then T else Walk(G.fun, G.view, o.value, ctx, T).0, sc)
  {
    hide Grows;
    GrowsNot(G.fun, T, sc);
    if o.Some? {
      WalkGrows(G.fun, G.view, o.value, ctx, T, sc);
    }
  }

  lemma {:induction false} BlockSound(G: Trial, e: Expr, ctx: Ctx, T: Taint, h: Store, sc: set<Sym>)
    requires e.Block? && Fits(G) && Scoped(e, sc) && ParamsIn(G.fun, sc) && Accounts(G, T, h, sc)
    requires Tracks(G.fun, G.view, e, ctx, T, sc) && Honest(G.env, G.fun, G.def, e, ctx, h)
    ensures var (U, c) := Walk(G.fun, G.view, e, ctx, T);
      Foreseen(G, U, c, Eval(G.env, e, ctx, h), sc)
    decreases e, 1, 0
  {
    hide Fits, Accounts, Foreseen, Marked, Grows;
    var inner := ScopeAfter(e.stmts, sc);
    StmtsSound(G, e.stmts, T, h, sc);
    var o := EvalStmts(G.env, e.stmts, h);
    var A := WalkStmts(G.fun, G.view, e.stmts, T);
    ElseGrows(G, e.tail, ctx, A, inner);
    var (U, c) := Walk(G.fun, G.view, e, ctx, T);
    GrowsNot(G.fun, U, inner);
    if o.Norm? && e.tail.Some? {
      ForeseenAccounts(G, A, {}, o, inner);
      FlowSound(G, e.tail.value, ctx, A, o.h, inner);
      MoreForeseen(G, U, U, c, c, Eval(G.env, e.tail.value, ctx, o.h), inner, sc) by {
        GrowsNot(G.fun, U, sc);
      }
    } else if o.Norm? {
      MoreForeseen(G, A, U, {}, c, o, inner, sc) by {
        GrowsNot(G.fun, U, sc);
      }
    } else {
      StopsForeseen(G, A, U, {}, c, o, inner, inner, sc);
    }
  }

  lemma {:induction false} MatchSound(G: Trial, e: Expr, ctx: Ctx, T: Taint, h: Store, sc: set<Sym>)
    requires e.Match? && Fits(G) && Scoped(e, sc) && ParamsIn(G.fun, sc) && Accounts(G, T, h, sc)
    requires Tracks(G.fun, G.view, e, ctx, T, sc) && Honest(G.env, G.fun, G.def, e, ctx, h)
    ensures var (U, c) := Walk(G.fun, G.view, e, ctx, T);
      Foreseen(G, U, c, Eval(G.env, e, ctx, h), sc)
    decreases e, 1, 0
  {
    hide Fits, Accounts, Foreseen, Marked, Grows, Coerce, BindArm, HonestArm, WalkArms, TracksArms;
    FlowSound(G, e.scrut, ReadCtx, T, h, sc);
    var o := Eval(G.env, e.scrut, ReadCtx, h);
    var (A, c) := Walk(G.fun, G.view, e.scrut, ReadCtx, T);
    ArmsGrow(G.fun, G.view, e.arms, ctx, c, A, sc);
    var (U, all) := WalkArms(G.fun, G.view, e.arms, ctx, c, A);
    TrapForeseen(G, U, all, sc);
    if !o.Norm? {
      StopsForeseen(G, A, U, c, all, o, sc, sc, sc);
    } else if o.v.VariantV? && FindArm(e.arms, o.v.tag).Some? {
      var k := FindArm(e.arms, o.v.tag).value;
      ForeseenAccounts(G, A, c, o, sc);
      ValueForeseen(G, A, c, o, sc);
      ArmsSound(G, e.arms, k, o.v, ctx, c, A, o.h, sc);
      var g := BindArm(e.arms[k].pat, o.v, o.h);
      if g.Some? {
        CoerceForeseen(G, U, all, e.unit, Eval(G.env, e.arms[k].body, ctx, g.value), sc);
      }
    }
  }

  lemma ValueForeseen(G: Trial, U: Taint, c: Carriers, o: Out, sc: set<Sym>)
    requires Foreseen(G, U, c, o, sc) && o.Norm?
    ensures Marked(o.v, G.def) ==> G.pos in c
  {
  }

  lemma {:induction false} ArmsSound(G: Trial, arms: seq<Arm>, k: nat, v: Value, ctx: Ctx, c: Carriers, T: Taint,
        h: Store, sc: set<Sym>)
    requires k < |arms| && v.VariantV? && Fits(G) && ScopedArms(arms, sc) && ParamsIn(G.fun, sc)
    requires Accounts(G, T, h, sc) && (Marked(v, G.def) ==> G.pos in c)
    requires TracksArms(G.fun, G.view, arms, ctx, c, T, sc) && HonestArm(G.env, G.fun, G.def, arms[k], v, ctx, h)
    ensures var (U, d) := WalkArms(G.fun, G.view, arms, ctx, c, T);
      var g := BindArm(arms[k].pat, v, h);
      g.Some? ==> Foreseen(G, U, d, Eval(G.env, arms[k].body, ctx, g.value), sc)
    decreases arms, 0, 0
  {
    hide Fits, Accounts, Foreseen, Marked, Grows, BindArm, HonestArm, WalkArm, TracksArm, Eval;
    var (A, d) := WalkArm(G.fun, G.view, arms[0], ctx, c, T);
    var (U, rest) := WalkArms(G.fun, G.view, arms[1..], ctx, c, A);
    ArmsGrow(G.fun, G.view, arms[1..], ctx, c, A, sc);
    var g := BindArm(arms[k].pat, v, h);
    if k == 0 {
      ArmSound(G, arms[0], v, ctx, c, T, h, sc);
      if g.Some? {
        MoreForeseen(G, A, U, d, d + rest, Eval(G.env, arms[0].body, ctx, g.value), sc, sc);
      }
    } else {
      ArmGrows(G.fun, G.view, arms[0], ctx, c, T, sc);
      AccountsGrow(G, T, A, h, sc);
      ArmsSound(G, arms[1..], k - 1, v, ctx, c, A, h, sc);
      if g.Some? {
        GrowsNot(G.fun, U, sc);
        MoreForeseen(G, U, U, rest, d + rest, Eval(G.env, arms[k].body, ctx, g.value), sc, sc);
      }
    }
  }

  lemma {:induction false} ArmSound(G: Trial, arm: Arm, v: Value, ctx: Ctx, c: Carriers, T: Taint, h: Store,
        sc: set<Sym>)
    requires v.VariantV? && Fits(G) && ScopedArm(arm, sc) && ParamsIn(G.fun, sc)
    requires Accounts(G, T, h, sc) && (Marked(v, G.def) ==> G.pos in c)
    requires TracksArm(G.fun, G.view, arm, ctx, c, T, sc) && HonestArm(G.env, G.fun, G.def, arm, v, ctx, h)
    ensures var (U, d) := WalkArm(G.fun, G.view, arm, ctx, c, T);
      var g := BindArm(arm.pat, v, h);
      g.Some? ==> Foreseen(G, U, d, Eval(G.env, arm.body, ctx, g.value), sc)
    decreases arm, 5, 0
  {
    hide Fits, Accounts, Foreseen, Marked, Grows, BindArm, Walk, Tracks, Honest, Eval, CarryPat;
    var g := BindArm(arm.pat, v, h);
    if g.Some? {
      PatAccounts(G, arm.pat, v, c, T, h, sc);
      var A := CarryPat(G.fun, arm.pat, c, T);
      var inner := sc + PatSyms(arm.pat);
      FlowSound(G, arm.body, ctx, A, g.value, inner);
      var (U, d) := Walk(G.fun, G.view, arm.body, ctx, A);
      GrowsNot(G.fun, U, sc);
      MoreForeseen(G, U, U, d, d, Eval(G.env, arm.body, ctx, g.value), inner, sc);
    }
  }

  lemma {:induction false} BoundSound(G: Trial, o: Option<Expr>, T: Taint, h: Store, sc: set<Sym>)
    requires Fits(G) && ScopedOpt(o, sc) && ParamsIn(G.fun, sc) && Accounts(G, T, h, sc)
    requires TracksOpt(G.fun, G.view, o, ReadCtx, T, sc) && HonestOpt(G.env, G.fun, G.def, o, ReadCtx, h)
    ensures exists c :: Foreseen(G, WalkOpt(G.fun, G.view, o, T), c, EvalBound(G.env, o, h), sc)
    decreases o, 4, 0
  {
    hide Fits, Accounts, Foreseen, Marked, Walk, Tracks, Honest, Eval;
    if o.Some? {
      FlowSound(G, o.value, ReadCtx, T, h, sc);
      assert Foreseen(G, WalkOpt(G.fun, G.view, o, T), Walk(G.fun, G.view, o.value, ReadCtx, T).1,
                      EvalBound(G.env, o, h), sc);
    } else {
      IntForeseen(G, T, h, sc);
      assert Foreseen(G, WalkOpt(G.fun, G.view, o, T), {}, EvalBound(G.env, o, h), sc);
    }
  }

  lemma IntForeseen(G: Trial, T: Taint, h: Store, sc: set<Sym>)
    requires Accounts(G, T, h, sc)
    ensures Foreseen(G, T, {}, Norm(IntV(0), h), sc)
  {
  }

  lemma {:induction false} RangeSound(G: Trial, e: Expr, ctx: Ctx, T: Taint, h: Store, sc: set<Sym>)
    requires e.ForRange? && Fits(G) && Scoped(e, sc) && ParamsIn(G.fun, sc) && Accounts(G, T, h, sc)
    requires Tracks(G.fun, G.view, e, ctx, T, sc) && Honest(G.env, G.fun, G.def, e, ctx, h)
    ensures var (U, c) := Walk(G.fun, G.view, e, ctx, T);
      Foreseen(G, U, c, Eval(G.env, e, ctx, h), sc)
    decreases e, 1, 0
  {
    hide Fits, Accounts, Foreseen, Marked, Grows, WalkOpt, TracksOpt, HonestOpt, TracksLoop, HonestCount, CountLoop;
    hide EvalBound;
    BoundSound(G, e.lo, T, h, sc);
    var a := EvalBound(G.env, e.lo, h);
    var A := WalkOpt(G.fun, G.view, e.lo, T);
    var c :| Foreseen(G, A, c, a, sc);
    OptGrows(G.fun, G.view, e.hi, A, sc);
    var B := WalkOpt(G.fun, G.view, e.hi, A);
    WalkGrows(G.fun, G.view, e.body, MoveCtx, B, sc + {e.var_});
    var U := Walk(G.fun, G.view, e.body, MoveCtx, B).0;
    GrowsLess(G, B, U, sc + {e.var_}, sc);
    GrowsThen(G.fun, A, B, U, sc, sc);
    TrapForeseen(G, U, {}, sc);
    if !a.Norm? {
      StopsForeseen(G, A, U, c, {}, a, sc, sc, sc);
    } else {
      ForeseenAccounts(G, A, c, a, sc);
      BoundSound(G, e.hi, A, a.h, sc);
      var b := EvalBound(G.env, e.hi, a.h);
      var d :| Foreseen(G, B, d, b, sc);
      if !b.Norm? {
        StopsForeseen(G, B, U, d, {}, b, sc, sc, sc);
      } else if a.v.IntV? && b.v.IntV? {
        ForeseenAccounts(G, B, d, b, sc);
        AccountsGrow(G, B, U, b.h, sc);
        CountSound(G, e.var_, e.body, a.v.i, b.v.i, B, b.h, sc);
      }
    }
  }

  lemma GrowsLess(G: Trial, T: Taint, U: Taint, inner: set<Sym>, sc: set<Sym>)
    requires Grows(G.fun, T, U, inner) && sc <= inner
    ensures Grows(G.fun, T, U, sc)
  {
  }

  lemma {:induction false} EachSound(G: Trial, e: Expr, ctx: Ctx, T: Taint, h: Store, sc: set<Sym>)
    requires e.ForEach? && Fits(G) && Scoped(e, sc) && ParamsIn(G.fun, sc) && Accounts(G, T, h, sc)
    requires Tracks(G.fun, G.view, e, ctx, T, sc) && Honest(G.env, G.fun, G.def, e, ctx, h)
    ensures var (U, c) := Walk(G.fun, G.view, e, ctx, T);
      Foreseen(G, U, c, Eval(G.env, e, ctx, h), sc)
    decreases e, 1, 0
  {
    hide Fits, Accounts, Foreseen, Marked, AnyMarked, Grows, TracksLoop, HonestEach, EachLoop;
    FlowSound(G, e.iter, ReadCtx, T, h, sc);
    var o := Eval(G.env, e.iter, ReadCtx, h);
    var (A, c) := Walk(G.fun, G.view, e.iter, ReadCtx, T);
    WalkGrows(G.fun, G.view, e.body, MoveCtx, A, sc + {e.var_});
    var U := Walk(G.fun, G.view, e.body, MoveCtx, A).0;
    GrowsLess(G, A, U, sc + {e.var_}, sc);
    TrapForeseen(G, U, {}, sc);
    if !o.Norm? {
      StopsForeseen(G, A, U, c, {}, o, sc, sc, sc);
    } else if o.v.ArrayV? {
      ForeseenAccounts(G, A, c, o, sc);
      AccountsGrow(G, A, U, o.h, sc);
      ElementsPlain(G, A, c, o, sc);
      assert !AnyMarked(o.v.elems, G.def);
      EachLoopSound(G, e.var_, e.body, o.v.elems, 0, A, o.h, sc);
    }
  }

  lemma ElementsPlain(G: Trial, U: Taint, c: Carriers, o: Out, sc: set<Sym>)
    requires Foreseen(G, U, c, o, sc) && o.Norm? && o.v.ArrayV?
    ensures AnyMarked(o.v.elems, G.def) ==> G.pos in c
  {
  }

  /** Every pass starts and ends with what the walk knew after one pass. */
  lemma {:induction false} CountSound(G: Trial, x: Sym, body: Expr, i: int, n: int, T: Taint, h: Store, sc: set<Sym>)
    requires Fits(G) && x !in sc && Scoped(body, sc + {x}) && ParamsIn(G.fun, sc)
    requires Accounts(G, Walk(G.fun, G.view, body, MoveCtx, T).0, h, sc)
    requires TracksLoop(G.fun, G.view, x, body, T, sc) && HonestCount(G.env, G.fun, G.def, x, body, i, n, h)
    ensures Foreseen(G, Walk(G.fun, G.view, body, MoveCtx, T).0, {}, CountLoop(G.env, x, body, i, n, h), sc)
    decreases body, 4, n - i
  {
    hide Fits, Accounts, Foreseen, Marked, Walk, Tracks, Honest, Eval, Steady;
    var U := Walk(G.fun, G.view, body, MoveCtx, T).0;
    if i >= n {
      LoopDone(G, U, x, h, sc);
    } else {
      var g := h[x := Live(IntV(i))];
      IntUnmarked(i, G.def);
      PassStarts(G, U, x, IntV(i), h, sc);
      FlowSound(G, body, MoveCtx, U, g, sc + {x});
      var o := Eval(G.env, body, MoveCtx, g);
      var (V, c) := Walk(G.fun, G.view, body, MoveCtx, U);
      PassEnds(G, U, V, c, h, o, x, sc);
      if o.Norm? {
        CountSound(G, x, body, i + 1, n, T, o.h, sc);
      }
    }
  }

  lemma IntUnmarked(i: int, D: Def)
    ensures !Marked(IntV(i), D)
  {
  }

  lemma PassStarts(G: Trial, U: Taint, x: Sym, v: Value, h: Store, sc: set<Sym>)
    requires Accounts(G, U, h, sc) && x !in sc && !Marked(v, G.def)
    ensures Accounts(G, U, h[x := Live(v)], sc + {x})
  {
  }

  lemma PassEnds(G: Trial, U: Taint, V: Taint, c: Carriers, h: Store, o: Out, x: Sym, sc: set<Sym>)
    requires Accounts(G, U, h, sc) && Foreseen(G, V, c, o, sc + {x}) && Steady(G.fun, U, V, sc)
    ensures if o.Norm? then Accounts(G, U, o.h, sc) else Foreseen(G, U, {}, o, sc)
  {
  }

  lemma LoopDone(G: Trial, U: Taint, x: Sym, h: Store, sc: set<Sym>)
    requires Accounts(G, U, h, sc)
    ensures Foreseen(G, U, {}, Norm(UnitV, h - {x}), sc)
  {
  }

  lemma {:induction false} EachLoopSound(G: Trial, x: Sym, body: Expr, elems: seq<Value>, i: nat, T: Taint, h: Store,
        sc: set<Sym>)
    requires Fits(G) && x !in sc && Scoped(body, sc + {x}) && ParamsIn(G.fun, sc) && !AnyMarked(elems, G.def)
    requires Accounts(G, Walk(G.fun, G.view, body, MoveCtx, T).0, h, sc)
    requires TracksLoop(G.fun, G.view, x, body, T, sc) && HonestEach(G.env, G.fun, G.def, x, body, elems, i, h)
    ensures Foreseen(G, Walk(G.fun, G.view, body, MoveCtx, T).0, {}, EachLoop(G.env, x, body, elems, i, h), sc)
    decreases body, 4, |elems| - i
  {
    hide Fits, Accounts, Foreseen, Marked, Walk, Tracks, Honest, Eval, Steady;
    var U := Walk(G.fun, G.view, body, MoveCtx, T).0;
    if i >= |elems| {
      LoopDone(G, U, x, h, sc);
    } else {
      var g := h[x := Live(elems[i])];
      assert elems[i] in elems;
      PassStarts(G, U, x, elems[i], h, sc);
      FlowSound(G, body, MoveCtx, U, g, sc + {x});
      var o := Eval(G.env, body, MoveCtx, g);
      var (V, c) := Walk(G.fun, G.view, body, MoveCtx, U);
      PassEnds(G, U, V, c, h, o, x, sc);
      if o.Norm? {
        EachLoopSound(G, x, body, elems, i + 1, T, o.h, sc);
      }
    }
  }

  lemma {:induction false} StmtsSound(G: Trial, ss: seq<Stmt>, T: Taint, h: Store, sc: set<Sym>)
    requires Fits(G) && ScopedStmts(ss, sc) && ParamsIn(G.fun, sc) && Accounts(G, T, h, sc)
    requires TracksStmts(G.fun, G.view, ss, T, sc) && HonestStmts(G.env, G.fun, G.def, ss, h)
    ensures Foreseen(G, WalkStmts(G.fun, G.view, ss, T), {}, EvalStmts(G.env, ss, h), ScopeAfter(ss, sc))
    decreases ss, 0, 0
  {
    hide Fits, Accounts, Foreseen, Marked, Grows, WalkStmt, TracksStmt, HonestStmt, EvalStmt;
    if ss == [] {
      UnitForeseen(G, T, {}, h, sc);
    } else {
      var inner := sc + DeclaredBy(ss[0]);
      StmtSound(G, ss[0], T, h, sc);
      var o := EvalStmt(G.env, ss[0], h);
      var A := WalkStmt(G.fun, G.view, ss[0], T);
      StmtsGrow(G.fun, G.view, ss[1..], A, inner);
      if o.Norm? {
        ForeseenAccounts(G, A, {}, o, inner);
        StmtsSound(G, ss[1..], A, o.h, inner);
      } else {
        StopsForeseen(G, A, WalkStmts(G.fun, G.view, ss[1..], A), {}, {}, o, inner, inner, ScopeAfter(ss, sc));
      }
    }
  }

  lemma {:induction false} StmtSound(G: Trial, s: Stmt, T: Taint, h: Store, sc: set<Sym>)
    requires Fits(G) && ScopedStmt(s, sc) && ParamsIn(G.fun, sc) && Accounts(G, T, h, sc)
    requires TracksStmt(G.fun, G.view, s, T, sc) && HonestStmt(G.env, G.fun, G.def, s, h)
    ensures Foreseen(G, WalkStmt(G.fun, G.view, s, T), {}, EvalStmt(G.env, s, h), sc + DeclaredBy(s))
    decreases s, 1, 0
  {
    hide Fits, Accounts, Foreseen, Marked, Grows, Walk, Tracks, Honest, Eval, Write;
    assert sc + {} == sc;
    match s
    case Let(x, None) =>
      DeclareAccounts(G, T, x, h, sc);
      UnitForeseen(G, Carry(T, x, {}), {}, h - {x}, sc + {x});
    case Let(x, Some(e)) =>
      FlowSound(G, e, MoveCtx, T, h, sc);
      var o := Eval(G.env, e, MoveCtx, h);
      var (A, c) := Walk(G.fun, G.view, e, MoveCtx, T);
      var U := Carry(A, x, c);
      if o.Norm? {
        LetAccounts(G, A, x, c, o, sc);
        UnitForeseen(G, U, {}, o.h[x := Live(o.v)], sc + {x});
      } else {
        CarryGrows(G.fun, x, c, A, sc);
        StopsForeseen(G, A, U, c, {}, o, sc, sc, sc + {x});
      }
    case Assign(_, _, _) => AssignSound(G, s, T, h, sc);
    case ExprStmt(e) =>
      FlowSound(G, e, MoveCtx, T, h, sc);
      var o := Eval(G.env, e, MoveCtx, h);
      var (A, c) := Walk(G.fun, G.view, e, MoveCtx, T);
      if o.Norm? {
        ForeseenAccounts(G, A, c, o, sc);
        UnitForeseen(G, A, {}, o.h, sc);
      } else {
        GrowsNot(G.fun, A, sc);
        StopsForeseen(G, A, A, c, {}, o, sc, sc, sc);
      }
    case Return(None) => ReturnsUnit(G, T, sc);
    case Return(Some(e)) =>
      FlowSound(G, e, MoveCtx, T, h, sc);
      var o := Eval(G.env, e, MoveCtx, h);
      var (A, c) := Walk(G.fun, G.view, e, MoveCtx, T);
      ReturnForeseen(G, A, c, o, sc);
  }

  lemma ReturnsUnit(G: Trial, T: Taint, sc: set<Sym>)
    ensures Foreseen(G, T, {}, Ret(UnitV), sc)
  {
  }

  /** A returned value escapes. */
  lemma ReturnForeseen(G: Trial, A: Taint, c: Carriers, o: Out, sc: set<Sym>)
    requires Foreseen(G, A, c, o, sc)
    ensures Foreseen(G, MarkEscaped(A, c), {}, if !o.Norm? then o else Ret(o.v), sc)
  {
    EscapeGrows(G.fun, A, c, sc);
  }

  lemma {:induction false} AssignSound(G: Trial, s: Stmt, T: Taint, h: Store, sc: set<Sym>)
    requires s.Assign? && Fits(G) && ScopedStmt(s, sc) && ParamsIn(G.fun, sc) && Accounts(G, T, h, sc)
    requires TracksStmt(G.fun, G.view, s, T, sc) && HonestStmt(G.env, G.fun, G.def, s, h)
    ensures Foreseen(G, WalkStmt(G.fun, G.view, s, T), {}, EvalStmt(G.env, s, h), sc)
    decreases s, 0, 0
  {
    hide Fits, Accounts, Foreseen, Marked, Grows, Walk, Tracks, Honest, Eval, Write;
    FlowSound(G, s.value, MoveCtx, T, h, sc);
    var o := Eval(G.env, s.value, MoveCtx, h);
    var (A, c) := Walk(G.fun, G.view, s.value, MoveCtx, T);
    if o.Norm? {
      WriteForeseen(G, A, s.target, s.path, c, o, sc);
    } else {
      var B := FlagMutated(G.fun, s.target, A);
      FlagGrows(G.fun, s.target, ReadCtx, A, sc);
      CarryGrows(G.fun, s.target, Carried(B, s.target) + c, B, sc);
      var U := WalkStmt(G.fun, G.view, s, T);
      GrowsNot(G.fun, B, sc);
      GrowsThen(G.fun, A, B, U, sc, sc);
      StopsForeseen(G, A, U, c, {}, o, sc, sc, sc);
    }
  }
}
