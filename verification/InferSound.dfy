/** Soundness of the inferred escape contracts against the semantics: a result that holds a
    parameter's value was foreseen. The walk passes each loop body once, keeps no record of what a
    parameter was overwritten with, and takes loop elements for fresh values; `Tracks` says where
    that loses nothing. */
module InferSound {
  import opened Wrappers
  import opened Hir
  import opened Semantics
  import opened Effects
  import opened EnforceSound
  import opened Infer
  import opened InferUses
  import opened InferRuns
  import opened InferMarks

  /** The parameters whose value a binding may hold: a parameter is taken to hold its own. */
  function Held(F: Fun, T: Taint, s: Sym): Carriers {
    if Position(F.params, s).Some? then {Position(F.params, s).value} else Carried(T, s)
  }

  predicate ParamsIn(F: Fun, sc: set<Sym>) {
    forall p <- F.params :: p in sc
  }

  // ---------- the walk only adds ----------

  predicate Escaped(T: Taint, j: nat) {
    j < |T.facts| && T.facts[j].escaped
  }

  /** On bindings in scope the walk forgets nothing. */
  ghost predicate Grows(F: Fun, T: Taint, U: Taint, sc: set<Sym>) {
    && |U.facts| == |T.facts|
    && (forall j: nat :: Escaped(T, j) ==> Escaped(U, j))
    && (forall s <- sc :: Held(F, T, s) <= Held(F, U, s))
  }

  lemma GrowsNot(F: Fun, T: Taint, sc: set<Sym>)
    ensures Grows(F, T, T, sc)
  {
  }

  lemma GrowsThen(F: Fun, T: Taint, A: Taint, U: Taint, sc: set<Sym>, inner: set<Sym>)
    requires Grows(F, T, A, sc) && Grows(F, A, U, inner) && sc <= inner
    ensures Grows(F, T, U, sc)
  {
  }

  lemma FlagGrows(F: Fun, s: Sym, ctx: Ctx, T: Taint, sc: set<Sym>)
    ensures Grows(F, T, Flag(F, s, ctx, T), sc) && Grows(F, T, FlagMutated(F, s, T), sc)
    ensures Flag(F, s, ctx, T).carried == T.carried && FlagMutated(F, s, T).carried == T.carried
  {
  }

  lemma SeenGrows(F: Fun, seen: map<Def, Contract>, T: Taint, sc: set<Sym>)
    ensures Grows(F, T, T.(seen := seen), sc)
  {
  }

  lemma CarryGrows(F: Fun, s: Sym, c: Carriers, T: Taint, sc: set<Sym>)
    requires s !in sc || Carried(T, s) <= c
    ensures Grows(F, T, Carry(T, s, c), sc)
  {
  }

  lemma EscapeGrows(F: Fun, T: Taint, c: Carriers, sc: set<Sym>)
    ensures Grows(F, T, MarkEscaped(T, c), sc)
    ensures forall j: nat :: j in c && j < |T.facts| ==> Escaped(MarkEscaped(T, c), j)
  {
  }

  lemma {:induction false} BindsGrow(F: Fun, binds: seq<Option<Sym>>, n: nat, c: Carriers, T: Taint, sc: set<Sym>)
    requires n <= |binds| && BindSet(binds) !! sc
    ensures Grows(F, T, CarryBinds(F, binds, n, c, T), sc)
  {
    if n > 0 {
      BindsGrow(F, binds, n - 1, c, T, sc);
    }
  }

  lemma PatGrows(F: Fun, p: Pat, c: Carriers, T: Taint, sc: set<Sym>)
    requires PatSyms(p) !! sc
    ensures Grows(F, T, CarryPat(F, p, c, T), sc)
  {
    if p.VariantPat? {
      BindsGrow(F, p.binds, |p.binds|, c, T, sc);
    }
  }

  lemma LendGrows(F: Fun, op: Op, contract: Contract, i: nat, arg: Expr, T: Taint, sc: set<Sym>)
    ensures Grows(F, T, Lend(F, op, contract, i, arg, T), sc)
  {
    hide Grows;
    GrowsNot(F, T, sc);
    if PlaceBase(arg).Some? {
      FlagGrows(F, PlaceBase(arg).value, ReadCtx, T, sc);
    }
  }

  lemma {:induction false} WalkGrows(F: Fun, view: View, e: Expr, ctx: Ctx, T: Taint, sc: set<Sym>)
    requires Scoped(e, sc)
    ensures Grows(F, T, Walk(F, view, e, ctx, T).0, sc)
    decreases e, 1
  {
    hide Grows;
    GrowsNot(F, T, sc);
    match e
    case Lit(_) =>
    case Poison =>
    case Var(s) => FlagGrows(F, s, ctx, T, sc);
    case Field(b, _, copy) => WalkGrows(F, view, b, if copy then ReadCtx else ctx, T, sc);
    case Prim(op, args) =>
      var U := if op.Call? then T.(seen := T.seen[op.def := view(op.def)]) else T;
      SeenGrows(F, U.seen, T, sc);
      ArgsGrow(F, view, op, ContractOf(view, op), args, 0, ctx, U, sc);
      GrowsThen(F, T, U, Walk(F, view, e, ctx, T).0, sc, sc);
    case Logic(_, l, r) =>
      WalkGrows(F, view, l, ReadCtx, T, sc);
      var A := Walk(F, view, l, ReadCtx, T).0;
      WalkGrows(F, view, r, ReadCtx, A, sc);
      GrowsThen(F, T, A, Walk(F, view, r, ReadCtx, A).0, sc, sc);
    case If(c, t, f, _) =>
      WalkGrows(F, view, c, ReadCtx, T, sc);
      var A := Walk(F, view, c, ReadCtx, T).0;
      WalkGrows(F, view, t, ctx, A, sc);
      var B := Walk(F, view, t, ctx, A).0;
      GrowsThen(F, T, A, B, sc, sc);
      if f.Some? {
        WalkGrows(F, view, f.value, ctx, B, sc);
        GrowsThen(F, T, B, Walk(F, view, f.value, ctx, B).0, sc, sc);
      }
    case Block(stmts, tail) =>
      StmtsGrow(F, view, stmts, T, sc);
      var A := WalkStmts(F, view, stmts, T);
      if tail.Some? {
        WalkGrows(F, view, tail.value, ctx, A, ScopeAfter(stmts, sc));
        GrowsThen(F, T, A, Walk(F, view, tail.value, ctx, A).0, sc, ScopeAfter(stmts, sc));
      }
    case Match(s, arms, _) =>
      WalkGrows(F, view, s, ReadCtx, T, sc);
      var (A, c) := Walk(F, view, s, ReadCtx, T);
      ArmsGrow(F, view, arms, ctx, c, A, sc);
      GrowsThen(F, T, A, WalkArms(F, view, arms, ctx, c, A).0, sc, sc);
    case ForRange(x, lo, hi, body) =>
      OptGrows(F, view, lo, T, sc);
      var A := WalkOpt(F, view, lo, T);
      OptGrows(F, view, hi, A, sc);
      var B := WalkOpt(F, view, hi, A);
      GrowsThen(F, T, A, B, sc, sc);
      WalkGrows(F, view, body, MoveCtx, B, sc + {x});
      GrowsThen(F, T, B, Walk(F, view, body, MoveCtx, B).0, sc, sc + {x});
    case ForEach(x, iter, body) =>
      WalkGrows(F, view, iter, ReadCtx, T, sc);
      var A := Walk(F, view, iter, ReadCtx, T).0;
      WalkGrows(F, view, body, MoveCtx, A, sc + {x});
      GrowsThen(F, T, A, Walk(F, view, body, MoveCtx, A).0, sc, sc + {x});
  }

  lemma {:induction false} OptGrows(F: Fun, view: View, o: Option<Expr>, T: Taint, sc: set<Sym>)
    requires ScopedOpt(o, sc)
    ensures Grows(F, T, WalkOpt(F, view, o, T), sc)
    decreases o, 2
  {
    hide Grows;
    GrowsNot(F, T, sc);
    if o.Some? {
      WalkGrows(F, view, o.value, ReadCtx, T, sc);
    }
  }

  lemma {:induction false} ArgsGrow(F: Fun, view: View, op: Op, contract: Contract, args: seq<Expr>, i: nat, ctx: Ctx,
        T: Taint, sc: set<Sym>)
    requires ScopedAll(args, sc)
    ensures Grows(F, T, WalkArgs(F, view, op, contract, args, i, ctx, T).0, sc)
    decreases args, 0
  {
    hide Grows, Walk, Lend, OperandCtx;
    GrowsNot(F, T, sc);
    if args != [] {
      var c := OperandCtx(op, contract, i, ctx);
      WalkGrows(F, view, args[0], c, T, sc);
      var A := Walk(F, view, args[0], c, T).0;
      LendGrows(F, op, contract, i, args[0], A, sc);
      var B := Lend(F, op, contract, i, args[0], A);
      GrowsThen(F, T, A, B, sc, sc);
      ArgsGrow(F, view, op, contract, args[1..], i + 1, ctx, B, sc);
      GrowsThen(F, T, B, WalkArgs(F, view, op, contract, args[1..], i + 1, ctx, B).0, sc, sc);
    }
  }

  lemma {:induction false} ArmsGrow(F: Fun, view: View, arms: seq<Arm>, ctx: Ctx, c: Carriers, T: Taint, sc: set<Sym>)
    requires ScopedArms(arms, sc)
    ensures Grows(F, T, WalkArms(F, view, arms, ctx, c, T).0, sc)
    decreases arms, 0
  {
    hide Grows, WalkArm;
    GrowsNot(F, T, sc);
    if arms != [] {
      ArmGrows(F, view, arms[0], ctx, c, T, sc);
      var A := WalkArm(F, view, arms[0], ctx, c, T).0;
      ArmsGrow(F, view, arms[1..], ctx, c, A, sc);
      GrowsThen(F, T, A, WalkArms(F, view, arms[1..], ctx, c, A).0, sc, sc);
    }
  }

  lemma {:induction false} ArmGrows(F: Fun, view: View, arm: Arm, ctx: Ctx, c: Carriers, T: Taint, sc: set<Sym>)
    requires ScopedArm(arm, sc)
    ensures Grows(F, T, WalkArm(F, view, arm, ctx, c, T).0, sc)
    decreases arm, 2
  {
    hide Grows, Walk;
    PatGrows(F, arm.pat, c, T, sc);
    var A := CarryPat(F, arm.pat, c, T);
    WalkGrows(F, view, arm.body, ctx, A, sc + PatSyms(arm.pat));
    GrowsThen(F, T, A, Walk(F, view, arm.body, ctx, A).0, sc, sc + PatSyms(arm.pat));
  }

  lemma {:induction false} StmtsGrow(F: Fun, view: View, ss: seq<Stmt>, T: Taint, sc: set<Sym>)
    requires ScopedStmts(ss, sc)
    ensures Grows(F, T, WalkStmts(F, view, ss, T), sc)
    decreases ss, 0
  {
    hide Grows, WalkStmt;
    GrowsNot(F, T, sc);
    if ss != [] {
      StmtGrows(F, view, ss[0], T, sc);
      var A := WalkStmt(F, view, ss[0], T);
      StmtsGrow(F, view, ss[1..], A, sc + DeclaredBy(ss[0]));
      GrowsThen(F, T, A, WalkStmts(F, view, ss[1..], A), sc, sc + DeclaredBy(ss[0]));
    }
  }

  lemma {:induction false} StmtGrows(F: Fun, view: View, s: Stmt, T: Taint, sc: set<Sym>)
    requires ScopedStmt(s, sc)
    ensures Grows(F, T, WalkStmt(F, view, s, T), sc)
    decreases s, 1
  {
    hide Grows, Walk;
    GrowsNot(F, T, sc);
    match s
    case Let(x, None) => CarryGrows(F, x, {}, T, sc);
    case Let(x, Some(e)) =>
      WalkGrows(F, view, e, MoveCtx, T, sc);
      var (A, c) := Walk(F, view, e, MoveCtx, T);
      CarryGrows(F, x, c, A, sc);
      GrowsThen(F, T, A, Carry(A, x, c), sc, sc);
    case Assign(x, _, e) =>
      WalkGrows(F, view, e, MoveCtx, T, sc);
      var (A, c) := Walk(F, view, e, MoveCtx, T);
      FlagGrows(F, x, ReadCtx, A, sc);
      var B := FlagMutated(F, x, A);
      GrowsThen(F, T, A, B, sc, sc);
      CarryGrows(F, x, Carried(B, x) + c, B, sc);
      GrowsThen(F, T, B, Carry(B, x, Carried(B, x) + c), sc, sc);
    case ExprStmt(e) => WalkGrows(F, view, e, MoveCtx, T, sc);
    case Return(None) =>
    case Return(Some(e)) =>
      WalkGrows(F, view, e, MoveCtx, T, sc);
      var (A, c) := Walk(F, view, e, MoveCtx, T);
      EscapeGrows(F, A, c, sc);
      GrowsThen(F, T, A, MarkEscaped(A, c), sc, sc);
  }

  // ---------- where one pass of the walk is enough ----------

  /** Another pass from `U` to `V` added nothing. */
  predicate Steady(F: Fun, U: Taint, V: Taint, sc: set<Sym>) {
    && (forall s <- sc :: Held(F, V, s) <= Held(F, U, s))
    && (forall j :: 0 <= j < |V.facts| && V.facts[j].escaped ==> Escaped(U, j))
  }

  /** Loop bodies add nothing in a second pass, elements are of a copy type or carry nothing, and a
      parameter is overwritten by nothing but its own value. */
  predicate Tracks(F: Fun, view: View, e: Expr, ctx: Ctx, T: Taint, sc: set<Sym>)
    decreases e, 2
  {
    match e
    case Lit(_) => true
    case Poison => true
    case Var(_) => true
    case Field(b, _, copy) => Tracks(F, view, b, if copy then ReadCtx else ctx, T, sc)
    case Prim(op, args) =>
      var U := if op.Call? then T.(seen := T.seen[op.def := view(op.def)]) else T;
      TracksArgs(F, view, op, ContractOf(view, op), args, 0, ctx, U, sc)
    case Logic(_, l, r) =>
      Tracks(F, view, l, ReadCtx, T, sc) && Tracks(F, view, r, ReadCtx, Walk(F, view, l, ReadCtx, T).0, sc)
    case If(c, t, f, _) =>
      var A := Walk(F, view, c, ReadCtx, T).0;
      Tracks(F, view, c, ReadCtx, T, sc) && Tracks(F, view, t, ctx, A, sc) &&
      TracksOpt(F, view, f, ctx, Walk(F, view, t, ctx, A).0, sc)
    case Block(stmts, tail) =>
      TracksStmts(F, view, stmts, T, sc) &&
      TracksOpt(F, view, tail, ctx, WalkStmts(F, view, stmts, T), ScopeAfter(stmts, sc))
    case Match(s, arms, _) =>
      var (A, c) := Walk(F, view, s, ReadCtx, T);
      Tracks(F, view, s, ReadCtx, T, sc) && TracksArms(F, view, arms, ctx, c, A, sc)
    case ForRange(x, lo, hi, body) =>
      var A := WalkOpt(F, view, lo, T);
      TracksOpt(F, view, lo, ReadCtx, T, sc) && TracksOpt(F, view, hi, ReadCtx, A, sc) &&
      TracksLoop(F, view, x, body, WalkOpt(F, view, hi, A), sc)
    case ForEach(x, iter, body) =>
      var (A, c) := Walk(F, view, iter, ReadCtx, T);
      Tracks(F, view, iter, ReadCtx, T, sc) && (x in F.copies || c == {}) && TracksLoop(F, view, x, body, A, sc)
  }

  predicate TracksOpt(F: Fun, view: View, o: Option<Expr>, ctx: Ctx, T: Taint, sc: set<Sym>)
    decreases o, 3
  {
    o.Some? ==> Tracks(F, view, o.value, ctx, T, sc)
  }

  predicate TracksArgs(F: Fun, view: View, op: Op, contract: Contract, args: seq<Expr>, i: nat, ctx: Ctx, T: Taint,
        sc: set<Sym>)
    decreases args, 0
  {
    args == [] ||
    var c := OperandCtx(op, contract, i, ctx);
    var A := Walk(F, view, args[0], c, T).0;
    Tracks(F, view, args[0], c, T, sc) &&
    TracksArgs(F, view, op, contract, args[1..], i + 1, ctx, Lend(F, op, contract, i, args[0], A), sc)
  }

  predicate TracksArms(F: Fun, view: View, arms: seq<Arm>, ctx: Ctx, c: Carriers, T: Taint, sc: set<Sym>)
    decreases arms, 0
  {
    arms == [] ||
    (TracksArm(F, view, arms[0], ctx, c, T, sc) &&
     TracksArms(F, view, arms[1..], ctx, c, WalkArm(F, view, arms[0], ctx, c, T).0, sc))
  }

  predicate TracksArm(F: Fun, view: View, arm: Arm, ctx: Ctx, c: Carriers, T: Taint, sc: set<Sym>)
    decreases arm, 3
  {
    Tracks(F, view, arm.body, ctx, CarryPat(F, arm.pat, c, T), sc + PatSyms(arm.pat))
  }

  predicate TracksLoop(F: Fun, view: View, x: Sym, body: Expr, T: Taint, sc: set<Sym>)
    decreases body, 3
  {
    var U := Walk(F, view, body, MoveCtx, T).0;
    Tracks(F, view, body, MoveCtx, U, sc + {x}) && Steady(F, U, Walk(F, view, body, MoveCtx, U).0, sc)
  }

  predicate TracksStmts(F: Fun, view: View, ss: seq<Stmt>, T: Taint, sc: set<Sym>)
    decreases ss, 0
  {
    ss == [] ||
    (TracksStmt(F, view, ss[0], T, sc) &&
     TracksStmts(F, view, ss[1..], WalkStmt(F, view, ss[0], T), sc + DeclaredBy(ss[0])))
  }

  predicate TracksStmt(F: Fun, view: View, s: Stmt, T: Taint, sc: set<Sym>)
    decreases s, 1
  {
    match s
    case Let(_, init) => TracksOpt(F, view, init, MoveCtx, T, sc)
    case Assign(x, _, e) =>
      Tracks(F, view, e, MoveCtx, T, sc) &&
      (Position(F.params, x).Some? ==> Walk(F, view, e, MoveCtx, T).1 <= {Position(F.params, x).value})
    case ExprStmt(e) => Tracks(F, view, e, MoveCtx, T, sc)
    case Return(o) => TracksOpt(F, view, o, MoveCtx, T, sc)
  }

  // ---------- the walk accounts for every mark ----------

  /** A function under a view, a run of it, and the parameter whose value carries the mark. */
  datatype Trial = Trial(fun: Fun, view: View, env: Env, pos: nat, def: Def)

  ghost predicate Fits(G: Trial) {
    SameContracts(G.env.contracts, G.view) && CalleesKeep(G.env, G.view, G.def)
  }

  /** A binding in scope holds a mark only where the walk says so. */
  predicate Accounts(G: Trial, T: Taint, h: Store, sc: set<Sym>) {
    && G.pos < |T.facts|
    && (forall s <- sc :: IsLive(h, s) && Marked(h[s].v, G.def) ==> G.pos in Held(G.fun, T, s))
  }

  /** What the walk says of an outcome. */
  predicate Foreseen(G: Trial, U: Taint, c: Carriers, o: Out, sc: set<Sym>) {
    && (o.Norm? ==> Accounts(G, U, o.h, sc) && (Marked(o.v, G.def) ==> G.pos in c))
    && (o.Ret? && Marked(o.v, G.def) ==> Escaped(U, G.pos))
  }

  lemma AccountsGrow(G: Trial, T: Taint, U: Taint, h: Store, sc: set<Sym>)
    requires Accounts(G, T, h, sc) && Grows(G.fun, T, U, sc)
    ensures Accounts(G, U, h, sc)
  {
  }

  lemma ForeseenAccounts(G: Trial, U: Taint, c: Carriers, o: Out, sc: set<Sym>)
    requires Foreseen(G, U, c, o, sc) && o.Norm?
    ensures Accounts(G, U, o.h, sc)
  {
  }

  /** An outcome that stops the run is foreseen by every later state. */
  lemma StopsForeseen(G: Trial, A: Taint, U: Taint, c: Carriers, d: Carriers, o: Out, sc: set<Sym>, inner: set<Sym>,
        outer: set<Sym>)
    requires Foreseen(G, A, c, o, inner) && Grows(G.fun, A, U, sc) && !o.Norm?
    ensures Foreseen(G, U, d, o, outer)
  {
  }

  /** An outcome is foreseen by a later state and more carriers. */
  lemma MoreForeseen(G: Trial, A: Taint, U: Taint, c: Carriers, d: Carriers, o: Out, inner: set<Sym>, sc: set<Sym>)
    requires Foreseen(G, A, c, o, inner) && Grows(G.fun, A, U, sc) && c <= d && sc <= inner
    ensures Foreseen(G, U, d, o, sc)
  {
  }

  lemma PlainForeseen(G: Trial, U: Taint, c: Carriers, v: Value, h: Store, sc: set<Sym>)
    requires Accounts(G, U, h, sc) && !Marked(v, G.def)
    ensures Foreseen(G, U, c, Norm(v, h), sc)
  {
  }

  lemma CoerceForeseen(G: Trial, U: Taint, c: Carriers, unit: bool, o: Out, sc: set<Sym>)
    requires Foreseen(G, U, c, o, sc)
    ensures Foreseen(G, U, c, Coerce(unit, o), sc)
  {
  }

  /** A copy-typed value carries nothing. */
  lemma CopyForeseen(G: Trial, U: Taint, c: Carriers, d: Carriers, o: Out, sc: set<Sym>)
    requires Foreseen(G, U, c, o, sc) && Unmarked(o, G.def)
    ensures Foreseen(G, U, d, o, sc)
  {
  }

  lemma VarForeseen(G: Trial, s: Sym, ctx: Ctx, T: Taint, h: Store, sc: set<Sym>)
    requires Accounts(G, T, h, sc) && s in sc
    ensures Foreseen(G, Flag(G.fun, s, ctx, T), Held(G.fun, T, s), ReadVar(G.env, s, ctx, h), sc)
  {
    FlagGrows(G.fun, s, ctx, T, sc);
  }

  // ---------- calls ----------

  /** Every operand's mark is accounted for where the value goes and where it came from. */
  ghost predicate ArgsForeseen(G: Trial, U: Taint, c: Carriers, op: Op, args: seq<Expr>, i: nat, vals: seq<Value>) {
    && |vals| == |args|
    && (forall j: nat {:trigger vals[j]} :: j < |vals| && Marked(vals[j], G.def) ==>
          (FlowsOn(op, ContractOf(G.view, op), i + j) ==> G.pos in c) &&
          (PlaceBase(args[j]).Some? ==> G.pos in Held(G.fun, U, PlaceBase(args[j]).value)))
  }

  lemma ArgsForeseenCons(G: Trial, U: Taint, c: Carriers, d: Carriers, op: Op, args: seq<Expr>, i: nat, v: Value,
        vals: seq<Value>)
    requires args != [] && ArgsForeseen(G, U, d, op, args[1..], i + 1, vals)
    requires Marked(v, G.def) ==>
      (FlowsOn(op, ContractOf(G.view, op), i) ==> G.pos in c) &&
      (PlaceBase(args[0]).Some? ==> G.pos in Held(G.fun, U, PlaceBase(args[0]).value))
    ensures ArgsForeseen(G, U, c + d, op, args, i, [v] + vals)
  {
    var all := [v] + vals;
    forall j: nat | j < |all| && Marked(all[j], G.def)
      ensures FlowsOn(op, ContractOf(G.view, op), i + j) ==> G.pos in c + d
      ensures PlaceBase(args[j]).Some? ==> G.pos in Held(G.fun, U, PlaceBase(args[j]).value)
    {
      if j > 0 {
        assert all[j] == vals[j - 1] && args[j] == args[1..][j - 1] && i + 1 + (j - 1) == i + j;
      }
    }
  }

  lemma {:induction false} WriteBackAccounts(G: Trial, U: Taint, c: Carriers, def: Def, args: seq<Expr>, n: nat,
        vals: seq<Value>, outs: seq<Value>, h: Store, sc: set<Sym>)
    requires n <= |args| && Accounts(G, U, h, sc) && ArgsForeseen(G, U, c, Call(def), args, 0, vals)
    requires forall j: nat :: j < |outs| && Marked(outs[j], G.def) ==> j < |vals| && Marked(vals[j], G.def)
    ensures Accounts(G, U, WriteBack(G.env, def, args, n, outs, h), sc)
  {
    hide SetPath, Marked, Held;
    if n > 0 {
      WriteBackAccounts(G, U, c, def, args, n - 1, vals, outs, h, sc);
      var g := WriteBack(G.env, def, args, n - 1, outs, h);
      var arg := args[n - 1];
      if PlaceBase(arg).Some? && |outs| >= n && IsLive(g, PlaceBase(arg).value) {
        var base := PlaceBase(arg).value;
        var w := SetPath(g[base].v, PlacePath(arg), outs[n - 1]);
        if w.Some? && Marked(w.value, G.def) {
          SetPathMarked(g[base].v, PlacePath(arg), outs[n - 1], G.def);
          assert Marked(outs[n - 1], G.def) ==> Marked(vals[n - 1], G.def);
        }
      }
    }
  }

  lemma {:induction false} ConsumedAccounts(G: Trial, U: Taint, def: Def, args: seq<Expr>, n: nat, h: Store,
        sc: set<Sym>)
    requires n <= |args| && Accounts(G, U, h, sc)
    ensures Accounts(G, U, Consumed(G.env, def, args, n, h), sc)
  {
    if n > 0 {
      ConsumedAccounts(G, U, def, args, n - 1, h, sc);
    }
  }

  lemma FinishForeseen(G: Trial, U: Taint, c: Carriers, op: Op, args: seq<Expr>, vals: seq<Value>, h: Store,
        sc: set<Sym>)
    requires Fits(G) && Accounts(G, U, h, sc) && ArgsForeseen(G, U, c, op, args, 0, vals)
    requires !Builds(op, G.def) && (CopyOp(op) ==> Unmarked(Finish(G.env, op, args, vals, h), G.def))
    ensures Foreseen(G, U, c, Finish(G.env, op, args, vals, h), sc)
  {
    hide Accounts, Marked, Held, WriteBack, Consumed, BorrowsLive, Apply;
    if op.Call? {
      CallForeseen(G, U, c, op.def, args, vals, h, sc);
    } else if Apply(op, vals).Some? {
      var v := Apply(op, vals).value;
      if Marked(v, G.def) && !CopyOp(op) {
        ApplyMarked(op, vals, G.def);
        var j: nat :| j < |vals| && Marked(vals[j], G.def) && FlowsOn(op, [], j);
        assert ContractOf(G.view, op) == [] && 0 + j == j;
      }
    }
  }

  lemma CallForeseen(G: Trial, U: Taint, c: Carriers, def: Def, args: seq<Expr>, vals: seq<Value>, h: Store,
        sc: set<Sym>)
    requires Fits(G) && Accounts(G, U, h, sc) && ArgsForeseen(G, U, c, Call(def), args, 0, vals)
    ensures Foreseen(G, U, c, FinishCall(G.env, def, args, vals, h), sc)
  {
    hide Accounts, Marked, Held, WriteBack, Consumed, BorrowsLive;
    var r := G.env.calls(def, vals);
    assert CalleeKeeps(r, vals, G.view(def), G.def);
    if r.CallDone? {
      WriteBackAccounts(G, U, c, def, args, |args|, vals, r.outs, h, sc);
      var g := WriteBack(G.env, def, args, |args|, r.outs, h);
      ConsumedAccounts(G, U, def, args, |args|, g, sc);
      if Marked(r.ret, G.def) {
        var j: nat :| j < |vals| && Marked(vals[j], G.def) && At(G.view(def), j) == Escape;
        assert FlowsOn(Call(def), ContractOf(G.view, Call(def)), 0 + j);
      }
    }
  }
}
