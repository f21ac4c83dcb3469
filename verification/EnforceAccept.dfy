/** Which bodies the enforcement walk accepts, and what its reading past a `return` costs. */
module EnforceAccept {
  import opened Wrappers
  import opened Hir
  import opened Semantics
  import opened Effects
  import opened Place
  import opened Enforce
  import opened EnforceSound
  import opened EnforceWays
  import opened EnforceExact
  import opened EnforceCalls

  // ---------- ways are looked at one by one ----------

  /** What is said of two sets of starting conditions is said of both together. */
  lemma {:induction false} EndsPlus(Q: Look, e: Expr, ctx: Ctx, S: set<Cond>, T: set<Cond>)
    ensures Ends(Q, e, ctx, S + T) == Ends(Q, e, ctx, S) + Ends(Q, e, ctx, T)
    decreases e, 2
  {
    match e
    case Lit(_) =>
    case Poison =>
    case Var(s) =>
    case Field(b, _, copy) => EndsPlus(Q, b, if copy then ReadCtx else ctx, S, T);
    case Prim(op, args) => ArgsPlus(Q, op, args, 0, ctx, S, T);
    case Logic(_, l, r) =>
      EndsPlus(Q, l, ReadCtx, S, T);
      IfPlus(Q, r, ReadCtx, Ends(Q, l, ReadCtx, S), Ends(Q, l, ReadCtx, T));
    case If(c, t, f, _) =>
      EndsPlus(Q, c, ReadCtx, S, T);
      IfPlus(Q, t, ctx, Ends(Q, c, ReadCtx, S), Ends(Q, c, ReadCtx, T));
      ElsePlus(Q, f, ctx, Ends(Q, c, ReadCtx, S), Ends(Q, c, ReadCtx, T));
    case Block(stmts, tail) =>
      StmtsPlus(Q, stmts, S, T);
      OptPlus(Q, tail, ctx, EndsStmts(Q, stmts, S), EndsStmts(Q, stmts, T));
    case Match(s, arms, _) =>
      EndsPlus(Q, s, ReadCtx, S, T);
      ArmsPlus(Q, arms, ctx, Ends(Q, s, ReadCtx, S), Ends(Q, s, ReadCtx, T));
    case ForRange(y, lo, hi, body) =>
      OptPlus(Q, lo, ReadCtx, S, T);
      OptPlus(Q, hi, ReadCtx, EndsOpt(Q, lo, ReadCtx, S), EndsOpt(Q, lo, ReadCtx, T));
      LoopPlus(Q, y, body, EndsOpt(Q, hi, ReadCtx, EndsOpt(Q, lo, ReadCtx, S)),
               EndsOpt(Q, hi, ReadCtx, EndsOpt(Q, lo, ReadCtx, T)));
    case ForEach(y, iter, body) =>
      EndsPlus(Q, iter, ReadCtx, S, T);
      LoopPlus(Q, y, body, Ends(Q, iter, ReadCtx, S), Ends(Q, iter, ReadCtx, T));
  }

  lemma {:induction false} IfPlus(Q: Look, e: Expr, ctx: Ctx, S: set<Cond>, T: set<Cond>)
    ensures EndsIf(Q, e, ctx, S + T) == EndsIf(Q, e, ctx, S) + EndsIf(Q, e, ctx, T)
    decreases e, 3
  {
    EndsPlus(Q, e, ctx, S, T);
  }

  lemma {:induction false} ElsePlus(Q: Look, o: Option<Expr>, ctx: Ctx, S: set<Cond>, T: set<Cond>)
    ensures EndsElse(Q, o, ctx, S + T) == EndsElse(Q, o, ctx, S) + EndsElse(Q, o, ctx, T)
    decreases o, 4
  {
    if o.Some? {
      IfPlus(Q, o.value, ctx, S, T);
    }
  }

  lemma {:induction false} OptPlus(Q: Look, o: Option<Expr>, ctx: Ctx, S: set<Cond>, T: set<Cond>)
    ensures EndsOpt(Q, o, ctx, S + T) == EndsOpt(Q, o, ctx, S) + EndsOpt(Q, o, ctx, T)
    decreases o, 4
  {
    if o.Some? {
      EndsPlus(Q, o.value, ctx, S, T);
    }
  }

  lemma {:induction false} ArgsPlus(Q: Look, op: Op, args: seq<Expr>, i: nat, ctx: Ctx, S: set<Cond>, T: set<Cond>)
    ensures EndsArgs(Q, op, args, i, ctx, S + T) == EndsArgs(Q, op, args, i, ctx, S) + EndsArgs(Q, op, args, i, ctx, T)
    decreases args, 0
  {
    if args != [] {
      var c := ArgCtx(Q.rules.contracts, op, i, ctx);
      EndsPlus(Q, args[0], c, S, T);
      ArgsPlus(Q, op, args[1..], i + 1, ctx, Ends(Q, args[0], c, S), Ends(Q, args[0], c, T));
    }
  }

  lemma {:induction false} ArmsPlus(Q: Look, arms: seq<Arm>, ctx: Ctx, S: set<Cond>, T: set<Cond>)
    ensures EndsArms(Q, arms, ctx, S + T) == EndsArms(Q, arms, ctx, S) + EndsArms(Q, arms, ctx, T)
    decreases arms, 0
  {
    if arms != [] {
      ArmPlus(Q, arms[0], ctx, S, T);
      ArmsPlus(Q, arms[1..], ctx, S, T);
    }
  }

  lemma {:induction false} ArmPlus(Q: Look, arm: Arm, ctx: Ctx, S: set<Cond>, T: set<Cond>)
    ensures EndsArm(Q, arm, ctx, S + T) == EndsArm(Q, arm, ctx, S) + EndsArm(Q, arm, ctx, T)
    decreases arm, 4
  {
    var syms := PatSyms(arm.pat);
    assert AfterBind(Q, syms, S + T) == AfterBind(Q, syms, S) + AfterBind(Q, syms, T);
    IfPlus(Q, arm.body, ctx, AfterBind(Q, syms, S), AfterBind(Q, syms, T));
  }

  lemma {:induction false} LoopPlus(Q: Look, y: Sym, body: Expr, S: set<Cond>, T: set<Cond>)
    ensures EndsLoop(Q, y, body, S + T) == EndsLoop(Q, y, body, S) + EndsLoop(Q, y, body, T)
    decreases body, 3
  {
    EndsPlus(Q, body, MoveCtx, S, T);
  }

  lemma {:induction false} StmtsPlus(Q: Look, ss: seq<Stmt>, S: set<Cond>, T: set<Cond>)
    ensures EndsStmts(Q, ss, S + T) == EndsStmts(Q, ss, S) + EndsStmts(Q, ss, T)
    decreases ss, 0
  {
    if ss != [] {
      StmtPlus(Q, ss[0], S, T);
      StmtsPlus(Q, ss[1..], EndsStmt(Q, ss[0], S), EndsStmt(Q, ss[0], T));
    }
  }

  lemma {:induction false} StmtPlus(Q: Look, s: Stmt, S: set<Cond>, T: set<Cond>)
    ensures EndsStmt(Q, s, S + T) == EndsStmt(Q, s, S) + EndsStmt(Q, s, T)
    decreases s, 1
  {
    match s
    case Let(_, None) =>
    case Let(_, Some(e)) => EndsPlus(Q, e, MoveCtx, S, T);
    case Assign(_, _, e) => EndsPlus(Q, e, MoveCtx, S, T);
    case ExprStmt(e) => EndsPlus(Q, e, MoveCtx, S, T);
    case Return(o) => OptPlus(Q, o, MoveCtx, S, T);
  }

  lemma {:induction false} BadPlus(Q: Look, f: Fault, e: Expr, ctx: Ctx, S: set<Cond>, T: set<Cond>)
    ensures Bad(Q, f, e, ctx, S + T) <==> Bad(Q, f, e, ctx, S) || Bad(Q, f, e, ctx, T)
    decreases e, 2
  {
    hide Ends, EndsOpt, EndsStmts, BadArgs, BadArms, BadStmts, BadLoop, ArgCtx;
    match e
    case Lit(_) =>
    case Poison =>
    case Var(s) =>
    case Field(b, _, copy) => BadPlus(Q, f, b, if copy then ReadCtx else ctx, S, T);
    case Prim(op, args) => BadArgsPlus(Q, f, op, args, 0, ctx, S, T);
    case Logic(_, l, r) =>
      BadPlus(Q, f, l, ReadCtx, S, T);
      EndsPlus(Q, l, ReadCtx, S, T);
      BadPlus(Q, f, r, ReadCtx, Ends(Q, l, ReadCtx, S), Ends(Q, l, ReadCtx, T));
    case If(_, _, _, _) => BadIfPlus(Q, f, e, ctx, S, T);
    case Block(stmts, tail) =>
      BadStmtsPlus(Q, f, stmts, S, T);
      StmtsPlus(Q, stmts, S, T);
      BadOptPlus(Q, f, tail, ctx, EndsStmts(Q, stmts, S), EndsStmts(Q, stmts, T));
    case Match(s, arms, _) =>
      BadPlus(Q, f, s, ReadCtx, S, T);
      EndsPlus(Q, s, ReadCtx, S, T);
      BadArmsPlus(Q, f, arms, ctx, Ends(Q, s, ReadCtx, S), Ends(Q, s, ReadCtx, T));
    case ForRange(_, _, _, _) => BadRangePlus(Q, f, e, ctx, S, T);
    case ForEach(y, iter, body) =>
      BadPlus(Q, f, iter, ReadCtx, S, T);
      EndsPlus(Q, iter, ReadCtx, S, T);
      BadLoopPlus(Q, f, y, body, Ends(Q, iter, ReadCtx, S), Ends(Q, iter, ReadCtx, T));
  }

  lemma {:induction false} BadIfPlus(Q: Look, f: Fault, e: Expr, ctx: Ctx, S: set<Cond>, T: set<Cond>)
    requires e.If?
    ensures Bad(Q, f, e, ctx, S + T) <==> Bad(Q, f, e, ctx, S) || Bad(Q, f, e, ctx, T)
    decreases e, 1
  {
    hide Ends;
    var (M, N) := (Ends(Q, e.cond, ReadCtx, S), Ends(Q, e.cond, ReadCtx, T));
    BadPlus(Q, f, e.cond, ReadCtx, S, T);
    EndsPlus(Q, e.cond, ReadCtx, S, T);
    BadPlus(Q, f, e.thn, ctx, M, N);
    BadOptPlus(Q, f, e.els, ctx, M, N);
  }

  lemma {:induction false} BadRangePlus(Q: Look, f: Fault, e: Expr, ctx: Ctx, S: set<Cond>, T: set<Cond>)
    requires e.ForRange?
    ensures Bad(Q, f, e, ctx, S + T) <==> Bad(Q, f, e, ctx, S) || Bad(Q, f, e, ctx, T)
    decreases e, 1
  {
    hide Ends, EndsOpt, BadLoop;
    var (M, N) := (EndsOpt(Q, e.lo, ReadCtx, S), EndsOpt(Q, e.lo, ReadCtx, T));
    BadOptPlus(Q, f, e.lo, ReadCtx, S, T);
    OptPlus(Q, e.lo, ReadCtx, S, T);
    BadOptPlus(Q, f, e.hi, ReadCtx, M, N);
    OptPlus(Q, e.hi, ReadCtx, M, N);
    BadLoopPlus(Q, f, e.var_, e.body, EndsOpt(Q, e.hi, ReadCtx, M), EndsOpt(Q, e.hi, ReadCtx, N));
  }

  lemma {:induction false} BadOptPlus(Q: Look, f: Fault, o: Option<Expr>, ctx: Ctx, S: set<Cond>, T: set<Cond>)
    ensures BadOpt(Q, f, o, ctx, S + T) <==> BadOpt(Q, f, o, ctx, S) || BadOpt(Q, f, o, ctx, T)
    decreases o, 4
  {
    if o.Some? {
      BadPlus(Q, f, o.value, ctx, S, T);
    }
  }

  lemma {:induction false} BadArgsPlus(Q: Look, f: Fault, op: Op, args: seq<Expr>, i: nat, ctx: Ctx, S: set<Cond>,
        T: set<Cond>)
    ensures BadArgs(Q, f, op, args, i, ctx, S + T) <==>
            BadArgs(Q, f, op, args, i, ctx, S) || BadArgs(Q, f, op, args, i, ctx, T)
    decreases args, 0
  {
    hide Ends, Bad, ArgCtx;
    if args != [] {
      var c := ArgCtx(Q.rules.contracts, op, i, ctx);
      BadPlus(Q, f, args[0], c, S, T);
      EndsPlus(Q, args[0], c, S, T);
      BadArgsPlus(Q, f, op, args[1..], i + 1, ctx, Ends(Q, args[0], c, S), Ends(Q, args[0], c, T));
    }
  }

  lemma {:induction false} BadArmsPlus(Q: Look, f: Fault, arms: seq<Arm>, ctx: Ctx, S: set<Cond>, T: set<Cond>)
    ensures BadArms(Q, f, arms, ctx, S + T) <==> BadArms(Q, f, arms, ctx, S) || BadArms(Q, f, arms, ctx, T)
    decreases arms, 0
  {
    if arms != [] {
      BadArmPlus(Q, f, arms[0], ctx, S, T);
      BadArmsPlus(Q, f, arms[1..], ctx, S, T);
    }
  }

  lemma {:induction false} BadArmPlus(Q: Look, f: Fault, arm: Arm, ctx: Ctx, S: set<Cond>, T: set<Cond>)
    ensures BadArm(Q, f, arm, ctx, S + T) <==> BadArm(Q, f, arm, ctx, S) || BadArm(Q, f, arm, ctx, T)
    decreases arm, 3
  {
    var syms := PatSyms(arm.pat);
    assert AfterBind(Q, syms, S + T) == AfterBind(Q, syms, S) + AfterBind(Q, syms, T);
    BadPlus(Q, f, arm.body, ctx, AfterBind(Q, syms, S), AfterBind(Q, syms, T));
  }

  lemma {:induction false} BadLoopPlus(Q: Look, f: Fault, y: Sym, body: Expr, S: set<Cond>, T: set<Cond>)
    ensures BadLoop(Q, f, y, body, S + T) <==> BadLoop(Q, f, y, body, S) || BadLoop(Q, f, y, body, T)
    decreases body, 3
  {
    assert AfterBind(Q, {y}, S + T) == AfterBind(Q, {y}, S) + AfterBind(Q, {y}, T);
    BadPlus(Q, f, body, MoveCtx, AfterBind(Q, {y}, S), AfterBind(Q, {y}, T));
  }

  lemma {:induction false} BadStmtsPlus(Q: Look, f: Fault, ss: seq<Stmt>, S: set<Cond>, T: set<Cond>)
    ensures BadStmts(Q, f, ss, S + T) <==> BadStmts(Q, f, ss, S) || BadStmts(Q, f, ss, T)
    decreases ss, 0
  {
    if ss != [] {
      BadStmtPlus(Q, f, ss[0], S, T);
      StmtPlus(Q, ss[0], S, T);
      BadStmtsPlus(Q, f, ss[1..], EndsStmt(Q, ss[0], S), EndsStmt(Q, ss[0], T));
    }
  }

  lemma {:induction false} BadStmtPlus(Q: Look, f: Fault, s: Stmt, S: set<Cond>, T: set<Cond>)
    ensures BadStmt(Q, f, s, S + T) <==> BadStmt(Q, f, s, S) || BadStmt(Q, f, s, T)
    decreases s, 1
  {
    hide Ends;
    match s
    case Let(_, init) => BadOptPlus(Q, f, init, MoveCtx, S, T);
    case Assign(_, _, e) =>
      BadPlus(Q, f, e, MoveCtx, S, T);
      EndsPlus(Q, e, MoveCtx, S, T);
    case ExprStmt(e) => BadPlus(Q, f, e, MoveCtx, S, T);
    case Return(o) => BadOptPlus(Q, f, o, MoveCtx, S, T);
  }

  /** A set of conditions is a bookkeeping device: every way starts in one of them. */
  lemma {:induction false} WaysApart(Q: Look, f: Fault, e: Expr, ctx: Ctx, S: set<Cond>)
    requires S != {}
    ensures Bad(Q, f, e, ctx, S) <==> exists c <- S :: Bad(Q, f, e, ctx, {c})
    ensures forall d :: d in Ends(Q, e, ctx, S) <==> exists c <- S :: d in Ends(Q, e, ctx, {c})
    decreases |S|
  {
    hide Bad, Ends;
    var c :| c in S;
    var T := S - {c};
    if T == {} {
      assert S == {c};
    } else {
      assert S == {c} + T;
      BadPlus(Q, f, e, ctx, {c}, T);
      EndsPlus(Q, e, ctx, {c}, T);
      WaysApart(Q, f, e, ctx, T);
    }
  }

  // ---------- ways that end at a return ----------

  /** Nothing starts, nothing ends; and from some start, the end can be reached exactly when the
      source's own prediction says so. */
  lemma {:induction false} CompletesExact(Q: Look, e: Expr, ctx: Ctx, S: set<Cond>)
    requires !Q.past
    ensures Ends(Q, e, ctx, S) != {} <==> S != {} && CanComplete(e)
    decreases e, 2
  {
    match e
    case Lit(_) =>
    case Poison =>
    case Var(s) => StepsGoOn(Q, s, ctx, [], S);
    case Field(b, _, copy) => CompletesExact(Q, b, if copy then ReadCtx else ctx, S);
    case Prim(op, args) => ArgsCompleteExact(Q, op, args, 0, ctx, S);
    case Logic(_, l, r) =>
      CompletesExact(Q, l, ReadCtx, S);
      CompletesExact(Q, r, ReadCtx, Ends(Q, l, ReadCtx, S));
    case If(c, t, f, _) =>
      CompletesExact(Q, c, ReadCtx, S);
      CompletesExact(Q, t, ctx, Ends(Q, c, ReadCtx, S));
      OptCompletesExact(Q, f, ctx, Ends(Q, c, ReadCtx, S));
      assert EndsElse(Q, f, ctx, Ends(Q, c, ReadCtx, S)) != {} <==> Ends(Q, c, ReadCtx, S) != {} && OptCompletes(f);
    case Block(stmts, tail) =>
      StmtsCompleteExact(Q, stmts, S);
      OptCompletesExact(Q, tail, ctx, EndsStmts(Q, stmts, S));
    case Match(s, arms, _) =>
      CompletesExact(Q, s, ReadCtx, S);
      ArmsCompleteExact(Q, arms, ctx, Ends(Q, s, ReadCtx, S));
    case ForRange(y, lo, hi, body) =>
      OptCompletesExact(Q, lo, ReadCtx, S);
      OptCompletesExact(Q, hi, ReadCtx, EndsOpt(Q, lo, ReadCtx, S));
      CompletesExact(Q, body, MoveCtx, EndsOpt(Q, hi, ReadCtx, EndsOpt(Q, lo, ReadCtx, S)));
    case ForEach(y, iter, body) =>
      CompletesExact(Q, iter, ReadCtx, S);
      CompletesExact(Q, body, MoveCtx, Ends(Q, iter, ReadCtx, S));
  }

  /** Single steps neither add ways nor end any. */
  lemma StepsGoOn(Q: Look, s: Sym, ctx: Ctx, path: seq<nat>, S: set<Cond>)
    ensures AfterUse(Q, s, ctx, S) != {} <==> S != {}
    ensures AfterWrite(Q, s, path, S) != {} <==> S != {}
    ensures AfterDeclare(Q, s, S) != {} <==> S != {}
  {
    if c :| c in S {
      assert s == Q.x && ctx.MoveCtx? && s !in Q.rules.copies ==> c.(moved := true) in AfterUse(Q, s, ctx, S);
      assert s == Q.x ==> (if path == [] then HELD else c.(init := true)) in AfterWrite(Q, s, path, S);
      assert s == Q.x ==> EMPTY in AfterDeclare(Q, s, S);
    }
  }

  lemma BindsGoOn(Q: Look, syms: set<Sym>, S: set<Cond>)
    ensures AfterBind(Q, syms, S) != {} <==> S != {}
  {
    if c :| c in S {
      assert Q.x in syms ==> HELD in AfterBind(Q, syms, S);
    }
  }

  lemma {:induction false} OptCompletesExact(Q: Look, o: Option<Expr>, ctx: Ctx, S: set<Cond>)
    requires !Q.past
    ensures EndsOpt(Q, o, ctx, S) != {} <==> S != {} && OptCompletes(o)
    decreases o, 4
  {
    if o.Some? {
      CompletesExact(Q, o.value, ctx, S);
    }
  }

  lemma {:induction false} ArgsCompleteExact(Q: Look, op: Op, args: seq<Expr>, i: nat, ctx: Ctx, S: set<Cond>)
    requires !Q.past
    ensures EndsArgs(Q, op, args, i, ctx, S) != {} <==> S != {} && AllComplete(args)
    decreases args, 0
  {
    if args != [] {
      var c := ArgCtx(Q.rules.contracts, op, i, ctx);
      CompletesExact(Q, args[0], c, S);
      ArgsCompleteExact(Q, op, args[1..], i + 1, ctx, Ends(Q, args[0], c, S));
    }
  }

  lemma {:induction false} ArmsCompleteExact(Q: Look, arms: seq<Arm>, ctx: Ctx, S: set<Cond>)
    requires !Q.past
    ensures EndsArms(Q, arms, ctx, S) != {} <==> S != {} && AnyArmCompletes(arms)
    decreases arms, 0
  {
    if arms != [] {
      ArmCompletesExact(Q, arms[0], ctx, S);
      ArmsCompleteExact(Q, arms[1..], ctx, S);
    }
  }

  lemma {:induction false} ArmCompletesExact(Q: Look, arm: Arm, ctx: Ctx, S: set<Cond>)
    requires !Q.past
    ensures EndsArm(Q, arm, ctx, S) != {} <==> S != {} && ArmCompletes(arm)
    decreases arm, 4
  {
    BindsGoOn(Q, PatSyms(arm.pat), S);
    CompletesExact(Q, arm.body, ctx, AfterBind(Q, PatSyms(arm.pat), S));
  }

  lemma {:induction false} StmtsCompleteExact(Q: Look, ss: seq<Stmt>, S: set<Cond>)
    requires !Q.past
    ensures EndsStmts(Q, ss, S) != {} <==> S != {} && StmtsComplete(ss)
    decreases ss, 0
  {
    if ss != [] {
      StmtCompletesExact(Q, ss[0], S);
      StmtsCompleteExact(Q, ss[1..], EndsStmt(Q, ss[0], S));
    }
  }

  lemma {:induction false} StmtCompletesExact(Q: Look, s: Stmt, S: set<Cond>)
    requires !Q.past
    ensures EndsStmt(Q, s, S) != {} <==> S != {} && StmtCompletes(s)
    decreases s, 1
  {
    match s
    case Let(y, None) => StepsGoOn(Q, y, ReadCtx, [], S);
    case Let(y, Some(e)) =>
      CompletesExact(Q, e, MoveCtx, S);
      BindsGoOn(Q, {y}, Ends(Q, e, MoveCtx, S));
    case Assign(y, path, e) =>
      CompletesExact(Q, e, MoveCtx, S);
      StepsGoOn(Q, y, ReadCtx, path, Ends(Q, e, MoveCtx, S));
    case ExprStmt(e) => CompletesExact(Q, e, MoveCtx, S);
    case Return(o) =>
  }

  // ---------- bodies without unreachable code ----------

  /** Nothing follows a part that cannot reach its end, and every loop body can reach its end. */
  predicate Tidy(e: Expr)
    decreases e, 2
  {
    match e
    case Lit(_) => true
    case Poison => true
    case Var(_) => true
    case Field(b, _, _) => Tidy(b)
    case Prim(_, args) => TidyAll(args)
    case Logic(_, l, r) => Tidy(l) && CanComplete(l) && Tidy(r)
    case If(c, t, f, _) => Tidy(c) && CanComplete(c) && Tidy(t) && TidyOpt(f)
    case Block(stmts, tail) => TidyStmts(stmts) && TidyOpt(tail) && (tail.Some? ==> StmtsComplete(stmts))
    case Match(s, arms, _) => Tidy(s) && CanComplete(s) && TidyArms(arms)
    case ForRange(_, lo, hi, body) =>
      TidyOpt(lo) && OptCompletes(lo) && TidyOpt(hi) && OptCompletes(hi) && Tidy(body) && CanComplete(body)
    case ForEach(_, iter, body) => Tidy(iter) && CanComplete(iter) && Tidy(body) && CanComplete(body)
  }

  predicate TidyOpt(o: Option<Expr>)
    decreases o, 3
  {
    o.Some? ==> Tidy(o.value)
  }

  predicate TidyAll(es: seq<Expr>)
    decreases es, 0
  {
    es == [] || (Tidy(es[0]) && (es[1..] == [] || CanComplete(es[0])) && TidyAll(es[1..]))
  }

  predicate TidyArms(arms: seq<Arm>)
    decreases arms, 0
  {
    arms == [] || (TidyArm(arms[0]) && TidyArms(arms[1..]))
  }

  predicate TidyArm(arm: Arm)
    decreases arm, 3
  {
    Tidy(arm.body)
  }

  predicate TidyStmts(ss: seq<Stmt>)
    decreases ss, 0
  {
    ss == [] || (TidyStmt(ss[0]) && (ss[1..] == [] || StmtCompletes(ss[0])) && TidyStmts(ss[1..]))
  }

  predicate TidyStmt(s: Stmt)
    decreases s, 1
  {
    match s
    case Let(_, init) => TidyOpt(init)
    case Assign(_, _, e) => Tidy(e) && CanComplete(e)
    case ExprStmt(e) => Tidy(e)
    case Return(o) => TidyOpt(o)
  }

  /** The same binding, with ways that read on behind a `return`. */
  function Past(Q: Look): Look {
    Q.(past := true)
  }

  function Unless(cut: bool, S: set<Cond>): set<Cond> {
    if cut then {} else S
  }

  /** Without unreachable code, reading on behind a `return` changes nothing. */
  lemma {:induction false} TidyWays(Q: Look, f: Fault, e: Expr, ctx: Ctx, S: set<Cond>)
    requires !Q.past && Tidy(e)
    ensures Ends(Q, e, ctx, S) == Unless(!CanComplete(e), Ends(Past(Q), e, ctx, S))
    ensures Bad(Q, f, e, ctx, S) == Bad(Past(Q), f, e, ctx, S)
    decreases e, 2
  {
    hide EndsArgs, EndsArms, EndsStmts, BadArgs, BadArms, BadStmts, EndsLoop, BadLoop, ArgCtx;
    hide TidyAll, TidyArms, TidyStmts, AllComplete, AnyArmCompletes, StmtsComplete;
    match e
    case Lit(_) =>
    case Poison =>
    case Var(s) =>
    case Field(b, _, copy) => TidyWays(Q, f, b, if copy then ReadCtx else ctx, S);
    case Prim(op, args) => TidyArgsWays(Q, f, op, args, 0, ctx, S);
    case Logic(_, l, r) =>
      TidyWays(Q, f, l, ReadCtx, S);
      TidyWays(Q, f, r, ReadCtx, Ends(Q, l, ReadCtx, S));
    case If(c, t, g, _) =>
      TidyWays(Q, f, c, ReadCtx, S);
      TidyWays(Q, f, t, ctx, Ends(Q, c, ReadCtx, S));
      TidyOptWays(Q, f, g, ctx, Ends(Q, c, ReadCtx, S));
      TidyElseWays(Q, f, g, ctx, Ends(Q, c, ReadCtx, S));
    case Block(stmts, tail) =>
      TidyStmtsWays(Q, f, stmts, S);
      TidyOptWays(Q, f, tail, ctx, EndsStmts(Q, stmts, S));
    case Match(s, arms, _) =>
      TidyWays(Q, f, s, ReadCtx, S);
      TidyArmsWays(Q, f, arms, ctx, Ends(Q, s, ReadCtx, S));
    case ForRange(y, lo, hi, body) =>
      TidyOptWays(Q, f, lo, ReadCtx, S);
      var M := EndsOpt(Q, lo, ReadCtx, S);
      TidyOptWays(Q, f, hi, ReadCtx, M);
      TidyLoopWays(Q, f, y, body, EndsOpt(Q, hi, ReadCtx, M));
    case ForEach(y, iter, body) =>
      TidyWays(Q, f, iter, ReadCtx, S);
      TidyLoopWays(Q, f, y, body, Ends(Q, iter, ReadCtx, S));
  }

  lemma {:induction false} TidyOptWays(Q: Look, f: Fault, o: Option<Expr>, ctx: Ctx, S: set<Cond>)
    requires !Q.past && TidyOpt(o)
    ensures EndsOpt(Q, o, ctx, S) == Unless(!OptCompletes(o), EndsOpt(Past(Q), o, ctx, S))
    ensures BadOpt(Q, f, o, ctx, S) == BadOpt(Past(Q), f, o, ctx, S)
    decreases o, 4
  {
    if o.Some? {
      TidyWays(Q, f, o.value, ctx, S);
    }
  }

  lemma {:induction false} TidyElseWays(Q: Look, f: Fault, o: Option<Expr>, ctx: Ctx, S: set<Cond>)
    requires !Q.past && TidyOpt(o)
    ensures EndsElse(Q, o, ctx, S) == EndsElse(Past(Q), o, ctx, S)
    decreases o, 4
  {
    if o.Some? {
      TidyWays(Q, f, o.value, ctx, S);
    }
  }

  lemma {:induction false} TidyArgsWays(Q: Look, f: Fault, op: Op, args: seq<Expr>, i: nat, ctx: Ctx, S: set<Cond>)
    requires !Q.past && TidyAll(args)
    ensures EndsArgs(Q, op, args, i, ctx, S) == Unless(!AllComplete(args), EndsArgs(Past(Q), op, args, i, ctx, S))
    ensures BadArgs(Q, f, op, args, i, ctx, S) == BadArgs(Past(Q), f, op, args, i, ctx, S)
    decreases args, 0
  {
    if args != [] {
      var c := ArgCtx(Q.rules.contracts, op, i, ctx);
      TidyWays(Q, f, args[0], c, S);
      TidyArgsWays(Q, f, op, args[1..], i + 1, ctx, Ends(Q, args[0], c, S));
    }
  }

  lemma {:induction false} TidyArmsWays(Q: Look, f: Fault, arms: seq<Arm>, ctx: Ctx, S: set<Cond>)
    requires !Q.past && TidyArms(arms)
    ensures EndsArms(Q, arms, ctx, S) == EndsArms(Past(Q), arms, ctx, S)
    ensures BadArms(Q, f, arms, ctx, S) == BadArms(Past(Q), f, arms, ctx, S)
    decreases arms, 0
  {
    if arms != [] {
      TidyArmWays(Q, f, arms[0], ctx, S);
      TidyArmsWays(Q, f, arms[1..], ctx, S);
    }
  }

  lemma {:induction false} TidyArmWays(Q: Look, f: Fault, arm: Arm, ctx: Ctx, S: set<Cond>)
    requires !Q.past && TidyArm(arm)
    ensures EndsArm(Q, arm, ctx, S) == EndsArm(Past(Q), arm, ctx, S)
    ensures BadArm(Q, f, arm, ctx, S) == BadArm(Past(Q), f, arm, ctx, S)
    decreases arm, 3
  {
    TidyWays(Q, f, arm.body, ctx, AfterBind(Q, PatSyms(arm.pat), S));
  }

  lemma {:induction false} TidyLoopWays(Q: Look, f: Fault, y: Sym, body: Expr, S: set<Cond>)
    requires !Q.past && Tidy(body) && CanComplete(body)
    ensures EndsLoop(Q, y, body, S) == EndsLoop(Past(Q), y, body, S)
    ensures BadLoop(Q, f, y, body, S) == BadLoop(Past(Q), f, y, body, S)
    decreases body, 3
  {
    hide Ends, Bad, Tidy, CanComplete;
    TidyWays(Q, f, body, MoveCtx, S);
    TidyWays(Q, f, body, MoveCtx, AfterBind(Q, {y}, S));
  }

  lemma {:induction false} TidyStmtsWays(Q: Look, f: Fault, ss: seq<Stmt>, S: set<Cond>)
    requires !Q.past && TidyStmts(ss)
    ensures EndsStmts(Q, ss, S) == Unless(!StmtsComplete(ss), EndsStmts(Past(Q), ss, S))
    ensures BadStmts(Q, f, ss, S) == BadStmts(Past(Q), f, ss, S)
    decreases ss, 0
  {
    if ss != [] {
      TidyStmtWays(Q, f, ss[0], S);
      TidyStmtsWays(Q, f, ss[1..], EndsStmt(Q, ss[0], S));
    }
  }

  lemma {:induction false} TidyStmtWays(Q: Look, f: Fault, s: Stmt, S: set<Cond>)
    requires !Q.past && TidyStmt(s)
    ensures EndsStmt(Q, s, S) == Unless(!StmtCompletes(s), EndsStmt(Past(Q), s, S))
    ensures BadStmt(Q, f, s, S) == BadStmt(Past(Q), f, s, S)
    decreases s, 1
  {
    match s
    case Let(_, None) =>
    case Let(_, Some(e)) => TidyWays(Q, f, e, MoveCtx, S);
    case Assign(_, _, e) => TidyWays(Q, f, e, MoveCtx, S);
    case ExprStmt(e) => TidyWays(Q, f, e, MoveCtx, S);
    case Return(o) => TidyOptWays(Q, f, o, MoveCtx, S);
  }

  // ---------- accepted bodies ----------

  /** Main result: a body gets a diagnostic about a binding exactly when some way through it, read
      past every `return`, misuses the binding so. */
  lemma ReportsExact(R: Rules, params: seq<Sym>, root: Expr, f: Fault, x: Sym)
    requires Scoped(root, set s | s in params)
    ensures FaultDiag(f, x) in CheckBody(R, params, root).diags <==> Bad(Look(R, x, true), f, root, MoveCtx, {HELD})
  {
    hide Check, Bad, Ends, Scoped;
    var W := Walk(ParamStates(params), [], [], true);
    CheckTells(Look(R, x, true), f, root, MoveCtx, W, {HELD}, set s | s in params);
  }

  /** No way through the body misuses any binding. */
  ghost predicate NoFault(R: Rules, root: Expr, past: bool) {
    forall x, f :: !Bad(Look(R, x, past), f, root, MoveCtx, {HELD})
  }

  /** Main result: a body is accepted exactly when no way through it misuses a binding and no part
      of it breaks the rules of loans. */
  lemma AcceptedExact(R: Rules, params: seq<Sym>, root: Expr)
    requires Scoped(root, set s | s in params)
    ensures CheckBody(R, params, root).diags == [] <==> NoFault(R, root, true) && LoanFree(R, root, MoveCtx, [])
  {
    hide Check, Bad, Scoped, LoanFree;
    var W := Walk(ParamStates(params), [], [], true);
    var r := CheckBody(R, params, root);
    LoansExact(R, root, MoveCtx, W);
    if r.diags == [] {
      forall x, f
        ensures !Bad(Look(R, x, true), f, root, MoveCtx, {HELD})
      {
        ReportsExact(R, params, root, f, x);
      }
    } else {
      var d := r.diags[0];
      if !IsLoanDiag(d) {
        var f := if d.Uninitialized? then Unready else if d.UseAfterMove? then Gone else Frozen;
        assert d == FaultDiag(f, d.sym);
        ReportsExact(R, params, root, f, d.sym);
      }
    }
  }

  /** Without unreachable code only the ways a run can take count. */
  lemma TidyAcceptedExact(R: Rules, params: seq<Sym>, root: Expr)
    requires Scoped(root, set s | s in params) && Tidy(root)
    ensures CheckBody(R, params, root).diags == [] <==> NoFault(R, root, false) && LoanFree(R, root, MoveCtx, [])
  {
    hide Check, Bad, Ends, Scoped, LoanFree, Tidy;
    AcceptedExact(R, params, root);
    forall x, f
      ensures Bad(Look(R, x, true), f, root, MoveCtx, {HELD}) == Bad(Look(R, x, false), f, root, MoveCtx, {HELD})
    {
      TidyWays(Look(R, x, false), f, root, MoveCtx, {HELD});
    }
  }

  /** Two shared borrows of one place go together. */
  lemma SharedBorrowsAgree(def: Def, q: Sym)
    ensures CheckBody(Rules({}, {}, map[def := [Borrow, Borrow]]), [q], Prim(Call(def), [Var(q), Var(q)])).diags == []
  {
    var R := Rules({}, {}, map[def := [Borrow, Borrow]]);
    var args := [Var(q), Var(q)];
    var root := Prim(Call(def), args);
    var rest := args[1..];
    assert rest == [Var(q)] && rest[1..] == [];
    var sc := set s | s in [q];
    assert q in sc && Scoped(Var(q), sc) && ScopedAll(rest[1..], sc) && ScopedAll(rest, sc) && ScopedAll(args, sc);
    AcceptedExact(R, [q], root);
    forall x, f
      ensures !Bad(Look(R, x, true), f, root, MoveCtx, {HELD})
    {
      var Q := Look(R, x, true);
      assert !UseBad(Q, f, q, {HELD});
      assert !BadArgs(Q, f, Call(def), rest, 1, MoveCtx, {HELD});
      assert !BadArgs(Q, f, Call(def), args, 0, MoveCtx, {HELD});
    }
    SharedFree(def, q);
  }

  lemma SharedFree(def: Def, q: Sym)
    ensures LoanFree(Rules({}, {}, map[def := [Borrow, Borrow]]), Prim(Call(def), [Var(q), Var(q)]), MoveCtx, [])
  {
    var R := Rules({}, {}, map[def := [Borrow, Borrow]]);
    var args := [Var(q), Var(q)];
    var rest := args[1..];
    assert rest == [Var(q)] && rest[1..] == [];
    var l := Loan(Path(q, []), Shared);
    assert PlaceOf(Var(q)) == Some(Path(q, []));
    assert Lent(R, Call(def), 0, Var(q)) == [l] && [] + [l] == [l];
    assert LentFree(R, Call(def), 1, Var(q), [l]);
    assert ArgsFree(R, Call(def), rest[1..], 2, MoveCtx, [l] + Lent(R, Call(def), 1, Var(q)));
    assert ArgsFree(R, Call(def), rest, 1, MoveCtx, [l]);
    assert LentFree(R, Call(def), 0, Var(q), []) && LoanFree(R, Var(q), ReadCtx, []);
    assert ArgsFree(R, Call(def), args, 0, MoveCtx, []);
  }

  /** `{ p; return; p; }` */
  function UseAfterReturn(p: Sym): Expr {
    Block([ExprStmt(Var(p)), Return(None), ExprStmt(Var(p))], None)
  }

  /** A use behind a `return` is reported although no run gets there. */
  lemma UnreachableReported(p: Sym)
    ensures UseAfterMove(p) in CheckBody(Rules({}, {}, map[]), [p], UseAfterReturn(p)).diags
    ensures NoFault(Rules({}, {}, map[]), UseAfterReturn(p), false)
  {
    hide Bad, Scoped;
    var R := Rules({}, {}, map[]);
    ReturnScoped(p, set s | s in [p]);
    ReportsExact(R, [p], UseAfterReturn(p), Gone, p);
    FaultBehindReturn(Look(R, p, true));
    forall x, f
      ensures !Bad(Look(R, x, false), f, UseAfterReturn(p), MoveCtx, {HELD})
    {
      NoFaultToReturn(Look(R, x, false), f, p);
    }
  }

  lemma ReturnScoped(p: Sym, sc: set<Sym>)
    requires p in sc
    ensures Scoped(UseAfterReturn(p), sc)
  {
    var use := ExprStmt(Var(p));
    var ss := [use, Return(None), use];
    var two := ss[1..];
    var one := two[1..];
    assert two == [Return(None), use] && one == [use] && one[1..] == [];
    assert sc + {} == sc && DeclaredBy(use) == {} && DeclaredBy(Return(None)) == {};
    assert Scoped(Var(p), sc) && ScopedStmt(use, sc) && ScopedStmt(Return(None), sc);
    assert ScopedStmts(one[1..], sc) && ScopedStmts(one, sc);
    assert ScopedStmts(two, sc);
    assert ScopedStmts(ss, sc);
  }

  lemma FaultBehindReturn(Q: Look)
    requires Q.past && Q.x !in Q.rules.copies
    ensures Bad(Q, Gone, UseAfterReturn(Q.x), MoveCtx, {HELD})
  {
    var use := ExprStmt(Var(Q.x));
    var ss := [use, Return(None), use];
    var two := ss[1..];
    var one := two[1..];
    assert two == [Return(None), use] && one == [use];
    var S := {HELD.(moved := true)};
    assert AfterUse(Q, Q.x, MoveCtx, {HELD}) == S && Ends(Q, Var(Q.x), MoveCtx, {HELD}) == S;
    assert EndsStmt(Q, use, {HELD}) == S && EndsStmt(Q, Return(None), S) == S;
    assert HELD.(moved := true) in S && UseBad(Q, Gone, Q.x, S) && Bad(Q, Gone, Var(Q.x), MoveCtx, S);
    assert BadStmt(Q, Gone, use, S) && BadStmts(Q, Gone, one, S);
    assert BadStmts(Q, Gone, two, S);
    assert BadStmts(Q, Gone, ss, {HELD});
  }

  lemma NoFaultToReturn(Q: Look, f: Fault, p: Sym)
    requires !Q.past
    ensures !Bad(Q, f, UseAfterReturn(p), MoveCtx, {HELD})
  {
    var use := ExprStmt(Var(p));
    var ss := [use, Return(None), use];
    var two := ss[1..];
    var one := two[1..];
    assert two == [Return(None), use] && one == [use] && one[1..] == [];
    var T := EndsStmt(Q, use, {HELD});
    assert !UseBad(Q, f, p, {HELD}) && !Bad(Q, f, Var(p), MoveCtx, {HELD}) && !BadStmt(Q, f, use, {HELD});
    assert !UseBad(Q, f, p, {}) && !Bad(Q, f, Var(p), MoveCtx, {}) && !BadStmt(Q, f, use, {});
    assert !BadStmts(Q, f, one[1..], EndsStmt(Q, use, {})) && !BadStmts(Q, f, one, {});
    assert EndsStmt(Q, Return(None), T) == {} && !BadStmt(Q, f, Return(None), T);
    assert !BadStmts(Q, f, two, T);
    assert !BadStmts(Q, f, ss, {HELD});
  }

  /** `{ for y in .. { return p; } p }` */
  function ReturningLoop(p: Sym, y: Sym): Expr {
    Block([ExprStmt(ForRange(y, None, None, Block([Return(Some(Var(p)))], None)))], Some(Var(p)))
  }

  /** A move in a loop body that returns is reported at the next use, although no run takes both. */
  lemma ReturningLoopReported(p: Sym, y: Sym)
    requires p != y
    ensures UseAfterMove(p) in CheckBody(Rules({}, {}, map[]), [p], ReturningLoop(p, y)).diags
    ensures NoFault(Rules({}, {}, map[]), ReturningLoop(p, y), false)
  {
    hide Bad, Scoped;
    var R := Rules({}, {}, map[]);
    LoopScoped(p, y, set s | s in [p]);
    ReportsExact(R, [p], ReturningLoop(p, y), Gone, p);
    FaultBehindLoop(Look(R, p, true), y);
    forall x, f
      ensures !Bad(Look(R, x, false), f, ReturningLoop(p, y), MoveCtx, {HELD})
    {
      NoFaultInLoop(Look(R, x, false), f, p, y);
    }
  }

  lemma LoopScoped(p: Sym, y: Sym, sc: set<Sym>)
    requires p != y && p in sc && y !in sc
    ensures Scoped(ReturningLoop(p, y), sc)
  {
    var back := [Return(Some(Var(p)))];
    var body := Block(back, None);
    var each := ForRange(y, None, None, body);
    var loop := ExprStmt(each);
    var root := Block([loop], Some(Var(p)));
    assert sc + {} == sc && DeclaredBy(loop) == {};
    var loops := [loop];
    assert Scoped(Var(p), sc + {y}) && ScopedOpt(Some(Var(p)), sc + {y});
    assert ScopedStmt(back[0], sc + {y}) && ScopedStmts(back[1..], sc + {y}) && ScopedStmts(back, sc + {y});
    assert Scoped(body, sc + {y}) && ScopedOpt(None, sc) && Scoped(each, sc) && ScopedStmt(loop, sc);
    assert ScopedStmts(loops[1..], sc) && ScopedStmts(loops, sc) && ScopeAfter(loops, sc) == sc;
    assert Scoped(Var(p), sc) && ScopedOpt(Some(Var(p)), sc) && Scoped(root, sc);
  }

  lemma FaultBehindLoop(Q: Look, y: Sym)
    requires Q.past && Q.x != y && Q.x !in Q.rules.copies
    ensures Bad(Q, Gone, ReturningLoop(Q.x, y), MoveCtx, {HELD})
  {
    var p := Q.x;
    var back := [Return(Some(Var(p)))];
    var body := Block(back, None);
    var each := ForRange(y, None, None, body);
    var loop := ExprStmt(each);
    var loops := [loop];
    assert back[1..] == [] && loops[1..] == [];
    var S := {HELD.(moved := true)};
    assert Ends(Q, Var(p), MoveCtx, {HELD}) == S && EndsOpt(Q, Some(Var(p)), MoveCtx, {HELD}) == S;
    assert EndsStmt(Q, back[0], {HELD}) == S;
    assert EndsStmts(Q, back[1..], S) == S && EndsStmts(Q, back, {HELD}) == S;
    assert Ends(Q, body, MoveCtx, {HELD}) == S;
    assert EndsLoop(Q, y, body, {HELD}) == {HELD} + S;
    assert EndsOpt(Q, None, ReadCtx, {HELD}) == {HELD};
    assert Ends(Q, each, MoveCtx, {HELD}) == {HELD} + S;
    assert EndsStmt(Q, loop, {HELD}) == {HELD} + S;
    assert EndsStmts(Q, loops[1..], {HELD} + S) == {HELD} + S && EndsStmts(Q, loops, {HELD}) == {HELD} + S;
    assert HELD.(moved := true) in {HELD} + S;
    assert UseBad(Q, Gone, p, {HELD} + S) && Bad(Q, Gone, Var(p), MoveCtx, {HELD} + S);
  }

  lemma NoFaultInLoop(Q: Look, f: Fault, p: Sym, y: Sym)
    requires !Q.past && p != y
    ensures !Bad(Q, f, ReturningLoop(p, y), MoveCtx, {HELD})
  {
    var back := [Return(Some(Var(p)))];
    var body := Block(back, None);
    var each := ForRange(y, None, None, body);
    var loop := ExprStmt(each);
    assert back[1..] == [] && [loop][1..] == [];
    var loops := [loop];
    assert !UseBad(Q, f, p, {HELD}) && AfterBind(Q, {y}, {HELD}) == {HELD};
    assert !BadOpt(Q, f, Some(Var(p)), MoveCtx, {HELD});
    assert !BadStmt(Q, f, back[0], {HELD}) && EndsStmt(Q, back[0], {HELD}) == {};
    assert !BadStmts(Q, f, back[1..], {}) && EndsStmts(Q, back[1..], {}) == {};
    assert !BadStmts(Q, f, back, {HELD}) && EndsStmts(Q, back, {HELD}) == {};
    assert !Bad(Q, f, body, MoveCtx, {HELD}) && Ends(Q, body, MoveCtx, {HELD}) == {};
    assert EndsLoop(Q, y, body, {HELD}) == {HELD} && !BadLoop(Q, f, y, body, {HELD});
    assert EndsOpt(Q, None, ReadCtx, {HELD}) == {HELD} && !BadOpt(Q, f, None, ReadCtx, {HELD});
    assert Ends(Q, each, MoveCtx, {HELD}) == {HELD} && !Bad(Q, f, each, MoveCtx, {HELD});
    assert EndsStmt(Q, loop, {HELD}) == {HELD} && !BadStmt(Q, f, loop, {HELD});
    assert EndsStmts(Q, loops[1..], {HELD}) == {HELD} && !BadStmts(Q, f, loops[1..], {HELD});
    assert EndsStmts(Q, loops, {HELD}) == {HELD} && !BadStmts(Q, f, loops, {HELD});
  }
}
