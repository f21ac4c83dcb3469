/** When a parameter can be inferred to escape: only where it, or a binding its value is stored in,
    occurs in a returning position. Positions and stores are told on the tree. */
module InferReach {
  import opened Wrappers
  import opened Hir
  import opened Semantics
  import opened Effects
  import opened Infer
  import opened InferUses
  import opened InferSound

  // ---------- positions a value is handed on from ----------

  /** The expression's value may be what one of the bindings holds. */
  predicate Yields(view: View, e: Expr, R: set<Sym>)
    decreases e, 1
  {
    match e
    case Var(s) => s in R
    case Field(b, _, copy) => !copy && Yields(view, b, R)
    case Prim(op, args) => YieldsArgs(view, op, ContractOf(view, op), args, 0, R)
    case If(_, t, f, _) => Yields(view, t, R) || YieldsOpt(view, f, R)
    case Block(_, tail) => YieldsOpt(view, tail, R)
    case Match(_, arms, _) => YieldsArms(view, arms, R)
    case _ => false
  }

  predicate YieldsOpt(view: View, o: Option<Expr>, R: set<Sym>)
    decreases o, 2
  {
    o.Some? && Yields(view, o.value, R)
  }

  predicate YieldsArgs(view: View, op: Op, contract: Contract, args: seq<Expr>, i: nat, R: set<Sym>)
    decreases args, 0
  {
    args != [] &&
    ((FlowsOn(op, contract, i) && Yields(view, args[0], R)) || YieldsArgs(view, op, contract, args[1..], i + 1, R))
  }

  predicate YieldsArms(view: View, arms: seq<Arm>, R: set<Sym>)
    decreases arms, 0
  {
    arms != [] && (YieldsArm(view, arms[0], R) || YieldsArms(view, arms[1..], R))
  }

  predicate YieldsArm(view: View, arm: Arm, R: set<Sym>)
    decreases arm, 2
  {
    Yields(view, arm.body, R)
  }

  // ---------- one pass over the whole tree ----------

  /** The value that leaves at a `return`, and the bindings a value is stored in. */
  datatype Point = Leaving | Storing

  /** `Leaving`: some `return` hands out what one of the bindings holds. `Storing`: some binding
      outside the set is given what one of the bindings holds. */
  predicate Passes(F: Fun, view: View, e: Expr, R: set<Sym>, at: Point)
    decreases e, 1
  {
    match e
    case Field(b, _, _) => Passes(F, view, b, R, at)
    case Prim(_, args) => PassesAll(F, view, args, R, at)
    case Logic(_, l, r) => Passes(F, view, l, R, at) || Passes(F, view, r, R, at)
    case If(c, t, f, _) => Passes(F, view, c, R, at) || Passes(F, view, t, R, at) || PassesOpt(F, view, f, R, at)
    case Block(stmts, tail) => PassesStmts(F, view, stmts, R, at) || PassesOpt(F, view, tail, R, at)
    case Match(s, arms, _) => Passes(F, view, s, R, at) || PassesArms(F, view, arms, Yields(view, s, R), R, at)
    case ForRange(_, lo, hi, body) =>
      PassesOpt(F, view, lo, R, at) || PassesOpt(F, view, hi, R, at) || Passes(F, view, body, R, at)
    case ForEach(_, iter, body) => Passes(F, view, iter, R, at) || Passes(F, view, body, R, at)
    case _ => false
  }

  predicate PassesOpt(F: Fun, view: View, o: Option<Expr>, R: set<Sym>, at: Point)
    decreases o, 2
  {
    o.Some? && Passes(F, view, o.value, R, at)
  }

  predicate PassesAll(F: Fun, view: View, es: seq<Expr>, R: set<Sym>, at: Point)
    decreases es, 0
  {
    es != [] && (Passes(F, view, es[0], R, at) || PassesAll(F, view, es[1..], R, at))
  }

  predicate PassesArms(F: Fun, view: View, arms: seq<Arm>, handed: bool, R: set<Sym>, at: Point)
    decreases arms, 0
  {
    arms != [] && (PassesArm(F, view, arms[0], handed, R, at) || PassesArms(F, view, arms[1..], handed, R, at))
  }

  /** A pattern stores the scrutinee in its bindings, apart from payload parts of a copy type. */
  predicate PassesArm(F: Fun, view: View, arm: Arm, handed: bool, R: set<Sym>, at: Point)
    decreases arm, 2
  {
    (at.Storing? && handed && !(PatSyms(arm.pat) - (if arm.pat.VariantPat? then F.copies else {}) <= R)) ||
    Passes(F, view, arm.body, R, at)
  }

  predicate PassesStmts(F: Fun, view: View, ss: seq<Stmt>, R: set<Sym>, at: Point)
    decreases ss, 0
  {
    ss != [] && (PassesStmt(F, view, ss[0], R, at) || PassesStmts(F, view, ss[1..], R, at))
  }

  predicate PassesStmt(F: Fun, view: View, s: Stmt, R: set<Sym>, at: Point)
    decreases s, 1
  {
    match s
    case Let(x, None) => false
    case Let(x, Some(e)) => Passes(F, view, e, R, at) || (at.Storing? && Yields(view, e, R) && x !in R)
    case Assign(x, _, e) => Passes(F, view, e, R, at) || (at.Storing? && Yields(view, e, R) && x !in R)
    case ExprStmt(e) => Passes(F, view, e, R, at)
    case Return(None) => false
    case Return(Some(e)) => Passes(F, view, e, R, at) || (at.Leaving? && Yields(view, e, R))
  }

  // ---------- the walk carries the parameter nowhere else ----------

  /** The set holds the parameter and every binding the walk lets carry it. */
  ghost predicate Confined(F: Fun, T: Taint, R: set<Sym>, i: nat) {
    (forall s :: Position(F.params, s) == Some(i) ==> s in R) && (forall s :: i in Carried(T, s) ==> s in R)
  }

  /** From `T` to `U` the parameter stayed within the set, and escaped only if it left. */
  ghost predicate Stays(F: Fun, T: Taint, U: Taint, R: set<Sym>, i: nat, left: bool) {
    Confined(F, U, R, i) && (Escaped(U, i) ==> Escaped(T, i) || left)
  }

  lemma StaysThen(F: Fun, T: Taint, A: Taint, U: Taint, R: set<Sym>, i: nat, a: bool, b: bool)
    requires Stays(F, T, A, R, i, a) && Stays(F, A, U, R, i, b)
    ensures Stays(F, T, U, R, i, a || b)
  {
  }

  lemma StaysConfined(F: Fun, T: Taint, U: Taint, R: set<Sym>, i: nat, left: bool)
    requires Stays(F, T, U, R, i, left)
    ensures Confined(F, U, R, i)
  {
  }

  lemma NothingStays(F: Fun, T: Taint, U: Taint, R: set<Sym>, i: nat)
    requires Confined(F, T, R, i) && U.carried == T.carried && U.facts == T.facts
    ensures Stays(F, T, U, R, i, false)
  {
  }

  lemma FlagStays(F: Fun, s: Sym, ctx: Ctx, T: Taint, R: set<Sym>, i: nat)
    requires Confined(F, T, R, i)
    ensures Stays(F, T, Flag(F, s, ctx, T), R, i, false) && Stays(F, T, FlagMutated(F, s, T), R, i, false)
  {
  }

  lemma CarryStays(F: Fun, s: Sym, c: Carriers, T: Taint, R: set<Sym>, i: nat)
    requires Confined(F, T, R, i) && (i in c ==> s in R)
    ensures Stays(F, T, Carry(T, s, c), R, i, false)
  {
    var U := Carry(T, s, c);
    assert forall t :: t != s ==> Carried(U, t) == Carried(T, t);
  }

  lemma {:induction false} BindsStay(F: Fun, binds: seq<Option<Sym>>, n: nat, c: Carriers, T: Taint, R: set<Sym>,
        i: nat)
    requires n <= |binds| && Confined(F, T, R, i) && (i in c ==> BindSet(binds) - F.copies <= R)
    ensures Stays(F, T, CarryBinds(F, binds, n, c, T), R, i, false)
  {
    hide Confined;
    if n == 0 {
      NothingStays(F, T, T, R, i);
    } else {
      BindsStay(F, binds, n - 1, c, T, R, i);
      var U := CarryBinds(F, binds, n - 1, c, T);
      if binds[n - 1].Some? && binds[n - 1].value !in F.copies {
        assert binds[n - 1] in binds && binds[n - 1].value in BindSet(binds);
        CarryStays(F, binds[n - 1].value, c, U, R, i);
      }
    }
  }

  lemma PatStays(F: Fun, p: Pat, c: Carriers, T: Taint, R: set<Sym>, i: nat)
    requires Confined(F, T, R, i)
    requires i in c ==> PatSyms(p) - (if p.VariantPat? then F.copies else {}) <= R
    ensures Stays(F, T, CarryPat(F, p, c, T), R, i, false)
  {
    hide Confined;
    match p
    case VariantPat(_, binds) => BindsStay(F, binds, |binds|, c, T, R, i);
    case BindPat(Some(s)) =>
      assert s in PatSyms(p) - {};
      CarryStays(F, s, c, T, R, i);
    case _ => NothingStays(F, T, T, R, i);
  }

  lemma LendStays(F: Fun, op: Op, contract: Contract, k: nat, arg: Expr, T: Taint, R: set<Sym>, i: nat)
    requires Confined(F, T, R, i)
    ensures Stays(F, T, Lend(F, op, contract, k, arg, T), R, i, false)
  {
    hide Confined;
    NothingStays(F, T, T, R, i);
    if PlaceBase(arg).Some? {
      FlagStays(F, PlaceBase(arg).value, ReadCtx, T, R, i);
    }
  }

  lemma LeaveStays(F: Fun, T: Taint, c: Carriers, R: set<Sym>, i: nat)
    requires Confined(F, T, R, i)
    ensures Stays(F, T, MarkEscaped(T, c), R, i, i in c)
  {
  }

  /** A value carries the parameter only if one of the bindings yields it. */
  lemma {:induction false} WalkStays(F: Fun, view: View, e: Expr, ctx: Ctx, T: Taint, R: set<Sym>, i: nat)
    requires Confined(F, T, R, i) && !Passes(F, view, e, R, Storing)
    ensures var (U, c) := Walk(F, view, e, ctx, T);
      Stays(F, T, U, R, i, Passes(F, view, e, R, Leaving)) && (i in c ==> Yields(view, e, R))
    decreases e, 1
  {
    hide Confined, Stays;
    NothingStays(F, T, T, R, i);
    match e
    case Lit(_) =>
    case Poison =>
    case Var(s) =>
      FlagStays(F, s, ctx, T, R, i);
      HeldWithin(F, T, s, R, i);
    case Field(b, _, copy) => WalkStays(F, view, b, if copy then ReadCtx else ctx, T, R, i);
    case Prim(op, args) =>
      var U := if op.Call? then T.(seen := T.seen[op.def := view(op.def)]) else T;
      NothingStays(F, T, U, R, i);
      StaysConfined(F, T, U, R, i, false);
      ArgsStay(F, view, op, ContractOf(view, op), args, 0, ctx, U, R, i);
      StaysThen(F, T, U, Walk(F, view, e, ctx, T).0, R, i, false, PassesAll(F, view, args, R, Leaving));
    case Logic(_, l, r) =>
      WalkStays(F, view, l, ReadCtx, T, R, i);
      var A := Walk(F, view, l, ReadCtx, T).0;
      StaysConfined(F, T, A, R, i, Passes(F, view, l, R, Leaving));
      WalkStays(F, view, r, ReadCtx, A, R, i);
      StaysThen(F, T, A, Walk(F, view, r, ReadCtx, A).0, R, i, Passes(F, view, l, R, Leaving),
                Passes(F, view, r, R, Leaving));
    case If(_, _, _, _) => IfStays(F, view, e, ctx, T, R, i);
    case Block(stmts, tail) =>
      StmtsStay(F, view, stmts, T, R, i);
      var A := WalkStmts(F, view, stmts, T);
      StaysConfined(F, T, A, R, i, PassesStmts(F, view, stmts, R, Leaving));
      ElseStays(F, view, tail, ctx, A, R, i);
      StaysThen(F, T, A, Walk(F, view, e, ctx, T).0, R, i, PassesStmts(F, view, stmts, R, Leaving),
                PassesOpt(F, view, tail, R, Leaving));
    case Match(s, arms, _) =>
      WalkStays(F, view, s, ReadCtx, T, R, i);
      var (A, c) := Walk(F, view, s, ReadCtx, T);
      StaysConfined(F, T, A, R, i, Passes(F, view, s, R, Leaving));
      ArmsStay(F, view, arms, ctx, c, Yields(view, s, R), A, R, i);
      StaysThen(F, T, A, WalkArms(F, view, arms, ctx, c, A).0, R, i, Passes(F, view, s, R, Leaving),
                PassesArms(F, view, arms, Yields(view, s, R), R, Leaving));
    case ForRange(_, _, _, _) => RangeStays(F, view, e, ctx, T, R, i);
    case ForEach(_, iter, body) =>
      WalkStays(F, view, iter, ReadCtx, T, R, i);
      var A := Walk(F, view, iter, ReadCtx, T).0;
      StaysConfined(F, T, A, R, i, Passes(F, view, iter, R, Leaving));
      WalkStays(F, view, body, MoveCtx, A, R, i);
      StaysThen(F, T, A, Walk(F, view, body, MoveCtx, A).0, R, i, Passes(F, view, iter, R, Leaving),
                Passes(F, view, body, R, Leaving));
  }

  lemma HeldWithin(F: Fun, T: Taint, s: Sym, R: set<Sym>, i: nat)
    requires Confined(F, T, R, i)
    ensures i in Held(F, T, s) ==> s in R
  {
  }

  lemma {:induction false} IfStays(F: Fun, view: View, e: Expr, ctx: Ctx, T: Taint, R: set<Sym>, i: nat)
    requires e.If? && Confined(F, T, R, i) && !Passes(F, view, e, R, Storing)
    ensures var (U, c) := Walk(F, view, e, ctx, T);
      Stays(F, T, U, R, i, Passes(F, view, e, R, Leaving)) && (i in c ==> Yields(view, e, R))
    decreases e, 0
  {
    hide Confined, Stays;
    WalkStays(F, view, e.cond, ReadCtx, T, R, i);
    var A := Walk(F, view, e.cond, ReadCtx, T).0;
    var a := Passes(F, view, e.cond, R, Leaving);
    StaysConfined(F, T, A, R, i, a);
    WalkStays(F, view, e.thn, ctx, A, R, i);
    var B := Walk(F, view, e.thn, ctx, A).0;
    var b := Passes(F, view, e.thn, R, Leaving);
    StaysConfined(F, A, B, R, i, b);
    StaysThen(F, T, A, B, R, i, a, b);
    ElseStays(F, view, e.els, ctx, B, R, i);
    StaysThen(F, T, B, Walk(F, view, e, ctx, T).0, R, i, a || b, PassesOpt(F, view, e.els, R, Leaving));
  }

  lemma {:induction false} ElseStays(F: Fun, view: View, o: Option<Expr>, ctx: Ctx, T: Taint, R: set<Sym>, i: nat)
    requires Confined(F, T, R, i) && !PassesOpt(F, view, o, R, Storing)
    ensures var (U, c) := if o.None? then (T, {}) else Walk(F, view, o.value, ctx, T);
      Stays(F, T, U, R, i, PassesOpt(F, view, o, R, Leaving)) && (i in c ==> YieldsOpt(view, o, R))
    decreases o, 2
  {
    hide Confined, Stays, Walk, Passes, Yields;
    NothingStays(F, T, T, R, i);
    if o.Some? {
      WalkStays(F, view, o.value, ctx, T, R, i);
    }
  }

  lemma {:induction false} RangeStays(F: Fun, view: View, e: Expr, ctx: Ctx, T: Taint, R: set<Sym>, i: nat)
    requires e.ForRange? && Confined(F, T, R, i) && !Passes(F, view, e, R, Storing)
    ensures Stays(F, T, Walk(F, view, e, ctx, T).0, R, i, Passes(F, view, e, R, Leaving))
    decreases e, 0
  {
    hide Confined, Stays;
    ElseStays(F, view, e.lo, ReadCtx, T, R, i);
    var A := WalkOpt(F, view, e.lo, T);
    var a := PassesOpt(F, view, e.lo, R, Leaving);
    StaysConfined(F, T, A, R, i, a);
    ElseStays(F, view, e.hi, ReadCtx, A, R, i);
    var B := WalkOpt(F, view, e.hi, A);
    var b := PassesOpt(F, view, e.hi, R, Leaving);
    StaysConfined(F, A, B, R, i, b);
    StaysThen(F, T, A, B, R, i, a, b);
    WalkStays(F, view, e.body, MoveCtx, B, R, i);
    StaysThen(F, T, B, Walk(F, view, e.body, MoveCtx, B).0, R, i, a || b, Passes(F, view, e.body, R, Leaving));
  }

  lemma {:induction false} ArgsStay(F: Fun, view: View, op: Op, contract: Contract, args: seq<Expr>, k: nat, ctx: Ctx,
        T: Taint, R: set<Sym>, i: nat)
    requires Confined(F, T, R, i) && !PassesAll(F, view, args, R, Storing)
    ensures var (U, c) := WalkArgs(F, view, op, contract, args, k, ctx, T);
      Stays(F, T, U, R, i, PassesAll(F, view, args, R, Leaving)) &&
      (i in c ==> YieldsArgs(view, op, contract, args, k, R))
    decreases args, 0
  {
    hide Confined, Stays, Walk, Passes, Yields, Lend, FlowsOn, OperandCtx;
    NothingStays(F, T, T, R, i);
    if args != [] {
      var c := OperandCtx(op, contract, k, ctx);
      WalkStays(F, view, args[0], c, T, R, i);
      var A := Walk(F, view, args[0], c, T).0;
      var a := Passes(F, view, args[0], R, Leaving);
      StaysConfined(F, T, A, R, i, a);
      LendStays(F, op, contract, k, args[0], A, R, i);
      var B := Lend(F, op, contract, k, args[0], A);
      StaysThen(F, T, A, B, R, i, a, false);
      StaysConfined(F, T, B, R, i, a);
      ArgsStay(F, view, op, contract, args[1..], k + 1, ctx, B, R, i);
      StaysThen(F, T, B, WalkArgs(F, view, op, contract, args[1..], k + 1, ctx, B).0, R, i, a,
                PassesAll(F, view, args[1..], R, Leaving));
    }
  }

  lemma {:induction false} ArmsStay(F: Fun, view: View, arms: seq<Arm>, ctx: Ctx, c: Carriers, handed: bool, T: Taint,
        R: set<Sym>, i: nat)
    requires Confined(F, T, R, i) && !PassesArms(F, view, arms, handed, R, Storing) && (i in c ==> handed)
    ensures var (U, d) := WalkArms(F, view, arms, ctx, c, T);
      Stays(F, T, U, R, i, PassesArms(F, view, arms, handed, R, Leaving)) && (i in d ==> YieldsArms(view, arms, R))
    decreases arms, 0
  {
    hide Confined, Stays, WalkArm, PassesArm, YieldsArm;
    NothingStays(F, T, T, R, i);
    if arms != [] {
      ArmStays(F, view, arms[0], ctx, c, handed, T, R, i);
      var A := WalkArm(F, view, arms[0], ctx, c, T).0;
      var a := PassesArm(F, view, arms[0], handed, R, Leaving);
      StaysConfined(F, T, A, R, i, a);
      ArmsStay(F, view, arms[1..], ctx, c, handed, A, R, i);
      StaysThen(F, T, A, WalkArms(F, view, arms[1..], ctx, c, A).0, R, i, a,
                PassesArms(F, view, arms[1..], handed, R, Leaving));
    }
  }

  lemma {:induction false} ArmStays(F: Fun, view: View, arm: Arm, ctx: Ctx, c: Carriers, handed: bool, T: Taint,
        R: set<Sym>, i: nat)
    requires Confined(F, T, R, i) && !PassesArm(F, view, arm, handed, R, Storing) && (i in c ==> handed)
    ensures var (U, d) := WalkArm(F, view, arm, ctx, c, T);
      Stays(F, T, U, R, i, PassesArm(F, view, arm, handed, R, Leaving)) && (i in d ==> YieldsArm(view, arm, R))
    decreases arm, 2
  {
    hide Confined, Stays, Walk, Passes, Yields, CarryPat;
    PatStays(F, arm.pat, c, T, R, i);
    var A := CarryPat(F, arm.pat, c, T);
    StaysConfined(F, T, A, R, i, false);
    WalkStays(F, view, arm.body, ctx, A, R, i);
    StaysThen(F, T, A, Walk(F, view, arm.body, ctx, A).0, R, i, false, Passes(F, view, arm.body, R, Leaving));
  }

  lemma {:induction false} StmtsStay(F: Fun, view: View, ss: seq<Stmt>, T: Taint, R: set<Sym>, i: nat)
    requires Confined(F, T, R, i) && !PassesStmts(F, view, ss, R, Storing)
    ensures Stays(F, T, WalkStmts(F, view, ss, T), R, i, PassesStmts(F, view, ss, R, Leaving))
    decreases ss, 0
  {
    hide Confined, Stays, WalkStmt, PassesStmt;
    NothingStays(F, T, T, R, i);
    if ss != [] {
      StmtStays(F, view, ss[0], T, R, i);
      var A := WalkStmt(F, view, ss[0], T);
      var a := PassesStmt(F, view, ss[0], R, Leaving);
      StaysConfined(F, T, A, R, i, a);
      StmtsStay(F, view, ss[1..], A, R, i);
      StaysThen(F, T, A, WalkStmts(F, view, ss[1..], A), R, i, a, PassesStmts(F, view, ss[1..], R, Leaving));
    }
  }

  lemma {:induction false} StmtStays(F: Fun, view: View, s: Stmt, T: Taint, R: set<Sym>, i: nat)
    requires Confined(F, T, R, i) && !PassesStmt(F, view, s, R, Storing)
    ensures Stays(F, T, WalkStmt(F, view, s, T), R, i, PassesStmt(F, view, s, R, Leaving))
    decreases s, 1
  {
    hide Confined, Stays, Walk, Passes, Yields;
    NothingStays(F, T, T, R, i);
    match s
    case Let(x, None) => CarryStays(F, x, {}, T, R, i);
    case Let(x, Some(e)) =>
      WalkStays(F, view, e, MoveCtx, T, R, i);
      var (A, c) := Walk(F, view, e, MoveCtx, T);
      StaysConfined(F, T, A, R, i, Passes(F, view, e, R, Leaving));
      CarryStays(F, x, c, A, R, i);
      StaysThen(F, T, A, Carry(A, x, c), R, i, Passes(F, view, e, R, Leaving), false);
    case Assign(x, _, e) => AssignStays(F, view, x, e, T, R, i);
    case ExprStmt(e) => WalkStays(F, view, e, MoveCtx, T, R, i);
    case Return(None) =>
    case Return(Some(e)) =>
      WalkStays(F, view, e, MoveCtx, T, R, i);
      var (A, c) := Walk(F, view, e, MoveCtx, T);
      StaysConfined(F, T, A, R, i, Passes(F, view, e, R, Leaving));
      LeaveStays(F, A, c, R, i);
      StaysThen(F, T, A, MarkEscaped(A, c), R, i, Passes(F, view, e, R, Leaving), i in c);
      StaysMore(F, T, MarkEscaped(A, c), R, i, Passes(F, view, e, R, Leaving) || i in c,
                PassesStmt(F, view, s, R, Leaving));
  }

  lemma StaysMore(F: Fun, T: Taint, U: Taint, R: set<Sym>, i: nat, a: bool, b: bool)
    requires Stays(F, T, U, R, i, a) && (a ==> b)
    ensures Stays(F, T, U, R, i, b)
  {
  }

  lemma {:induction false} AssignStays(F: Fun, view: View, x: Sym, e: Expr, T: Taint, R: set<Sym>, i: nat)
    requires Confined(F, T, R, i) && !Passes(F, view, e, R, Storing) && (Yields(view, e, R) ==> x in R)
    ensures var (A, c) := Walk(F, view, e, MoveCtx, T);
      var B := FlagMutated(F, x, A);
      Stays(F, T, if c == {} then B else Carry(B, x, Carried(B, x) + c), R, i, Passes(F, view, e, R, Leaving))
    decreases e, 2
  {
    hide Confined, Stays, Walk, Passes, Yields, FlagMutated;
    WalkStays(F, view, e, MoveCtx, T, R, i);
    var (A, c) := Walk(F, view, e, MoveCtx, T);
    var a := Passes(F, view, e, R, Leaving);
    StaysConfined(F, T, A, R, i, a);
    FlagStays(F, x, ReadCtx, A, R, i);
    var B := FlagMutated(F, x, A);
    StaysThen(F, T, A, B, R, i, a, false);
    StaysConfined(F, T, B, R, i, a);
    CarriedWithin(F, B, x, R, i);
    CarryStays(F, x, Carried(B, x) + c, B, R, i);
    StaysThen(F, T, B, Carry(B, x, Carried(B, x) + c), R, i, a, false);
  }

  lemma CarriedWithin(F: Fun, T: Taint, s: Sym, R: set<Sym>, i: nat)
    requires Confined(F, T, R, i)
    ensures i in Carried(T, s) ==> s in R
  {
  }

  /** Main result: take any set of bindings that holds the parameter and is closed under stores. A
      parameter inferred to escape is handed out from that set: by a `return`, or as the value of
      the body. */
  lemma EscapeHasReason(F: Fun, view: View, i: nat, R: set<Sym>)
    requires i < |F.params| && |F.copyParams| == |F.params| && F.params[i] in R
    requires !Passes(F, view, F.body, R, Storing) && Inferred(F, view)[i] == Escape
    ensures Passes(F, view, F.body, R, Leaving) || Yields(view, F.body, R)
  {
    hide Walk, Passes, Yields;
    var T := Taint(seq(|F.params|, _ => UNUSED), map[], map[]);
    assert Confined(F, T, R, i);
    WalkStays(F, view, F.body, MoveCtx, T, R, i);
    var (U, c) := Walk(F, view, F.body, MoveCtx, T);
    assert Collect(F, view) == MarkEscaped(U, c);
    assert Escaped(MarkEscaped(U, c), i);
  }
}
