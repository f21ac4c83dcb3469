/** What an inferred contract says about a run. The facts are told on the tree: a parameter is
    moved, read or mutated exactly when it occurs in such a position. A run can tell a parameter
    without such an occurrence apart neither from one that cannot be consumed nor from one that
    cannot be written. */
module InferUses {
  import opened Wrappers
  import opened Hir
  import opened Semantics
  import opened Infer

  // ---------- positions on the tree ----------

  datatype Use = Reads | Moves | Mutates

  /** The contract an operation's operands are evaluated under. */
  function ContractOf(view: View, op: Op): Contract {
    if op.Call? then view(op.def) else []
  }

  /** A place lent to a parameter that writes through it. */
  predicate LentTo(op: Op, contract: Contract, i: nat, arg: Expr, x: Sym) {
    op.Call? && At(contract, i) == BorrowMut && PlaceBase(arg) == Some(x)
  }

  /** The binding occurs in the expression in a position of this use. */
  predicate Uses(view: View, e: Expr, ctx: Ctx, x: Sym, use: Use)
    decreases e, 1
  {
    match e
    case Lit(_) => false
    case Poison => false
    case Var(s) => s == x && use == (if ctx.MoveCtx? then Moves else Reads)
    case Field(b, _, copy) => Uses(view, b, if copy then ReadCtx else ctx, x, use)
    case Prim(op, args) => UsesArgs(view, op, ContractOf(view, op), args, 0, ctx, x, use)
    case Logic(_, l, r) => Uses(view, l, ReadCtx, x, use) || Uses(view, r, ReadCtx, x, use)
    case If(c, t, f, _) => Uses(view, c, ReadCtx, x, use) || Uses(view, t, ctx, x, use) || UsesOpt(view, f, ctx, x, use)
    case Block(stmts, tail) => UsesStmts(view, stmts, x, use) || UsesOpt(view, tail, ctx, x, use)
    case Match(s, arms, _) => Uses(view, s, ReadCtx, x, use) || UsesArms(view, arms, ctx, x, use)
    case ForRange(_, lo, hi, body) =>
      UsesOpt(view, lo, ReadCtx, x, use) || UsesOpt(view, hi, ReadCtx, x, use) || Uses(view, body, MoveCtx, x, use)
    case ForEach(_, iter, body) => Uses(view, iter, ReadCtx, x, use) || Uses(view, body, MoveCtx, x, use)
  }

  predicate UsesOpt(view: View, o: Option<Expr>, ctx: Ctx, x: Sym, use: Use)
    decreases o, 2
  {
    o.Some? && Uses(view, o.value, ctx, x, use)
  }

  predicate UsesArgs(view: View, op: Op, contract: Contract, args: seq<Expr>, i: nat, ctx: Ctx, x: Sym, use: Use)
    decreases args, 0
  {
    args != [] &&
    (Uses(view, args[0], OperandCtx(op, contract, i, ctx), x, use) ||
     (use.Mutates? && LentTo(op, contract, i, args[0], x)) ||
     UsesArgs(view, op, contract, args[1..], i + 1, ctx, x, use))
  }

  predicate UsesArms(view: View, arms: seq<Arm>, ctx: Ctx, x: Sym, use: Use)
    decreases arms, 0
  {
    arms != [] && (UsesArm(view, arms[0], ctx, x, use) || UsesArms(view, arms[1..], ctx, x, use))
  }

  predicate UsesArm(view: View, arm: Arm, ctx: Ctx, x: Sym, use: Use)
    decreases arm, 2
  {
    Uses(view, arm.body, ctx, x, use)
  }

  predicate UsesStmts(view: View, ss: seq<Stmt>, x: Sym, use: Use)
    decreases ss, 0
  {
    ss != [] && (UsesStmt(view, ss[0], x, use) || UsesStmts(view, ss[1..], x, use))
  }

  predicate UsesStmt(view: View, s: Stmt, x: Sym, use: Use)
    decreases s, 1
  {
    match s
    case Let(_, init) => UsesOpt(view, init, MoveCtx, x, use)
    case Assign(y, _, e) => Uses(view, e, MoveCtx, x, use) || (use.Mutates? && y == x)
    case ExprStmt(e) => Uses(view, e, MoveCtx, x, use)
    case Return(o) => UsesOpt(view, o, MoveCtx, x, use)
  }

  // ---------- the facts are the positions ----------

  predicate Has(f: ParamFacts, use: Use) {
    match use
    case Reads => f.read
    case Moves => f.moved
    case Mutates => f.mutated
  }

  /** From `T` to `U` parameter `i` gained the use exactly when `used`. */
  predicate Gained(T: Taint, U: Taint, i: nat, use: Use, used: bool) {
    i < |T.facts| == |U.facts| && (Has(U.facts[i], use) <==> Has(T.facts[i], use) || used)
  }

  lemma FlagGains(F: Fun, s: Sym, ctx: Ctx, T: Taint, x: Sym, i: nat, use: Use)
    requires Position(F.params, x) == Some(i) && i < |T.facts|
    ensures Gained(T, Flag(F, s, ctx, T), i, use, s == x && use == (if ctx.MoveCtx? then Moves else Reads))
  {
    OnePosition(F, s, x);
  }

  lemma MutatedGains(F: Fun, s: Sym, T: Taint, x: Sym, i: nat, use: Use)
    requires Position(F.params, x) == Some(i) && i < |T.facts|
    ensures Gained(T, FlagMutated(F, s, T), i, use, s == x && use.Mutates?)
  {
    OnePosition(F, s, x);
  }

  lemma OnePosition(F: Fun, s: Sym, x: Sym)
    requires Position(F.params, x).Some?
    ensures Position(F.params, s) == Position(F.params, x) ==> s == x
  {
  }

  lemma EscapedGains(T: Taint, c: Carriers, i: nat, use: Use)
    requires i < |T.facts|
    ensures Gained(T, MarkEscaped(T, c), i, use, false)
  {
  }

  lemma {:induction false} BindsGain(F: Fun, binds: seq<Option<Sym>>, n: nat, c: Carriers, T: Taint)
    requires n <= |binds|
    ensures CarryBinds(F, binds, n, c, T).facts == T.facts
  {
    if n > 0 {
      BindsGain(F, binds, n - 1, c, T);
    }
  }

  lemma PatGains(F: Fun, p: Pat, c: Carriers, T: Taint, i: nat, use: Use)
    requires i < |T.facts|
    ensures Gained(T, CarryPat(F, p, c, T), i, use, false)
  {
    if p.VariantPat? {
      BindsGain(F, p.binds, |p.binds|, c, T);
    }
  }

  /** The walk flags a parameter exactly for the positions it occurs in. */
  lemma {:induction false} WalkGains(F: Fun, view: View, e: Expr, ctx: Ctx, T: Taint, x: Sym, i: nat, use: Use)
    requires Position(F.params, x) == Some(i) && i < |T.facts|
    ensures Gained(T, Walk(F, view, e, ctx, T).0, i, use, Uses(view, e, ctx, x, use))
    decreases e, 1
  {
    match e
    case Lit(_) =>
    case Poison =>
    case Var(s) => FlagGains(F, s, ctx, T, x, i, use);
    case Field(b, _, copy) => WalkGains(F, view, b, if copy then ReadCtx else ctx, T, x, i, use);
    case Prim(op, args) =>
      var U := if op.Call? then T.(seen := T.seen[op.def := view(op.def)]) else T;
      ArgsGain(F, view, op, ContractOf(view, op), args, 0, ctx, U, x, i, use);
    case Logic(_, l, r) =>
      WalkGains(F, view, l, ReadCtx, T, x, i, use);
      WalkGains(F, view, r, ReadCtx, Walk(F, view, l, ReadCtx, T).0, x, i, use);
    case If(c, t, f, _) =>
      WalkGains(F, view, c, ReadCtx, T, x, i, use);
      var A := Walk(F, view, c, ReadCtx, T).0;
      WalkGains(F, view, t, ctx, A, x, i, use);
      if f.Some? {
        WalkGains(F, view, f.value, ctx, Walk(F, view, t, ctx, A).0, x, i, use);
      }
    case Block(stmts, tail) =>
      StmtsGain(F, view, stmts, T, x, i, use);
      if tail.Some? {
        WalkGains(F, view, tail.value, ctx, WalkStmts(F, view, stmts, T), x, i, use);
      }
    case Match(s, arms, _) =>
      WalkGains(F, view, s, ReadCtx, T, x, i, use);
      var (A, c) := Walk(F, view, s, ReadCtx, T);
      ArmsGain(F, view, arms, ctx, c, A, x, i, use);
    case ForRange(_, lo, hi, body) =>
      OptGains(F, view, lo, T, x, i, use);
      var A := WalkOpt(F, view, lo, T);
      OptGains(F, view, hi, A, x, i, use);
      WalkGains(F, view, body, MoveCtx, WalkOpt(F, view, hi, A), x, i, use);
    case ForEach(_, iter, body) =>
      WalkGains(F, view, iter, ReadCtx, T, x, i, use);
      WalkGains(F, view, body, MoveCtx, Walk(F, view, iter, ReadCtx, T).0, x, i, use);
  }

  lemma {:induction false} OptGains(F: Fun, view: View, o: Option<Expr>, T: Taint, x: Sym, i: nat, use: Use)
    requires Position(F.params, x) == Some(i) && i < |T.facts|
    ensures Gained(T, WalkOpt(F, view, o, T), i, use, UsesOpt(view, o, ReadCtx, x, use))
    decreases o, 2
  {
    if o.Some? {
      WalkGains(F, view, o.value, ReadCtx, T, x, i, use);
    }
  }

  lemma {:induction false} ArgsGain(F: Fun, view: View, op: Op, contract: Contract, args: seq<Expr>, k: nat, ctx: Ctx,
        T: Taint, x: Sym, i: nat, use: Use)
    requires Position(F.params, x) == Some(i) && i < |T.facts|
    ensures Gained(T, WalkArgs(F, view, op, contract, args, k, ctx, T).0, i, use,
              UsesArgs(view, op, contract, args, k, ctx, x, use))
    decreases args, 0
  {
    hide Walk, Uses, OperandCtx;
    if args != [] {
      var c := OperandCtx(op, contract, k, ctx);
      WalkGains(F, view, args[0], c, T, x, i, use);
      var A := Walk(F, view, args[0], c, T).0;
      var B := Lend(F, op, contract, k, args[0], A);
      if op.Call? && At(contract, k) == BorrowMut && PlaceBase(args[0]).Some? {
        MutatedGains(F, PlaceBase(args[0]).value, A, x, i, use);
      }
      ArgsGain(F, view, op, contract, args[1..], k + 1, ctx, B, x, i, use);
    }
  }

  lemma {:induction false} ArmsGain(F: Fun, view: View, arms: seq<Arm>, ctx: Ctx, c: Carriers, T: Taint, x: Sym, i: nat,
        use: Use)
    requires Position(F.params, x) == Some(i) && i < |T.facts|
    ensures Gained(T, WalkArms(F, view, arms, ctx, c, T).0, i, use, UsesArms(view, arms, ctx, x, use))
    decreases arms, 0
  {
    if arms != [] {
      ArmGains(F, view, arms[0], ctx, c, T, x, i, use);
      ArmsGain(F, view, arms[1..], ctx, c, WalkArm(F, view, arms[0], ctx, c, T).0, x, i, use);
    }
  }

  lemma {:induction false} ArmGains(F: Fun, view: View, arm: Arm, ctx: Ctx, c: Carriers, T: Taint, x: Sym, i: nat,
        use: Use)
    requires Position(F.params, x) == Some(i) && i < |T.facts|
    ensures Gained(T, WalkArm(F, view, arm, ctx, c, T).0, i, use, UsesArm(view, arm, ctx, x, use))
    decreases arm, 2
  {
    PatGains(F, arm.pat, c, T, i, use);
    WalkGains(F, view, arm.body, ctx, CarryPat(F, arm.pat, c, T), x, i, use);
  }

  lemma {:induction false} StmtsGain(F: Fun, view: View, ss: seq<Stmt>, T: Taint, x: Sym, i: nat, use: Use)
    requires Position(F.params, x) == Some(i) && i < |T.facts|
    ensures Gained(T, WalkStmts(F, view, ss, T), i, use, UsesStmts(view, ss, x, use))
    decreases ss, 0
  {
    if ss != [] {
      StmtGains(F, view, ss[0], T, x, i, use);
      StmtsGain(F, view, ss[1..], WalkStmt(F, view, ss[0], T), x, i, use);
    }
  }

  lemma {:induction false} StmtGains(F: Fun, view: View, s: Stmt, T: Taint, x: Sym, i: nat, use: Use)
    requires Position(F.params, x) == Some(i) && i < |T.facts|
    ensures Gained(T, WalkStmt(F, view, s, T), i, use, UsesStmt(view, s, x, use))
    decreases s, 1
  {
    match s
    case Let(_, None) =>
    case Let(_, Some(e)) => WalkGains(F, view, e, MoveCtx, T, x, i, use);
    case Assign(y, _, e) =>
      WalkGains(F, view, e, MoveCtx, T, x, i, use);
      MutatedGains(F, y, Walk(F, view, e, MoveCtx, T).0, x, i, use);
    case ExprStmt(e) => WalkGains(F, view, e, MoveCtx, T, x, i, use);
    case Return(None) =>
    case Return(Some(e)) =>
      WalkGains(F, view, e, MoveCtx, T, x, i, use);
      var (A, c) := Walk(F, view, e, MoveCtx, T);
      EscapedGains(A, c, i, use);
  }

  /** Main result on the facts: a parameter counts as moved, read or mutated exactly when it occurs
      in such a position of the body. */
  lemma FactsExact(F: Fun, view: View, i: nat, use: Use)
    requires i < |F.params| && Position(F.params, F.params[i]) == Some(i)
    ensures i < |Collect(F, view).facts|
    ensures Has(Collect(F, view).facts[i], use) <==> Uses(view, F.body, MoveCtx, F.params[i], use)
  {
    hide Walk, Uses;
    var T := Taint(seq(|F.params|, _ => UNUSED), map[], map[]);
    WalkGains(F, view, F.body, MoveCtx, T, F.params[i], i, use);
    var (U, c) := Walk(F, view, F.body, MoveCtx, T);
    EscapedGains(U, c, i, use);
  }
}
