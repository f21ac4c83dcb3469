/** The loan discipline of calls, the loop limitation, and single assignment. */
module EnforceLoans {
  import opened Wrappers
  import opened Hir
  import opened Semantics
  import opened Effects
  import opened Place
  import opened Enforce
  import opened EnforceSound

  // ---------- live loans ----------

  /** Loans over shared storage are all shared loans. */
  ghost predicate Compatible(loans: seq<Loan>) {
    forall i, j :: 0 <= i < j < |loans| && Overlaps(loans[i].place, loans[j].place) ==>
      loans[i].kind.Shared? && loans[j].kind.Shared?
  }

  lemma AfterArgCompatible(R: Rules, op: Op, i: nat, arg: Expr, W: Walk)
    requires Compatible(W.loans)
    ensures Compatible(AfterArg(R, op, i, arg, W).loans)
  {
    var r := AfterArg(R, op, i, arg, W);
    if r.loans != W.loans {
      var l := r.loans[|W.loans|];
      assert r.loans == W.loans + [l] && !Conflicts(W.loans, l.place, l.kind);
      forall a, b | 0 <= a < b < |r.loans| && Overlaps(r.loans[a].place, r.loans[b].place)
        ensures r.loans[a].kind.Shared? && r.loans[b].kind.Shared?
      {
        assert r.loans[a] in W.loans;
      }
    }
  }

  /** Loans stay pairwise compatible while the arguments of a call are walked. */
  lemma {:induction false} ArgsCompatible(R: Rules, op: Op, args: seq<Expr>, i: nat, ctx: Ctx, W: Walk)
    requires Compatible(W.loans)
    ensures Compatible(CheckArgs(R, op, args, i, ctx, W).loans)
    decreases args
  {
    if args != [] {
      var A := Check(R, args[0], ArgCtx(R.contracts, op, i, ctx), W);
      AfterArgCompatible(R, op, i, args[0], A);
      ArgsCompatible(R, op, args[1..], i + 1, ctx, AfterArg(R, op, i, args[0], A));
    }
  }

  // ---------- two arguments of one call ----------

  function KindOf(b: Behavior): LoanKind {
    if b.BorrowMut? then Mut else Shared
  }

  /** The argument in position `i` is a place the call moves out of. */
  predicate MovesPlace(R: Rules, op: Op, i: nat, arg: Expr) {
    op.Call? && Consumes(ContractAt(R.contracts, op.def, i)) && PlaceBase(arg).Some? && !CopyPlace(R, arg)
  }

  /** The argument does not touch storage the loan covers, unless both only observe it. */
  predicate Excludes(R: Rules, op: Op, i: nat, arg: Expr, l: Loan) {
    var exclusive := l.kind.Mut? || (op.Call? && ContractAt(R.contracts, op.def, i).BorrowMut?);
    (Borrows(R.contracts, op, i, arg) && exclusive) || MovesPlace(R, op, i, arg) ==>
      !Overlaps(l.place, PlaceOf(arg).value)
  }

  lemma ArgExcludes(R: Rules, op: Op, i: nat, arg: Expr, ctx: Ctx, W: Walk, l: Loan)
    requires l in W.loans && op.Call?
    requires var A := Check(R, arg, ArgCtx(R.contracts, op, i, ctx), W);
      |AfterArg(R, op, i, arg, A).diags| == |W.diags|
    ensures Excludes(R, op, i, arg, l)
  {
    var c := ArgCtx(R.contracts, op, i, ctx);
    var A := Check(R, arg, c, W);
    AfterArgGrows(R, op, i, arg, A);
    if MovesPlace(R, op, i, arg) {
      MovedPlaceFree(R, arg, c, W);
    }
  }

  /** An accepted move is out of a place no live loan overlaps. */
  lemma MovedPlaceFree(R: Rules, e: Expr, ctx: Ctx, W: Walk)
    requires ctx.MoveCtx? && !CopyPlace(R, e) && PlaceOf(e).Some? && |Check(R, e, ctx, W).diags| == |W.diags|
    ensures !Loaned(W.loans, PlaceOf(e).value)
  {
    var V := EnterExpr(R, e, ctx, W);
    assert |V.diags| <= |Check(R, e, ctx, W).diags| by {
      if e.Field? {
        assert Check(R, e, ctx, W) == Check(R, e.base, if e.copy then ReadCtx else ctx, V);
      }
    }
  }

  /** Every argument after a loan was taken excludes that loan. */
  lemma {:induction false} LoanExcludes(R: Rules, op: Op, args: seq<Expr>, i: nat, ctx: Ctx, W: Walk, l: Loan, k: nat)
    requires op.Call? && l in W.loans && k < |args|
    requires |CheckArgs(R, op, args, i, ctx, W).diags| == |W.diags|
    ensures Excludes(R, op, i + k, args[k], l)
    decreases args
  {
    hide Check, AfterArg, Excludes;
    var A := Check(R, args[0], ArgCtx(R.contracts, op, i, ctx), W);
    var B := AfterArg(R, op, i, args[0], A);
    AfterArgGrows(R, op, i, args[0], A);
    if k == 0 {
      ArgExcludes(R, op, i, args[0], ctx, W, l);
    } else {
      AfterArgAdds(R, op, i, args[0], A);
      LoanExcludes(R, op, args[1..], i + 1, ctx, B, l, k - 1);
    }
  }

  lemma AfterArgAdds(R: Rules, op: Op, i: nat, arg: Expr, W: Walk)
    ensures W.loans <= AfterArg(R, op, i, arg, W).loans
  {
  }

  lemma BorrowLeavesLoan(R: Rules, op: Op, i: nat, arg: Expr, W: Walk)
    requires Borrows(R.contracts, op, i, arg) && |AfterArg(R, op, i, arg, W).diags| == |W.diags|
    ensures Loan(PlaceOf(arg).value, KindOf(ContractAt(R.contracts, op.def, i))) in AfterArg(R, op, i, arg, W).loans
  {
    var l := Loan(PlaceOf(arg).value, KindOf(ContractAt(R.contracts, op.def, i)));
    assert AfterArg(R, op, i, arg, W).loans[|W.loans|] == l;
  }

  /** In an accepted call no place the callee may write through shares storage with a place
      borrowed or moved by another argument, when the borrow comes first. */
  lemma {:induction false} CallExclusive(R: Rules, op: Op, args: seq<Expr>, i: nat, ctx: Ctx, W: Walk, a: nat, b: nat)
    requires op.Call? && a < b < |args| && Borrows(R.contracts, op, i + a, args[a])
    requires |CheckArgs(R, op, args, i, ctx, W).diags| == |W.diags|
    ensures Excludes(R, op, i + b, args[b],
      Loan(PlaceOf(args[a]).value, KindOf(ContractAt(R.contracts, op.def, i + a))))
    decreases args
  {
    hide Excludes, AfterArg, Check;
    var A := Check(R, args[0], ArgCtx(R.contracts, op, i, ctx), W);
    var B := AfterArg(R, op, i, args[0], A);
    AfterArgGrows(R, op, i, args[0], A);
    if a == 0 {
      var l := Loan(PlaceOf(args[0]).value, KindOf(ContractAt(R.contracts, op.def, i)));
      BorrowLeavesLoan(R, op, i, args[0], A);
      LoanExcludes(R, op, args[1..], i + 1, ctx, B, l, b - 1);
    } else {
      CallExclusive(R, op, args[1..], i + 1, ctx, B, a - 1, b - 1);
    }
  }

  // ---------- moves stay visible ----------

  /** The binding's value moved away on some path. */
  predicate Gone(st: States, s: Sym) {
    s in st && !st[s].moved.MovedNo?
  }

  lemma MergeGone(a: States, b: States, s: Sym)
    requires Gone(a, s) && Gone(b, s)
    ensures Gone(Merge(a, b), s)
  {
  }

  /** A move is only undone by writing the binding again. */
  lemma {:induction false} GoneStays(R: Rules, e: Expr, ctx: Ctx, W: Walk, s: Sym)
    requires Gone(W.state, s) && s !in Writes(R.contracts, e)
    ensures Gone(Check(R, e, ctx, W).state, s)
    decreases e, 2
  {
    hide Gone, EnterExpr, Merge, CanComplete;
    var V := EnterExpr(R, e, ctx, W);
    EnterKeeps(R, e, ctx, W);
    match e
    case Lit(_) =>
    case Poison =>
    case Var(x) => UseGone(R, x, ctx, V, s);
    case Field(b, _, copy) => GoneStays(R, b, if copy then ReadCtx else ctx, V, s);
    case Prim(op, args) => ArgsGone(R, op, args, 0, ctx, V, s);
    case Logic(_, l, r) =>
      GoneStays(R, l, ReadCtx, V, s);
      var A := Check(R, l, ReadCtx, V);
      GoneStays(R, r, ReadCtx, A, s);
      MergeGone(A.state, Check(R, r, ReadCtx, A).state, s);
    case If(_, _, _, _) => IfGone(R, e, ctx, V, s);
    case Block(stmts, tail) =>
      StmtsGone(R, stmts, V, s);
      if tail.Some? {
        GoneStays(R, tail.value, ctx, CheckStmts(R, stmts, V), s);
      }
    case Match(c, arms, _) =>
      GoneStays(R, c, ReadCtx, V, s);
      var A := Check(R, c, ReadCtx, V);
      ArmsGone(R, arms, ctx, A.state, None, A, s);
    case ForRange(x, lo, hi, body) =>
      OptGone(R, lo, V, s);
      OptGone(R, hi, CheckOpt(R, lo, V), s);
      LoopGone(R, x, body, CheckOpt(R, hi, CheckOpt(R, lo, V)), s);
    case ForEach(x, iter, body) =>
      GoneStays(R, iter, ReadCtx, V, s);
      LoopGone(R, x, body, Check(R, iter, ReadCtx, V), s);
  }

  lemma UseGone(R: Rules, x: Sym, ctx: Ctx, W: Walk, s: Sym)
    requires Gone(W.state, s)
    ensures Gone(UseVar(R, x, ctx, W).state, s)
  {
  }

  lemma {:induction false} OptGone(R: Rules, o: Option<Expr>, W: Walk, s: Sym)
    requires Gone(W.state, s) && s !in WritesOpt(R.contracts, o)
    ensures Gone(CheckOpt(R, o, W).state, s)
    decreases o, 3
  {
    if o.Some? {
      GoneStays(R, o.value, ReadCtx, W, s);
    }
  }

  lemma {:induction false} ArgsGone(R: Rules, op: Op, args: seq<Expr>, i: nat, ctx: Ctx, W: Walk, s: Sym)
    requires Gone(W.state, s) && s !in WritesAll(R.contracts, args)
    ensures Gone(CheckArgs(R, op, args, i, ctx, W).state, s)
    decreases args, 0
  {
    if args != [] {
      var A := Check(R, args[0], ArgCtx(R.contracts, op, i, ctx), W);
      GoneStays(R, args[0], ArgCtx(R.contracts, op, i, ctx), W, s);
      AfterArgGrows(R, op, i, args[0], A);
      ArgsGone(R, op, args[1..], i + 1, ctx, AfterArg(R, op, i, args[0], A), s);
    }
  }

  lemma {:induction false} IfGone(R: Rules, e: Expr, ctx: Ctx, W: Walk, s: Sym)
    requires e.If? && Gone(W.state, s) && s !in Writes(R.contracts, e)
    ensures Gone(CheckIf(R, e, ctx, W).state, s)
    decreases e, 1
  {
    hide Gone, Merge, CanComplete;
    var A := Check(R, e.cond, ReadCtx, W);
    GoneStays(R, e.cond, ReadCtx, W, s);
    var B := Check(R, e.thn, ctx, A);
    GoneStays(R, e.thn, ctx, A, s);
    var C := if e.els.None? then B.(state := A.state) else Check(R, e.els.value, ctx, B.(state := A.state));
    if e.els.Some? {
      GoneStays(R, e.els.value, ctx, B.(state := A.state), s);
    }
    MergeGone(C.state, B.state, s);
  }

  lemma {:induction false} BindGone(st: States, binds: seq<Option<Sym>>, n: nat, s: Sym)
    requires n <= |binds| && Gone(st, s) && s !in BindSet(binds)
    ensures Gone(BindAll(st, binds, n), s)
  {
    if n > 0 {
      BindGone(st, binds, n - 1, s);
    }
  }

  lemma {:induction false} ArmsGone(R: Rules, arms: seq<Arm>, ctx: Ctx, saved: States, joined: Option<States>, W: Walk,
        s: Sym)
    requires Gone(saved, s) && s !in WritesArms(R.contracts, arms)
    requires joined.Some? ==> saved.Keys <= joined.value.Keys && Gone(joined.value, s)
    ensures var j := CheckArms(R, arms, ctx, saved, joined, W).0; j.Some? ==> Gone(j.value, s)
    decreases arms, 0
  {
    if arms != [] {
      var A := CheckArm(R, arms[0], ctx, W.(state := saved));
      ArmGone(R, arms[0], ctx, W.(state := saved), s);
      var j := if !ArmCompletes(arms[0]) then joined
               else if joined.None? then Some(A.state)
               else Some(Merge(joined.value, A.state));
      if joined.Some? {
        MergeGone(joined.value, A.state, s);
      }
      ArmsGone(R, arms[1..], ctx, saved, j, A, s);
    }
  }

  lemma {:induction false} ArmGone(R: Rules, arm: Arm, ctx: Ctx, W: Walk, s: Sym)
    requires Gone(W.state, s) && s !in WritesArm(R.contracts, arm)
    ensures Gone(CheckArm(R, arm, ctx, W).state, s)
    decreases arm, 3
  {
    if arm.pat.VariantPat? {
      BindGone(W.state, arm.pat.binds, |arm.pat.binds|, s);
    }
    GoneStays(R, arm.body, ctx, W.(state := BindStates(W.state, arm.pat)), s);
  }

  lemma {:induction false} LoopGone(R: Rules, x: Sym, body: Expr, W: Walk, s: Sym)
    requires s != x && Gone(W.state, s) && s !in Writes(R.contracts, body)
    ensures Gone(CheckLoop(R, x, body, W).state, s)
    decreases body, 3
  {
    var A := Check(R, body, MoveCtx, SetState(W, x, READY));
    GoneStays(R, body, MoveCtx, SetState(W, x, READY), s);
    MergeGone(A.state - {x}, W.state, s);
  }

  lemma {:induction false} StmtsGone(R: Rules, ss: seq<Stmt>, W: Walk, s: Sym)
    requires Gone(W.state, s) && s !in WritesStmts(R.contracts, ss)
    ensures Gone(CheckStmts(R, ss, W).state, s)
    decreases ss, 0
  {
    if ss != [] {
      StmtGone(R, ss[0], W, s);
      StmtsGone(R, ss[1..], CheckStmt(R, ss[0], W), s);
    }
  }

  lemma {:induction false} StmtGone(R: Rules, t: Stmt, W: Walk, s: Sym)
    requires Gone(W.state, s) && s !in WritesStmt(R.contracts, t)
    ensures Gone(CheckStmt(R, t, W).state, s)
    decreases t, 1
  {
    match t
    case Let(_, None) =>
    case Let(_, Some(e)) => GoneStays(R, e, MoveCtx, W, s);
    case Assign(_, _, e) => GoneStays(R, e, MoveCtx, W, s);
    case ExprStmt(e) => GoneStays(R, e, MoveCtx, W, s);
    case Return(None) =>
    case Return(Some(e)) => GoneStays(R, e, MoveCtx, W, s);
  }

  /** A place expression whose move takes the value of its root binding. */
  predicate MovesRoot(R: Rules, e: Expr) {
    match e
    case Var(s) => s !in R.copies
    case Field(b, _, copy) => !copy && MovesRoot(R, b)
    case _ => false
  }

  lemma {:induction false} MoveEmptiesRoot(R: Rules, e: Expr, W: Walk)
    requires MovesRoot(R, e)
    ensures PlaceBase(e).Some? && Gone(Check(R, e, MoveCtx, W).state, PlaceBase(e).value)
  {
    if e.Field? {
      MoveEmptiesRoot(R, e.base, EnterExpr(R, e, MoveCtx, W));
    }
  }

  /** Using a place whose root moved is always reported. */
  lemma {:induction false} GoneReported(R: Rules, e: Expr, ctx: Ctx, W: Walk)
    requires PlaceBase(e).Some? && Gone(W.state, PlaceBase(e).value)
    ensures |Check(R, e, ctx, W).diags| > |W.diags|
  {
    EnterKeeps(R, e, ctx, W);
    if e.Field? {
      GoneReported(R, e.base, if e.copy then ReadCtx else ctx, EnterExpr(R, e, ctx, W));
    }
  }

  /** In an accepted call, an argument place whose root an earlier argument moved is only
      possible when an argument in between wrote that root again. */
  lemma {:induction false} MovedThenUsed(R: Rules, op: Op, args: seq<Expr>, i: nat, ctx: Ctx, W: Walk, a: nat, b: nat)
    requires op.Call? && a < b < |args| && Consumes(ContractAt(R.contracts, op.def, i + a)) && MovesRoot(R, args[a])
    requires |CheckArgs(R, op, args, i, ctx, W).diags| == |W.diags|
    requires PlaceBase(args[b]).Some? && PlaceBase(args[b]) == PlaceBase(args[a])
    ensures PlaceBase(args[a]).value in WritesAll(R.contracts, args[a + 1..b])
    decreases args
  {
    hide Gone, AfterArg, Check;
    var c := ArgCtx(R.contracts, op, i, ctx);
    var A := Check(R, args[0], c, W);
    var B := AfterArg(R, op, i, args[0], A);
    AfterArgGrows(R, op, i, args[0], A);
    if a == 0 {
      MoveEmptiesRoot(R, args[0], W);
      var s := PlaceBase(args[0]).value;
      assert args[1..][b - 1] == args[b] && args[1..][..b - 1] == args[1..b];
      GoneUntil(R, op, args[1..], i + 1, ctx, B, s, b - 1);
    } else {
      assert args[1..][a..b - 1] == args[a + 1..b];
      MovedThenUsed(R, op, args[1..], i + 1, ctx, B, a - 1, b - 1);
    }
  }

  lemma {:induction false} GoneUntil(R: Rules, op: Op, args: seq<Expr>, i: nat, ctx: Ctx, W: Walk, s: Sym, b: nat)
    requires b < |args| && Gone(W.state, s) && PlaceBase(args[b]) == Some(s)
    requires |CheckArgs(R, op, args, i, ctx, W).diags| == |W.diags|
    ensures s in WritesAll(R.contracts, args[..b])
    decreases args
  {
    hide Gone, AfterArg, Check;
    var c := ArgCtx(R.contracts, op, i, ctx);
    var A := Check(R, args[0], c, W);
    var B := AfterArg(R, op, i, args[0], A);
    AfterArgGrows(R, op, i, args[0], A);
    if b == 0 {
      GoneReported(R, args[0], c, W);
    } else if s !in Writes(R.contracts, args[0]) {
      GoneStays(R, args[0], c, W, s);
      GoneUntil(R, op, args[1..], i + 1, ctx, B, s, b - 1);
      assert args[..b][1..] == args[1..][..b - 1];
    }
  }
}
