/** When the enforcement walk reports a loan: told on the arguments of a call and on the tree,
    without the walk's own loan stack. */
module EnforceCalls {
  import opened Wrappers
  import opened Hir
  import opened Semantics
  import opened Place
  import opened Enforce
  import opened EnforceSound
  import opened EnforceLoans

  predicate IsLoanDiag(d: Diag) {
    d.MutableBorrowOfImmutable? || d.BorrowConflict? || d.MoveWhileBorrowed?
  }

  /** Some loan was refused so far. */
  predicate Refused(W: Walk) {
    exists d <- W.diags :: IsLoanDiag(d)
  }

  // ---------- the rules of loans ----------

  predicate Untouched(held: seq<Loan>, p: Path) {
    forall l <- held :: !Overlaps(l.place, p)
  }

  /** Another loan of the place goes together with the loans held. */
  predicate Shareable(held: seq<Loan>, p: Path, kind: LoanKind) {
    forall l <- held :: Overlaps(l.place, p) ==> l.kind.Shared? && kind.Shared?
  }

  /** The loan an argument takes until the call returns. */
  function Lent(R: Rules, op: Op, i: nat, arg: Expr): seq<Loan> {
    if Borrows(R.contracts, op, i, arg) then [Loan(PlaceOf(arg).value, KindOf(ContractAt(R.contracts, op.def, i)))]
    else []
  }

  predicate LentFree(R: Rules, op: Op, i: nat, arg: Expr, held: seq<Loan>) {
    Borrows(R.contracts, op, i, arg) ==>
      Shareable(held, PlaceOf(arg).value, KindOf(ContractAt(R.contracts, op.def, i))) && MutPlace(R, op, i, arg)
  }

  /** A place the callee may write through is `mut`. */
  predicate MutPlace(R: Rules, op: Op, i: nat, arg: Expr) {
    op.Call? && ContractAt(R.contracts, op.def, i).BorrowMut? && PlaceBase(arg).Some? ==>
      PlaceBase(arg).value in R.muts
  }

  /** No part of the expression moves out of or borrows a place against the loans held around it. */
  predicate LoanFree(R: Rules, e: Expr, ctx: Ctx, held: seq<Loan>)
    decreases e, 2
  {
    (ctx.MoveCtx? && !CopyPlace(R, e) && PlaceOf(e).Some? ==> Untouched(held, PlaceOf(e).value)) &&
    match e
    case Lit(_) => true
    case Poison => true
    case Var(_) => true
    case Field(b, _, copy) => LoanFree(R, b, if copy then ReadCtx else ctx, held)
    case Prim(op, args) => ArgsFree(R, op, args, 0, ctx, held)
    case Logic(_, l, r) => LoanFree(R, l, ReadCtx, held) && LoanFree(R, r, ReadCtx, held)
    case If(c, t, f, _) => LoanFree(R, c, ReadCtx, held) && LoanFree(R, t, ctx, held) && OptFree(R, f, ctx, held)
    case Block(stmts, tail) => StmtsFree(R, stmts, held) && OptFree(R, tail, ctx, held)
    case Match(s, arms, _) => LoanFree(R, s, ReadCtx, held) && ArmsFree(R, arms, ctx, held)
    case ForRange(_, lo, hi, body) =>
      OptFree(R, lo, ReadCtx, held) && OptFree(R, hi, ReadCtx, held) && LoanFree(R, body, MoveCtx, held)
    case ForEach(_, iter, body) => LoanFree(R, iter, ReadCtx, held) && LoanFree(R, body, MoveCtx, held)
  }

  predicate OptFree(R: Rules, o: Option<Expr>, ctx: Ctx, held: seq<Loan>)
    decreases o, 3
  {
    o.Some? ==> LoanFree(R, o.value, ctx, held)
  }

  /** Each argument is evaluated under the loans of the arguments before it. */
  predicate ArgsFree(R: Rules, op: Op, args: seq<Expr>, i: nat, ctx: Ctx, held: seq<Loan>)
    decreases args, 0
  {
    args == [] ||
    (LoanFree(R, args[0], ArgCtx(R.contracts, op, i, ctx), held) && LentFree(R, op, i, args[0], held) &&
     ArgsFree(R, op, args[1..], i + 1, ctx, held + Lent(R, op, i, args[0])))
  }

  predicate ArmsFree(R: Rules, arms: seq<Arm>, ctx: Ctx, held: seq<Loan>)
    decreases arms, 0
  {
    arms == [] || (ArmFree(R, arms[0], ctx, held) && ArmsFree(R, arms[1..], ctx, held))
  }

  predicate ArmFree(R: Rules, arm: Arm, ctx: Ctx, held: seq<Loan>)
    decreases arm, 3
  {
    LoanFree(R, arm.body, ctx, held)
  }

  predicate StmtsFree(R: Rules, ss: seq<Stmt>, held: seq<Loan>)
    decreases ss, 0
  {
    ss == [] || (StmtFree(R, ss[0], held) && StmtsFree(R, ss[1..], held))
  }

  predicate StmtFree(R: Rules, s: Stmt, held: seq<Loan>)
    decreases s, 1
  {
    match s
    case Let(_, init) => OptFree(R, init, MoveCtx, held)
    case Assign(_, _, e) => LoanFree(R, e, MoveCtx, held)
    case ExprStmt(e) => LoanFree(R, e, MoveCtx, held)
    case Return(o) => OptFree(R, o, MoveCtx, held)
  }

  // ---------- the walk reports exactly the broken rules ----------

  /** From `W` to `r` some loan was refused exactly when the rules were broken. */
  predicate Refuses(W: Walk, r: Walk, free: bool) {
    (Refused(r) <==> Refused(W) || !free) && r.loans == W.loans
  }

  lemma RefusesThen(W: Walk, A: Walk, B: Walk, a: bool, b: bool)
    requires Refuses(W, A, a) && Refuses(A, B, b)
    ensures Refuses(W, B, a && b)
  {
  }

  lemma RefusesAs(W: Walk, V: Walk, r: Walk, s: Walk, free: bool)
    requires Refuses(V, r, free) && V.diags == W.diags && s.diags == r.diags && V.loans == W.loans && s.loans == r.loans
    ensures Refuses(W, s, free)
  {
  }

  lemma ReportRefuses(W: Walk, d: Diag)
    ensures Refuses(W, Enforce.Report(W, d), !IsLoanDiag(d))
  {
    var r := Enforce.Report(W, d);
    assert r.diags[|W.diags|] == d;
    assert forall c <- W.diags :: c in r.diags;
  }

  lemma EnterRefuses(R: Rules, e: Expr, ctx: Ctx, W: Walk)
    ensures Refuses(W, EnterExpr(R, e, ctx, W),
              ctx.MoveCtx? && !CopyPlace(R, e) && PlaceOf(e).Some? ==> Untouched(W.loans, PlaceOf(e).value))
  {
    hide Refused;
    if PlaceOf(e).Some? {
      ReportRefuses(W, MoveWhileBorrowed(PlaceOf(e).value));
    }
  }

  lemma UseRefuses(R: Rules, s: Sym, ctx: Ctx, W: Walk)
    ensures Refuses(W, UseVar(R, s, ctx, W), true)
  {
    hide Refused;
    var b := StateOf(W.state, s);
    var A := SetState(W, s, b);
    RefusesAs(W, W, W, A, true);
    var B := if b.init.InitYes? then A else Enforce.Report(A, Uninitialized(s));
    ReportRefuses(A, Uninitialized(s));
    ReportRefuses(B, UseAfterMove(s));
    var C := if b.moved.MovedNo? then B else Enforce.Report(B, UseAfterMove(s));
    SameRefused(C, UseVar(R, s, ctx, W));
  }

  lemma SameRefused(W: Walk, V: Walk)
    requires W.diags == V.diags
    ensures Refused(W) == Refused(V)
  {
  }

  lemma AssignRefuses(R: Rules, x: Sym, path: seq<nat>, W: Walk)
    ensures Refuses(W, AssignPlace(R, x, path, W), true)
  {
    hide Refused, UseVar;
    ReportRefuses(W, ImmutableAssignment(x));
    var first := path == [] && StateOf(W.state, x) == FRESH;
    var A := if x !in R.muts && !first then Enforce.Report(W, ImmutableAssignment(x)) else W;
    UseRefuses(R, x, ReadCtx, A);
    SameRefused(if path == [] then A else UseVar(R, x, ReadCtx, A), AssignPlace(R, x, path, W));
  }

  /** An argument's loan is granted exactly when the rules allow it. */
  lemma AfterArgRefuses(R: Rules, op: Op, i: nat, arg: Expr, W: Walk)
    ensures var r := AfterArg(R, op, i, arg, W);
      && (Refused(r) <==> Refused(W) || !LentFree(R, op, i, arg, W.loans))
      && (LentFree(R, op, i, arg, W.loans) ==> r.loans == W.loans + Lent(R, op, i, arg))
  {
    hide Refused;
    if Borrows(R.contracts, op, i, arg) {
      var p := PlaceOf(arg).value;
      var mut := ContractAt(R.contracts, op.def, i).BorrowMut?;
      ReportRefuses(W, MutableBorrowOfImmutable(p));
      var A := if mut && p.base !in R.muts then Enforce.Report(W, MutableBorrowOfImmutable(p)) else W;
      ReportRefuses(A, BorrowConflict(p));
      var kind := KindOf(ContractAt(R.contracts, op.def, i));
      assert AfterArg(R, op, i, arg, W) == AddLoan(p, kind, A);
      SameRefused(A, A.(loans := A.loans + [Loan(p, kind)]));
    } else {
      assert AfterArg(R, op, i, arg, W) == W;
    }
  }

  /** Main result on loans: the walk refuses a loan or a move exactly when the expression breaks
      the rules under the loans held around it. */
  lemma {:induction false} LoansExact(R: Rules, e: Expr, ctx: Ctx, W: Walk)
    ensures Refuses(W, Check(R, e, ctx, W), LoanFree(R, e, ctx, W.loans))
    decreases e, 2
  {
    hide Refuses, EnterExpr, Untouched, CanComplete, Merge;
    EnterRefuses(R, e, ctx, W);
    var V := EnterExpr(R, e, ctx, W);
    var r := Check(R, e, ctx, W);
    var here := ctx.MoveCtx? && !CopyPlace(R, e) && PlaceOf(e).Some? ==> Untouched(W.loans, PlaceOf(e).value);
    match e
    case Lit(_) =>
    case Poison =>
    case Var(s) =>
      UseRefuses(R, s, ctx, V);
      RefusesThen(W, V, r, here, true);
    case Field(b, _, copy) =>
      LoansExact(R, b, if copy then ReadCtx else ctx, V);
      RefusesThen(W, V, r, here, LoanFree(R, b, if copy then ReadCtx else ctx, V.loans));
    case Prim(op, args) =>
      ArgsExact(R, op, args, 0, ctx, V);
      RefusesThen(W, V, r, here, ArgsFree(R, op, args, 0, ctx, V.loans));
    case Logic(_, _, _) => LogicExact(R, e, ctx, W, V, here);
    case If(_, _, _, _) =>
      IfExact(R, e, ctx, V);
      RefusesThen(W, V, r, here, LoanFree(R, e.cond, ReadCtx, V.loans) && LoanFree(R, e.thn, ctx, V.loans) &&
        OptFree(R, e.els, ctx, V.loans));
    case Block(stmts, tail) =>
      StmtsExact(R, stmts, V);
      var A := CheckStmts(R, stmts, V);
      OptExact(R, tail, ctx, A);
      RefusesThen(V, A, r, StmtsFree(R, stmts, V.loans), OptFree(R, tail, ctx, V.loans));
      RefusesThen(W, V, r, here, StmtsFree(R, stmts, V.loans) && OptFree(R, tail, ctx, V.loans));
    case Match(_, _, _) => MatchExact(R, e, ctx, W, V, here);
    case ForRange(y, lo, hi, body) =>
      BoundExact(R, lo, V);
      var A := CheckOpt(R, lo, V);
      BoundExact(R, hi, A);
      var B := CheckOpt(R, hi, A);
      RefusesThen(V, A, B, OptFree(R, lo, ReadCtx, V.loans), OptFree(R, hi, ReadCtx, V.loans));
      LoopExact(R, y, body, B);
      RefusesThen(V, B, r, OptFree(R, lo, ReadCtx, V.loans) && OptFree(R, hi, ReadCtx, V.loans),
                  LoanFree(R, body, MoveCtx, V.loans));
      RefusesThen(W, V, r, here, OptFree(R, lo, ReadCtx, V.loans) && OptFree(R, hi, ReadCtx, V.loans) &&
        LoanFree(R, body, MoveCtx, V.loans));
    case ForEach(y, iter, body) =>
      LoansExact(R, iter, ReadCtx, V);
      var A := Check(R, iter, ReadCtx, V);
      LoopExact(R, y, body, A);
      RefusesThen(V, A, r, LoanFree(R, iter, ReadCtx, V.loans), LoanFree(R, body, MoveCtx, V.loans));
      RefusesThen(W, V, r, here, LoanFree(R, iter, ReadCtx, V.loans) && LoanFree(R, body, MoveCtx, V.loans));
  }

  lemma {:induction false} OptExact(R: Rules, o: Option<Expr>, ctx: Ctx, W: Walk)
    ensures Refuses(W, if o.None? then W else Check(R, o.value, ctx, W), OptFree(R, o, ctx, W.loans))
    decreases o, 3
  {
    hide Check, LoanFree, Refused;
    if o.Some? {
      LoansExact(R, o.value, ctx, W);
    }
  }

  lemma {:induction false} BoundExact(R: Rules, o: Option<Expr>, W: Walk)
    ensures Refuses(W, CheckOpt(R, o, W), OptFree(R, o, ReadCtx, W.loans))
    decreases o, 3
  {
    hide Check, LoanFree, Refused;
    if o.Some? {
      LoansExact(R, o.value, ReadCtx, W);
    }
  }

  lemma {:induction false} ArgsExact(R: Rules, op: Op, args: seq<Expr>, i: nat, ctx: Ctx, W: Walk)
    ensures Refuses(W, CheckArgs(R, op, args, i, ctx, W).(loans := W.loans), ArgsFree(R, op, args, i, ctx, W.loans))
    decreases args, 0
  {
    hide Refused, Check, LoanFree, AfterArg, LentFree, Lent, ArgCtx;
    if args == [] {
      SameRefused(W, W.(loans := W.loans));
    } else {
      var c := ArgCtx(R.contracts, op, i, ctx);
      LoansExact(R, args[0], c, W);
      var A := Check(R, args[0], c, W);
      AfterArgRefuses(R, op, i, args[0], A);
      var B := AfterArg(R, op, i, args[0], A);
      ArgsExact(R, op, args[1..], i + 1, ctx, B);
      var r := CheckArgs(R, op, args[1..], i + 1, ctx, B);
      SameRefused(r, r.(loans := B.loans));
      SameRefused(r, r.(loans := W.loans));
    }
  }

  lemma {:induction false} LogicExact(R: Rules, e: Expr, ctx: Ctx, W: Walk, V: Walk, here: bool)
    requires e.Logic? && V == EnterExpr(R, e, ctx, W) && Refuses(W, V, here)
    ensures Refuses(W, Check(R, e, ctx, W),
              here && LoanFree(R, e.lhs, ReadCtx, W.loans) && LoanFree(R, e.rhs, ReadCtx, W.loans))
    decreases e, 1
  {
    hide Refuses, EnterExpr, LoanFree, CanComplete, Merge;
    LoansExact(R, e.lhs, ReadCtx, V);
    var A := Check(R, e.lhs, ReadCtx, V);
    LoansExact(R, e.rhs, ReadCtx, A);
    var B := Check(R, e.rhs, ReadCtx, A);
    RefusesThen(V, A, B, LoanFree(R, e.lhs, ReadCtx, W.loans), LoanFree(R, e.rhs, ReadCtx, W.loans));
    RefusesThen(W, V, B, here, LoanFree(R, e.lhs, ReadCtx, W.loans) && LoanFree(R, e.rhs, ReadCtx, W.loans));
    RefusesAs(W, W, B, Check(R, e, ctx, W),
              here && LoanFree(R, e.lhs, ReadCtx, W.loans) && LoanFree(R, e.rhs, ReadCtx, W.loans));
  }

  lemma {:induction false} IfExact(R: Rules, e: Expr, ctx: Ctx, W: Walk)
    requires e.If?
    ensures Refuses(W, CheckIf(R, e, ctx, W), LoanFree(R, e.cond, ReadCtx, W.loans) &&
              LoanFree(R, e.thn, ctx, W.loans) && OptFree(R, e.els, ctx, W.loans))
    decreases e, 1
  {
    hide Refuses, LoanFree, OptFree, CanComplete, OptCompletes, Merge;
    LoansExact(R, e.cond, ReadCtx, W);
    var A := Check(R, e.cond, ReadCtx, W);
    LoansExact(R, e.thn, ctx, A);
    var B := Check(R, e.thn, ctx, A);
    var one := LoanFree(R, e.cond, ReadCtx, W.loans);
    var two := LoanFree(R, e.thn, ctx, W.loans);
    RefusesThen(W, A, B, one, two);
    var B' := B.(state := A.state);
    RefusesAs(W, W, B, B', one && two);
    OptExact(R, e.els, ctx, B');
    var C := if e.els.None? then B' else Check(R, e.els.value, ctx, B');
    RefusesThen(W, B', C, one && two, OptFree(R, e.els, ctx, W.loans));
    RefusesAs(W, W, C, CheckIf(R, e, ctx, W), one && two && OptFree(R, e.els, ctx, W.loans));
  }

  lemma {:induction false} MatchExact(R: Rules, e: Expr, ctx: Ctx, W: Walk, V: Walk, here: bool)
    requires e.Match? && V == EnterExpr(R, e, ctx, W) && Refuses(W, V, here)
    ensures Refuses(W, Check(R, e, ctx, W),
              here && LoanFree(R, e.scrut, ReadCtx, W.loans) && ArmsFree(R, e.arms, ctx, W.loans))
    decreases e, 1
  {
    hide Refuses, EnterExpr, LoanFree, ArmsFree, CheckArms;
    LoansExact(R, e.scrut, ReadCtx, V);
    var A := Check(R, e.scrut, ReadCtx, V);
    ArmsExact(R, e.arms, ctx, A.state, None, A);
    var (joined, B) := CheckArms(R, e.arms, ctx, A.state, None, A);
    var one := LoanFree(R, e.scrut, ReadCtx, W.loans);
    RefusesThen(V, A, B, one, ArmsFree(R, e.arms, ctx, W.loans));
    RefusesThen(W, V, B, here, one && ArmsFree(R, e.arms, ctx, W.loans));
    var r := Check(R, e, ctx, W);
    assert r == B.(state := if joined.Some? then joined.value else A.state);
    RefusesAs(W, W, B, r, here && one && ArmsFree(R, e.arms, ctx, W.loans));
  }

  lemma {:induction false} ArmsExact(R: Rules, arms: seq<Arm>, ctx: Ctx, saved: States, joined: Option<States>, W: Walk)
    requires joined.Some? ==> saved.Keys <= joined.value.Keys
    ensures Refuses(W, CheckArms(R, arms, ctx, saved, joined, W).1, ArmsFree(R, arms, ctx, W.loans))
    decreases arms, 0
  {
    hide Refused, CheckArm, ArmFree, ArmCompletes, Merge;
    if arms != [] {
      var V := W.(state := saved);
      SameRefused(W, V);
      ArmExact(R, arms[0], ctx, V);
      var A := CheckArm(R, arms[0], ctx, V);
      var j := if !ArmCompletes(arms[0]) then joined
               else if joined.None? then Some(A.state)
               else Some(Merge(joined.value, A.state));
      ArmsExact(R, arms[1..], ctx, saved, j, A);
    }
  }

  lemma {:induction false} ArmExact(R: Rules, arm: Arm, ctx: Ctx, W: Walk)
    ensures Refuses(W, CheckArm(R, arm, ctx, W), ArmFree(R, arm, ctx, W.loans))
    decreases arm, 3
  {
    hide Refused, Check, LoanFree, BindStates;
    var V := W.(state := BindStates(W.state, arm.pat));
    SameRefused(W, V);
    LoansExact(R, arm.body, ctx, V);
  }

  lemma {:induction false} LoopExact(R: Rules, y: Sym, body: Expr, W: Walk)
    ensures Refuses(W, CheckLoop(R, y, body, W), LoanFree(R, body, MoveCtx, W.loans))
    decreases body, 3
  {
    hide Refuses, Check, LoanFree, Merge, Repeatable;
    var V := SetState(W, y, READY);
    LoansExact(R, body, MoveCtx, V);
    var A := Check(R, body, MoveCtx, V);
    RefusesAs(W, V, A, CheckLoop(R, y, body, W), LoanFree(R, body, MoveCtx, W.loans));
  }

  lemma {:induction false} StmtsExact(R: Rules, ss: seq<Stmt>, W: Walk)
    ensures Refuses(W, CheckStmts(R, ss, W), StmtsFree(R, ss, W.loans))
    decreases ss, 0
  {
    hide Refused, CheckStmt, StmtFree;
    if ss != [] {
      StmtExact(R, ss[0], W);
      StmtsExact(R, ss[1..], CheckStmt(R, ss[0], W));
    }
  }

  lemma {:induction false} StmtExact(R: Rules, s: Stmt, W: Walk)
    ensures Refuses(W, CheckStmt(R, s, W), StmtFree(R, s, W.loans))
    decreases s, 1
  {
    hide Refuses, Refused, Check, LoanFree, AssignPlace;
    match s
    case Let(x, None) => RefusesNothing(W, SetState(W, x, FRESH));
    case Let(x, Some(e)) =>
      LoansExact(R, e, MoveCtx, W);
      var A := Check(R, e, MoveCtx, W);
      RefusesAs(W, W, A, SetState(A, x, READY), LoanFree(R, e, MoveCtx, W.loans));
    case Assign(x, path, e) =>
      LoansExact(R, e, MoveCtx, W);
      var A := Check(R, e, MoveCtx, W);
      AssignRefuses(R, x, path, A);
      RefusesThen(W, A, AssignPlace(R, x, path, A), LoanFree(R, e, MoveCtx, W.loans), true);
    case ExprStmt(e) => LoansExact(R, e, MoveCtx, W);
    case Return(None) => RefusesNothing(W, W);
    case Return(Some(e)) => LoansExact(R, e, MoveCtx, W);
  }

  lemma RefusesNothing(W: Walk, r: Walk)
    requires r.diags == W.diags && r.loans == W.loans
    ensures Refuses(W, r, true)
  {
  }

  // ---------- one call ----------

  /** Moving out of the place takes it and every value it is projected from by moving. */
  predicate MoveTakes(R: Rules, e: Expr, p: Path) {
    (!CopyPlace(R, e) && PlaceOf(e).Some? && Overlaps(p, PlaceOf(e).value)) ||
    (e.Field? && !e.copy && MoveTakes(R, e.base, p))
  }

  /** Argument `i` cannot follow the loan: both need the storage and one needs it exclusively. */
  predicate ClashesWith(R: Rules, def: Def, i: nat, arg: Expr, l: Loan)
    requires PlaceBase(arg).Some?
  {
    var b := ContractAt(R.contracts, def, i);
    if b in {Borrow, BorrowMut} then Overlaps(l.place, PlaceOf(arg).value) && (l.kind.Mut? || b.BorrowMut?)
    else Consumes(b) && MoveTakes(R, arg, l.place)
  }

  /** The earlier argument is borrowed and the later one cannot follow it. */
  predicate Clash(R: Rules, def: Def, i: nat, early: Expr, j: nat, late: Expr)
    requires PlaceBase(early).Some? && PlaceBase(late).Some?
  {
    var b := ContractAt(R.contracts, def, i);
    b in {Borrow, BorrowMut} && ClashesWith(R, def, j, late, Loan(PlaceOf(early).value, KindOf(b)))
  }

  predicate Places(args: seq<Expr>) {
    forall a <- args :: PlaceBase(a).Some?
  }

  lemma {:induction false} PlaceFree(R: Rules, e: Expr, ctx: Ctx, held: seq<Loan>)
    requires PlaceBase(e).Some?
    ensures LoanFree(R, e, ctx, held) <==> (ctx.MoveCtx? ==> forall l <- held :: !MoveTakes(R, e, l.place))
  {
    if e.Field? {
      PlaceFree(R, e.base, if e.copy then ReadCtx else ctx, held);
    }
  }

  lemma ArgFree(R: Rules, def: Def, i: nat, arg: Expr, ctx: Ctx, held: seq<Loan>)
    requires PlaceBase(arg).Some?
    ensures LoanFree(R, arg, ArgCtx(R.contracts, Call(def), i, ctx), held) && LentFree(R, Call(def), i, arg, held) <==>
            (forall l <- held :: !ClashesWith(R, def, i, arg, l)) && MutPlace(R, Call(def), i, arg)
  {
    hide MoveTakes, LoanFree;
    PlaceFree(R, arg, ArgCtx(R.contracts, Call(def), i, ctx), held);
    var b := ContractAt(R.contracts, def, i);
    assert !ArgCtx(R.contracts, Call(def), i, ctx).MoveCtx? <==> b in {Copy, Borrow, BorrowMut};
    if b in {Borrow, BorrowMut} {
      var p := PlaceOf(arg).value;
      assert forall l <- held ::
        ClashesWith(R, def, i, arg, l) == (Overlaps(l.place, p) && (l.kind.Mut? || b.BorrowMut?));
    } else {
      assert forall l <- held :: ClashesWith(R, def, i, arg, l) == (Consumes(b) && MoveTakes(R, arg, l.place));
    }
  }

  /** No argument from position `i` on clashes with a loan held or with an earlier argument. */
  ghost predicate NoClash(R: Rules, def: Def, args: seq<Expr>, i: nat, held: seq<Loan>)
    requires Places(args)
  {
    && (forall b: nat {:trigger args[b]} :: b < |args| ==> MutPlace(R, Call(def), i + b, args[b]))
    && (forall l, b: nat {:trigger l in held, args[b]} ::
          l in held && b < |args| ==> !ClashesWith(R, def, i + b, args[b], l))
    && (forall a: nat, b: nat {:trigger args[a], args[b]} ::
          a < b < |args| ==> !Clash(R, def, i + a, args[a], i + b, args[b]))
  }

  lemma {:induction false} CallFree(R: Rules, def: Def, args: seq<Expr>, i: nat, ctx: Ctx, held: seq<Loan>)
    requires Places(args)
    ensures ArgsFree(R, Call(def), args, i, ctx, held) <==> NoClash(R, def, args, i, held)
    decreases args
  {
    hide LoanFree, LentFree, ClashesWith, MutPlace;
    if args == [] {
    } else {
      var lent := held + Lent(R, Call(def), i, args[0]);
      ArgFree(R, def, i, args[0], ctx, held);
      CallFree(R, def, args[1..], i + 1, ctx, lent);
      NoClashCons(R, def, args, i, held);
    }
  }

  lemma NoClashCons(R: Rules, def: Def, args: seq<Expr>, i: nat, held: seq<Loan>)
    requires Places(args) && args != []
    ensures NoClash(R, def, args, i, held) <==>
            && MutPlace(R, Call(def), i, args[0])
            && (forall l <- held :: !ClashesWith(R, def, i, args[0], l))
            && NoClash(R, def, args[1..], i + 1, held + Lent(R, Call(def), i, args[0]))
  {
    hide ClashesWith, MutPlace;
    var rest := args[1..];
    var more := held + Lent(R, Call(def), i, args[0]);
    if NoClash(R, def, args, i, held) {
      assert forall b: nat {:trigger rest[b]} :: b < |rest| ==> rest[b] == args[1 + b];
      forall l, b: nat | l in more && b < |rest|
        ensures !ClashesWith(R, def, i + 1 + b, rest[b], l)
      {
        if l !in held {
          assert !Clash(R, def, i + 0, args[0], i + (1 + b), args[1 + b]);
        }
      }
      forall a: nat, b: nat | a < b < |rest|
        ensures !Clash(R, def, i + 1 + a, rest[a], i + 1 + b, rest[b])
      {
        assert !Clash(R, def, i + (1 + a), args[1 + a], i + (1 + b), args[1 + b]);
      }
    }
    if MutPlace(R, Call(def), i, args[0]) && (forall l <- held :: !ClashesWith(R, def, i, args[0], l)) &&
       NoClash(R, def, rest, i + 1, more)
    {
      NoClashBack(R, def, args, i, held);
    }
  }

  lemma NoClashBack(R: Rules, def: Def, args: seq<Expr>, i: nat, held: seq<Loan>)
    requires Places(args) && args != [] && MutPlace(R, Call(def), i, args[0])
    requires forall l <- held :: !ClashesWith(R, def, i, args[0], l)
    requires NoClash(R, def, args[1..], i + 1, held + Lent(R, Call(def), i, args[0]))
    ensures NoClash(R, def, args, i, held)
  {
    hide ClashesWith, MutPlace;
    var rest := args[1..];
    var more := held + Lent(R, Call(def), i, args[0]);
    forall b: nat | b < |args|
      ensures MutPlace(R, Call(def), i + b, args[b])
    {
      if b > 0 {
        assert MutPlace(R, Call(def), i + 1 + (b - 1), rest[b - 1]);
      }
    }
    forall l, b: nat | l in held && b < |args|
      ensures !ClashesWith(R, def, i + b, args[b], l)
    {
      if b > 0 {
        assert l in more && !ClashesWith(R, def, i + 1 + (b - 1), rest[b - 1], l);
      }
    }
    forall a: nat, b: nat | a < b < |args|
      ensures !Clash(R, def, i + a, args[a], i + b, args[b])
    {
      if a > 0 {
        assert !Clash(R, def, i + 1 + (a - 1), rest[a - 1], i + 1 + (b - 1), rest[b - 1]);
      } else if Borrows(R.contracts, Call(def), i, args[0]) {
        var l := Loan(PlaceOf(args[0]).value, KindOf(ContractAt(R.contracts, def, i)));
        assert more[|held|] == l && l in more;
        assert !ClashesWith(R, def, i + 1 + (b - 1), rest[b - 1], l);
      }
    }
  }

  /** Main result on calls: a call on places gets a loan diagnostic exactly when a place the callee
      writes through is not `mut`, or some argument is borrowed and a later one clashes with it. */
  lemma CallExact(R: Rules, def: Def, args: seq<Expr>, ctx: Ctx, W: Walk)
    requires Places(args) && W.loans == [] && !Refused(W)
    ensures Refused(Check(R, Prim(Call(def), args), ctx, W)) <==>
            || (exists a: nat :: a < |args| && !MutPlace(R, Call(def), a, args[a]))
            || (exists a: nat, b: nat :: a < b < |args| && Clash(R, def, a, args[a], b, args[b]))
  {
    hide ClashesWith, MutPlace, Check, ArgsFree, Refused;
    var e := Prim(Call(def), args);
    LoansExact(R, e, ctx, W);
    CallFree(R, def, args, 0, ctx, []);
    assert LoanFree(R, e, ctx, []) == ArgsFree(R, Call(def), args, 0, ctx, []);
    NoClashAtStart(R, def, args);
  }

  lemma NoClashAtStart(R: Rules, def: Def, args: seq<Expr>)
    requires Places(args)
    ensures NoClash(R, def, args, 0, []) <==>
            && (forall a: nat :: a < |args| ==> MutPlace(R, Call(def), a, args[a]))
            && (forall a: nat, b: nat :: a < b < |args| ==> !Clash(R, def, a, args[a], b, args[b]))
  {
    hide ClashesWith, MutPlace;
    if NoClash(R, def, args, 0, []) {
      forall a: nat | a < |args|
        ensures MutPlace(R, Call(def), a, args[a])
      {
        assert MutPlace(R, Call(def), 0 + a, args[a]);
      }
      forall a: nat, b: nat | a < b < |args|
        ensures !Clash(R, def, a, args[a], b, args[b])
      {
        assert !Clash(R, def, 0 + a, args[a], 0 + b, args[b]);
      }
    }
  }

  /** A place moved as a whole clashes with every loan of the same root binding. */
  lemma {:induction false} RootMoveTakes(R: Rules, e: Expr, p: Path)
    requires MovesRoot(R, e)
    ensures PlaceBase(e).Some? && (MoveTakes(R, e, p) <==> p.base == PlaceBase(e).value)
  {
    if e.Field? {
      RootMoveTakes(R, e.base, p);
    }
  }

  lemma PathsAre(q: Sym, k: nat)
    ensures PlaceOf(Field(Var(q), k, false)) == Some(Path(q, [k]))
  {
    assert PlacePath(Var(q)) == [] && PlaceBase(Var(q)) == Some(q);
    assert PlacePath(Field(Var(q), k, false)) == [] + [k] == [k];
  }

  /** Moving one field clashes with a borrow of another: the projection moves its base too. */
  lemma FieldMoveTakesWhole(def: Def, q: Sym)
    ensures var R := Rules({}, {}, map[def := [Borrow, Move]]);
      var args := [Field(Var(q), 0, false), Field(Var(q), 1, false)];
      && PlaceOf(args[0]) == Some(Path(q, [0])) && PlaceOf(args[1]) == Some(Path(q, [1]))
      && !Overlaps(Path(q, [0]), Path(q, [1]))
      && Refused(CheckBody(R, [q], Prim(Call(def), args)))
  {
    hide MoveTakes, Check;
    var R := Rules({}, {}, map[def := [Borrow, Move]]);
    var args := [Field(Var(q), 0, false), Field(Var(q), 1, false)];
    PathsAre(q, 0);
    PathsAre(q, 1);
    assert MovesRoot(R, Var(q)) && MovesRoot(R, args[1]);
    RootMoveTakes(R, args[1], Path(q, [0]));
    assert PlaceBase(args[0]).Some? && PlaceBase(args[1]) == Some(q);
    assert Clash(R, def, 0, args[0], 1, args[1]);
    var W := Walk(ParamStates([q]), [], [], true);
    CallExact(R, def, args, MoveCtx, W);
    assert CheckBody(R, [q], Prim(Call(def), args)) == Check(R, Prim(Call(def), args), MoveCtx, W);
    assert Path(q, [0]).fields[0] != Path(q, [1]).fields[0];
  }
}
