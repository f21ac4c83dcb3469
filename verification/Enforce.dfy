/** Enforcement of the ownership rules: one walk over a body that tracks, per binding,
    whether it is initialized and whether it was moved, plus the loans of the calls being
    evaluated. Spans and message texts are left out. */
module Enforce {
  import opened Wrappers
  import opened Hir
  import opened Semantics
  import opened Place

  datatype Init = InitYes | InitMaybe | InitNever
  datatype Moved = MovedNo | MovedMaybe | MovedYes
  datatype Binding = Binding(init: Init, moved: Moved)

  type States = map<Sym, Binding>

  datatype Diag =
    | Uninitialized(sym: Sym)
    | UseAfterMove(sym: Sym)
    | ImmutableAssignment(sym: Sym)
    | MutableBorrowOfImmutable(place: Path)
    | BorrowConflict(place: Path)
    | MoveWhileBorrowed(place: Path)

  /** What the walk reads: copy-typed and `mut` bindings, and every callee's contract. */
  datatype Rules = Rules(copies: set<Sym>, muts: set<Sym>, contracts: Contracts)

  /** The walk's state. `steady` records whether every loop so far can be repeated, from the
      state before it or from the joined state after it; the walk itself does not depend on it. */
  datatype Walk = Walk(state: States, loans: seq<Loan>, diags: seq<Diag>, steady: bool)

  const READY := Binding(InitYes, MovedNo)
  const FRESH := Binding(InitNever, MovedNo)

  function StateOf(st: States, s: Sym): Binding {
    if s in st then st[s] else FRESH
  }

  // ---------- joins ----------

  function JoinInit(a: Init, b: Init): Init {
    if a == b then a else InitMaybe
  }

  function JoinMoved(a: Moved, b: Moved): Moved {
    match (a, b)
    case (MovedNo, MovedNo) => MovedNo
    case (MovedYes, MovedYes) => MovedYes
    case _ => MovedMaybe
  }

  function Join(a: Binding, b: Binding): Binding {
    Binding(JoinInit(a.init, b.init), JoinMoved(a.moved, b.moved))
  }

  function Merge(a: States, b: States): (r: States)
    ensures r.Keys == a.Keys + b.Keys
  {
    map s | s in a.Keys + b.Keys :: if s in a && s in b then Join(a[s], b[s]) else if s in a then a[s] else b[s]
  }

  // ---------- completion ----------

  /** Whether evaluation can reach its end; false only when every path returns. */
  predicate CanComplete(e: Expr)
    decreases e, 1
  {
    match e
    case Block(stmts, tail) => StmtsComplete(stmts) && OptCompletes(tail)
    case If(c, t, f, _) => CanComplete(c) && (CanComplete(t) || OptCompletes(f))
    case Match(s, arms, _) => CanComplete(s) && (arms == [] || AnyArmCompletes(arms))
    case Logic(_, l, _) => CanComplete(l)
    case Field(b, _, _) => CanComplete(b)
    case Prim(_, args) => AllComplete(args)
    case ForRange(_, lo, hi, _) => OptCompletes(lo) && OptCompletes(hi)
    case ForEach(_, iter, _) => CanComplete(iter)
    case _ => true
  }

  predicate OptCompletes(o: Option<Expr>)
    decreases o, 2
  {
    o.Some? ==> CanComplete(o.value)
  }

  predicate AllComplete(es: seq<Expr>)
    decreases es, 0
  {
    es == [] || (CanComplete(es[0]) && AllComplete(es[1..]))
  }

  predicate AnyArmCompletes(arms: seq<Arm>)
    decreases arms, 0
  {
    arms != [] && (ArmCompletes(arms[0]) || AnyArmCompletes(arms[1..]))
  }

  predicate ArmCompletes(arm: Arm)
    decreases arm, 1
  {
    CanComplete(arm.body)
  }

  predicate StmtsComplete(ss: seq<Stmt>)
    decreases ss, 0
  {
    ss == [] || (StmtCompletes(ss[0]) && StmtsComplete(ss[1..]))
  }

  predicate StmtCompletes(s: Stmt)
    decreases s, 1
  {
    match s
    case Return(_) => false
    case Let(_, init) => OptCompletes(init)
    case Assign(_, _, e) => CanComplete(e)
    case ExprStmt(e) => CanComplete(e)
  }

  // ---------- single checks ----------

  function Report(W: Walk, d: Diag): Walk {
    W.(diags := W.diags + [d])
  }

  function SetState(W: Walk, s: Sym, b: Binding): Walk {
    W.(state := W.state[s := b])
  }

  /** A read needs a binding that is ready; in a move position it also uses the binding up. */
  function UseVar(R: Rules, s: Sym, ctx: Ctx, W: Walk): (r: Walk)
    ensures r.loans == W.loans && |W.diags| <= |r.diags| && r.state.Keys == W.state.Keys + {s} && r.steady == W.steady
  {
    var b := StateOf(W.state, s);
    var A := SetState(W, s, b);
    var B := if b.init.InitYes? then A else Report(A, Uninitialized(s));
    var C := if b.moved.MovedNo? then B else Report(B, UseAfterMove(s));
    if ctx.MoveCtx? && s !in R.copies then SetState(C, s, b.(moved := MovedYes)) else C
  }

  /** Some live loan overlaps the place. */
  predicate Loaned(loans: seq<Loan>, p: Path) {
    exists l <- loans :: Overlaps(l.place, p)
  }

  predicate Conflicts(loans: seq<Loan>, p: Path, kind: LoanKind) {
    exists l <- loans :: Overlaps(l.place, p) && (l.kind.Mut? || kind.Mut?)
  }

  function CheckMove(p: Path, W: Walk): Walk {
    if Loaned(W.loans, p) then Report(W, MoveWhileBorrowed(p)) else W
  }

  function AddLoan(p: Path, kind: LoanKind, W: Walk): Walk {
    if Conflicts(W.loans, p, kind) then Report(W, BorrowConflict(p)) else W.(loans := W.loans + [Loan(p, kind)])
  }

  /** Whether a place expression has a copy type. */
  predicate CopyPlace(R: Rules, e: Expr) {
    (e.Var? && e.sym in R.copies) || (e.Field? && e.copy)
  }

  /** A move out of a borrowed place is checked before any state update. */
  function EnterExpr(R: Rules, e: Expr, ctx: Ctx, W: Walk): (r: Walk)
    ensures r.loans == W.loans && |W.diags| <= |r.diags| && r.state == W.state && r.steady == W.steady
  {
    if ctx.MoveCtx? && !CopyPlace(R, e) && PlaceOf(e).Some? then CheckMove(PlaceOf(e).value, W) else W
  }

  /** The loan an evaluated argument leaves behind until the call returns. */
  function AfterArg(R: Rules, op: Op, i: nat, arg: Expr, W: Walk): (r: Walk)
    ensures W.loans <= r.loans && |W.diags| <= |r.diags| && r.state == W.state && r.steady == W.steady
  {
    if !op.Call? || PlaceOf(arg).None? then W
    else
      var p := PlaceOf(arg).value;
      match ContractAt(R.contracts, op.def, i)
      case Borrow => AddLoan(p, Shared, W)
      case BorrowMut => AddLoan(p, Mut, if p.base in R.muts then W else Report(W, MutableBorrowOfImmutable(p)))
      case _ => W
  }

  function AssignPlace(R: Rules, x: Sym, path: seq<nat>, W: Walk): Walk {
    var b := StateOf(W.state, x);
    var first := path == [] && b == FRESH;
    var A := if x !in R.muts && !first then Report(W, ImmutableAssignment(x)) else W;
    if path == [] then SetState(A, x, READY)
    else
      var B := UseVar(R, x, ReadCtx, A);
      SetState(B, x, StateOf(B.state, x).(init := InitYes))
  }

  // ---------- the walk ----------

  function Check(R: Rules, e: Expr, ctx: Ctx, W: Walk): (r: Walk)
    ensures r.loans == W.loans && |W.diags| <= |r.diags| && W.state.Keys <= r.state.Keys && (r.steady ==> W.steady)
    decreases e, 2
  {
    hide UseVar, EnterExpr, Merge, CanComplete;
    var V := EnterExpr(R, e, ctx, W);
    match e
    case Lit(_) => V
    case Poison => V
    case Var(s) => UseVar(R, s, ctx, V)
    case Field(b, _, copy) => Check(R, b, if copy then ReadCtx else ctx, V)
    case Prim(op, args) => CheckArgs(R, op, args, 0, ctx, V).(loans := V.loans)
    case Logic(_, l, r) =>
      var A := Check(R, l, ReadCtx, V);
      var B := Check(R, r, ReadCtx, A);
      B.(state := if CanComplete(r) then Merge(A.state, B.state) else A.state)
    case If(_, _, _, _) => CheckIf(R, e, ctx, V)
    case Block(stmts, tail) =>
      var A := CheckStmts(R, stmts, V);
      if tail.None? then A else Check(R, tail.value, ctx, A)
    case Match(s, arms, _) =>
      var A := Check(R, s, ReadCtx, V);
      var (joined, B) := CheckArms(R, arms, ctx, A.state, None, A);
      B.(state := if joined.Some? then joined.value else A.state)
    case ForRange(x, lo, hi, body) => CheckLoop(R, x, body, CheckOpt(R, hi, CheckOpt(R, lo, V)))
    case ForEach(x, iter, body) => CheckLoop(R, x, body, Check(R, iter, ReadCtx, V))
  }

  function CheckOpt(R: Rules, o: Option<Expr>, W: Walk): (r: Walk)
    ensures r.loans == W.loans && |W.diags| <= |r.diags| && W.state.Keys <= r.state.Keys && (r.steady ==> W.steady)
    decreases o, 3
  {
    if o.None? then W else Check(R, o.value, ReadCtx, W)
  }

  /** Operands `i..` in order; argument loans accumulate until the operation ends. */
  function CheckArgs(R: Rules, op: Op, args: seq<Expr>, i: nat, ctx: Ctx, W: Walk): (r: Walk)
    ensures W.loans <= r.loans && |W.diags| <= |r.diags| && W.state.Keys <= r.state.Keys && (r.steady ==> W.steady)
    decreases args, 0
  {
    hide AfterArg, ArgCtx;
    if args == [] then W
    else
      var A := Check(R, args[0], ArgCtx(R.contracts, op, i, ctx), W);
      CheckArgs(R, op, args[1..], i + 1, ctx, AfterArg(R, op, i, args[0], A))
  }

  function CheckIf(R: Rules, e: Expr, ctx: Ctx, W: Walk): (r: Walk)
    requires e.If?
    ensures r.loans == W.loans && |W.diags| <= |r.diags| && W.state.Keys <= r.state.Keys && (r.steady ==> W.steady)
    decreases e, 1
  {
    var A := Check(R, e.cond, ReadCtx, W);
    var B := Check(R, e.thn, ctx, A);
    var C := if e.els.None? then B.(state := A.state) else Check(R, e.els.value, ctx, B.(state := A.state));
    C.(state := match (CanComplete(e.thn), OptCompletes(e.els))
                case (true, true) => Merge(C.state, B.state)
                case (true, false) => B.state
                case (false, true) => C.state
                case (false, false) => A.state)
  }

  function BindStates(st: States, p: Pat): (r: States)
    ensures st.Keys <= r.Keys
  {
    match p
    case VariantPat(_, binds) => BindAll(st, binds, |binds|)
    case BindPat(Some(s)) => st[s := READY]
    case _ => st
  }

  function BindAll(st: States, binds: seq<Option<Sym>>, n: nat): (r: States)
    requires n <= |binds|
    ensures st.Keys <= r.Keys
  {
    if n == 0 then st
    else if binds[n - 1].Some? then BindAll(st, binds, n - 1)[binds[n - 1].value := READY]
    else BindAll(st, binds, n - 1)
  }

  /** Every arm starts from `saved`; the arms that can complete are joined. */
  function CheckArms(R: Rules, arms: seq<Arm>, ctx: Ctx, saved: States, joined: Option<States>,
        W: Walk): (r: (Option<States>, Walk))
    requires joined.Some? ==> saved.Keys <= joined.value.Keys
    ensures r.1.loans == W.loans && |W.diags| <= |r.1.diags| && (r.1.steady ==> W.steady)
    ensures r.0.Some? ==> saved.Keys <= r.0.value.Keys
    decreases arms, 0
  {
    if arms == [] then (joined, W)
    else
      var A := CheckArm(R, arms[0], ctx, W.(state := saved));
      var j := if !ArmCompletes(arms[0]) then joined
               else if joined.None? then Some(A.state)
               else Some(Merge(joined.value, A.state));
      CheckArms(R, arms[1..], ctx, saved, j, A)
  }

  function CheckArm(R: Rules, arm: Arm, ctx: Ctx, W: Walk): (r: Walk)
    ensures r.loans == W.loans && |W.diags| <= |r.diags| && W.state.Keys <= r.state.Keys && (r.steady ==> W.steady)
    decreases arm, 3
  {
    Check(R, arm.body, ctx, W.(state := BindStates(W.state, arm.pat)))
  }

  /** Whatever `b` says for certain, `a` says too. */
  predicate AsDefinite(a: Binding, b: Binding) {
    (b == READY ==> a == READY) && (b == FRESH ==> a == FRESH)
  }

  predicate LoopSteady(saved: States, after: States) {
    forall s <- saved :: s in after && AsDefinite(after[s], saved[s])
  }

  /** One more pass from `V` would report nothing and leave its bindings as definite as it found
      them. */
  predicate Repeatable(R: Rules, x: Sym, body: Expr, V: Walk)
    decreases body, 3
  {
    var A := Check(R, body, MoveCtx, SetState(V, x, READY));
    |A.diags| == |V.diags| && A.steady && LoopSteady(V.state - {x}, A.state - {x})
  }

  /** The body is walked once and joined with the state before the loop. */
  function CheckLoop(R: Rules, x: Sym, body: Expr, W: Walk): (r: Walk)
    ensures r.loans == W.loans && |W.diags| <= |r.diags| && W.state.Keys <= r.state.Keys && (r.steady ==> W.steady)
    decreases body, 4
  {
    var A := Check(R, body, MoveCtx, SetState(W, x, READY));
    var J := A.(state := Merge(A.state - {x}, W.state));
    J.(steady := Repeatable(R, x, body, W) || Repeatable(R, x, body, J))
  }

  function CheckStmts(R: Rules, stmts: seq<Stmt>, W: Walk): (r: Walk)
    ensures r.loans == W.loans && |W.diags| <= |r.diags| && W.state.Keys <= r.state.Keys && (r.steady ==> W.steady)
    decreases stmts, 0
  {
    if stmts == [] then W else CheckStmts(R, stmts[1..], CheckStmt(R, stmts[0], W))
  }

  function CheckStmt(R: Rules, s: Stmt, W: Walk): (r: Walk)
    ensures r.loans == W.loans && |W.diags| <= |r.diags| && W.state.Keys <= r.state.Keys && (r.steady ==> W.steady)
    decreases s, 1
  {
    match s
    case Let(x, None) => SetState(W, x, FRESH)
    case Let(x, Some(e)) => SetState(Check(R, e, MoveCtx, W), x, READY)
    case Assign(x, path, e) => AssignPlace(R, x, path, Check(R, e, MoveCtx, W))
    case ExprStmt(e) => Check(R, e, MoveCtx, W)
    case Return(None) => W
    case Return(Some(e)) => Check(R, e, MoveCtx, W)
  }

  function ParamStates(params: seq<Sym>): States {
    map s | s in params :: READY
  }

  /** The walk over a whole body: parameters start out initialized. */
  function CheckBody(R: Rules, params: seq<Sym>, root: Expr): Walk {
    Check(R, root, MoveCtx, Walk(ParamStates(params), [], [], true))
  }
}
