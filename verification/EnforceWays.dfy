/** Enforcement told one binding and one way at a time: which conditions a binding may be in
    after an expression, and whether some way through the expression misuses it. */
module EnforceWays {
  import opened Wrappers
  import opened Hir
  import opened Semantics
  import opened Effects
  import opened Enforce

  /** A binding's condition on one way through the body. */
  datatype Cond = Cond(init: bool, moved: bool)

  const HELD := Cond(true, false)
  const EMPTY := Cond(false, false)

  /** Ways a binding can be misused: read before it holds a value, read after its value moved, or
      written although it is not `mut` and not being initialized. */
  datatype Fault = Unready | Gone | Frozen

  function FaultDiag(f: Fault, x: Sym): Diag {
    match f
    case Unready => Uninitialized(x)
    case Gone => UseAfterMove(x)
    case Frozen => ImmutableAssignment(x)
  }

  /** The binding looked at. A way ends at a `return`; with `past` set it reads on behind it. */
  datatype Look = Look(rules: Rules, x: Sym, past: bool)

  // ---------- single steps ----------

  function AfterUse(Q: Look, s: Sym, ctx: Ctx, S: set<Cond>): set<Cond> {
    if s == Q.x && ctx.MoveCtx? && s !in Q.rules.copies then set c <- S :: c.(moved := true) else S
  }

  function AfterWrite(Q: Look, y: Sym, path: seq<nat>, S: set<Cond>): set<Cond> {
    if y != Q.x then S else set c <- S :: if path == [] then HELD else c.(init := true)
  }

  /** The names now stand for new bindings that hold a value. */
  function AfterBind(Q: Look, syms: set<Sym>, S: set<Cond>): set<Cond> {
    if Q.x in syms then set c <- S :: HELD else S
  }

  function AfterDeclare(Q: Look, y: Sym, S: set<Cond>): set<Cond> {
    if y == Q.x then set c <- S :: EMPTY else S
  }

  predicate UseBad(Q: Look, f: Fault, s: Sym, S: set<Cond>) {
    s == Q.x && exists c <- S :: (f.Unready? && !c.init) || (f.Gone? && c.moved)
  }

  predicate WriteBad(Q: Look, f: Fault, y: Sym, path: seq<nat>, S: set<Cond>) {
    y == Q.x &&
    if f.Frozen? then y !in Q.rules.muts && exists c <- S :: path != [] || c != EMPTY
    else path != [] && UseBad(Q, f, y, S)
  }

  // ---------- conditions after an expression ----------

  /** The conditions at the end of the ways through `e` that start in one of `S`. A loop body is
      passed through at most once. */
  function Ends(Q: Look, e: Expr, ctx: Ctx, S: set<Cond>): set<Cond>
    decreases e, 2
  {
    match e
    case Lit(_) => S
    case Poison => S
    case Var(s) => AfterUse(Q, s, ctx, S)
    case Field(b, _, copy) => Ends(Q, b, if copy then ReadCtx else ctx, S)
    case Prim(op, args) => EndsArgs(Q, op, args, 0, ctx, S)
    case Logic(_, l, r) =>
      var M := Ends(Q, l, ReadCtx, S);
      M + EndsIf(Q, r, ReadCtx, M)
    case If(c, t, f, _) =>
      var M := Ends(Q, c, ReadCtx, S);
      if CanComplete(t) || OptCompletes(f) then EndsIf(Q, t, ctx, M) + EndsElse(Q, f, ctx, M) else Skipped(Q, M)
    case Block(stmts, tail) => EndsOpt(Q, tail, ctx, EndsStmts(Q, stmts, S))
    case Match(s, arms, _) =>
      var M := Ends(Q, s, ReadCtx, S);
      if arms == [] then M else if AnyArmCompletes(arms) then EndsArms(Q, arms, ctx, M) else Skipped(Q, M)
    case ForRange(y, lo, hi, body) => EndsLoop(Q, y, body, EndsOpt(Q, hi, ReadCtx, EndsOpt(Q, lo, ReadCtx, S)))
    case ForEach(y, iter, body) => EndsLoop(Q, y, body, Ends(Q, iter, ReadCtx, S))
  }

  /** No branch reaches its end. */
  function Skipped(Q: Look, S: set<Cond>): set<Cond> {
    if Q.past then S else {}
  }

  /** A branch counts when it can reach its end. */
  function EndsIf(Q: Look, e: Expr, ctx: Ctx, S: set<Cond>): set<Cond>
    decreases e, 3
  {
    if CanComplete(e) then Ends(Q, e, ctx, S) else {}
  }

  function EndsElse(Q: Look, o: Option<Expr>, ctx: Ctx, S: set<Cond>): set<Cond>
    decreases o, 4
  {
    if o.None? then S else EndsIf(Q, o.value, ctx, S)
  }

  function EndsOpt(Q: Look, o: Option<Expr>, ctx: Ctx, S: set<Cond>): set<Cond>
    decreases o, 4
  {
    if o.None? then S else Ends(Q, o.value, ctx, S)
  }

  function EndsArgs(Q: Look, op: Op, args: seq<Expr>, i: nat, ctx: Ctx, S: set<Cond>): set<Cond>
    decreases args, 0
  {
    if args == [] then S
    else EndsArgs(Q, op, args[1..], i + 1, ctx, Ends(Q, args[0], ArgCtx(Q.rules.contracts, op, i, ctx), S))
  }

  function EndsArms(Q: Look, arms: seq<Arm>, ctx: Ctx, S: set<Cond>): set<Cond>
    decreases arms, 0
  {
    if arms == [] then {} else EndsArm(Q, arms[0], ctx, S) + EndsArms(Q, arms[1..], ctx, S)
  }

  function EndsArm(Q: Look, arm: Arm, ctx: Ctx, S: set<Cond>): set<Cond>
    decreases arm, 4
  {
    EndsIf(Q, arm.body, ctx, AfterBind(Q, PatSyms(arm.pat), S))
  }

  /** The loop variable is gone behind the loop. */
  function EndsLoop(Q: Look, y: Sym, body: Expr, S: set<Cond>): set<Cond>
    decreases body, 3
  {
    if y == Q.x then S else S + Ends(Q, body, MoveCtx, S)
  }

  function EndsStmts(Q: Look, ss: seq<Stmt>, S: set<Cond>): set<Cond>
    decreases ss, 0
  {
    if ss == [] then S else EndsStmts(Q, ss[1..], EndsStmt(Q, ss[0], S))
  }

  function EndsStmt(Q: Look, s: Stmt, S: set<Cond>): set<Cond>
    decreases s, 1
  {
    match s
    case Let(y, None) => AfterDeclare(Q, y, S)
    case Let(y, Some(e)) => AfterBind(Q, {y}, Ends(Q, e, MoveCtx, S))
    case Assign(y, path, e) => AfterWrite(Q, y, path, Ends(Q, e, MoveCtx, S))
    case ExprStmt(e) => Ends(Q, e, MoveCtx, S)
    case Return(o) => Skipped(Q, EndsOpt(Q, o, MoveCtx, S))
  }

  // ---------- misuse on some way ----------

  /** Some way into `e` from a condition in `S` misuses the binding. */
  predicate Bad(Q: Look, f: Fault, e: Expr, ctx: Ctx, S: set<Cond>)
    decreases e, 2
  {
    match e
    case Lit(_) => false
    case Poison => false
    case Var(s) => UseBad(Q, f, s, S)
    case Field(b, _, copy) => Bad(Q, f, b, if copy then ReadCtx else ctx, S)
    case Prim(op, args) => BadArgs(Q, f, op, args, 0, ctx, S)
    case Logic(_, l, r) => Bad(Q, f, l, ReadCtx, S) || Bad(Q, f, r, ReadCtx, Ends(Q, l, ReadCtx, S))
    case If(c, t, g, _) =>
      var M := Ends(Q, c, ReadCtx, S);
      Bad(Q, f, c, ReadCtx, S) || Bad(Q, f, t, ctx, M) || BadOpt(Q, f, g, ctx, M)
    case Block(stmts, tail) => BadStmts(Q, f, stmts, S) || BadOpt(Q, f, tail, ctx, EndsStmts(Q, stmts, S))
    case Match(s, arms, _) => Bad(Q, f, s, ReadCtx, S) || BadArms(Q, f, arms, ctx, Ends(Q, s, ReadCtx, S))
    case ForRange(y, lo, hi, body) =>
      var L := EndsOpt(Q, lo, ReadCtx, S);
      BadOpt(Q, f, lo, ReadCtx, S) || BadOpt(Q, f, hi, ReadCtx, L) || BadLoop(Q, f, y, body, EndsOpt(Q, hi, ReadCtx, L))
    case ForEach(y, iter, body) => Bad(Q, f, iter, ReadCtx, S) || BadLoop(Q, f, y, body, Ends(Q, iter, ReadCtx, S))
  }

  predicate BadOpt(Q: Look, f: Fault, o: Option<Expr>, ctx: Ctx, S: set<Cond>)
    decreases o, 4
  {
    o.Some? && Bad(Q, f, o.value, ctx, S)
  }

  predicate BadArgs(Q: Look, f: Fault, op: Op, args: seq<Expr>, i: nat, ctx: Ctx, S: set<Cond>)
    decreases args, 0
  {
    args != [] &&
    var c := ArgCtx(Q.rules.contracts, op, i, ctx);
    Bad(Q, f, args[0], c, S) || BadArgs(Q, f, op, args[1..], i + 1, ctx, Ends(Q, args[0], c, S))
  }

  predicate BadArms(Q: Look, f: Fault, arms: seq<Arm>, ctx: Ctx, S: set<Cond>)
    decreases arms, 0
  {
    arms != [] && (BadArm(Q, f, arms[0], ctx, S) || BadArms(Q, f, arms[1..], ctx, S))
  }

  predicate BadArm(Q: Look, f: Fault, arm: Arm, ctx: Ctx, S: set<Cond>)
    decreases arm, 3
  {
    Bad(Q, f, arm.body, ctx, AfterBind(Q, PatSyms(arm.pat), S))
  }

  predicate BadLoop(Q: Look, f: Fault, y: Sym, body: Expr, S: set<Cond>)
    decreases body, 3
  {
    Bad(Q, f, body, MoveCtx, AfterBind(Q, {y}, S))
  }

  predicate BadStmts(Q: Look, f: Fault, ss: seq<Stmt>, S: set<Cond>)
    decreases ss, 0
  {
    ss != [] && (BadStmt(Q, f, ss[0], S) || BadStmts(Q, f, ss[1..], EndsStmt(Q, ss[0], S)))
  }

  predicate BadStmt(Q: Look, f: Fault, s: Stmt, S: set<Cond>)
    decreases s, 1
  {
    match s
    case Let(_, init) => BadOpt(Q, f, init, MoveCtx, S)
    case Assign(y, path, e) => Bad(Q, f, e, MoveCtx, S) || WriteBad(Q, f, y, path, Ends(Q, e, MoveCtx, S))
    case ExprStmt(e) => Bad(Q, f, e, MoveCtx, S)
    case Return(o) => BadOpt(Q, f, o, MoveCtx, S)
  }
}
