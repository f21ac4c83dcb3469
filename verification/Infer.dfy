/** How a body uses its parameters: a walk over a body that records, for every
    parameter, how its value is used, reading callee contracts through a view. Evidence spans
    and escape summaries are left out. */
module Infer {
  import opened Wrappers
  import opened Hir
  import opened Semantics

  datatype ParamFacts = ParamFacts(read: bool, mutated: bool, moved: bool, escaped: bool)

  const UNUSED := ParamFacts(false, false, false, false)

  type Contract = seq<Behavior>

  type View = Def -> Contract

  type Carriers = set<nat>

  /** A function: its parameters, which of them and of its other bindings have a copy type, and
      its body. */
  datatype Fun = Fun(params: seq<Sym>, copyParams: seq<bool>, copies: set<Sym>, body: Expr)

  /** The walk's state: facts per parameter, the parameters whose value a local may carry, and
      the callee contracts read so far. */
  datatype Taint = Taint(facts: seq<ParamFacts>, carried: map<Sym, Carriers>, seen: map<Def, Contract>)

  /** The contract of argument `i`; a missing entry counts as `Move`. */
  function At(c: Contract, i: nat): Behavior {
    if i < |c| then c[i] else Move
  }

  function Position(params: seq<Sym>, s: Sym): (r: Option<nat>)
    ensures r.Some? ==> r.value < |params| && params[r.value] == s
    ensures r.None? <==> s !in params
  {
    if params == [] then None
    else if params[|params| - 1] == s then Some(|params| - 1)
    else Position(params[..|params| - 1], s)
  }

  // ---------- classification ----------

  function Classify(copy: bool, f: ParamFacts): Behavior {
    if copy then Copy
    else if f.escaped then Escape
    else if f.moved then Move
    else if f.mutated then BorrowMut
    else if f.read then Borrow
    else Move
  }

  function ClassifyAll(copies: seq<bool>, facts: seq<ParamFacts>): (r: Contract)
    ensures |r| == |copies|
    ensures forall i :: 0 <= i < |r| ==> r[i] == Classify(copies[i], if i < |facts| then facts[i] else UNUSED)
  {
    seq(|copies|, i requires 0 <= i < |copies| => Classify(copies[i], if i < |facts| then facts[i] else UNUSED))
  }

  // ---------- flags ----------

  function Flagged(f: ParamFacts, ctx: Ctx): ParamFacts {
    if ctx.MoveCtx? then f.(moved := true) else f.(read := true)
  }

  function Flag(F: Fun, s: Sym, ctx: Ctx, T: Taint): Taint {
    var p := Position(F.params, s);
    if p.Some? && p.value < |T.facts| then T.(facts := T.facts[p.value := Flagged(T.facts[p.value], ctx)]) else T
  }

  function FlagMutated(F: Fun, s: Sym, T: Taint): Taint {
    var p := Position(F.params, s);
    if p.Some? && p.value < |T.facts| then T.(facts := T.facts[p.value := T.facts[p.value].(mutated := true)]) else T
  }

  /** The listed parameters may flow into the return value. */
  function MarkEscaped(T: Taint, c: Carriers): Taint {
    T.(facts := seq(|T.facts|,
      i requires 0 <= i < |T.facts| => if i in c then T.facts[i].(escaped := true) else T.facts[i]))
  }

  function Carried(T: Taint, s: Sym): Carriers {
    if s in T.carried then T.carried[s] else {}
  }

  function Carry(T: Taint, s: Sym, c: Carriers): Taint {
    T.(carried := T.carried[s := c])
  }

  /** Non-copy bindings of a pattern carry whatever the scrutinee carried. */
  function CarryBinds(F: Fun, binds: seq<Option<Sym>>, n: nat, c: Carriers, T: Taint): Taint
    requires n <= |binds|
  {
    if n == 0 then T
    else
      var U := CarryBinds(F, binds, n - 1, c, T);
      if binds[n - 1].Some? && binds[n - 1].value !in F.copies then Carry(U, binds[n - 1].value, c) else U
  }

  function CarryPat(F: Fun, p: Pat, c: Carriers, T: Taint): Taint {
    match p
    case VariantPat(_, binds) => CarryBinds(F, binds, |binds|, c, T)
    case BindPat(Some(s)) => Carry(T, s, c)
    case _ => T
  }

  // ---------- operands ----------

  /** The context operand `i` is evaluated in. */
  function OperandCtx(op: Op, contract: Contract, i: nat, ctx: Ctx): Ctx {
    if op.Call? then BehaviorCtx(At(contract, i)) else ArgCtx(map[], op, i, ctx)
  }

  /** Whether what operand `i` carries flows into the operation's value. */
  predicate FlowsOn(op: Op, contract: Contract, i: nat) {
    match op
    case Call(_) => At(contract, i) == Escape
    case Index(copy) => i == 0 && !copy
    case Slice(_, _, copy) => i == 0 && !copy
    case ArrayLit => true
    case VariantLit(_, _) => true
    case StructLit(_, _) => true
    case _ => false
  }

  /** A place lent for writing counts as mutated. */
  function Lend(F: Fun, op: Op, contract: Contract, i: nat, arg: Expr, T: Taint): Taint {
    if op.Call? && At(contract, i) == BorrowMut && PlaceBase(arg).Some? then FlagMutated(F, PlaceBase(arg).value, T)
      else T
  }

  // ---------- the walk ----------

  /** The state after the expression and the parameters its value may carry. */
  function Walk(F: Fun, view: View, e: Expr, ctx: Ctx, T: Taint): (Taint, Carriers)
    decreases e, 1
  {
    match e
    case Lit(_) => (T, {})
    case Poison => (T, {})
    case Var(s) => (Flag(F, s, ctx, T),
      if Position(F.params, s).Some? then {Position(F.params, s).value} else Carried(T, s))
    case Field(b, _, copy) => if copy then (Walk(F, view, b, ReadCtx, T).0, {}) else Walk(F, view, b, ctx, T)
    case Prim(op, args) =>
      var contract := if op.Call? then view(op.def) else [];
      var U := if op.Call? then T.(seen := T.seen[op.def := contract]) else T;
      WalkArgs(F, view, op, contract, args, 0, ctx, U)
    case Logic(_, l, r) => (Walk(F, view, r, ReadCtx, Walk(F, view, l, ReadCtx, T).0).0, {})
    case If(c, t, f, _) =>
      var A := Walk(F, view, c, ReadCtx, T).0;
      var (B, o) := Walk(F, view, t, ctx, A);
      if f.None? then (B, o)
      else
        var (D, p) := Walk(F, view, f.value, ctx, B);
        (D, o + p)
    case Block(stmts, tail) =>
      var A := WalkStmts(F, view, stmts, T);
      if tail.None? then (A, {}) else Walk(F, view, tail.value, ctx, A)
    case Match(s, arms, _) =>
      var (A, c) := Walk(F, view, s, ReadCtx, T);
      WalkArms(F, view, arms, ctx, c, A)
    case ForRange(_, lo, hi, body) =>
      (Walk(F, view, body, MoveCtx, WalkOpt(F, view, hi, WalkOpt(F, view, lo, T))).0, {})
    case ForEach(_, iter, body) => (Walk(F, view, body, MoveCtx, Walk(F, view, iter, ReadCtx, T).0).0, {})
  }

  function WalkOpt(F: Fun, view: View, o: Option<Expr>, T: Taint): Taint
    decreases o, 2
  {
    if o.None? then T else Walk(F, view, o.value, ReadCtx, T).0
  }

  function WalkArgs(F: Fun, view: View, op: Op, contract: Contract, args: seq<Expr>, i: nat, ctx: Ctx,
        T: Taint): (Taint, Carriers)
    decreases args, 0
  {
    if args == [] then (T, {})
    else
      var (A, c) := Walk(F, view, args[0], OperandCtx(op, contract, i, ctx), T);
      var (B, rest) := WalkArgs(F, view, op, contract, args[1..], i + 1, ctx, Lend(F, op, contract, i, args[0], A));
      (B, (if FlowsOn(op, contract, i) then c else {}) + rest)
  }

  function WalkArms(F: Fun, view: View, arms: seq<Arm>, ctx: Ctx, c: Carriers, T: Taint): (Taint, Carriers)
    decreases arms, 0
  {
    if arms == [] then (T, {})
    else
      var (A, o) := WalkArm(F, view, arms[0], ctx, c, T);
      var (B, rest) := WalkArms(F, view, arms[1..], ctx, c, A);
      (B, o + rest)
  }

  function WalkArm(F: Fun, view: View, arm: Arm, ctx: Ctx, c: Carriers, T: Taint): (Taint, Carriers)
    decreases arm, 2
  {
    Walk(F, view, arm.body, ctx, CarryPat(F, arm.pat, c, T))
  }

  function WalkStmts(F: Fun, view: View, ss: seq<Stmt>, T: Taint): Taint
    decreases ss, 0
  {
    if ss == [] then T else WalkStmts(F, view, ss[1..], WalkStmt(F, view, ss[0], T))
  }

  /** A declaration overwrites what the binding carried, an assignment adds to it. */
  function WalkStmt(F: Fun, view: View, s: Stmt, T: Taint): Taint
    decreases s, 1
  {
    match s
    case Let(x, None) => Carry(T, x, {})
    case Let(x, Some(e)) =>
      var (A, c) := Walk(F, view, e, MoveCtx, T);
      Carry(A, x, c)
    case Assign(x, _, e) =>
      var (A, c) := Walk(F, view, e, MoveCtx, T);
      var B := FlagMutated(F, x, A);
      if c == {} then B else Carry(B, x, Carried(B, x) + c)
    case ExprStmt(e) => Walk(F, view, e, MoveCtx, T).0
    case Return(None) => T
    case Return(Some(e)) =>
      var (A, c) := Walk(F, view, e, MoveCtx, T);
      MarkEscaped(A, c)
  }

  /** The facts of a whole body and the callee contracts it was collected under. */
  function Collect(F: Fun, view: View): Taint {
    var (T, c) := Walk(F, view, F.body, MoveCtx, Taint(seq(|F.params|, _ => UNUSED), map[], map[]));
    MarkEscaped(T, c)
  }

  /** The contract a function gets from its facts under a view. */
  function Inferred(F: Fun, view: View): (r: Contract)
    ensures |r| == |F.copyParams|
  {
    ClassifyAll(F.copyParams, Collect(F, view).facts)
  }
}
