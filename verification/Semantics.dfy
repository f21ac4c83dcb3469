/** Reference semantics of a function body: left to right, by value, one big step.
    `Misuse` is the outcome of touching storage that the ownership rules forbid: a read of
    a binding that holds no value and, in strict runs, a second write to a binding that is
    not declared `mut`. In strict runs a move position also consumes its binding. */
module Semantics {
  import opened Wrappers
  import opened Hir

  /** A binding that is absent from the store was never written; `Hole` was moved out. */
  datatype Slot = Hole | Live(v: Value)
  type Store = map<Sym, Slot>

  /** `outs[i]` is what the callee leaves in argument `i`'s storage. */
  datatype CallResult = CallTrap | CallDone(ret: Value, outs: seq<Value>)

  datatype Env = Env(
    copies: set<Sym>,
    muts: set<Sym>,
    contracts: Contracts,
    strict: bool,
    calls: (Def, seq<Value>) -> CallResult)

  datatype Out = Norm(v: Value, h: Store) | Ret(v: Value) | Trap | Misuse

  datatype OutSeq = NormSeq(vals: seq<Value>, h: Store) | Stop(o: Out)

  predicate IsLive(h: Store, s: Sym) {
    s in h && h[s].Live?
  }

  /** The binding a place expression starts from. */
  function PlaceBase(e: Expr): Option<Sym> {
    match e
    case Var(s) => Some(s)
    case Field(b, _, _) => PlaceBase(b)
    case _ => None
  }

  /** The field projections of a place expression, outermost binding first. */
  function PlacePath(e: Expr): seq<nat> {
    match e
    case Field(b, f, _) => PlacePath(b) + [f]
    case _ => []
  }

  /** The binding whose storage the expression's value still sits in, if any. */
  function TailVar(e: Expr): Option<Sym> {
    match e
    case Var(s) => Some(s)
    case Block(_, Some(t)) => TailVar(t)
    case _ => None
  }

  function SetPath(v: Value, path: seq<nat>, x: Value): Option<Value>
    decreases |path|
  {
    if path == [] then Some(x)
    else if v.StructV? && path[0] in v.fields then
      match SetPath(v.fields[path[0]], path[1..], x)
      case Some(w) => Some(StructV(v.def, v.fields[path[0] := w]))
      case None => None
    else None
  }

  // ---------- calls ----------

  /** When the call starts, every borrowed place argument still holds its value, and the ones
      the callee may write to are declared `mut`. */
  predicate BorrowsLive(E: Env, def: Def, args: seq<Expr>, n: nat, h: Store)
    requires n <= |args|
  {
    n == 0 ||
    (BorrowsLive(E, def, args, n - 1, h) &&
     (ContractAt(E.contracts, def, n - 1) in {Borrow, BorrowMut} && PlaceBase(args[n - 1]).Some?
      ==> IsLive(h, PlaceBase(args[n - 1]).value)
          && (ContractAt(E.contracts, def, n - 1).BorrowMut? ==> PlaceBase(args[n - 1]).value in E.muts)))
  }

  /** What the callee left in the storage of its `BorrowMut` place arguments. */
  function WriteBack(E: Env, def: Def, args: seq<Expr>, n: nat, outs: seq<Value>, h: Store): Store
    requires n <= |args|
  {
    if n == 0 then h
    else
      var g := WriteBack(E, def, args, n - 1, outs, h);
      var arg := args[n - 1];
      if ContractAt(E.contracts, def, n - 1) != BorrowMut || PlaceBase(arg).None? || |outs| < n then g
      else if !IsLive(g, PlaceBase(arg).value) then g
      else
        match SetPath(g[PlaceBase(arg).value].v, PlacePath(arg), outs[n - 1])
        case Some(w) => g[PlaceBase(arg).value := Live(w)]
        case None => g
  }

  /** The executor empties the storage of consumed arguments after the call. */
  function Consumed(E: Env, def: Def, args: seq<Expr>, n: nat, h: Store): Store
    requires n <= |args|
  {
    if n == 0 then h
    else
      var g := Consumed(E, def, args, n - 1, h);
      if Consumes(ContractAt(E.contracts, def, n - 1)) && TailVar(args[n - 1]).Some?
      then g[TailVar(args[n - 1]).value := Hole]
      else g
  }

  function FinishCall(E: Env, def: Def, args: seq<Expr>, vals: seq<Value>, h: Store): Out {
    if E.strict && !BorrowsLive(E, def, args, |args|, h) then Misuse
    else
      match E.calls(def, vals)
      case CallTrap => Trap
      case CallDone(ret, outs) =>
        var h1 := WriteBack(E, def, args, |args|, outs, h);
        Norm(ret, if E.strict then h1 else Consumed(E, def, args, |args|, h1))
  }

  function Finish(E: Env, op: Op, args: seq<Expr>, vals: seq<Value>, h: Store): Out {
    if op.Call? then FinishCall(E, op.def, args, vals, h)
    else
      match Apply(op, vals)
      case Some(v) => Norm(v, h)
      case None => Trap
  }

  // ---------- patterns ----------

  predicate PatMatches(p: Pat, tag: nat) {
    p.BindPat? || (p.VariantPat? && p.variant == tag)
  }

  /** The first arm, in written order, whose pattern matches. */
  function FindArm(arms: seq<Arm>, tag: nat): (r: Option<nat>)
    ensures r.Some? ==> r.value < |arms| && PatMatches(arms[r.value].pat, tag)
    ensures forall j: nat :: j < (if r.Some? then r.value else |arms|) ==> !PatMatches(arms[j].pat, tag)
  {
    if arms == [] then None
    else if PatMatches(arms[0].pat, tag) then Some(0)
    else
      var r := FindArm(arms[1..], tag);
      assert forall j: nat :: 0 < j < |arms| ==> arms[j] == arms[1..][j - 1];
      if r.Some? then Some(r.value + 1) else None
  }

  /** Binds payload elements `0..n`; `None` when a bound position does not exist. */
  function BindPayload(binds: seq<Option<Sym>>, n: nat, payload: seq<Value>, h: Store): Option<Store>
    requires n <= |binds|
  {
    if n == 0 then Some(h)
    else
      match BindPayload(binds, n - 1, payload, h)
      case None => None
      case Some(g) =>
        if binds[n - 1].None? then Some(g)
        else if n - 1 < |payload| then Some(g[binds[n - 1].value := Live(payload[n - 1])])
        else None
  }

  function BindArm(p: Pat, v: Value, h: Store): Option<Store>
    requires v.VariantV?
  {
    match p
    case VariantPat(_, binds) => BindPayload(binds, |binds|, v.payload, h)
    case BindPat(Some(s)) => Some(h[s := Live(v)])
    case _ => Some(h)
  }

  // ---------- evaluation ----------

  function Coerce(unit: bool, o: Out): Out {
    if unit && o.Norm? then Norm(UnitV, o.h) else o
  }

  /** Reading a binding; a strict run consumes it in a move position. */
  function ReadVar(E: Env, s: Sym, ctx: Ctx, h: Store): Out {
    if !IsLive(h, s) then Misuse
    else Norm(h[s].v, if E.strict && ctx.MoveCtx? && s !in E.copies then h[s := Hole] else h)
  }

  function Write(E: Env, s: Sym, path: seq<nat>, v: Value, h: Store): Out {
    if path == [] then
      if E.strict && s !in E.muts && s in h then Misuse else Norm(UnitV, h[s := Live(v)])
    else if (E.strict && s !in E.muts) || !IsLive(h, s) then Misuse
    else
      match SetPath(h[s].v, path, v)
      case Some(w) => Norm(UnitV, h[s := Live(w)])
      case None => Trap
  }

  function Eval(E: Env, e: Expr, ctx: Ctx, h: Store): Out
    decreases e, 1, 0
  {
    match e
    case Lit(v) => Norm(v, h)
    case Poison => Norm(UnitV, h)
    case Var(s) => ReadVar(E, s, ctx, h)
    case Field(b, f, copy) =>
      var o := Eval(E, b, if copy then ReadCtx else ctx, h);
      if !o.Norm? then o
      else if o.v.StructV? && f in o.v.fields then Norm(o.v.fields[f], o.h)
      else Trap
    case Prim(op, args) =>
      var o := EvalArgs(E, op, args, 0, ctx, h);
      if o.Stop? then o.o else Finish(E, op, args, o.vals, o.h)
    case Logic(isOr, l, r) =>
      var o := Eval(E, l, ReadCtx, h);
      if !o.Norm? then o
      else if !o.v.BoolV? then Trap
      else if o.v.b == isOr then o
      else Eval(E, r, ReadCtx, o.h)
    case If(c, t, f, unit) =>
      var o := Eval(E, c, ReadCtx, h);
      if !o.Norm? then o
      else if !o.v.BoolV? then Trap
      else if o.v.b then Coerce(unit, Eval(E, t, ctx, o.h))
      else if f.Some? then Coerce(unit, Eval(E, f.value, ctx, o.h))
      else Norm(UnitV, o.h)
    case Block(stmts, tail) =>
      var o := EvalStmts(E, stmts, h);
      if !o.Norm? || tail.None? then o else Eval(E, tail.value, ctx, o.h)
    case Match(scrut, arms, unit) =>
      var o := Eval(E, scrut, ReadCtx, h);
      if !o.Norm? then o
      else if !o.v.VariantV? || FindArm(arms, o.v.tag).None? then Trap
      else
        var arm := arms[FindArm(arms, o.v.tag).value];
        var g := BindArm(arm.pat, o.v, o.h);
        if g.None? then Trap else Coerce(unit, Eval(E, arm.body, ctx, g.value))
    case ForRange(x, lo, hi, body) =>
      var a := EvalBound(E, lo, h);
      if !a.Norm? then a
      else
        var b := EvalBound(E, hi, a.h);
        if !b.Norm? then b
        else if !a.v.IntV? || !b.v.IntV? then Trap
        else CountLoop(E, x, body, a.v.i, b.v.i, b.h)
    case ForEach(x, iter, body) =>
      var o := Eval(E, iter, ReadCtx, h);
      if !o.Norm? then o
      else if !o.v.ArrayV? then Trap
      else EachLoop(E, x, body, o.v.elems, 0, o.h)
  }

  /** Operands `i..` of an operation whose remaining operands are `args`. */
  function EvalArgs(E: Env, op: Op, args: seq<Expr>, i: nat, ctx: Ctx, h: Store): (r: OutSeq)
    ensures if r.Stop? then !r.o.Norm? else |r.vals| == |args|
    decreases args, 0, 0
  {
    if args == [] then NormSeq([], h)
    else
      var o := Eval(E, args[0], ArgCtx(E.contracts, op, i, ctx), h);
      if !o.Norm? then Stop(o)
      else
        var rest := EvalArgs(E, op, args[1..], i + 1, ctx, o.h);
        if rest.Stop? then rest else NormSeq([o.v] + rest.vals, rest.h)
  }

  /** A missing range bound counts as zero. */
  function EvalBound(E: Env, bound: Option<Expr>, h: Store): Out
    decreases bound, 2, 0
  {
    if bound.None? then Norm(IntV(0), h) else Eval(E, bound.value, ReadCtx, h)
  }

  function EvalStmts(E: Env, stmts: seq<Stmt>, h: Store): (r: Out)
    ensures r.Norm? ==> r.v == UnitV
    decreases stmts, 0, 0
  {
    if stmts == [] then Norm(UnitV, h)
    else
      var o := EvalStmt(E, stmts[0], h);
      if !o.Norm? then o else EvalStmts(E, stmts[1..], o.h)
  }

  function EvalStmt(E: Env, s: Stmt, h: Store): (r: Out)
    ensures r.Norm? ==> r.v == UnitV
    decreases s, 1, 0
  {
    match s
    case Let(x, None) => Norm(UnitV, h - {x})
    case Let(x, Some(e)) =>
      var o := Eval(E, e, MoveCtx, h);
      if !o.Norm? then o else Norm(UnitV, o.h[x := Live(o.v)])
    case Assign(x, path, e) =>
      var o := Eval(E, e, MoveCtx, h);
      if !o.Norm? then o else Write(E, x, path, o.v, o.h)
    case ExprStmt(e) =>
      var o := Eval(E, e, MoveCtx, h);
      if !o.Norm? then o else Norm(UnitV, o.h)
    case Return(None) => Ret(UnitV)
    case Return(Some(e)) =>
      var o := Eval(E, e, MoveCtx, h);
      if !o.Norm? then o else Ret(o.v)
  }

  /** `body` once for every integer of `i..n`; the bounds are already fixed. */
  function CountLoop(E: Env, x: Sym, body: Expr, i: int, n: int, h: Store): Out
    decreases body, 2, n - i
  {
    if i >= n then Norm(UnitV, h - {x})
    else
      var o := Eval(E, body, MoveCtx, h[x := Live(IntV(i))]);
      if !o.Norm? then o else CountLoop(E, x, body, i + 1, n, o.h)
  }

  /** `body` once for every element from position `i` of the snapshot `elems`. */
  function EachLoop(E: Env, x: Sym, body: Expr, elems: seq<Value>, i: nat, h: Store): Out
    decreases body, 2, |elems| - i
  {
    if i >= |elems| then Norm(UnitV, h - {x})
    else
      var o := Eval(E, body, MoveCtx, h[x := Live(elems[i])]);
      if !o.Norm? then o else EachLoop(E, x, body, elems, i + 1, o.h)
  }
}
