/** What a borrow contract promises about runs: nothing is consumed, nothing is written. */
module InferRuns {
  import opened Wrappers
  import opened Hir
  import opened Semantics
  import opened Effects
  import opened EnforceSound
  import opened Infer
  import opened InferUses

  /** The run reads the contracts the facts were collected under. */
  ghost predicate SameContracts(cs: Contracts, view: View) {
    forall d: Def, i: nat :: ContractAt(cs, d, i) == At(view(d), i)
  }

  /** A binding the run may treat as impossible to consume, or as impossible to write. */
  datatype Bar = Bar(x: Sym, unmoved: bool, unwritten: bool)

  function Barred(E: Env, b: Bar): Env {
    E.(copies := if b.unmoved then E.copies + {b.x} else E.copies,
       muts := if b.unwritten then E.muts - {b.x} else E.muts)
  }

  lemma SameCtx(cs: Contracts, view: View, op: Op, i: nat, ctx: Ctx)
    requires SameContracts(cs, view)
    ensures ArgCtx(cs, op, i, ctx) == OperandCtx(op, ContractOf(view, op), i, ctx)
  {
  }

  // ---------- calls ----------

  lemma {:induction false} NotLent(view: View, op: Op, args: seq<Expr>, i: nat, ctx: Ctx, x: Sym, k: nat)
    requires !UsesArgs(view, op, ContractOf(view, op), args, i, ctx, x, Mutates) && k < |args|
    ensures !LentTo(op, ContractOf(view, op), i + k, args[k], x)
    decreases args
  {
    hide Uses;
    if k > 0 {
      NotLent(view, op, args[1..], i + 1, ctx, x, k - 1);
    }
  }

  lemma {:induction false} NotTaken(view: View, op: Op, args: seq<Expr>, i: nat, ctx: Ctx, x: Sym, k: nat)
    requires !UsesArgs(view, op, ContractOf(view, op), args, i, ctx, x, Moves) && k < |args|
    requires op.Call? && Consumes(At(view(op.def), i + k))
    ensures TailVar(args[k]) != Some(x)
    decreases args
  {
    if k > 0 {
      hide Uses;
      NotTaken(view, op, args[1..], i + 1, ctx, x, k - 1);
    } else if TailVar(args[0]) == Some(x) {
      TailMoves(view, args[0], x);
    }
  }

  lemma {:induction false} TailMoves(view: View, e: Expr, x: Sym)
    requires TailVar(e) == Some(x)
    ensures Uses(view, e, MoveCtx, x, Moves)
  {
    if e.Block? {
      TailMoves(view, e.tail.value, x);
    }
  }

  lemma {:induction false} SameBorrows(E: Env, b: Bar, view: View, def: Def, args: seq<Expr>, n: nat, ctx: Ctx,
        h: Store)
    requires n <= |args| && SameContracts(E.contracts, view)
    requires b.unwritten ==> !UsesArgs(view, Call(def), view(def), args, 0, ctx, b.x, Mutates)
    ensures BorrowsLive(Barred(E, b), def, args, n, h) == BorrowsLive(E, def, args, n, h)
  {
    hide UsesArgs;
    if n > 0 {
      SameBorrows(E, b, view, def, args, n - 1, ctx, h);
      if b.unwritten {
        NotLent(view, Call(def), args, 0, ctx, b.x, n - 1);
      }
    }
  }

  lemma {:induction false} SameWriteBack(E: Env, b: Bar, def: Def, args: seq<Expr>, n: nat, outs: seq<Value>, h: Store)
    requires n <= |args|
    ensures WriteBack(Barred(E, b), def, args, n, outs, h) == WriteBack(E, def, args, n, outs, h)
    ensures Consumed(Barred(E, b), def, args, n, h) == Consumed(E, def, args, n, h)
  {
    if n > 0 {
      SameWriteBack(E, b, def, args, n - 1, outs, h);
    }
  }

  lemma SameFinish(E: Env, b: Bar, view: View, op: Op, args: seq<Expr>, vals: seq<Value>, ctx: Ctx, h: Store)
    requires SameContracts(E.contracts, view)
    requires b.unwritten ==> !UsesArgs(view, op, ContractOf(view, op), args, 0, ctx, b.x, Mutates)
    ensures Finish(Barred(E, b), op, args, vals, h) == Finish(E, op, args, vals, h)
  {
    hide UsesArgs, BorrowsLive, WriteBack, Consumed;
    if op.Call? {
      SameBorrows(E, b, view, op.def, args, |args|, ctx, h);
      var r := E.calls(op.def, vals);
      if r.CallDone? {
        SameWriteBack(E, b, op.def, args, |args|, r.outs, h);
        SameWriteBack(E, b, op.def, args, |args|, r.outs, WriteBack(E, op.def, args, |args|, r.outs, h));
      }
    }
  }

  // ---------- the run cannot tell ----------

  /** Nothing in the expression meets the bar. */
  predicate Clear(view: View, e: Expr, ctx: Ctx, b: Bar) {
    (b.unmoved ==> !Uses(view, e, ctx, b.x, Moves)) && (b.unwritten ==> !Uses(view, e, ctx, b.x, Mutates))
  }

  predicate ClearOpt(view: View, o: Option<Expr>, ctx: Ctx, b: Bar) {
    o.Some? ==> Clear(view, o.value, ctx, b)
  }

  predicate ClearArgs(view: View, op: Op, args: seq<Expr>, i: nat, ctx: Ctx, b: Bar) {
    (b.unmoved ==> !UsesArgs(view, op, ContractOf(view, op), args, i, ctx, b.x, Moves)) &&
    (b.unwritten ==> !UsesArgs(view, op, ContractOf(view, op), args, i, ctx, b.x, Mutates))
  }

  predicate ClearArms(view: View, arms: seq<Arm>, ctx: Ctx, b: Bar) {
    (b.unmoved ==> !UsesArms(view, arms, ctx, b.x, Moves)) && (b.unwritten ==> !UsesArms(view, arms, ctx, b.x, Mutates))
  }

  predicate ClearStmts(view: View, ss: seq<Stmt>, b: Bar) {
    (b.unmoved ==> !UsesStmts(view, ss, b.x, Moves)) && (b.unwritten ==> !UsesStmts(view, ss, b.x, Mutates))
  }

  predicate ClearStmt(view: View, s: Stmt, b: Bar) {
    (b.unmoved ==> !UsesStmt(view, s, b.x, Moves)) && (b.unwritten ==> !UsesStmt(view, s, b.x, Mutates))
  }

  lemma PartsClear(view: View, e: Expr, ctx: Ctx, b: Bar)
    requires Clear(view, e, ctx, b)
    ensures match e
            case Field(c, _, copy) => Clear(view, c, if copy then ReadCtx else ctx, b)
            case Prim(op, args) => ClearArgs(view, op, args, 0, ctx, b)
            case Logic(_, l, r) => Clear(view, l, ReadCtx, b) && Clear(view, r, ReadCtx, b)
            case If(c, t, f, _) => Clear(view, c, ReadCtx, b) && Clear(view, t, ctx, b) && ClearOpt(view, f, ctx, b)
            case Block(stmts, tail) => ClearStmts(view, stmts, b) && ClearOpt(view, tail, ctx, b)
            case Match(c, arms, _) => Clear(view, c, ReadCtx, b) && ClearArms(view, arms, ctx, b)
            case ForRange(_, lo, hi, body) =>
              ClearOpt(view, lo, ReadCtx, b) && ClearOpt(view, hi, ReadCtx, b) && Clear(view, body, MoveCtx, b)
            case ForEach(_, iter, body) => Clear(view, iter, ReadCtx, b) && Clear(view, body, MoveCtx, b)
            case Var(s) => b.unmoved && s == b.x ==> ctx.ReadCtx?
            case _ => true
  {
    hide ContractOf, OperandCtx;
    match e
    case If(c, t, f, _) => OptClear(view, f, ctx, b);
    case Block(stmts, tail) => OptClear(view, tail, ctx, b);
    case ForRange(_, lo, hi, body) =>
      OptClear(view, lo, ReadCtx, b);
      OptClear(view, hi, ReadCtx, b);
    case _ =>
  }

  lemma OptClear(view: View, o: Option<Expr>, ctx: Ctx, b: Bar)
    requires b.unmoved ==> !UsesOpt(view, o, ctx, b.x, Moves)
    requires b.unwritten ==> !UsesOpt(view, o, ctx, b.x, Mutates)
    ensures ClearOpt(view, o, ctx, b)
  {
  }

  lemma FirstClear(view: View, op: Op, args: seq<Expr>, i: nat, ctx: Ctx, b: Bar)
    requires args != [] && ClearArgs(view, op, args, i, ctx, b)
    ensures Clear(view, args[0], OperandCtx(op, ContractOf(view, op), i, ctx), b)
    ensures ClearArgs(view, op, args[1..], i + 1, ctx, b)
  {
    hide Uses, OperandCtx, ContractOf, LentTo;
  }

  lemma StmtClear(view: View, s: Stmt, b: Bar)
    requires ClearStmt(view, s, b)
    ensures match s
            case Let(_, init) => ClearOpt(view, init, MoveCtx, b)
            case Assign(y, _, e) => Clear(view, e, MoveCtx, b) && (b.unwritten ==> y != b.x)
            case ExprStmt(e) => Clear(view, e, MoveCtx, b)
            case Return(o) => ClearOpt(view, o, MoveCtx, b)
  {
    match s
    case Let(_, init) => OptClear(view, init, MoveCtx, b);
    case Return(o) => OptClear(view, o, MoveCtx, b);
    case _ =>
  }

  lemma ArmClear(view: View, arms: seq<Arm>, ctx: Ctx, b: Bar, k: nat)
    requires k < |arms| && ClearArms(view, arms, ctx, b)
    ensures Clear(view, arms[k].body, ctx, b)
    decreases arms
  {
    assert b.unmoved ==> !UsesArm(view, arms[0], ctx, b.x, Moves);
    assert b.unwritten ==> !UsesArm(view, arms[0], ctx, b.x, Mutates);
    if k > 0 {
      ArmClear(view, arms[1..], ctx, b, k - 1);
    }
  }

  /** Main result on runs: a run goes the same way when the binding cannot be consumed because it
      never occurs in a move position, and when it cannot be written because it never occurs in a
      written position. */
  lemma {:induction false} SameRun(E: Env, b: Bar, view: View, e: Expr, ctx: Ctx, h: Store)
    requires SameContracts(E.contracts, view) && Clear(view, e, ctx, b)
    ensures Eval(Barred(E, b), e, ctx, h) == Eval(E, e, ctx, h)
    decreases e, 1, 0
  {
    hide SameContracts, Clear;
    PartsClear(view, e, ctx, b);
    match e
    case Lit(_) =>
    case Poison =>
    case Var(_) =>
    case Field(c, _, copy) => SameRun(E, b, view, c, if copy then ReadCtx else ctx, h);
    case Prim(op, args) =>
      SameArgs(E, b, view, op, args, 0, ctx, h);
      var o := EvalArgs(E, op, args, 0, ctx, h);
      if o.NormSeq? {
        SameFinish(E, b, view, op, args, o.vals, ctx, o.h);
      }
    case Logic(_, l, r) =>
      SameRun(E, b, view, l, ReadCtx, h);
      var o := Eval(E, l, ReadCtx, h);
      if o.Norm? {
        SameRun(E, b, view, r, ReadCtx, o.h);
      }
    case If(c, t, f, _) =>
      SameRun(E, b, view, c, ReadCtx, h);
      var o := Eval(E, c, ReadCtx, h);
      if o.Norm? {
        SameRun(E, b, view, t, ctx, o.h);
        if f.Some? {
          SameRun(E, b, view, f.value, ctx, o.h);
        }
      }
    case Block(stmts, tail) =>
      SameStmts(E, b, view, stmts, h);
      var o := EvalStmts(E, stmts, h);
      if o.Norm? && tail.Some? {
        SameRun(E, b, view, tail.value, ctx, o.h);
      }
    case Match(_, _, _) => SameMatch(E, b, view, e, ctx, h);
    case ForRange(_, _, _, _) => SameRange(E, b, view, e, ctx, h);
    case ForEach(x, iter, body) =>
      SameRun(E, b, view, iter, ReadCtx, h);
      var o := Eval(E, iter, ReadCtx, h);
      if o.Norm? && o.v.ArrayV? {
        SameEach(E, b, view, x, body, o.v.elems, 0, o.h);
      }
  }

  lemma {:induction false} SameMatch(E: Env, b: Bar, view: View, e: Expr, ctx: Ctx, h: Store)
    requires e.Match? && SameContracts(E.contracts, view) && Clear(view, e, ctx, b)
    ensures Eval(Barred(E, b), e, ctx, h) == Eval(E, e, ctx, h)
    decreases e, 0, 0
  {
    hide SameContracts, BindArm, Clear, ClearArms;
    PartsClear(view, e, ctx, b);
    SameRun(E, b, view, e.scrut, ReadCtx, h);
    var o := Eval(E, e.scrut, ReadCtx, h);
    if o.Norm? && o.v.VariantV? && FindArm(e.arms, o.v.tag).Some? {
      var k := FindArm(e.arms, o.v.tag).value;
      ArmClear(view, e.arms, ctx, b, k);
      var g := BindArm(e.arms[k].pat, o.v, o.h);
      if g.Some? {
        SameRun(E, b, view, e.arms[k].body, ctx, g.value);
      }
    }
  }

  lemma {:induction false} SameRange(E: Env, b: Bar, view: View, e: Expr, ctx: Ctx, h: Store)
    requires e.ForRange? && SameContracts(E.contracts, view) && Clear(view, e, ctx, b)
    ensures Eval(Barred(E, b), e, ctx, h) == Eval(E, e, ctx, h)
    decreases e, 0, 0
  {
    hide SameContracts, Clear;
    PartsClear(view, e, ctx, b);
    SameBound(E, b, view, e.lo, h);
    var lo := EvalBound(E, e.lo, h);
    if lo.Norm? {
      SameBound(E, b, view, e.hi, lo.h);
      var hi := EvalBound(E, e.hi, lo.h);
      if hi.Norm? && lo.v.IntV? && hi.v.IntV? {
        SameCount(E, b, view, e.var_, e.body, lo.v.i, hi.v.i, hi.h);
      }
    }
  }

  lemma {:induction false} SameBound(E: Env, b: Bar, view: View, o: Option<Expr>, h: Store)
    requires SameContracts(E.contracts, view) && ClearOpt(view, o, ReadCtx, b)
    ensures EvalBound(Barred(E, b), o, h) == EvalBound(E, o, h)
    decreases o, 2, 0
  {
    if o.Some? {
      SameRun(E, b, view, o.value, ReadCtx, h);
    }
  }

  lemma {:induction false} SameArgs(E: Env, b: Bar, view: View, op: Op, args: seq<Expr>, i: nat, ctx: Ctx, h: Store)
    requires SameContracts(E.contracts, view) && ClearArgs(view, op, args, i, ctx, b)
    ensures EvalArgs(Barred(E, b), op, args, i, ctx, h) == EvalArgs(E, op, args, i, ctx, h)
    decreases args, 0, 0
  {
    hide SameContracts, Clear, ClearArgs, ArgCtx, OperandCtx, ContractOf;
    if args != [] {
      FirstClear(view, op, args, i, ctx, b);
      SameCtx(E.contracts, view, op, i, ctx);
      var c := ArgCtx(E.contracts, op, i, ctx);
      SameRun(E, b, view, args[0], c, h);
      var o := Eval(E, args[0], c, h);
      if o.Norm? {
        SameArgs(E, b, view, op, args[1..], i + 1, ctx, o.h);
      }
    }
  }

  lemma {:induction false} SameStmts(E: Env, b: Bar, view: View, ss: seq<Stmt>, h: Store)
    requires SameContracts(E.contracts, view) && ClearStmts(view, ss, b)
    ensures EvalStmts(Barred(E, b), ss, h) == EvalStmts(E, ss, h)
    decreases ss, 0, 0
  {
    hide SameContracts, UsesStmt;
    if ss != [] {
      SameStmt(E, b, view, ss[0], h);
      var o := EvalStmt(E, ss[0], h);
      if o.Norm? {
        SameStmts(E, b, view, ss[1..], o.h);
      }
    }
  }

  lemma {:induction false} SameStmt(E: Env, b: Bar, view: View, s: Stmt, h: Store)
    requires SameContracts(E.contracts, view) && ClearStmt(view, s, b)
    ensures EvalStmt(Barred(E, b), s, h) == EvalStmt(E, s, h)
    decreases s, 1, 0
  {
    hide SameContracts, ClearStmt, Clear;
    StmtClear(view, s, b);
    match s
    case Let(_, None) =>
    case Let(_, Some(e)) => SameRun(E, b, view, e, MoveCtx, h);
    case Assign(_, _, e) => SameRun(E, b, view, e, MoveCtx, h);
    case ExprStmt(e) => SameRun(E, b, view, e, MoveCtx, h);
    case Return(None) =>
    case Return(Some(e)) => SameRun(E, b, view, e, MoveCtx, h);
  }

  lemma {:induction false} SameCount(E: Env, b: Bar, view: View, x: Sym, body: Expr, i: int, n: int, h: Store)
    requires SameContracts(E.contracts, view) && Clear(view, body, MoveCtx, b)
    ensures CountLoop(Barred(E, b), x, body, i, n, h) == CountLoop(E, x, body, i, n, h)
    decreases body, 2, n - i
  {
    hide SameContracts, Clear;
    if i < n {
      var g := h[x := Live(IntV(i))];
      SameRun(E, b, view, body, MoveCtx, g);
      var o := Eval(E, body, MoveCtx, g);
      if o.Norm? {
        SameCount(E, b, view, x, body, i + 1, n, o.h);
      }
    }
  }

  lemma {:induction false} SameEach(E: Env, b: Bar, view: View, x: Sym, body: Expr, elems: seq<Value>, i: nat, h: Store)
    requires SameContracts(E.contracts, view) && Clear(view, body, MoveCtx, b)
    ensures EachLoop(Barred(E, b), x, body, elems, i, h) == EachLoop(E, x, body, elems, i, h)
    decreases body, 2, |elems| - i
  {
    hide SameContracts, Clear;
    if i < |elems| {
      var g := h[x := Live(elems[i])];
      SameRun(E, b, view, body, MoveCtx, g);
      var o := Eval(E, body, MoveCtx, g);
      if o.Norm? {
        SameEach(E, b, view, x, body, elems, i + 1, o.h);
      }
    }
  }

  // ---------- the slot keeps its value ----------

  /** The binding still holds a value, the same one where nothing writes it. */
  predicate Kept(b: Bar, h: Store, g: Store) {
    IsLive(h, b.x) ==> IsLive(g, b.x) && (b.unwritten ==> g[b.x] == h[b.x])
  }

  lemma KeptThen(b: Bar, h: Store, g: Store, k: Store)
    requires Kept(b, h, g) && Kept(b, g, k)
    ensures Kept(b, h, k)
  {
  }

  ghost predicate KeptOut(b: Bar, h: Store, o: Out) {
    o.Norm? ==> Kept(b, h, o.h)
  }

  lemma {:induction false} WriteBackSlot(E: Env, b: Bar, view: View, def: Def, args: seq<Expr>, n: nat,
        outs: seq<Value>,
        ctx: Ctx, h: Store)
    requires n <= |args| && SameContracts(E.contracts, view) && ClearArgs(view, Call(def), args, 0, ctx, b)
    ensures Kept(b, h, WriteBack(E, def, args, n, outs, h))
  {
    hide UsesArgs;
    if n > 0 {
      WriteBackSlot(E, b, view, def, args, n - 1, outs, ctx, h);
      if b.unwritten {
        NotLent(view, Call(def), args, 0, ctx, b.x, n - 1);
      }
    }
  }

  lemma {:induction false} ConsumedSlot(E: Env, b: Bar, view: View, def: Def, args: seq<Expr>, n: nat, ctx: Ctx,
        h: Store)
    requires n <= |args| && SameContracts(E.contracts, view) && ClearArgs(view, Call(def), args, 0, ctx, b) && b.unmoved
    ensures Kept(b, h, Consumed(E, def, args, n, h))
  {
    hide UsesArgs;
    if n > 0 {
      ConsumedSlot(E, b, view, def, args, n - 1, ctx, h);
      if Consumes(ContractAt(E.contracts, def, n - 1)) {
        NotTaken(view, Call(def), args, 0, ctx, b.x, n - 1);
      }
    }
  }

  lemma FinishSlot(E: Env, b: Bar, view: View, op: Op, args: seq<Expr>, vals: seq<Value>, ctx: Ctx, h: Store)
    requires SameContracts(E.contracts, view) && ClearArgs(view, op, args, 0, ctx, b) && b.unmoved
    ensures KeptOut(b, h, Finish(E, op, args, vals, h))
  {
    hide UsesArgs, BorrowsLive, WriteBack, Consumed;
    if op.Call? {
      var r := E.calls(op.def, vals);
      if r.CallDone? {
        WriteBackSlot(E, b, view, op.def, args, |args|, r.outs, ctx, h);
        var g := WriteBack(E, op.def, args, |args|, r.outs, h);
        ConsumedSlot(E, b, view, op.def, args, |args|, ctx, g);
      }
    }
  }

  lemma {:induction false} BindSlot(b: Bar, p: Pat, v: Value, h: Store)
    requires v.VariantV? && b.x !in PatSyms(p) && BindArm(p, v, h).Some?
    ensures Kept(b, h, BindArm(p, v, h).value)
  {
    if p.VariantPat? {
      BindPayloadKeeps(p.binds, |p.binds|, v.payload, h, b.x);
    }
  }

  lemma ArmInScope(arms: seq<Arm>, sc: set<Sym>, k: nat)
    requires k < |arms| && ScopedArms(arms, sc)
    ensures ScopedArm(arms[k], sc)
    decreases arms
  {
    if k > 0 {
      ArmInScope(arms[1..], sc, k - 1);
    }
  }

  /** A binding in scope that never occurs in a move position still holds a value where the
      expression ends normally, and the same value if it is never written either. */
  lemma {:induction false} SlotStays(E: Env, b: Bar, view: View, e: Expr, ctx: Ctx, h: Store, sc: set<Sym>)
    requires SameContracts(E.contracts, view) && b.unmoved && Clear(view, e, ctx, b) && Scoped(e, sc) && b.x in sc
    ensures KeptOut(b, h, Eval(E, e, ctx, h))
    decreases e, 1, 0
  {
    hide SameContracts, Clear;
    PartsClear(view, e, ctx, b);
    match e
    case Lit(_) =>
    case Poison =>
    case Var(_) =>
    case Field(c, _, copy) => SlotStays(E, b, view, c, if copy then ReadCtx else ctx, h, sc);
    case Prim(op, args) =>
      ArgsSlot(E, b, view, op, args, 0, ctx, h, sc);
      var o := EvalArgs(E, op, args, 0, ctx, h);
      if o.NormSeq? {
        FinishSlot(E, b, view, op, args, o.vals, ctx, o.h);
      }
    case Logic(_, l, r) =>
      SlotStays(E, b, view, l, ReadCtx, h, sc);
      var o := Eval(E, l, ReadCtx, h);
      if o.Norm? {
        SlotStays(E, b, view, r, ReadCtx, o.h, sc);
      }
    case If(c, t, f, _) =>
      SlotStays(E, b, view, c, ReadCtx, h, sc);
      var o := Eval(E, c, ReadCtx, h);
      if o.Norm? {
        SlotStays(E, b, view, t, ctx, o.h, sc);
        if f.Some? {
          SlotStays(E, b, view, f.value, ctx, o.h, sc);
        }
      }
    case Block(stmts, tail) =>
      StmtsSlot(E, b, view, stmts, h, sc);
      var o := EvalStmts(E, stmts, h);
      if o.Norm? && tail.Some? {
        SlotStays(E, b, view, tail.value, ctx, o.h, ScopeAfter(stmts, sc));
      }
    case Match(_, _, _) => MatchSlot(E, b, view, e, ctx, h, sc);
    case ForRange(_, _, _, _) => RangeSlot(E, b, view, e, ctx, h, sc);
    case ForEach(x, iter, body) =>
      SlotStays(E, b, view, iter, ReadCtx, h, sc);
      var o := Eval(E, iter, ReadCtx, h);
      if o.Norm? && o.v.ArrayV? {
        EachSlot(E, b, view, x, body, o.v.elems, 0, o.h, sc);
      }
  }

  lemma {:induction false} MatchSlot(E: Env, b: Bar, view: View, e: Expr, ctx: Ctx, h: Store, sc: set<Sym>)
    requires e.Match? && SameContracts(E.contracts, view) && b.unmoved && Clear(view, e, ctx, b)
    requires Scoped(e, sc) && b.x in sc
    ensures KeptOut(b, h, Eval(E, e, ctx, h))
    decreases e, 0, 0
  {
    hide SameContracts, BindArm, Kept, Clear, ClearArms;
    PartsClear(view, e, ctx, b);
    SlotStays(E, b, view, e.scrut, ReadCtx, h, sc);
    var o := Eval(E, e.scrut, ReadCtx, h);
    if o.Norm? && o.v.VariantV? && FindArm(e.arms, o.v.tag).Some? {
      var k := FindArm(e.arms, o.v.tag).value;
      ArmClear(view, e.arms, ctx, b, k);
      ArmInScope(e.arms, sc, k);
      var g := BindArm(e.arms[k].pat, o.v, o.h);
      if g.Some? {
        BindSlot(b, e.arms[k].pat, o.v, o.h);
        SlotStays(E, b, view, e.arms[k].body, ctx, g.value, sc + PatSyms(e.arms[k].pat));
        var r := Eval(E, e.arms[k].body, ctx, g.value);
        if r.Norm? {
          KeptThen(b, h, o.h, g.value);
          KeptThen(b, h, g.value, r.h);
        }
      }
    }
  }

  lemma {:induction false} RangeSlot(E: Env, b: Bar, view: View, e: Expr, ctx: Ctx, h: Store, sc: set<Sym>)
    requires e.ForRange? && SameContracts(E.contracts, view) && b.unmoved && Clear(view, e, ctx, b)
    requires Scoped(e, sc) && b.x in sc
    ensures KeptOut(b, h, Eval(E, e, ctx, h))
    decreases e, 0, 0
  {
    hide SameContracts, Clear;
    PartsClear(view, e, ctx, b);
    BoundSlot(E, b, view, e.lo, h, sc);
    var lo := EvalBound(E, e.lo, h);
    if lo.Norm? {
      BoundSlot(E, b, view, e.hi, lo.h, sc);
      var hi := EvalBound(E, e.hi, lo.h);
      if hi.Norm? && lo.v.IntV? && hi.v.IntV? {
        CountSlot(E, b, view, e.var_, e.body, lo.v.i, hi.v.i, hi.h, sc);
      }
    }
  }

  lemma {:induction false} BoundSlot(E: Env, b: Bar, view: View, o: Option<Expr>, h: Store, sc: set<Sym>)
    requires SameContracts(E.contracts, view) && b.unmoved && ClearOpt(view, o, ReadCtx, b)
    requires ScopedOpt(o, sc) && b.x in sc
    ensures KeptOut(b, h, EvalBound(E, o, h))
    decreases o, 2, 0
  {
    if o.Some? {
      SlotStays(E, b, view, o.value, ReadCtx, h, sc);
    }
  }

  lemma {:induction false} ArgsSlot(E: Env, b: Bar, view: View, op: Op, args: seq<Expr>, i: nat, ctx: Ctx, h: Store,
        sc: set<Sym>)
    requires SameContracts(E.contracts, view) && b.unmoved && ClearArgs(view, op, args, i, ctx, b)
    requires ScopedAll(args, sc) && b.x in sc
    ensures var o := EvalArgs(E, op, args, i, ctx, h); o.NormSeq? ==> Kept(b, h, o.h)
    decreases args, 0, 0
  {
    hide SameContracts, Clear, ClearArgs, ArgCtx, OperandCtx, ContractOf;
    if args != [] {
      FirstClear(view, op, args, i, ctx, b);
      SameCtx(E.contracts, view, op, i, ctx);
      var c := ArgCtx(E.contracts, op, i, ctx);
      SlotStays(E, b, view, args[0], c, h, sc);
      var o := Eval(E, args[0], c, h);
      if o.Norm? {
        ArgsSlot(E, b, view, op, args[1..], i + 1, ctx, o.h, sc);
      }
    }
  }

  lemma {:induction false} StmtsSlot(E: Env, b: Bar, view: View, ss: seq<Stmt>, h: Store, sc: set<Sym>)
    requires SameContracts(E.contracts, view) && b.unmoved && ClearStmts(view, ss, b)
    requires ScopedStmts(ss, sc) && b.x in sc
    ensures KeptOut(b, h, EvalStmts(E, ss, h))
    decreases ss, 0, 0
  {
    hide SameContracts, UsesStmt;
    if ss != [] {
      StmtSlot(E, b, view, ss[0], h, sc);
      var o := EvalStmt(E, ss[0], h);
      if o.Norm? {
        StmtsSlot(E, b, view, ss[1..], o.h, sc + DeclaredBy(ss[0]));
      }
    }
  }

  lemma {:induction false} StmtSlot(E: Env, b: Bar, view: View, s: Stmt, h: Store, sc: set<Sym>)
    requires SameContracts(E.contracts, view) && b.unmoved && ClearStmt(view, s, b) && ScopedStmt(s, sc) && b.x in sc
    ensures KeptOut(b, h, EvalStmt(E, s, h))
    decreases s, 1, 0
  {
    hide SameContracts, ClearStmt, Clear;
    StmtClear(view, s, b);
    match s
    case Let(_, None) =>
    case Let(_, Some(e)) => SlotStays(E, b, view, e, MoveCtx, h, sc);
    case Assign(_, _, e) => SlotStays(E, b, view, e, MoveCtx, h, sc);
    case ExprStmt(e) => SlotStays(E, b, view, e, MoveCtx, h, sc);
    case Return(_) =>
  }

  lemma {:induction false} CountSlot(E: Env, b: Bar, view: View, x: Sym, body: Expr, i: int, n: int, h: Store,
        sc: set<Sym>)
    requires SameContracts(E.contracts, view) && b.unmoved && Clear(view, body, MoveCtx, b)
    requires x !in sc && Scoped(body, sc + {x}) && b.x in sc
    ensures KeptOut(b, h, CountLoop(E, x, body, i, n, h))
    decreases body, 2, n - i
  {
    hide SameContracts, Clear;
    if i < n {
      var g := h[x := Live(IntV(i))];
      SlotStays(E, b, view, body, MoveCtx, g, sc + {x});
      var o := Eval(E, body, MoveCtx, g);
      if o.Norm? {
        CountSlot(E, b, view, x, body, i + 1, n, o.h, sc);
      }
    }
  }

  lemma {:induction false} EachSlot(E: Env, b: Bar, view: View, x: Sym, body: Expr, elems: seq<Value>, i: nat, h: Store,
        sc: set<Sym>)
    requires SameContracts(E.contracts, view) && b.unmoved && Clear(view, body, MoveCtx, b)
    requires x !in sc && Scoped(body, sc + {x}) && b.x in sc
    ensures KeptOut(b, h, EachLoop(E, x, body, elems, i, h))
    decreases body, 2, |elems| - i
  {
    hide SameContracts, Clear;
    if i < |elems| {
      var g := h[x := Live(elems[i])];
      SlotStays(E, b, view, body, MoveCtx, g, sc + {x});
      var o := Eval(E, body, MoveCtx, g);
      if o.Norm? {
        EachSlot(E, b, view, x, body, elems, i + 1, o.h, sc);
      }
    }
  }

  // ---------- contracts ----------

  /** Main result on contracts: a parameter inferred as borrowed behaves in every run as if it
      could not be consumed, and one borrowed for reading as if it could not be written either; at
      a normal end it still holds a value, in the latter case the one it started with. */
  lemma BorrowKept(F: Fun, view: View, i: nat, E: Env, h: Store)
    requires i < |F.params| && |F.copyParams| == |F.params| && Position(F.params, F.params[i]) == Some(i)
    requires SameContracts(E.contracts, view) && Scoped(F.body, set s | s in F.params)
    requires Inferred(F, view)[i] in {Borrow, BorrowMut}
    ensures var b := Bar(F.params[i], true, Inferred(F, view)[i] == Borrow);
      && Eval(Barred(E, b), F.body, MoveCtx, h) == Eval(E, F.body, MoveCtx, h)
      && KeptOut(b, h, Eval(E, F.body, MoveCtx, h))
  {
    hide Uses, Eval, Scoped, SameContracts, Kept;
    FactsExact(F, view, i, Moves);
    FactsExact(F, view, i, Mutates);
    var b := Bar(F.params[i], true, Inferred(F, view)[i] == Borrow);
    assert Clear(view, F.body, MoveCtx, b);
    SameRun(E, b, view, F.body, MoveCtx, h);
    SlotStays(E, b, view, F.body, MoveCtx, h, set s | s in F.params);
  }

  /** Which contract a parameter of a non-copy type gets, told by its positions. */
  lemma ContractExact(F: Fun, view: View, i: nat)
    requires i < |F.params| && |F.copyParams| == |F.params| && Position(F.params, F.params[i]) == Some(i)
    requires !F.copyParams[i] && Inferred(F, view)[i] != Escape
    ensures var uses := (use: Use) => Uses(view, F.body, MoveCtx, F.params[i], use);
      Inferred(F, view)[i] ==
      if uses(Moves) then Move else if uses(Mutates) then BorrowMut else if uses(Reads) then Borrow else Move
  {
    hide Uses;
    FactsExact(F, view, i, Moves);
    FactsExact(F, view, i, Mutates);
    FactsExact(F, view, i, Reads);
  }
}
