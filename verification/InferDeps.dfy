/** What inferred facts depend on: only the callee contracts the walk recorded, and those
    callees occur in the body. */
module InferDeps {
  import opened Wrappers
  import opened Hir
  import opened Semantics
  import opened Infer

  /** The functions called anywhere in a tree. */
  function Callees(e: Expr): set<Def>
    decreases e, 1
  {
    match e
    case Field(b, _, _) => Callees(b)
    case Prim(op, args) => (if op.Call? then {op.def} else {}) + CalleesAll(args)
    case Logic(_, l, r) => Callees(l) + Callees(r)
    case If(c, t, f, _) => Callees(c) + Callees(t) + CalleesOpt(f)
    case Block(stmts, tail) => CalleesStmts(stmts) + CalleesOpt(tail)
    case Match(s, arms, _) => Callees(s) + CalleesArms(arms)
    case ForRange(_, lo, hi, body) => CalleesOpt(lo) + CalleesOpt(hi) + Callees(body)
    case ForEach(_, iter, body) => Callees(iter) + Callees(body)
    case _ => {}
  }

  function CalleesOpt(o: Option<Expr>): set<Def>
    decreases o, 2
  {
    if o.None? then {} else Callees(o.value)
  }

  function CalleesAll(es: seq<Expr>): set<Def>
    decreases es, 0
  {
    if es == [] then {} else Callees(es[0]) + CalleesAll(es[1..])
  }

  function CalleesArms(arms: seq<Arm>): set<Def>
    decreases arms, 0
  {
    if arms == [] then {} else CalleesArm(arms[0]) + CalleesArms(arms[1..])
  }

  function CalleesArm(arm: Arm): set<Def>
    decreases arm, 2
  {
    Callees(arm.body)
  }

  function CalleesStmts(ss: seq<Stmt>): set<Def>
    decreases ss, 0
  {
    if ss == [] then {} else CalleesStmt(ss[0]) + CalleesStmts(ss[1..])
  }

  function CalleesStmt(s: Stmt): set<Def>
    decreases s, 1
  {
    match s
    case Let(_, init) => CalleesOpt(init)
    case Assign(_, _, e) => Callees(e)
    case ExprStmt(e) => Callees(e)
    case Return(o) => CalleesOpt(o)
  }

  // ---------- the traversal with an explicit stack ----------

  lemma {:induction false} CalleesAppend(a: seq<Expr>, b: seq<Expr>)
    ensures CalleesAll(a + b) == CalleesAll(a) + CalleesAll(b)
  {
    if a == [] {
      assert a + b == b;
    } else {
      CalleesAppend(a[1..], b);
      assert (a + b)[1..] == a[1..] + b && (a + b)[0] == a[0];
    }
  }

  /** The direct subexpressions of an expression. */
  function Children(e: Expr): seq<Expr> {
    match e
    case Field(b, _, _) => [b]
    case Prim(_, args) => args
    case Logic(_, l, r) => [l, r]
    case If(c, t, f, _) => [c, t] + OptList(f)
    case Block(stmts, tail) => StmtExprs(stmts) + OptList(tail)
    case Match(s, arms, _) => [s] + ArmBodies(arms)
    case ForRange(_, lo, hi, body) => OptList(lo) + OptList(hi) + [body]
    case ForEach(_, iter, body) => [iter, body]
    case _ => []
  }

  function OptList(o: Option<Expr>): seq<Expr> {
    if o.None? then [] else [o.value]
  }

  function StmtExprs(ss: seq<Stmt>): seq<Expr> {
    if ss == [] then []
    else
      (match ss[0]
       case Let(_, init) => OptList(init)
       case Assign(_, _, e) => [e]
       case ExprStmt(e) => [e]
       case Return(o) => OptList(o)) + StmtExprs(ss[1..])
  }

  function ArmBodies(arms: seq<Arm>): seq<Expr> {
    if arms == [] then [] else [arms[0].body] + ArmBodies(arms[1..])
  }

  lemma {:induction false} OptCallees(o: Option<Expr>)
    ensures CalleesAll(OptList(o)) == CalleesOpt(o)
  {
    if o.Some? {
      assert [o.value][1..] == [];
    }
  }

  lemma {:induction false} StmtCallees(ss: seq<Stmt>)
    ensures CalleesAll(StmtExprs(ss)) == CalleesStmts(ss)
  {
    if ss != [] {
      StmtCallees(ss[1..]);
      var first := match ss[0]
        case Let(_, init) => OptList(init)
        case Assign(_, _, e) => [e]
        case ExprStmt(e) => [e]
        case Return(o) => OptList(o);
      CalleesAppend(first, StmtExprs(ss[1..]));
      match ss[0]
      case Let(_, init) => OptCallees(init);
      case Assign(_, _, e) => assert [e][1..] == [];
      case ExprStmt(e) => assert [e][1..] == [];
      case Return(o) => OptCallees(o);
    }
  }

  lemma {:induction false} ArmCallees(arms: seq<Arm>)
    ensures CalleesAll(ArmBodies(arms)) == CalleesArms(arms)
  {
    if arms != [] {
      ArmCallees(arms[1..]);
      assert ([arms[0].body] + ArmBodies(arms[1..]))[1..] == ArmBodies(arms[1..]);
    }
  }

  lemma PairCallees(a: Expr, b: Expr)
    ensures CalleesAll([a, b]) == Callees(a) + Callees(b)
  {
    assert [a, b][1..] == [b];
    OneCallees(b);
  }

  lemma OneCallees(e: Expr)
    ensures CalleesAll([e]) == Callees(e)
  {
    assert [e][1..] == [] && CalleesAll([]) == {};
  }

  lemma ChildrenCallees(e: Expr)
    ensures Callees(e) == CalleesAll(Children(e)) + (if e.Prim? && e.op.Call? then {e.op.def} else {})
  {
    match e
    case Field(b, _, _) => assert [b][1..] == [];
    case Prim(_, _) =>
    case Logic(_, l, r) => PairCallees(l, r);
    case If(c, t, f, _) =>
      PairCallees(c, t);
      OptCallees(f);
      CalleesAppend([c, t], OptList(f));
    case Block(stmts, tail) =>
      StmtCallees(stmts);
      OptCallees(tail);
      CalleesAppend(StmtExprs(stmts), OptList(tail));
    case Match(s, arms, _) =>
      ArmCallees(arms);
      assert ([s] + ArmBodies(arms))[1..] == ArmBodies(arms);
    case ForRange(_, lo, hi, body) =>
      OptCallees(lo);
      OptCallees(hi);
      CalleesAppend(OptList(lo), OptList(hi));
      CalleesAppend(OptList(lo) + OptList(hi), [body]);
      assert [body][1..] == [];
    case ForEach(_, iter, body) => PairCallees(iter, body);
    case Lit(_) =>
    case Var(_) =>
    case Poison =>
  }

  // ---------- size, for the traversal's end ----------

  function Size(e: Expr): nat
    decreases e, 1
  {
    match e
    case Field(b, _, _) => 1 + Size(b)
    case Prim(_, args) => 1 + SizeAll(args)
    case Logic(_, l, r) => 1 + Size(l) + Size(r)
    case If(c, t, f, _) => 1 + Size(c) + Size(t) + SizeOpt(f)
    case Block(stmts, tail) => 1 + SizeStmts(stmts) + SizeOpt(tail)
    case Match(s, arms, _) => 1 + Size(s) + SizeArms(arms)
    case ForRange(_, lo, hi, body) => 1 + SizeOpt(lo) + SizeOpt(hi) + Size(body)
    case ForEach(_, iter, body) => 1 + Size(iter) + Size(body)
    case _ => 1
  }

  function SizeOpt(o: Option<Expr>): nat
    decreases o, 2
  {
    if o.None? then 0 else Size(o.value)
  }

  function SizeAll(es: seq<Expr>): nat
    decreases es, 0
  {
    if es == [] then 0 else Size(es[0]) + SizeAll(es[1..])
  }

  function SizeArms(arms: seq<Arm>): nat
    decreases arms, 0
  {
    if arms == [] then 0 else SizeArm(arms[0]) + SizeArms(arms[1..])
  }

  function SizeArm(arm: Arm): nat
    decreases arm, 2
  {
    Size(arm.body)
  }

  function SizeStmts(ss: seq<Stmt>): nat
    decreases ss, 0
  {
    if ss == [] then 0 else SizeStmt(ss[0]) + SizeStmts(ss[1..])
  }

  function SizeStmt(s: Stmt): nat
    decreases s, 1
  {
    match s
    case Let(_, init) => SizeOpt(init)
    case Assign(_, _, e) => Size(e)
    case ExprStmt(e) => Size(e)
    case Return(o) => SizeOpt(o)
  }

  lemma {:induction false} SizeAppend(a: seq<Expr>, b: seq<Expr>)
    ensures SizeAll(a + b) == SizeAll(a) + SizeAll(b)
  {
    if a == [] {
      assert a + b == b;
    } else {
      SizeAppend(a[1..], b);
      assert (a + b)[1..] == a[1..] + b && (a + b)[0] == a[0];
    }
  }

  lemma OptSize(o: Option<Expr>)
    ensures SizeAll(OptList(o)) == SizeOpt(o)
  {
    if o.Some? {
      assert [o.value][1..] == [];
    }
  }

  lemma {:induction false} StmtSize(ss: seq<Stmt>)
    ensures SizeAll(StmtExprs(ss)) == SizeStmts(ss)
  {
    if ss != [] {
      StmtSize(ss[1..]);
      var first := match ss[0]
        case Let(_, init) => OptList(init)
        case Assign(_, _, e) => [e]
        case ExprStmt(e) => [e]
        case Return(o) => OptList(o);
      SizeAppend(first, StmtExprs(ss[1..]));
      match ss[0]
      case Let(_, init) => OptSize(init);
      case Assign(_, _, e) => assert [e][1..] == [];
      case ExprStmt(e) => assert [e][1..] == [];
      case Return(o) => OptSize(o);
    }
  }

  lemma {:induction false} ArmSize(arms: seq<Arm>)
    ensures SizeAll(ArmBodies(arms)) == SizeArms(arms)
  {
    if arms != [] {
      ArmSize(arms[1..]);
      assert ([arms[0].body] + ArmBodies(arms[1..]))[1..] == ArmBodies(arms[1..]);
    }
  }

  lemma PairSize(a: Expr, b: Expr)
    ensures SizeAll([a, b]) == Size(a) + Size(b)
  {
    assert [a, b][1..] == [b];
    OneSize(b);
  }

  lemma OneSize(e: Expr)
    ensures SizeAll([e]) == Size(e)
  {
    assert [e][1..] == [] && SizeAll([]) == 0;
  }

  lemma ChildrenSize(e: Expr)
    ensures SizeAll(Children(e)) < Size(e)
  {
    match e
    case Field(b, _, _) => assert [b][1..] == [];
    case Prim(_, _) =>
    case Logic(_, l, r) => PairSize(l, r);
    case If(c, t, f, _) =>
      PairSize(c, t);
      OptSize(f);
      SizeAppend([c, t], OptList(f));
    case Block(stmts, tail) =>
      StmtSize(stmts);
      OptSize(tail);
      SizeAppend(StmtExprs(stmts), OptList(tail));
    case Match(s, arms, _) =>
      ArmSize(arms);
      assert ([s] + ArmBodies(arms))[1..] == ArmBodies(arms);
    case ForRange(_, lo, hi, body) =>
      OptSize(lo);
      OptSize(hi);
      SizeAppend(OptList(lo), OptList(hi));
      SizeAppend(OptList(lo) + OptList(hi), [body]);
      assert [body][1..] == [];
    case ForEach(_, iter, body) => PairSize(iter, body);
    case Lit(_) =>
    case Var(_) =>
    case Poison =>
  }

  /** The functions called from a body, by a traversal with a stack instead of recursion. */
  method CalleesOf(root: Expr) returns (out: set<Def>)
    ensures out == Callees(root)
  {
    out := {};
    var stack := [root];
    OneCallees(root);
    while stack != []
      invariant out + CalleesAll(stack) == Callees(root)
      decreases SizeAll(stack)
    {
      var n := |stack| - 1;
      var e := stack[n];
      assert stack == stack[..n] + [e];
      OneCallees(e);
      OneSize(e);
      CalleesAppend(stack[..n], [e]);
      SizeAppend(stack[..n], [e]);
      ChildrenCallees(e);
      ChildrenSize(e);
      CalleesAppend(stack[..n], Children(e));
      SizeAppend(stack[..n], Children(e));
      if e.Prim? && e.op.Call? {
        out := out + {e.op.def};
      }
      stack := stack[..n] + Children(e);
    }
  }

  // ---------- the recorded contracts decide ----------

  /** Every recorded contract is the one the view gives. */
  ghost predicate Recorded(view: View, T: Taint) {
    forall d <- T.seen :: T.seen[d] == view(d)
  }

  ghost predicate AgreeOn(v1: View, v2: View, ds: set<Def>) {
    forall d <- ds :: v1(d) == v2(d)
  }

  /** The walk from `T` to `r` records only callees in `ds`, and truthfully. */
  ghost predicate Records(view: View, T: Taint, r: Taint, ds: set<Def>) {
    T.seen.Keys <= r.seen.Keys <= T.seen.Keys + ds && (Recorded(view, T) ==> Recorded(view, r))
  }

  lemma RecordsNone(view: View, T: Taint, r: Taint, ds: set<Def>)
    requires r.seen == T.seen
    ensures Records(view, T, r, ds)
  {
  }

  lemma RecordsMore(view: View, T: Taint, r: Taint, q: Taint, ds: set<Def>, es: set<Def>)
    requires Records(view, T, r, ds) && ds <= es && q.seen == r.seen
    ensures Records(view, T, q, es)
  {
  }

  /** A walk only looks at the contracts it records: under any view that agrees on them it is
      the same walk. */
  lemma {:induction false} WalkDeps(F: Fun, v1: View, v2: View, e: Expr, ctx: Ctx, T: Taint)
    ensures var r := Walk(F, v1, e, ctx, T);
      Records(v1, T, r.0, Callees(e)) && (AgreeOn(v1, v2, r.0.seen.Keys) ==> Walk(F, v2, e, ctx, T) == r)
    decreases e, 1
  {
    hide Records, Recorded, Flag;
    var r := Walk(F, v1, e, ctx, T);
    match e
    case Lit(_) => RecordsNone(v1, T, T, {});
    case Poison => RecordsNone(v1, T, T, {});
    case Var(s) => FlagSeen(F, s, ctx, T); RecordsNone(v1, T, r.0, {});
    case Field(b, _, copy) => WalkDeps(F, v1, v2, b, if copy then ReadCtx else ctx, T);
    case Prim(op, args) => PrimDeps(F, v1, v2, e, ctx, T);
    case Logic(_, l, q) =>
      WalkDeps(F, v1, v2, l, ReadCtx, T);
      var A := Walk(F, v1, l, ReadCtx, T).0;
      WalkDeps(F, v1, v2, q, ReadCtx, A);
      Chain(v1, v2, T, A, r.0, Callees(l), Callees(q));
    case If(_, _, _, _) => IfDeps(F, v1, v2, e, ctx, T);
    case Block(stmts, tail) =>
      StmtsDeps(F, v1, v2, stmts, T);
      var A := WalkStmts(F, v1, stmts, T);
      if tail.Some? {
        WalkDeps(F, v1, v2, tail.value, ctx, A);
        Chain(v1, v2, T, A, r.0, CalleesStmts(stmts), Callees(tail.value));
      } else {
        RecordsMore(v1, T, A, A, CalleesStmts(stmts), Callees(e));
      }
    case Match(s, arms, _) =>
      WalkDeps(F, v1, v2, s, ReadCtx, T);
      var A := Walk(F, v1, s, ReadCtx, T);
      ArmsDeps(F, v1, v2, arms, ctx, A.1, A.0);
      Chain(v1, v2, T, A.0, r.0, Callees(s), CalleesArms(arms));
    case ForRange(_, lo, hi, body) =>
      OptDeps(F, v1, v2, lo, T);
      var A := WalkOpt(F, v1, lo, T);
      OptDeps(F, v1, v2, hi, A);
      var B := WalkOpt(F, v1, hi, A);
      WalkDeps(F, v1, v2, body, MoveCtx, B);
      Chain(v1, v2, A, B, r.0, CalleesOpt(hi), Callees(body));
      Chain(v1, v2, T, A, r.0, CalleesOpt(lo), CalleesOpt(hi) + Callees(body));
      RecordsMore(v1, T, r.0, r.0, CalleesOpt(lo) + (CalleesOpt(hi) + Callees(body)), Callees(e));
    case ForEach(_, iter, body) =>
      WalkDeps(F, v1, v2, iter, ReadCtx, T);
      var A := Walk(F, v1, iter, ReadCtx, T).0;
      WalkDeps(F, v1, v2, body, MoveCtx, A);
      Chain(v1, v2, T, A, r.0, Callees(iter), Callees(body));
  }

  /** Agreement on everything recorded at the end covers what was recorded on the way. */
  lemma Chain(v1: View, v2: View, T: Taint, A: Taint, r: Taint, ds: set<Def>, es: set<Def>)
    requires Records(v1, T, A, ds) && Records(v1, A, r, es)
    ensures Records(v1, T, r, ds + es) && (AgreeOn(v1, v2, r.seen.Keys) ==> AgreeOn(v1, v2, A.seen.Keys))
  {
  }

  lemma FlagSeen(F: Fun, s: Sym, ctx: Ctx, T: Taint)
    ensures Flag(F, s, ctx, T).seen == T.seen
  {
  }

  lemma LendSeen(F: Fun, op: Op, c: Contract, i: nat, arg: Expr, T: Taint)
    ensures Lend(F, op, c, i, arg, T).seen == T.seen
  {
  }

  lemma {:induction false} CarrySeen(F: Fun, binds: seq<Option<Sym>>, n: nat, c: Carriers, T: Taint)
    requires n <= |binds|
    ensures CarryBinds(F, binds, n, c, T).seen == T.seen
  {
    if n > 0 {
      CarrySeen(F, binds, n - 1, c, T);
    }
  }

  lemma {:induction false} PrimDeps(F: Fun, v1: View, v2: View, e: Expr, ctx: Ctx, T: Taint)
    requires e.Prim?
    ensures var r := Walk(F, v1, e, ctx, T);
      Records(v1, T, r.0, Callees(e)) && (AgreeOn(v1, v2, r.0.seen.Keys) ==> Walk(F, v2, e, ctx, T) == r)
    decreases e, 0
  {
    hide WalkArgs;
    var op := e.op;
    var k := if op.Call? then v1(op.def) else [];
    var A := if op.Call? then T.(seen := T.seen[op.def := k]) else T;
    ArgsDeps(F, v1, v2, op, k, e.args, 0, ctx, A);
    var r := WalkArgs(F, v1, op, k, e.args, 0, ctx, A);
    if op.Call? {
      assert op.def in A.seen;
    }
  }

  lemma {:induction false} IfDeps(F: Fun, v1: View, v2: View, e: Expr, ctx: Ctx, T: Taint)
    requires e.If?
    ensures var r := Walk(F, v1, e, ctx, T);
      Records(v1, T, r.0, Callees(e)) && (AgreeOn(v1, v2, r.0.seen.Keys) ==> Walk(F, v2, e, ctx, T) == r)
    decreases e, 0
  {
    hide Records, Recorded;
    WalkDeps(F, v1, v2, e.cond, ReadCtx, T);
    var A := Walk(F, v1, e.cond, ReadCtx, T).0;
    WalkDeps(F, v1, v2, e.thn, ctx, A);
    var B := Walk(F, v1, e.thn, ctx, A).0;
    Chain(v1, v2, T, A, B, Callees(e.cond), Callees(e.thn));
    if e.els.Some? {
      WalkDeps(F, v1, v2, e.els.value, ctx, B);
      var D := Walk(F, v1, e.els.value, ctx, B).0;
      Chain(v1, v2, T, B, D, Callees(e.cond) + Callees(e.thn), Callees(e.els.value));
    } else {
      RecordsMore(v1, T, B, B, Callees(e.cond) + Callees(e.thn), Callees(e));
    }
  }

  lemma {:induction false} OptDeps(F: Fun, v1: View, v2: View, o: Option<Expr>, T: Taint)
    ensures var r := WalkOpt(F, v1, o, T);
      Records(v1, T, r, CalleesOpt(o)) && (AgreeOn(v1, v2, r.seen.Keys) ==> WalkOpt(F, v2, o, T) == r)
    decreases o, 2
  {
    if o.Some? {
      WalkDeps(F, v1, v2, o.value, ReadCtx, T);
    }
  }

  lemma {:induction false} ArgsDeps(F: Fun, v1: View, v2: View, op: Op, k: Contract, args: seq<Expr>, i: nat, ctx: Ctx,
        T: Taint)
    ensures var r := WalkArgs(F, v1, op, k, args, i, ctx, T);
      Records(v1, T, r.0, CalleesAll(args)) &&
      (AgreeOn(v1, v2, r.0.seen.Keys) ==> WalkArgs(F, v2, op, k, args, i, ctx, T) == r)
    decreases args, 0
  {
    hide Records, Recorded, Lend;
    if args == [] {
      RecordsNone(v1, T, T, {});
    } else {
      var c := OperandCtx(op, k, i, ctx);
      WalkDeps(F, v1, v2, args[0], c, T);
      var A := Walk(F, v1, args[0], c, T).0;
      var B := Lend(F, op, k, i, args[0], A);
      LendSeen(F, op, k, i, args[0], A);
      RecordsMore(v1, T, A, B, Callees(args[0]), Callees(args[0]));
      ArgsDeps(F, v1, v2, op, k, args[1..], i + 1, ctx, B);
      Chain(v1, v2, T, B, WalkArgs(F, v1, op, k, args[1..], i + 1, ctx, B).0, Callees(args[0]), CalleesAll(args[1..]));
    }
  }

  lemma {:induction false} ArmsDeps(F: Fun, v1: View, v2: View, arms: seq<Arm>, ctx: Ctx, c: Carriers, T: Taint)
    ensures var r := WalkArms(F, v1, arms, ctx, c, T);
      Records(v1, T, r.0, CalleesArms(arms)) &&
      (AgreeOn(v1, v2, r.0.seen.Keys) ==> WalkArms(F, v2, arms, ctx, c, T) == r)
    decreases arms, 0
  {
    hide Records, Recorded;
    if arms == [] {
      RecordsNone(v1, T, T, {});
    } else {
      ArmDeps(F, v1, v2, arms[0], ctx, c, T);
      var A := WalkArm(F, v1, arms[0], ctx, c, T).0;
      ArmsDeps(F, v1, v2, arms[1..], ctx, c, A);
      Chain(v1, v2, T, A, WalkArms(F, v1, arms[1..], ctx, c, A).0, CalleesArm(arms[0]), CalleesArms(arms[1..]));
    }
  }

  lemma {:induction false} ArmDeps(F: Fun, v1: View, v2: View, arm: Arm, ctx: Ctx, c: Carriers, T: Taint)
    ensures var r := WalkArm(F, v1, arm, ctx, c, T);
      Records(v1, T, r.0, CalleesArm(arm)) && (AgreeOn(v1, v2, r.0.seen.Keys) ==> WalkArm(F, v2, arm, ctx, c, T) == r)
    decreases arm, 2
  {
    var A := CarryPat(F, arm.pat, c, T);
    if arm.pat.VariantPat? {
      CarrySeen(F, arm.pat.binds, |arm.pat.binds|, c, T);
    }
    WalkDeps(F, v1, v2, arm.body, ctx, A);
  }

  lemma {:induction false} StmtsDeps(F: Fun, v1: View, v2: View, ss: seq<Stmt>, T: Taint)
    ensures var r := WalkStmts(F, v1, ss, T);
      Records(v1, T, r, CalleesStmts(ss)) && (AgreeOn(v1, v2, r.seen.Keys) ==> WalkStmts(F, v2, ss, T) == r)
    decreases ss, 0
  {
    hide Records, Recorded;
    if ss == [] {
      RecordsNone(v1, T, T, {});
    } else {
      StmtDeps(F, v1, v2, ss[0], T);
      var A := WalkStmt(F, v1, ss[0], T);
      StmtsDeps(F, v1, v2, ss[1..], A);
      Chain(v1, v2, T, A, WalkStmts(F, v1, ss[1..], A), CalleesStmt(ss[0]), CalleesStmts(ss[1..]));
    }
  }

  lemma {:induction false} StmtDeps(F: Fun, v1: View, v2: View, s: Stmt, T: Taint)
    ensures var r := WalkStmt(F, v1, s, T);
      Records(v1, T, r, CalleesStmt(s)) && (AgreeOn(v1, v2, r.seen.Keys) ==> WalkStmt(F, v2, s, T) == r)
    decreases s, 1
  {
    match s
    case Let(_, None) =>
    case Let(_, Some(e)) => WalkDeps(F, v1, v2, e, MoveCtx, T);
    case Assign(_, _, e) => WalkDeps(F, v1, v2, e, MoveCtx, T);
    case ExprStmt(e) => WalkDeps(F, v1, v2, e, MoveCtx, T);
    case Return(None) =>
    case Return(Some(e)) => WalkDeps(F, v1, v2, e, MoveCtx, T);
  }

  /** Main result on fact reuse: facts are the same under every view that gives the recorded
      callees the recorded contracts, and only called functions are recorded. */
  lemma {:induction false} CollectDeps(F: Fun, v1: View, v2: View)
    ensures var r := Collect(F, v1);
      r.seen.Keys <= Callees(F.body) && Recorded(v1, r) &&
      ((forall d <- r.seen :: v2(d) == r.seen[d]) ==> Collect(F, v2) == r)
  {
    hide Walk;
    var S := Taint(seq(|F.params|, _ => UNUSED), map[], map[]);
    WalkDeps(F, v1, v2, F.body, MoveCtx, S);
  }
}
