/** A value followed through a run by a mark: a struct or variant of a definition that nothing but
    one parameter brings in. */
module InferMarks {
  import opened Wrappers
  import opened Hir
  import opened Semantics
  import opened Effects
  import opened Infer

  /** The value is, or holds, an aggregate of the definition. */
  predicate Marked(v: Value, D: Def)
    decreases v
  {
    match v
    case IntV(_) => false
    case BoolV(_) => false
    case UnitV => false
    case ArrayV(elems) => AnyMarked(elems, D)
    case VariantV(def, _, payload) => def == D || AnyMarked(payload, D)
    case StructV(def, fields) => def == D || exists k <- fields :: Marked(fields[k], D)
  }

  predicate AnyMarked(vs: seq<Value>, D: Def)
    decreases vs
  {
    exists v <- vs :: Marked(v, D)
  }

  // ---------- operations pass marks on ----------

  predicate Builds(op: Op, D: Def) {
    (op.VariantLit? || op.StructLit?) && op.def == D
  }

  predicate CopyOp(op: Op) {
    (op.Index? || op.Slice?) && op.copy
  }

  lemma {:induction false} FieldsMarked(slots: seq<nat>, vals: seq<Value>, k: nat, D: Def)
    requires k in PlaceFields(slots, vals) && Marked(PlaceFields(slots, vals)[k], D)
    ensures exists j: nat :: j < |vals| && Marked(vals[j], D)
    decreases |vals|
  {
    var last := |vals| - 1;
    var at := if last < |slots| then slots[last] else last;
    if k == at {
      assert PlaceFields(slots, vals)[k] == vals[last];
    } else {
      FieldsMarked(slots, vals[..last], k, D);
    }
  }

  /** An operation other than a call has a marked value only from an operand that flows on. */
  lemma ApplyMarked(op: Op, vals: seq<Value>, D: Def)
    requires !op.Call? && !Builds(op, D) && !CopyOp(op)
    requires Apply(op, vals).Some? && Marked(Apply(op, vals).value, D)
    ensures exists j: nat :: j < |vals| && Marked(vals[j], D) && FlowsOn(op, [], j)
  {
    var v := Apply(op, vals).value;
    match op
    case Index(_) =>
      assert vals[1].i < |vals[0].elems| && v in vals[0].elems;
      assert Marked(vals[0], D) && FlowsOn(op, [], 0);
    case Slice(_, _, _) =>
      var x :| x in v.elems && Marked(x, D);
      assert x in vals[0].elems;
      assert Marked(vals[0], D) && FlowsOn(op, [], 0);
    case ArrayLit =>
      var x :| x in vals && Marked(x, D);
      var j: nat :| j < |vals| && vals[j] == x;
      assert FlowsOn(op, [], j);
    case VariantLit(_, _) =>
      var x :| x in vals && Marked(x, D);
      var j: nat :| j < |vals| && vals[j] == x;
      assert FlowsOn(op, [], j);
    case StructLit(_, slots) =>
      var k :| k in v.fields && Marked(v.fields[k], D);
      FieldsMarked(slots, vals, k, D);
      var j: nat :| j < |vals| && Marked(vals[j], D);
      assert FlowsOn(op, [], j);
    case _ =>
  }

  lemma {:induction false} SetPathMarked(v: Value, path: seq<nat>, x: Value, D: Def)
    requires SetPath(v, path, x).Some? && Marked(SetPath(v, path, x).value, D)
    ensures Marked(v, D) || Marked(x, D)
    decreases |path|
  {
    if path != [] {
      var w := SetPath(v, path, x).value;
      var inner := SetPath(v.fields[path[0]], path[1..], x).value;
      if w.def != D {
        var k :| k in w.fields && Marked(w.fields[k], D);
        if k == path[0] {
          SetPathMarked(v.fields[path[0]], path[1..], x, D);
        } else {
          assert Marked(v.fields[k], D);
        }
      }
    }
  }

  /** A place has a marked value only if its root binding has. */
  lemma {:induction false} PlaceMarked(E: Env, e: Expr, ctx: Ctx, h: Store, D: Def)
    requires PlaceBase(e).Some? && Eval(E, e, ctx, h).Norm? && Marked(Eval(E, e, ctx, h).v, D)
    ensures IsLive(h, PlaceBase(e).value) && Marked(h[PlaceBase(e).value].v, D)
  {
    if e.Field? {
      var o := Eval(E, e.base, if e.copy then ReadCtx else ctx, h);
      assert Marked(o.v, D);
      PlaceMarked(E, e.base, if e.copy then ReadCtx else ctx, h, D);
    }
  }

  // ---------- runs that bring in no other mark ----------

  /** The checker gives the expression a copy type. */
  predicate CopyExpr(e: Expr) {
    e.Logic? || (e.Field? && e.copy) || (e.Prim? && CopyOp(e.op))
  }

  predicate Unmarked(o: Out, D: Def) {
    o.Norm? ==> !Marked(o.v, D)
  }

  /** On this run, literals and constructors bring in no mark, and what the checker takes for a
      copy type is never marked. */
  predicate Honest(E: Env, F: Fun, D: Def, e: Expr, ctx: Ctx, h: Store)
    decreases e, 2, 0
  {
    (CopyExpr(e) ==> Unmarked(Eval(E, e, ctx, h), D)) &&
    match e
    case Lit(v) => !Marked(v, D)
    case Poison => true
    case Var(_) => true
    case Field(b, _, copy) => Honest(E, F, D, b, if copy then ReadCtx else ctx, h)
    case Prim(op, args) => !Builds(op, D) && HonestArgs(E, F, D, op, args, 0, ctx, h)
    case Logic(isOr, l, r) =>
      var o := Eval(E, l, ReadCtx, h);
      Honest(E, F, D, l, ReadCtx, h) && (o.Norm? ==> Honest(E, F, D, r, ReadCtx, o.h))
    case If(c, t, f, _) =>
      var o := Eval(E, c, ReadCtx, h);
      Honest(E, F, D, c, ReadCtx, h) &&
      (o.Norm? && o.v.BoolV? ==>
        if o.v.b then Honest(E, F, D, t, ctx, o.h) else HonestOpt(E, F, D, f, ctx, o.h))
    case Block(stmts, tail) =>
      var o := EvalStmts(E, stmts, h);
      HonestStmts(E, F, D, stmts, h) && (o.Norm? ==> HonestOpt(E, F, D, tail, ctx, o.h))
    case Match(s, arms, _) =>
      var o := Eval(E, s, ReadCtx, h);
      Honest(E, F, D, s, ReadCtx, h) &&
      (o.Norm? && o.v.VariantV? && FindArm(arms, o.v.tag).Some? ==>
        HonestArm(E, F, D, arms[FindArm(arms, o.v.tag).value], o.v, ctx, o.h))
    case ForRange(x, lo, hi, body) =>
      var a := EvalBound(E, lo, h);
      HonestOpt(E, F, D, lo, ReadCtx, h) &&
      (a.Norm? ==>
        var b := EvalBound(E, hi, a.h);
        HonestOpt(E, F, D, hi, ReadCtx, a.h) &&
        (b.Norm? && a.v.IntV? && b.v.IntV? ==> HonestCount(E, F, D, x, body, a.v.i, b.v.i, b.h)))
    case ForEach(x, iter, body) =>
      var o := Eval(E, iter, ReadCtx, h);
      Honest(E, F, D, iter, ReadCtx, h) &&
      (o.Norm? && o.v.ArrayV? ==>
        (x in F.copies ==> !AnyMarked(o.v.elems, D)) && HonestEach(E, F, D, x, body, o.v.elems, 0, o.h))
  }

  predicate HonestOpt(E: Env, F: Fun, D: Def, o: Option<Expr>, ctx: Ctx, h: Store)
    decreases o, 3, 0
  {
    o.Some? ==> Honest(E, F, D, o.value, ctx, h)
  }

  predicate HonestArgs(E: Env, F: Fun, D: Def, op: Op, args: seq<Expr>, i: nat, ctx: Ctx, h: Store)
    decreases args, 0, 0
  {
    args == [] ||
    var c := ArgCtx(E.contracts, op, i, ctx);
    var o := Eval(E, args[0], c, h);
    Honest(E, F, D, args[0], c, h) && (o.Norm? ==> HonestArgs(E, F, D, op, args[1..], i + 1, ctx, o.h))
  }

  predicate HonestArm(E: Env, F: Fun, D: Def, arm: Arm, v: Value, ctx: Ctx, h: Store)
    requires v.VariantV?
    decreases arm, 3, 0
  {
    var g := BindArm(arm.pat, v, h);
    g.Some? ==>
      (forall s <- PatSyms(arm.pat) * F.copies :: IsLive(g.value, s) ==> !Marked(g.value[s].v, D)) &&
      Honest(E, F, D, arm.body, ctx, g.value)
  }

  predicate HonestStmts(E: Env, F: Fun, D: Def, ss: seq<Stmt>, h: Store)
    decreases ss, 0, 0
  {
    ss == [] ||
    var o := EvalStmt(E, ss[0], h);
    HonestStmt(E, F, D, ss[0], h) && (o.Norm? ==> HonestStmts(E, F, D, ss[1..], o.h))
  }

  predicate HonestStmt(E: Env, F: Fun, D: Def, s: Stmt, h: Store)
    decreases s, 1, 0
  {
    match s
    case Let(_, init) => HonestOpt(E, F, D, init, MoveCtx, h)
    case Assign(_, _, e) => Honest(E, F, D, e, MoveCtx, h)
    case ExprStmt(e) => Honest(E, F, D, e, MoveCtx, h)
    case Return(o) => HonestOpt(E, F, D, o, MoveCtx, h)
  }

  predicate HonestCount(E: Env, F: Fun, D: Def, x: Sym, body: Expr, i: int, n: int, h: Store)
    decreases body, 3, n - i
  {
    i >= n ||
    var g := h[x := Live(IntV(i))];
    var o := Eval(E, body, MoveCtx, g);
    Honest(E, F, D, body, MoveCtx, g) && (o.Norm? ==> HonestCount(E, F, D, x, body, i + 1, n, o.h))
  }

  predicate HonestEach(E: Env, F: Fun, D: Def, x: Sym, body: Expr, elems: seq<Value>, i: nat, h: Store)
    decreases body, 3, |elems| - i
  {
    i >= |elems| ||
    var g := h[x := Live(elems[i])];
    var o := Eval(E, body, MoveCtx, g);
    Honest(E, F, D, body, MoveCtx, g) && (o.Norm? ==> HonestEach(E, F, D, x, body, elems, i + 1, o.h))
  }

  /** Callees keep their contracts: a result is marked only through an argument that may escape, and
      an argument's storage only if the argument was. */
  ghost predicate CalleesKeep(E: Env, view: View, D: Def) {
    forall def, vals :: CalleeKeeps(E.calls(def, vals), vals, view(def), D)
  }

  predicate CalleeKeeps(r: CallResult, vals: seq<Value>, contract: Contract, D: Def) {
    r.CallDone? ==>
      (Marked(r.ret, D) ==> exists j: nat :: j < |vals| && Marked(vals[j], D) && At(contract, j) == Escape) &&
      (forall j: nat :: j < |r.outs| && Marked(r.outs[j], D) ==> j < |vals| && Marked(vals[j], D))
  }
}
