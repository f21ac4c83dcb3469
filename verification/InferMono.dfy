/** Stronger callee contracts give stronger facts: the walk followed by classification is
    monotone on well-typed bodies. */
module InferMono {
  import opened Wrappers
  import opened Hir
  import opened Semantics
  import opened Infer

  // ---------- the order on contracts ----------

  /** `copy < borrow < borrow_mut < move < escape`; `Unknown` ranks with `Move`. */
  function Strength(b: Behavior): nat {
    match b
    case Copy => 0
    case Borrow => 1
    case BorrowMut => 2
    case Move => 3
    case Unknown => 3
    case Escape => 4
  }

  predicate Weaker(a: Behavior, b: Behavior) {
    Strength(a) <= Strength(b)
  }

  ghost predicate ContractLe(a: Contract, b: Contract) {
    forall i: nat :: Weaker(At(a, i), At(b, i))
  }

  // ---------- typing ----------

  /** Which parameters of every function have a copy type. */
  type Sigs = Def -> seq<bool>

  predicate CopyAt(sig: seq<bool>, i: nat) {
    i < |sig| && sig[i]
  }

  /** Exactly the copy-typed parameters have the contract `Copy`. */
  ghost predicate TypedContract(sig: seq<bool>, c: Contract) {
    forall i: nat :: At(c, i) == Copy <==> CopyAt(sig, i)
  }

  /** Every projection of the place has a non-copy type, so moving it moves the root. */
  predicate Rooted(e: Expr) {
    match e
    case Field(b, _, copy) => !copy && Rooted(b)
    case _ => true
  }

  /** Place arguments of non-copy parameters have non-copy types. */
  predicate TypedArgs(sigs: Sigs, op: Op, args: seq<Expr>, i: nat) {
    args == [] ||
    ((op.Call? && !CopyAt(sigs(op.def), i) && PlaceBase(args[0]).Some? ==> Rooted(args[0])) &&
     TypedArgs(sigs, op, args[1..], i + 1))
  }

  predicate Typed(sigs: Sigs, e: Expr)
    decreases e, 1
  {
    match e
    case Field(b, _, _) => Typed(sigs, b)
    case Prim(op, args) => TypedArgs(sigs, op, args, 0) && TypedAll(sigs, args)
    case Logic(_, l, r) => Typed(sigs, l) && Typed(sigs, r)
    case If(c, t, f, _) => Typed(sigs, c) && Typed(sigs, t) && TypedOpt(sigs, f)
    case Block(stmts, tail) => TypedStmts(sigs, stmts) && TypedOpt(sigs, tail)
    case Match(s, arms, _) => Typed(sigs, s) && TypedArms(sigs, arms)
    case ForRange(_, lo, hi, body) => TypedOpt(sigs, lo) && TypedOpt(sigs, hi) && Typed(sigs, body)
    case ForEach(_, iter, body) => Typed(sigs, iter) && Typed(sigs, body)
    case _ => true
  }

  predicate TypedOpt(sigs: Sigs, o: Option<Expr>)
    decreases o, 2
  {
    o.Some? ==> Typed(sigs, o.value)
  }

  predicate TypedAll(sigs: Sigs, es: seq<Expr>)
    decreases es, 0
  {
    es == [] || (Typed(sigs, es[0]) && TypedAll(sigs, es[1..]))
  }

  predicate TypedArms(sigs: Sigs, arms: seq<Arm>)
    decreases arms, 0
  {
    arms == [] || (TypedArm(sigs, arms[0]) && TypedArms(sigs, arms[1..]))
  }

  predicate TypedArm(sigs: Sigs, arm: Arm)
    decreases arm, 2
  {
    Typed(sigs, arm.body)
  }

  predicate TypedStmts(sigs: Sigs, ss: seq<Stmt>)
    decreases ss, 0
  {
    ss == [] || (TypedStmt(sigs, ss[0]) && TypedStmts(sigs, ss[1..]))
  }

  predicate TypedStmt(sigs: Sigs, s: Stmt)
    decreases s, 1
  {
    match s
    case Let(_, init) => TypedOpt(sigs, init)
    case Assign(_, _, e) => Typed(sigs, e)
    case ExprStmt(e) => Typed(sigs, e)
    case Return(o) => TypedOpt(sigs, o)
  }

  // ---------- the relation between two walks ----------

  predicate Used(f: ParamFacts) {
    f.read || f.mutated || f.moved || f.escaped
  }

  predicate FactsLe(f: ParamFacts, g: ParamFacts) {
    && (f.escaped ==> g.escaped)
    && (f.moved ==> g.moved)
    && (f.mutated ==> g.mutated || g.moved)
    && (Used(f) <==> Used(g))
  }

  /** Only used parameters are carried. */
  ghost predicate BackedSet(facts: seq<ParamFacts>, c: Carriers) {
    forall i <- c :: i < |facts| && Used(facts[i])
  }

  ghost predicate Backed(T: Taint) {
    forall s :: BackedSet(T.facts, Carried(T, s))
  }

  ghost predicate FactsLeAll(f: seq<ParamFacts>, g: seq<ParamFacts>) {
    |f| == |g| && forall i :: 0 <= i < |f| ==> FactsLe(f[i], g[i])
  }

  ghost predicate TaintLe(T: Taint, U: Taint) {
    FactsLeAll(T.facts, U.facts) && (forall s :: Carried(T, s) <= Carried(U, s)) && Backed(T) && Backed(U)
  }

  /** Flags are never taken back. */
  ghost predicate Grown(T: Taint, U: Taint) {
    |T.facts| == |U.facts| && forall i :: 0 <= i < |T.facts| ==> FactsKept(T.facts[i], U.facts[i])
  }

  predicate FactsKept(f: ParamFacts, g: ParamFacts) {
    (f.read ==> g.read) && (f.mutated ==> g.mutated) && (f.moved ==> g.moved) && (f.escaped ==> g.escaped)
  }

  predicate CtxLe(c: Ctx, d: Ctx) {
    c.MoveCtx? ==> d.MoveCtx?
  }

  /** Two walks of the same expression, the second under stronger contracts. */
  ghost predicate WalkLe(T: Taint, U: Taint, r: (Taint, Carriers), q: (Taint, Carriers)) {
    && TaintLe(r.0, q.0) && r.1 <= q.1
    && BackedSet(r.0.facts, r.1) && BackedSet(q.0.facts, q.1)
    && Grown(T, r.0) && Grown(U, q.0)
  }

  lemma GrownRefl(T: Taint)
    ensures Grown(T, T)
  {
  }

  lemma GrownTrans(T: Taint, U: Taint, V: Taint)
    requires Grown(T, U) && Grown(U, V)
    ensures Grown(T, V)
  {
    forall i | 0 <= i < |T.facts|
      ensures FactsKept(T.facts[i], V.facts[i])
    {
      assert FactsKept(T.facts[i], U.facts[i]) && FactsKept(U.facts[i], V.facts[i]);
    }
  }

  lemma BackedGrown(T: Taint, U: Taint, c: Carriers)
    requires BackedSet(T.facts, c) && Grown(T, U)
    ensures BackedSet(U.facts, c)
  {
    forall i <- c
      ensures i < |U.facts| && Used(U.facts[i])
    {
      assert FactsKept(T.facts[i], U.facts[i]);
    }
  }

  // ---------- single steps ----------

  lemma FlagLe(F: Fun, s: Sym, c: Ctx, d: Ctx, T: Taint, U: Taint)
    requires TaintLe(T, U) && CtxLe(c, d) && |T.facts| == |F.params|
    ensures var r := Flag(F, s, c, T);
      var q := Flag(F, s, d, U);
      TaintLe(r, q) && Grown(T, r) && Grown(U, q) &&
      (Position(F.params, s).Some? ==>
        Used(r.facts[Position(F.params, s).value]) && Used(q.facts[Position(F.params, s).value]))
  {
    var r, q := Flag(F, s, c, T), Flag(F, s, d, U);
    FlagGrown(F, s, c, T);
    FlagGrown(F, s, d, U);
    forall x
      ensures Carried(r, x) <= Carried(q, x) && BackedSet(r.facts, Carried(r, x)) && BackedSet(q.facts, Carried(q, x))
    {
      BackedGrown(T, r, Carried(T, x));
      BackedGrown(U, q, Carried(U, x));
    }
  }

  lemma FlagGrown(F: Fun, s: Sym, c: Ctx, T: Taint)
    ensures Grown(T, Flag(F, s, c, T)) && forall x :: Carried(Flag(F, s, c, T), x) == Carried(T, x)
  {
  }

  lemma MutatedGrown(F: Fun, s: Sym, T: Taint)
    ensures Grown(T, FlagMutated(F, s, T)) && forall x :: Carried(FlagMutated(F, s, T), x) == Carried(T, x)
  {
  }

  /** Flagging both sides as mutated. */
  lemma MutateBoth(F: Fun, s: Sym, T: Taint, U: Taint)
    requires TaintLe(T, U)
    ensures var r := FlagMutated(F, s, T);
      var q := FlagMutated(F, s, U);
      TaintLe(r, q) && Grown(T, r) && Grown(U, q)
  {
    var r, q := FlagMutated(F, s, T), FlagMutated(F, s, U);
    MutatedGrown(F, s, T);
    MutatedGrown(F, s, U);
    forall x
      ensures Carried(r, x) <= Carried(q, x) && BackedSet(r.facts, Carried(r, x)) && BackedSet(q.facts, Carried(q, x))
    {
      BackedGrown(T, r, Carried(T, x));
      BackedGrown(U, q, Carried(U, x));
    }
  }

  /** The parameter at the root of a place, if it is one. */
  function RootParam(F: Fun, e: Expr): Option<nat> {
    if PlaceBase(e).Some? then Position(F.params, PlaceBase(e).value) else None
  }

  /** A lent place was used on both sides; it is mutated, or mutated or moved on the stronger
      side. */
  lemma LendLe(F: Fun, op: Op, c: Contract, d: Contract, i: nat, arg: Expr, T: Taint, U: Taint)
    requires TaintLe(T, U) && |T.facts| == |F.params|
    requires op.Call? ==> Weaker(At(c, i), At(d, i))
    requires RootParam(F, arg).Some? ==>
      Used(T.facts[RootParam(F, arg).value]) && Used(U.facts[RootParam(F, arg).value])
    requires op.Call? && At(c, i) == BorrowMut && At(d, i) != BorrowMut && RootParam(F, arg).Some? ==>
      U.facts[RootParam(F, arg).value].moved
    ensures var r := Lend(F, op, c, i, arg, T);
      var q := Lend(F, op, d, i, arg, U);
      TaintLe(r, q) && Grown(T, r) && Grown(U, q)
  {
    var r, q := Lend(F, op, c, i, arg, T), Lend(F, op, d, i, arg, U);
    if PlaceBase(arg).Some? {
      MutatedGrown(F, PlaceBase(arg).value, T);
      MutatedGrown(F, PlaceBase(arg).value, U);
    }
    forall x
      ensures Carried(r, x) <= Carried(q, x) && BackedSet(r.facts, Carried(r, x)) && BackedSet(q.facts, Carried(q, x))
    {
      BackedGrown(T, r, Carried(T, x));
      BackedGrown(U, q, Carried(U, x));
    }
  }

  lemma CarryLe(T: Taint, U: Taint, s: Sym, c: Carriers, d: Carriers)
    requires TaintLe(T, U) && c <= d && BackedSet(T.facts, c) && BackedSet(U.facts, d)
    ensures TaintLe(Carry(T, s, c), Carry(U, s, d)) && Grown(T, Carry(T, s, c)) && Grown(U, Carry(U, s, d))
  {
    var r, q := Carry(T, s, c), Carry(U, s, d);
    forall x
      ensures Carried(r, x) <= Carried(q, x) && BackedSet(r.facts, Carried(r, x)) && BackedSet(q.facts, Carried(q, x))
    {
      assert x != s ==> Carried(r, x) == Carried(T, x) && Carried(q, x) == Carried(U, x);
    }
  }

  lemma {:induction false} CarryBindsLe(F: Fun, binds: seq<Option<Sym>>, n: nat, c: Carriers, d: Carriers, T: Taint,
        U: Taint)
    requires n <= |binds| && TaintLe(T, U) && c <= d && BackedSet(T.facts, c) && BackedSet(U.facts, d)
    ensures var r := CarryBinds(F, binds, n, c, T);
      var q := CarryBinds(F, binds, n, d, U);
      TaintLe(r, q) && Grown(T, r) && Grown(U, q)
  {
    hide TaintLe, Grown, BackedSet;
    if n == 0 {
      GrownRefl(T);
      GrownRefl(U);
    } else {
      CarryBindsLe(F, binds, n - 1, c, d, T, U);
      if binds[n - 1].Some? && binds[n - 1].value !in F.copies {
        var A, B := CarryBinds(F, binds, n - 1, c, T), CarryBinds(F, binds, n - 1, d, U);
        BackedGrown(T, A, c);
        BackedGrown(U, B, d);
        CarryLe(A, B, binds[n - 1].value, c, d);
        GrownTrans(T, A, Carry(A, binds[n - 1].value, c));
        GrownTrans(U, B, Carry(B, binds[n - 1].value, d));
      }
    }
  }

  lemma CarryPatLe(F: Fun, p: Pat, c: Carriers, d: Carriers, T: Taint, U: Taint)
    requires TaintLe(T, U) && c <= d && BackedSet(T.facts, c) && BackedSet(U.facts, d)
    ensures var r := CarryPat(F, p, c, T);
      var q := CarryPat(F, p, d, U);
      TaintLe(r, q) && Grown(T, r) && Grown(U, q)
  {
    hide TaintLe, Grown, BackedSet;
    GrownRefl(T);
    GrownRefl(U);
    if p.VariantPat? {
      CarryBindsLe(F, p.binds, |p.binds|, c, d, T, U);
    } else if p.BindPat? && p.sym.Some? {
      CarryLe(T, U, p.sym.value, c, d);
    }
  }

  lemma MarkLe(T: Taint, U: Taint, c: Carriers, d: Carriers)
    requires TaintLe(T, U) && c <= d && BackedSet(T.facts, c) && BackedSet(U.facts, d)
    ensures TaintLe(MarkEscaped(T, c), MarkEscaped(U, d)) && Grown(T, MarkEscaped(T, c)) && Grown(U, MarkEscaped(U, d))
  {
    var r, q := MarkEscaped(T, c), MarkEscaped(U, d);
    forall i | 0 <= i < |r.facts|
      ensures FactsLe(r.facts[i], q.facts[i])
    {
      assert FactsLe(T.facts[i], U.facts[i]);
    }
    forall x
      ensures Carried(r, x) <= Carried(q, x) && BackedSet(r.facts, Carried(r, x)) && BackedSet(q.facts, Carried(q, x))
    {
      BackedGrown(T, r, Carried(T, x));
      BackedGrown(U, q, Carried(U, x));
    }
  }

  // ---------- the walk ----------

  /** Walking a place uses its root, and moves it when the place is moved and rooted. */
  lemma {:induction false} PlaceFlags(F: Fun, view: View, e: Expr, ctx: Ctx, T: Taint)
    requires RootParam(F, e).Some? && |T.facts| == |F.params|
    ensures var r := Walk(F, view, e, ctx, T).0;
      |r.facts| == |F.params| && Used(r.facts[RootParam(F, e).value]) &&
      (ctx.MoveCtx? && Rooted(e) ==> r.facts[RootParam(F, e).value].moved)
  {
    if e.Field? {
      PlaceFlags(F, view, e.base, if e.copy then ReadCtx else ctx, T);
    }
  }

  /** The contracts are the same, or both are typed and the second is at least as strong. */
  ghost predicate ContractStep(sig: seq<bool>, a: Contract, b: Contract) {
    a == b || (ContractLe(a, b) && TypedContract(sig, a) && TypedContract(sig, b))
  }

  /** Everything the comparison of two walks assumes about their views. */
  ghost predicate Ordered(sigs: Sigs, v1: View, v2: View) {
    forall d {:trigger v1(d)} :: ContractStep(sigs(d), v1(d), v2(d))
  }

  ghost predicate Start(F: Fun, T: Taint, U: Taint) {
    TaintLe(T, U) && |T.facts| == |F.params|
  }

  lemma WalkLeThen(F: Fun, T: Taint, U: Taint, A: Taint, B: Taint, r: (Taint, Carriers), q: (Taint, Carriers))
    requires Grown(T, A) && Grown(U, B) && WalkLe(A, B, r, q)
    ensures WalkLe(T, U, r, q)
  {
    GrownTrans(T, A, r.0);
    GrownTrans(U, B, q.0);
  }

  /** Dropping what the value carries. */
  lemma WalkLeDrop(T: Taint, U: Taint, r: (Taint, Carriers), q: (Taint, Carriers))
    requires WalkLe(T, U, r, q)
    ensures WalkLe(T, U, (r.0, {}), (q.0, {}))
  {
  }

  lemma WalkLeNone(T: Taint, U: Taint)
    requires TaintLe(T, U)
    ensures WalkLe(T, U, (T, {}), (U, {}))
  {
    GrownRefl(T);
    GrownRefl(U);
  }

  /** Adding what an earlier part carried. */
  lemma WalkLeJoin(T: Taint, U: Taint, A: Taint, B: Taint, c: Carriers, d: Carriers, r: (Taint, Carriers),
        q: (Taint, Carriers))
    requires WalkLe(T, U, (A, c), (B, d)) && WalkLe(A, B, r, q)
    ensures WalkLe(T, U, (r.0, c + r.1), (q.0, d + q.1))
  {
    GrownTrans(T, A, r.0);
    GrownTrans(U, B, q.0);
    BackedGrown(A, r.0, c);
    BackedGrown(B, q.0, d);
  }

  lemma SeenLe(T: Taint, U: Taint, d: Def, c1: Contract, c2: Contract)
    requires TaintLe(T, U)
    ensures var A, B := T.(seen := T.seen[d := c1]), U.(seen := U.seen[d := c2]);
      TaintLe(A, B) && Grown(T, A) && Grown(U, B)
  {
    var A, B := T.(seen := T.seen[d := c1]), U.(seen := U.seen[d := c2]);
    forall x
      ensures Carried(A, x) == Carried(T, x) && Carried(B, x) == Carried(U, x)
      ensures BackedSet(A.facts, Carried(A, x)) && BackedSet(B.facts, Carried(B, x))
    {
      assert BackedSet(T.facts, Carried(T, x)) && BackedSet(U.facts, Carried(U, x));
    }
  }

  /** The walk is monotone in callee contracts and in the context. */
  lemma {:induction false} WalkMono(F: Fun, sigs: Sigs, v1: View, v2: View, e: Expr, c: Ctx, d: Ctx, T: Taint, U: Taint)
    requires Ordered(sigs, v1, v2) && Typed(sigs, e) && CtxLe(c, d) && Start(F, T, U)
    ensures WalkLe(T, U, Walk(F, v1, e, c, T), Walk(F, v2, e, d, U))
    decreases e, 1
  {
    hide TaintLe, Grown, BackedSet, Ordered, WalkLe, Start;
    match e
    case Lit(_) => StartLe(F, T, U); WalkLeNone(T, U);
    case Poison => StartLe(F, T, U); WalkLeNone(T, U);
    case Var(s) => VarMono(F, s, c, d, T, U);
    case Field(b, _, copy) =>
      var c1, d1 := if copy then ReadCtx else c, if copy then ReadCtx else d;
      WalkMono(F, sigs, v1, v2, b, c1, d1, T, U);
      WalkLeDrop(T, U, Walk(F, v1, b, c1, T), Walk(F, v2, b, d1, U));
    case Prim(op, args) => PrimMono(F, sigs, v1, v2, e, c, d, T, U);
    case Logic(_, l, r) =>
      WalkMono(F, sigs, v1, v2, l, ReadCtx, ReadCtx, T, U);
      var A, B := Walk(F, v1, l, ReadCtx, T), Walk(F, v2, l, ReadCtx, U);
      Sequenced(F, T, U, A, B);
      WalkMono(F, sigs, v1, v2, r, ReadCtx, ReadCtx, A.0, B.0);
      var p, q := Walk(F, v1, r, ReadCtx, A.0), Walk(F, v2, r, ReadCtx, B.0);
      WalkLeThen(F, T, U, A.0, B.0, p, q);
      WalkLeDrop(T, U, p, q);
    case If(_, _, _, _) => IfMono(F, sigs, v1, v2, e, c, d, T, U);
    case Block(stmts, tail) =>
      StmtsMono(F, sigs, v1, v2, stmts, T, U);
      var A, B := WalkStmts(F, v1, stmts, T), WalkStmts(F, v2, stmts, U);
      if tail.Some? {
        Sequenced(F, T, U, (A, {}), (B, {}));
        WalkMono(F, sigs, v1, v2, tail.value, c, d, A, B);
        WalkLeThen(F, T, U, A, B, Walk(F, v1, tail.value, c, A), Walk(F, v2, tail.value, d, B));
      }
    case Match(s, arms, _) =>
      WalkMono(F, sigs, v1, v2, s, ReadCtx, ReadCtx, T, U);
      var A, B := Walk(F, v1, s, ReadCtx, T), Walk(F, v2, s, ReadCtx, U);
      Sequenced(F, T, U, A, B);
      ArmsMono(F, sigs, v1, v2, arms, c, d, A.1, B.1, A.0, B.0);
      WalkLeThen(F, T, U, A.0, B.0, WalkArms(F, v1, arms, c, A.1, A.0), WalkArms(F, v2, arms, d, B.1, B.0));
    case ForRange(_, lo, hi, body) =>
      OptMono(F, sigs, v1, v2, lo, T, U);
      var A, B := WalkOpt(F, v1, lo, T), WalkOpt(F, v2, lo, U);
      Sequenced(F, T, U, (A, {}), (B, {}));
      OptMono(F, sigs, v1, v2, hi, A, B);
      var A1, B1 := WalkOpt(F, v1, hi, A), WalkOpt(F, v2, hi, B);
      WalkLeThen(F, T, U, A, B, (A1, {}), (B1, {}));
      BodyMono(F, sigs, v1, v2, body, T, U, A1, B1);
    case ForEach(_, iter, body) =>
      WalkMono(F, sigs, v1, v2, iter, ReadCtx, ReadCtx, T, U);
      var A, B := Walk(F, v1, iter, ReadCtx, T), Walk(F, v2, iter, ReadCtx, U);
      WalkLeDrop(T, U, A, B);
      BodyMono(F, sigs, v1, v2, body, T, U, A.0, B.0);
  }

  lemma StartLe(F: Fun, T: Taint, U: Taint)
    requires Start(F, T, U)
    ensures TaintLe(T, U)
  {
  }

  /** After one part, the next part starts from related states. */
  lemma Sequenced(F: Fun, T: Taint, U: Taint, r: (Taint, Carriers), q: (Taint, Carriers))
    requires Start(F, T, U) && WalkLe(T, U, r, q)
    ensures Start(F, r.0, q.0) && Grown(T, r.0) && Grown(U, q.0) && r.1 <= q.1
    ensures BackedSet(r.0.facts, r.1) && BackedSet(q.0.facts, q.1)
  {
  }

  lemma VarMono(F: Fun, s: Sym, c: Ctx, d: Ctx, T: Taint, U: Taint)
    requires CtxLe(c, d) && Start(F, T, U)
    ensures var o := Position(F.params, s);
      WalkLe(T, U, (Flag(F, s, c, T), if o.Some? then {o.value} else Carried(T, s)),
        (Flag(F, s, d, U), if o.Some? then {o.value} else Carried(U, s)))
  {
    FlagLe(F, s, c, d, T, U);
    var r, q := Flag(F, s, c, T), Flag(F, s, d, U);
    if Position(F.params, s).None? {
      BackedGrown(T, r, Carried(T, s));
      BackedGrown(U, q, Carried(U, s));
    }
  }

  lemma {:induction false} BodyMono(F: Fun, sigs: Sigs, v1: View, v2: View, body: Expr, T: Taint, U: Taint, A: Taint,
        B: Taint)
    requires Ordered(sigs, v1, v2) && Typed(sigs, body) && Start(F, T, U) && WalkLe(T, U, (A, {}), (B, {}))
    ensures WalkLe(T, U, (Walk(F, v1, body, MoveCtx, A).0, {}), (Walk(F, v2, body, MoveCtx, B).0, {}))
    decreases body, 2
  {
    hide TaintLe, Grown, BackedSet, Ordered, WalkLe, Start;
    Sequenced(F, T, U, (A, {}), (B, {}));
    WalkMono(F, sigs, v1, v2, body, MoveCtx, MoveCtx, A, B);
    var r, q := Walk(F, v1, body, MoveCtx, A), Walk(F, v2, body, MoveCtx, B);
    WalkLeThen(F, T, U, A, B, r, q);
    WalkLeDrop(T, U, r, q);
  }

  lemma {:induction false} PrimMono(F: Fun, sigs: Sigs, v1: View, v2: View, e: Expr, c: Ctx, d: Ctx, T: Taint, U: Taint)
    requires Ordered(sigs, v1, v2) && e.Prim? && Typed(sigs, e) && CtxLe(c, d) && Start(F, T, U)
    ensures WalkLe(T, U, Walk(F, v1, e, c, T), Walk(F, v2, e, d, U))
    decreases e, 0
  {
    hide TaintLe, Grown, BackedSet, WalkLe;
    var op := e.op;
    var k1 := if op.Call? then v1(op.def) else [];
    var k2 := if op.Call? then v2(op.def) else [];
    var A := if op.Call? then T.(seen := T.seen[op.def := k1]) else T;
    var B := if op.Call? then U.(seen := U.seen[op.def := k2]) else U;
    GrownRefl(T);
    GrownRefl(U);
    if op.Call? {
      SeenLe(T, U, op.def, k1, k2);
    }
    ArgsMono(F, sigs, v1, v2, op, k1, k2, e.args, 0, c, d, A, B);
    WalkLeThen(F, T, U, A, B, WalkArgs(F, v1, op, k1, e.args, 0, c, A), WalkArgs(F, v2, op, k2, e.args, 0, d, B));
  }

  lemma {:induction false} IfMono(F: Fun, sigs: Sigs, v1: View, v2: View, e: Expr, c: Ctx, d: Ctx, T: Taint, U: Taint)
    requires Ordered(sigs, v1, v2) && e.If? && Typed(sigs, e) && CtxLe(c, d) && Start(F, T, U)
    ensures WalkLe(T, U, Walk(F, v1, e, c, T), Walk(F, v2, e, d, U))
    decreases e, 0
  {
    hide TaintLe, Grown, BackedSet, Ordered, WalkLe, Start;
    WalkMono(F, sigs, v1, v2, e.cond, ReadCtx, ReadCtx, T, U);
    var A, B := Walk(F, v1, e.cond, ReadCtx, T), Walk(F, v2, e.cond, ReadCtx, U);
    Sequenced(F, T, U, A, B);
    WalkMono(F, sigs, v1, v2, e.thn, c, d, A.0, B.0);
    var r, q := Walk(F, v1, e.thn, c, A.0), Walk(F, v2, e.thn, d, B.0);
    WalkLeThen(F, T, U, A.0, B.0, r, q);
    if e.els.Some? {
      Sequenced(F, A.0, B.0, r, q);
      WalkMono(F, sigs, v1, v2, e.els.value, c, d, r.0, q.0);
      WalkLeJoin(T, U, r.0, q.0, r.1, q.1, Walk(F, v1, e.els.value, c, r.0), Walk(F, v2, e.els.value, d, q.0));
    }
  }

  lemma {:induction false} OptMono(F: Fun, sigs: Sigs, v1: View, v2: View, o: Option<Expr>, T: Taint, U: Taint)
    requires Ordered(sigs, v1, v2) && TypedOpt(sigs, o) && Start(F, T, U)
    ensures WalkLe(T, U, (WalkOpt(F, v1, o, T), {}), (WalkOpt(F, v2, o, U), {}))
    decreases o, 2
  {
    hide TaintLe, Grown, BackedSet, Ordered, WalkLe, Start;
    if o.None? {
      StartLe(F, T, U);
      WalkLeNone(T, U);
    } else {
      WalkMono(F, sigs, v1, v2, o.value, ReadCtx, ReadCtx, T, U);
      WalkLeDrop(T, U, Walk(F, v1, o.value, ReadCtx, T), Walk(F, v2, o.value, ReadCtx, U));
    }
  }

  lemma {:induction false} ArgsMono(F: Fun, sigs: Sigs, v1: View, v2: View, op: Op, k1: Contract, k2: Contract,
        args: seq<Expr>, i: nat, c: Ctx, d: Ctx, T: Taint, U: Taint)
    requires Ordered(sigs, v1, v2) && TypedAll(sigs, args) && TypedArgs(sigs, op, args, i) && CtxLe(c, d)
    requires Start(F, T, U)
    requires if op.Call? then ContractStep(sigs(op.def), k1, k2) else k1 == k2
    ensures WalkLe(T, U, WalkArgs(F, v1, op, k1, args, i, c, T), WalkArgs(F, v2, op, k2, args, i, d, U))
    decreases args, 0
  {
    hide TaintLe, Grown, BackedSet, Ordered, WalkLe, Start, ContractStep, Lend;
    if args == [] {
      StartLe(F, T, U);
      WalkLeNone(T, U);
    } else {
      var c1, d1 := OperandCtx(op, k1, i, c), OperandCtx(op, k2, i, d);
      ArgOrder(sigs, op, k1, k2, i, c, d);
      WalkMono(F, sigs, v1, v2, args[0], c1, d1, T, U);
      var r, q := Walk(F, v1, args[0], c1, T), Walk(F, v2, args[0], d1, U);
      LendMono(F, sigs, v1, v2, op, k1, k2, args[0], i, c, d, T, U);
      var A, B := Lend(F, op, k1, i, args[0], r.0), Lend(F, op, k2, i, args[0], q.0);
      var o1 := if FlowsOn(op, k1, i) then r.1 else {};
      var o2 := if FlowsOn(op, k2, i) then q.1 else {};
      ArgsMono(F, sigs, v1, v2, op, k1, k2, args[1..], i + 1, c, d, A, B);
      WalkLeJoin(T, U, A, B, o1, o2, WalkArgs(F, v1, op, k1, args[1..], i + 1, c, A),
        WalkArgs(F, v2, op, k2, args[1..], i + 1, d, B));
    }
  }

  /** A stronger contract consumes and passes on at least as much. */
  lemma ArgOrder(sigs: Sigs, op: Op, k1: Contract, k2: Contract, i: nat, c: Ctx, d: Ctx)
    requires CtxLe(c, d) && (if op.Call? then ContractStep(sigs(op.def), k1, k2) else k1 == k2)
    ensures CtxLe(OperandCtx(op, k1, i, c), OperandCtx(op, k2, i, d)) && (FlowsOn(op, k1, i) ==> FlowsOn(op, k2, i))
  {
    assert op.Call? && k1 != k2 ==> Weaker(At(k1, i), At(k2, i));
  }

  lemma {:induction false} LendMono(F: Fun, sigs: Sigs, v1: View, v2: View, op: Op, k1: Contract, k2: Contract,
        arg: Expr, i: nat, c: Ctx, d: Ctx, T: Taint, U: Taint)
    requires Start(F, T, U) && TypedArgs(sigs, op, [arg], i)
    requires op.Call? ==> ContractStep(sigs(op.def), k1, k2)
    requires var r, q := Walk(F, v1, arg, OperandCtx(op, k1, i, c), T), Walk(F, v2, arg, OperandCtx(op, k2, i, d), U);
      WalkLe(T, U, r, q) && (FlowsOn(op, k1, i) ==> FlowsOn(op, k2, i))
    ensures var r, q := Walk(F, v1, arg, OperandCtx(op, k1, i, c), T), Walk(F, v2, arg, OperandCtx(op, k2, i, d), U);
      var A, B := Lend(F, op, k1, i, arg, r.0), Lend(F, op, k2, i, arg, q.0);
      WalkLe(T, U, (A, if FlowsOn(op, k1, i) then r.1 else {}), (B, if FlowsOn(op, k2, i) then q.1 else {})) &&
      Start(F, A, B)
  {
    hide Walk, FlowsOn;
    var r, q := Walk(F, v1, arg, OperandCtx(op, k1, i, c), T), Walk(F, v2, arg, OperandCtx(op, k2, i, d), U);
    if RootParam(F, arg).Some? {
      PlaceFlags(F, v1, arg, OperandCtx(op, k1, i, c), T);
      PlaceFlags(F, v2, arg, OperandCtx(op, k2, i, d), U);
    }
    if op.Call? {
      assert k1 == k2 || (Weaker(At(k1, i), At(k2, i)) && (At(k1, i) == Copy <==> CopyAt(sigs(op.def), i)));
    }
    LendLe(F, op, k1, k2, i, arg, r.0, q.0);
    var A, B := Lend(F, op, k1, i, arg, r.0), Lend(F, op, k2, i, arg, q.0);
    GrownTrans(T, r.0, A);
    GrownTrans(U, q.0, B);
    BackedGrown(r.0, A, r.1);
    BackedGrown(q.0, B, q.1);
  }

  lemma {:induction false} ArmsMono(F: Fun, sigs: Sigs, v1: View, v2: View, arms: seq<Arm>, c: Ctx, d: Ctx,
        k1: Carriers, k2: Carriers, T: Taint, U: Taint)
    requires Ordered(sigs, v1, v2) && TypedArms(sigs, arms) && CtxLe(c, d) && Start(F, T, U)
    requires k1 <= k2 && BackedSet(T.facts, k1) && BackedSet(U.facts, k2)
    ensures WalkLe(T, U, WalkArms(F, v1, arms, c, k1, T), WalkArms(F, v2, arms, d, k2, U))
    decreases arms, 0
  {
    hide TaintLe, Grown, BackedSet, Ordered, WalkLe, Start;
    if arms == [] {
      StartLe(F, T, U);
      WalkLeNone(T, U);
    } else {
      ArmMono(F, sigs, v1, v2, arms[0], c, d, k1, k2, T, U);
      var r, q := WalkArm(F, v1, arms[0], c, k1, T), WalkArm(F, v2, arms[0], d, k2, U);
      Sequenced(F, T, U, r, q);
      BackedGrown(T, r.0, k1);
      BackedGrown(U, q.0, k2);
      ArmsMono(F, sigs, v1, v2, arms[1..], c, d, k1, k2, r.0, q.0);
      WalkLeJoin(T, U, r.0, q.0, r.1, q.1, WalkArms(F, v1, arms[1..], c, k1, r.0),
        WalkArms(F, v2, arms[1..], d, k2, q.0));
    }
  }

  lemma {:induction false} ArmMono(F: Fun, sigs: Sigs, v1: View, v2: View, arm: Arm, c: Ctx, d: Ctx, k1: Carriers,
        k2: Carriers, T: Taint, U: Taint)
    requires Ordered(sigs, v1, v2) && TypedArm(sigs, arm) && CtxLe(c, d) && Start(F, T, U)
    requires k1 <= k2 && BackedSet(T.facts, k1) && BackedSet(U.facts, k2)
    ensures WalkLe(T, U, WalkArm(F, v1, arm, c, k1, T), WalkArm(F, v2, arm, d, k2, U))
    decreases arm, 2
  {
    hide TaintLe, BackedSet, Ordered, WalkLe;
    CarryPatLe(F, arm.pat, k1, k2, T, U);
    var A, B := CarryPat(F, arm.pat, k1, T), CarryPat(F, arm.pat, k2, U);
    WalkMono(F, sigs, v1, v2, arm.body, c, d, A, B);
    WalkLeThen(F, T, U, A, B, Walk(F, v1, arm.body, c, A), Walk(F, v2, arm.body, d, B));
  }

  lemma {:induction false} StmtsMono(F: Fun, sigs: Sigs, v1: View, v2: View, ss: seq<Stmt>, T: Taint, U: Taint)
    requires Ordered(sigs, v1, v2) && TypedStmts(sigs, ss) && Start(F, T, U)
    ensures WalkLe(T, U, (WalkStmts(F, v1, ss, T), {}), (WalkStmts(F, v2, ss, U), {}))
    decreases ss, 0
  {
    hide TaintLe, Grown, BackedSet, Ordered, WalkLe, Start;
    if ss == [] {
      StartLe(F, T, U);
      WalkLeNone(T, U);
    } else {
      StmtMono(F, sigs, v1, v2, ss[0], T, U);
      var A, B := WalkStmt(F, v1, ss[0], T), WalkStmt(F, v2, ss[0], U);
      Sequenced(F, T, U, (A, {}), (B, {}));
      StmtsMono(F, sigs, v1, v2, ss[1..], A, B);
      WalkLeThen(F, T, U, A, B, (WalkStmts(F, v1, ss[1..], A), {}), (WalkStmts(F, v2, ss[1..], B), {}));
    }
  }

  lemma {:induction false} StmtMono(F: Fun, sigs: Sigs, v1: View, v2: View, s: Stmt, T: Taint, U: Taint)
    requires Ordered(sigs, v1, v2) && TypedStmt(sigs, s) && Start(F, T, U)
    ensures WalkLe(T, U, (WalkStmt(F, v1, s, T), {}), (WalkStmt(F, v2, s, U), {}))
    decreases s, 1
  {
    hide TaintLe, Grown, BackedSet, Ordered, WalkLe, Start;
    StartLe(F, T, U);
    match s
    case Let(x, None) =>
      NoCarriers(T);
      NoCarriers(U);
      CarryLe(T, U, x, {}, {});
      WalkLeMake(T, U, Carry(T, x, {}), Carry(U, x, {}));
    case Let(x, Some(e)) =>
      WalkMono(F, sigs, v1, v2, e, MoveCtx, MoveCtx, T, U);
      var r, q := Walk(F, v1, e, MoveCtx, T), Walk(F, v2, e, MoveCtx, U);
      Sequenced(F, T, U, r, q);
      StartLe(F, r.0, q.0);
      CarryLe(r.0, q.0, x, r.1, q.1);
      GrownTrans(T, r.0, Carry(r.0, x, r.1));
      GrownTrans(U, q.0, Carry(q.0, x, q.1));
      WalkLeMake(T, U, Carry(r.0, x, r.1), Carry(q.0, x, q.1));
    case Assign(x, _, e) =>
      WalkMono(F, sigs, v1, v2, e, MoveCtx, MoveCtx, T, U);
      AssignMono(F, x, T, U, Walk(F, v1, e, MoveCtx, T), Walk(F, v2, e, MoveCtx, U));
    case ExprStmt(e) =>
      WalkMono(F, sigs, v1, v2, e, MoveCtx, MoveCtx, T, U);
      WalkLeDrop(T, U, Walk(F, v1, e, MoveCtx, T), Walk(F, v2, e, MoveCtx, U));
    case Return(None) => WalkLeNone(T, U);
    case Return(Some(e)) =>
      WalkMono(F, sigs, v1, v2, e, MoveCtx, MoveCtx, T, U);
      var r, q := Walk(F, v1, e, MoveCtx, T), Walk(F, v2, e, MoveCtx, U);
      Sequenced(F, T, U, r, q);
      StartLe(F, r.0, q.0);
      MarkLe(r.0, q.0, r.1, q.1);
      GrownTrans(T, r.0, MarkEscaped(r.0, r.1));
      GrownTrans(U, q.0, MarkEscaped(q.0, q.1));
      WalkLeMake(T, U, MarkEscaped(r.0, r.1), MarkEscaped(q.0, q.1));
  }

  lemma NoCarriers(T: Taint)
    ensures BackedSet(T.facts, {})
  {
  }

  lemma WalkLeMake(T: Taint, U: Taint, A: Taint, B: Taint)
    requires TaintLe(A, B) && Grown(T, A) && Grown(U, B)
    ensures WalkLe(T, U, (A, {}), (B, {}))
  {
  }

  lemma AssignMono(F: Fun, x: Sym, T: Taint, U: Taint, r: (Taint, Carriers), q: (Taint, Carriers))
    requires WalkLe(T, U, r, q)
    ensures var A, B := FlagMutated(F, x, r.0), FlagMutated(F, x, q.0);
      WalkLe(T, U, (if r.1 == {} then A else Carry(A, x, Carried(A, x) + r.1), {}),
        (if q.1 == {} then B else Carry(B, x, Carried(B, x) + q.1), {}))
  {
    hide FlagMutated;
    var A, B := FlagMutated(F, x, r.0), FlagMutated(F, x, q.0);
    MutateBoth(F, x, r.0, q.0);
    BackedGrown(r.0, A, r.1);
    BackedGrown(q.0, B, q.1);
    GrownTrans(T, r.0, A);
    GrownTrans(U, q.0, B);
    var c, d := Carried(A, x) + r.1, Carried(B, x) + q.1;
    CarryLe(A, B, x, c, d);
    CarrySame(A, x);
    CarrySame(B, x);
    var A1 := if r.1 == {} then A else Carry(A, x, c);
    var B1 := if q.1 == {} then B else Carry(B, x, d);
    GrownTrans(T, A, A1);
    GrownTrans(U, B, B1);
    forall y
      ensures Carried(A1, y) <= Carried(B1, y) && BackedSet(A1.facts, Carried(A1, y))
      ensures BackedSet(B1.facts, Carried(B1, y))
    {
      assert Carried(A, y) <= Carried(B, y);
      assert BackedSet(A.facts, Carried(A, y)) && BackedSet(B.facts, Carried(B, y));
    }
  }

  /** Storing what a binding carries already changes nothing. */
  lemma CarrySame(T: Taint, x: Sym)
    ensures Grown(T, T) && Grown(T, Carry(T, x, Carried(T, x)))
  {
  }

  // ---------- whole functions ----------

  /** Main result: the inferred contract is monotone in the callees' contracts, although `read`
      may disappear when `moved` appears and an unused parameter counts as moved. */
  lemma {:induction false} InferredMono(F: Fun, sigs: Sigs, v1: View, v2: View)
    requires Ordered(sigs, v1, v2) && Typed(sigs, F.body)
    ensures ContractLe(Inferred(F, v1), Inferred(F, v2))
  {
    hide Ordered;
    var S := Taint(seq(|F.params|, _ => UNUSED), map[], map[]);
    assert Start(F, S, S);
    WalkMono(F, sigs, v1, v2, F.body, MoveCtx, MoveCtx, S, S);
    var r, q := Walk(F, v1, F.body, MoveCtx, S), Walk(F, v2, F.body, MoveCtx, S);
    MarkLe(r.0, q.0, r.1, q.1);
    var f, g := Collect(F, v1).facts, Collect(F, v2).facts;
    forall i: nat
      ensures Weaker(At(Inferred(F, v1), i), At(Inferred(F, v2), i))
    {
      if i < |f| {
        assert FactsLe(f[i], g[i]);
      }
    }
  }

  /** Inferred contracts are typed, whatever the view. */
  lemma InferredTyped(F: Fun, view: View)
    ensures TypedContract(F.copyParams, Inferred(F, view))
  {
  }
}
