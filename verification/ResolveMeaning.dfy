/** The resolver implements lexical scoping: its scope stack always holds the visible
    declarations, and its arena says what the surface tree says. */
module ResolveMeaning {
  import opened Wrappers
  import opened Resolve
  import opened LexicalScope

  function Arenas(L: State): Arena {
    Arena(L.exprs, L.symbols)
  }

  // ---------- arenas only grow ----------

  ghost predicate Larger(A: Arena, B: Arena) {
    A.nodes <= B.nodes && A.locals <= B.locals
  }

  lemma {:induction false} MeansGrows(A: Arena, B: Arena, id: ExprId, e: Expr, env: Visible)
    requires Larger(A, B) && Means(A, id, e, env)
    ensures Means(B, id, e, env)
    decreases e, 1
  {
    hide Bound, AfterStmts;
    assert B.nodes[id] == A.nodes[id];
    match e
    case Lit =>
    case Var(_) =>
    case Node(_, args) => MeansAllGrows(A, B, A.nodes[id].args, args, env);
    case Block(stmts, tail) =>
      MeansStmtsGrows(A, B, A.nodes[id].stmts, stmts, env);
      MeansOptGrows(A, B, A.nodes[id].tail, tail, AfterStmts(stmts, env));
    case If(c, t, f) =>
      MeansGrows(A, B, A.nodes[id].cond, c, env);
      MeansGrows(A, B, A.nodes[id].thn, t, env);
      MeansOptGrows(A, B, A.nodes[id].els, f, env);
    case For(x, iter, body) =>
      MeansGrows(A, B, A.nodes[id].iter, iter, env);
      MeansGrows(A, B, A.nodes[id].body, body, env + [x]);
    case Match(s, arms) =>
      MeansGrows(A, B, A.nodes[id].scrut, s, env);
      MeansArmsGrows(A, B, A.nodes[id].arms, arms, env);
  }

  lemma {:induction false} MeansOptGrows(A: Arena, B: Arena, id: Option<ExprId>, o: Option<Expr>, env: Visible)
    requires Larger(A, B) && MeansOpt(A, id, o, env)
    ensures MeansOpt(B, id, o, env)
    decreases o, 2
  {
    if o.Some? {
      MeansGrows(A, B, id.value, o.value, env);
    }
  }

  lemma {:induction false} MeansAllGrows(A: Arena, B: Arena, ids: seq<ExprId>, es: seq<Expr>, env: Visible)
    requires Larger(A, B) && MeansAll(A, ids, es, env)
    ensures MeansAll(B, ids, es, env)
    decreases es, 0
  {
    if es != [] {
      MeansGrows(A, B, ids[0], es[0], env);
      MeansAllGrows(A, B, ids[1..], es[1..], env);
    }
  }

  lemma {:induction false} MeansArmsGrows(A: Arena, B: Arena, hs: seq<HirArm>, arms: seq<Arm>, env: Visible)
    requires Larger(A, B) && MeansArms(A, hs, arms, env)
    ensures MeansArms(B, hs, arms, env)
    decreases arms, 0
  {
    if arms != [] {
      MeansArmGrows(A, B, hs[0], arms[0], env);
      MeansArmsGrows(A, B, hs[1..], arms[1..], env);
    }
  }

  lemma {:induction false} MeansArmGrows(A: Arena, B: Arena, h: HirArm, arm: Arm, env: Visible)
    requires Larger(A, B) && MeansArm(A, h, arm, env)
    ensures MeansArm(B, h, arm, env)
    decreases arm, 2
  {
    MeansPatGrows(A, B, h.pat, arm.pat);
    MeansGrows(A, B, h.body, arm.body, env + PatIdents(arm.pat));
  }

  lemma MeansPatGrows(A: Arena, B: Arena, h: HirPat, p: Pat)
    requires Larger(A, B) && MeansPat(A, h, p)
    ensures MeansPat(B, h, p)
  {
    if p.VariantPat? && h.HVariant? {
      MeansBindsGrow(A, B, h.binds, p.binds, |p.binds|);
    }
  }

  lemma MeansBindsGrow(A: Arena, B: Arena, syms: seq<Option<Sym>>, binds: seq<Option<Ident>>, n: nat)
    requires n <= |binds| && Larger(A, B) && MeansBinds(A, syms, binds, n)
    ensures MeansBinds(B, syms, binds, n)
  {
    forall i | 0 <= i < n
      ensures MeansBind(B, syms[i], binds[i])
    {
      assert MeansBind(A, syms[i], binds[i]);
    }
  }

  lemma {:induction false} MeansStmtsGrows(A: Arena, B: Arena, hs: seq<HirStmt>, ss: seq<Stmt>, env: Visible)
    requires Larger(A, B) && MeansStmts(A, hs, ss, env)
    ensures MeansStmts(B, hs, ss, env)
    decreases ss, 0
  {
    hide Bound;
    if ss != [] {
      if ss[0].Assign? && Bound(env, ss[0].id.name).None? {
        MeansStmtsGrows(A, B, hs, ss[1..], env);
      } else {
        MeansStmtGrows(A, B, hs[0], ss[0], env);
        MeansStmtsGrows(A, B, hs[1..], ss[1..], AfterStmt(ss[0], env));
      }
    }
  }

  lemma {:induction false} MeansStmtGrows(A: Arena, B: Arena, h: HirStmt, s: Stmt, env: Visible)
    requires Larger(A, B) && MeansStmt(A, h, s, env)
    ensures MeansStmt(B, h, s, env)
    decreases s, 1
  {
    hide Bound;
    match s
    case Let(_, init) => MeansOptGrows(A, B, h.init, init, env);
    case Assign(_, value) => MeansGrows(A, B, h.value, value, env);
    case ExprStmt(e) => MeansGrows(A, B, h.expr, e, env);
    case Return(o) => MeansOptGrows(A, B, h.result, o, env);
  }

  // ---------- the scope stack holds the visible declarations ----------

  predicate AgreesOn(L: State, env: Visible, name: Name) {
    match Lookup(L.scopes, name)
    case None => Bound(env, name).None?
    case Some(s) => Refers(Arenas(L), s, name, env)
  }

  ghost predicate Agrees(L: State, env: Visible) {
    L.scopes != [] && forall name :: AgreesOn(L, env, name)
  }

  lemma DeclareAgrees(L: State, env: Visible, id: Ident)
    requires Agrees(L, env)
    ensures var (M, s) := Declare(L, id);
      Agrees(M, env + [id]) && Named(Arenas(M), s, id.name, id.tok) && Within(L, M) && Adds(L, M, [id], 0)
  {
    var (M, s) := Declare(L, id);
    var more := env + [id];
    assert more[..|more| - 1] == env;
    assert M.scopes[..|M.scopes| - 1] == L.scopes[..|L.scopes| - 1];
    forall name
      ensures AgreesOn(M, more, name)
    {
      assert AgreesOn(L, env, name);
      if name != id.name {
        assert Lookup(M.scopes, name) == Lookup(L.scopes, name) && Bound(more, name) == Bound(env, name);
      }
    }
  }

  lemma PushAgrees(L: State, env: Visible)
    requires Agrees(L, env)
    ensures Agrees(Push(L), env)
  {
    assert Push(L).scopes[..|L.scopes|] == L.scopes;
    forall name
      ensures AgreesOn(Push(L), env, name)
    {
      assert AgreesOn(L, env, name);
    }
  }

  /** More symbols and the same scopes. */
  lemma StillAgrees(L: State, M: State, env: Visible)
    requires Agrees(L, env) && M.scopes == L.scopes && L.symbols <= M.symbols
    ensures Agrees(M, env)
  {
    hide Lookup, Bound;
    forall name
      ensures AgreesOn(M, env, name)
    {
      assert AgreesOn(L, env, name);
    }
  }

  /** Only the innermost scope may differ. */
  predicate Within(L: State, M: State) {
    |L.scopes| == |M.scopes| && L.scopes != [] && L.scopes[..|L.scopes| - 1] == M.scopes[..|M.scopes| - 1]
  }

  lemma LocalsPlus(a: seq<Ident>, b: seq<Ident>)
    ensures Locals(a + b) == Locals(a) + Locals(b)
  {
  }

  // ---------- lowering means what the tree means ----------

  /** Lowering added nodes, the declarations `ids` and `n` errors. */
  ghost predicate Adds(L: State, M: State, ids: seq<Ident>, n: nat) {
    && L.exprs <= M.exprs && M.symbols == L.symbols + Locals(ids) && M.diags == L.diags + n
    && Larger(Arenas(L), Arenas(M))
  }

  lemma AddsNothing(L: State, M: State)
    requires M.exprs == L.exprs && M.symbols == L.symbols && M.diags == L.diags
    ensures Adds(L, M, [], 0)
  {
  }

  lemma AddsThen(L: State, A: State, B: State, x: seq<Ident>, m: nat, y: seq<Ident>, n: nat)
    requires Adds(L, A, x, m) && Adds(A, B, y, n)
    ensures Adds(L, B, x + y, m + n)
  {
    LocalsPlus(x, y);
  }

  lemma AddsGrows(L: State, M: State, ids: seq<Ident>, n: nat)
    requires Adds(L, M, ids, n)
    ensures Larger(Arenas(L), Arenas(M)) && L.symbols <= M.symbols
  {
  }

  /** What lowering an expression achieves. */
  ghost predicate ExprOk(L: State, M: State, id: ExprId, e: Expr, env: Visible) {
    M.scopes == L.scopes && Adds(L, M, Declares(e), Errors(e, env)) && Means(Arenas(M), id, e, env)
  }

  lemma Allocated(L: State, node: HirNode)
    ensures var (M, id) := Alloc(L, node);
      && M.scopes == L.scopes && Adds(L, M, [], 0) && Larger(Arenas(L), Arenas(M))
      && id < |M.exprs| && M.exprs[id] == node
  {
  }

  lemma {:induction false} ExprMeans(e: Expr, L: State, env: Visible)
    requires Agrees(L, env)
    ensures var (M, id) := LowerExpr(e, L); ExprOk(L, M, id, e, env)
    decreases e, 1
  {
    hide Agrees, Lookup, Bound, Locals, Means, Alloc, Declare, Push, Pop;
    match e
    case Lit => LitMeans(L, env);
    case Var(id) => VarMeans(id, L, env);
    case Node(_, _) => NodeMeans(e, L, env);
    case Block(_, _) => BlockMeans(e, L, env);
    case If(_, _, _) => IfMeans(e, L, env);
    case For(_, _, _) => ForMeans(e, L, env);
    case Match(_, _) => MatchMeans(e, L, env);
  }

  lemma LitMeans(L: State, env: Visible)
    ensures var (M, id) := LowerExpr(Lit, L); ExprOk(L, M, id, Lit, env)
  {
  }

  lemma VarMeans(x: Ident, L: State, env: Visible)
    requires Agrees(L, env)
    ensures var (M, id) := LowerExpr(Var(x), L); ExprOk(L, M, id, Var(x), env)
  {
    hide Lookup, Bound;
    assert AgreesOn(L, env, x.name);
  }

  lemma {:induction false} NodeMeans(e: Expr, L: State, env: Visible)
    requires e.Node? && Agrees(L, env)
    ensures var (M, id) := LowerExpr(e, L); ExprOk(L, M, id, e, env)
    decreases e, 0
  {
    hide Agrees, Bound, Adds, LowerAll, MeansAll, Alloc;
    AllMeans(e.args, L, env);
    var (A, ids) := LowerAll(e.args, L);
    Allocated(A, HNode(e.tag, ids));
    var (M, id) := Alloc(A, HNode(e.tag, ids));
    AddsThen(L, A, M, DeclaresAll(e.args), ErrorsAll(e.args, env), [], 0);
    MeansAllGrows(Arenas(A), Arenas(M), ids, e.args, env);
    assert Declares(e) + [] == Declares(e);
  }

  lemma {:induction false} AllMeans(es: seq<Expr>, L: State, env: Visible)
    requires Agrees(L, env)
    ensures var (M, ids) := LowerAll(es, L);
      M.scopes == L.scopes && Adds(L, M, DeclaresAll(es), ErrorsAll(es, env)) && MeansAll(Arenas(M), ids, es, env)
    decreases es, 0
  {
    hide Agrees, Bound, Means, Adds, LowerExpr, Errors, Declares;
    if es == [] {
      AddsNothing(L, L);
    } else {
      ExprMeans(es[0], L, env);
      var (A, i) := LowerExpr(es[0], L);
      AddsGrows(L, A, Declares(es[0]), Errors(es[0], env));
      StillAgrees(L, A, env);
      AllMeans(es[1..], A, env);
      var (B, rest) := LowerAll(es[1..], A);
      AddsThen(L, A, B, Declares(es[0]), Errors(es[0], env), DeclaresAll(es[1..]), ErrorsAll(es[1..], env));
      AddsGrows(A, B, DeclaresAll(es[1..]), ErrorsAll(es[1..], env));
      MeansGrows(Arenas(A), Arenas(B), i, es[0], env);
      assert ([i] + rest)[1..] == rest;
    }
  }

  lemma {:induction false} OptMeans(o: Option<Expr>, L: State, env: Visible)
    requires Agrees(L, env)
    ensures var (M, id) := LowerOpt(o, L);
      M.scopes == L.scopes && Adds(L, M, DeclaresOpt(o), ErrorsOpt(o, env)) && MeansOpt(Arenas(M), id, o, env)
    decreases o, 2
  {
    hide Agrees, Bound, Means, Adds, LowerExpr, Errors, Declares;
    if o.Some? {
      ExprMeans(o.value, L, env);
    } else {
      AddsNothing(L, L);
    }
  }

  /** Two parts in a row, then a node for them. */
  lemma TwoThenNode(L: State, A: State, B: State, M: State, x: seq<Ident>, m: nat, y: seq<Ident>, n: nat)
    requires Adds(L, A, x, m) && Adds(A, B, y, n) && Adds(B, M, [], 0)
    ensures Adds(L, M, x + y, m + n) && Larger(Arenas(A), Arenas(M)) && Larger(Arenas(B), Arenas(M))
  {
    hide Locals;
    LocalsPlus(x, y);
    LocalsPlus(x + y, []);
    LocalsPlus(y, []);
    assert (x + y) + [] == x + y && y + [] == y;
  }

  // ---------- blocks ----------

  lemma BlockUnfolds(e: Expr, L: State, env: Visible)
    requires e.Block?
    ensures var (A, hs) := LowerStmts(e.stmts, Push(L));
      var (B, t) := LowerOpt(e.tail, A);
      LowerExpr(e, L) == Alloc(Pop(B), HBlock(hs, t))
    ensures Declares(e) == DeclaresStmts(e.stmts) + DeclaresOpt(e.tail)
    ensures Errors(e, env) == ErrorsStmts(e.stmts, env) + ErrorsOpt(e.tail, AfterStmts(e.stmts, env))
  {
    hide Alloc, Pop, Push, AfterStmts, LowerStmts, LowerOpt;
  }

  lemma BlockIs(A: Arena, id: ExprId, e: Expr, env: Visible, hs: seq<HirStmt>, t: Option<ExprId>)
    requires e.Block? && id < |A.nodes| && A.nodes[id] == HBlock(hs, t)
    requires MeansStmts(A, hs, e.stmts, env) && MeansOpt(A, t, e.tail, AfterStmts(e.stmts, env))
    ensures Means(A, id, e, env)
  {
    hide MeansStmts, MeansOpt, AfterStmts, Bound;
  }

  lemma {:induction false} BlockMeans(e: Expr, L: State, env: Visible)
    requires e.Block? && Agrees(L, env)
    ensures var (M, id) := LowerExpr(e, L); ExprOk(L, M, id, e, env)
    decreases e, 0
  {
    hide Agrees, Bound, LowerExpr, LowerStmts, LowerOpt, Means, MeansStmts, MeansOpt, AfterStmts, Alloc, Push, Pop;
    hide Within, Adds, Larger, Declares, Errors;
    BlockUnfolds(e, L, env);
    PushAgrees(L, env);
    StmtsMean(e.stmts, Push(L), env);
    var (A, hs) := LowerStmts(e.stmts, Push(L));
    var inner := AfterStmts(e.stmts, env);
    OptMeans(e.tail, A, inner);
    var (B, t) := LowerOpt(e.tail, A);
    WithinSame(Push(L), A, B);
    Popped(L, B);
    Allocated(Pop(B), HBlock(hs, t));
    var (M, id) := Alloc(Pop(B), HBlock(hs, t));
    Bracketed(L, A, B, M, DeclaresStmts(e.stmts), ErrorsStmts(e.stmts, env), DeclaresOpt(e.tail),
      ErrorsOpt(e.tail, inner));
    MeansStmtsGrows(Arenas(A), Arenas(M), hs, e.stmts, env);
    MeansOptGrows(Arenas(B), Arenas(M), t, e.tail, inner);
    BlockIs(Arenas(M), id, e, env, hs, t);
  }

  /** Two parts between a push and a pop, then a node for them. */
  lemma Bracketed(L: State, A: State, B: State, M: State, x: seq<Ident>, m: nat, y: seq<Ident>, n: nat)
    requires Adds(Push(L), A, x, m) && Adds(A, B, y, n) && Adds(Pop(B), M, [], 0)
    ensures Adds(L, M, x + y, m + n) && Larger(Arenas(A), Arenas(M)) && Larger(Arenas(B), Arenas(M))
  {
    hide Locals;
    TwoThenNode(L, A, B, M, x, m, y, n);
  }

  lemma Popped(L: State, M: State)
    requires Within(Push(L), M)
    ensures Pop(M).scopes == L.scopes
  {
    assert Push(L).scopes[..|L.scopes|] == L.scopes;
  }

  lemma WithinSame(L: State, M: State, N: State)
    requires Within(L, M) && N.scopes == M.scopes
    ensures Within(L, N)
  {
  }

  // ---------- conditionals ----------

  lemma IfUnfolds(e: Expr, L: State, env: Visible)
    requires e.If?
    ensures var (A, ci) := LowerExpr(e.cond, L);
      var (B, ti) := LowerExpr(e.thn, A);
      var (D, fi) := LowerOpt(e.els, B);
      LowerExpr(e, L) == Alloc(D, HIf(ci, ti, fi))
    ensures Declares(e) == Declares(e.cond) + Declares(e.thn) + DeclaresOpt(e.els)
    ensures Errors(e, env) == Errors(e.cond, env) + Errors(e.thn, env) + ErrorsOpt(e.els, env)
  {
    hide Alloc, LowerOpt;
  }

  lemma IfIs(A: Arena, id: ExprId, e: Expr, env: Visible, ci: ExprId, ti: ExprId, fi: Option<ExprId>)
    requires e.If? && id < |A.nodes| && A.nodes[id] == HIf(ci, ti, fi)
    requires Means(A, ci, e.cond, env) && Means(A, ti, e.thn, env) && MeansOpt(A, fi, e.els, env)
    ensures Means(A, id, e, env)
  {
    hide MeansOpt, Bound;
  }

  lemma {:induction false} IfMeans(e: Expr, L: State, env: Visible)
    requires e.If? && Agrees(L, env)
    ensures var (M, id) := LowerExpr(e, L); ExprOk(L, M, id, e, env)
    decreases e, 0
  {
    hide Agrees, Bound, LowerExpr, LowerOpt, Means, MeansOpt, Alloc, Adds, Larger, Declares, Errors;
    IfUnfolds(e, L, env);
    ExprMeans(e.cond, L, env);
    var (A, ci) := LowerExpr(e.cond, L);
    AddsGrows(L, A, Declares(e.cond), Errors(e.cond, env));
    StillAgrees(L, A, env);
    ExprMeans(e.thn, A, env);
    var (B, ti) := LowerExpr(e.thn, A);
    AddsThen(L, A, B, Declares(e.cond), Errors(e.cond, env), Declares(e.thn), Errors(e.thn, env));
    AddsGrows(A, B, Declares(e.thn), Errors(e.thn, env));
    StillAgrees(A, B, env);
    OptMeans(e.els, B, env);
    var (D, fi) := LowerOpt(e.els, B);
    Allocated(D, HIf(ci, ti, fi));
    var (M, id) := Alloc(D, HIf(ci, ti, fi));
    TwoThenNode(L, B, D, M, Declares(e.cond) + Declares(e.thn), Errors(e.cond, env) + Errors(e.thn, env),
                DeclaresOpt(e.els), ErrorsOpt(e.els, env));
    GrowsThrough(Arenas(A), Arenas(B), Arenas(M));
    MeansGrows(Arenas(A), Arenas(M), ci, e.cond, env);
    MeansGrows(Arenas(B), Arenas(M), ti, e.thn, env);
    MeansOptGrows(Arenas(D), Arenas(M), fi, e.els, env);
    IfIs(Arenas(M), id, e, env, ci, ti, fi);
  }

  lemma GrowsThrough(A: Arena, B: Arena, D: Arena)
    requires Larger(A, B) && Larger(B, D)
    ensures Larger(A, D)
  {
  }

  // ---------- loops ----------

  lemma ForUnfolds(e: Expr, L: State, env: Visible)
    requires e.For?
    ensures var (A, ii) := LowerExpr(e.iter, L);
      var (B, sym) := Declare(Push(A), e.id);
      var (D, bi) := LowerExpr(e.body, B);
      LowerExpr(e, L) == Alloc(Pop(D), HFor(sym, ii, bi))
    ensures Declares(e) == Declares(e.iter) + [e.id] + Declares(e.body)
    ensures Errors(e, env) == Errors(e.iter, env) + Errors(e.body, env + [e.id])
  {
    hide Alloc, Pop, Push, Declare;
  }

  lemma ForIs(A: Arena, id: ExprId, e: Expr, env: Visible, sym: Sym, ii: ExprId, bi: ExprId)
    requires e.For? && id < |A.nodes| && A.nodes[id] == HFor(sym, ii, bi) && Named(A, sym, e.id.name, e.id.tok)
    requires Means(A, ii, e.iter, env) && Means(A, bi, e.body, env + [e.id])
    ensures Means(A, id, e, env)
  {
    hide Bound;
  }

  lemma NamedGrows(A: Arena, B: Arena, s: Sym, id: Ident)
    requires Larger(A, B) && Named(A, s, id.name, id.tok)
    ensures Named(B, s, id.name, id.tok)
  {
  }

  lemma {:induction false} ForMeans(e: Expr, L: State, env: Visible)
    requires e.For? && Agrees(L, env)
    ensures var (M, id) := LowerExpr(e, L); ExprOk(L, M, id, e, env)
    decreases e, 0
  {
    hide Agrees, Bound, LowerExpr, Means, Alloc, Push, Pop, Declare, Within, Named;
    hide Adds, Larger, Declares, Errors;
    ForUnfolds(e, L, env);
    ExprMeans(e.iter, L, env);
    var (A, ii) := LowerExpr(e.iter, L);
    AddsGrows(L, A, Declares(e.iter), Errors(e.iter, env));
    StillAgrees(L, A, env);
    PushAgrees(A, env);
    DeclareAgrees(Push(A), env, e.id);
    var (B, sym) := Declare(Push(A), e.id);
    ExprMeans(e.body, B, env + [e.id]);
    var (D, bi) := LowerExpr(e.body, B);
    WithinSame(Push(A), B, D);
    Popped(A, D);
    Allocated(Pop(D), HFor(sym, ii, bi));
    var (M, id) := Alloc(Pop(D), HFor(sym, ii, bi));
    Bracketed(A, B, D, M, [e.id], 0, Declares(e.body), Errors(e.body, env + [e.id]));
    AddsThen(L, A, M, Declares(e.iter), Errors(e.iter, env), [e.id] + Declares(e.body), Errors(e.body, env + [e.id]));
    assert Declares(e.iter) + ([e.id] + Declares(e.body)) == Declares(e);
    AddsGrows(A, M, [e.id] + Declares(e.body), Errors(e.body, env + [e.id]));
    NamedGrows(Arenas(B), Arenas(M), sym, e.id);
    MeansGrows(Arenas(A), Arenas(M), ii, e.iter, env);
    MeansGrows(Arenas(D), Arenas(M), bi, e.body, env + [e.id]);
    ForIs(Arenas(M), id, e, env, sym, ii, bi);
  }

  // ---------- matches ----------

  lemma MatchUnfolds(e: Expr, L: State, env: Visible)
    requires e.Match?
    ensures var (A, si) := LowerExpr(e.scrut, L);
      var (B, hs) := LowerArms(e.arms, A);
      LowerExpr(e, L) == Alloc(B, HMatch(si, hs))
    ensures Declares(e) == Declares(e.scrut) + DeclaresArms(e.arms)
    ensures Errors(e, env) == Errors(e.scrut, env) + ErrorsArms(e.arms, env)
  {
    hide Alloc, LowerArms;
  }

  lemma MatchIs(A: Arena, id: ExprId, e: Expr, env: Visible, si: ExprId, hs: seq<HirArm>)
    requires e.Match? && id < |A.nodes| && A.nodes[id] == HMatch(si, hs)
    requires Means(A, si, e.scrut, env) && MeansArms(A, hs, e.arms, env)
    ensures Means(A, id, e, env)
  {
    hide MeansArms, Bound;
  }

  lemma {:induction false} MatchMeans(e: Expr, L: State, env: Visible)
    requires e.Match? && Agrees(L, env)
    ensures var (M, id) := LowerExpr(e, L); ExprOk(L, M, id, e, env)
    decreases e, 0
  {
    hide Agrees, Bound, LowerExpr, LowerArms, Means, MeansArms, Alloc, Adds, Larger, Declares, Errors;
    MatchUnfolds(e, L, env);
    ExprMeans(e.scrut, L, env);
    var (A, si) := LowerExpr(e.scrut, L);
    AddsGrows(L, A, Declares(e.scrut), Errors(e.scrut, env));
    StillAgrees(L, A, env);
    ArmsMean(e.arms, A, env);
    var (B, hs) := LowerArms(e.arms, A);
    Allocated(B, HMatch(si, hs));
    var (M, id) := Alloc(B, HMatch(si, hs));
    TwoThenNode(L, A, B, M, Declares(e.scrut), Errors(e.scrut, env), DeclaresArms(e.arms), ErrorsArms(e.arms, env));
    MeansGrows(Arenas(A), Arenas(M), si, e.scrut, env);
    MeansArmsGrows(Arenas(B), Arenas(M), hs, e.arms, env);
    MatchIs(Arenas(M), id, e, env, si, hs);
  }

  lemma {:induction false} ArmsMean(arms: seq<Arm>, L: State, env: Visible)
    requires Agrees(L, env)
    ensures var (M, hs) := LowerArms(arms, L);
      && M.scopes == L.scopes && Adds(L, M, DeclaresArms(arms), ErrorsArms(arms, env))
      && MeansArms(Arenas(M), hs, arms, env)
    decreases arms, 0
  {
    hide Agrees, Bound, MeansArm, LowerArm, Adds, DeclaresArm, ErrorsArm;
    if arms == [] {
      AddsNothing(L, L);
    } else {
      ArmMeans(arms[0], L, env);
      var (A, h) := LowerArm(arms[0], L);
      AddsGrows(L, A, DeclaresArm(arms[0]), ErrorsArm(arms[0], env));
      StillAgrees(L, A, env);
      ArmsMean(arms[1..], A, env);
      var (B, rest) := LowerArms(arms[1..], A);
      AddsThen(L, A, B, DeclaresArm(arms[0]), ErrorsArm(arms[0], env), DeclaresArms(arms[1..]),
        ErrorsArms(arms[1..], env));
      AddsGrows(A, B, DeclaresArms(arms[1..]), ErrorsArms(arms[1..], env));
      MeansArmGrows(Arenas(A), Arenas(B), h, arms[0], env);
      assert ([h] + rest)[1..] == rest;
    }
  }

  lemma {:induction false} ArmMeans(arm: Arm, L: State, env: Visible)
    requires Agrees(L, env)
    ensures var (M, h) := LowerArm(arm, L);
      M.scopes == L.scopes && Adds(L, M, DeclaresArm(arm), ErrorsArm(arm, env)) && MeansArm(Arenas(M), h, arm, env)
    decreases arm, 2
  {
    hide Agrees, Bound, Push, Pop, LowerPat, PatIdents, Within, Means, MeansPat, Adds, Larger;
    PushAgrees(L, env);
    PatMeans(arm.pat, Push(L), env);
    var (A, p) := LowerPat(arm.pat, Push(L));
    var inner := env + PatIdents(arm.pat);
    ExprMeans(arm.body, A, inner);
    var (B, i) := LowerExpr(arm.body, A);
    WithinSame(Push(L), A, B);
    Popped(L, B);
    PopAdds(B);
    var m: nat := if arm.pat.VariantPat? && !arm.pat.known then 1 else 0;
    Bracketed(L, A, B, Pop(B), PatIdents(arm.pat), m, Declares(arm.body), Errors(arm.body, inner));
    MeansPatGrows(Arenas(A), Arenas(Pop(B)), p, arm.pat);
    MeansGrows(Arenas(B), Arenas(Pop(B)), i, arm.body, inner);
  }

  lemma PopAdds(L: State)
    ensures Adds(Pop(L), Pop(L), [], 0)
  {
  }

  lemma PatMeans(p: Pat, L: State, env: Visible)
    requires Agrees(L, env)
    ensures var (M, h) := LowerPat(p, L);
      && Within(L, M) && Agrees(M, env + PatIdents(p)) && MeansPat(Arenas(M), h, p)
      && Adds(L, M, PatIdents(p), if p.VariantPat? && !p.known then 1 else 0)
  {
    hide Agrees, Bound, Declare, Adds, Within;
    NoChange(L, env);
    match p
    case BindPat(None) =>
    case BindPat(Some(id)) =>
      DeclareAgrees(L, env, id);
    case VariantPat(known, binds) =>
      if known {
        BindsMean(binds, |binds|, L, env);
      } else {
        Reported(L, env);
      }
  }

  lemma NoBinds(A: Arena, binds: seq<Option<Ident>>)
    ensures MeansBinds(A, [], binds, 0)
  {
  }

  lemma BindsPlus(A: Arena, syms: seq<Option<Sym>>, binds: seq<Option<Ident>>, n: nat, s: Option<Sym>)
    requires 0 < n <= |binds| && MeansBinds(A, syms, binds, n - 1)
    requires s.Some? <==> binds[n - 1].Some?
    requires s.Some? ==> Named(A, s.value, binds[n - 1].value.name, binds[n - 1].value.tok)
    ensures MeansBinds(A, syms + [s], binds, n)
  {
  }

  lemma {:induction false} BindsMean(binds: seq<Option<Ident>>, n: nat, L: State, env: Visible)
    requires Agrees(L, env) && n <= |binds|
    ensures var (M, syms) := DeclareAll(binds, n, L);
      && Within(L, M) && Agrees(M, env + BindIdents(binds, n)) && MeansBinds(Arenas(M), syms, binds, n)
      && Adds(L, M, BindIdents(binds, n), 0)
    decreases n
  {
    hide Agrees, Bound, Declare, Adds, Within, MeansBinds, Named, Larger;
    if n == 0 {
      NoChange(L, env);
      NoBinds(Arenas(L), binds);
    } else {
      BindsMean(binds, n - 1, L, env);
      var (A, syms) := DeclareAll(binds, n - 1, L);
      var ids := BindIdents(binds, n - 1);
      if binds[n - 1].Some? {
        var id := binds[n - 1].value;
        DeclareAgrees(A, env + ids, id);
        var (B, sym) := Declare(A, id);
        WithinThrough(L, A, B);
        assert (env + ids) + [id] == env + (ids + [id]);
        AddsThen(L, A, B, ids, 0, [id], 0);
        AddsGrows(A, B, [id], 0);
        MeansBindsGrow(Arenas(A), Arenas(B), syms, binds, n - 1);
        BindsPlus(Arenas(B), syms, binds, n, Some(sym));
      } else {
        assert ids + [] == ids;
        BindsPlus(Arenas(A), syms, binds, n, None);
      }
    }
  }

  lemma NoChange(L: State, env: Visible)
    requires Agrees(L, env)
    ensures Within(L, L) && Adds(L, L, [], 0) && env + [] == env
  {
  }

  lemma Reported(L: State, env: Visible)
    requires Agrees(L, env)
    ensures Within(L, Report(L)) && Adds(L, Report(L), [], 1) && Agrees(Report(L), env)
  {
    hide AgreesOn;
    StillAgrees(L, Report(L), env);
  }

  lemma WithinThrough(L: State, A: State, B: State)
    requires Within(L, A) && Within(A, B)
    ensures Within(L, B)
  {
  }

  lemma {:induction false} StmtsMean(ss: seq<Stmt>, L: State, env: Visible)
    requires Agrees(L, env)
    ensures var (M, hs) := LowerStmts(ss, L);
      && Within(L, M) && Agrees(M, AfterStmts(ss, env)) && Adds(L, M, DeclaresStmts(ss), ErrorsStmts(ss, env))
      && MeansStmts(Arenas(M), hs, ss, env)
    decreases ss, 0
  {
    hide Agrees, Bound, MeansStmt, LowerStmt, Adds, Within, DeclaresStmt, ErrorsStmt, Larger;
    if ss == [] {
      NoChange(L, env);
    } else {
      StmtMeans(ss[0], L, env);
      var (A, h) := LowerStmt(ss[0], L);
      var next := AfterStmt(ss[0], env);
      StmtsMean(ss[1..], A, next);
      var (B, rest) := LowerStmts(ss[1..], A);
      WithinThrough(L, A, B);
      AddsThen(L, A, B, DeclaresStmt(ss[0]), ErrorsStmt(ss[0], env), DeclaresStmts(ss[1..]),
        ErrorsStmts(ss[1..], next));
      AddsGrows(A, B, DeclaresStmts(ss[1..]), ErrorsStmts(ss[1..], next));
      if h.Some? {
        MeansStmtGrows(Arenas(A), Arenas(B), h.value, ss[0], env);
        assert ([h.value] + rest)[1..] == rest;
      } else {
        DropsNone(rest);
      }
    }
  }

  lemma {:induction false} StmtMeans(s: Stmt, L: State, env: Visible)
    requires Agrees(L, env)
    ensures var (M, h) := LowerStmt(s, L);
      && Within(L, M) && Agrees(M, AfterStmt(s, env)) && Adds(L, M, DeclaresStmt(s), ErrorsStmt(s, env))
      && (h.None? <==> s.Assign? && Bound(env, s.id.name).None?)
      && (h.Some? ==> MeansStmt(Arenas(M), h.value, s, env))
    decreases s, 1
  {
    hide Agrees, Bound, Lookup, Declare, Means, MeansOpt, LowerExpr, LowerOpt, Adds, Within, Larger;
    match s
    case Let(_, _) => LetMeans(s, L, env);
    case Assign(_, _) => AssignMeans(s, L, env);
    case ExprStmt(e) =>
      ExprMeans(e, L, env);
      Unchanged(L, LowerExpr(e, L).0, env, Declares(e), Errors(e, env));
    case Return(o) =>
      OptMeans(o, L, env);
      Unchanged(L, LowerOpt(o, L).0, env, DeclaresOpt(o), ErrorsOpt(o, env));
  }

  lemma DropsNone(hs: seq<HirStmt>)
    ensures [] + hs == hs
  {
  }

  lemma Unchanged(L: State, M: State, env: Visible, ids: seq<Ident>, n: nat)
    requires Agrees(L, env) && M.scopes == L.scopes && Adds(L, M, ids, n)
    ensures Within(L, M) && Agrees(M, env)
  {
    hide AgreesOn;
    StillAgrees(L, M, env);
  }

  lemma {:induction false} LetMeans(s: Stmt, L: State, env: Visible)
    requires s.Let? && Agrees(L, env)
    ensures var (M, h) := LowerStmt(s, L);
      && Within(L, M) && Agrees(M, env + [s.id]) && Adds(L, M, DeclaresStmt(s), ErrorsStmt(s, env))
      && h.Some? && MeansStmt(Arenas(M), h.value, s, env)
    decreases s, 0
  {
    hide Agrees, Bound, Declare, MeansOpt, LowerOpt, Adds, Within, Larger, Named;
    OptMeans(s.init, L, env);
    var (A, i) := LowerOpt(s.init, L);
    Unchanged(L, A, env, DeclaresOpt(s.init), ErrorsOpt(s.init, env));
    DeclareAgrees(A, env, s.id);
    var (B, sym) := Declare(A, s.id);
    WithinThrough(L, A, B);
    AddsThen(L, A, B, DeclaresOpt(s.init), ErrorsOpt(s.init, env), [s.id], 0);
    AddsGrows(A, B, [s.id], 0);
    MeansOptGrows(Arenas(A), Arenas(B), i, s.init, env);
  }

  lemma {:induction false} AssignMeans(s: Stmt, L: State, env: Visible)
    requires s.Assign? && Agrees(L, env)
    ensures var (M, h) := LowerStmt(s, L);
      && Within(L, M) && Agrees(M, env) && Adds(L, M, DeclaresStmt(s), ErrorsStmt(s, env))
      && (h.None? <==> Bound(env, s.id.name).None?)
      && (h.Some? ==> MeansStmt(Arenas(M), h.value, s, env))
    decreases s, 0
  {
    hide Agrees, Bound, Lookup, Means, LowerExpr, Adds, Within, Larger;
    ExprMeans(s.value, L, env);
    var (A, v) := LowerExpr(s.value, L);
    Unchanged(L, A, env, Declares(s.value), Errors(s.value, env));
    AgreesAt(A, env, s.id.name);
    if Lookup(A.scopes, s.id.name).None? {
      Reported(A, env);
      WithinThrough(L, A, Report(A));
      AddsThen(L, A, Report(A), Declares(s.value), Errors(s.value, env), [], 1);
      assert Declares(s.value) + [] == Declares(s.value);
    }
  }

  lemma AgreesAt(L: State, env: Visible, name: Name)
    requires Agrees(L, env)
    ensures AgreesOn(L, env, name)
  {
  }

  // ---------- whole bodies ----------

  lemma {:induction false} ParamsAgree(params: seq<Ident>, n: nat, L: State)
    requires n <= |params| && Agrees(L, [])
    ensures var M := DeclareParams(params, n, L); Agrees(M, params[..n]) && Adds(L, M, params[..n], 0)
    decreases n
  {
    hide Agrees, Declare, Adds;
    if n == 0 {
      NoChange(L, []);
    } else {
      ParamsAgree(params, n - 1, L);
      var A := DeclareParams(params, n - 1, L);
      DeclareAgrees(A, params[..n - 1], params[n - 1]);
      assert params[..n] == params[..n - 1] + [params[n - 1]];
      AddsThen(L, A, Declare(A, params[n - 1]).0, params[..n - 1], 0, [params[n - 1]], 0);
    }
  }

  lemma NothingBound(L: State)
    requires L.scopes == [map[]]
    ensures Agrees(L, [])
  {
    forall name
      ensures AgreesOn(L, [], name)
    {
      assert L.scopes[..0] == [];
    }
  }

  /** Main result on resolution: the arena says what the function says under lexical scoping, the
      symbols are the declarations in the order of the text, and errors are counted exactly for
      the names without a visible declaration. */
  lemma ResolvesLexically(f: Fn)
    ensures var (L, root) := LowerBody(f);
      && Means(Arenas(L), root, f.body, f.params)
      && L.symbols == Locals(f.params + Declares(f.body))
      && L.diags == Errors(f.body, f.params)
  {
    hide Agrees, Means, LowerExpr, Locals, Declares, Errors;
    var L := State([map[]], [], [], 0);
    NothingBound(L);
    ParamsAgree(f.params, |f.params|, L);
    assert f.params[..|f.params|] == f.params;
    var A := DeclareParams(f.params, |f.params|, L);
    ExprMeans(f.body, A, f.params);
    AddsThen(L, A, LowerExpr(f.body, A).0, f.params, 0, Declares(f.body), Errors(f.body, f.params));
  }

  /** In `fn f(x) { let x = x; }` the initializer is the parameter, not the new binding. */
  lemma InitializerSeesOuter(x: Name, p: Tok, q: Tok, u: Tok)
    requires p != q
    ensures var f := Fn([Ident(x, p)], Block([Let(Ident(x, q), Some(Var(Ident(x, u))))], None));
      var (L, root) := LowerBody(f);
      exists i: ExprId, s: Sym, t: Sym ::
        root < |L.exprs| && L.exprs[root] == HBlock([HLet(s, Some(i))], None) && i < |L.exprs| &&
        L.exprs[i] == HVar(t, u) && Named(Arenas(L), t, x, p) && Named(Arenas(L), s, x, q)
  {
    hide LowerExpr;
    var s := Let(Ident(x, q), Some(Var(Ident(x, u))));
    var f := Fn([Ident(x, p)], Block([s], None));
    ResolvesLexically(f);
    var (L, root) := LowerBody(f);
    var A := Arenas(L);
    var hs := A.nodes[root].stmts;
    assert MeansStmts(A, hs, [s], f.params) && [s][1..] == [];
    assert MeansStmt(A, hs[0], s, f.params);
    assert MeansStmts(A, hs[1..], [s][1..], AfterStmt(s, f.params));
    assert hs[1..] == [];
    assert hs == [hs[0]] && MeansOpt(A, hs[0].init, s.init, f.params);
    assert Means(A, hs[0].init.value, Var(Ident(x, u)), f.params);
  }
}
