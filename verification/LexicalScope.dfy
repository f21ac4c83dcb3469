/** Lexical scoping, told on the surface tree: which declaration a name stands for where it is
    used. It passes the visible declarations down the tree and knows neither scopes nor symbols. */
module LexicalScope {
  import opened Wrappers
  import opened Resolve

  /** The declarations visible at a place, latest last. */
  type Visible = seq<Ident>

  /** The latest declaration of the name wins. */
  function Bound(env: Visible, name: Name): (r: Option<Tok>)
    ensures r.None? <==> forall i :: 0 <= i < |env| ==> env[i].name != name
    ensures r.Some? ==> exists i ::
      0 <= i < |env| && env[i] == Ident(name, r.value) && forall j :: i < j < |env| ==> env[j].name != name
  {
    if env == [] then None
    else if env[|env| - 1].name == name then Some(env[|env| - 1].tok)
    else Bound(env[..|env| - 1], name)
  }

  // ---------- what declarations make visible ----------

  /** A binding is visible in the statements after it, not in its own initializer. */
  function AfterStmt(s: Stmt, env: Visible): Visible {
    if s.Let? then env + [s.id] else env
  }

  function AfterStmts(ss: seq<Stmt>, env: Visible): Visible {
    if ss == [] then env else AfterStmts(ss[1..], AfterStmt(ss[0], env))
  }

  function BindIdents(binds: seq<Option<Ident>>, n: nat): seq<Ident>
    requires n <= |binds|
  {
    if n == 0 then []
    else BindIdents(binds, n - 1) + if binds[n - 1].Some? then [binds[n - 1].value] else []
  }

  /** The names a pattern binds; a pattern that does not resolve binds none. */
  function PatIdents(p: Pat): seq<Ident> {
    match p
    case BindPat(id) => if id.Some? then [id.value] else []
    case VariantPat(known, binds) => if known then BindIdents(binds, |binds|) else []
  }

  // ---------- uses without a declaration ----------

  function Unbound(env: Visible, id: Ident): nat {
    if Bound(env, id.name).None? then 1 else 0
  }

  /** How many names of the expression have no visible declaration, counting patterns that do not
      resolve. */
  function Errors(e: Expr, env: Visible): nat
    decreases e, 1
  {
    match e
    case Lit => 0
    case Var(id) => Unbound(env, id)
    case Node(_, args) => ErrorsAll(args, env)
    case Block(stmts, tail) => ErrorsStmts(stmts, env) + ErrorsOpt(tail, AfterStmts(stmts, env))
    case If(c, t, f) => Errors(c, env) + Errors(t, env) + ErrorsOpt(f, env)
    case For(id, iter, body) => Errors(iter, env) + Errors(body, env + [id])
    case Match(s, arms) => Errors(s, env) + ErrorsArms(arms, env)
  }

  function ErrorsOpt(o: Option<Expr>, env: Visible): nat
    decreases o, 2
  {
    if o.None? then 0 else Errors(o.value, env)
  }

  function ErrorsAll(es: seq<Expr>, env: Visible): nat
    decreases es, 0
  {
    if es == [] then 0 else Errors(es[0], env) + ErrorsAll(es[1..], env)
  }

  function ErrorsArms(arms: seq<Arm>, env: Visible): nat
    decreases arms, 0
  {
    if arms == [] then 0 else ErrorsArm(arms[0], env) + ErrorsArms(arms[1..], env)
  }

  function ErrorsArm(arm: Arm, env: Visible): nat
    decreases arm, 2
  {
    (if arm.pat.VariantPat? && !arm.pat.known then 1 else 0) + Errors(arm.body, env + PatIdents(arm.pat))
  }

  function ErrorsStmts(ss: seq<Stmt>, env: Visible): nat
    decreases ss, 0
  {
    if ss == [] then 0 else ErrorsStmt(ss[0], env) + ErrorsStmts(ss[1..], AfterStmt(ss[0], env))
  }

  function ErrorsStmt(s: Stmt, env: Visible): nat
    decreases s, 1
  {
    match s
    case Let(_, init) => ErrorsOpt(init, env)
    case Assign(id, value) => Errors(value, env) + Unbound(env, id)
    case ExprStmt(e) => Errors(e, env)
    case Return(o) => ErrorsOpt(o, env)
  }

  // ---------- declarations in the order of the text ----------

  function Locals(ids: seq<Ident>): (r: seq<Local>)
    ensures |r| == |ids| && forall i :: 0 <= i < |r| ==> r[i] == Local(ids[i].name, ids[i].tok)
  {
    seq(|ids|, i requires 0 <= i < |ids| => Local(ids[i].name, ids[i].tok))
  }

  function Declares(e: Expr): seq<Ident>
    decreases e, 1
  {
    match e
    case Lit => []
    case Var(_) => []
    case Node(_, args) => DeclaresAll(args)
    case Block(stmts, tail) => DeclaresStmts(stmts) + DeclaresOpt(tail)
    case If(c, t, f) => Declares(c) + Declares(t) + DeclaresOpt(f)
    case For(id, iter, body) => Declares(iter) + [id] + Declares(body)
    case Match(s, arms) => Declares(s) + DeclaresArms(arms)
  }

  function DeclaresOpt(o: Option<Expr>): seq<Ident>
    decreases o, 2
  {
    if o.None? then [] else Declares(o.value)
  }

  function DeclaresAll(es: seq<Expr>): seq<Ident>
    decreases es, 0
  {
    if es == [] then [] else Declares(es[0]) + DeclaresAll(es[1..])
  }

  function DeclaresArms(arms: seq<Arm>): seq<Ident>
    decreases arms, 0
  {
    if arms == [] then [] else DeclaresArm(arms[0]) + DeclaresArms(arms[1..])
  }

  function DeclaresArm(arm: Arm): seq<Ident>
    decreases arm, 2
  {
    PatIdents(arm.pat) + Declares(arm.body)
  }

  function DeclaresStmts(ss: seq<Stmt>): seq<Ident>
    decreases ss, 0
  {
    if ss == [] then [] else DeclaresStmt(ss[0]) + DeclaresStmts(ss[1..])
  }

  function DeclaresStmt(s: Stmt): seq<Ident>
    decreases s, 1
  {
    match s
    case Let(id, init) => DeclaresOpt(init) + [id]
    case Assign(_, value) => Declares(value)
    case ExprStmt(e) => Declares(e)
    case Return(o) => DeclaresOpt(o)
  }

  // ---------- what an arena says ----------

  /** Two arenas: resolved nodes and declared symbols. */
  datatype Arena = Arena(nodes: seq<HirNode>, locals: seq<Local>)

  /** The symbol stands for the declaration of this name at this token. */
  predicate Named(A: Arena, s: Sym, name: Name, tok: Tok) {
    s < |A.locals| && A.locals[s] == Local(name, tok)
  }

  /** The symbol stands for the visible declaration of the name. */
  predicate Refers(A: Arena, s: Sym, name: Name, env: Visible) {
    Bound(env, name).Some? && Named(A, s, name, Bound(env, name).value)
  }

  /** Node `id` is the expression with every name replaced by the symbol of its visible
      declaration; a name without one is poison. */
  predicate Means(A: Arena, id: ExprId, e: Expr, env: Visible)
    decreases e, 1
  {
    id < |A.nodes| &&
    match (e, A.nodes[id])
    case (Lit, HLit) => true
    case (Var(x), HVar(s, tok)) => tok == x.tok && Refers(A, s, x.name, env)
    case (Var(x), HPoison) => Bound(env, x.name).None?
    case (Node(tag, args), HNode(t, ids)) => t == tag && MeansAll(A, ids, args, env)
    case (Block(stmts, tail), HBlock(hs, t)) =>
      MeansStmts(A, hs, stmts, env) && MeansOpt(A, t, tail, AfterStmts(stmts, env))
    case (If(c, t, f), HIf(ci, ti, fi)) => Means(A, ci, c, env) && Means(A, ti, t, env) && MeansOpt(A, fi, f, env)
    case (For(x, iter, body), HFor(s, ii, bi)) =>
      Named(A, s, x.name, x.tok) && Means(A, ii, iter, env) && Means(A, bi, body, env + [x])
    case (Match(s, arms), HMatch(si, hs)) => Means(A, si, s, env) && MeansArms(A, hs, arms, env)
    case _ => false
  }

  predicate MeansOpt(A: Arena, id: Option<ExprId>, o: Option<Expr>, env: Visible)
    decreases o, 2
  {
    (id.Some? <==> o.Some?) && (o.Some? ==> Means(A, id.value, o.value, env))
  }

  predicate MeansAll(A: Arena, ids: seq<ExprId>, es: seq<Expr>, env: Visible)
    decreases es, 0
  {
    |ids| == |es| && (es != [] ==> Means(A, ids[0], es[0], env) && MeansAll(A, ids[1..], es[1..], env))
  }

  predicate MeansArms(A: Arena, hs: seq<HirArm>, arms: seq<Arm>, env: Visible)
    decreases arms, 0
  {
    |hs| == |arms| && (arms != [] ==> MeansArm(A, hs[0], arms[0], env) && MeansArms(A, hs[1..], arms[1..], env))
  }

  /** What a pattern binds is visible in its own arm only. */
  predicate MeansArm(A: Arena, h: HirArm, arm: Arm, env: Visible)
    decreases arm, 2
  {
    MeansPat(A, h.pat, arm.pat) && Means(A, h.body, arm.body, env + PatIdents(arm.pat))
  }

  predicate MeansPat(A: Arena, h: HirPat, p: Pat) {
    match (p, h)
    case (BindPat(id), HBind(s)) => MeansBind(A, s, id)
    case (VariantPat(known, binds), HVariant(syms)) => known && MeansBinds(A, syms, binds, |binds|)
    case (VariantPat(known, _), HPoisonPat) => !known
    case _ => false
  }

  predicate MeansBind(A: Arena, s: Option<Sym>, id: Option<Ident>) {
    (s.Some? <==> id.Some?) && (id.Some? ==> Named(A, s.value, id.value.name, id.value.tok))
  }

  predicate MeansBinds(A: Arena, syms: seq<Option<Sym>>, binds: seq<Option<Ident>>, n: nat)
    requires n <= |binds|
  {
    |syms| == n && forall i :: 0 <= i < n ==> MeansBind(A, syms[i], binds[i])
  }

  /** An assignment to a name without a visible declaration is dropped. */
  predicate MeansStmts(A: Arena, hs: seq<HirStmt>, ss: seq<Stmt>, env: Visible)
    decreases ss, 0
  {
    if ss == [] then hs == []
    else if ss[0].Assign? && Bound(env, ss[0].id.name).None? then MeansStmts(A, hs, ss[1..], env)
    else hs != [] && MeansStmt(A, hs[0], ss[0], env) && MeansStmts(A, hs[1..], ss[1..], AfterStmt(ss[0], env))
  }

  predicate MeansStmt(A: Arena, h: HirStmt, s: Stmt, env: Visible)
    decreases s, 1
  {
    match (s, h)
    case (Let(id, init), HLet(sym, i)) => Named(A, sym, id.name, id.tok) && MeansOpt(A, i, init, env)
    case (Assign(id, value), HAssign(sym, tok, v)) =>
      tok == id.tok && Refers(A, sym, id.name, env) && Means(A, v, value, env)
    case (ExprStmt(e), HExpr(i)) => Means(A, i, e, env)
    case (Return(o), HReturn(i)) => MeansOpt(A, i, o, env)
    case _ => false
  }
}
