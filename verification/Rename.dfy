/** Renaming a local: rewriting the sites resolution reports for it to a name no local of the
    body has keeps every reference bound to the same symbol. */
module Rename {
  import opened Wrappers
  import opened Resolve

  // ---------- rewriting ----------

  /** A name token is rewritten exactly when it is one of the sites. */
  function RenId(P: set<Tok>, to: Name, id: Ident): Ident {
    if id.tok in P then id.(name := to) else id
  }

  function RenIds(P: set<Tok>, to: Name, ids: seq<Ident>): (r: seq<Ident>)
    ensures |r| == |ids| && forall i :: 0 <= i < |r| ==> r[i] == RenId(P, to, ids[i])
  {
    seq(|ids|, i requires 0 <= i < |ids| => RenId(P, to, ids[i]))
  }

  function RenBind(P: set<Tok>, to: Name, b: Option<Ident>): Option<Ident> {
    if b.None? then None else Some(RenId(P, to, b.value))
  }

  function RenBinds(P: set<Tok>, to: Name, binds: seq<Option<Ident>>): (r: seq<Option<Ident>>)
    ensures |r| == |binds| && forall i :: 0 <= i < |r| ==> r[i] == RenBind(P, to, binds[i])
  {
    seq(|binds|, i requires 0 <= i < |binds| => RenBind(P, to, binds[i]))
  }

  function RenExpr(P: set<Tok>, to: Name, e: Expr): Expr
    decreases e, 1
  {
    match e
    case Lit => e
    case Var(id) => Var(RenId(P, to, id))
    case Node(tag, args) => Node(tag, RenAll(P, to, args))
    case Block(stmts, tail) => Block(RenStmts(P, to, stmts), RenOpt(P, to, tail))
    case If(c, t, f) => If(RenExpr(P, to, c), RenExpr(P, to, t), RenOpt(P, to, f))
    case For(id, iter, body) => For(RenId(P, to, id), RenExpr(P, to, iter), RenExpr(P, to, body))
    case Match(s, arms) => Match(RenExpr(P, to, s), RenArms(P, to, arms))
  }

  function RenOpt(P: set<Tok>, to: Name, o: Option<Expr>): Option<Expr>
    decreases o, 2
  {
    if o.None? then None else Some(RenExpr(P, to, o.value))
  }

  function RenAll(P: set<Tok>, to: Name, es: seq<Expr>): seq<Expr>
    decreases es, 0
  {
    if es == [] then [] else [RenExpr(P, to, es[0])] + RenAll(P, to, es[1..])
  }

  function RenArms(P: set<Tok>, to: Name, arms: seq<Arm>): seq<Arm>
    decreases arms, 0
  {
    if arms == [] then [] else [RenArm(P, to, arms[0])] + RenArms(P, to, arms[1..])
  }

  function RenArm(P: set<Tok>, to: Name, arm: Arm): Arm
    decreases arm, 2
  {
    Arm(RenPat(P, to, arm.pat), RenExpr(P, to, arm.body))
  }

  function RenPat(P: set<Tok>, to: Name, p: Pat): Pat {
    match p
    case BindPat(id) => BindPat(RenBind(P, to, id))
    case VariantPat(known, binds) => VariantPat(known, RenBinds(P, to, binds))
  }

  function RenStmts(P: set<Tok>, to: Name, ss: seq<Stmt>): seq<Stmt>
    decreases ss, 0
  {
    if ss == [] then [] else [RenStmt(P, to, ss[0])] + RenStmts(P, to, ss[1..])
  }

  function RenStmt(P: set<Tok>, to: Name, s: Stmt): Stmt
    decreases s, 1
  {
    match s
    case Let(id, init) => Let(RenId(P, to, id), RenOpt(P, to, init))
    case Assign(id, value) => Assign(RenId(P, to, id), RenExpr(P, to, value))
    case ExprStmt(e) => ExprStmt(RenExpr(P, to, e))
    case Return(o) => Return(RenOpt(P, to, o))
  }

  function RenFn(P: set<Tok>, to: Name, f: Fn): Fn {
    Fn(RenIds(P, to, f.params), RenExpr(P, to, f.body))
  }

  // ---------- the sites of a symbol ----------

  /** Tokens of assignment targets bound to the symbol. */
  function AssignSites(stmts: seq<HirStmt>, s: Sym): (r: set<Tok>)
    ensures forall t :: t in r <==> exists h <- stmts :: h.HAssign? && h.sym == s && h.tok == t
  {
    set h <- stmts | h.HAssign? && h.sym == s :: h.tok
  }

  function NodeSites(n: HirNode, s: Sym): set<Tok> {
    match n
    case HVar(x, t) => if x == s then {t} else {}
    case HBlock(stmts, _) => AssignSites(stmts, s)
    case _ => {}
  }

  function ArenaSites(exprs: seq<HirNode>, s: Sym): (r: set<Tok>)
    ensures forall t :: t in r <==> exists n <- exprs :: t in NodeSites(n, s)
  {
    if exprs == [] then {}
    else
      var k := |exprs| - 1;
      ArenaSites(exprs[..k], s) + NodeSites(exprs[k], s)
  }

  /** The declaration, every reference and every assignment target of a symbol. */
  function Sites(L: State, s: Sym): set<Tok> {
    (if s < |L.symbols| then {L.symbols[s].tok} else {}) + ArenaSites(L.exprs, s)
  }

  /** The references to a symbol, in arena order. */
  function VarToks(exprs: seq<HirNode>, s: Sym): (r: seq<Tok>)
    ensures forall t :: t in r <==> exists n <- exprs :: n.HVar? && n.sym == s && n.tok == t
  {
    if exprs == [] then []
    else
      var k := |exprs| - 1;
      assert exprs == exprs[..k] + [exprs[k]];
      VarToks(exprs[..k], s) + if exprs[k].HVar? && exprs[k].sym == s then [exprs[k].tok] else []
  }

  function TargetToks(stmts: seq<HirStmt>, s: Sym): (r: seq<Tok>)
    ensures forall t :: t in r <==> t in AssignSites(stmts, s)
  {
    if stmts == [] then []
    else
      var k := |stmts| - 1;
      assert stmts == stmts[..k] + [stmts[k]];
      TargetToks(stmts[..k], s) + if stmts[k].HAssign? && stmts[k].sym == s then [stmts[k].tok] else []
  }

  /** The assignment targets of a symbol, block by block in arena order. */
  function AssignToks(exprs: seq<HirNode>, s: Sym): (r: seq<Tok>)
    ensures forall t :: t in r <==> exists n <- exprs :: n.HBlock? && t in AssignSites(n.stmts, s)
  {
    if exprs == [] then []
    else
      var k := |exprs| - 1;
      assert exprs == exprs[..k] + [exprs[k]];
      AssignToks(exprs[..k], s) + if exprs[k].HBlock? then TargetToks(exprs[k].stmts, s) else []
  }

  /** Collects the sites from the arenas: the declaration, then references, then assignments. */
  method LocalBindingSites(symbols: seq<Local>, exprs: seq<HirNode>, s: Sym) returns (sites: seq<Tok>)
    requires s < |symbols|
    ensures sites == [symbols[s].tok] + VarToks(exprs, s) + AssignToks(exprs, s)
    ensures forall scopes, diags :: (set t <- sites) == Sites(State(scopes, symbols, exprs, diags), s)
  {
    hide Sites, VarToks, AssignToks, TargetToks, AssignSites;
    TokensStart(s);
    sites := [symbols[s].tok];
    var i := 0;
    assert exprs[..0] == [];
    while i < |exprs|
      invariant 0 <= i <= |exprs| && sites == [symbols[s].tok] + VarToks(exprs[..i], s)
    {
      TokensStep(exprs, i, s);
      if exprs[i].HVar? && exprs[i].sym == s {
        sites := sites + [exprs[i].tok];
      }
      i := i + 1;
    }
    assert exprs[..i] == exprs;
    i := 0;
    while i < |exprs|
      invariant 0 <= i <= |exprs| && sites == [symbols[s].tok] + VarToks(exprs, s) + AssignToks(exprs[..i], s)
    {
      TokensStep(exprs, i, s);
      if exprs[i].HBlock? {
        var found := AssignTokens(exprs[i].stmts, s);
        sites := sites + found;
      }
      i := i + 1;
    }
    assert exprs[..i] == exprs;
    SitesInOrder(symbols, exprs, s);
  }

  lemma TokensStart(s: Sym)
    ensures VarToks([], s) == [] && AssignToks([], s) == []
  {
  }

  lemma TokensStep(exprs: seq<HirNode>, i: nat, s: Sym)
    requires i < |exprs|
    ensures VarToks(exprs[..i + 1], s) ==
      VarToks(exprs[..i], s) + if exprs[i].HVar? && exprs[i].sym == s then [exprs[i].tok] else []
    ensures AssignToks(exprs[..i + 1], s) ==
      AssignToks(exprs[..i], s) + if exprs[i].HBlock? then TargetToks(exprs[i].stmts, s) else []
  {
    hide TargetToks, AssignSites;
    assert exprs[..i + 1][..i] == exprs[..i];
  }

  /** The lists together are the set of sites. */
  lemma SitesInOrder(symbols: seq<Local>, exprs: seq<HirNode>, s: Sym)
    requires s < |symbols|
    ensures forall scopes, diags ::
      (set t <- [symbols[s].tok] + VarToks(exprs, s) + AssignToks(exprs, s)) ==
        Sites(State(scopes, symbols, exprs, diags), s)
  {
    hide VarToks, AssignToks, ArenaSites;
    var toks := [symbols[s].tok] + VarToks(exprs, s) + AssignToks(exprs, s);
    forall t
      ensures t in toks <==> t == symbols[s].tok || t in ArenaSites(exprs, s)
    {
    }
  }

  method AssignTokens(stmts: seq<HirStmt>, s: Sym) returns (toks: seq<Tok>)
    ensures toks == TargetToks(stmts, s)
  {
    toks := [];
    var i := 0;
    while i < |stmts|
      invariant 0 <= i <= |stmts| && toks == TargetToks(stmts[..i], s)
    {
      assert stmts[..i + 1][..i] == stmts[..i];
      if stmts[i].HAssign? && stmts[i].sym == s {
        toks := toks + [stmts[i].tok];
      }
      i := i + 1;
    }
    assert stmts[..i] == stmts;
  }

  // ---------- two resolutions side by side ----------

  /** What stays fixed: the symbol, its name, its new name, and the rewritten tokens. */
  datatype Renaming = Renaming(s: Sym, from: Name, to: Name, P: set<Tok>)

  /** The renamed symbol moved from its old name to the new one, possibly uncovering an earlier
      binding of the old name; everything else is the same. */
  ghost predicate FrameRel(R: Renaming, f: Scope, g: Scope) {
    && R.to !in f
    && (R.to in g ==> g[R.to] == R.s)
    && (forall n {:trigger n in f} {:trigger n in g} ::
      n != R.from && n != R.to ==> (n in f <==> n in g) && (n in f ==> g[n] == f[n]))
    && (R.from in f && f[R.from] == R.s ==> R.to in g)
    && (R.from in f && f[R.from] != R.s ==> R.from in g && g[R.from] == f[R.from])
    && (R.from !in f ==> R.from !in g)
  }

  ghost predicate ScopesRel(R: Renaming, S: seq<Scope>, T: seq<Scope>) {
    |S| == |T| && forall i :: 0 <= i < |S| ==> FrameRel(R, S[i], T[i])
  }

  ghost predicate SymbolsRel(R: Renaming, S: seq<Local>, T: seq<Local>) {
    |S| == |T| && forall i :: 0 <= i < |S| ==> T[i] == if i == R.s then S[i].(name := R.to) else S[i]
  }

  ghost predicate Rel(R: Renaming, L: State, M: State) {
    ScopesRel(R, L.scopes, M.scopes) && SymbolsRel(R, L.symbols, M.symbols) && L.exprs == M.exprs && L.diags == M.diags
  }

  /** Scopes bind names to symbols that have these names. */
  ghost predicate Named(L: State) {
    forall i :: 0 <= i < |L.scopes| ==> FrameNamed(L.symbols, L.scopes[i])
  }

  ghost predicate FrameNamed(symbols: seq<Local>, f: Scope) {
    forall n <- f :: f[n] < |symbols| && symbols[f[n]].name == n
  }

  ghost predicate StmtFine(R: Renaming, h: HirStmt) {
    h.HAssign? ==> (h.tok in R.P <==> h.sym == R.s)
  }

  ghost predicate StmtsFine(R: Renaming, ss: seq<HirStmt>) {
    forall h <- ss :: StmtFine(R, h)
  }

  ghost predicate NodeFine(R: Renaming, n: HirNode) {
    match n
    case HVar(s, t) => t in R.P <==> s == R.s
    case HBlock(stmts, _) => StmtsFine(R, stmts)
    case _ => true
  }

  /** No name was unresolved, no local has the new name, and the rewritten tokens are exactly
      those bound to the symbol. */
  ghost predicate Fine(R: Renaming, L: State) {
    && L.diags == 0 && R.from != R.to
    && (forall i {:trigger L.symbols[i]} :: 0 <= i < |L.symbols| ==>
          L.symbols[i].name != R.to && (L.symbols[i].tok in R.P <==> i == R.s) &&
          (i == R.s ==> L.symbols[i].name == R.from))
    && (forall k {:trigger L.exprs[k]} :: 0 <= k < |L.exprs| ==> NodeFine(R, L.exprs[k]))
  }

  lemma FineBefore(R: Renaming, L: State, M: State)
    requires Grown(L, M) && Fine(R, M)
    ensures Fine(R, L)
  {
    forall i {:trigger L.symbols[i]} | 0 <= i < |L.symbols|
      ensures L.symbols[i] == M.symbols[i]
    {
    }
    forall k {:trigger L.exprs[k]} | 0 <= k < |L.exprs|
      ensures L.exprs[k] == M.exprs[k]
    {
    }
  }

  // ---------- single steps ----------

  /** A resolved name finds the same symbol after the renaming. */
  lemma {:induction false} LookupRel(R: Renaming, S: seq<Scope>, T: seq<Scope>, symbols: seq<Local>, id: Ident)
    requires ScopesRel(R, S, T) && R.from != R.to && Lookup(S, id.name).Some?
    requires forall i :: 0 <= i < |S| ==> FrameNamed(symbols, S[i])
    requires forall i :: 0 <= i < |symbols| ==> symbols[i].name != R.to && (i == R.s ==> symbols[i].name == R.from)
    requires id.tok in R.P <==> Lookup(S, id.name).value == R.s
    ensures Lookup(T, RenId(R.P, R.to, id).name) == Lookup(S, id.name)
  {
    var n := |S| - 1;
    var f, g := S[n], T[n];
    assert FrameRel(R, f, g) && FrameNamed(symbols, f);
    if id.name !in f {
      LookupNamed(S[..n], symbols, id.name);
      LookupRel(R, S[..n], T[..n], symbols, id);
    }
  }

  lemma {:induction false} LookupNamed(S: seq<Scope>, symbols: seq<Local>, name: Name)
    requires Lookup(S, name).Some? && forall i :: 0 <= i < |S| ==> FrameNamed(symbols, S[i])
    ensures Lookup(S, name).value < |symbols| && symbols[Lookup(S, name).value].name == name
  {
    var n := |S| - 1;
    assert FrameNamed(symbols, S[n]);
    if name !in S[n] {
      LookupNamed(S[..n], symbols, name);
    }
  }

  /** Declaring keeps the two sides related and gives the same symbol. */
  lemma DeclareRel(R: Renaming, id: Ident, L: State, M: State)
    requires Rel(R, L, M) && Named(L) && Fine(R, Declare(L, id).0)
    ensures var (A, s) := Declare(L, id);
      var (B, t) := Declare(M, RenId(R.P, R.to, id));
      Rel(R, A, B) && Named(A) && s == t && Grown(L, A)
  {
    var (A, s) := Declare(L, id);
    var (B, t) := Declare(M, RenId(R.P, R.to, id));
    assert A.symbols[s] == Local(id.name, id.tok);
    if L.scopes != [] {
      var n := |L.scopes| - 1;
      assert FrameRel(R, L.scopes[n], M.scopes[n]) && FrameNamed(L.symbols, L.scopes[n]);
      TopRel(R, id, L.scopes[n], M.scopes[n], L.symbols, s);
    }
    forall i | 0 <= i < |A.scopes|
      ensures FrameRel(R, A.scopes[i], B.scopes[i]) && FrameNamed(A.symbols, A.scopes[i])
    {
      assert i < |L.scopes| - 1 ==> FrameRel(R, L.scopes[i], M.scopes[i]) && FrameNamed(L.symbols, L.scopes[i]);
    }
  }

  lemma TopRel(R: Renaming, id: Ident, f: Scope, g: Scope, symbols: seq<Local>, s: Sym)
    requires FrameRel(R, f, g) && FrameNamed(symbols, f) && s == |symbols| && R.from != R.to
    requires id.name != R.to && (id.tok in R.P <==> s == R.s) && (s == R.s ==> id.name == R.from)
    ensures FrameRel(R, f[id.name := s], g[RenId(R.P, R.to, id).name := s])
    ensures FrameNamed(symbols + [Local(id.name, id.tok)], f[id.name := s])
  {
  }

  lemma PushRel(R: Renaming, L: State, M: State)
    requires Rel(R, L, M) && Named(L)
    ensures Rel(R, Push(L), Push(M)) && Named(Push(L))
  {
  }

  lemma PopRel(R: Renaming, L: State, M: State)
    requires Rel(R, L, M) && Named(L)
    ensures Rel(R, Pop(L), Pop(M)) && Named(Pop(L))
  {
  }

  lemma AllocRel(R: Renaming, L: State, M: State, node: HirNode)
    requires Rel(R, L, M) && Named(L)
    ensures Rel(R, Alloc(L, node).0, Alloc(M, node).0) && Named(Alloc(L, node).0)
    ensures Alloc(L, node).1 == Alloc(M, node).1
  {
  }

  /** An allocated node is fine when the arena is. */
  lemma AllocFine(R: Renaming, L: State, node: HirNode)
    requires Fine(R, Alloc(L, node).0)
    ensures NodeFine(R, node)
  {
    assert Alloc(L, node).0.exprs[|L.exprs|] == node;
  }

  lemma SomeFine(R: Renaming, L: State, M: State)
    requires Rel(R, L, M) && Named(L) && Fine(R, L)
    ensures forall i :: 0 <= i < |L.symbols| ==> L.symbols[i].name != R.to && (i == R.s ==> L.symbols[i].name == R.from)
    ensures forall i :: 0 <= i < |L.scopes| ==> FrameNamed(L.symbols, L.scopes[i])
    ensures ScopesRel(R, L.scopes, M.scopes) && R.from != R.to
  {
  }

  // ---------- lowering ----------

  /** Both sides end related, with the same result. */
  ghost predicate Kept<T(!new)>(R: Renaming, r: (State, T), q: (State, T)) {
    Rel(R, r.0, q.0) && Named(r.0) && r.1 == q.1
  }

  lemma {:induction false} ExprRename(R: Renaming, e: Expr, L: State, M: State)
    requires Rel(R, L, M) && Named(L) && Fine(R, LowerExpr(e, L).0)
    ensures Kept(R, LowerExpr(e, L), LowerExpr(RenExpr(R.P, R.to, e), M))
    decreases e, 1
  {
    hide Rel, Named, Fine, Declare, Lookup, Push, Pop;
    match e
    case Lit => AllocRel(R, L, M, HLit);
    case Var(id) => VarRename(R, id, L, M);
    case Node(tag, args) =>
      var (A, ids) := LowerAll(args, L);
      FineBefore(R, A, Alloc(A, HNode(tag, ids)).0);
      AllRename(R, args, L, M);
      AllocRel(R, A, LowerAll(RenAll(R.P, R.to, args), M).0, HNode(tag, ids));
    case Block(_, _) => BlockRename(R, e, L, M);
    case If(_, _, _) => IfRename(R, e, L, M);
    case For(_, _, _) => ForRename(R, e, L, M);
    case Match(s, arms) =>
      var (A, si) := LowerExpr(s, L);
      var (B, ais) := LowerArms(arms, A);
      FineBefore(R, B, Alloc(B, HMatch(si, ais)).0);
      FineBefore(R, A, B);
      ExprRename(R, s, L, M);
      var A2 := LowerExpr(RenExpr(R.P, R.to, s), M).0;
      ArmsRename(R, arms, A, A2);
      AllocRel(R, B, LowerArms(RenArms(R.P, R.to, arms), A2).0, HMatch(si, ais));
  }

  lemma VarRename(R: Renaming, id: Ident, L: State, M: State)
    requires Rel(R, L, M) && Named(L) && Fine(R, LowerExpr(Var(id), L).0)
    ensures Kept(R, LowerExpr(Var(id), L), LowerExpr(Var(RenId(R.P, R.to, id)), M))
  {
    var s := Lookup(L.scopes, id.name);
    assert s.Some?;
    var node := HVar(s.value, id.tok);
    AllocFine(R, L, node);
    FineBefore(R, L, Alloc(L, node).0);
    LookupRel(R, L.scopes, M.scopes, L.symbols, id);
    AllocRel(R, L, M, node);
  }

  lemma {:induction false} BlockRename(R: Renaming, e: Expr, L: State, M: State)
    requires e.Block? && Rel(R, L, M) && Named(L) && Fine(R, LowerExpr(e, L).0)
    ensures Kept(R, LowerExpr(e, L), LowerExpr(RenExpr(R.P, R.to, e), M))
    decreases e, 0
  {
    hide Rel, Named, Fine;
    var (A, ss) := LowerStmts(e.stmts, Push(L));
    var (B, t) := LowerOpt(e.tail, A);
    var node := HBlock(ss, t);
    AllocFine(R, Pop(B), node);
    PopFine(R, B, Alloc(Pop(B), node).0);
    FineBefore(R, A, B);
    PushRel(R, L, M);
    StmtsRename(R, e.stmts, Push(L), Push(M));
    var A2 := LowerStmts(RenStmts(R.P, R.to, e.stmts), Push(M)).0;
    OptRename(R, e.tail, A, A2);
    var B2 := LowerOpt(RenOpt(R.P, R.to, e.tail), A2).0;
    PopRel(R, B, B2);
    AllocRel(R, Pop(B), Pop(B2), node);
  }

  /** Closing a scope does not touch the arenas. */
  lemma PopFine(R: Renaming, B: State, N: State)
    requires Fine(R, N) && B.symbols <= N.symbols && B.exprs <= N.exprs && B.diags <= N.diags
    ensures Fine(R, B)
  {
    FineBefore(R, B.(scopes := N.scopes), N);
  }

  lemma {:induction false} IfRename(R: Renaming, e: Expr, L: State, M: State)
    requires e.If? && Rel(R, L, M) && Named(L) && Fine(R, LowerExpr(e, L).0)
    ensures Kept(R, LowerExpr(e, L), LowerExpr(RenExpr(R.P, R.to, e), M))
    decreases e, 0
  {
    hide Rel, Named, Fine;
    var (A, ci) := LowerExpr(e.cond, L);
    var (B, ti) := LowerExpr(e.thn, A);
    var (D, fi) := LowerOpt(e.els, B);
    var node := HIf(ci, ti, fi);
    FineBefore(R, D, Alloc(D, node).0);
    FineBefore(R, B, D);
    FineBefore(R, A, B);
    ExprRename(R, e.cond, L, M);
    var A2 := LowerExpr(RenExpr(R.P, R.to, e.cond), M).0;
    ExprRename(R, e.thn, A, A2);
    var B2 := LowerExpr(RenExpr(R.P, R.to, e.thn), A2).0;
    OptRename(R, e.els, B, B2);
    AllocRel(R, D, LowerOpt(RenOpt(R.P, R.to, e.els), B2).0, node);
  }

  lemma {:induction false} ForRename(R: Renaming, e: Expr, L: State, M: State)
    requires e.For? && Rel(R, L, M) && Named(L) && Fine(R, LowerExpr(e, L).0)
    ensures Kept(R, LowerExpr(e, L), LowerExpr(RenExpr(R.P, R.to, e), M))
    decreases e, 0
  {
    hide Rel, Named, Fine;
    var (A, ii) := LowerExpr(e.iter, L);
    var (B, sym) := Declare(Push(A), e.id);
    var (D, bi) := LowerExpr(e.body, B);
    var node := HFor(sym, ii, bi);
    PopFine(R, D, Alloc(Pop(D), node).0);
    FineBefore(R, B, D);
    PopFine(R, A, B);
    ExprRename(R, e.iter, L, M);
    var A2 := LowerExpr(RenExpr(R.P, R.to, e.iter), M).0;
    PushRel(R, A, A2);
    DeclareRel(R, e.id, Push(A), Push(A2));
    var B2 := Declare(Push(A2), RenId(R.P, R.to, e.id)).0;
    ExprRename(R, e.body, B, B2);
    var D2 := LowerExpr(RenExpr(R.P, R.to, e.body), B2).0;
    PopRel(R, D, D2);
    AllocRel(R, Pop(D), Pop(D2), node);
  }

  lemma {:induction false} OptRename(R: Renaming, o: Option<Expr>, L: State, M: State)
    requires Rel(R, L, M) && Named(L) && Fine(R, LowerOpt(o, L).0)
    ensures Kept(R, LowerOpt(o, L), LowerOpt(RenOpt(R.P, R.to, o), M))
    decreases o, 2
  {
    hide Rel, Named, Fine;
    if o.Some? {
      ExprRename(R, o.value, L, M);
    }
  }

  lemma {:induction false} AllRename(R: Renaming, es: seq<Expr>, L: State, M: State)
    requires Rel(R, L, M) && Named(L) && Fine(R, LowerAll(es, L).0)
    ensures Kept(R, LowerAll(es, L), LowerAll(RenAll(R.P, R.to, es), M))
    decreases es, 0
  {
    hide Rel, Named, Fine;
    if es != [] {
      var A := LowerExpr(es[0], L).0;
      FineBefore(R, A, LowerAll(es[1..], A).0);
      ExprRename(R, es[0], L, M);
      AllRename(R, es[1..], A, LowerExpr(RenExpr(R.P, R.to, es[0]), M).0);
      assert RenAll(R.P, R.to, es)[1..] == RenAll(R.P, R.to, es[1..]);
    }
  }

  lemma {:induction false} ArmsRename(R: Renaming, arms: seq<Arm>, L: State, M: State)
    requires Rel(R, L, M) && Named(L) && Fine(R, LowerArms(arms, L).0)
    ensures Kept(R, LowerArms(arms, L), LowerArms(RenArms(R.P, R.to, arms), M))
    decreases arms, 0
  {
    hide Rel, Named, Fine;
    if arms != [] {
      var A := LowerArm(arms[0], L).0;
      FineBefore(R, A, LowerArms(arms[1..], A).0);
      ArmRename(R, arms[0], L, M);
      ArmsRename(R, arms[1..], A, LowerArm(RenArm(R.P, R.to, arms[0]), M).0);
      assert RenArms(R.P, R.to, arms)[1..] == RenArms(R.P, R.to, arms[1..]);
    }
  }

  lemma {:induction false} ArmRename(R: Renaming, arm: Arm, L: State, M: State)
    requires Rel(R, L, M) && Named(L) && Fine(R, LowerArm(arm, L).0)
    ensures Kept(R, LowerArm(arm, L), LowerArm(RenArm(R.P, R.to, arm), M))
    decreases arm, 2
  {
    hide Rel, Named, Fine;
    var A := LowerPat(arm.pat, Push(L)).0;
    var B := LowerExpr(arm.body, A).0;
    PopFine(R, B, Pop(B));
    FineBefore(R, A, B);
    PushRel(R, L, M);
    PatRename(R, arm.pat, Push(L), Push(M));
    var A2 := LowerPat(RenPat(R.P, R.to, arm.pat), Push(M)).0;
    ExprRename(R, arm.body, A, A2);
    PopRel(R, B, LowerExpr(RenExpr(R.P, R.to, arm.body), A2).0);
  }

  lemma PatRename(R: Renaming, p: Pat, L: State, M: State)
    requires Rel(R, L, M) && Named(L) && Fine(R, LowerPat(p, L).0)
    ensures Kept(R, LowerPat(p, L), LowerPat(RenPat(R.P, R.to, p), M))
  {
    hide Rel, Named, Declare;
    match p
    case BindPat(id) =>
      if id.Some? {
        DeclareRel(R, id.value, L, M);
      }
    case VariantPat(known, binds) =>
      if known {
        BindsRename(R, binds, |binds|, L, M);
      }
  }

  lemma {:induction false} BindsRename(R: Renaming, binds: seq<Option<Ident>>, n: nat, L: State, M: State)
    requires n <= |binds| && Rel(R, L, M) && Named(L) && Fine(R, DeclareAll(binds, n, L).0)
    ensures Kept(R, DeclareAll(binds, n, L), DeclareAll(RenBinds(R.P, R.to, binds), n, M))
  {
    hide Rel, Named, Fine, Declare;
    if n > 0 {
      var A := DeclareAll(binds, n - 1, L).0;
      var b := binds[n - 1];
      if b.None? {
        BindsRename(R, binds, n - 1, L, M);
      } else {
        DeclareGrows(A, b.value);
        FineBefore(R, A, Declare(A, b.value).0);
        BindsRename(R, binds, n - 1, L, M);
        DeclareRel(R, b.value, A, DeclareAll(RenBinds(R.P, R.to, binds), n - 1, M).0);
      }
    }
  }

  lemma DeclareGrows(L: State, id: Ident)
    ensures Grown(L, Declare(L, id).0)
  {
  }

  lemma {:induction false} StmtsRename(R: Renaming, ss: seq<Stmt>, L: State, M: State)
    requires Rel(R, L, M) && Named(L) && Fine(R, LowerStmts(ss, L).0) && StmtsFine(R, LowerStmts(ss, L).1)
    ensures Kept(R, LowerStmts(ss, L), LowerStmts(RenStmts(R.P, R.to, ss), M))
    decreases ss, 0
  {
    hide Rel, Named, Fine, StmtFine;
    if ss != [] {
      var (A, s) := LowerStmt(ss[0], L);
      var (B, rest) := LowerStmts(ss[1..], A);
      FineBefore(R, A, B);
      FineSplit(R, s, rest);
      StmtRename(R, ss[0], L, M);
      StmtsRename(R, ss[1..], A, LowerStmt(RenStmt(R.P, R.to, ss[0]), M).0);
      assert RenStmts(R.P, R.to, ss)[1..] == RenStmts(R.P, R.to, ss[1..]);
    }
  }

  lemma FineSplit(R: Renaming, s: Option<HirStmt>, rest: seq<HirStmt>)
    requires StmtsFine(R, (if s.Some? then [s.value] else []) + rest)
    ensures StmtsFine(R, rest) && (s.Some? ==> StmtFine(R, s.value))
  {
    var all := (if s.Some? then [s.value] else []) + rest;
    assert forall h <- rest :: h in all;
    assert s.Some? ==> s.value in all;
  }

  lemma {:induction false} StmtRename(R: Renaming, s: Stmt, L: State, M: State)
    requires Rel(R, L, M) && Named(L) && Fine(R, LowerStmt(s, L).0)
    requires LowerStmt(s, L).1.Some? ==> StmtFine(R, LowerStmt(s, L).1.value)
    ensures Kept(R, LowerStmt(s, L), LowerStmt(RenStmt(R.P, R.to, s), M))
    decreases s, 1
  {
    hide Rel, Named, Fine, Declare;
    match s
    case Let(id, init) =>
      var A := LowerOpt(init, L).0;
      DeclareGrows(A, id);
      FineBefore(R, A, Declare(A, id).0);
      OptRename(R, init, L, M);
      DeclareRel(R, id, A, LowerOpt(RenOpt(R.P, R.to, init), M).0);
    case Assign(id, value) => AssignRename(R, id, value, L, M);
    case ExprStmt(e) => ExprRename(R, e, L, M);
    case Return(o) => OptRename(R, o, L, M);
  }

  lemma {:induction false} AssignRename(R: Renaming, id: Ident, value: Expr, L: State, M: State)
    requires Rel(R, L, M) && Named(L) && Fine(R, LowerStmt(Assign(id, value), L).0)
    requires LowerStmt(Assign(id, value), L).1.Some? ==> StmtFine(R, LowerStmt(Assign(id, value), L).1.value)
    ensures Kept(R, LowerStmt(Assign(id, value), L),
      LowerStmt(Assign(RenId(R.P, R.to, id), RenExpr(R.P, R.to, value)), M))
    decreases value, 3
  {
    var A := LowerExpr(value, L).0;
    var s := Lookup(A.scopes, id.name);
    assert s.Some?;
    hide Rel, Named, Fine;
    ExprRename(R, value, L, M);
    var A2 := LowerExpr(RenExpr(R.P, R.to, value), M).0;
    SomeFine(R, A, A2);
    LookupRel(R, A.scopes, A2.scopes, A.symbols, id);
  }

  // ---------- whole bodies ----------

  lemma {:induction false} ParamsRename(R: Renaming, params: seq<Ident>, n: nat, L: State)
    requires n <= |params| && Rel(R, L, L) && Named(L) && Fine(R, DeclareParams(params, n, L))
    ensures var A := DeclareParams(params, n, L);
      Rel(R, A, DeclareParams(RenIds(R.P, R.to, params), n, L)) && Named(A)
  {
    hide Rel, Named, Fine, Declare;
    if n > 0 {
      var A := DeclareParams(params, n - 1, L);
      DeclareGrows(A, params[n - 1]);
      FineBefore(R, A, DeclareParams(params, n, L));
      ParamsRename(R, params, n - 1, L);
      DeclareRel(R, params[n - 1], A, DeclareParams(RenIds(R.P, R.to, params), n - 1, L));
    }
  }

  /** One token never stands for two symbols. */
  ghost predicate OneSymbolPerToken(L: State) {
    forall s: Sym, t: Sym :: s != t ==> Sites(L, s) !! Sites(L, t)
  }

  lemma SitesFine(R: Renaming, L: State)
    requires L.diags == 0 && R.s < |L.symbols| && R.from == L.symbols[R.s].name && R.P == Sites(L, R.s)
    requires OneSymbolPerToken(L) && forall l <- L.symbols :: l.name != R.to
    ensures Fine(R, L)
  {
    assert L.symbols[R.s] in L.symbols;
    forall i {:trigger L.symbols[i]} | 0 <= i < |L.symbols|
      ensures L.symbols[i].name != R.to && (L.symbols[i].tok in R.P <==> i == R.s)
    {
      assert L.symbols[i] in L.symbols;
      assert L.symbols[i].tok in Sites(L, i);
    }
    forall k {:trigger L.exprs[k]} | 0 <= k < |L.exprs|
      ensures NodeFine(R, L.exprs[k])
    {
      NodeIsFine(R, L, L.exprs[k]);
    }
  }

  lemma NodeIsFine(R: Renaming, L: State, n: HirNode)
    requires n in L.exprs && R.s < |L.symbols| && R.P == Sites(L, R.s) && OneSymbolPerToken(L)
    ensures NodeFine(R, n)
  {
    match n
    case HVar(s, t) =>
      assert t in NodeSites(n, s);
      assert t in Sites(L, s);
    case HBlock(stmts, _) =>
      forall h <- stmts | h.HAssign?
        ensures h.tok in R.P <==> h.sym == R.s
      {
        assert h.tok in NodeSites(n, h.sym);
        assert h.tok in Sites(L, h.sym);
      }
    case _ =>
  }

  /** The renaming theorem for a body whose tokens each stand for one symbol. */
  lemma RenameWhenSingle(f: Fn, s: Sym, to: Name)
    requires var L := LowerBody(f).0;
      L.diags == 0 && s < |L.symbols| && OneSymbolPerToken(L) && forall l <- L.symbols :: l.name != to
    ensures Renamed(f, s, to)
  {
    hide Sites, OneSymbolPerToken;
    var (L, root) := LowerBody(f);
    var R := Renaming(s, L.symbols[s].name, to, Sites(L, s));
    SitesFine(R, L);
    var S := State([map[]], [], [], 0);
    var A := DeclareParams(f.params, |f.params|, S);
    FineBefore(R, A, L);
    ParamsRename(R, f.params, |f.params|, S);
    var B := DeclareParams(RenIds(R.P, to, f.params), |f.params|, S);
    ExprRename(R, f.body, A, B);
    var M := LowerBody(RenFn(R.P, to, f)).0;
    assert M.symbols == L.symbols[s := L.symbols[s].(name := to)];
  }

  /** The rewritten body resolves to the same arena, with no error and with only the name of the
      one symbol changed. */
  ghost predicate Renamed(f: Fn, s: Sym, to: Name)
    requires s < |LowerBody(f).0.symbols|
  {
    var (L, root) := LowerBody(f);
    var (M, r) := LowerBody(RenFn(Sites(L, s), to, f));
    M.symbols == L.symbols[s := L.symbols[s].(name := to)] && M.exprs == L.exprs && M.diags == 0 && r == root
  }

  // ---------- why the new name must be free ----------

  /** `fn f(x) { let y = 0; x }`, with x named 1 and y named 2. */
  const SHADOWABLE := Fn([Ident(1, 10)], Block([Let(Ident(2, 20), Some(Lit))], Some(Var(Ident(1, 30)))))

  /** Renaming the parameter to the name of the local captures the reference. */
  lemma TakenNameCaptures()
    ensures LowerBody(SHADOWABLE).0.exprs == [HLit, HVar(0, 30), HBlock([HLet(1, Some(0))], Some(1))]
    ensures LowerBody(RenFn({10, 30}, 2, SHADOWABLE)).0.exprs ==
      [HLit, HVar(1, 30), HBlock([HLet(1, Some(0))], Some(1))]
  {
    CaptureRun(1, SHADOWABLE);
    var g := RenFn({10, 30}, 2, SHADOWABLE);
    assert RenIds({10, 30}, 2, [Ident(1, 10)]) == [Ident(2, 10)];
    assert [Let(Ident(2, 20), Some(Lit))][1..] == [];
    assert RenStmts({10, 30}, 2, [Let(Ident(2, 20), Some(Lit))]) == [Let(Ident(2, 20), Some(Lit))];
    CaptureRun(2, g);
  }

  lemma CaptureRun(x: Name, f: Fn)
    requires x in {1, 2} && f == Fn([Ident(x, 10)], Block([Let(Ident(2, 20), Some(Lit))], Some(Var(Ident(x, 30)))))
    ensures LowerBody(f).0.exprs == [HLit, HVar(if x == 1 then 0 else 1, 30), HBlock([HLet(1, Some(0))], Some(1))]
  {
    var A := State([map[x := 0]], [Local(x, 10)], [], 0);
    ParamRun(x, f.params);
    var body: Scope := map[2 := 1];
    var E := State([map[x := 0], body], [Local(x, 10), Local(2, 20)], [HLit], 0);
    var ss := [Let(Ident(2, 20), Some(Lit))];
    LetRun(x, A, E);
    hide LowerStmts, DeclareParams;
    var y := if x == 1 then 0 else 1;
    assert Lookup(E.scopes, x) == Some(y) by {
      assert E.scopes[..1] == [map[x := 0]];
      assert x != 2 ==> Lookup(E.scopes[..1], x) == Some(0);
    }
    var G := State(E.scopes, E.symbols, [HLit, HVar(y, 30)], 0);
    assert LowerOpt(Some(Var(Ident(x, 30))), E) == (G, Some(1)) by {
      assert [HLit] + [HVar(y, 30)] == [HLit, HVar(y, 30)];
      assert LowerExpr(Var(Ident(x, 30)), E) == (G, 1);
    }
    assert LowerExpr(f.body, A).0.exprs == G.exprs + [HBlock([HLet(1, Some(0))], Some(1))];
  }

  lemma ParamRun(x: Name, params: seq<Ident>)
    requires params == [Ident(x, 10)]
    ensures DeclareParams(params, 1, State([map[]], [], [], 0)) == State([map[x := 0]], [Local(x, 10)], [], 0)
  {
    var S := State([map[]], [], [], 0);
    var top: Scope := map[x := 0];
    assert S.scopes[0][x := 0] == top;
    assert DeclareParams(params, 0, S) == S;
  }

  lemma LetRun(x: Name, A: State, E: State)
    requires A == State([map[x := 0]], [Local(x, 10)], [], 0)
    requires E == State([map[x := 0], map[2 := 1]], [Local(x, 10), Local(2, 20)], [HLit], 0)
    ensures LowerStmts([Let(Ident(2, 20), Some(Lit))], Push(A)) == (E, [HLet(1, Some(0))])
  {
    var ss := [Let(Ident(2, 20), Some(Lit))];
    assert ss[1..] == [] && LowerStmts([], E) == (E, []);
    var B := Push(A);
    var D := State(B.scopes, B.symbols, [HLit], 0);
    assert LowerOpt(Some(Lit), B) == (D, Some(0)) by {
      assert [] + [HLit] == [HLit];
      assert LowerExpr(Lit, B) == (D, 0);
    }
    assert Declare(D, Ident(2, 20)) == (E, 1) by {
      var top: Scope := map[2 := 1];
      assert D.scopes == [A.scopes[0], map[]];
      assert D.scopes[1][2 := 1] == top;
      assert Bind(D.scopes, 2, 1) == E.scopes;
      assert D.symbols + [Local(2, 20)] == E.symbols;
    }
    assert LowerStmts(ss, B) == (E, [HLet(1, Some(0))]) by {
      assert ss[0] == Let(Ident(2, 20), Some(Lit));
      assert LowerStmt(ss[0], B) == (E, Some(HLet(1, Some(0))));
      assert [HLet(1, Some(0))] + [] == [HLet(1, Some(0))];
    }
  }
}
