/** Name tokens of a body are places in its text, so no two are the same. Resolution then never
    gives one token to two symbols, which is what renaming by tokens relies on. */
module RenameTokens {
  import opened Wrappers
  import opened Resolve
  import opened Rename

  // ---------- the tokens of a body ----------

  function ExprToks(e: Expr): seq<Tok>
    decreases e, 1
  {
    match e
    case Lit => []
    case Var(id) => [id.tok]
    case Node(_, args) => AllToks(args)
    case Block(stmts, tail) => StmtsToks(stmts) + OptToks(tail)
    case If(c, t, f) => ExprToks(c) + (ExprToks(t) + OptToks(f))
    case For(id, iter, body) => ExprToks(iter) + ([id.tok] + ExprToks(body))
    case Match(s, arms) => ExprToks(s) + ArmsToks(arms)
  }

  function OptToks(o: Option<Expr>): seq<Tok>
    decreases o, 2
  {
    if o.None? then [] else ExprToks(o.value)
  }

  function AllToks(es: seq<Expr>): seq<Tok>
    decreases es, 0
  {
    if es == [] then [] else ExprToks(es[0]) + AllToks(es[1..])
  }

  function ArmsToks(arms: seq<Arm>): seq<Tok>
    decreases arms, 0
  {
    if arms == [] then [] else ArmToks(arms[0]) + ArmsToks(arms[1..])
  }

  function ArmToks(arm: Arm): seq<Tok>
    decreases arm, 2
  {
    PatToks(arm.pat) + ExprToks(arm.body)
  }

  function PatToks(p: Pat): seq<Tok> {
    match p
    case BindPat(id) => BindToks(id)
    case VariantPat(_, binds) => BindsToks(binds, |binds|)
  }

  function BindToks(b: Option<Ident>): seq<Tok> {
    if b.None? then [] else [b.value.tok]
  }

  function BindsToks(binds: seq<Option<Ident>>, n: nat): seq<Tok>
    requires n <= |binds|
  {
    if n == 0 then [] else BindsToks(binds, n - 1) + BindToks(binds[n - 1])
  }

  function StmtsToks(ss: seq<Stmt>): seq<Tok>
    decreases ss, 0
  {
    if ss == [] then [] else StmtToks(ss[0]) + StmtsToks(ss[1..])
  }

  function StmtToks(s: Stmt): seq<Tok>
    decreases s, 1
  {
    match s
    case Let(id, init) => OptToks(init) + [id.tok]
    case Assign(id, value) => ExprToks(value) + [id.tok]
    case ExprStmt(e) => ExprToks(e)
    case Return(o) => OptToks(o)
  }

  function ParamToks(params: seq<Ident>, n: nat): seq<Tok>
    requires n <= |params|
  {
    if n == 0 then [] else ParamToks(params, n - 1) + [params[n - 1].tok]
  }

  function FnToks(f: Fn): seq<Tok> {
    ParamToks(f.params, |f.params|) + ExprToks(f.body)
  }

  ghost predicate Distinct(toks: seq<Tok>) {
    forall i, j :: 0 <= i < j < |toks| ==> toks[i] != toks[j]
  }

  // ---------- each token gets one owner ----------

  type Owners = map<Tok, Sym>

  ghost predicate Has(m: Owners, t: Tok, s: Sym) {
    t in m && m[t] == s
  }

  ghost predicate StmtsOwned(ss: seq<HirStmt>, m: Owners) {
    forall h <- ss :: h.HAssign? ==> Has(m, h.tok, h.sym)
  }

  ghost predicate NodeOwned(n: HirNode, m: Owners) {
    match n
    case HVar(s, t) => Has(m, t, s)
    case HBlock(stmts, _) => StmtsOwned(stmts, m)
    case _ => true
  }

  /** Every token the arenas hold belongs to the symbol it stands for. */
  ghost predicate Owned(L: State, m: Owners) {
    && (forall i :: 0 <= i < |L.symbols| ==> Has(m, L.symbols[i].tok, i))
    && forall k :: 0 <= k < |L.exprs| ==> NodeOwned(L.exprs[k], m)
  }

  ghost predicate Fresh(m: Owners, toks: seq<Tok>) {
    Distinct(toks) && forall t <- toks :: t !in m
  }

  /** `n` keeps the owners of `m` and adds some for these tokens. */
  ghost predicate Ext(m: Owners, n: Owners, toks: seq<Tok>) {
    (forall t: Tok :: t in m ==> Has(n, t, m[t])) && forall t: Tok :: t in n ==> t in m || t in toks
  }

  lemma FreshFront(m: Owners, a: seq<Tok>, b: seq<Tok>)
    requires Fresh(m, a + b)
    ensures Fresh(m, a)
  {
    assert forall i :: 0 <= i < |a| ==> (a + b)[i] == a[i];
    forall t <- a ensures t !in m {
      assert t in a + b;
    }
  }

  lemma FreshBack(m: Owners, n: Owners, a: seq<Tok>, b: seq<Tok>)
    requires Fresh(m, a + b) && Ext(m, n, a)
    ensures Fresh(n, b)
  {
    assert forall i :: 0 <= i < |b| ==> (a + b)[|a| + i] == b[i];
    forall i | 0 <= i < |b| ensures b[i] !in n {
      assert (a + b)[|a| + i] == b[i];
      if b[i] in a {
        var j :| 0 <= j < |a| && a[j] == b[i];
        assert (a + b)[j] == a[j];
      }
    }
  }

  lemma ExtTrans(m: Owners, n: Owners, o: Owners, a: seq<Tok>, b: seq<Tok>)
    requires Ext(m, n, a) && Ext(n, o, b)
    ensures Ext(m, o, a + b)
  {
  }

  lemma OwnedExt(L: State, m: Owners, n: Owners, toks: seq<Tok>)
    requires Owned(L, m) && Ext(m, n, toks)
    ensures Owned(L, n)
  {
    forall k | 0 <= k < |L.exprs| ensures NodeOwned(L.exprs[k], n) {
      assert NodeOwned(L.exprs[k], m);
    }
  }

  lemma DeclareOwned(id: Ident, L: State, m: Owners) returns (n: Owners)
    requires Owned(L, m) && Fresh(m, [id.tok])
    ensures Ext(m, n, [id.tok]) && Owned(Declare(L, id).0, n)
  {
    assert id.tok in [id.tok];
    n := m[id.tok := |L.symbols|];
    OwnedExt(L, m, n, [id.tok]);
  }

  lemma AllocOwned(L: State, node: HirNode, m: Owners)
    requires Owned(L, m) && NodeOwned(node, m)
    ensures Owned(Alloc(L, node).0, m)
  {
  }

  lemma {:induction false} ExprOwned(e: Expr, L: State, m: Owners) returns (n: Owners)
    requires Owned(L, m) && Fresh(m, ExprToks(e))
    ensures Ext(m, n, ExprToks(e)) && Owned(LowerExpr(e, L).0, n)
    decreases e, 1
  {
    hide Owned, Fresh, Ext, Lookup, Declare;
    n := m;
    match e
    case Lit =>
      StayOwned(L, m);
      AllocOwned(L, HLit, m);
    case Var(id) => n := VarOwned(id, L, m);
    case Node(tag, args) =>
      n := AllOwned(args, L, m);
      AllocOwned(LowerAll(args, L).0, HNode(tag, LowerAll(args, L).1), n);
    case Block(stmts, tail) => n := BlockOwned(e, stmts, tail, L, m);
    case If(c, t, f) => n := IfOwned(e, c, t, f, L, m);
    case For(id, iter, body) => n := ForOwned(e, id, iter, body, L, m);
    case Match(s, arms) =>
      FreshFront(m, ExprToks(s), ArmsToks(arms));
      var a := ExprOwned(s, L, m);
      FreshBack(m, a, ExprToks(s), ArmsToks(arms));
      var (A, si) := LowerExpr(s, L);
      n := ArmsOwned(arms, A, a);
      ExtTrans(m, a, n, ExprToks(s), ArmsToks(arms));
      var (B, ais) := LowerArms(arms, A);
      AllocOwned(B, HMatch(si, ais), n);
  }

  lemma StayOwned(L: State, m: Owners)
    ensures Ext(m, m, [])
  {
  }

  lemma VarOwned(id: Ident, L: State, m: Owners) returns (n: Owners)
    requires Owned(L, m) && Fresh(m, [id.tok])
    ensures Ext(m, n, [id.tok]) && Owned(LowerExpr(Var(id), L).0, n)
  {
    assert id.tok in [id.tok];
    var s := Lookup(L.scopes, id.name);
    if s.Some? {
      n := m[id.tok := s.value];
      OwnedExt(L, m, n, [id.tok]);
      AllocOwned(L, HVar(s.value, id.tok), n);
    } else {
      n := m;
      AllocOwned(Report(L), HPoison, n);
    }
  }

  lemma {:induction false} BlockOwned(e: Expr, stmts: seq<Stmt>, tail: Option<Expr>, L: State, m: Owners)
    returns (n: Owners)
    requires e == Block(stmts, tail) && Owned(L, m) && Fresh(m, StmtsToks(stmts) + OptToks(tail))
    ensures Ext(m, n, StmtsToks(stmts) + OptToks(tail)) && Owned(LowerExpr(Block(stmts, tail), L).0, n)
    decreases e, 0
  {
    hide Fresh, LowerStmts, LowerOpt;
    FreshFront(m, StmtsToks(stmts), OptToks(tail));
    var a := StmtsAreOwned(stmts, Push(L), m);
    FreshBack(m, a, StmtsToks(stmts), OptToks(tail));
    var (A, ss) := LowerStmts(stmts, Push(L));
    n := OptOwned(tail, A, a);
    ExtTrans(m, a, n, StmtsToks(stmts), OptToks(tail));
    var (B, t) := LowerOpt(tail, A);
    AllocOwned(Pop(B), HBlock(ss, t), n);
  }

  lemma {:induction false} IfOwned(e: Expr, c: Expr, t: Expr, f: Option<Expr>, L: State, m: Owners) returns (n: Owners)
    requires e == If(c, t, f) && Owned(L, m) && Fresh(m, ExprToks(c) + (ExprToks(t) + OptToks(f)))
    ensures Ext(m, n, ExprToks(c) + (ExprToks(t) + OptToks(f))) && Owned(LowerExpr(If(c, t, f), L).0, n)
    decreases e, 0
  {
    hide Owned, Fresh, Ext;
    var rest := ExprToks(t) + OptToks(f);
    FreshFront(m, ExprToks(c), rest);
    var a := ExprOwned(c, L, m);
    FreshBack(m, a, ExprToks(c), rest);
    var (A, ci) := LowerExpr(c, L);
    FreshFront(a, ExprToks(t), OptToks(f));
    var b := ExprOwned(t, A, a);
    FreshBack(a, b, ExprToks(t), OptToks(f));
    var (B, ti) := LowerExpr(t, A);
    n := OptOwned(f, B, b);
    ExtTrans(a, b, n, ExprToks(t), OptToks(f));
    ExtTrans(m, a, n, ExprToks(c), rest);
    var (D, fi) := LowerOpt(f, B);
    AllocOwned(D, HIf(ci, ti, fi), n);
  }

  lemma {:induction false} ForOwned(e: Expr, id: Ident, iter: Expr, body: Expr, L: State, m: Owners) returns (n: Owners)
    requires e == For(id, iter, body) && Owned(L, m) && Fresh(m, ExprToks(iter) + ([id.tok] + ExprToks(body)))
    ensures Ext(m, n, ExprToks(iter) + ([id.tok] + ExprToks(body))) && Owned(LowerExpr(For(id, iter, body), L).0, n)
    decreases e, 0
  {
    hide Fresh, Ext, Declare, ExprToks;
    var rest := [id.tok] + ExprToks(body);
    FreshFront(m, ExprToks(iter), rest);
    var a := ExprOwned(iter, L, m);
    FreshBack(m, a, ExprToks(iter), rest);
    var (A, ii) := LowerExpr(iter, L);
    FreshFront(a, [id.tok], ExprToks(body));
    var b := DeclareOwned(id, Push(A), a);
    FreshBack(a, b, [id.tok], ExprToks(body));
    var (B, sym) := Declare(Push(A), id);
    n := ExprOwned(body, B, b);
    ExtTrans(a, b, n, [id.tok], ExprToks(body));
    ExtTrans(m, a, n, ExprToks(iter), rest);
    var (D, bi) := LowerExpr(body, B);
    AllocOwned(Pop(D), HFor(sym, ii, bi), n);
  }

  lemma {:induction false} OptOwned(o: Option<Expr>, L: State, m: Owners) returns (n: Owners)
    requires Owned(L, m) && Fresh(m, OptToks(o))
    ensures Ext(m, n, OptToks(o)) && Owned(LowerOpt(o, L).0, n)
    decreases o, 2
  {
    n := m;
    if o.Some? {
      n := ExprOwned(o.value, L, m);
    }
  }

  lemma {:induction false} AllOwned(es: seq<Expr>, L: State, m: Owners) returns (n: Owners)
    requires Owned(L, m) && Fresh(m, AllToks(es))
    ensures Ext(m, n, AllToks(es)) && Owned(LowerAll(es, L).0, n)
    decreases es, 0
  {
    hide Owned, Fresh;
    n := m;
    if es != [] {
      var rest := AllToks(es[1..]);
      FreshFront(m, ExprToks(es[0]), rest);
      var a := ExprOwned(es[0], L, m);
      FreshBack(m, a, ExprToks(es[0]), rest);
      n := AllOwned(es[1..], LowerExpr(es[0], L).0, a);
      ExtTrans(m, a, n, ExprToks(es[0]), rest);
    }
  }

  lemma {:induction false} ArmsOwned(arms: seq<Arm>, L: State, m: Owners) returns (n: Owners)
    requires Owned(L, m) && Fresh(m, ArmsToks(arms))
    ensures Ext(m, n, ArmsToks(arms)) && Owned(LowerArms(arms, L).0, n)
    decreases arms, 0
  {
    hide Owned, Fresh;
    n := m;
    if arms != [] {
      var rest := ArmsToks(arms[1..]);
      FreshFront(m, ArmToks(arms[0]), rest);
      var a := ArmOwned(arms[0], L, m);
      FreshBack(m, a, ArmToks(arms[0]), rest);
      n := ArmsOwned(arms[1..], LowerArm(arms[0], L).0, a);
      ExtTrans(m, a, n, ArmToks(arms[0]), rest);
    }
  }

  lemma {:induction false} ArmOwned(arm: Arm, L: State, m: Owners) returns (n: Owners)
    requires Owned(L, m) && Fresh(m, ArmToks(arm))
    ensures Ext(m, n, ArmToks(arm)) && Owned(LowerArm(arm, L).0, n)
    decreases arm, 2
  {
    hide Fresh, Ext, LowerExpr, ExprToks, PatToks, LowerPat;
    FreshFront(m, PatToks(arm.pat), ExprToks(arm.body));
    var a := PatOwned(arm.pat, Push(L), m);
    FreshBack(m, a, PatToks(arm.pat), ExprToks(arm.body));
    var A := LowerPat(arm.pat, Push(L)).0;
    n := ExprOwned(arm.body, A, a);
    ExtTrans(m, a, n, PatToks(arm.pat), ExprToks(arm.body));
  }

  lemma PatOwned(p: Pat, L: State, m: Owners) returns (n: Owners)
    requires Owned(L, m) && Fresh(m, PatToks(p))
    ensures Ext(m, n, PatToks(p)) && Owned(LowerPat(p, L).0, n)
  {
    n := m;
    match p
    case BindPat(id) =>
      if id.Some? {
        n := DeclareOwned(id.value, L, m);
      }
    case VariantPat(known, binds) =>
      if known {
        n := BindsOwned(binds, |binds|, L, m);
      }
  }

  lemma {:induction false} BindsOwned(binds: seq<Option<Ident>>, k: nat, L: State, m: Owners) returns (n: Owners)
    requires k <= |binds| && Owned(L, m) && Fresh(m, BindsToks(binds, k))
    ensures Ext(m, n, BindsToks(binds, k)) && Owned(DeclareAll(binds, k, L).0, n)
  {
    hide Owned, Fresh, Declare;
    n := m;
    if k > 0 {
      var front := BindsToks(binds, k - 1);
      FreshFront(m, front, BindToks(binds[k - 1]));
      var a := BindsOwned(binds, k - 1, L, m);
      n := a;
      FreshBack(m, a, front, BindToks(binds[k - 1]));
      if binds[k - 1].Some? {
        n := DeclareOwned(binds[k - 1].value, DeclareAll(binds, k - 1, L).0, a);
      }
      ExtTrans(m, a, n, front, BindToks(binds[k - 1]));
    }
  }

  lemma {:induction false} StmtsAreOwned(ss: seq<Stmt>, L: State, m: Owners) returns (n: Owners)
    requires Owned(L, m) && Fresh(m, StmtsToks(ss))
    ensures Ext(m, n, StmtsToks(ss)) && Owned(LowerStmts(ss, L).0, n) && StmtsOwned(LowerStmts(ss, L).1, n)
    decreases ss, 0
  {
    hide Owned, Fresh;
    n := m;
    if ss != [] {
      var rest := StmtsToks(ss[1..]);
      FreshFront(m, StmtToks(ss[0]), rest);
      var a := StmtIsOwned(ss[0], L, m);
      FreshBack(m, a, StmtToks(ss[0]), rest);
      n := StmtsAreOwned(ss[1..], LowerStmt(ss[0], L).0, a);
      ExtTrans(m, a, n, StmtToks(ss[0]), rest);
    }
  }

  lemma {:induction false} StmtIsOwned(s: Stmt, L: State, m: Owners) returns (n: Owners)
    requires Owned(L, m) && Fresh(m, StmtToks(s))
    ensures Ext(m, n, StmtToks(s)) && Owned(LowerStmt(s, L).0, n)
    ensures var h := LowerStmt(s, L).1; h.Some? ==> StmtsOwned([h.value], n)
    decreases s, 1
  {
    hide Fresh, Declare;
    n := m;
    match s
    case Let(id, init) =>
      FreshFront(m, OptToks(init), [id.tok]);
      var a := OptOwned(init, L, m);
      FreshBack(m, a, OptToks(init), [id.tok]);
      n := DeclareOwned(id, LowerOpt(init, L).0, a);
      ExtTrans(m, a, n, OptToks(init), [id.tok]);
    case Assign(id, value) => n := AssignOwned(id, value, L, m);
    case ExprStmt(e) => n := ExprOwned(e, L, m);
    case Return(o) => n := OptOwned(o, L, m);
  }

  lemma {:induction false} AssignOwned(id: Ident, value: Expr, L: State, m: Owners) returns (n: Owners)
    requires Owned(L, m) && Fresh(m, ExprToks(value) + [id.tok])
    ensures Ext(m, n, ExprToks(value) + [id.tok]) && Owned(LowerStmt(Assign(id, value), L).0, n)
    ensures var h := LowerStmt(Assign(id, value), L).1; h.Some? ==> StmtsOwned([h.value], n)
    decreases value, 3
  {
    FreshFront(m, ExprToks(value), [id.tok]);
    var a := ExprOwned(value, L, m);
    FreshBack(m, a, ExprToks(value), [id.tok]);
    assert id.tok in [id.tok];
    var A := LowerExpr(value, L).0;
    var s := Lookup(A.scopes, id.name);
    n := if s.Some? then a[id.tok := s.value] else a;
    OwnedExt(A, a, n, [id.tok]);
    ExtTrans(m, a, n, ExprToks(value), [id.tok]);
  }

  lemma {:induction false} ParamsOwned(params: seq<Ident>, k: nat, L: State, m: Owners) returns (n: Owners)
    requires k <= |params| && Owned(L, m) && Fresh(m, ParamToks(params, k))
    ensures Ext(m, n, ParamToks(params, k)) && Owned(DeclareParams(params, k, L), n)
  {
    hide Owned, Fresh, Declare;
    n := m;
    if k > 0 {
      var front := ParamToks(params, k - 1);
      FreshFront(m, front, [params[k - 1].tok]);
      var a := ParamsOwned(params, k - 1, L, m);
      FreshBack(m, a, front, [params[k - 1].tok]);
      n := DeclareOwned(params[k - 1], DeclareParams(params, k - 1, L), a);
      ExtTrans(m, a, n, front, [params[k - 1].tok]);
    }
  }

  /** A body whose name tokens are pairwise distinct never gives one token to two symbols. */
  lemma TokensSingle(f: Fn)
    requires Distinct(FnToks(f))
    ensures OneSymbolPerToken(LowerBody(f).0)
  {
    var S := State([map[]], [], [], 0);
    var a := ParamToks(f.params, |f.params|);
    FreshFront(map[], a, ExprToks(f.body));
    var m := ParamsOwned(f.params, |f.params|, S, map[]);
    FreshBack(map[], m, a, ExprToks(f.body));
    var n := ExprOwned(f.body, DeclareParams(f.params, |f.params|, S), m);
    var L := LowerBody(f).0;
    forall s: Sym, t: Sym | s != t ensures Sites(L, s) !! Sites(L, t) {
      SitesOwned(L, s, n);
      SitesOwned(L, t, n);
    }
  }

  lemma SitesOwned(L: State, s: Sym, m: Owners)
    requires Owned(L, m)
    ensures forall t <- Sites(L, s) :: Has(m, t, s)
  {
    forall t <- ArenaSites(L.exprs, s) ensures Has(m, t, s) {
      var n :| n in L.exprs && t in NodeSites(n, s);
      var k :| 0 <= k < |L.exprs| && L.exprs[k] == n;
      assert NodeOwned(L.exprs[k], m);
    }
  }

  /** Main result: in a body with no unresolved name, rewriting the sites reported for a local to
      a name no local has resolves to the same arena. Every occurrence keeps its symbol, under
      shadowing, redeclaration in one block, loop variables and match arms. */
  lemma RenameKeepsBindings(f: Fn, s: Sym, to: Name)
    requires Distinct(FnToks(f))
    requires var L := LowerBody(f).0; L.diags == 0 && s < |L.symbols| && forall l <- L.symbols :: l.name != to
    ensures Renamed(f, s, to)
  {
    TokensSingle(f);
    RenameWhenSingle(f, s, to);
  }
}
