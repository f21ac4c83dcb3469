/** Name resolution of a function body: a stack of scopes, innermost last, and the arenas of
    symbols and expressions it fills. Names of functions and types live elsewhere and do not
    interact with locals; only the tokens that name locals are kept. */
module Resolve {
  import opened Wrappers

  type Name = nat
  type Tok = nat
  type Sym = nat
  type ExprId = nat

  /** A name at a place in the source. */
  datatype Ident = Ident(name: Name, tok: Tok)

  /** Surface syntax. `Node` is every form that only evaluates its operands in order. */
  datatype Expr =
    | Lit
    | Var(id: Ident)
    | Node(tag: nat, args: seq<Expr>)
    | Block(stmts: seq<Stmt>, tail: Option<Expr>)
    | If(cond: Expr, thn: Expr, els: Option<Expr>)
    | For(id: Ident, iter: Expr, body: Expr)
    | Match(scrut: Expr, arms: seq<Arm>)

  datatype Stmt =
    | Let(id: Ident, init: Option<Expr>)
    | Assign(id: Ident, value: Expr)
    | ExprStmt(expr: Expr)
    | Return(result: Option<Expr>)

  datatype Arm = Arm(pat: Pat, body: Expr)

  /** A bind without an identifier is `_`; `known` says whether the variant path resolves. */
  datatype Pat = BindPat(id: Option<Ident>) | VariantPat(known: bool, binds: seq<Option<Ident>>)

  datatype Fn = Fn(params: seq<Ident>, body: Expr)

  /** The resolved arena; references name symbols and keep their token. */
  datatype HirNode =
    | HLit
    | HVar(sym: Sym, tok: Tok)
    | HPoison
    | HNode(tag: nat, args: seq<ExprId>)
    | HBlock(stmts: seq<HirStmt>, tail: Option<ExprId>)
    | HIf(cond: ExprId, thn: ExprId, els: Option<ExprId>)
    | HFor(sym: Sym, iter: ExprId, body: ExprId)
    | HMatch(scrut: ExprId, arms: seq<HirArm>)

  datatype HirStmt =
    | HLet(sym: Sym, init: Option<ExprId>)
    | HAssign(sym: Sym, tok: Tok, value: ExprId)
    | HExpr(expr: ExprId)
    | HReturn(result: Option<ExprId>)

  datatype HirArm = HirArm(pat: HirPat, body: ExprId)

  datatype HirPat = HBind(sym: Option<Sym>) | HVariant(binds: seq<Option<Sym>>) | HPoisonPat

  datatype Local = Local(name: Name, tok: Tok)

  type Scope = map<Name, Sym>

  datatype State = State(scopes: seq<Scope>, symbols: seq<Local>, exprs: seq<HirNode>, diags: nat)

  // ---------- the scope stack ----------

  /** The innermost scope that binds the name decides. */
  function Lookup(scopes: seq<Scope>, name: Name): Option<Sym> {
    if scopes == [] then None
    else
      var top := scopes[|scopes| - 1];
      if name in top then Some(top[name]) else Lookup(scopes[..|scopes| - 1], name)
  }

  function Push(L: State): State {
    L.(scopes := L.scopes + [map[]])
  }

  function Pop(L: State): State {
    if L.scopes == [] then L else L.(scopes := L.scopes[..|L.scopes| - 1])
  }

  /** Binds a name in the innermost scope. */
  function Bind(scopes: seq<Scope>, name: Name, sym: Sym): seq<Scope> {
    if scopes == [] then scopes
    else
      var top: Scope := scopes[|scopes| - 1][name := sym];
      scopes[..|scopes| - 1] + [top]
  }

  function Declare(L: State, id: Ident): (State, Sym) {
    var sym: Sym := |L.symbols|;
    (L.(symbols := L.symbols + [Local(id.name, id.tok)], scopes := Bind(L.scopes, id.name, sym)), sym)
  }

  function Alloc(L: State, node: HirNode): (State, ExprId) {
    (L.(exprs := L.exprs + [node]), |L.exprs|)
  }

  function Report(L: State): State {
    L.(diags := L.diags + 1)
  }

  /** Symbols and expressions are only added, and every scope opened is closed again. */
  ghost predicate Grown(L: State, M: State) {
    L.symbols <= M.symbols && L.exprs <= M.exprs && L.diags <= M.diags && |L.scopes| == |M.scopes|
  }

  // ---------- lowering ----------

  function LowerExpr(e: Expr, L: State): (r: (State, ExprId))
    ensures Grown(L, r.0)
    decreases e, 1
  {
    match e
    case Lit => Alloc(L, HLit)
    case Var(id) =>
      var s := Lookup(L.scopes, id.name);
      if s.Some? then Alloc(L, HVar(s.value, id.tok)) else Alloc(Report(L), HPoison)
    case Node(tag, args) =>
      var (A, ids) := LowerAll(args, L);
      Alloc(A, HNode(tag, ids))
    case Block(stmts, tail) =>
      var (A, ss) := LowerStmts(stmts, Push(L));
      var (B, t) := LowerOpt(tail, A);
      Alloc(Pop(B), HBlock(ss, t))
    case If(c, t, f) =>
      var (A, ci) := LowerExpr(c, L);
      var (B, ti) := LowerExpr(t, A);
      var (D, fi) := LowerOpt(f, B);
      Alloc(D, HIf(ci, ti, fi))
    case For(id, iter, body) =>
      var (A, ii) := LowerExpr(iter, L);
      var (B, sym) := Declare(Push(A), id);
      var (D, bi) := LowerExpr(body, B);
      Alloc(Pop(D), HFor(sym, ii, bi))
    case Match(s, arms) =>
      var (A, si) := LowerExpr(s, L);
      var (B, ais) := LowerArms(arms, A);
      Alloc(B, HMatch(si, ais))
  }

  function LowerOpt(o: Option<Expr>, L: State): (r: (State, Option<ExprId>))
    ensures Grown(L, r.0)
    decreases o, 2
  {
    if o.None? then (L, None)
    else
      var (A, i) := LowerExpr(o.value, L);
      (A, Some(i))
  }

  function LowerAll(es: seq<Expr>, L: State): (r: (State, seq<ExprId>))
    ensures Grown(L, r.0)
    decreases es, 0
  {
    if es == [] then (L, [])
    else
      var (A, i) := LowerExpr(es[0], L);
      var (B, rest) := LowerAll(es[1..], A);
      (B, [i] + rest)
  }

  /** Each arm is a scope of its own. */
  function LowerArms(arms: seq<Arm>, L: State): (r: (State, seq<HirArm>))
    ensures Grown(L, r.0)
    decreases arms, 0
  {
    if arms == [] then (L, [])
    else
      var (A, a) := LowerArm(arms[0], L);
      var (B, rest) := LowerArms(arms[1..], A);
      (B, [a] + rest)
  }

  function LowerArm(arm: Arm, L: State): (r: (State, HirArm))
    ensures Grown(L, r.0)
    decreases arm, 2
  {
    var (A, p) := LowerPat(arm.pat, Push(L));
    var (B, i) := LowerExpr(arm.body, A);
    (Pop(B), HirArm(p, i))
  }

  function LowerPat(p: Pat, L: State): (r: (State, HirPat))
    ensures Grown(L, r.0)
  {
    match p
    case BindPat(id) =>
      if id.None? then (L, HBind(None))
      else
        var (A, sym) := Declare(L, id.value);
        (A, HBind(Some(sym)))
    case VariantPat(known, binds) =>
      if !known then (Report(L), HPoisonPat)
      else
        var (A, syms) := DeclareAll(binds, |binds|, L);
        (A, HVariant(syms))
  }

  /** Declares the first `n` binds; `_` binds nothing. */
  function DeclareAll(binds: seq<Option<Ident>>, n: nat, L: State): (r: (State, seq<Option<Sym>>))
    requires n <= |binds|
    ensures Grown(L, r.0)
  {
    if n == 0 then (L, [])
    else
      var (A, syms) := DeclareAll(binds, n - 1, L);
      if binds[n - 1].None? then (A, syms + [None])
      else
        var (B, sym) := Declare(A, binds[n - 1].value);
        (B, syms + [Some(sym)])
  }

  function LowerStmts(ss: seq<Stmt>, L: State): (r: (State, seq<HirStmt>))
    ensures Grown(L, r.0)
    decreases ss, 0
  {
    if ss == [] then (L, [])
    else
      var (A, s) := LowerStmt(ss[0], L);
      var (B, rest) := LowerStmts(ss[1..], A);
      (B, (if s.Some? then [s.value] else []) + rest)
  }

  /** An initializer is resolved before its binding exists. An assignment to an unknown binding
      is dropped. */
  function LowerStmt(s: Stmt, L: State): (r: (State, Option<HirStmt>))
    ensures Grown(L, r.0)
    decreases s, 1
  {
    match s
    case Let(id, init) =>
      var (A, i) := LowerOpt(init, L);
      var (B, sym) := Declare(A, id);
      (B, Some(HLet(sym, i)))
    case Assign(id, value) =>
      var (A, v) := LowerExpr(value, L);
      var s := Lookup(A.scopes, id.name);
      if s.Some? then (A, Some(HAssign(s.value, id.tok, v))) else (Report(A), None)
    case ExprStmt(e) =>
      var (A, i) := LowerExpr(e, L);
      (A, Some(HExpr(i)))
    case Return(o) =>
      var (A, i) := LowerOpt(o, L);
      (A, Some(HReturn(i)))
  }

  /** Parameters occupy the first symbols. */
  function DeclareParams(params: seq<Ident>, n: nat, L: State): State
    requires n <= |params|
  {
    if n == 0 then L else Declare(DeclareParams(params, n - 1, L), params[n - 1]).0
  }

  function LowerBody(f: Fn): (State, ExprId) {
    LowerExpr(f.body, DeclareParams(f.params, |f.params|, State([map[]], [], [], 0)))
  }

  // ---------- the lowering object ----------

  class BodyLowerer {
    var scopes: seq<Scope>
    var symbols: seq<Local>
    var exprs: seq<HirNode>
    var diags: nat

    constructor ()
      ensures View() == State([map[]], [], [], 0)
    {
      scopes, symbols, exprs, diags := [map[]], [], [], 0;
    }

    ghost function View(): State
      reads this
    {
      State(scopes, symbols, exprs, diags)
    }

    method AllocExpr(node: HirNode) returns (id: ExprId)
      modifies this`exprs
      ensures (View(), id) == Alloc(old(View()), node)
    {
      id := |exprs|;
      exprs := exprs + [node];
    }

    /** Walks the stack from the innermost scope outwards. */
    method Find(name: Name) returns (r: Option<Sym>)
      ensures r == Lookup(scopes, name)
    {
      var i := |scopes|;
      assert scopes[..i] == scopes;
      while i > 0
        invariant 0 <= i <= |scopes| && Lookup(scopes, name) == Lookup(scopes[..i], name)
      {
        i := i - 1;
        assert scopes[..i + 1][..i] == scopes[..i];
        if name in scopes[i] {
          return Some(scopes[i][name]);
        }
      }
      r := None;
    }

    method DeclareLocal(id: Ident) returns (sym: Sym)
      modifies this`scopes, this`symbols
      ensures (View(), sym) == Declare(old(View()), id)
    {
      sym := |symbols|;
      symbols := symbols + [Local(id.name, id.tok)];
      scopes := Bind(scopes, id.name, sym);
    }

    method PushScope()
      modifies this`scopes
      ensures View() == Push(old(View()))
    {
      scopes := scopes + [map[]];
    }

    method PopScope()
      modifies this`scopes
      ensures View() == Pop(old(View()))
    {
      if scopes != [] {
        scopes := scopes[..|scopes| - 1];
      }
    }

    method DoExpr(e: Expr) returns (id: ExprId)
      modifies this
      ensures (View(), id) == LowerExpr(e, old(View()))
      decreases e, 1
    {
      hide LowerAll, LowerStmts, LowerArms, Alloc, Push, Pop, Declare, Lookup;
      match e
      case Lit => id := AllocExpr(HLit);
      case Var(name) =>
        var s := Find(name.name);
        if s.Some? {
          id := AllocExpr(HVar(s.value, name.tok));
        } else {
          diags := diags + 1;
          id := AllocExpr(HPoison);
        }
      case Node(tag, args) =>
        var ids := DoAll(args);
        id := AllocExpr(HNode(tag, ids));
      case Block(stmts, tail) =>
        PushScope();
        var ss := DoStmts(stmts);
        var t := DoOpt(tail);
        PopScope();
        id := AllocExpr(HBlock(ss, t));
      case If(c, t, f) =>
        var ci := DoExpr(c);
        var ti := DoExpr(t);
        var fi := DoOpt(f);
        id := AllocExpr(HIf(ci, ti, fi));
      case For(name, iter, body) =>
        var ii := DoExpr(iter);
        PushScope();
        var sym := DeclareLocal(name);
        var bi := DoExpr(body);
        PopScope();
        id := AllocExpr(HFor(sym, ii, bi));
      case Match(s, arms) =>
        var si := DoExpr(s);
        var ais := DoArms(arms);
        id := AllocExpr(HMatch(si, ais));
    }

    method DoOpt(o: Option<Expr>) returns (r: Option<ExprId>)
      modifies this
      ensures (View(), r) == LowerOpt(o, old(View()))
      decreases o, 2
    {
      if o.None? {
        r := None;
      } else {
        var i := DoExpr(o.value);
        r := Some(i);
      }
    }

    method DoAll(es: seq<Expr>) returns (ids: seq<ExprId>)
      modifies this
      ensures (View(), ids) == LowerAll(es, old(View()))
      decreases es, 0
    {
      ids := [];
      ghost var whole := LowerAll(es, View());
      var i := 0;
      assert es[0..] == es && ids + whole.1 == whole.1;
      while i < |es|
        invariant 0 <= i <= |es|
        invariant var (B, rest) := LowerAll(es[i..], View());
          (B, ids + rest) == whole
      {
        assert es[i..][0] == es[i] && es[i..][1..] == es[i + 1..];
        var id := DoExpr(es[i]);
        ghost var rest := LowerAll(es[i + 1..], View()).1;
        assert ids + ([id] + rest) == (ids + [id]) + rest;
        ids := ids + [id];
        i := i + 1;
      }
      assert ids + [] == ids;
    }

    method DoArms(arms: seq<Arm>) returns (out: seq<HirArm>)
      modifies this
      ensures (View(), out) == LowerArms(arms, old(View()))
      decreases arms, 0
    {
      out := [];
      ghost var whole := LowerArms(arms, View());
      var i := 0;
      assert arms[0..] == arms && out + whole.1 == whole.1;
      while i < |arms|
        invariant 0 <= i <= |arms|
        invariant var (B, rest) := LowerArms(arms[i..], View());
          (B, out + rest) == whole
      {
        assert arms[i..][0] == arms[i] && arms[i..][1..] == arms[i + 1..];
        var a := DoArm(arms[i]);
        ghost var rest := LowerArms(arms[i + 1..], View()).1;
        assert out + ([a] + rest) == (out + [a]) + rest;
        out := out + [a];
        i := i + 1;
      }
      assert out + [] == out;
    }

    method DoArm(arm: Arm) returns (a: HirArm)
      modifies this
      ensures (View(), a) == LowerArm(arm, old(View()))
      decreases arm, 2
    {
      PushScope();
      var p := DoPat(arm.pat);
      var i := DoExpr(arm.body);
      PopScope();
      a := HirArm(p, i);
    }

    method DoPat(p: Pat) returns (r: HirPat)
      modifies this
      ensures (View(), r) == LowerPat(p, old(View()))
    {
      hide Declare;
      match p
      case BindPat(id) =>
        if id.None? {
          r := HBind(None);
        } else {
          var sym := DeclareLocal(id.value);
          r := HBind(Some(sym));
        }
      case VariantPat(known, binds) =>
        if !known {
          diags := diags + 1;
          r := HPoisonPat;
        } else {
          var syms: seq<Option<Sym>> := [];
          var i := 0;
          while i < |binds|
            invariant 0 <= i <= |binds| && (View(), syms) == DeclareAll(binds, i, old(View()))
          {
            if binds[i].None? {
              syms := syms + [None];
            } else {
              var sym := DeclareLocal(binds[i].value);
              syms := syms + [Some(sym)];
            }
            i := i + 1;
          }
          r := HVariant(syms);
        }
    }

    method DoStmts(ss: seq<Stmt>) returns (out: seq<HirStmt>)
      modifies this
      ensures (View(), out) == LowerStmts(ss, old(View()))
      decreases ss, 0
    {
      out := [];
      ghost var whole := LowerStmts(ss, View());
      var i := 0;
      assert ss[0..] == ss && out + whole.1 == whole.1;
      while i < |ss|
        invariant 0 <= i <= |ss|
        invariant var (B, rest) := LowerStmts(ss[i..], View());
          (B, out + rest) == whole
      {
        assert ss[i..][0] == ss[i] && ss[i..][1..] == ss[i + 1..];
        var s := DoStmt(ss[i]);
        ghost var rest := LowerStmts(ss[i + 1..], View()).1;
        var one := if s.Some? then [s.value] else [];
        assert out + (one + rest) == (out + one) + rest;
        out := out + one;
        i := i + 1;
      }
      assert out + [] == out;
    }

    method DoStmt(s: Stmt) returns (r: Option<HirStmt>)
      modifies this
      ensures (View(), r) == LowerStmt(s, old(View()))
      decreases s, 1
    {
      hide Declare, Lookup;
      match s
      case Let(id, init) =>
        var i := DoOpt(init);
        var sym := DeclareLocal(id);
        r := Some(HLet(sym, i));
      case Assign(id, value) =>
        var v := DoExpr(value);
        var t := Find(id.name);
        if t.Some? {
          r := Some(HAssign(t.value, id.tok, v));
        } else {
          diags := diags + 1;
          r := None;
        }
      case ExprStmt(e) =>
        var i := DoExpr(e);
        r := Some(HExpr(i));
      case Return(o) =>
        var i := DoOpt(o);
        r := Some(HReturn(i));
    }
  }

  /** Resolves a whole body. */
  method ResolveBody(f: Fn) returns (r: State, root: ExprId)
    ensures (r, root) == LowerBody(f)
  {
    var b := new BodyLowerer();
    var i := 0;
    while i < |f.params|
      invariant 0 <= i <= |f.params|
      invariant b.View() == DeclareParams(f.params, i, State([map[]], [], [], 0))
    {
      var _ := b.DeclareLocal(f.params[i]);
      i := i + 1;
    }
    root := b.DoExpr(f.body);
    r := State(b.scopes, b.symbols, b.exprs, b.diags);
  }
}
