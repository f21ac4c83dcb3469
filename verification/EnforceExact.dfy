/** The enforcement walk reports exactly what some way through the body does wrong: it is neither
    stricter nor laxer than looking at one binding and one way at a time. */
module EnforceExact {
  import opened Wrappers
  import opened Hir
  import opened Effects
  import opened Enforce
  import opened EnforceSound
  import opened EnforceWays

  // ---------- a binding's state sums its conditions up ----------

  /** What the walk writes down for the conditions a binding may be in. */
  function Sum(S: set<Cond>): Binding {
    Binding(
      if forall c <- S :: c.init then InitYes else if forall c <- S :: !c.init then InitNever else InitMaybe,
      if forall c <- S :: !c.moved then MovedNo else if forall c <- S :: c.moved then MovedYes else MovedMaybe)
  }

  lemma SumJoin(S: set<Cond>, T: set<Cond>)
    requires S != {} && T != {}
    ensures Sum(S + T) == Join(Sum(S), Sum(T))
  {
    var s, t :| s in S && t in T;
    assert s in S + T && t in S + T;
    assert forall c <- S + T :: c in S || c in T;
    assert forall c <- S :: c in S + T;
    assert forall c <- T :: c in S + T;
  }

  /** The state knows the binding's conditions wherever the binding is in scope. */
  predicate Knows(st: States, x: Sym, S: set<Cond>, sc: set<Sym>) {
    S != {} && (x in sc ==> x in st && st[x] == Sum(S))
  }

  lemma KnowsLess(st: States, x: Sym, S: set<Cond>, inner: set<Sym>, sc: set<Sym>)
    requires Knows(st, x, S, inner) && sc <= inner
    ensures Knows(st, x, S, sc)
  {
  }

  lemma KnowsMerge(a: States, b: States, x: Sym, S: set<Cond>, T: set<Cond>, sc: set<Sym>)
    requires Knows(a, x, S, sc) && Knows(b, x, T, sc)
    ensures Knows(Merge(a, b), x, T + S, sc)
  {
    hide Sum;
    SumJoin(S, T);
    assert T + S == S + T;
  }

  predicate Reported(Q: Look, f: Fault, W: Walk) {
    FaultDiag(f, Q.x) in W.diags
  }

  /** From `W` to `r` the walk reported the fault exactly when `bad`, and the state knows the
      conditions `T`. */
  predicate Tells(Q: Look, f: Fault, W: Walk, r: Walk, bad: bool, T: set<Cond>, sc: set<Sym>) {
    (Reported(Q, f, r) <==> Reported(Q, f, W) || bad) && Knows(r.state, Q.x, T, sc)
  }

  lemma TellsThen(Q: Look, f: Fault, W: Walk, A: Walk, B: Walk, a: bool, b: bool, S: set<Cond>, T: set<Cond>,
        sc: set<Sym>, inner: set<Sym>)
    requires Tells(Q, f, W, A, a, S, sc) && Tells(Q, f, A, B, b, T, inner)
    ensures Tells(Q, f, W, B, a || b, T, inner)
  {
  }

  lemma TellsKnows(Q: Look, f: Fault, W: Walk, r: Walk, bad: bool, T: set<Cond>, sc: set<Sym>)
    requires Tells(Q, f, W, r, bad, T, sc)
    ensures Knows(r.state, Q.x, T, sc)
  {
  }

  lemma TellsNothing(Q: Look, f: Fault, W: Walk, S: set<Cond>, sc: set<Sym>)
    requires Knows(W.state, Q.x, S, sc)
    ensures Tells(Q, f, W, W, false, S, sc)
  {
  }

  /** The end of a scope, or another state with the same reports. */
  lemma TellsAs(Q: Look, f: Fault, W: Walk, V: Walk, r: Walk, s: Walk, bad: bool, T: set<Cond>, U: set<Cond>,
        inner: set<Sym>, sc: set<Sym>)
    requires Tells(Q, f, V, r, bad, T, inner) && Knows(s.state, Q.x, U, sc)
    requires V.diags == W.diags && s.diags == r.diags
    ensures Tells(Q, f, W, s, bad, U, sc)
  {
  }

  // ---------- single steps ----------

  lemma EnterTells(Q: Look, f: Fault, e: Expr, ctx: Ctx, W: Walk, S: set<Cond>, sc: set<Sym>)
    requires Knows(W.state, Q.x, S, sc)
    ensures Tells(Q, f, W, EnterExpr(Q.rules, e, ctx, W), false, S, sc)
  {
  }

  lemma AfterArgTells(Q: Look, f: Fault, op: Op, i: nat, arg: Expr, W: Walk, S: set<Cond>, sc: set<Sym>)
    requires Knows(W.state, Q.x, S, sc)
    ensures Tells(Q, f, W, AfterArg(Q.rules, op, i, arg, W), false, S, sc)
  {
  }

  lemma SumMoved(S: set<Cond>)
    requires S != {}
    ensures var T := set c <- S :: c.(moved := true); T != {} && Sum(T) == Sum(S).(moved := MovedYes)
  {
    var T := set c <- S :: c.(moved := true);
    var c :| c in S;
    assert c.(moved := true) in T;
    assert forall d <- T :: d.moved && exists b <- S :: d == b.(moved := true);
    assert forall b <- S :: b.(moved := true) in T;
  }

  lemma SumWritten(S: set<Cond>)
    requires S != {}
    ensures var T := set c <- S :: c.(init := true); T != {} && Sum(T) == Sum(S).(init := InitYes)
  {
    var T := set c <- S :: c.(init := true);
    var c :| c in S;
    assert c.(init := true) in T;
    assert forall d <- T :: d.init && exists b <- S :: d == b.(init := true);
    assert forall b <- S :: b.(init := true) in T;
  }

  lemma UnreadyExact(S: set<Cond>)
    requires S != {}
    ensures !Sum(S).init.InitYes? <==> exists c <- S :: !c.init
    ensures !Sum(S).moved.MovedNo? <==> exists c <- S :: c.moved
    ensures Sum(S) == FRESH <==> forall c <- S :: c == EMPTY
  {
  }

  lemma UseTells(Q: Look, f: Fault, s: Sym, ctx: Ctx, W: Walk, S: set<Cond>, sc: set<Sym>)
    requires Knows(W.state, Q.x, S, sc) && s in sc
    ensures Tells(Q, f, W, UseVar(Q.rules, s, ctx, W), UseBad(Q, f, s, S), AfterUse(Q, s, ctx, S), sc)
  {
    hide Sum;
    UnreadyExact(S);
    SumMoved(S);
  }

  lemma BindTells(Q: Look, y: Sym, st: States, S: set<Cond>, sc: set<Sym>)
    requires Knows(st, Q.x, S, sc)
    ensures Knows(st[y := READY], Q.x, AfterBind(Q, {y}, S), sc + {y})
  {
    var c :| c in S;
    if y == Q.x {
      assert HELD in AfterBind(Q, {y}, S);
      assert AfterBind(Q, {y}, S) == {HELD};
    }
  }

  lemma DeclareTells(Q: Look, y: Sym, st: States, S: set<Cond>, sc: set<Sym>)
    requires Knows(st, Q.x, S, sc)
    ensures Knows(st[y := FRESH], Q.x, AfterDeclare(Q, y, S), sc + {y})
  {
    var c :| c in S;
    if y == Q.x {
      assert EMPTY in AfterDeclare(Q, y, S);
      assert AfterDeclare(Q, y, S) == {EMPTY};
    }
  }

  lemma AssignTells(Q: Look, f: Fault, y: Sym, path: seq<nat>, W: Walk, S: set<Cond>, sc: set<Sym>)
    requires Knows(W.state, Q.x, S, sc) && y in sc
    ensures Tells(Q, f, W, AssignPlace(Q.rules, y, path, W), WriteBad(Q, f, y, path, S), AfterWrite(Q, y, path, S), sc)
  {
    if path == [] {
      RootAssignTells(Q, f, y, W, S, sc);
    } else {
      PathAssignTells(Q, f, y, path, W, S, sc);
    }
  }

  lemma RootAssignTells(Q: Look, f: Fault, y: Sym, W: Walk, S: set<Cond>, sc: set<Sym>)
    requires Knows(W.state, Q.x, S, sc) && y in sc
    ensures Tells(Q, f, W, AssignPlace(Q.rules, y, [], W), WriteBad(Q, f, y, [], S), AfterWrite(Q, y, [], S), sc)
  {
    if y == Q.x {
      UnreadyExact(S);
      var c :| c in S;
      var T := AfterWrite(Q, y, [], S);
      assert HELD in T;
      assert T == {HELD};
    }
  }

  lemma PathAssignTells(Q: Look, f: Fault, y: Sym, path: seq<nat>, W: Walk, S: set<Cond>, sc: set<Sym>)
    requires Knows(W.state, Q.x, S, sc) && y in sc && path != []
    ensures Tells(Q, f, W, AssignPlace(Q.rules, y, path, W), WriteBad(Q, f, y, path, S), AfterWrite(Q, y, path, S), sc)
  {
    hide Sum, UseVar, UseBad;
    var frozen := y == Q.x && f.Frozen? && y !in Q.rules.muts;
    var A := if y !in Q.rules.muts then Report(W, ImmutableAssignment(y)) else W;
    assert Tells(Q, f, W, A, frozen, S, sc);
    UseTells(Q, f, y, ReadCtx, A, S, sc);
    var B := UseVar(Q.rules, y, ReadCtx, A);
    TellsThen(Q, f, W, A, B, frozen, UseBad(Q, f, y, S), S, S, sc, sc);
    var r := SetState(B, y, StateOf(B.state, y).(init := InitYes));
    PathWritten(Q, y, path, B.state, S, sc);
    PathBad(Q, f, y, path, S);
    TellsAs(Q, f, W, W, B, r, frozen || UseBad(Q, f, y, S), S, AfterWrite(Q, y, path, S), sc, sc);
  }

  lemma PathWritten(Q: Look, y: Sym, path: seq<nat>, st: States, S: set<Cond>, sc: set<Sym>)
    requires Knows(st, Q.x, S, sc) && path != []
    ensures Knows(st[y := StateOf(st, y).(init := InitYes)], Q.x, AfterWrite(Q, y, path, S), sc)
  {
    hide Sum;
    SumWritten(S);
    assert y == Q.x ==> AfterWrite(Q, y, path, S) == set c <- S :: c.(init := true);
  }

  lemma PathBad(Q: Look, f: Fault, y: Sym, path: seq<nat>, S: set<Cond>)
    requires S != {} && path != []
    ensures WriteBad(Q, f, y, path, S) <==> (y == Q.x && f.Frozen? && y !in Q.rules.muts) || UseBad(Q, f, y, S)
  {
    var c :| c in S;
  }

  lemma {:induction false} BindAllTells(Q: Look, binds: seq<Option<Sym>>, n: nat, st: States, S: set<Cond>,
        sc: set<Sym>)
    requires n <= |binds| && Knows(st, Q.x, S, sc)
    ensures Knows(BindAll(st, binds, n), Q.x, AfterBind(Q, BindSet(binds[..n]), S), sc + BindSet(binds[..n]))
  {
    if n == 0 {
      assert BindSet(binds[..0]) == {};
      assert sc + {} == sc;
    } else {
      BindAllTells(Q, binds, n - 1, st, S, sc);
      var before := BindSet(binds[..n - 1]);
      assert binds[..n] == binds[..n - 1] + [binds[n - 1]];
      assert BindSet(binds[..n]) == before + OptSet(binds[n - 1]);
      if binds[n - 1].Some? {
        var y := binds[n - 1].value;
        BindTells(Q, y, BindAll(st, binds, n - 1), AfterBind(Q, before, S), sc + before);
        BoundAgain(Q, before, y, S);
        assert sc + before + {y} == sc + (before + {y});
      } else {
        assert before + {} == before;
      }
    }
  }

  lemma BoundAgain(Q: Look, syms: set<Sym>, y: Sym, S: set<Cond>)
    requires S != {}
    ensures AfterBind(Q, {y}, AfterBind(Q, syms, S)) == AfterBind(Q, syms + {y}, S)
  {
    var c :| c in S;
    if Q.x in syms {
      assert HELD in AfterBind(Q, syms, S);
      assert AfterBind(Q, syms, S) == {HELD};
    }
  }

  lemma PatTells(Q: Look, p: Pat, st: States, S: set<Cond>, sc: set<Sym>)
    requires Knows(st, Q.x, S, sc)
    ensures Knows(BindStates(st, p), Q.x, AfterBind(Q, PatSyms(p), S), sc + PatSyms(p))
  {
    match p
    case VariantPat(_, binds) =>
      assert binds[..|binds|] == binds;
      BindAllTells(Q, binds, |binds|, st, S, sc);
    case BindPat(Some(y)) => BindTells(Q, y, st, S, sc);
    case _ => assert sc + {} == sc;
  }

  // ---------- the walk ----------

  /** Main result: whatever conditions a binding in scope may be in, the walk over an expression
      reports a fault of it exactly when some way through the expression has that fault, and its
      state afterwards sums up exactly the conditions the ways end in. */
  lemma {:induction false} CheckTells(Q: Look, f: Fault, e: Expr, ctx: Ctx, W: Walk, S: set<Cond>, sc: set<Sym>)
    requires Q.past && Scoped(e, sc) && Knows(W.state, Q.x, S, sc)
    ensures Tells(Q, f, W, Check(Q.rules, e, ctx, W), Bad(Q, f, e, ctx, S), Ends(Q, e, ctx, S), sc)
    decreases e, 2
  {
    hide Knows, Tells, EnterExpr;
    var V := EnterExpr(Q.rules, e, ctx, W);
    EnterTells(Q, f, e, ctx, W, S, sc);
    TellsKnows(Q, f, W, V, false, S, sc);
    match e
    case Lit(_) =>
    case Poison =>
    case Var(s) =>
      UseTells(Q, f, s, ctx, V, S, sc);
      TellsThen(Q, f, W, V, Check(Q.rules, e, ctx, W), false, Bad(Q, f, e, ctx, S), S, Ends(Q, e, ctx, S), sc, sc);
    case _ =>
      PartsTell(Q, f, e, ctx, W, V, S, sc);
      TellsThen(Q, f, W, V, Check(Q.rules, e, ctx, W), false, Bad(Q, f, e, ctx, S), S, Ends(Q, e, ctx, S), sc, sc);
  }

  lemma {:induction false} PartsTell(Q: Look, f: Fault, e: Expr, ctx: Ctx, W: Walk, V: Walk, S: set<Cond>, sc: set<Sym>)
    requires Q.past && Scoped(e, sc) && V == EnterExpr(Q.rules, e, ctx, W) && Knows(V.state, Q.x, S, sc)
    requires !e.Lit? && !e.Poison? && !e.Var?
    ensures Tells(Q, f, V, Check(Q.rules, e, ctx, W), Bad(Q, f, e, ctx, S), Ends(Q, e, ctx, S), sc)
    decreases e, 1
  {
    hide Knows, Tells, EnterExpr;
    match e
    case Field(b, _, copy) => CheckTells(Q, f, b, if copy then ReadCtx else ctx, V, S, sc);
    case Prim(op, args) =>
      ArgsTell(Q, f, op, args, 0, ctx, V, S, sc);
      var r := CheckArgs(Q.rules, op, args, 0, ctx, V);
      TellsKnows(Q, f, V, r, BadArgs(Q, f, op, args, 0, ctx, S), EndsArgs(Q, op, args, 0, ctx, S), sc);
      TellsAs(Q, f, V, V, r, r.(loans := V.loans), BadArgs(Q, f, op, args, 0, ctx, S),
              EndsArgs(Q, op, args, 0, ctx, S), EndsArgs(Q, op, args, 0, ctx, S), sc, sc);
    case Logic(_, _, _) => LogicTells(Q, f, e, ctx, W, V, S, sc);
    case If(_, _, _, _) => IfTells(Q, f, e, ctx, V, S, sc);
    case Block(stmts, tail) => BlockTells(Q, f, e, ctx, W, V, S, sc);
    case Match(_, _, _) => MatchTells(Q, f, e, ctx, W, V, S, sc);
    case ForRange(y, lo, hi, body) =>
      OptTells(Q, f, lo, V, S, sc);
      var A := CheckOpt(Q.rules, lo, V);
      var M := EndsOpt(Q, lo, ReadCtx, S);
      TellsKnows(Q, f, V, A, BadOpt(Q, f, lo, ReadCtx, S), M, sc);
      OptTells(Q, f, hi, A, M, sc);
      var B := CheckOpt(Q.rules, hi, A);
      var N := EndsOpt(Q, hi, ReadCtx, M);
      TellsThen(Q, f, V, A, B, BadOpt(Q, f, lo, ReadCtx, S), BadOpt(Q, f, hi, ReadCtx, M), M, N, sc, sc);
      LoopTells(Q, f, y, body, V, B, BadOpt(Q, f, lo, ReadCtx, S) || BadOpt(Q, f, hi, ReadCtx, M), N, sc);
    case ForEach(y, iter, body) =>
      CheckTells(Q, f, iter, ReadCtx, V, S, sc);
      LoopTells(Q, f, y, body, V, Check(Q.rules, iter, ReadCtx, V), Bad(Q, f, iter, ReadCtx, S),
                Ends(Q, iter, ReadCtx, S), sc);
  }

  lemma {:induction false} OptTells(Q: Look, f: Fault, o: Option<Expr>, W: Walk, S: set<Cond>, sc: set<Sym>)
    requires Q.past && ScopedOpt(o, sc) && Knows(W.state, Q.x, S, sc)
    ensures Tells(Q, f, W, CheckOpt(Q.rules, o, W), BadOpt(Q, f, o, ReadCtx, S), EndsOpt(Q, o, ReadCtx, S), sc)
    decreases o, 4
  {
    hide Knows, Tells, Check, Bad, Ends;
    if o.Some? {
      CheckTells(Q, f, o.value, ReadCtx, W, S, sc);
    } else {
      TellsNothing(Q, f, W, S, sc);
    }
  }

  lemma {:induction false} ArgsTell(Q: Look, f: Fault, op: Op, args: seq<Expr>, i: nat, ctx: Ctx, W: Walk, S: set<Cond>,
        sc: set<Sym>)
    requires Q.past && ScopedAll(args, sc) && Knows(W.state, Q.x, S, sc)
    ensures Tells(Q, f, W, CheckArgs(Q.rules, op, args, i, ctx, W), BadArgs(Q, f, op, args, i, ctx, S),
              EndsArgs(Q, op, args, i, ctx, S), sc)
    decreases args, 0
  {
    hide Knows, Tells, Check, Bad, Ends, AfterArg, ArgCtx;
    if args == [] {
      TellsNothing(Q, f, W, S, sc);
    } else {
      var c := ArgCtx(Q.rules.contracts, op, i, ctx);
      var A := Check(Q.rules, args[0], c, W);
      var M := Ends(Q, args[0], c, S);
      CheckTells(Q, f, args[0], c, W, S, sc);
      TellsKnows(Q, f, W, A, Bad(Q, f, args[0], c, S), M, sc);
      var B := AfterArg(Q.rules, op, i, args[0], A);
      AfterArgTells(Q, f, op, i, args[0], A, M, sc);
      TellsKnows(Q, f, A, B, false, M, sc);
      TellsThen(Q, f, W, A, B, Bad(Q, f, args[0], c, S), false, M, M, sc, sc);
      ArgsTell(Q, f, op, args[1..], i + 1, ctx, B, M, sc);
      TellsThen(Q, f, W, B, CheckArgs(Q.rules, op, args[1..], i + 1, ctx, B), Bad(Q, f, args[0], c, S),
                BadArgs(Q, f, op, args[1..], i + 1, ctx, M), M, EndsArgs(Q, op, args[1..], i + 1, ctx, M), sc, sc);
    }
  }

  lemma {:induction false} LogicTells(Q: Look, f: Fault, e: Expr, ctx: Ctx, W: Walk, V: Walk, S: set<Cond>,
        sc: set<Sym>)
    requires Q.past && e.Logic? && Scoped(e, sc) && V == EnterExpr(Q.rules, e, ctx, W) && Knows(V.state, Q.x, S, sc)
    ensures Tells(Q, f, V, Check(Q.rules, e, ctx, W), Bad(Q, f, e, ctx, S), Ends(Q, e, ctx, S), sc)
    decreases e, 0
  {
    hide Knows, Tells, EnterExpr, Merge, CanComplete;
    var A := Check(Q.rules, e.lhs, ReadCtx, V);
    var M := Ends(Q, e.lhs, ReadCtx, S);
    CheckTells(Q, f, e.lhs, ReadCtx, V, S, sc);
    TellsKnows(Q, f, V, A, Bad(Q, f, e.lhs, ReadCtx, S), M, sc);
    var B := Check(Q.rules, e.rhs, ReadCtx, A);
    var N := Ends(Q, e.rhs, ReadCtx, M);
    CheckTells(Q, f, e.rhs, ReadCtx, A, M, sc);
    TellsKnows(Q, f, A, B, Bad(Q, f, e.rhs, ReadCtx, M), N, sc);
    TellsThen(Q, f, V, A, B, Bad(Q, f, e.lhs, ReadCtx, S), Bad(Q, f, e.rhs, ReadCtx, M), M, N, sc, sc);
    KnowsMerge(A.state, B.state, Q.x, M, N, sc);
    assert N + M == M + N && M + {} == M;
    var r := Check(Q.rules, e, ctx, W);
    assert Knows(r.state, Q.x, Ends(Q, e, ctx, S), sc);
    TellsAs(Q, f, V, V, B, r, Bad(Q, f, e, ctx, S), N, Ends(Q, e, ctx, S), sc, sc);
  }

  lemma {:induction false} IfTells(Q: Look, f: Fault, e: Expr, ctx: Ctx, W: Walk, S: set<Cond>, sc: set<Sym>)
    requires Q.past && e.If? && Scoped(e, sc) && Knows(W.state, Q.x, S, sc)
    ensures Tells(Q, f, W, CheckIf(Q.rules, e, ctx, W), Bad(Q, f, e, ctx, S), Ends(Q, e, ctx, S), sc)
    decreases e, 0
  {
    hide Knows, Tells, Merge, CanComplete, OptCompletes, Check, Ends, EndsOpt, Bad, BadOpt;
    IfEnds(Q, e, ctx, S);
    IfBad(Q, f, e, ctx, S);
    var A := Check(Q.rules, e.cond, ReadCtx, W);
    var M := Ends(Q, e.cond, ReadCtx, S);
    CheckTells(Q, f, e.cond, ReadCtx, W, S, sc);
    TellsKnows(Q, f, W, A, Bad(Q, f, e.cond, ReadCtx, S), M, sc);
    var B := Check(Q.rules, e.thn, ctx, A);
    var T := Ends(Q, e.thn, ctx, M);
    CheckTells(Q, f, e.thn, ctx, A, M, sc);
    TellsKnows(Q, f, A, B, Bad(Q, f, e.thn, ctx, M), T, sc);
    TellsAs(Q, f, A, A, B, B.(state := A.state), Bad(Q, f, e.thn, ctx, M), T, M, sc, sc);
    TellsThen(Q, f, W, A, B.(state := A.state), Bad(Q, f, e.cond, ReadCtx, S), Bad(Q, f, e.thn, ctx, M), M, M, sc, sc);
    BranchesTell(Q, f, e, ctx, W, A, B, Bad(Q, f, e.cond, ReadCtx, S) || Bad(Q, f, e.thn, ctx, M), M, T, sc);
  }

  lemma {:induction false} BranchesTell(Q: Look, f: Fault, e: Expr, ctx: Ctx, W: Walk, A: Walk, B: Walk, bad: bool,
        M: set<Cond>, T: set<Cond>, sc: set<Sym>)
    requires Q.past && e.If? && Scoped(e, sc) && A == Check(Q.rules, e.cond, ReadCtx, W)
    requires B == Check(Q.rules, e.thn, ctx, A) && Tells(Q, f, W, B.(state := A.state), bad, M, sc)
    requires Knows(A.state, Q.x, M, sc) && Knows(B.state, Q.x, T, sc)
    ensures var N := EndsOpt(Q, e.els, ctx, M);
      var end := match (CanComplete(e.thn), OptCompletes(e.els))
                 case (true, true) => T + N
                 case (true, false) => T
                 case (false, true) => N
                 case (false, false) => Skipped(Q, M);
      Tells(Q, f, W, CheckIf(Q.rules, e, ctx, W), bad || BadOpt(Q, f, e.els, ctx, M), end, sc)
    decreases e, 0, 0
  {
    hide Knows, Tells, Merge, CanComplete, OptCompletes, Check, EndsOpt, BadOpt;
    var B' := B.(state := A.state);
    var N := EndsOpt(Q, e.els, ctx, M);
    ElseTells(Q, f, e.els, ctx, B', M, sc);
    var C := if e.els.None? then B' else Check(Q.rules, e.els.value, ctx, B');
    TellsKnows(Q, f, B', C, BadOpt(Q, f, e.els, ctx, M), N, sc);
    TellsThen(Q, f, W, B', C, bad, BadOpt(Q, f, e.els, ctx, M), M, N, sc, sc);
    KnowsMerge(C.state, B.state, Q.x, N, T, sc);
    var end := match (CanComplete(e.thn), OptCompletes(e.els))
               case (true, true) => T + N
               case (true, false) => T
               case (false, true) => N
               case (false, false) => Skipped(Q, M);
    TellsAs(Q, f, W, W, C, CheckIf(Q.rules, e, ctx, W), bad || BadOpt(Q, f, e.els, ctx, M), N, end, sc, sc);
  }

  lemma IfBad(Q: Look, f: Fault, e: Expr, ctx: Ctx, S: set<Cond>)
    requires e.If?
    ensures var M := Ends(Q, e.cond, ReadCtx, S);
      Bad(Q, f, e, ctx, S) <==>
      Bad(Q, f, e.cond, ReadCtx, S) || Bad(Q, f, e.thn, ctx, M) || BadOpt(Q, f, e.els, ctx, M)
  {
  }

  lemma IfEnds(Q: Look, e: Expr, ctx: Ctx, S: set<Cond>)
    requires e.If?
    ensures var M := Ends(Q, e.cond, ReadCtx, S);
      var T := Ends(Q, e.thn, ctx, M);
      var N := EndsOpt(Q, e.els, ctx, M);
      Ends(Q, e, ctx, S) == match (CanComplete(e.thn), OptCompletes(e.els))
                            case (true, true) => T + N
                            case (true, false) => T
                            case (false, true) => N
                            case (false, false) => Skipped(Q, M)
  {
    hide CanComplete;
    var M := Ends(Q, e.cond, ReadCtx, S);
    var T := Ends(Q, e.thn, ctx, M);
    var N := EndsOpt(Q, e.els, ctx, M);
    assert EndsElse(Q, e.els, ctx, M) == if OptCompletes(e.els) then N else {};
    assert T + {} == T && {} + N == N;
  }

  lemma {:induction false} ElseTells(Q: Look, f: Fault, o: Option<Expr>, ctx: Ctx, W: Walk, S: set<Cond>, sc: set<Sym>)
    requires Q.past && ScopedOpt(o, sc) && Knows(W.state, Q.x, S, sc)
    ensures Tells(Q, f, W, if o.None? then W else Check(Q.rules, o.value, ctx, W), BadOpt(Q, f, o, ctx, S),
              EndsOpt(Q, o, ctx, S), sc)
    decreases o, 4
  {
    hide Knows, Tells, Check, Bad, Ends;
    if o.Some? {
      CheckTells(Q, f, o.value, ctx, W, S, sc);
    } else {
      TellsNothing(Q, f, W, S, sc);
    }
  }

  lemma {:induction false} BlockTells(Q: Look, f: Fault, e: Expr, ctx: Ctx, W: Walk, V: Walk, S: set<Cond>,
        sc: set<Sym>)
    requires Q.past && e.Block? && Scoped(e, sc) && V == EnterExpr(Q.rules, e, ctx, W) && Knows(V.state, Q.x, S, sc)
    ensures Tells(Q, f, V, Check(Q.rules, e, ctx, W), Bad(Q, f, e, ctx, S), Ends(Q, e, ctx, S), sc)
    decreases e, 0
  {
    hide Knows, Tells, EnterExpr, CheckStmts, EndsStmts, BadStmts;
    var inner := ScopeAfter(e.stmts, sc);
    var A := CheckStmts(Q.rules, e.stmts, V);
    var M := EndsStmts(Q, e.stmts, S);
    StmtsTell(Q, f, e.stmts, V, S, sc);
    TellsKnows(Q, f, V, A, BadStmts(Q, f, e.stmts, S), M, inner);
    ElseTells(Q, f, e.tail, ctx, A, M, inner);
    var r := if e.tail.None? then A else Check(Q.rules, e.tail.value, ctx, A);
    var T := EndsOpt(Q, e.tail, ctx, M);
    TellsThen(Q, f, V, A, r, BadStmts(Q, f, e.stmts, S), BadOpt(Q, f, e.tail, ctx, M), M, T, inner, inner);
    TellsKnows(Q, f, V, r, Bad(Q, f, e, ctx, S), T, inner);
    KnowsLess(r.state, Q.x, T, inner, sc);
    TellsAs(Q, f, V, V, r, r, Bad(Q, f, e, ctx, S), T, T, inner, sc);
  }

  lemma {:induction false} MatchTells(Q: Look, f: Fault, e: Expr, ctx: Ctx, W: Walk, V: Walk, S: set<Cond>,
        sc: set<Sym>)
    requires Q.past && e.Match? && Scoped(e, sc) && V == EnterExpr(Q.rules, e, ctx, W) && Knows(V.state, Q.x, S, sc)
    ensures Tells(Q, f, V, Check(Q.rules, e, ctx, W), Bad(Q, f, e, ctx, S), Ends(Q, e, ctx, S), sc)
    decreases e, 0
  {
    hide Knows, Tells, EnterExpr, CheckArms, EndsArms, BadArms;
    var A := Check(Q.rules, e.scrut, ReadCtx, V);
    var M := Ends(Q, e.scrut, ReadCtx, S);
    CheckTells(Q, f, e.scrut, ReadCtx, V, S, sc);
    TellsKnows(Q, f, V, A, Bad(Q, f, e.scrut, ReadCtx, S), M, sc);
    ArmsTell(Q, f, e.arms, ctx, A.state, M, None, {}, A, sc);
    var (joined, B) := CheckArms(Q.rules, e.arms, ctx, A.state, None, A);
    var T := EndsArms(Q, e.arms, ctx, M);
    assert {} + T == T;
    var r := Check(Q.rules, e, ctx, W);
    assert r == B.(state := if joined.Some? then joined.value else A.state);
    var end := Ends(Q, e, ctx, S);
    assert Knows(r.state, Q.x, end, sc);
    MatchReports(Q, f, V, A, B, r, Bad(Q, f, e.scrut, ReadCtx, S), BadArms(Q, f, e.arms, ctx, M), M, end, sc);
  }

  lemma MatchReports(Q: Look, f: Fault, V: Walk, A: Walk, B: Walk, r: Walk, a: bool, b: bool, M: set<Cond>,
        T: set<Cond>, sc: set<Sym>)
    requires Tells(Q, f, V, A, a, M, sc) && (Reported(Q, f, B) <==> Reported(Q, f, A) || b)
    requires r.diags == B.diags && Knows(r.state, Q.x, T, sc)
    ensures Tells(Q, f, V, r, a || b, T, sc)
  {
  }

  lemma {:induction false} ArmsTell(Q: Look, f: Fault, arms: seq<Arm>, ctx: Ctx, saved: States, S: set<Cond>,
        joined: Option<States>, J: set<Cond>, W: Walk, sc: set<Sym>)
    requires Q.past && ScopedArms(arms, sc) && Knows(saved, Q.x, S, sc)
    requires joined.Some? ==> saved.Keys <= joined.value.Keys && Knows(joined.value, Q.x, J, sc)
    requires joined.None? ==> J == {}
    ensures var (j, B) := CheckArms(Q.rules, arms, ctx, saved, joined, W);
      && (Reported(Q, f, B) <==> Reported(Q, f, W) || BadArms(Q, f, arms, ctx, S))
      && (j.Some? <==> joined.Some? || AnyArmCompletes(arms))
      && (j.Some? ==> Knows(j.value, Q.x, J + EndsArms(Q, arms, ctx, S), sc))
    decreases arms, 0
  {
    hide Knows, Merge, CheckArm, EndsArm, BadArm, ArmCompletes, Reported;
    if arms == [] {
      assert J + {} == J;
    } else {
      var A := CheckArm(Q.rules, arms[0], ctx, W.(state := saved));
      ArmTells(Q, f, arms[0], ctx, W.(state := saved), S, sc);
      ReportedAs(Q, f, W, W.(state := saved));
      var T := EndsArm(Q, arms[0], ctx, S);
      if !ArmCompletes(arms[0]) {
        assert J + EndsArms(Q, arms, ctx, S) == J + EndsArms(Q, arms[1..], ctx, S);
        ArmsTell(Q, f, arms[1..], ctx, saved, S, joined, J, A, sc);
      } else if joined.None? {
        assert J + EndsArms(Q, arms, ctx, S) == T + EndsArms(Q, arms[1..], ctx, S);
        ArmsTell(Q, f, arms[1..], ctx, saved, S, Some(A.state), T, A, sc);
      } else {
        KnowsMerge(joined.value, A.state, Q.x, J, T, sc);
        assert J + EndsArms(Q, arms, ctx, S) == (T + J) + EndsArms(Q, arms[1..], ctx, S);
        ArmsTell(Q, f, arms[1..], ctx, saved, S, Some(Merge(joined.value, A.state)), T + J, A, sc);
      }
    }
  }

  lemma ReportedAs(Q: Look, f: Fault, W: Walk, V: Walk)
    requires W.diags == V.diags
    ensures Reported(Q, f, W) == Reported(Q, f, V)
  {
  }

  lemma {:induction false} ArmTells(Q: Look, f: Fault, arm: Arm, ctx: Ctx, W: Walk, S: set<Cond>, sc: set<Sym>)
    requires Q.past && ScopedArm(arm, sc) && Knows(W.state, Q.x, S, sc)
    ensures var A := CheckArm(Q.rules, arm, ctx, W);
      && (Reported(Q, f, A) <==> Reported(Q, f, W) || BadArm(Q, f, arm, ctx, S))
      && (if ArmCompletes(arm) then Knows(A.state, Q.x, EndsArm(Q, arm, ctx, S), sc) else EndsArm(Q, arm, ctx, S) == {})
    decreases arm, 3
  {
    hide Knows, Check, Bad, Ends, BindStates, AfterBind;
    var V := W.(state := BindStates(W.state, arm.pat));
    PatTells(Q, arm.pat, W.state, S, sc);
    var T := AfterBind(Q, PatSyms(arm.pat), S);
    var inner := sc + PatSyms(arm.pat);
    CheckTells(Q, f, arm.body, ctx, V, T, inner);
    KnowsLess(Check(Q.rules, arm.body, ctx, V).state, Q.x, Ends(Q, arm.body, ctx, T), inner, sc);
  }

  lemma {:induction false} LoopTells(Q: Look, f: Fault, y: Sym, body: Expr, W: Walk, V: Walk, bad: bool, S: set<Cond>,
        sc: set<Sym>)
    requires Q.past && Tells(Q, f, W, V, bad, S, sc) && y !in sc && Scoped(body, sc + {y})
    ensures Tells(Q, f, W, CheckLoop(Q.rules, y, body, V), bad || BadLoop(Q, f, y, body, S), EndsLoop(Q, y, body, S),
      sc)
    decreases body, 3
  {
    hide Knows, Tells, Check, Bad, Ends, Repeatable, Merge;
    TellsKnows(Q, f, W, V, bad, S, sc);
    var B := SetState(V, y, READY);
    BindTells(Q, y, V.state, S, sc);
    var T := AfterBind(Q, {y}, S);
    CheckTells(Q, f, body, MoveCtx, B, T, sc + {y});
    var A := Check(Q.rules, body, MoveCtx, B);
    var N := Ends(Q, body, MoveCtx, T);
    TellsKnows(Q, f, B, A, Bad(Q, f, body, MoveCtx, T), N, sc + {y});
    TellsAs(Q, f, V, B, A, A, Bad(Q, f, body, MoveCtx, T), N, N, sc + {y}, sc + {y});
    TellsKnows(Q, f, V, A, Bad(Q, f, body, MoveCtx, T), N, sc + {y});
    TellsThen(Q, f, W, V, A, bad, Bad(Q, f, body, MoveCtx, T), S, N, sc, sc + {y});
    var r := CheckLoop(Q.rules, y, body, V);
    LoopKnows(Q, y, A.state, V.state, N, S, sc);
    assert y != Q.x ==> T == S;
    TellsAs(Q, f, W, W, A, r, bad || BadLoop(Q, f, y, body, S), N, EndsLoop(Q, y, body, S), sc + {y}, sc);
  }

  lemma LoopKnows(Q: Look, y: Sym, after: States, before: States, N: set<Cond>, S: set<Cond>, sc: set<Sym>)
    requires Knows(after, Q.x, N, sc + {y}) && Knows(before, Q.x, S, sc) && y !in sc
    ensures Knows(Merge(after - {y}, before), Q.x, if y == Q.x then S else S + N, sc)
  {
    hide Sum;
    if y != Q.x {
      KnowsMerge(after - {y}, before, Q.x, N, S, sc);
    }
  }

  lemma {:induction false} StmtsTell(Q: Look, f: Fault, ss: seq<Stmt>, W: Walk, S: set<Cond>, sc: set<Sym>)
    requires Q.past && ScopedStmts(ss, sc) && Knows(W.state, Q.x, S, sc)
    ensures Tells(Q, f, W, CheckStmts(Q.rules, ss, W), BadStmts(Q, f, ss, S), EndsStmts(Q, ss, S), ScopeAfter(ss, sc))
    decreases ss, 0
  {
    hide Knows, Tells, CheckStmt, BadStmt, EndsStmt;
    if ss == [] {
      TellsNothing(Q, f, W, S, sc);
    } else {
      var A := CheckStmt(Q.rules, ss[0], W);
      var M := EndsStmt(Q, ss[0], S);
      var inner := sc + DeclaredBy(ss[0]);
      StmtTells(Q, f, ss[0], W, S, sc);
      TellsKnows(Q, f, W, A, BadStmt(Q, f, ss[0], S), M, inner);
      StmtsTell(Q, f, ss[1..], A, M, inner);
      TellsThen(Q, f, W, A, CheckStmts(Q.rules, ss[1..], A), BadStmt(Q, f, ss[0], S), BadStmts(Q, f, ss[1..], M), M,
                EndsStmts(Q, ss[1..], M), inner, ScopeAfter(ss[1..], inner));
    }
  }

  lemma {:induction false} StmtTells(Q: Look, f: Fault, s: Stmt, W: Walk, S: set<Cond>, sc: set<Sym>)
    requires Q.past && ScopedStmt(s, sc) && Knows(W.state, Q.x, S, sc)
    ensures Tells(Q, f, W, CheckStmt(Q.rules, s, W), BadStmt(Q, f, s, S), EndsStmt(Q, s, S), sc + DeclaredBy(s))
    decreases s, 1
  {
    hide Knows, Tells, Check, Bad, Ends, AssignPlace, AfterWrite, WriteBad, AfterBind, AfterDeclare;
    assert sc + {} == sc;
    match s
    case Let(y, None) =>
      DeclareTells(Q, y, W.state, S, sc);
      TellsNothing(Q, f, W, S, sc);
      TellsAs(Q, f, W, W, W, CheckStmt(Q.rules, s, W), false, S, AfterDeclare(Q, y, S), sc, sc + {y});
    case Let(y, Some(e)) =>
      CheckTells(Q, f, e, MoveCtx, W, S, sc);
      var A := Check(Q.rules, e, MoveCtx, W);
      var M := Ends(Q, e, MoveCtx, S);
      TellsKnows(Q, f, W, A, Bad(Q, f, e, MoveCtx, S), M, sc);
      BindTells(Q, y, A.state, M, sc);
      TellsAs(Q, f, W, W, A, CheckStmt(Q.rules, s, W), Bad(Q, f, e, MoveCtx, S), M, AfterBind(Q, {y}, M), sc, sc + {y});
    case Assign(y, path, e) =>
      CheckTells(Q, f, e, MoveCtx, W, S, sc);
      var A := Check(Q.rules, e, MoveCtx, W);
      var M := Ends(Q, e, MoveCtx, S);
      TellsKnows(Q, f, W, A, Bad(Q, f, e, MoveCtx, S), M, sc);
      AssignTells(Q, f, y, path, A, M, sc);
      TellsThen(Q, f, W, A, AssignPlace(Q.rules, y, path, A), Bad(Q, f, e, MoveCtx, S), WriteBad(Q, f, y, path, M), M,
                AfterWrite(Q, y, path, M), sc, sc);
    case ExprStmt(e) => CheckTells(Q, f, e, MoveCtx, W, S, sc);
    case Return(None) => TellsNothing(Q, f, W, S, sc);
    case Return(Some(e)) => CheckTells(Q, f, e, MoveCtx, W, S, sc);
  }
}
