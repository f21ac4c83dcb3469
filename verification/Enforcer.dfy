/** The enforcement pass as it runs: an object whose binding states, live loans and
    diagnostics are updated in place, step for step with the walk in `Enforce`. */
module EnforcerPass {
  import opened Wrappers
  import opened Hir
  import opened Semantics
  import opened Place
  import opened Enforce

  /** Joining one more entry of `b`. */
  lemma MergeOneMore(a: States, b: States, todo: set<Sym>, s: Sym)
    requires s in todo && todo <= b.Keys
    ensures var r := Merge(a, b - todo);
      Merge(a, b - (todo - {s})) == r[s := if s in r then Join(r[s], b[s]) else b[s]]
  {
    assert (b - (todo - {s})).Keys == (b - todo).Keys + {s};
  }

  lemma MergeEnds(a: States, b: States)
    ensures Merge(a, b - b.Keys) == a && b - {} == b
  {
  }

  /** Joins two state maps entry by entry. */
  method MergeStates(a: States, b: States) returns (r: States)
    ensures r == Merge(a, b)
  {
    hide Merge;
    MergeEnds(a, b);
    r := a;
    var todo := b.Keys;
    while todo != {}
      invariant todo <= b.Keys && r == Merge(a, b - todo)
      decreases |todo|
    {
      var s :| s in todo;
      MergeOneMore(a, b, todo, s);
      todo := todo - {s};
      r := r[s := if s in r then Join(r[s], b[s]) else b[s]];
    }
  }

  class Enforcer {
    const rules: Rules
    var state: States
    var loans: seq<Loan>
    var diags: seq<Diag>
    ghost var steady: bool

    constructor (rules: Rules, params: seq<Sym>)
      ensures this.rules == rules && View() == Walk(ParamStates(params), [], [], true)
    {
      this.rules := rules;
      state := map s | s in params :: READY;
      loans, diags, steady := [], [], true;
    }

    ghost function View(): Walk
      reads this
    {
      Walk(state, loans, diags, steady)
    }

    method Report(d: Diag)
      modifies this`diags
      ensures diags == old(diags) + [d]
    {
      diags := diags + [d];
    }

    method Use(s: Sym, ctx: Ctx)
      modifies this`state, this`diags
      ensures View() == UseVar(rules, s, ctx, old(View()))
    {
      if s !in state {
        state := state[s := FRESH];
      }
      var b := state[s];
      if !b.init.InitYes? {
        Report(Uninitialized(s));
      }
      if !b.moved.MovedNo? {
        Report(UseAfterMove(s));
      }
      if ctx.MoveCtx? && s !in rules.copies {
        state := state[s := b.(moved := MovedYes)];
      }
    }

    /** Reports a move out of a place a live loan overlaps. */
    method CheckMoveLoans(p: Path)
      modifies this`diags
      ensures View() == CheckMove(p, old(View()))
    {
      var i := 0;
      while i < |loans| && !Overlaps(loans[i].place, p)
        invariant 0 <= i <= |loans|
        invariant forall k :: 0 <= k < i ==> !Overlaps(loans[k].place, p)
      {
        i := i + 1;
      }
      if i < |loans| {
        assert loans[i] in loans;
        Report(MoveWhileBorrowed(p));
      }
    }

    /** Records a loan, unless a live loan conflicts with it. */
    method TakeLoan(p: Path, kind: LoanKind)
      modifies this`loans, this`diags
      ensures View() == AddLoan(p, kind, old(View()))
    {
      var i := 0;
      while i < |loans| && !(Overlaps(loans[i].place, p) && (loans[i].kind.Mut? || kind.Mut?))
        invariant 0 <= i <= |loans|
        invariant forall k :: 0 <= k < i ==> !(Overlaps(loans[k].place, p) && (loans[k].kind.Mut? || kind.Mut?))
      {
        i := i + 1;
      }
      if i < |loans| {
        assert loans[i] in loans;
        Report(BorrowConflict(p));
      } else {
        loans := loans + [Loan(p, kind)];
      }
    }

    method LendArg(op: Op, i: nat, arg: Expr)
      modifies this`loans, this`diags
      ensures View() == AfterArg(rules, op, i, arg, old(View()))
    {
      var place := FindPlace(arg);
      if op.Call? && place.Some? {
        var p := place.value;
        var b := ContractAt(rules.contracts, op.def, i);
        if b == Borrow {
          TakeLoan(p, Shared);
        } else if b == BorrowMut {
          if p.base !in rules.muts {
            Report(MutableBorrowOfImmutable(p));
          }
          TakeLoan(p, Mut);
        }
      }
    }

    method Assign(x: Sym, path: seq<nat>)
      modifies this`state, this`diags
      ensures View() == AssignPlace(rules, x, path, old(View()))
    {
      var first := path == [] && (x !in state || state[x] == FRESH);
      if x !in rules.muts && !first {
        Report(ImmutableAssignment(x));
      }
      if path == [] {
        state := state[x := READY];
      } else {
        Use(x, ReadCtx);
        state := state[x := state[x].(init := InitYes)];
      }
    }

    method Enter(e: Expr, ctx: Ctx)
      modifies this`diags
      ensures View() == EnterExpr(rules, e, ctx, old(View()))
    {
      var place := FindPlace(e);
      if ctx.MoveCtx? && !CopyPlace(rules, e) && place.Some? {
        CheckMoveLoans(place.value);
      }
    }

    method EvalExpr(e: Expr, ctx: Ctx)
      modifies this
      ensures View() == Check(rules, e, ctx, old(View()))
      decreases e, 2
    {
      hide EnterExpr, UseVar, Merge, CanComplete, CheckIf, CheckLoop, CheckArms, CheckStmts, CheckArgs;
      Enter(e, ctx);
      match e
      case Lit(_) =>
      case Poison =>
      case Var(s) => Use(s, ctx);
      case Field(b, _, copy) => EvalExpr(b, if copy then ReadCtx else ctx);
      case Prim(op, args) =>
        var mark := |loans|;
        WalkArgs(op, args, ctx);
        loans := loans[..mark];
      case Logic(_, l, r) =>
        EvalExpr(l, ReadCtx);
        var skipped := state;
        EvalExpr(r, ReadCtx);
        if CanComplete(r) {
          state := MergeStates(skipped, state);
        } else {
          state := skipped;
        }
      case If(_, _, _, _) => WalkIf(e, ctx);
      case Block(stmts, tail) =>
        WalkStmts(stmts);
        if tail.Some? {
          EvalExpr(tail.value, ctx);
        }
      case Match(s, arms, _) =>
        EvalExpr(s, ReadCtx);
        WalkArms(arms, ctx);
      case ForRange(x, lo, hi, body) =>
        if lo.Some? {
          EvalExpr(lo.value, ReadCtx);
        }
        if hi.Some? {
          EvalExpr(hi.value, ReadCtx);
        }
        WalkLoop(x, body);
      case ForEach(x, iter, body) =>
        EvalExpr(iter, ReadCtx);
        WalkLoop(x, body);
    }

    method WalkArgs(op: Op, args: seq<Expr>, ctx: Ctx)
      modifies this
      ensures View() == CheckArgs(rules, op, args, 0, ctx, old(View()))
      decreases args, 0
    {
      var i := 0;
      while i < |args|
        invariant 0 <= i <= |args|
        invariant CheckArgs(rules, op, args[i..], i, ctx, View()) == CheckArgs(rules, op, args, 0, ctx, old(View()))
      {
        assert args[i..][0] == args[i] && args[i..][1..] == args[i + 1..];
        EvalExpr(args[i], ArgCtx(rules.contracts, op, i, ctx));
        LendArg(op, i, args[i]);
        i := i + 1;
      }
    }

    method WalkIf(e: Expr, ctx: Ctx)
      requires e.If?
      modifies this
      ensures View() == CheckIf(rules, e, ctx, old(View()))
      decreases e, 1
    {
      EvalExpr(e.cond, ReadCtx);
      var saved := state;
      EvalExpr(e.thn, ctx);
      var thenState := state;
      state := saved;
      if e.els.Some? {
        EvalExpr(e.els.value, ctx);
      }
      var t, f := CanComplete(e.thn), OptCompletes(e.els);
      if t && f {
        state := MergeStates(state, thenState);
      } else if t {
        state := thenState;
      } else if !f {
        state := saved;
      }
    }

    method WalkArms(arms: seq<Arm>, ctx: Ctx)
      modifies this
      ensures var (joined, B) := CheckArms(rules, arms, ctx, old(state), None, old(View()));
        View() == B.(state := if joined.Some? then joined.value else old(state))
      decreases arms, 0
    {
      var saved := state;
      var joined: Option<States> := None;
      var i := 0;
      while i < |arms|
        invariant 0 <= i <= |arms|
        invariant joined.Some? ==> saved.Keys <= joined.value.Keys
        invariant CheckArms(rules, arms[i..], ctx, saved, joined, View()) ==
          CheckArms(rules, arms, ctx, saved, None, old(View()))
      {
        assert arms[i..][0] == arms[i] && arms[i..][1..] == arms[i + 1..];
        state := saved;
        WalkArm(arms[i], ctx);
        if ArmCompletes(arms[i]) {
          if joined.Some? {
            var both := MergeStates(joined.value, state);
            joined := Some(both);
          } else {
            joined := Some(state);
          }
        }
        i := i + 1;
      }
      state := if joined.Some? then joined.value else saved;
    }

    method WalkArm(arm: Arm, ctx: Ctx)
      modifies this
      ensures View() == CheckArm(rules, arm, ctx, old(View()))
      decreases arm, 3
    {
      match arm.pat {
        case VariantPat(_, binds) =>
          ghost var before := state;
          var i := 0;
          while i < |binds|
            invariant 0 <= i <= |binds|
            invariant state == BindAll(before, binds, i)
            modifies this`state
          {
            if binds[i].Some? {
              state := state[binds[i].value := READY];
            }
            i := i + 1;
          }
        case BindPat(s) =>
          if s.Some? {
            state := state[s.value := READY];
          }
        case PoisonPat =>
      }
      EvalExpr(arm.body, ctx);
    }

    method WalkLoop(x: Sym, body: Expr)
      modifies this
      ensures View() == CheckLoop(rules, x, body, old(View()))
      decreases body, 4
    {
      hide Repeatable, Merge;
      var saved := state;
      state := state[x := READY];
      EvalExpr(body, MoveCtx);
      var after := state - {x};
      state := saved;
      state := MergeStates(after, state);
      steady := Repeatable(rules, x, body, old(View())) || Repeatable(rules, x, body, View());
    }

    method WalkStmts(stmts: seq<Stmt>)
      modifies this
      ensures View() == CheckStmts(rules, stmts, old(View()))
      decreases stmts, 0
    {
      var i := 0;
      while i < |stmts|
        invariant 0 <= i <= |stmts|
        invariant CheckStmts(rules, stmts[i..], View()) == CheckStmts(rules, stmts, old(View()))
      {
        assert stmts[i..][0] == stmts[i] && stmts[i..][1..] == stmts[i + 1..];
        WalkStmt(stmts[i]);
        i := i + 1;
      }
    }

    method WalkStmt(s: Stmt)
      modifies this
      ensures View() == CheckStmt(rules, s, old(View()))
      decreases s, 1
    {
      match s
      case Let(x, init) =>
        if init.Some? {
          EvalExpr(init.value, MoveCtx);
          state := state[x := READY];
        } else {
          state := state[x := FRESH];
        }
      case Assign(x, path, e) =>
        EvalExpr(e, MoveCtx);
        Assign(x, path);
      case ExprStmt(e) => EvalExpr(e, MoveCtx);
      case Return(o) =>
        if o.Some? {
          EvalExpr(o.value, MoveCtx);
        }
    }
  }

  /** Runs the pass over a body; without a report, and with steady loops, no run of the body
      misuses a binding. */
  method EnforceBody(rules: Rules, params: seq<Sym>, root: Expr) returns (diags: seq<Diag>)
    ensures diags == CheckBody(rules, params, root).diags
  {
    var pass := new Enforcer(rules, params);
    pass.EvalExpr(root, MoveCtx);
    diags := pass.diags;
  }
}
