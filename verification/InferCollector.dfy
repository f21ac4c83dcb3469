/** The fact collector as it runs: an object that updates the facts, the carrier sets and the
    recorded contracts in place, step for step with the walk in `Infer`. */
module InferCollector {
  import opened Hir
  import opened Semantics
  import opened Infer

  class FactCollector {
    const fun: Fun
    const view: View
    var facts: seq<ParamFacts>
    var carriers: map<Sym, Carriers>
    var consumed: map<Def, Contract>

    constructor (fun: Fun, view: View)
      ensures this.fun == fun && this.view == view
      ensures State() == Taint(seq(|fun.params|, _ => UNUSED), map[], map[])
    {
      this.fun, this.view := fun, view;
      facts, carriers, consumed := seq(|fun.params|, _ => UNUSED), map[], map[];
    }

    ghost function State(): Taint
      reads this
    {
      Taint(facts, carriers, consumed)
    }

    /** Reads a callee's contract through the view and remembers what was read. */
    method ContractOf(def: Def) returns (c: Contract)
      modifies this`consumed
      ensures c == view(def) && State() == old(State()).(seen := old(consumed)[def := c])
    {
      c := view(def);
      consumed := consumed[def := c];
    }

    method FlagUse(s: Sym, ctx: Ctx)
      modifies this`facts
      ensures State() == Flag(fun, s, ctx, old(State()))
    {
      var p := Position(fun.params, s);
      if p.Some? && p.value < |facts| {
        facts := facts[p.value := if ctx.MoveCtx? then facts[p.value].(moved := true)
          else facts[p.value].(read := true)];
      }
    }

    method FlagWrite(s: Sym)
      modifies this`facts
      ensures State() == FlagMutated(fun, s, old(State()))
    {
      var p := Position(fun.params, s);
      if p.Some? && p.value < |facts| {
        facts := facts[p.value := facts[p.value].(mutated := true)];
      }
    }

    /** Marks every carried parameter as flowing into the return value. */
    method FlagEscapes(c: Carriers)
      modifies this`facts
      ensures State() == MarkEscaped(old(State()), c)
    {
      var i := 0;
      while i < |facts|
        invariant 0 <= i <= |facts| == |old(facts)|
        invariant forall k ::
          0 <= k < |facts| ==> facts[k] == if k < i && k in c then old(facts)[k].(escaped := true) else old(facts)[k]
      {
        if i in c {
          facts := facts[i := facts[i].(escaped := true)];
        }
        i := i + 1;
      }
    }

    method SetCarriers(s: Sym, c: Carriers)
      modifies this`carriers
      ensures State() == Carry(old(State()), s, c)
    {
      carriers := carriers[s := c];
    }

    // ---------- the walk ----------

    method Eval(e: Expr, ctx: Ctx) returns (c: Carriers)
      modifies this
      ensures (State(), c) == Walk(fun, view, e, ctx, old(State()))
      decreases e, 1
    {
      c := {};
      match e
      case Lit(_) =>
      case Poison =>
      case Var(s) =>
        FlagUse(s, ctx);
        var p := Position(fun.params, s);
        c := if p.Some? then {p.value} else if s in carriers then carriers[s] else {};
      case Field(b, _, copy) =>
        c := Eval(b, if copy then ReadCtx else ctx);
        if copy {
          c := {};
        }
      case Prim(op, args) =>
        var contract := [];
        if op.Call? {
          contract := ContractOf(op.def);
        }
        c := EvalArgs(op, contract, args, ctx);
      case Logic(_, l, r) =>
        var _ := Eval(l, ReadCtx);
        var _ := Eval(r, ReadCtx);
      case If(q, t, f, _) =>
        var _ := Eval(q, ReadCtx);
        c := Eval(t, ctx);
        if f.Some? {
          var d := Eval(f.value, ctx);
          c := c + d;
        }
      case Block(stmts, tail) =>
        EvalStmts(stmts);
        if tail.Some? {
          c := Eval(tail.value, ctx);
        }
      case Match(s, arms, _) =>
        var d := Eval(s, ReadCtx);
        c := EvalArms(arms, ctx, d);
      case ForRange(_, lo, hi, body) =>
        if lo.Some? {
          var _ := Eval(lo.value, ReadCtx);
        }
        if hi.Some? {
          var _ := Eval(hi.value, ReadCtx);
        }
        var _ := Eval(body, MoveCtx);
      case ForEach(_, iter, body) =>
        var _ := Eval(iter, ReadCtx);
        var _ := Eval(body, MoveCtx);
    }

    method EvalArgs(op: Op, contract: Contract, args: seq<Expr>, ctx: Ctx) returns (out: Carriers)
      modifies this
      ensures (State(), out) == WalkArgs(fun, view, op, contract, args, 0, ctx, old(State()))
      decreases args, 0
    {
      out := {};
      ghost var whole := WalkArgs(fun, view, op, contract, args, 0, ctx, State());
      var i := 0;
      assert args[0..] == args && out + whole.1 == whole.1;
      while i < |args|
        invariant 0 <= i <= |args|
        invariant var (B, rest) := WalkArgs(fun, view, op, contract, args[i..], i, ctx, State());
          (B, out + rest) == whole
      {
        assert args[i..][0] == args[i] && args[i..][1..] == args[i + 1..];
        var c := Eval(args[i], OperandCtx(op, contract, i, ctx));
        if op.Call? && At(contract, i) == BorrowMut && PlaceBase(args[i]).Some? {
          FlagWrite(PlaceBase(args[i]).value);
        }
        ghost var rest := WalkArgs(fun, view, op, contract, args[i + 1..], i + 1, ctx, State()).1;
        assert out + ((if FlowsOn(op, contract, i) then c else {}) + rest) ==
          (if FlowsOn(op, contract, i) then out + c else out) + rest;
        if FlowsOn(op, contract, i) {
          out := out + c;
        }
        i := i + 1;
      }
      assert out + {} == out;
    }

    method EvalArms(arms: seq<Arm>, ctx: Ctx, c: Carriers) returns (out: Carriers)
      modifies this
      ensures (State(), out) == WalkArms(fun, view, arms, ctx, c, old(State()))
      decreases arms, 0
    {
      out := {};
      ghost var whole := WalkArms(fun, view, arms, ctx, c, State());
      var i := 0;
      assert arms[0..] == arms && out + whole.1 == whole.1;
      while i < |arms|
        invariant 0 <= i <= |arms|
        invariant var (B, rest) := WalkArms(fun, view, arms[i..], ctx, c, State());
          (B, out + rest) == whole
      {
        assert arms[i..][0] == arms[i] && arms[i..][1..] == arms[i + 1..];
        var o := EvalArm(arms[i], ctx, c);
        ghost var rest := WalkArms(fun, view, arms[i + 1..], ctx, c, State()).1;
        assert out + (o + rest) == (out + o) + rest;
        out := out + o;
        i := i + 1;
      }
      assert out + {} == out;
    }

    method EvalArm(arm: Arm, ctx: Ctx, c: Carriers) returns (out: Carriers)
      modifies this
      ensures (State(), out) == WalkArm(fun, view, arm, ctx, c, old(State()))
      decreases arm, 2
    {
      match arm.pat {
        case VariantPat(_, binds) =>
          var i := 0;
          while i < |binds|
            invariant 0 <= i <= |binds|
            invariant State() == CarryBinds(fun, binds, i, c, old(State()))
          {
            if binds[i].Some? && binds[i].value !in fun.copies {
              SetCarriers(binds[i].value, c);
            }
            i := i + 1;
          }
        case BindPat(s) =>
          if s.Some? {
            SetCarriers(s.value, c);
          }
        case PoisonPat =>
      }
      out := Eval(arm.body, ctx);
    }

    method EvalStmts(stmts: seq<Stmt>)
      modifies this
      ensures State() == WalkStmts(fun, view, stmts, old(State()))
      decreases stmts, 0
    {
      var i := 0;
      while i < |stmts|
        invariant 0 <= i <= |stmts|
        invariant WalkStmts(fun, view, stmts[i..], State()) == WalkStmts(fun, view, stmts, old(State()))
      {
        assert stmts[i..][0] == stmts[i] && stmts[i..][1..] == stmts[i + 1..];
        EvalStmt(stmts[i]);
        i := i + 1;
      }
    }

    method EvalStmt(s: Stmt)
      modifies this
      ensures State() == WalkStmt(fun, view, s, old(State()))
      decreases s, 1
    {
      match s
      case Let(x, init) =>
        var c := {};
        if init.Some? {
          c := Eval(init.value, MoveCtx);
        }
        SetCarriers(x, c);
      case Assign(x, _, e) =>
        var c := Eval(e, MoveCtx);
        FlagWrite(x);
        if c != {} {
          SetCarriers(x, (if x in carriers then carriers[x] else {}) + c);
        }
      case ExprStmt(e) => var _ := Eval(e, MoveCtx);
      case Return(o) =>
        if o.Some? {
          var c := Eval(o.value, MoveCtx);
          FlagEscapes(c);
        }
    }
  }

  /** Collects the facts of a body and the contracts it was collected under. */
  method CollectFacts(fun: Fun, view: View) returns (facts: seq<ParamFacts>, consumed: map<Def, Contract>)
    ensures facts == Collect(fun, view).facts && consumed == Collect(fun, view).seen
  {
    var c := new FactCollector(fun, view);
    var root := c.Eval(fun.body, MoveCtx);
    c.FlagEscapes(root);
    facts, consumed := c.facts, c.consumed;
  }
}
