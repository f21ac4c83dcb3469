/** The lowering pass as it runs: an object that appends to its blocks and locals, keeps the
    slot of every binding in a map, and opens and closes the current block. Every method does
    to the builder exactly what its function in `Lower` says. */
module FnLowererPass {
  import opened Wrappers
  import opened Hir
  import opened Mir
  import opened Lower

  lemma StartGrows(params: seq<Sym>, i: nat)
    requires i < |params|
    ensures Start(params[..i + 1]) == Alloc(Start(params[..i]), Some(params[i]))
  {
    assert params[..i + 1] == params[..i] + [params[i]];
    assert Start(params[..i + 1]).locals == Start(params[..i]).locals + [Some(params[i])];
  }

  class FnLowerer {
    const contracts: Contracts
    var locals: seq<Option<Sym>>
    var localOf: map<Sym, nat>
    var blocks: seq<BasicBlock>
    var cur: nat
    var curClosed: bool

    constructor (contracts: Contracts, params: seq<Sym>)
      ensures this.contracts == contracts && Valid() && View() == Start(params)
    {
      this.contracts := contracts;
      locals, localOf, blocks, cur, curClosed := [], map[], [BasicBlock(0, [], Pending)], 0, false;
      new;
      assert Valid() && View() == Start(params[..0]);
      hide SlotOf, Start;
      var i := 0;
      while i < |params|
        invariant 0 <= i <= |params| && Valid()
        invariant View() == Start(params[..i])
      {
        var l := AllocLocal(Some(params[i]));
        localOf := localOf[params[i] := l];
        StartGrows(params, i);
        i := i + 1;
      }
      assert params[..i] == params;
    }

    ghost function View(): Builder
      reads this
    {
      Builder(blocks, locals, cur, curClosed)
    }

    /** The slot map is the last allocation made for each binding. */
    ghost predicate Mapped()
      reads this
    {
      forall s: Sym :: if s in localOf then SlotOf(locals, s) == Some(localOf[s]) else SlotOf(locals, s).None?
    }

    ghost predicate Valid()
      reads this
    {
      cur < |blocks| && Mapped()
    }

    // ---------- infrastructure ----------

    /** The map is stale for `sym` until the caller records the new slot. */
    method AllocLocal(sym: Option<Sym>) returns (l: nat)
      requires Valid()
      modifies this`locals
      ensures View() == Alloc(old(View()), sym) && l == old(|locals|)
      ensures forall s: Sym :: SlotOf(locals, s) == (if sym == Some(s) then Some(l) else SlotOf(old(locals), s))
    {
      l := |locals|;
      ghost var was := locals;
      locals := locals + [sym];
      assert locals[..|was|] == was;
    }

    method Temp() returns (t: nat)
      requires Valid()
      modifies this`locals
      ensures Valid() && View() == Alloc(old(View()), None) && t == old(|locals|)
    {
      t := AllocLocal(None);
    }

    method LocalOf(s: Sym) returns (l: nat)
      requires Valid()
      modifies this`locals, this`localOf
      ensures Valid() && (View(), l) == LocalFor(old(View()), s)
    {
      if s in localOf {
        l := localOf[s];
      } else {
        l := AllocLocal(Some(s));
        localOf := localOf[s := l];
      }
    }

    method NewBlock() returns (b: nat)
      requires Valid()
      modifies this`blocks
      ensures Valid() && View() == AddBlock(old(View())) && b == old(|blocks|)
    {
      b := |blocks|;
      blocks := blocks + [BasicBlock(b, [], Pending)];
    }

    method OpenIfClosed()
      requires Valid()
      modifies this`blocks, this`cur, this`curClosed
      ensures Valid() && View() == EnsureOpen(old(View())) && |old(blocks)| <= |blocks|
    {
      if curClosed {
        var b := NewBlock();
        cur, curClosed := b, false;
      }
    }

    method EmitStmt(s: MStmt)
      requires Valid()
      modifies this`blocks, this`cur, this`curClosed
      ensures Valid() && View() == Emit(old(View()), s) && |old(blocks)| <= |blocks|
    {
      OpenIfClosed();
      blocks := blocks[cur := blocks[cur].(stmts := blocks[cur].stmts + [s])];
    }

    method CloseBlock(t: Term)
      requires Valid()
      modifies this`blocks, this`cur, this`curClosed
      ensures Valid() && View() == Close(old(View()), t) && |old(blocks)| <= |blocks|
    {
      OpenIfClosed();
      blocks := blocks[cur := blocks[cur].(term := t)];
      curClosed := true;
    }

    method Resume(b: nat)
      requires Valid() && b < |blocks|
      modifies this`cur, this`curClosed
      ensures Valid() && View() == Enter(old(View()), b)
    {
      cur, curClosed := b, false;
    }

    method StoreTemp(rv: Rvalue) returns (o: Operand)
      requires Valid()
      modifies this
      ensures Valid() && (View(), o) == EmitTemp(old(View()), rv) && |old(blocks)| <= |blocks|
    {
      var t := Temp();
      EmitStmt(Set(t, [], rv));
      o := Place(t, []);
    }

    // ---------- places ----------

    method EvalPlace(e: Expr) returns (o: Operand)
      requires Valid()
      modifies this
      ensures Valid() && (View(), o) == LowerPlace(contracts, e, old(View()))
      decreases e, if e.Var? || e.Field? then 3 else 5
    {
      hide LocalFor, EmitTemp, LowerExpr;
      if e.Var? {
        var l := LocalOf(e.sym);
        o := Place(l, []);
      } else if e.Field? {
        var p := EvalPlace(e.base);
        o := Place(p.local, p.proj + [e.field]);
      } else {
        o := Eval(e);
        if o.Const? {
          o := StoreTemp(Use(o));
        }
      }
    }

    // ---------- expressions ----------

    method Eval(e: Expr) returns (o: Operand)
      requires Valid()
      modifies this
      ensures Valid() && (View(), o) == LowerExpr(contracts, e, old(View()))
      decreases e, 4
    {
      hide LowerPlace, LowerAll, EmitTemp, LowerLogic, LowerIf, LowerStmts, LowerMatch, LowerRange, LowerEach, Mapped;
      match e
      case Lit(v) => o := Const(v);
      case Poison => o := Const(UnitV);
      case Var(_) => o := EvalPlace(e);
      case Field(_, _, _) => o := EvalPlace(e);
      case Prim(op, args) =>
        var ops := EvalAll(args);
        o := StoreTemp(Compute(op, ops, ContractList(contracts, op)));
      case Logic(_, _, _) => o := ShortCircuit(e);
      case If(_, _, _, _) => o := EvalIf(e);
      case Block(stmts, tail) =>
        DoStmts(stmts);
        if tail.Some? {
          o := Eval(tail.value);
        } else {
          o := Const(UnitV);
        }
      case Match(_, _, _) => o := MatchExpr(e);
      case ForRange(_, _, _, _) =>
        RangeLoop(e);
        o := Const(UnitV);
      case ForEach(_, _, _) =>
        EachLoop(e);
        o := Const(UnitV);
    }

    method EvalAll(args: seq<Expr>) returns (ops: seq<Operand>)
      requires Valid()
      modifies this
      ensures Valid() && (View(), ops) == LowerAll(contracts, args, old(View()))
      decreases args, 0
    {
      hide LowerExpr, Mapped;
      ops := [];
      var i := 0;
      assert args[0..] == args;
      ghost var whole := LowerAll(contracts, args, View());
      assert [] + whole.1 == whole.1;
      while i < |args|
        invariant 0 <= i <= |args| && Valid()
        invariant var (B, os) := LowerAll(contracts, args[i..], View());
          (B, ops + os) == whole
      {
        assert args[i..][0] == args[i] && args[i..][1..] == args[i + 1..];
        ghost var (B, os) := LowerAll(contracts, args[i..], View());
        var o := Eval(args[i]);
        ghost var rest := LowerAll(contracts, args[i + 1..], View()).1;
        assert os == [o] + rest && ops + os == (ops + [o]) + rest;
        ops := ops + [o];
        i := i + 1;
      }
      assert ops + [] == ops;
    }

    method ShortCircuit(e: Expr) returns (o: Operand)
      requires Valid() && e.Logic?
      modifies this
      ensures Valid() && (View(), o) == LowerLogic(contracts, e, old(View()))
      decreases e, 3
    {
      hide LowerExpr, LogicFork, LogicTail, Mapped;
      var cond := Eval(e.lhs);
      var result, first := SplitLogic(cond, e.isOr);
      var value := Eval(e.rhs);
      JoinLogic(result, value, first, e.isOr);
      o := Place(result, []);
    }

    /** Branch before the right operand; its block, the skip block and the join block follow
        each other from `first`. */
    method SplitLogic(cond: Operand, isOr: bool) returns (result: nat, first: nat)
      requires Valid()
      modifies this
      ensures Valid() && View() == LogicFork(old(View()), cond, isOr) && first + 2 < |blocks|
      ensures result == old(|locals|) && first == old(|blocks|)
    {
      hide Close, AddBlocks, Mapped;
      result := Temp();
      ThreeBlocks(View());
      first := NewBlock();
      var skipBlock := NewBlock();
      var join := NewBlock();
      CloseBlock(Branch(cond, if isOr then skipBlock else first, if isOr then first else skipBlock));
      Resume(first);
    }

    method JoinLogic(result: nat, value: Operand, first: nat, isOr: bool)
      requires Valid() && first + 2 < |blocks|
      modifies this
      ensures Valid() && View() == LogicTail(old(View()), result, value, first, isOr)
    {
      hide Emit, Close, Mapped;
      if !curClosed {
        EmitStmt(Set(result, [], Use(value)));
        CloseBlock(Goto(first + 2));
      }
      Resume(first + 1);
      EmitStmt(Set(result, [], Use(Const(BoolV(isOr)))));
      CloseBlock(Goto(first + 2));
      Resume(first + 2);
    }

    method ResultTemp(unit: bool) returns (result: Option<nat>)
      requires Valid()
      modifies this`locals
      ensures Valid() && (View(), result) == ResultSlot(old(View()), unit)
    {
      if unit {
        result := None;
      } else {
        var t := Temp();
        result := Some(t);
      }
    }

    method EvalIf(e: Expr) returns (o: Operand)
      requires Valid() && e.If?
      modifies this
      ensures Valid() && (View(), o) == LowerIf(contracts, e, old(View()))
      decreases e, 3
    {
      hide LowerExpr, LowerBranch, Mapped, ResultSlot, Fork;
      var c := Eval(e.cond);
      var result := ResultTemp(e.unit);
      var elseBlock, join := OpenBranches(c, e.els.Some?);
      DoBranch(e.thn, result, join);
      if e.els.Some? {
        Resume(elseBlock);
        DoBranch(e.els.value, result, join);
      }
      Resume(join);
      o := ResultOperand(result);
    }

    /** The blocks of an `if`, the branch to them, and the step into the first one. */
    method OpenBranches(c: Operand, els: bool) returns (elseBlock: nat, join: nat)
      requires Valid()
      modifies this`blocks, this`cur, this`curClosed
      ensures var first := |old(blocks)|;
        elseBlock == (if els then first + 1 else first) && join == (if els then first + 2 else first + 1) &&
        Valid() && View() == Fork(old(View()), if els then 3 else 2, Branch(c, first, first + 1), first) &&
        join < |blocks|
    {
      hide Close, AddBlocks, Mapped;
      ThreeBlocks(View());
      var thenBlock := NewBlock();
      elseBlock := thenBlock;
      if els {
        elseBlock := NewBlock();
      }
      join := NewBlock();
      CloseBlock(Branch(c, thenBlock, if els then elseBlock else join));
      Resume(thenBlock);
    }

    method DoBranch(e: Expr, result: Option<nat>, join: nat)
      requires Valid()
      modifies this
      ensures Valid() && View() == LowerBranch(contracts, e, result, join, old(View()))
      decreases e, 5
    {
      var v := Eval(e);
      if result.Some? {
        EmitStmt(Set(result.value, [], Use(v)));
      }
      if !curClosed {
        CloseBlock(Goto(join));
      }
    }

    method MatchExpr(e: Expr) returns (o: Operand)
      requires Valid() && e.Match?
      modifies this
      ensures Valid() && (View(), o) == LowerMatch(contracts, e, old(View()))
      decreases e, 3
    {
      var scrut := Eval(e.scrut);
      var result := ResultTemp(e.unit);
      var join := SwitchTo(scrut, e.arms);
      DoArms(e.arms, join + 1, scrut, result, join);
      Resume(join);
      o := ResultOperand(result);
    }

    /** The join block, one block per arm, and the dispatch over them. */
    method SwitchTo(scrut: Operand, arms: seq<Arm>) returns (join: nat)
      requires Valid()
      modifies this`blocks, this`cur, this`curClosed
      ensures Valid() && View() == MatchFork(old(View()), scrut, arms) && join == old(|blocks|)
    {
      hide Mapped;
      join := NewBlock();
      var listed: seq<(nat, nat)> := [];
      var default: Option<nat> := None;
      var i := 0;
      while i < |arms|
        invariant 0 <= i <= |arms| && Valid()
        invariant View() == AddBlocks(old(View()), 1 + i)
        invariant listed + ArmTargets(arms[i..], join + 1 + i) == ArmTargets(arms, join + 1)
        invariant (if default.Some? then default else DefaultTarget(arms[i..], join + 1 + i)) ==
          DefaultTarget(arms, join + 1)
        modifies this`blocks
      {
        assert arms[i..][0] == arms[i] && arms[i..][1..] == arms[i + 1..];
        var bb := NewBlock();
        match arms[i].pat {
          case VariantPat(variant, _) =>
            ghost var rest := ArmTargets(arms[i + 1..], join + 2 + i);
            assert listed + ([(variant, bb)] + rest) == (listed + [(variant, bb)]) + rest;
            listed := listed + [(variant, bb)];
          case BindPat(_) => default := if default.Some? then default else Some(bb);
          case PoisonPat =>
        }
        i := i + 1;
      }
      assert listed + [] == listed;
      CloseBlock(Switch(scrut, listed, default));
    }

    method DoArms(arms: seq<Arm>, bb: nat, scrut: Operand, result: Option<nat>, join: nat)
      requires Valid() && bb + |arms| <= |blocks|
      modifies this
      ensures Valid() && View() == LowerArms(contracts, arms, bb, scrut, result, join, old(View()))
      decreases arms, 0
    {
      hide LowerArm, Mapped;
      var i := 0;
      while i < |arms|
        invariant 0 <= i <= |arms| && Valid() && bb + |arms| <= |blocks|
        invariant LowerArms(contracts, arms[i..], bb + i, scrut, result, join, View()) ==
                  LowerArms(contracts, arms, bb, scrut, result, join, old(View()))
      {
        assert arms[i..][0] == arms[i] && arms[i..][1..] == arms[i + 1..];
        Resume(bb + i);
        DoArm(arms[i], scrut, result, join);
        i := i + 1;
      }
    }

    method DoArm(arm: Arm, scrut: Operand, result: Option<nat>, join: nat)
      requires Valid()
      modifies this
      ensures Valid() && View() == LowerArm(contracts, arm, scrut, result, join, old(View()))
      decreases arm, 5
    {
      BindPattern(arm.pat, scrut);
      DoBranch(arm.body, result, join);
    }

    method BindPattern(p: Pat, scrut: Operand)
      requires Valid()
      modifies this
      ensures Valid() && View() == LowerPat(p, scrut, old(View()))
    {
      hide LocalFor, Emit, Mapped;
      match p
      case VariantPat(_, binds) =>
        var i := 0;
        while i < |binds|
          invariant 0 <= i <= |binds| && Valid()
          invariant View() == LowerBinds(binds, i, scrut, old(View()))
        {
          if binds[i].Some? {
            var l := LocalOf(binds[i].value);
            EmitStmt(Set(l, [], Payload(scrut, i)));
          }
          i := i + 1;
        }
      case BindPat(sym) =>
        if sym.Some? {
          var l := LocalOf(sym.value);
          EmitStmt(Set(l, [], Duplicate(scrut)));
        }
      case PoisonPat =>
    }

    // ---------- loops ----------

    /** A loop variable always gets a slot of its own. */
    method LoopVar(x: Sym) returns (l: nat)
      requires Valid()
      modifies this`locals, this`localOf
      ensures Valid() && View() == Alloc(old(View()), Some(x)) && l == old(|locals|)
    {
      l := AllocLocal(Some(x));
      localOf := localOf[x := l];
    }

    method Bound(bound: Option<Expr>) returns (o: Operand)
      requires Valid()
      modifies this
      ensures Valid() && (View(), o) == LowerBound(contracts, bound, old(View()))
      decreases bound, 5
    {
      o := Const(IntV(0));
      if bound.Some? {
        o := Eval(bound.value);
      }
      o := StoreTemp(Use(o));
    }

    method RangeLoop(e: Expr)
      requires Valid() && e.ForRange?
      modifies this
      ensures Valid() && View() == LowerRange(contracts, e, old(View()))
      decreases e, 3
    {
      var x := LoopVar(e.var_);
      var lo := Bound(e.lo);
      var hi := Bound(e.hi);
      EmitStmt(Set(x, [], Use(lo)));
      DoLoop(e.body, x, hi, None, x);
    }

    method EachLoop(e: Expr)
      requires Valid() && e.ForEach?
      modifies this
      ensures Valid() && View() == LowerEach(contracts, e, old(View()))
      decreases e, 3
    {
      var x := LoopVar(e.var_);
      var o := Eval(e.iter);
      var arr := StoreTemp(Use(o));
      var len := StoreTemp(Compute(Len, [arr], []));
      var idx := Temp();
      EmitStmt(Set(idx, [], Use(Const(IntV(0)))));
      DoLoop(e.body, idx, len, Some(arr), x);
    }

    /** Header, body and exit block; the header tests `counter < limit`. */
    method DoHead(counter: nat, limit: Operand) returns (head: nat)
      requires Valid()
      modifies this
      ensures Valid() && View() == LoopHead(old(View()), counter, limit)
      ensures head == old(|blocks|) && head + 2 < |blocks|
    {
      hide EmitTemp, Close, AddBlocks, Mapped;
      ThreeBlocks(View());
      head := NewBlock();
      var bodyBlock := NewBlock();
      var exit := NewBlock();
      CloseBlock(Goto(head));
      Resume(head);
      var cond := StoreTemp(Compute(Bin(Lt), [Place(counter, []), limit], []));
      CloseBlock(Branch(cond, bodyBlock, exit));
      Resume(bodyBlock);
    }

    method DoLoop(body: Expr, counter: nat, limit: Operand, elem: Option<Operand>, x: nat)
      requires Valid()
      modifies this
      ensures Valid() && View() == LowerLoop(contracts, body, counter, limit, elem, x, old(View()))
      decreases body, 5
    {
      hide LowerExpr, Emit, Close, LoopHead, Mapped;
      var head := DoHead(counter, limit);
      if elem.Some? {
        EmitStmt(Set(x, [], Compute(Index(true), [elem.value, Place(counter, [])], [])));
      }
      var _ := Eval(body);
      if blocks[cur].term.Pending? {
        EmitStmt(Set(counter, [], Compute(Bin(Add), [Place(counter, []), Const(IntV(1))], [])));
        CloseBlock(Goto(head));
      }
      Resume(head + 2);
    }

    // ---------- statements ----------

    method DoStmts(stmts: seq<Stmt>)
      requires Valid()
      modifies this
      ensures Valid() && View() == LowerStmts(contracts, stmts, old(View()))
      decreases stmts, 0
    {
      var i := 0;
      while i < |stmts|
        invariant 0 <= i <= |stmts| && Valid()
        invariant LowerStmts(contracts, stmts[i..], View()) == LowerStmts(contracts, stmts, old(View()))
      {
        assert stmts[i..][0] == stmts[i] && stmts[i..][1..] == stmts[i + 1..];
        DoStmt(stmts[i]);
        i := i + 1;
      }
    }

    method DoStmt(s: Stmt)
      requires Valid()
      modifies this
      ensures Valid() && View() == LowerStmt(contracts, s, old(View()))
      decreases s, 1
    {
      match s
      case Let(x, init) =>
        var l := LocalOf(x);
        if init.Some? {
          var o := Eval(init.value);
          EmitStmt(Set(l, [], Use(o)));
        }
      case Assign(x, path, e) =>
        var o := Eval(e);
        var l := LocalOf(x);
        EmitStmt(Set(l, path, Use(o)));
      case ExprStmt(e) => var _ := Eval(e);
      case Return(result) =>
        var o := Const(UnitV);
        if result.Some? {
          o := Eval(result.value);
        }
        CloseBlock(Leave(o));
    }

    /** Blocks nobody closed fall off the end with unit. */
    method SweepBlocks()
      requires Valid()
      modifies this`blocks
      ensures Valid() && View() == old(View()).(blocks := Sweep(old(blocks)))
    {
      var i := 0;
      while i < |blocks|
        invariant 0 <= i <= |blocks| == |old(blocks)|
        invariant forall b ::
          0 <= b < |blocks| ==> blocks[b] == if b < i then SweepBlock(old(blocks)[b]) else old(blocks)[b]
      {
        if blocks[i].term.Pending? {
          blocks := blocks[i := blocks[i].(term := Leave(Const(UnitV)))];
        }
        i := i + 1;
      }
    }
  }

  /** Adding several blocks at once adds them one after the other. */
  lemma ThreeBlocks(L: Builder)
    ensures AddBlocks(L, 2) == AddBlock(AddBlock(L)) && AddBlocks(L, 3) == AddBlock(AddBlock(AddBlock(L)))
  {
    assert AddBlocks(L, 1) == AddBlock(L);
    assert AddBlocks(L, 2) == AddBlock(AddBlocks(L, 1));
    assert AddBlocks(L, 3) == AddBlock(AddBlocks(L, 2));
  }

  /** Lowers one function. */
  method LowerFunction(contracts: Contracts, params: seq<Sym>, root: Expr) returns (body: Body)
    ensures body == LowerFn(contracts, params, root)
  {
    var l := new FnLowerer(contracts, params);
    var o := l.Eval(root);
    if l.blocks[l.cur].term.Pending? {
      l.CloseBlock(Leave(o));
    }
    l.SweepBlocks();
    body := Body(|params|, l.locals, l.blocks);
  }
}
