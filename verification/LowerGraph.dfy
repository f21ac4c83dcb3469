/** Every function lowers to a well-formed graph: block ids are positions, every jump has a
    target, every operand and destination is a declared local. This holds for all trees,
    including code behind a `return`. */
module LowerGraph {
  import opened Wrappers
  import opened Hir
  import opened Mir
  import opened Lower
  import opened LowerShape
  import LowerCorrect

  // ---------- what a graph may mention ----------

  predicate OpIn(o: Operand, nl: nat) {
    o.Place? ==> o.local < nl
  }

  predicate OpsIn(os: seq<Operand>, nl: nat) {
    forall o <- os :: OpIn(o, nl)
  }

  predicate RvalueIn(rv: Rvalue, nl: nat) {
    match rv
    case Use(o) => OpIn(o, nl)
    case Compute(_, args, _) => OpsIn(args, nl)
    case Payload(o, _) => OpIn(o, nl)
    case Duplicate(o) => OpIn(o, nl)
  }

  predicate StmtIn(s: MStmt, nl: nat) {
    s.dst < nl && RvalueIn(s.val, nl)
  }

  predicate TermIn(t: Term, nb: nat, nl: nat) {
    match t
    case Pending => true
    case Goto(b) => b < nb
    case Branch(c, b, d) => OpIn(c, nl) && b < nb && d < nb
    case Switch(s, arms, d) => OpIn(s, nl) && (forall a <- arms :: a.1 < nb) && (d.Some? ==> d.value < nb)
    case Leave(o) => OpIn(o, nl)
  }

  predicate BlockIn(b: BasicBlock, i: nat, nb: nat, nl: nat) {
    b.id == i && (forall s <- b.stmts :: StmtIn(s, nl)) && TermIn(b.term, nb, nl)
  }

  ghost predicate Sane(L: Builder) {
    forall i {:trigger L.blocks[i]} :: 0 <= i < |L.blocks| ==> BlockIn(L.blocks[i], i, |L.blocks|, |L.locals|)
  }

  /** `M` is sane, continues in an existing block and has at least the blocks and locals of `L`. */
  ghost predicate More(L: Builder, M: Builder) {
    InRange(M) && Sane(M) && |L.blocks| <= |M.blocks| && |L.locals| <= |M.locals|
  }

  lemma BlockInMore(b: BasicBlock, i: nat, nb: nat, nl: nat, mb: nat, ml: nat)
    requires BlockIn(b, i, nb, nl) && nb <= mb && nl <= ml
    ensures BlockIn(b, i, mb, ml)
  {
  }

  // ---------- builder steps ----------

  lemma {:induction false} AddBlocksMore(L: Builder, n: nat)
    requires Sane(L) && InRange(L)
    ensures More(L, AddBlocks(L, n))
    decreases n
  {
    if n > 0 {
      AddBlocksMore(L, n - 1);
      AddBlockMore(AddBlocks(L, n - 1));
    }
  }

  lemma AddBlockMore(L: Builder)
    requires Sane(L) && InRange(L)
    ensures More(L, AddBlock(L))
  {
    var M := AddBlock(L);
    forall i | 0 <= i < |M.blocks|
      ensures BlockIn(M.blocks[i], i, |M.blocks|, |M.locals|)
    {
      if i < |L.blocks| {
        BlockInMore(L.blocks[i], i, |L.blocks|, |L.locals|, |M.blocks|, |M.locals|);
      }
    }
  }

  lemma AllocMore(L: Builder, s: Option<Sym>)
    requires Sane(L) && InRange(L)
    ensures More(L, Alloc(L, s))
  {
    var M := Alloc(L, s);
    forall i | 0 <= i < |M.blocks|
      ensures BlockIn(M.blocks[i], i, |M.blocks|, |M.locals|)
    {
      BlockInMore(L.blocks[i], i, |L.blocks|, |L.locals|, |M.blocks|, |M.locals|);
    }
  }

  lemma LocalForMore(L: Builder, s: Sym)
    requires Sane(L) && InRange(L)
    ensures More(L, LocalFor(L, s).0)
  {
    AllocMore(L, Some(s));
  }

  lemma EnsureOpenMore(L: Builder)
    requires Sane(L) && InRange(L)
    ensures More(L, EnsureOpen(L))
  {
    AddBlockMore(L);
  }

  lemma EmitMore(L: Builder, s: MStmt)
    requires Sane(L) && InRange(L) && StmtIn(s, |L.locals|)
    ensures More(L, Emit(L, s))
  {
    hide StmtIn, TermIn;
    EnsureOpenMore(L);
  }

  lemma CloseMore(L: Builder, t: Term)
    requires Sane(L) && InRange(L) && TermIn(t, |L.blocks|, |L.locals|)
    ensures More(L, Close(L, t))
  {
    EnsureOpenMore(L);
    var O := EnsureOpen(L);
    assert TermIn(t, |O.blocks|, |O.locals|);
  }

  lemma EnterMore(L: Builder, b: nat)
    requires Sane(L) && InRange(L) && b < |L.blocks|
    ensures More(L, Enter(L, b))
  {
  }

  // ---------- emission patterns ----------

  lemma EmitTempMore(L: Builder, rv: Rvalue)
    requires Sane(L) && InRange(L) && RvalueIn(rv, |L.locals|)
    ensures var (M, o) := EmitTemp(L, rv); More(L, M) && OpIn(o, |M.locals|) && |L.locals| < |M.locals|
  {
    hide Sane;
    AllocMore(L, None);
    assert RvalueIn(rv, |L.locals| + 1);
    EmitMore(Alloc(L, None), Set(|L.locals|, [], rv));
  }

  lemma EnsurePlaceMore(L: Builder, o: Operand)
    requires Sane(L) && InRange(L) && OpIn(o, |L.locals|)
    ensures var (M, p) := EnsurePlace(L, o); More(L, M) && OpIn(p, |M.locals|)
  {
    hide Sane;
    if o.Const? {
      EmitTempMore(L, Use(o));
    }
  }

  lemma ResultSlotMore(L: Builder, unit: bool)
    requires Sane(L) && InRange(L)
    ensures var (M, r) := ResultSlot(L, unit); More(L, M) && (r.Some? ==> r.value < |M.locals|)
  {
    AllocMore(L, None);
  }

  lemma EndArmMore(L: Builder, result: Option<nat>, v: Operand, join: nat)
    requires Sane(L) && InRange(L) && (result.Some? ==> result.value < |L.locals|) && OpIn(v, |L.locals|)
    requires join < |L.blocks|
    ensures More(L, EndArm(L, result, v, join))
  {
    hide Sane, Emit, Close;
    var A := if result.Some? then Emit(L, Set(result.value, [], Use(v))) else L;
    if result.Some? {
      EmitMore(L, Set(result.value, [], Use(v)));
    }
    if !A.closed {
      CloseMore(A, Goto(join));
    }
  }

  lemma ForkMore(L: Builder, n: nat, t: Term, enter: nat)
    requires Sane(L) && InRange(L) && TermIn(t, |L.blocks| + n, |L.locals|) && enter < |L.blocks| + n
    ensures More(L, Fork(L, n, t, enter)) && |L.blocks| + n <= |Fork(L, n, t, enter).blocks|
  {
    hide Sane, Close;
    AddBlocksMore(L, n);
    CloseMore(AddBlocks(L, n), t);
    EnterMore(Close(AddBlocks(L, n), t), enter);
  }

  lemma LogicForkMore(L: Builder, c: Operand, isOr: bool)
    requires Sane(L) && InRange(L) && OpIn(c, |L.locals|)
    ensures var M := LogicFork(L, c, isOr); More(L, M) && |L.blocks| + 3 <= |M.blocks| && |L.locals| < |M.locals|
  {
    hide Sane, Fork;
    var first := |L.blocks|;
    AllocMore(L, None);
    ForkMore(Alloc(L, None), 3, Branch(c, if isOr then first + 1 else first, if isOr then first else first + 1), first);
  }

  lemma LogicTailMore(L: Builder, t: nat, v: Operand, first: nat, isOr: bool)
    requires Sane(L) && InRange(L) && t < |L.locals| && OpIn(v, |L.locals|) && first + 2 < |L.blocks|
    ensures More(L, LogicTail(L, t, v, first, isOr))
  {
    hide Sane, Emit, Close;
    if !L.closed {
      EmitMore(L, Set(t, [], Use(v)));
      CloseMore(Emit(L, Set(t, [], Use(v))), Goto(first + 2));
    }
    var A := if L.closed then L else Close(Emit(L, Set(t, [], Use(v))), Goto(first + 2));
    EnterMore(A, first + 1);
    var s := Set(t, [], Use(Const(BoolV(isOr))));
    var B := Enter(A, first + 1);
    EmitMore(B, s);
    CloseMore(Emit(B, s), Goto(first + 2));
    EnterMore(Close(Emit(B, s), Goto(first + 2)), first + 2);
  }

  lemma LoopHeadMore(L: Builder, counter: nat, limit: Operand)
    requires Sane(L) && InRange(L) && counter < |L.locals| && OpIn(limit, |L.locals|)
    ensures var M := LoopHead(L, counter, limit); More(L, M) && |L.blocks| + 3 <= |M.blocks|
  {
    hide Sane, Fork, EmitTemp, Close;
    var head := |L.blocks|;
    ForkMore(L, 3, Goto(head), head);
    var A := Fork(L, 3, Goto(head), head);
    var rv := Compute(Bin(Lt), [Place(counter, []), limit], []);
    assert RvalueIn(rv, |A.locals|);
    EmitTempMore(A, rv);
    var (B, c) := EmitTemp(A, rv);
    CloseMore(B, Branch(c, head + 1, head + 2));
    EnterMore(Close(B, Branch(c, head + 1, head + 2)), head + 1);
  }

  lemma LoopEndMore(L: Builder, counter: nat, head: nat)
    requires Sane(L) && InRange(L) && counter < |L.locals| && head < |L.blocks|
    ensures More(L, LoopEnd(L, counter, head))
  {
    hide Sane, Emit, Close;
    if L.blocks[L.cur].term.Pending? {
      var s := Set(counter, [], Compute(Bin(Add), [Place(counter, []), Const(IntV(1))], []));
      assert StmtIn(s, |L.locals|);
      EmitMore(L, s);
      CloseMore(Emit(L, s), Goto(head));
    }
  }

  lemma {:induction false} ArmTargetsIn(arms: seq<Arm>, bb: nat)
    ensures forall a <- ArmTargets(arms, bb) :: a.1 < bb + |arms|
    ensures var d := DefaultTarget(arms, bb); d.Some? ==> d.value < bb + |arms|
  {
    if arms != [] {
      ArmTargetsIn(arms[1..], bb + 1);
    }
  }

  lemma MatchForkMore(L: Builder, s: Operand, arms: seq<Arm>)
    requires Sane(L) && InRange(L) && OpIn(s, |L.locals|)
    ensures var M := MatchFork(L, s, arms); More(L, M) && |L.blocks| + 1 + |arms| <= |M.blocks|
  {
    hide Sane, Close;
    AddBlocksMore(L, 1 + |arms|);
    ArmTargetsIn(arms, |L.blocks| + 1);
    CloseMore(AddBlocks(L, 1 + |arms|),
      Switch(s, ArmTargets(arms, |L.blocks| + 1), DefaultTarget(arms, |L.blocks| + 1)));
  }

  lemma {:induction false} LowerBindsMore(binds: seq<Option<Sym>>, n: nat, scrut: Operand, L: Builder)
    requires n <= |binds| && Sane(L) && InRange(L) && OpIn(scrut, |L.locals|)
    ensures More(L, LowerBinds(binds, n, scrut, L))
    decreases n
  {
    hide Sane, Emit, LocalFor;
    if n > 0 {
      LowerBindsMore(binds, n - 1, scrut, L);
      var A := LowerBinds(binds, n - 1, scrut, L);
      if binds[n - 1].Some? {
        LocalForMore(A, binds[n - 1].value);
        var (B, l) := LocalFor(A, binds[n - 1].value);
        EmitMore(B, Set(l, [], Payload(scrut, n - 1)));
      }
    }
  }

  lemma LowerPatMore(p: Pat, scrut: Operand, L: Builder)
    requires Sane(L) && InRange(L) && OpIn(scrut, |L.locals|)
    ensures More(L, LowerPat(p, scrut, L))
  {
    hide Sane, Emit, LocalFor;
    if p.VariantPat? {
      LowerBindsMore(p.binds, |p.binds|, scrut, L);
    } else if p.BindPat? && p.sym.Some? {
      LocalForMore(L, p.sym.value);
      var (B, l) := LocalFor(L, p.sym.value);
      EmitMore(B, Set(l, [], Duplicate(scrut)));
    }
  }

  // ---------- expressions ----------

  ghost predicate Good(L: Builder, r: (Builder, Operand)) {
    More(L, r.0) && OpIn(r.1, |r.0.locals|)
  }

  lemma {:induction false} ExprMore(cs: Contracts, e: Expr, L: Builder)
    requires Sane(L) && InRange(L)
    ensures Good(L, LowerExpr(cs, e, L))
    decreases e, 4
  {
    hide Sane, EmitTemp, LowerLogic, LowerIf, LowerMatch, LowerRange, LowerEach, LowerPlace, LowerStmts, LowerAll;
    match e
    case Lit(_) =>
    case Poison =>
    case Var(_) => PlaceMore(cs, e, L);
    case Field(_, _, _) => PlaceMore(cs, e, L);
    case Prim(op, args) =>
      AllMore(cs, args, L);
      var (A, ops) := LowerAll(cs, args, L);
      EmitTempMore(A, Compute(op, ops, ContractList(cs, op)));
    case Logic(_, _, _) => LogicMore(cs, e, L);
    case If(_, _, _, _) => IfMore(cs, e, L);
    case Block(stmts, tail) =>
      StmtsMore(cs, stmts, L);
      if tail.Some? {
        ExprMore(cs, tail.value, LowerStmts(cs, stmts, L));
      }
    case Match(_, _, _) => MatchMore(cs, e, L);
    case ForRange(_, _, _, _) => RangeMore(cs, e, L);
    case ForEach(_, _, _) => EachMore(cs, e, L);
  }

  lemma {:induction false} PlaceMore(cs: Contracts, e: Expr, L: Builder)
    requires Sane(L) && InRange(L)
    ensures Good(L, LowerPlace(cs, e, L))
    decreases e, if e.Var? || e.Field? then 3 else 5
  {
    hide Sane, EnsurePlace, LocalFor;
    if e.Var? {
      LocalForMore(L, e.sym);
    } else if e.Field? {
      PlaceMore(cs, e.base, L);
    } else {
      ExprMore(cs, e, L);
      var (A, o) := LowerExpr(cs, e, L);
      EnsurePlaceMore(A, o);
    }
  }

  lemma {:induction false} AllMore(cs: Contracts, args: seq<Expr>, L: Builder)
    requires Sane(L) && InRange(L)
    ensures var (M, ops) := LowerAll(cs, args, L); More(L, M) && OpsIn(ops, |M.locals|)
    decreases args, 0
  {
    hide Sane;
    if args != [] {
      ExprMore(cs, args[0], L);
      AllMore(cs, args[1..], LowerExpr(cs, args[0], L).0);
    }
  }

  lemma {:induction false} LogicMore(cs: Contracts, e: Expr, L: Builder)
    requires Sane(L) && InRange(L) && e.Logic?
    ensures Good(L, LowerLogic(cs, e, L))
    decreases e, 3
  {
    hide Sane, LogicFork, LogicTail;
    ExprMore(cs, e.lhs, L);
    var (A, c) := LowerExpr(cs, e.lhs, L);
    LogicForkMore(A, c, e.isOr);
    var F := LogicFork(A, c, e.isOr);
    ExprMore(cs, e.rhs, F);
    var (B, v) := LowerExpr(cs, e.rhs, F);
    LogicTailMore(B, |A.locals|, v, |A.blocks|, e.isOr);
  }

  lemma {:induction false} BranchMore(cs: Contracts, e: Expr, result: Option<nat>, join: nat, L: Builder)
    requires Sane(L) && InRange(L) && (result.Some? ==> result.value < |L.locals|) && join < |L.blocks|
    ensures More(L, LowerBranch(cs, e, result, join, L))
    decreases e, 5
  {
    hide Sane, EndArm;
    ExprMore(cs, e, L);
    var (A, v) := LowerExpr(cs, e, L);
    EndArmMore(A, result, v, join);
  }

  lemma {:induction false} IfMore(cs: Contracts, e: Expr, L: Builder)
    requires Sane(L) && InRange(L) && e.If?
    ensures Good(L, LowerIf(cs, e, L))
    decreases e, 3
  {
    hide Sane, Fork, ResultSlot, LowerBranch, TermIn;
    ExprMore(cs, e.cond, L);
    var (A, c) := LowerExpr(cs, e.cond, L);
    ResultSlotMore(A, e.unit);
    var (B, result) := ResultSlot(A, e.unit);
    var first := |B.blocks|;
    var n := if e.els.None? then 2 else 3;
    BranchIn(c, first, n, |B.locals|);
    ForkMore(B, n, Branch(c, first, first + 1), first);
    var F := Fork(B, n, Branch(c, first, first + 1), first);
    if e.els.None? {
      IfThenMore(cs, e, F, result, first);
    } else {
      IfElseMore(cs, e, F, result, first);
    }
  }

  lemma BranchIn(c: Operand, first: nat, n: nat, nl: nat)
    requires OpIn(c, nl) && n >= 2
    ensures TermIn(Branch(c, first, first + 1), first + n, nl)
  {
  }

  lemma {:induction false} IfThenMore(cs: Contracts, e: Expr, F: Builder, result: Option<nat>, first: nat)
    requires Sane(F) && InRange(F) && e.If? && first + 1 < |F.blocks| && (result.Some? ==> result.value < |F.locals|)
    ensures var C := Enter(LowerBranch(cs, e.thn, result, first + 1, F), first + 1);
      More(F, C) && InRange(C) && OpIn(ResultOperand(result), |C.locals|)
    decreases e, 2
  {
    hide Sane, LowerBranch;
    BranchMore(cs, e.thn, result, first + 1, F);
    EnterMore(LowerBranch(cs, e.thn, result, first + 1, F), first + 1);
  }

  lemma {:induction false} IfElseMore(cs: Contracts, e: Expr, F: Builder, result: Option<nat>, first: nat)
    requires Sane(F) && InRange(F) && e.If? && e.els.Some? && first + 2 < |F.blocks|
    requires result.Some? ==> result.value < |F.locals|
    ensures var D := Enter(LowerBranch(cs, e.thn, result, first + 2, F), first + 1);
      var M := Enter(LowerBranch(cs, e.els.value, result, first + 2, D), first + 2);
      More(F, M) && InRange(M) && OpIn(ResultOperand(result), |M.locals|)
    decreases e, 2
  {
    hide Sane, LowerBranch;
    BranchMore(cs, e.thn, result, first + 2, F);
    var C := LowerBranch(cs, e.thn, result, first + 2, F);
    EnterMore(C, first + 1);
    var D := Enter(C, first + 1);
    BranchMore(cs, e.els.value, result, first + 2, D);
    EnterMore(LowerBranch(cs, e.els.value, result, first + 2, D), first + 2);
  }

  lemma {:induction false} ArmsMore(cs: Contracts, arms: seq<Arm>, bb: nat, s: Operand, result: Option<nat>, join: nat,
        L: Builder)
    requires Sane(L) && InRange(L) && bb + |arms| <= |L.blocks| && OpIn(s, |L.locals|)
    requires (result.Some? ==> result.value < |L.locals|) && join < |L.blocks|
    ensures More(L, LowerArms(cs, arms, bb, s, result, join, L))
    decreases arms, 0
  {
    hide Sane, LowerArm;
    if arms != [] {
      EnterMore(L, bb);
      ArmMore(cs, arms[0], s, result, join, Enter(L, bb));
      ArmsMore(cs, arms[1..], bb + 1, s, result, join, LowerArm(cs, arms[0], s, result, join, Enter(L, bb)));
    }
  }

  lemma {:induction false} ArmMore(cs: Contracts, arm: Arm, s: Operand, result: Option<nat>, join: nat, L: Builder)
    requires Sane(L) && InRange(L) && OpIn(s, |L.locals|)
    requires (result.Some? ==> result.value < |L.locals|) && join < |L.blocks|
    ensures More(L, LowerArm(cs, arm, s, result, join, L))
    decreases arm, 5
  {
    hide Sane, LowerPat;
    LowerPatMore(arm.pat, s, L);
    BranchMore(cs, arm.body, result, join, LowerPat(arm.pat, s, L));
  }

  lemma {:induction false} MatchMore(cs: Contracts, e: Expr, L: Builder)
    requires Sane(L) && InRange(L) && e.Match?
    ensures Good(L, LowerMatch(cs, e, L))
    decreases e, 3
  {
    hide Sane, ResultSlot, MatchFork, LowerArms;
    ExprMore(cs, e.scrut, L);
    var (A, o) := LowerExpr(cs, e.scrut, L);
    ResultSlotMore(A, e.unit);
    var (B, result) := ResultSlot(A, e.unit);
    var join := |B.blocks|;
    MatchForkMore(B, o, e.arms);
    var F := MatchFork(B, o, e.arms);
    ArmsMore(cs, e.arms, join + 1, o, result, join, F);
    EnterMore(LowerArms(cs, e.arms, join + 1, o, result, join, F), join);
  }

  lemma {:induction false} BoundMore(cs: Contracts, bound: Option<Expr>, L: Builder)
    requires Sane(L) && InRange(L)
    ensures Good(L, LowerBound(cs, bound, L))
    decreases bound, 5
  {
    hide Sane, EmitTemp, LowerLogic, LowerIf, LowerMatch, LowerRange, LowerEach, LowerPlace, LowerStmts, LowerAll;
    if bound.None? {
      EmitTempMore(L, Use(Const(IntV(0))));
    } else {
      ExprMore(cs, bound.value, L);
      var (A, o) := LowerExpr(cs, bound.value, L);
      EmitTempMore(A, Use(o));
    }
  }

  lemma {:induction false} RangeMore(cs: Contracts, e: Expr, L: Builder)
    requires Sane(L) && InRange(L) && e.ForRange?
    ensures More(L, LowerRange(cs, e, L))
    decreases e, 3
  {
    hide Sane, Emit, LowerLoop, LowerBound;
    var V := Alloc(L, Some(e.var_));
    AllocMore(L, Some(e.var_));
    BoundMore(cs, e.lo, V);
    var (A, lo) := LowerBound(cs, e.lo, V);
    BoundMore(cs, e.hi, A);
    var (B, hi) := LowerBound(cs, e.hi, A);
    var s := Set(|L.locals|, [], Use(lo));
    EmitMore(B, s);
    LoopMore(cs, e.body, |L.locals|, hi, None, |L.locals|, Emit(B, s));
  }

  lemma {:induction false} EachMore(cs: Contracts, e: Expr, L: Builder)
    requires Sane(L) && InRange(L) && e.ForEach?
    ensures More(L, LowerEach(cs, e, L))
    decreases e, 3
  {
    hide Sane, EachHead, LowerLoop;
    var V := Alloc(L, Some(e.var_));
    AllocMore(L, Some(e.var_));
    ExprMore(cs, e.iter, V);
    var (A, o) := LowerExpr(cs, e.iter, V);
    EachHeadMore(A, o);
    var (B, arr, len, idx) := EachHead(A, o);
    LoopMore(cs, e.body, idx, len, Some(arr), |L.locals|, B);
  }

  lemma EachHeadMore(L: Builder, o: Operand)
    requires Sane(L) && InRange(L) && OpIn(o, |L.locals|)
    ensures var (B, arr, len, idx) := EachHead(L, o);
      More(L, B) && OpIn(arr, |B.locals|) && OpIn(len, |B.locals|) && idx < |B.locals|
  {
    hide Sane, Emit;
    EmitTempMore(L, Use(o));
    var (A, arr) := EmitTemp(L, Use(o));
    var rv := Compute(Len, [arr], []);
    assert RvalueIn(rv, |A.locals|);
    EmitTempMore(A, rv);
    var (B, len) := EmitTemp(A, rv);
    EmitTempMore(B, Use(Const(IntV(0))));
  }

  lemma {:induction false} LoopMore(cs: Contracts, body: Expr, counter: nat, limit: Operand, elem: Option<Operand>,
        x: nat, L: Builder)
    requires Sane(L) && InRange(L) && counter < |L.locals| && x < |L.locals| && OpIn(limit, |L.locals|)
    requires elem.Some? ==> OpIn(elem.value, |L.locals|)
    ensures More(L, LowerLoop(cs, body, counter, limit, elem, x, L))
    decreases body, 5
  {
    hide Sane, LoopHead, LoopEnd, Emit;
    LoopHeadMore(L, counter, limit);
    var A := LoopHead(L, counter, limit);
    var B := A;
    if elem.Some? {
      var s := Set(x, [], Compute(Index(true), [elem.value, Place(counter, [])], []));
      assert StmtIn(s, |A.locals|);
      EmitMore(A, s);
      B := Emit(A, s);
    }
    ExprMore(cs, body, B);
    var C := LowerExpr(cs, body, B).0;
    LoopEndMore(C, counter, |L.blocks|);
    EnterMore(LoopEnd(C, counter, |L.blocks|), |L.blocks| + 2);
  }

  // ---------- statements ----------

  lemma {:induction false} StmtsMore(cs: Contracts, stmts: seq<Stmt>, L: Builder)
    requires Sane(L) && InRange(L)
    ensures More(L, LowerStmts(cs, stmts, L))
    decreases stmts, 0
  {
    hide Sane, LowerStmt;
    if stmts != [] {
      StmtMore(cs, stmts[0], L);
      StmtsMore(cs, stmts[1..], LowerStmt(cs, stmts[0], L));
    }
  }

  lemma {:induction false} StmtMore(cs: Contracts, s: Stmt, L: Builder)
    requires Sane(L) && InRange(L)
    ensures More(L, LowerStmt(cs, s, L))
    decreases s, 1
  {
    hide Sane, Emit, Close, LocalFor;
    match s
    case Let(x, init) =>
      LocalForMore(L, x);
      var (A, l) := LocalFor(L, x);
      if init.Some? {
        ExprMore(cs, init.value, A);
        var (B, o) := LowerExpr(cs, init.value, A);
        EmitMore(B, Set(l, [], Use(o)));
      }
    case Assign(x, path, e) =>
      ExprMore(cs, e, L);
      var (A, o) := LowerExpr(cs, e, L);
      LocalForMore(A, x);
      var (B, l) := LocalFor(A, x);
      EmitMore(B, Set(l, path, Use(o)));
    case ExprStmt(e) => ExprMore(cs, e, L);
    case Return(result) =>
      if result.None? {
        CloseMore(L, Leave(Const(UnitV)));
      } else {
        ExprMore(cs, result.value, L);
        var (A, o) := LowerExpr(cs, result.value, L);
        CloseMore(A, Leave(o));
      }
  }

  // ---------- whole functions ----------

  /** Ids are positions, no placeholder survives, every target and local exists, and the
      parameters occupy the first slots in order. */
  ghost predicate WellFormedBody(B: Body, params: seq<Sym>) {
    && |B.blocks| > 0
    && (forall i {:trigger B.blocks[i]} :: 0 <= i < |B.blocks| ==>
          BlockIn(B.blocks[i], i, |B.blocks|, |B.locals|) && !B.blocks[i].term.Pending?)
    && B.params == |params| <= |B.locals|
    && forall i :: 0 <= i < |params| ==> B.locals[i] == Some(params[i])
  }

  /** Main result: every tree lowers to a well-formed graph. */
  lemma {:induction false} LowerFnWellFormed(cs: Contracts, params: seq<Sym>, root: Expr)
    ensures WellFormedBody(LowerFn(cs, params, root), params)
  {
    hide Grows, LowerExpr, Close;
    var S := Start(params);
    assert BlockIn(S.blocks[0], 0, 1, |params|);
    ExprMore(cs, root, S);
    LowerExprStep(cs, root, S);
    var (A, o) := LowerExpr(cs, root, S);
    LowerCorrect.StepLocals(S, A);
    var L := Build(cs, params, root);
    if A.blocks[A.cur].term.Pending? {
      CloseMore(A, Leave(o));
      CloseStep(A, Leave(o));
      LowerCorrect.StepLocals(A, L);
    }
    var B := LowerFn(cs, params, root);
    forall i {:trigger B.blocks[i]} | 0 <= i < |B.blocks|
      ensures BlockIn(B.blocks[i], i, |B.blocks|, |B.locals|) && !B.blocks[i].term.Pending?
    {
      assert B.blocks[i] == SweepBlock(L.blocks[i]);
    }
    forall i | 0 <= i < |params|
      ensures B.locals[i] == Some(params[i])
    {
      assert S.locals[i] == Some(params[i]);
    }
  }
}
