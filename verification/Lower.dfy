/** Lowering of expression trees to basic blocks, as functions on the builder's state.
    Every function here keeps the builder well formed and never changes a block that is
    already closed. */
module Lower {
  import opened Wrappers
  import opened Hir
  import opened Semantics
  import opened Mir

  /** The builder: emitted blocks, the symbol each allocated local belongs to, the block
      under construction and whether that block is already closed. */
  datatype Builder = Builder(blocks: seq<BasicBlock>, locals: seq<Option<Sym>>, cur: nat, closed: bool)

  predicate InRange(L: Builder) {
    L.cur < |L.blocks|
  }

  predicate WF(L: Builder) {
    L.cur < |L.blocks| && (L.closed <==> !L.blocks[L.cur].term.Pending?)
  }

  ghost predicate BlockGrows(a: BasicBlock, b: BasicBlock, current: bool) {
    && a.id == b.id
    && a.stmts <= b.stmts
    && (!a.term.Pending? || !current ==> a == b)
  }

  /** `M` continues `L`: only the current block and new blocks may differ. */
  ghost predicate Grows(L: Builder, M: Builder) {
    && |L.blocks| <= |M.blocks|
    && (M.cur == L.cur || M.cur >= |L.blocks|)
    && L.locals <= M.locals
    && forall b {:trigger M.blocks[b]} :: 0 <= b < |L.blocks| ==> BlockGrows(L.blocks[b], M.blocks[b], b == L.cur)
  }

  lemma GrowsTrans(L: Builder, M: Builder, N: Builder)
    requires Grows(L, M) && Grows(M, N)
    ensures Grows(L, N)
  {
    forall b | 0 <= b < |L.blocks|
      ensures BlockGrows(L.blocks[b], N.blocks[b], b == L.cur)
    {
      assert BlockGrows(M.blocks[b], N.blocks[b], b == M.cur);
    }
  }

  // ---------- slots ----------

  /** The slot of a symbol: the one allocated for it last. */
  function SlotOf(locals: seq<Option<Sym>>, s: Sym): (r: Option<nat>)
    ensures r.Some? ==> r.value < |locals| && locals[r.value] == Some(s)
    ensures r.None? ==> forall l :: 0 <= l < |locals| ==> locals[l] != Some(s)
  {
    if locals == [] then None
    else if locals[|locals| - 1] == Some(s) then Some(|locals| - 1)
    else SlotOf(locals[..|locals| - 1], s)
  }

  // ---------- builder steps ----------

  function AddBlock(L: Builder): Builder {
    L.(blocks := L.blocks + [BasicBlock(|L.blocks|, [], Pending)])
  }

  function AddBlocks(L: Builder, n: nat): (M: Builder)
    ensures M == L.(blocks := M.blocks) && |M.blocks| == |L.blocks| + n && L.blocks <= M.blocks
    ensures forall b {:trigger M.blocks[b]} ::
      |L.blocks| <= b < |M.blocks| ==> M.blocks[b] == BasicBlock(b, [], Pending)
    decreases n
  {
    if n == 0 then L else AddBlock(AddBlocks(L, n - 1))
  }

  function Alloc(L: Builder, sym: Option<Sym>): Builder {
    L.(locals := L.locals + [sym])
  }

  /** The slot of a symbol, allocated on first use. */
  function LocalFor(L: Builder, s: Sym): (r: (Builder, nat))
    ensures r.0 == L.(locals := r.0.locals) && L.locals <= r.0.locals
    ensures r.1 < |r.0.locals| && r.0.locals[r.1] == Some(s)
  {
    match SlotOf(L.locals, s)
    case Some(l) => (L, l)
    case None => (Alloc(L, Some(s)), |L.locals|)
  }

  /** After a `return` the next emission opens a fresh, unreachable block. */
  function EnsureOpen(L: Builder): Builder {
    if L.closed then AddBlock(L).(cur := |L.blocks|, closed := false) else L
  }

  function PutStmt(L: Builder, s: MStmt): Builder
    requires InRange(L)
  {
    var b := L.blocks[L.cur];
    L.(blocks := L.blocks[L.cur := b.(stmts := b.stmts + [s])])
  }

  function PutTerm(L: Builder, t: Term): Builder
    requires InRange(L)
  {
    L.(blocks := L.blocks[L.cur := L.blocks[L.cur].(term := t)], closed := true)
  }

  function Emit(L: Builder, s: MStmt): Builder
    requires InRange(L)
  {
    PutStmt(EnsureOpen(L), s)
  }

  function Close(L: Builder, t: Term): Builder
    requires InRange(L)
  {
    PutTerm(EnsureOpen(L), t)
  }

  /** Continue in a block that was added earlier. */
  function Enter(L: Builder, b: nat): Builder {
    L.(cur := b, closed := false)
  }

  // ---------- emission patterns ----------

  /** Computes `rv` into a new temporary. */
  function EmitTemp(L: Builder, rv: Rvalue): (Builder, Operand)
    requires InRange(L)
  {
    (Emit(Alloc(L, None), Set(|L.locals|, [], rv)), Place(|L.locals|, []))
  }

  /** Ends a branch of an `if` or `match`: store the value, then go to the join block unless
      the branch has already left. */
  function EndArm(L: Builder, result: Option<nat>, v: Operand, join: nat): Builder
    requires InRange(L)
  {
    var A := if result.Some? then Emit(L, Set(result.value, [], Use(v))) else L;
    if A.closed then A else Close(A, Goto(join))
  }

  /** Adds `n` blocks, closes the current block with `t` and continues in block `enter`. */
  function Fork(L: Builder, n: nat, t: Term, enter: nat): Builder
    requires InRange(L)
  {
    Enter(Close(AddBlocks(L, n), t), enter)
  }

  function ResultSlot(L: Builder, unit: bool): (Builder, Option<nat>) {
    if unit then (L, None) else (Alloc(L, None), Some(|L.locals|))
  }

  function ResultOperand(result: Option<nat>): Operand {
    if result.None? then Const(UnitV) else Place(result.value, [])
  }

  /** The right operand of `&&`/`||` is in `L`; the skip block stores the constant and both
      sides meet in the join block. `first` numbers the right operand's block, the skip block
      and the join block. */
  function LogicTail(L: Builder, t: nat, v: Operand, first: nat, isOr: bool): Builder
    requires InRange(L) && first + 2 < |L.blocks|
  {
    var A := if L.closed then L else Close(Emit(L, Set(t, [], Use(v))), Goto(first + 2));
    var B := Enter(A, first + 1);
    var C := Close(Emit(B, Set(t, [], Use(Const(BoolV(isOr))))), Goto(first + 2));
    Enter(C, first + 2)
  }

  function LogicFork(L: Builder, c: Operand, isOr: bool): Builder
    requires InRange(L)
  {
    var first := |L.blocks|;
    Fork(Alloc(L, None), 3, Branch(c, if isOr then first + 1 else first, if isOr then first else first + 1), first)
  }

  /** Loop header: test `counter < limit`, then continue in the body block. The header, body
      and exit blocks are numbered from `|L.blocks|`. */
  function LoopHead(L: Builder, counter: nat, limit: Operand): Builder
    requires InRange(L)
  {
    var head := |L.blocks|;
    var A := Fork(L, 3, Goto(head), head);
    var (B, c) := EmitTemp(A, Compute(Bin(Lt), [Place(counter, []), limit], []));
    Enter(Close(B, Branch(c, head + 1, head + 2)), head + 1)
  }

  /** Loop latch: bump the counter and go back, unless the body never completes. */
  function LoopEnd(L: Builder, counter: nat, head: nat): Builder
    requires InRange(L)
  {
    if L.blocks[L.cur].term.Pending? then
      Close(Emit(L, Set(counter, [], Compute(Bin(Add), [Place(counter, []), Const(IntV(1))], []))), Goto(head))
    else L
  }

  function ArmTargets(arms: seq<Arm>, bb: nat): seq<(nat, nat)> {
    if arms == [] then []
    else
      var rest := ArmTargets(arms[1..], bb + 1);
      if arms[0].pat.VariantPat? then [(arms[0].pat.variant, bb)] + rest else rest
  }

  /** The block of the first catch-all arm. */
  function DefaultTarget(arms: seq<Arm>, bb: nat): Option<nat> {
    if arms == [] then None
    else if arms[0].pat.BindPat? then Some(bb)
    else DefaultTarget(arms[1..], bb + 1)
  }

  /** Adds the join block and one block per arm, then dispatches on the discriminant. */
  function MatchFork(L: Builder, s: Operand, arms: seq<Arm>): Builder
    requires InRange(L)
  {
    Close(AddBlocks(L, 1 + |arms|), Switch(s, ArmTargets(arms, |L.blocks| + 1), DefaultTarget(arms, |L.blocks| + 1)))
  }

  /** Payload element `i` of the scrutinee goes to the slot of `binds[i]`, for `i < n`. */
  function LowerBinds(binds: seq<Option<Sym>>, n: nat, scrut: Operand, L: Builder): (M: Builder)
    requires InRange(L) && n <= |binds|
    ensures InRange(M) && |L.blocks| <= |M.blocks|
    decreases n
  {
    if n == 0 then L
    else
      var A := LowerBinds(binds, n - 1, scrut, L);
      if binds[n - 1].None? then A
      else
        var (B, l) := LocalFor(A, binds[n - 1].value);
        Emit(B, Set(l, [], Payload(scrut, n - 1)))
  }

  function LowerPat(p: Pat, scrut: Operand, L: Builder): (M: Builder)
    requires InRange(L)
    ensures InRange(M) && |L.blocks| <= |M.blocks|
  {
    match p
    case VariantPat(_, binds) => LowerBinds(binds, |binds|, scrut, L)
    case BindPat(Some(s)) =>
      var (B, l) := LocalFor(L, s);
      Emit(B, Set(l, [], Duplicate(scrut)))
    case _ => L
  }

  /** The contract list a call instruction carries. */
  function ContractList(cs: Contracts, op: Op): seq<Behavior> {
    if op.Call? && op.def in cs then cs[op.def] else []
  }

  // ---------- expressions ----------

  function LowerExpr(cs: Contracts, e: Expr, L: Builder): (r: (Builder, Operand))
    requires InRange(L)
    ensures InRange(r.0) && |L.blocks| <= |r.0.blocks|
    decreases e, 4
  {
    match e
    case Lit(v) => (L, Const(v))
    case Poison => (L, Const(UnitV))
    case Var(_) => LowerPlace(cs, e, L)
    case Field(_, _, _) => LowerPlace(cs, e, L)
    case Prim(op, args) =>
      var (A, ops) := LowerAll(cs, args, L);
      EmitTemp(A, Compute(op, ops, ContractList(cs, op)))
    case Logic(_, _, _) => LowerLogic(cs, e, L)
    case If(_, _, _, _) => LowerIf(cs, e, L)
    case Block(stmts, tail) =>
      var A := LowerStmts(cs, stmts, L);
      if tail.None? then (A, Const(UnitV)) else LowerExpr(cs, tail.value, A)
    case Match(_, _, _) => LowerMatch(cs, e, L)
    case ForRange(_, _, _, _) => (LowerRange(cs, e, L), Const(UnitV))
    case ForEach(_, _, _) => (LowerEach(cs, e, L), Const(UnitV))
  }

  /** The storage an expression denotes; anything but a binding or a projection is
      evaluated, and a constant result is put into a temporary. */
  function LowerPlace(cs: Contracts, e: Expr, L: Builder): (r: (Builder, Operand))
    requires InRange(L)
    ensures InRange(r.0) && |L.blocks| <= |r.0.blocks| && r.1.Place?
    decreases e, if e.Var? || e.Field? then 3 else 5
  {
    match e
    case Var(s) =>
      var (A, l) := LocalFor(L, s);
      (A, Place(l, []))
    case Field(b, f, _) =>
      var (A, p) := LowerPlace(cs, b, L);
      (A, Place(p.local, p.proj + [f]))
    case _ =>
      var (A, o) := LowerExpr(cs, e, L);
      EnsurePlace(A, o)
  }

  function EnsurePlace(L: Builder, o: Operand): (r: (Builder, Operand))
    requires InRange(L)
    ensures InRange(r.0) && |L.blocks| <= |r.0.blocks| && r.1.Place?
  {
    if o.Place? then (L, o) else EmitTemp(L, Use(o))
  }

  function LowerLogic(cs: Contracts, e: Expr, L: Builder): (r: (Builder, Operand))
    requires InRange(L) && e.Logic?
    ensures InRange(r.0) && |L.blocks| <= |r.0.blocks|
    decreases e, 3
  {
    var (A, c) := LowerExpr(cs, e.lhs, L);
    var (B, v) := LowerExpr(cs, e.rhs, LogicFork(A, c, e.isOr));
    (LogicTail(B, |A.locals|, v, |A.blocks|, e.isOr), Place(|A.locals|, []))
  }

  function LowerMatch(cs: Contracts, e: Expr, L: Builder): (r: (Builder, Operand))
    requires InRange(L) && e.Match?
    ensures InRange(r.0) && |L.blocks| <= |r.0.blocks|
    decreases e, 3
  {
    var (A, o) := LowerExpr(cs, e.scrut, L);
    var (B, result) := ResultSlot(A, e.unit);
    var join := |B.blocks|;
    var C := LowerArms(cs, e.arms, join + 1, o, result, join, MatchFork(B, o, e.arms));
    (Enter(C, join), ResultOperand(result))
  }

  /** A loop variable always gets a slot of its own; both bounds are fixed before it is set. */
  function LowerRange(cs: Contracts, e: Expr, L: Builder): (M: Builder)
    requires InRange(L) && e.ForRange?
    ensures InRange(M) && |L.blocks| <= |M.blocks|
    decreases e, 3
  {
    var (A, lo) := LowerBound(cs, e.lo, Alloc(L, Some(e.var_)));
    var (B, hi) := LowerBound(cs, e.hi, A);
    LowerLoop(cs, e.body, |L.locals|, hi, None, |L.locals|, Emit(B, Set(|L.locals|, [], Use(lo))))
  }

  function LowerEach(cs: Contracts, e: Expr, L: Builder): (M: Builder)
    requires InRange(L) && e.ForEach?
    ensures InRange(M) && |L.blocks| <= |M.blocks|
    decreases e, 3
  {
    var (A, o) := LowerExpr(cs, e.iter, Alloc(L, Some(e.var_)));
    var (B, arr, len, idx) := EachHead(A, o);
    LowerLoop(cs, e.body, idx, len, Some(arr), |L.locals|, B)
  }

  /** Snapshot of the array, its length and the position counter. */
  function EachHead(L: Builder, o: Operand): (r: (Builder, Operand, Operand, nat))
    requires InRange(L)
    ensures InRange(r.0) && |L.blocks| <= |r.0.blocks|
  {
    var (A, arr) := EmitTemp(L, Use(o));
    var (B, len) := EmitTemp(A, Compute(Len, [arr], []));
    (EmitTemp(B, Use(Const(IntV(0)))).0, arr, len, |B.locals|)
  }

  function LowerAll(cs: Contracts, args: seq<Expr>, L: Builder): (r: (Builder, seq<Operand>))
    requires InRange(L)
    ensures InRange(r.0) && |L.blocks| <= |r.0.blocks| && |r.1| == |args|
    decreases args, 0
  {
    if args == [] then (L, [])
    else
      var (A, o) := LowerExpr(cs, args[0], L);
      var (B, os) := LowerAll(cs, args[1..], A);
      (B, [o] + os)
  }

  /** Block `first` is the then-branch, `first + 1` the else-branch or, without one, the join
      block. */
  function LowerIf(cs: Contracts, e: Expr, L: Builder): (r: (Builder, Operand))
    requires InRange(L) && e.If?
    ensures InRange(r.0) && |L.blocks| <= |r.0.blocks|
    decreases e, 3
  {
    var (A, c) := LowerExpr(cs, e.cond, L);
    var (B, result) := ResultSlot(A, e.unit);
    var first := |B.blocks|;
    if e.els.None? then
      var C := LowerBranch(cs, e.thn, result, first + 1, Fork(B, 2, Branch(c, first, first + 1), first));
      (Enter(C, first + 1), ResultOperand(result))
    else
      var C := LowerBranch(cs, e.thn, result, first + 2, Fork(B, 3, Branch(c, first, first + 1), first));
      var D := LowerBranch(cs, e.els.value, result, first + 2, Enter(C, first + 1));
      (Enter(D, first + 2), ResultOperand(result))
  }

  function LowerBranch(cs: Contracts, e: Expr, result: Option<nat>, join: nat, L: Builder): (M: Builder)
    requires InRange(L)
    ensures InRange(M) && |L.blocks| <= |M.blocks|
    decreases e, 5
  {
    var (A, v) := LowerExpr(cs, e, L);
    EndArm(A, result, v, join)
  }

  /** Arm `k` is lowered into block `bb + k`. */
  function LowerArms(cs: Contracts, arms: seq<Arm>, bb: nat, s: Operand, result: Option<nat>, join: nat,
        L: Builder): (M: Builder)
    requires InRange(L) && bb + |arms| <= |L.blocks|
    ensures InRange(M) && |L.blocks| <= |M.blocks|
    decreases arms, 0
  {
    if arms == [] then L
    else LowerArms(cs, arms[1..], bb + 1, s, result, join, LowerArm(cs, arms[0], s, result, join, Enter(L, bb)))
  }

  function LowerArm(cs: Contracts, arm: Arm, s: Operand, result: Option<nat>, join: nat, L: Builder): (M: Builder)
    requires InRange(L)
    ensures InRange(M) && |L.blocks| <= |M.blocks|
    decreases arm, 5
  {
    LowerBranch(cs, arm.body, result, join, LowerPat(arm.pat, s, L))
  }

  /** A range bound is copied into a temporary before anything else is evaluated. */
  function LowerBound(cs: Contracts, bound: Option<Expr>, L: Builder): (r: (Builder, Operand))
    requires InRange(L)
    ensures InRange(r.0) && |L.blocks| <= |r.0.blocks|
    decreases bound, 5
  {
    if bound.None? then EmitTemp(L, Use(Const(IntV(0))))
    else
      var (A, o) := LowerExpr(cs, bound.value, L);
      EmitTemp(A, Use(o))
  }

  /** The counted loop both iteration forms end in; `elem` is the array the element is read
      from at the start of each round. */
  function LowerLoop(cs: Contracts, body: Expr, counter: nat, limit: Operand, elem: Option<Operand>, x: nat,
        L: Builder): (M: Builder)
    requires InRange(L)
    ensures InRange(M) && |L.blocks| <= |M.blocks|
    decreases body, 5
  {
    var A := LoopHead(L, counter, limit);
    var B := if elem.None? then A else Emit(A, Set(x, [], Compute(Index(true), [elem.value, Place(counter, [])], [])));
    var (C, _) := LowerExpr(cs, body, B);
    Enter(LoopEnd(C, counter, |L.blocks|), |L.blocks| + 2)
  }

  // ---------- statements ----------

  function LowerStmts(cs: Contracts, stmts: seq<Stmt>, L: Builder): (M: Builder)
    requires InRange(L)
    ensures InRange(M) && |L.blocks| <= |M.blocks|
    decreases stmts, 0
  {
    if stmts == [] then L else LowerStmts(cs, stmts[1..], LowerStmt(cs, stmts[0], L))
  }

  function LowerStmt(cs: Contracts, s: Stmt, L: Builder): (M: Builder)
    requires InRange(L)
    ensures InRange(M) && |L.blocks| <= |M.blocks|
    decreases s, 1
  {
    match s
    case Let(x, init) =>
      var (A, l) := LocalFor(L, x);
      if init.None? then A
      else
        var (B, o) := LowerExpr(cs, init.value, A);
        Emit(B, Set(l, [], Use(o)))
    case Assign(x, path, e) =>
      var (A, o) := LowerExpr(cs, e, L);
      var (B, l) := LocalFor(A, x);
      Emit(B, Set(l, path, Use(o)))
    case ExprStmt(e) => LowerExpr(cs, e, L).0
    case Return(result) =>
      if result.None? then Close(L, Leave(Const(UnitV)))
      else
        var (A, o) := LowerExpr(cs, result.value, L);
        Close(A, Leave(o))
  }

  // ---------- whole functions ----------

  /** One empty entry block; the parameters have the first slots. */
  function Start(params: seq<Sym>): Builder {
    Builder([BasicBlock(0, [], Pending)], seq(|params|, i requires 0 <= i < |params| => Some(params[i])), 0, false)
  }

  /** The builder once the whole body is lowered and its value is returned. */
  function Build(cs: Contracts, params: seq<Sym>, root: Expr): Builder {
    var (A, o) := LowerExpr(cs, root, Start(params));
    if A.blocks[A.cur].term.Pending? then Close(A, Leave(o)) else A
  }

  /** A block that was never closed falls off the end with unit. */
  function SweepBlock(b: BasicBlock): BasicBlock {
    if b.term.Pending? then b.(term := Leave(Const(UnitV))) else b
  }

  function Sweep(blocks: seq<BasicBlock>): (r: seq<BasicBlock>)
    ensures |r| == |blocks| && forall b {:trigger r[b]} :: 0 <= b < |r| ==> r[b] == SweepBlock(blocks[b])
  {
    seq(|blocks|, i requires 0 <= i < |blocks| => SweepBlock(blocks[i]))
  }

  function LowerFn(cs: Contracts, params: seq<Sym>, root: Expr): Body {
    var L := Build(cs, params, root);
    Body(|params|, L.locals, Sweep(L.blocks))
  }
}
