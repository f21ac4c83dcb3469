/** What the inferred escape contracts promise about runs, and four functions for which they
    promise too little. */
module InferMeaning {
  import opened Wrappers
  import opened Hir
  import opened Semantics
  import opened EnforceSound
  import opened Infer
  import opened InferUses
  import opened InferRuns
  import opened InferMarks
  import opened InferSound
  import opened InferEscape
  import opened InferReach
  import opened InferTables

  /** What the walk starts from. */
  function Start(F: Fun): Taint {
    Taint(seq(|F.params|, _ => UNUSED), map[], map[])
  }

  function InScope(F: Fun): set<Sym> {
    set s | s in F.params
  }

  /** No parameter but this one brings in the mark. */
  predicate OnlyParam(G: Trial, h: Store) {
    forall s <- G.fun.params ::
      IsLive(h, s) && Marked(h[s].v, G.def) ==> Position(G.fun.params, s) == Some(G.pos)
  }

  /** The result, returned early or not, holds the mark. */
  predicate HoldsMark(o: Out, D: Def) {
    (o.Norm? || o.Ret?) && Marked(o.v, D)
  }

  /** Main result on escape: while callees keep their contracts, a run whose result holds the value
      of a non-copy parameter has that parameter inferred as escaping. */
  lemma EscapeSound(G: Trial, h: Store)
    requires G.pos < |G.fun.params| == |G.fun.copyParams| && !G.fun.copyParams[G.pos]
    requires Fits(G) && OnlyParam(G, h) && Scoped(G.fun.body, InScope(G.fun))
    requires Tracks(G.fun, G.view, G.fun.body, MoveCtx, Start(G.fun), InScope(G.fun))
    requires Honest(G.env, G.fun, G.def, G.fun.body, MoveCtx, h)
    ensures HoldsMark(Eval(G.env, G.fun.body, MoveCtx, h), G.def) ==> Inferred(G.fun, G.view)[G.pos] == Escape
  {
    hide Walk, Eval, Marked, Tracks, Honest, Scoped, Fits;
    assert Accounts(G, Start(G.fun), h, InScope(G.fun));
    FlowSound(G, G.fun.body, MoveCtx, Start(G.fun), h, InScope(G.fun));
    WalkGrows(G.fun, G.view, G.fun.body, MoveCtx, Start(G.fun), InScope(G.fun));
    var (U, c) := Walk(G.fun, G.view, G.fun.body, MoveCtx, Start(G.fun));
    EscapeGrows(G.fun, U, c, InScope(G.fun));
    assert Collect(G.fun, G.view) == MarkEscaped(U, c);
  }

  /** Main result on a whole program: in a table that solves the equations every contract means what
      it says. The run reads the table itself as its contracts. */
  lemma SolutionMeans(M: Program, c: Table, f: Def, G: Trial, h: Store)
    requires Solves(M, map[], c) && f in M.funs && G.fun == M.funs[f] && G.view == ViewOf(map[], c)
    requires G.env.contracts == c && CalleesKeep(G.env, G.view, G.def)
    requires G.pos < |G.fun.params| == |G.fun.copyParams| && !G.fun.copyParams[G.pos]
    requires Position(G.fun.params, G.fun.params[G.pos]) == Some(G.pos)
    requires OnlyParam(G, h) && Scoped(G.fun.body, InScope(G.fun))
    requires Tracks(G.fun, G.view, G.fun.body, MoveCtx, Start(G.fun), InScope(G.fun))
    requires Honest(G.env, G.fun, G.def, G.fun.body, MoveCtx, h)
    ensures |c[f]| == |G.fun.params|
    ensures var o := Eval(G.env, G.fun.body, MoveCtx, h);
      var b := Bar(G.fun.params[G.pos], true, c[f][G.pos] == Borrow);
      && (HoldsMark(o, G.def) ==> c[f][G.pos] == Escape)
      && (c[f][G.pos] in {Borrow, BorrowMut} ==>
            Eval(Barred(G.env, b), G.fun.body, MoveCtx, h) == o && KeptOut(b, h, o))
  {
    hide Eval, Marked, Tracks, Honest, Scoped, Inferred, CalleesKeep, KeptOut;
    assert c[f] == Inferred(G.fun, G.view);
    forall d: Def, i: nat
      ensures ContractAt(c, d, i) == At(G.view(d), i)
    {
    }
    EscapeSound(G, h);
    if c[f][G.pos] in {Borrow, BorrowMut} {
      BorrowKept(G.fun, G.view, G.pos, G.env, h);
    }
  }

  /** `fn id(p: P) -> P { return p; }` */
  lemma ReturnedEscapes(p: Sym, view: View)
    ensures Inferred(Fun([p], [false], {}, Block([Return(Some(Var(p)))], None)), view) == [Escape]
  {
    var back := [Return(Some(Var(p)))];
    var F := Fun([p], [false], {}, Block(back, None));
    assert Position([p], p) == Some(0) && back[1..] == [];
    var T := Start(F);
    assert T.facts == [UNUSED];
    var A := Flag(F, p, MoveCtx, T);
    assert Walk(F, view, Var(p), MoveCtx, T) == (A, {0});
    assert WalkStmt(F, view, back[0], T) == MarkEscaped(A, {0});
    assert WalkStmts(F, view, back, T) == MarkEscaped(A, {0});
    assert Collect(F, view).facts[0].escaped;
  }

  const KIND: Def := 0
  const BOX := StructV(KIND, map[])
  const NOVIEW: View := _ => []

  function Alone(muts: set<Sym>): Env {
    Env({}, muts, map[], true, (_, _) => CallTrap)
  }

  /** The hypotheses of soundness hold of this function, and its result does hold the mark. */
  lemma ReturnedHolds(p: Sym)
    ensures var G := Trial(Fun([p], [false], {}, Block([Return(Some(Var(p)))], None)), NOVIEW, Alone({}), 0, KIND);
      var h := map[p := Live(BOX)];
      && Fits(G) && OnlyParam(G, h) && Scoped(G.fun.body, InScope(G.fun))
      && Tracks(G.fun, G.view, G.fun.body, MoveCtx, Start(G.fun), InScope(G.fun))
      && Honest(G.env, G.fun, G.def, G.fun.body, MoveCtx, h)
      && HoldsMark(Eval(G.env, G.fun.body, MoveCtx, h), G.def)
  {
    var back := [Return(Some(Var(p)))];
    var F := Fun([p], [false], {}, Block(back, None));
    var G := Trial(F, NOVIEW, Alone({}), 0, KIND);
    var h := map[p := Live(BOX)];
    assert Position([p], p) == Some(0) && back[1..] == [];
    assert p in InScope(F) && Scoped(Var(p), InScope(F)) && ScopedStmts(back, InScope(F));
    assert Tracks(F, NOVIEW, Var(p), MoveCtx, Start(F), InScope(F));
    assert TracksStmts(F, NOVIEW, back, Start(F), InScope(F));
    assert Honest(G.env, F, KIND, Var(p), MoveCtx, h) && HonestStmts(G.env, F, KIND, back, h);
    assert Eval(G.env, Var(p), MoveCtx, h) == Norm(BOX, h[p := Hole]);
    assert EvalStmt(G.env, back[0], h) == Ret(BOX) && EvalStmts(G.env, back, h) == Ret(BOX);
  }

  // ---------- where the contracts promise too little ----------

  /** `fn f(mut a: P, b: P) -> P { a = b; return a; }`: only moved, though the result is `b`. */
  const OVERWRITTEN := Fun([0, 1], [false, false], {}, Block([Assign(0, [], Var(1))], Some(Var(0))))

  lemma OverwrittenEscapesUnseen()
    ensures Inferred(OVERWRITTEN, NOVIEW)[1] == Move
    ensures HoldsMark(Eval(Alone({0}), OVERWRITTEN.body, MoveCtx, map[0 := Live(UnitV), 1 := Live(BOX)]), KIND)
  {
    hide Eval, Marked;
    var F := OVERWRITTEN;
    var ss := [Assign(0, [], Var(1))];
    assert ss[1..] == [];
    assert Position([0], 0) == Some(0) && [0, 1][..1] == [0];
    assert Position([0, 1], 0) == Some(0) && Position([0, 1], 1) == Some(1);
    var T := Start(F);
    assert T.facts == [UNUSED, UNUSED];
    var A := Flag(F, 1, MoveCtx, T);
    assert Walk(F, NOVIEW, Var(1), MoveCtx, T) == (A, {1});
    var B := FlagMutated(F, 0, A);
    var D := Carry(B, 0, Carried(B, 0) + {1});
    assert WalkStmt(F, NOVIEW, ss[0], T) == D && WalkStmts(F, NOVIEW, ss, T) == D;
    assert Walk(F, NOVIEW, F.body, MoveCtx, T) == (Flag(F, 0, MoveCtx, D), {0});
    OverwrittenRuns();
  }

  lemma OverwrittenRuns()
    ensures HoldsMark(Eval(Alone({0}), OVERWRITTEN.body, MoveCtx, map[0 := Live(UnitV), 1 := Live(BOX)]), KIND)
  {
    var ss := [Assign(0, [], Var(1))];
    assert ss[1..] == [];
    var E := Alone({0});
    var h := map[0 := Live(UnitV), 1 := Live(BOX)];
    assert EvalStmt(E, ss[0], h) == Norm(UnitV, h[1 := Hole][0 := Live(BOX)]);
    assert EvalStmts(E, ss, h) == Norm(UnitV, h[1 := Hole][0 := Live(BOX)]);
  }

  /** `fn f(a: [P]) -> P { for x in a { return x; } }`: only read, though the result is an element. */
  const ELEMENT := Fun([0], [false], {}, ForEach(1, Var(0), Block([Return(Some(Var(1)))], None)))

  lemma ElementEscapesUnseen()
    ensures Inferred(ELEMENT, NOVIEW)[0] == Borrow
    ensures HoldsMark(Eval(Alone({}), ELEMENT.body, MoveCtx, map[0 := Live(ArrayV([BOX]))]), KIND)
  {
    hide Eval, Marked, Passes, Uses;
    assert Position([0], 0) == Some(0);
    ElementKeeps(Storing);
    ElementKeeps(Leaving);
    ElementReads(Moves);
    ElementReads(Mutates);
    ElementReads(Reads);
    if Inferred(ELEMENT, NOVIEW)[0] == Escape {
      EscapeHasReason(ELEMENT, NOVIEW, 0, {0});
    }
    ContractExact(ELEMENT, NOVIEW, 0);
    ElementRuns();
  }

  lemma ElementKeeps(at: Point)
    ensures !Passes(ELEMENT, NOVIEW, ELEMENT.body, {0}, at) && !Yields(NOVIEW, ELEMENT.body, {0})
  {
    var back := [Return(Some(Var(1)))];
    assert back[1..] == [] && !Yields(NOVIEW, Var(1), {0});
    assert !PassesStmt(ELEMENT, NOVIEW, back[0], {0}, at) && !PassesStmts(ELEMENT, NOVIEW, back, {0}, at);
    assert !Passes(ELEMENT, NOVIEW, Block(back, None), {0}, at);
  }

  lemma ElementReads(use: Use)
    ensures Uses(NOVIEW, ELEMENT.body, MoveCtx, 0, use) == use.Reads?
  {
    var back := [Return(Some(Var(1)))];
    assert back[1..] == [] && !UsesOpt(NOVIEW, Some(Var(1)), MoveCtx, 0, use);
    assert !UsesStmt(NOVIEW, back[0], 0, use) && !UsesStmts(NOVIEW, back, 0, use);
    assert !Uses(NOVIEW, Block(back, None), MoveCtx, 0, use);
  }

  lemma ElementRuns()
    ensures HoldsMark(Eval(Alone({}), ELEMENT.body, MoveCtx, map[0 := Live(ArrayV([BOX]))]), KIND)
  {
    var back := [Return(Some(Var(1)))];
    var body := Block(back, None);
    var E := Alone({});
    var h := map[0 := Live(ArrayV([BOX]))];
    var g := h[1 := Live(BOX)];
    assert EvalStmt(E, back[0], g) == Ret(BOX) && EvalStmts(E, back, g) == Ret(BOX);
    assert EachLoop(E, 1, body, [BOX], 0, h) == Ret(BOX);
  }

  /** `fn f(mut a: P, b: P) -> P { put(a, b); return a; }`, where `put` writes through its first
      parameter and takes its second: only moved, though the callee may have stored `b` in `a`. */
  const LENT := Fun([0, 1], [false, false], {}, Block([ExprStmt(Prim(Call(7), [Var(0), Var(1)]))], Some(Var(0))))
  const PUTS: View := _ => [BorrowMut, Move]

  function Putting(): Env {
    Env({}, {0}, map[7 := [BorrowMut, Move]], true, (_, vals: seq<Value>) =>
      CallDone(UnitV, if |vals| == 2 then [vals[1], UnitV] else []))
  }

  lemma LentEscapesUnseen()
    ensures Inferred(LENT, PUTS)[1] == Move
    ensures HoldsMark(Eval(Putting(), LENT.body, MoveCtx, map[0 := Live(UnitV), 1 := Live(BOX)]), KIND)
  {
    hide Eval, Marked, Passes, Uses;
    assert [0, 1][..1] == [0] && Position([0, 1], 1) == Some(1);
    LentKeeps(Storing);
    LentKeeps(Leaving);
    LentMoves();
    if Inferred(LENT, PUTS)[1] == Escape {
      EscapeHasReason(LENT, PUTS, 1, {1});
    }
    ContractExact(LENT, PUTS, 1);
    LentRuns();
  }

  lemma LentKeeps(at: Point)
    ensures !Passes(LENT, PUTS, LENT.body, {1}, at) && !Yields(PUTS, LENT.body, {1})
  {
    var args := [Var(0), Var(1)];
    var rest := args[1..];
    var ss := [ExprStmt(Prim(Call(7), args))];
    assert rest == [Var(1)] && rest[1..] == [] && ss[1..] == [];
    assert !PassesAll(LENT, PUTS, rest[1..], {1}, at) && !PassesAll(LENT, PUTS, rest, {1}, at);
    assert !PassesAll(LENT, PUTS, args, {1}, at);
    assert !PassesStmt(LENT, PUTS, ss[0], {1}, at) && !PassesStmts(LENT, PUTS, ss, {1}, at);
  }

  lemma LentMoves()
    ensures Uses(PUTS, LENT.body, MoveCtx, 1, Moves)
  {
    var args := [Var(0), Var(1)];
    var rest := args[1..];
    var call := Prim(Call(7), args);
    var ss := [ExprStmt(call)];
    assert rest == [Var(1)];
    assert UsesArgs(PUTS, Call(7), PUTS(7), rest, 1, MoveCtx, 1, Moves);
    assert UsesArgs(PUTS, Call(7), PUTS(7), args, 0, MoveCtx, 1, Moves);
    assert Uses(PUTS, call, MoveCtx, 1, Moves) && UsesStmts(PUTS, ss, 1, Moves);
  }

  lemma LentRuns()
    ensures HoldsMark(Eval(Putting(), LENT.body, MoveCtx, map[0 := Live(UnitV), 1 := Live(BOX)]), KIND)
  {
    hide FinishCall, EvalArgs;
    var E := Putting();
    var args := [Var(0), Var(1)];
    var ss := [ExprStmt(Prim(Call(7), args))];
    assert ss[1..] == [];
    var h := map[0 := Live(UnitV), 1 := Live(BOX)];
    var g := h[1 := Hole];
    LentArgs(E, h);
    LentCall(E, g);
    assert Eval(E, Prim(Call(7), args), MoveCtx, h) == Norm(UnitV, g[0 := Live(BOX)]);
    assert EvalStmt(E, ss[0], h) == Norm(UnitV, g[0 := Live(BOX)]);
    assert EvalStmts(E, ss, h) == Norm(UnitV, g[0 := Live(BOX)]);
  }

  lemma LentArgs(E: Env, h: Store)
    requires E == Putting() && h == map[0 := Live(UnitV), 1 := Live(BOX)]
    ensures EvalArgs(E, Call(7), [Var(0), Var(1)], 0, MoveCtx, h) == NormSeq([UnitV, BOX], h[1 := Hole])
  {
    var args := [Var(0), Var(1)];
    var rest := args[1..];
    assert rest == [Var(1)] && rest[1..] == [];
    assert EvalArgs(E, Call(7), rest, 1, MoveCtx, h) == NormSeq([BOX] + [], h[1 := Hole]);
    assert EvalArgs(E, Call(7), args, 0, MoveCtx, h) == NormSeq([UnitV] + ([BOX] + []), h[1 := Hole]);
    assert [UnitV] + ([BOX] + []) == [UnitV, BOX];
  }

  lemma LentCall(E: Env, g: Store)
    requires E == Putting() && g == map[0 := Live(UnitV), 1 := Hole]
    ensures FinishCall(E, 7, [Var(0), Var(1)], [UnitV, BOX], g) == Norm(UnitV, g[0 := Live(BOX)])
  {
    var args := [Var(0), Var(1)];
    var outs := [BOX, UnitV];
    assert E.calls(7, [UnitV, BOX]) == CallDone(UnitV, outs);
    assert PlacePath(Var(0)) == [] && SetPath(UnitV, [], BOX) == Some(BOX);
    assert WriteBack(E, 7, args, 1, outs, g) == g[0 := Live(BOX)];
    assert WriteBack(E, 7, args, 2, outs, g) == g[0 := Live(BOX)];
    assert ContractAt(E.contracts, 7, 0) == BorrowMut && ContractAt(E.contracts, 7, 1) == Move;
    assert PlaceBase(args[0]) == Some(0) && IsLive(g, 0);
    assert BorrowsLive(E, 7, args, 1, g) && BorrowsLive(E, 7, args, 2, g);
  }

  /** `fn f(mut p: P) -> P { for _ in 0..2 { r = x; x = p; p = Q; } r }` with locals `x` and `r`: only
      moved, though the second pass hands `x`, and with it `p`, on to `r`. */
  const SHIFTS := [Assign(1, [], Var(2)), Assign(2, [], Var(0)), Assign(0, [], Lit(UnitV))]
  const SHIFTED := Fun([0], [false], {}, Block([
    Let(1, Some(Lit(UnitV))), Let(2, Some(Lit(UnitV))),
    ExprStmt(ForRange(3, None, Some(Lit(IntV(2))), Block(SHIFTS, None)))], Some(Var(1))))

  lemma ShiftedEscapesUnseen()
    ensures Inferred(SHIFTED, NOVIEW)[0] == Move
    ensures HoldsMark(Eval(Alone({0, 1, 2}), SHIFTED.body, MoveCtx, map[0 := Live(BOX)]), KIND)
  {
    hide Eval, Marked;
    var F := SHIFTED;
    assert Position([0], 0) == Some(0) && Position([0], 1) == None && Position([0], 2) == None;
    var T := Start(F);
    assert T.facts == [UNUSED];
    var ss := F.body.stmts;
    var A := Carry(T, 1, {});
    var B := Carry(A, 2, {});
    assert WalkStmt(F, NOVIEW, ss[0], T) == A && WalkStmt(F, NOVIEW, ss[1], A) == B;
    ShiftsWalked(B);
    var D := WalkStmts(F, NOVIEW, SHIFTS, B);
    LoopWalked(B);
    assert ss[1..][0] == ss[1] && ss[1..][1..] == [ss[2]] && [ss[2]][1..] == [];
    assert WalkStmts(F, NOVIEW, [ss[2]], B) == D;
    assert WalkStmts(F, NOVIEW, ss[1..], A) == D && WalkStmts(F, NOVIEW, ss, T) == D;
    assert Walk(F, NOVIEW, Var(1), MoveCtx, D) == (D, {});
    assert Walk(F, NOVIEW, F.body, MoveCtx, T) == (D, {});
    ShiftedRuns();
  }

  lemma LoopWalked(T: Taint)
    ensures WalkStmt(SHIFTED, NOVIEW, SHIFTED.body.stmts[2], T) == WalkStmts(SHIFTED, NOVIEW, SHIFTS, T)
  {
    hide WalkStmts;
    var F := SHIFTED;
    var each := F.body.stmts[2].expr;
    assert WalkOpt(F, NOVIEW, None, T) == T && WalkOpt(F, NOVIEW, Some(Lit(IntV(2))), T) == T;
    assert Walk(F, NOVIEW, Block(SHIFTS, None), MoveCtx, T).0 == WalkStmts(F, NOVIEW, SHIFTS, T);
    assert Walk(F, NOVIEW, each, MoveCtx, T).0 == WalkStmts(F, NOVIEW, SHIFTS, T);
  }

  lemma ShiftsWalked(T: Taint)
    requires T.facts == [UNUSED] && T.carried == map[1 := {}, 2 := {}]
    ensures var U := WalkStmts(SHIFTED, NOVIEW, SHIFTS, T);
      |U.facts| == 1 && U.facts[0].moved && !U.facts[0].escaped && Carried(U, 1) == {}
  {
    var F := SHIFTED;
    assert Position([0], 0) == Some(0) && Position([0], 1) == None && Position([0], 2) == None;
    var ss := SHIFTS;
    assert ss[1..][0] == ss[1] && ss[1..][1..] == [ss[2]] && [ss[2]][1..] == [];
    assert Walk(F, NOVIEW, Var(2), MoveCtx, T) == (T, {});
    assert WalkStmt(F, NOVIEW, ss[0], T) == T;
    var A := Flag(F, 0, MoveCtx, T);
    assert Walk(F, NOVIEW, Var(0), MoveCtx, T) == (A, {0});
    var B := Carry(A, 2, Carried(A, 2) + {0});
    assert WalkStmt(F, NOVIEW, ss[1], T) == B;
    var D := FlagMutated(F, 0, B);
    assert WalkStmt(F, NOVIEW, ss[2], B) == D;
    assert WalkStmts(F, NOVIEW, [ss[2]], B) == D && WalkStmts(F, NOVIEW, ss[1..], T) == D;
  }

  lemma ShiftedRuns()
    ensures HoldsMark(Eval(Alone({0, 1, 2}), SHIFTED.body, MoveCtx, map[0 := Live(BOX)]), KIND)
  {
    hide Marked, CountLoop;
    var E := Alone({0, 1, 2});
    var ss := SHIFTED.body.stmts;
    var h := map[0 := Live(BOX)];
    var f := h[1 := Live(UnitV)];
    var g := map[0 := Live(BOX), 1 := Live(UnitV), 2 := Live(UnitV)];
    assert g == f[2 := Live(UnitV)];
    var end := map[0 := Live(UnitV), 1 := Live(BOX), 2 := Live(UnitV)];
    assert EvalStmt(E, ss[0], h) == Norm(UnitV, f);
    assert EvalStmt(E, ss[1], f) == Norm(UnitV, g);
    ShiftedStmt(E, g);
    assert ss[1..][0] == ss[1] && ss[1..][1..] == [ss[2]] && [ss[2]][1..] == [];
    assert EvalStmts(E, [], end) == Norm(UnitV, end);
    assert EvalStmts(E, [ss[2]], g) == Norm(UnitV, end);
    assert EvalStmts(E, ss[1..], f) == Norm(UnitV, end);
    assert EvalStmts(E, ss, h) == Norm(UnitV, end);
    assert Eval(E, Var(1), MoveCtx, end) == Norm(BOX, end[1 := Hole]);
    BoxMarked();
  }

  lemma ShiftedStmt(E: Env, g: Store)
    requires E == Alone({0, 1, 2}) && g == map[0 := Live(BOX), 1 := Live(UnitV), 2 := Live(UnitV)]
    ensures EvalStmt(E, SHIFTED.body.stmts[2], g) ==
            Norm(UnitV, map[0 := Live(UnitV), 1 := Live(BOX), 2 := Live(UnitV)])
  {
    hide CountLoop;
    var each := SHIFTED.body.stmts[2].expr;
    ShiftedLoop(E, g);
    assert EvalBound(E, None, g) == Norm(IntV(0), g) && EvalBound(E, Some(Lit(IntV(2))), g) == Norm(IntV(2), g);
    assert Eval(E, each, MoveCtx, g) == CountLoop(E, 3, Block(SHIFTS, None), 0, 2, g);
  }

  lemma ShiftedLoop(E: Env, g: Store)
    requires E == Alone({0, 1, 2}) && g == map[0 := Live(BOX), 1 := Live(UnitV), 2 := Live(UnitV)]
    ensures CountLoop(E, 3, Block(SHIFTS, None), 0, 2, g) ==
            Norm(UnitV, map[0 := Live(UnitV), 1 := Live(BOX), 2 := Live(UnitV)])
  {
    hide Eval;
    var body := Block(SHIFTS, None);
    ShiftsRun(E, g[3 := Live(IntV(0))], UnitV, BOX);
    var g1 := g[3 := Live(IntV(0))][1 := Live(UnitV)][2 := Live(BOX)][0 := Live(UnitV)];
    ShiftsRun(E, g1[3 := Live(IntV(1))], BOX, UnitV);
    var g2 := g1[3 := Live(IntV(1))][1 := Live(BOX)][2 := Live(UnitV)][0 := Live(UnitV)];
    assert CountLoop(E, 3, body, 2, 2, g2) == Norm(UnitV, g2 - {3});
    assert CountLoop(E, 3, body, 1, 2, g1) == Norm(UnitV, g2 - {3});
    assert CountLoop(E, 3, body, 0, 2, g) == Norm(UnitV, g2 - {3});
    assert g2 - {3} == map[0 := Live(UnitV), 1 := Live(BOX), 2 := Live(UnitV)];
  }

  lemma BoxMarked()
    ensures Marked(BOX, KIND)
  {
  }

  lemma ShiftsRun(E: Env, h: Store, x: Value, p: Value)
    requires E == Alone({0, 1, 2}) && 1 in h && h[1].Live? && 2 in h && h[2] == Live(x) && 0 in h && h[0] == Live(p)
    ensures Eval(E, Block(SHIFTS, None), MoveCtx, h) ==
            Norm(UnitV, h[1 := Live(x)][2 := Live(p)][0 := Live(UnitV)])
  {
    var ss := SHIFTS;
    assert ss[1..][0] == ss[1] && ss[1..][1..] == [ss[2]] && [ss[2]][1..] == [];
    var a := h[2 := Hole][1 := Live(x)];
    assert Eval(E, Var(2), MoveCtx, h) == Norm(x, h[2 := Hole]);
    assert Write(E, 1, [], x, h[2 := Hole]) == Norm(UnitV, a);
    assert EvalStmt(E, ss[0], h) == Norm(UnitV, a);
    var b := a[0 := Hole][2 := Live(p)];
    assert Eval(E, Var(0), MoveCtx, a) == Norm(p, a[0 := Hole]);
    assert Write(E, 2, [], p, a[0 := Hole]) == Norm(UnitV, b);
    assert EvalStmt(E, ss[1], a) == Norm(UnitV, b);
    var c := b[0 := Live(UnitV)];
    assert Write(E, 0, [], UnitV, b) == Norm(UnitV, c);
    assert EvalStmt(E, ss[2], b) == Norm(UnitV, c);
    assert EvalStmts(E, [], c) == Norm(UnitV, c);
    assert c == h[1 := Live(x)][2 := Live(p)][0 := Live(UnitV)];
    assert EvalStmts(E, [ss[2]], b) == Norm(UnitV, c) && EvalStmts(E, ss[1..], a) == Norm(UnitV, c);
    assert EvalStmts(E, ss, h) == Norm(UnitV, c);
  }
}
