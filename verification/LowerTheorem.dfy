/** The lowering theorem for whole functions and whole programs. */
module LowerTheorem {
  import opened Wrappers
  import opened Hir
  import opened Semantics
  import opened Mir
  import opened Lower
  import opened LowerShape
  import opened LowerTarget
  import opened LowerFit
  import opened LowerCorrect
  import opened LowerSim

  // ---------- one function ----------

  /** The store a body starts in. */
  function ParamStore(params: seq<Sym>, args: seq<Value>): Store
    requires |args| == |params|
  {
    if params == [] then map[]
    else ParamStore(params[..|params| - 1], args[..|params| - 1])[params[|params| - 1] := Live(args[|params| - 1])]
  }

  /** The locals the executor starts with: the arguments, then empty slots. */
  function ParamLocals(args: seq<Value>, n: nat): (m: seq<Slot>)
    ensures |args| <= n ==> |m| == n
  {
    seq(n, i requires 0 <= i < n => if i < |args| then Live(args[i]) else Hole)
  }

  ghost predicate NoRepeat(params: seq<Sym>) {
    forall i, j :: 0 <= i < j < |params| ==> params[i] != params[j]
  }

  lemma {:induction false} ParamStoreLive(params: seq<Sym>, args: seq<Value>, s: Sym)
    requires |args| == |params| && NoRepeat(params)
    ensures IsLive(ParamStore(params, args), s) <==> s in params
    ensures forall i :: 0 <= i < |params| && params[i] == s ==> ParamStore(params, args)[s] == Live(args[i])
  {
    if params != [] {
      var n := |params| - 1;
      ParamStoreLive(params[..n], args[..n], s);
      assert s in params <==> s in params[..n] || s == params[n];
    }
  }

  lemma {:induction false} StartAgrees(params: seq<Sym>, args: seq<Value>, T: Builder)
    requires |args| == |params| && NoRepeat(params) && Start(params).locals <= T.locals && Distinct(T.locals)
    ensures Agree(ParamStore(params, args), ParamLocals(args, |T.locals|), T)
  {
    var h := ParamStore(params, args);
    forall s | IsLive(h, s)
      ensures SlotOf(T.locals, s).Some? && ParamLocals(args, |T.locals|)[SlotOf(T.locals, s).value] == h[s]
    {
      ParamStoreLive(params, args, s);
      var i :| 0 <= i < |params| && params[i] == s;
      assert T.locals[i] == Start(params).locals[i] == Some(s);
      SlotIs(T.locals, s, i);
    }
  }

  /** The finished graph of a function. */
  function Finished(cs: Contracts, params: seq<Sym>, root: Expr): Builder {
    var L := Build(cs, params, root);
    L.(blocks := Sweep(L.blocks))
  }

  lemma SweepExt(L: Builder)
    ensures Ext(L, L.(blocks := Sweep(L.blocks)))
  {
  }

  /** The result a body's outcome stands for. */
  function ResultOf(out: Out): Res {
    match out
    case Norm(v, _) => Returned(v)
    case Ret(v) => Returned(v)
    case Trap => Trapped
    case Misuse => Trapped
  }

  /** Main result for one body: the blocks `LowerFn` builds end in exactly the value or trap
      the reference semantics gives the tree, whatever the arguments and the callees do. */
  lemma {:induction false} LowerFnCorrect(E: Env, params: seq<Sym>, root: Expr, args: seq<Value>)
    requires !E.strict && Fits(E.contracts, root) && |args| == |params| && NoRepeat(params)
    requires Distinct(LowerFn(E.contracts, params, root).locals)
    ensures var B := LowerFn(E.contracts, params, root);
      var out := Eval(E, root, MoveCtx, ParamStore(params, args));
      !out.Misuse? ==> Reaches(B.blocks, E.calls, At(0, 0, ParamLocals(args, |B.locals|)), Done(ResultOf(out)))
  {
    hide Reaches, Grows, Fits, Eval, LowerExpr;
    var cs := E.contracts;
    var S := Start(params);
    var (A, o) := LowerExpr(cs, root, S);
    LowerExprStep(cs, root, S);
    var L := Build(cs, params, root);
    var T := Finished(cs, params, root);
    StepRefl(A);
    if A.blocks[A.cur].term.Pending? {
      CloseStep(A, Leave(o));
    }
    SweepExt(L);
    ExtStep(A, L, T);
    StepLocals(S, A);
    StepLocals(A, L);
    var m := ParamLocals(args, |T.locals|);
    var h := ParamStore(params, args);
    StartAgrees(params, args, T);
    var m1 := SimExpr(E, T, root, MoveCtx, S, h, m);
    assert Point(S, m) == At(0, 0, m);
    var out := Eval(E, root, MoveCtx, h);
    if out.Norm? {
      CloseRun(E.calls, A, Leave(o), T, m1);
      GoesTrans(E, T, At(0, 0, m), Point(A, m1), Done(Returned(out.v)));
    }
  }

  // ---------- how often a range body runs ----------

  /** One pass of the body with the loop variable at `v`. */
  ghost predicate PassTo(E: Env, x: Sym, body: Expr, v: int, h: Store, g: Store) {
    var o := Eval(E, body, MoveCtx, h[x := Live(IntV(v))]);
    o.Norm? && o.h == g
  }

  /** `hs` lists the store before the first pass and after every pass; pass `j` starts with the
      loop variable at `i + j`. */
  ghost predicate Passes(E: Env, x: Sym, body: Expr, i: int, hs: seq<Store>) {
    hs != [] && forall j {:trigger hs[j]} :: 0 <= j < |hs| - 1 ==> PassTo(E, x, body, i + j, hs[j], hs[j + 1])
  }

  /** A range loop that ends normally ran its body max(0, n - i) times, once per integer. */
  lemma {:induction false} RangePasses(E: Env, x: Sym, body: Expr, i: int, n: int, h: Store) returns (hs: seq<Store>)
    requires CountLoop(E, x, body, i, n, h).Norm?
    ensures Passes(E, x, body, i, hs) && hs[0] == h && |hs| - 1 == (if i < n then n - i else 0)
    ensures CountLoop(E, x, body, i, n, h).h == hs[|hs| - 1] - {x}
    decreases n - i
  {
    hide Eval, Passes;
    hs := [h];
    if i < n {
      var g := Eval(E, body, MoveCtx, h[x := Live(IntV(i))]).h;
      var rest := RangePasses(E, x, body, i + 1, n, g);
      hs := [h] + rest;
      PassesCons(E, x, body, i, h, rest);
    } else {
      PassesNone(E, x, body, i, h);
    }
  }

  lemma PassesNone(E: Env, x: Sym, body: Expr, i: int, h: Store)
    ensures Passes(E, x, body, i, [h])
  {
  }

  lemma PassesCons(E: Env, x: Sym, body: Expr, i: int, h: Store, rest: seq<Store>)
    requires rest != [] && PassTo(E, x, body, i, h, rest[0])
    ensures Passes(E, x, body, i, [h] + rest) <==> Passes(E, x, body, i + 1, rest)
  {
    hide PassTo;
    var hs := [h] + rest;
    if Passes(E, x, body, i + 1, rest) {
      forall j {:trigger hs[j]} | 0 <= j < |hs| - 1
        ensures PassTo(E, x, body, i + j, hs[j], hs[j + 1])
      {
        if j > 0 {
          assert PassTo(E, x, body, i + 1 + (j - 1), rest[j - 1], rest[j - 1 + 1]);
        }
      }
    }
    if Passes(E, x, body, i, hs) {
      forall j {:trigger rest[j]} | 0 <= j < |rest| - 1
        ensures PassTo(E, x, body, i + 1 + j, rest[j], rest[j + 1])
      {
        assert PassTo(E, x, body, i + (j + 1), hs[j + 1], hs[j + 1 + 1]);
      }
    }
  }

  /** And so many passes make the loop end normally. */
  lemma {:induction false} PassesEnd(E: Env, x: Sym, body: Expr, i: int, n: int, hs: seq<Store>)
    requires Passes(E, x, body, i, hs) && |hs| - 1 == (if i < n then n - i else 0)
    ensures CountLoop(E, x, body, i, n, hs[0]) == Norm(UnitV, hs[|hs| - 1] - {x})
    decreases n - i
  {
    hide Eval;
    if i < n {
      var rest := hs[1..];
      assert PassTo(E, x, body, i + 0, hs[0], hs[0 + 1]);
      assert hs == [hs[0]] + rest;
      PassesCons(E, x, body, i, hs[0], rest);
      PassesEnd(E, x, body, i + 1, n, rest);
    }
  }

  // ---------- whole programs ----------

  /** A body, with its copy-typed and its `mut` bindings. */
  datatype Fn = Fn(params: seq<Sym>, root: Expr, copies: set<Sym>, muts: set<Sym>)

  /** Functions with their inferred contracts. */
  datatype Program = Program(fns: map<Def, Fn>, contracts: Contracts)

  /** What a call returns in the reference semantics when at most `depth` calls may be
      nested; exhausting the call stack is a trap. */
  function TreeCall(P: Program, depth: nat, def: Def, args: seq<Value>): CallResult
    decreases depth, 0
  {
    if depth == 0 || def !in P.fns || |args| != |P.fns[def].params| then CallTrap
    else
      match ResultOf(Eval(TreeEnv(P, P.fns[def], depth - 1), P.fns[def].root, MoveCtx,
        ParamStore(P.fns[def].params, args)))
      case Returned(v) => CallDone(v, [])
      case Trapped => CallTrap
  }

  function TreeEnv(P: Program, fn: Fn, depth: nat): Env
    decreases depth, 1
  {
    Env(fn.copies, fn.muts, P.contracts, false, (def: Def, args: seq<Value>) => TreeCall(P, depth, def, args))
  }

  /** What the machine returns for a call at the same stack bound. */
  ghost function MachineCall(P: Program, depth: nat, def: Def, args: seq<Value>): CallResult
    decreases depth
  {
    if depth == 0 || def !in P.fns || |args| != |P.fns[def].params| then CallTrap
    else
      var B := LowerFn(P.contracts, P.fns[def].params, P.fns[def].root);
      var calls := (d: Def, a: seq<Value>) => MachineCall(P, depth - 1, d, a);
      if exists v :: Reaches(B.blocks, calls, At(0, 0, ParamLocals(args, |B.locals|)), Done(Returned(v))) then
        var v :| Reaches(B.blocks, calls, At(0, 0, ParamLocals(args, |B.locals|)), Done(Returned(v)));
        CallDone(v, [])
      else CallTrap
  }

  lemma {:induction false} RunSame(blocks: seq<BasicBlock>, f: Calls, g: Calls, c: Cfg, n: nat)
    requires forall d, a :: f(d, a) == g(d, a)
    ensures Run(blocks, f, c, n) == Run(blocks, g, c, n)
    decreases n
  {
    if n > 0 {
      RunSame(blocks, f, g, Tick(blocks, f, c), n - 1);
    }
  }

  lemma ReachesSame(blocks: seq<BasicBlock>, f: Calls, g: Calls, c: Cfg, d: Cfg)
    requires (forall k, a :: f(k, a) == g(k, a)) && Reaches(blocks, f, c, d)
    ensures Reaches(blocks, g, c, d)
  {
    var n: nat :| Run(blocks, f, c, n) == d;
    RunSame(blocks, f, g, c, n);
  }

  /** Every body is covered by the theorem and no run of it misuses a binding. */
  ghost predicate Sound(P: Program) {
    && (forall f <- P.fns :: NoRepeat(P.fns[f].params) && Fits(P.contracts, P.fns[f].root) &&
          Distinct(LowerFn(P.contracts, P.fns[f].params, P.fns[f].root).locals))
    && (forall f <- P.contracts :: BorrowMut !in P.contracts[f])
    && (forall f <- P.fns :: forall depth: nat, args: seq<Value> {:trigger RootOut(P, depth, f, args)} ::
          |args| == |P.fns[f].params| ==> !RootOut(P, depth, f, args).Misuse?)
  }

  function RootOut(P: Program, depth: nat, def: Def, args: seq<Value>): Out
    requires def in P.fns && |args| == |P.fns[def].params|
  {
    Eval(TreeEnv(P, P.fns[def], depth), P.fns[def].root, MoveCtx, ParamStore(P.fns[def].params, args))
  }

  /** Main result for programs: at every stack bound, every call of every function returns the
      same value or traps alike in the tree semantics and on the machine. */
  lemma {:induction false} ProgramCorrect(P: Program, depth: nat, def: Def, args: seq<Value>)
    requires Sound(P)
    ensures MachineCall(P, depth, def, args) == TreeCall(P, depth, def, args)
    decreases depth
  {
    if depth > 0 && def in P.fns && |args| == |P.fns[def].params| {
      hide Reaches, Fits;
      var fn := P.fns[def];
      var E := TreeEnv(P, fn, depth - 1);
      var B := LowerFn(P.contracts, fn.params, fn.root);
      var calls := (d: Def, a: seq<Value>) => MachineCall(P, depth - 1, d, a);
      forall d: Def, a: seq<Value>
        ensures E.calls(d, a) == calls(d, a)
      {
        ProgramCorrect(P, depth - 1, d, a);
      }
      LowerFnCorrect(E, fn.params, fn.root, args);
      var out := RootOut(P, depth - 1, def, args);
      var c := At(0, 0, ParamLocals(args, |B.locals|));
      ReachesSame(B.blocks, E.calls, calls, c, Done(ResultOf(out)));
      forall r | Reaches(B.blocks, calls, c, Done(r))
        ensures r == ResultOf(out)
      {
        DoneUnique(B.blocks, calls, c, r, ResultOf(out));
      }
    }
  }
}
