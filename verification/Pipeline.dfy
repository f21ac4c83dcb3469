/** The whole path from an accepted program to the machine. */
module Pipeline {
  import opened Hir
  import opened Semantics
  import opened Lower
  import opened LowerSlots
  import opened LowerFit
  import LowerTarget
  import opened LowerTheorem
  import opened Enforce
  import opened EnforceSound
  import opened EnforcePlain

  function RulesOf(P: Program, fn: Fn): Rules {
    Rules(fn.copies, fn.muts, P.contracts)
  }

  /** Well-formed input of the covered shape. */
  ghost predicate WellFormed(P: Program, fn: Fn) {
    && NoRepeat(fn.params) && Scoped(fn.root, set s | s in fn.params)
    && Once(fn.root, set s | s in fn.params)
    && Fits(P.contracts, fn.root) && AllSettled(P.contracts, fn.copies, fn.root)
  }

  /** The enforcement walk reports nothing and finds every loop steady. */
  predicate Accepted(P: Program, fn: Fn) {
    var r := CheckBody(RulesOf(P, fn), fn.params, fn.root);
    r.diags == [] && r.steady
  }

  ghost predicate AcceptedProgram(P: Program) {
    && (forall f <- P.fns :: WellFormed(P, P.fns[f]) && Accepted(P, P.fns[f]))
    && (forall f <- P.contracts :: BorrowMut !in P.contracts[f])
  }

  /** Reading moved or missing values is ruled out by the enforcement walk alone. */
  lemma {:induction false} AcceptedRootSafe(P: Program, f: Def, depth: nat, args: seq<Value>)
    requires AcceptedProgram(P) && f in P.fns && |args| == |P.fns[f].params|
    ensures !RootOut(P, depth, f, args).Misuse?
  {
    hide Fits, AllSettled, Scoped, CheckBody, Eval;
    var fn := P.fns[f];
    var E := TreeEnv(P, fn, depth);
    var h := ParamStore(fn.params, args);
    forall s <- fn.params
      ensures IsLive(h, s)
    {
      ParamStoreLive(fn.params, args, s);
    }
    AcceptedRunsPlain(RulesOf(P, fn), E.(strict := true), fn.params, fn.root, h);
  }

  /** Main result: in a program the enforcement walk accepts, every call gives the same result
      in the by-value semantics and on the machine running the lowered blocks. */
  lemma {:induction false} AcceptedProgramCorrect(P: Program, depth: nat, def: Def, args: seq<Value>)
    requires AcceptedProgram(P)
    ensures MachineCall(P, depth, def, args) == TreeCall(P, depth, def, args)
  {
    hide Fits, AllSettled, Scoped, CheckBody, Eval;
    forall f <- P.fns, d: nat, a: seq<Value> | |a| == |P.fns[f].params|
      ensures !RootOut(P, d, f, a).Misuse?
    {
      AcceptedRootSafe(P, f, d, a);
    }
    forall f <- P.fns
      ensures LowerTarget.Distinct(LowerFn(P.contracts, P.fns[f].params, P.fns[f].root).locals)
    {
      OneSlotEach(P.contracts, P.fns[f].params, P.fns[f].root);
    }
    ProgramCorrect(P, depth, def, args);
  }
}
