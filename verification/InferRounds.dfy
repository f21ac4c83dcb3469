/** Hypothesis-verified rounds: every round reads the contracts of the one before, and the pass
    ends when no kept fact was collected under a contract the round refuted. */
module InferRounds {
  import opened Wrappers
  import opened Hir
  import opened Semantics
  import opened Infer
  import opened InferMono
  import opened InferDeps
  import opened InferTables
  import opened InferFix

  /** A hypothesis for every function that the equations only strengthen. */
  ghost predicate Rising(M: Program, H: Table) {
    TypedTable(M, H) && Decided(H) && forall f <- M.funs :: ContractLe(H[f], Next(M, H, H, f))
  }

  /** A hypothesis the rounds can start from. */
  ghost predicate Startable(M: Program, H: Table) {
    H == map[] || Rising(M, H)
  }

  /** `x` is a closed table above the hypothesis. */
  ghost predicate Above(M: Program, H: Table, x: Table) {
    Closed(M, map[], x) && (H == map[] || TableLe(H, x))
  }

  /** With a total hypothesis, a round applies the equations once. */
  lemma RoundApplies(M: Program, H: Table, c: Table, f: Def)
    requires Solves(M, H, c) && H.Keys == M.funs.Keys && f in M.funs
    ensures c[f] == Next(M, H, H, f)
  {
    SameView(M, H, c, f);
  }

  lemma SolutionFixed(M: Program, c: Table, f: Def)
    requires Solves(M, map[], c) && f in M.funs
    ensures c[f] == Next(M, c, c, f)
  {
    SameView(M, c, c, f);
  }

  /** A round under a rising hypothesis climbs, stays rising, and stays below every closed table
      above the hypothesis. */
  lemma RoundRises(M: Program, H: Table, c: Table)
    requires WellTyped(M) && Startable(M, H) && Least(M, H, c) && TypedTable(M, c) && Decided(c)
    ensures Rising(M, c) && (H != map[] ==> TableLe(H, c)) && forall x :: Above(M, H, x) ==> TableLe(c, x)
  {
    hide WellTyped, Next, ContractLe, TypedContract;
    if H == map[] {
      forall f <- M.funs
        ensures ContractLe(c[f], Next(M, c, c, f))
      {
        SolutionFixed(M, c, f);
        RefLe(c[f]);
      }
    } else {
      forall f <- M.funs
        ensures ContractLe(H[f], c[f])
      {
        RoundApplies(M, H, c, f);
      }
      forall f <- M.funs
        ensures ContractLe(c[f], Next(M, c, c, f))
      {
        RoundApplies(M, H, c, f);
        HypothesisMono(M, H, c, f);
      }
      forall x | Above(M, H, x)
        ensures TableLe(c, x)
      {
        RoundBelow(M, H, c, x);
      }
    }
  }

  /** A round stays below every closed table above its hypothesis. */
  lemma RoundBelow(M: Program, H: Table, c: Table, x: Table)
    requires WellTyped(M) && TypedTable(M, H) && Solves(M, H, c) && Closed(M, map[], x) && TableLe(H, x)
    ensures TableLe(c, x)
  {
    hide WellTyped, Next, ContractLe, TypedContract;
    forall f <- M.funs
      ensures ContractLe(c[f], x[f])
    {
      RoundApplies(M, H, c, f);
      HypothesisMono(M, H, x, f);
      SameView(M, x, x, f);
      LeTrans(c[f], Next(M, x, x, f), x[f]);
    }
  }

  // ---------- when contracts only ascend ----------

  /** A round under a total hypothesis ascends exactly when the equations only strengthen the
      hypothesis. */
  lemma AscendsExact(M: Program, H: Table, c: Table)
    requires Solves(M, H, c) && TypedTable(M, H) && Decided(H)
    ensures TableLe(H, c) <==> Rising(M, H)
  {
    hide Next, ContractLe, TypedContract;
    forall f <- M.funs
      ensures c[f] == Next(M, H, H, f)
    {
      RoundApplies(M, H, c, f);
    }
  }

  /** The contracts of successive rounds, each read through the one before. */
  ghost predicate Rounds(M: Program, hs: seq<Table>) {
    hs != [] && forall i {:trigger hs[i]} :: 0 <= i < |hs| - 1 ==> Solves(M, hs[i], hs[i + 1])
  }

  lemma RoundTyped(M: Program, H: Table, c: Table)
    requires Solves(M, H, c)
    ensures TypedTable(M, c) && Decided(c)
  {
    hide Next;
    SolutionClosed(M, H, c);
    forall f <- c
      ensures Unknown !in c[f]
    {
      SolutionDecided(M, H, c, f);
    }
  }

  /** Rising is kept by a round. */
  lemma StepRises(M: Program, H: Table, c: Table)
    requires WellTyped(M) && Rising(M, H) && Solves(M, H, c)
    ensures Rising(M, c)
  {
    hide WellTyped, Next, ContractLe, TypedContract;
    AscendsExact(M, H, c);
    RoundTyped(M, H, c);
    forall f <- M.funs
      ensures ContractLe(c[f], Next(M, c, c, f))
    {
      RoundApplies(M, H, c, f);
      HypothesisMono(M, H, c, f);
    }
  }

  lemma {:induction false} StaysRising(M: Program, hs: seq<Table>, i: nat)
    requires WellTyped(M) && Rounds(M, hs) && Rising(M, hs[0]) && i < |hs|
    ensures Rising(M, hs[i]) && TypedTable(M, hs[i]) && Decided(hs[i])
  {
    hide WellTyped, Next, ContractLe, TypedContract, Solves;
    if i > 0 {
      StaysRising(M, hs, i - 1);
      assert Solves(M, hs[i - 1], hs[i - 1 + 1]);
      StepRises(M, hs[i - 1], hs[i]);
    }
  }

  /** Main result on leftover hypotheses: over a whole run of rounds the contracts only ascend
      exactly when the first hypothesis is one the equations only strengthen. */
  lemma RunAscendsExact(M: Program, hs: seq<Table>)
    requires WellTyped(M) && Rounds(M, hs) && |hs| >= 2 && TypedTable(M, hs[0]) && Decided(hs[0])
    ensures (forall i {:trigger hs[i]} :: 0 <= i < |hs| - 1 ==> TableLe(hs[i], hs[i + 1])) <==> Rising(M, hs[0])
  {
    hide WellTyped, Rising, TableLe, Solves;
    assert Solves(M, hs[0], hs[0 + 1]);
    AscendsExact(M, hs[0], hs[1]);
    if Rising(M, hs[0]) {
      forall i {:trigger hs[i]} | 0 <= i < |hs| - 1
        ensures TableLe(hs[i], hs[i + 1])
      {
        StaysRising(M, hs, i);
        AscendsExact(M, hs[i], hs[i + 1]);
      }
    } else {
      assert !TableLe(hs[0], hs[0 + 1]);
    }
  }

  /** A solution above the hypothesis and below every closed table above it is the least one
      exactly when no closed table fails to be above the hypothesis. */
  lemma LeastExact(M: Program, H: Table, c: Table)
    requires Solves(M, map[], c) && (H == map[] || TableLe(H, c)) && forall x :: Above(M, H, x) ==> TableLe(c, x)
    ensures Least(M, map[], c) <==> forall x :: Closed(M, map[], x) ==> Above(M, H, x)
  {
    hide TableLe, Solves, Closed;
    if Least(M, map[], c) && H != map[] {
      forall x | Closed(M, map[], x)
        ensures TableLe(H, x)
      {
        TableLeTrans(H, c, x);
      }
    }
  }

  /** From a typed hypothesis below every closed table, rising or not, a solution the rounds
      reach is the least one. */
  lemma BelowLeast(M: Program, hs: seq<Table>)
    requires WellTyped(M) && Rounds(M, hs) && TypedTable(M, hs[0]) && Solves(M, map[], hs[|hs| - 1])
    requires forall x :: Closed(M, map[], x) ==> TableLe(hs[0], x)
    ensures Least(M, map[], hs[|hs| - 1])
  {
    hide WellTyped, Solves, Closed, TableLe, TypedTable;
    forall x | Closed(M, map[], x)
      ensures TableLe(hs[|hs| - 1], x)
    {
      StaysBelow(M, hs, |hs| - 1, x);
    }
  }

  lemma {:induction false} StaysBelow(M: Program, hs: seq<Table>, i: nat, x: Table)
    requires WellTyped(M) && Rounds(M, hs) && TypedTable(M, hs[0]) && i < |hs|
    requires Closed(M, map[], x) && TableLe(hs[0], x)
    ensures TableLe(hs[i], x) && TypedTable(M, hs[i])
  {
    hide WellTyped, Solves, Closed, TableLe, TypedTable;
    if i > 0 {
      StaysBelow(M, hs, i - 1, x);
      assert Solves(M, hs[i - 1], hs[i - 1 + 1]);
      RoundBelow(M, hs[i - 1], hs[i], x);
      RoundTyped(M, hs[i - 1], hs[i]);
    }
  }

  // ---------- when the rounds end ----------

  /** The equations applied once to a hypothesis. */
  ghost function Applied(M: Program, H: Table): (c: Table)
    ensures c.Keys == M.funs.Keys && forall f <- M.funs :: c[f] == Next(M, H, H, f)
  {
    map f | f in M.funs :: Next(M, H, H, f)
  }

  /** The equations applied `n` times to a hypothesis. */
  ghost function Iterate(M: Program, H: Table, n: nat): Table {
    if n == 0 then H else Applied(M, Iterate(M, H, n - 1))
  }

  lemma RoundIsApplied(M: Program, H: Table, c: Table)
    requires Solves(M, H, c) && H.Keys == M.funs.Keys
    ensures c == Applied(M, H) && c.Keys == M.funs.Keys
  {
    hide Next;
    forall f <- M.funs
      ensures c[f] == Next(M, H, H, f)
    {
      RoundApplies(M, H, c, f);
    }
  }

  /** Rounds from a table with every function are the iterates of the equations, whatever facts
      are reused. */
  lemma {:induction false} RoundsIterate(M: Program, hs: seq<Table>, from: nat, i: nat)
    requires Rounds(M, hs) && from + i < |hs| && hs[from].Keys == M.funs.Keys
    ensures hs[from + i] == Iterate(M, hs[from], i) && hs[from + i].Keys == M.funs.Keys
  {
    hide Next, Solves, Applied;
    if i > 0 {
      RoundsIterate(M, hs, from, i - 1);
      assert Solves(M, hs[from + i - 1], hs[from + i - 1 + 1]);
      RoundIsApplied(M, hs[from + i - 1], hs[from + i]);
    }
  }

  /** One of the first `n` iterates solves the true equations. */
  ghost predicate Settles(M: Program, H: Table, n: nat) {
    exists i: nat {:trigger Iterate(M, H, i)} :: i <= n && Solves(M, map[], Iterate(M, H, i))
  }

  /** A hypothesis the equations only weaken. */
  ghost predicate Falling(M: Program, H: Table) {
    TypedTable(M, H) && Decided(H) && forall f <- M.funs :: ContractLe(Next(M, H, H, f), H[f])
  }

  lemma FallStep(M: Program, H: Table)
    requires WellTyped(M) && Falling(M, H)
    ensures var c := Iterate(M, H, 1); Falling(M, c) && TableLe(c, H)
  {
    hide WellTyped, Next, ContractLe, TypedContract;
    var c := Iterate(M, H, 1);
    assert Iterate(M, H, 0) == H && c == Applied(M, H);
    StepTyped(M, H, c);
    forall f <- M.funs
      ensures ContractLe(Next(M, c, c, f), c[f])
    {
      HypothesisMono(M, c, H, f);
    }
  }

  lemma StepTyped(M: Program, H: Table, c: Table)
    requires c.Keys == M.funs.Keys && forall f <- M.funs :: c[f] == Next(M, H, H, f)
    ensures TypedTable(M, c) && Decided(c)
  {
    hide Next;
    forall f <- M.funs
      ensures |c[f]| == |SigOf(M, f)| && TypedContract(SigOf(M, f), c[f]) && Unknown !in c[f]
    {
      NextTyped(M, H, H, f);
      NextDecided(M, H, H, f);
    }
  }

  lemma {:induction false} IterateShift(M: Program, H: Table, n: nat)
    ensures Iterate(M, H, n + 1) == Iterate(M, Iterate(M, H, 1), n)
  {
    hide Applied, Next;
    if n > 0 {
      IterateShift(M, H, n - 1);
    }
  }

  /** How far a table can still fall. */
  ghost function Fall(M: Program, H: Table): nat {
    if Headroom(M.defs, H) <= Headroom(M.defs, Bottom(M)) then Headroom(M.defs, Bottom(M)) - Headroom(M.defs, H) else 0
  }

  /** Dual to rising: a falling hypothesis reaches a solution as well. */
  lemma {:induction false} FallingSettles(M: Program, H: Table)
    requires WellTyped(M) && Falling(M, H)
    ensures Settles(M, H, Fall(M, H))
    decreases Fall(M, H)
  {
    hide WellTyped, Next, Headroom, ContractLe, TypedContract, Bottom;
    var c := Iterate(M, H, 1);
    assert Iterate(M, H, 0) == H;
    FallStep(M, H);
    if c == H {
      FixedSolves(M, H);
      assert Settles(M, H, 0);
    } else {
      FallDrops(M, H, c);
      FallingSettles(M, c);
      var i: nat :| i <= Fall(M, c) && Solves(M, map[], Iterate(M, c, i));
      IterateShift(M, H, i);
      assert Solves(M, map[], Iterate(M, H, i + 1));
    }
  }

  lemma FixedSolves(M: Program, H: Table)
    requires H.Keys == M.funs.Keys && forall f <- M.funs :: H[f] == Next(M, H, H, f)
    ensures Solves(M, map[], H)
  {
    hide Next;
    forall f <- M.funs
      ensures H[f] == Next(M, map[], H, f)
    {
      SameView(M, H, H, f);
    }
  }

  lemma FallDrops(M: Program, H: Table, c: Table)
    requires WellTyped(M) && Falling(M, H) && Falling(M, c) && TableLe(c, H) && c != H
    ensures Fall(M, c) < Fall(M, H)
  {
    hide Next, Headroom, ContractLe, TypedContract, Bottom;
    var f :| f in H && c[f] != H[f];
    assert f in M.defs;
    HeadroomShrinks(M.defs, c, H);
    BottomTyped(M);
    BottomLeast(M, c);
    BottomDecided(M);
    HeadroomShrinks(M.defs, Bottom(M), c);
  }

  lemma BottomDecided(M: Program)
    ensures Decided(Bottom(M))
  {
  }

  /** Without drift the table solves the true equations: every kept fact was collected under the
      contracts the table now has. */
  lemma NoDriftSolves(M: Program, stamps: Stamps, H: Table, c: Table, memo: FactsMemo)
    requires Solves(M, H, c) && stamps.Some? && M.funs.Keys <= stamps.value.Keys
    requires forall f <- M.funs :: UpToDate(M, stamps, memo, f, ViewOf(H, c)) && !Drifted(c, memo[f])
    ensures Solves(M, map[], c)
  {
    hide Inferred, Explains;
    forall f <- M.funs
      ensures c[f] == Next(M, map[], c, f)
    {
      var e := memo[f];
      assert HoldsUnder(e, ViewOf(map[], c));
      ReuseIsCollect(M.funs[f], e, ViewOf(H, c));
      ReuseIsCollect(M.funs[f], e, ViewOf(map[], c));
      InferredIs(M.funs[f], ViewOf(H, c), ViewOf(map[], c));
    }
  }

  lemma InferredIs(F: Fun, v: View, w: View)
    requires Collect(F, v).facts == Collect(F, w).facts
    ensures Inferred(F, v) == Inferred(F, w)
  {
  }

  /** Facts of a function drift only when the round refuted its hypothesis. */
  lemma DriftMeansRefuted(M: Program, stamps: Stamps, H: Table, c: Table, memo: FactsMemo, f: Def)
    requires WellTyped(M) && f in M.funs && stamps.Some? && M.funs.Keys <= stamps.value.Keys && c.Keys == M.funs.Keys
    requires UpToDate(M, stamps, memo, f, ViewOf(H, c)) && Drifted(c, memo[f])
    ensures H != map[] && (H.Keys == c.Keys ==> H != c)
  {
    hide Explains, Callees, Typed;
    ReuseIsCollect(M.funs[f], memo[f], ViewOf(H, c));
    var d :| d in memo[f].seen && (d !in c || c[d] != memo[f].seen[d]);
    assert ViewOf(H, c)(d) == memo[f].seen[d];
    assert d in M.funs;
  }

  /** The facts a run can only lose: with stamps those of functions that no longer exist, without
      stamps all of them. */
  function Stale(M: Program, stamps: Stamps, memo: FactsMemo): set<Def> {
    memo.Keys - (if stamps.Some? then M.funs.Keys else {})
  }

  /** Whether rounds from `H` check what they read. Without stamps no fact records the contracts
      it was collected under, so only a hypothesis that reads nothing wrong is safe. */
  ghost predicate Verifies(M: Program, stamps: Stamps, H: Table) {
    stamps.Some? || H == map[] || Solves(M, map[], H)
  }

  lemma DriftIsStale(M: Program, stamps: Stamps, H: Table, memo0: FactsMemo, c: Table, memo: FactsMemo,
        drifted: set<Def>)
    requires WellTyped(M) && RoundResult(M, stamps, H, memo0, c, memo, drifted)
    requires stamps.None? || H == map[] || H == c
    ensures drifted <= Stale(M, stamps, memo0)
  {
    hide WellTyped, UpToDate, Drifted, Least;
    forall f <- drifted
      ensures f in Stale(M, stamps, memo0)
    {
      if f in M.funs && stamps.Some? {
        DriftMeansRefuted(M, stamps, H, c, memo, f);
      }
    }
  }

  lemma MemoAfter(M: Program, stamps: Stamps, memo: FactsMemo, drifted: set<Def>)
    requires MemoSound(M, stamps, memo)
    ensures MemoSound(M, stamps, memo - drifted)
  {
  }

  /** What a refuted round from a startable hypothesis achieves: contracts become stronger or
      stale facts fewer. */
  ghost predicate Progress(M: Program, H: Table, c: Table, stale0: nat, stale: nat) {
    H != map[] ==> c != map[] && Headroom(M.defs, c) + stale < Headroom(M.defs, H) + stale0
  }

  /** A round climbs, stays rising, and stays below every closed table above its hypothesis. */
  ghost predicate RoundAscends(M: Program, H: Table, c: Table) {
    && Rising(M, c) && (H != map[] ==> TableLe(H, c))
    && forall x :: Above(M, H, x) ==> TableLe(c, x) && Above(M, c, x)
  }

  /** What a round from `H` to `c` says about its run, with so many stale facts before and
      after. */
  ghost predicate RoundFacts(M: Program, stamps: Stamps, H: Table, c: Table, stale: nat, left: nat, done: bool) {
    && Solves(M, H, c) && left <= stale
    && (Verifies(M, stamps, H) ==> if done then Solves(M, map[], c) else Verifies(M, stamps, c))
    && (H == map[] || Solves(M, map[], H) ==> Solves(M, map[], c))
    && (!done && (stamps.None? || H == map[] || Solves(M, map[], H)) ==> left < stale)
    && (Startable(M, H) ==> RoundAscends(M, H, c) && (done || Progress(M, H, c, stale, left)))
  }

  lemma RoundProgress(M: Program, stamps: Stamps, H: Table, memo0: FactsMemo, c: Table, memo: FactsMemo,
        drifted: set<Def>)
    requires WellTyped(M) && Startable(M, H) && RoundResult(M, stamps, H, memo0, c, memo, drifted)
    requires drifted != {}
    ensures Progress(M, H, c, |Stale(M, stamps, memo0)|, |Stale(M, stamps, memo - drifted)|)
  {
    hide WellTyped, Headroom, TypedTable, Decided, Least, Rising, TableLe, RoundResult, Stale;
    ResultParts(M, stamps, H, memo0, c, memo, drifted);
    RoundRises(M, H, c);
    StaleAfter(M, stamps, memo0, memo, drifted);
    if H == c {
      DriftIsStale(M, stamps, H, memo0, c, memo, drifted);
      SmallerStale(Stale(M, stamps, memo0), drifted);
    } else if H != map[] {
      HeadroomDrops(M, H, c);
      SubsetCard(Stale(M, stamps, memo - drifted), Stale(M, stamps, memo0));
    }
  }

  lemma ResultParts(M: Program, stamps: Stamps, H: Table, memo0: FactsMemo, c: Table, memo: FactsMemo,
        drifted: set<Def>)
    requires RoundResult(M, stamps, H, memo0, c, memo, drifted)
    ensures Least(M, H, c) && TypedTable(M, c) && Decided(c) && MemoSound(M, stamps, memo)
    ensures stamps.None? ==> memo == memo0
    ensures memo.Keys == memo0.Keys + (if stamps.Some? then M.funs.Keys else {})
  {
  }

  lemma StaleSame(M: Program, stamps: Stamps, memo0: FactsMemo, memo: FactsMemo)
    requires memo.Keys == memo0.Keys + (if stamps.Some? then M.funs.Keys else {})
    ensures Stale(M, stamps, memo) == Stale(M, stamps, memo0)
  {
  }

  lemma StaleAfter(M: Program, stamps: Stamps, memo0: FactsMemo, memo: FactsMemo, drifted: set<Def>)
    requires memo.Keys == memo0.Keys + (if stamps.Some? then M.funs.Keys else {})
    ensures Stale(M, stamps, memo - drifted) == Stale(M, stamps, memo0) - drifted
  {
  }

  lemma HeadroomDrops(M: Program, H: Table, c: Table)
    requires WellTyped(M) && Rising(M, H) && TypedTable(M, c) && Decided(c) && TableLe(H, c) && H != c
    ensures Headroom(M.defs, c) < Headroom(M.defs, H) && (H != map[] ==> c != map[])
  {
    hide Next, Headroom, ContractLe, TypedContract;
    var f :| f in H && H[f] != c[f];
    HeadroomShrinks(M.defs, H, c);
    assert f in M.defs;
  }

  lemma SmallerStale(stale: set<Def>, drifted: set<Def>)
    requires drifted <= stale && drifted != {}
    ensures |stale - drifted| < |stale|
  {
    assert |stale - drifted| + |drifted| == |stale| by {
      assert (stale - drifted) + drifted == stale && (stale - drifted) !! drifted;
    }
  }

  lemma SubsetCard(a: set<Def>, b: set<Def>)
    requires a <= b
    ensures |a| <= |b|
  {
    assert b == a + (b - a);
  }

  /** A round from a solution confirms it, one from nothing finds one. */
  lemma SolvedStays(M: Program, H: Table, c: Table)
    requires Solves(M, H, c) && (H == map[] || Solves(M, map[], H))
    ensures Solves(M, map[], c) && (H == map[] || c == H)
  {
    hide Next;
    if H != map[] {
      forall f <- M.funs
        ensures c[f] == H[f]
      {
        RoundApplies(M, H, c, f);
        SolutionFixed(M, H, f);
      }
      assert c == H;
    }
  }

  /** A refuted round got rid of stale facts if it had no contracts to refute, or without stamps. */
  lemma StaleProgress(M: Program, stamps: Stamps, H: Table, memo0: FactsMemo, c: Table, memo: FactsMemo,
        drifted: set<Def>)
    requires WellTyped(M) && RoundResult(M, stamps, H, memo0, c, memo, drifted) && drifted != {}
    requires stamps.None? || H == map[] || Solves(M, map[], H)
    ensures |Stale(M, stamps, memo - drifted)| < |Stale(M, stamps, memo0)|
  {
    hide WellTyped, TypedTable, Decided, RoundResult, Solves, Stale;
    ResultParts(M, stamps, H, memo0, c, memo, drifted);
    if H == map[] || Solves(M, map[], H) {
      LeastSolves(M, H, c);
      SolvedStays(M, H, c);
    }
    DriftIsStale(M, stamps, H, memo0, c, memo, drifted);
    StaleAfter(M, stamps, memo0, memo, drifted);
    SmallerStale(Stale(M, stamps, memo0), drifted);
  }

  lemma LeastSolves(M: Program, H: Table, c: Table)
    requires Least(M, H, c)
    ensures Solves(M, H, c)
  {
  }

  /** How many rounds a hypothesis that is empty or rising can take at most, and any hypothesis
      without stamps. */
  function RoundBound(M: Program, stamps: Stamps, H: Table, memo: FactsMemo): nat {
    1 + (if H == map[] || stamps.None? then 0 else Headroom(M.defs, H)) + |Stale(M, stamps, memo)|
  }

  class Oracle {
    var prev: Table
    var facts: FactsMemo
    var rounds: nat

    constructor ()
      ensures prev == map[] && facts == map[]
    {
      prev, facts, rounds := map[], map[], 0;
    }

    /** Infers every contract, giving up after `budget` rounds, because from some hypotheses the
        rounds never end. With stamps they end exactly when some table along the way solves the
        true equations, and then after as many more rounds as there are stale facts; for a
        hypothesis with every function these tables are the iterates of the equations. From an
        empty or rising hypothesis, and always without stamps, `RoundBound` rounds are enough;
        from a falling one `Fall` more. A result that was verified solves the equations. From an
        empty or rising hypothesis it lies above the hypothesis and below every closed table
        above it, and it is the least solution exactly when no closed table fails to be above the
        hypothesis. `hs` lists the hypotheses and the result. */
    method InferContracts(M: Program, stamps: Stamps, budget: nat) returns (r: Option<Table>, ghost hs: seq<Table>)
      requires WellTyped(M) && MemoSound(M, stamps, facts)
      modifies this
      ensures MemoSound(M, stamps, facts) && rounds <= budget && (r.None? ==> rounds == budget)
      ensures stamps.None? ==> forall f <- facts :: f in old(facts) && facts[f] == old(facts)[f]
      ensures Rounds(M, hs) && |hs| == rounds + 1 && hs[0] == old(prev) && prev == hs[rounds]
      ensures r.Some? ==> rounds > 0 && prev == r.value
      ensures r.Some? && Verifies(M, stamps, old(prev)) ==> Solves(M, map[], r.value)
      ensures forall i: nat :: i <= rounds && Solves(M, map[], hs[i]) ==>
        rounds <= i + |Stale(M, stamps, old(facts))| + (if r.Some? then 1 else 0)
      ensures old(prev).Keys == M.funs.Keys && r.Some? && Verifies(M, stamps, old(prev)) ==>
        Settles(M, old(prev), budget)
      ensures old(prev).Keys == M.funs.Keys ==>
        forall n: nat {:trigger Settles(M, old(prev), n)} ::
          Settles(M, old(prev), n) ==>
            var enough := n + 1 + |Stale(M, stamps, old(facts))|;
            rounds <= enough && (enough <= budget ==> r.Some?)
      ensures Falling(M, old(prev)) && Fall(M, old(prev)) + 1 + |Stale(M, stamps, old(facts))| <= budget ==> r.Some?
      ensures TypedTable(M, old(prev)) && r.Some? && Verifies(M, stamps, old(prev)) ==>
        (forall x :: Closed(M, map[], x) ==> TableLe(old(prev), x)) ==>
          Least(M, map[], r.value)
      ensures Startable(M, old(prev)) || stamps.None? ==>
        var bound := RoundBound(M, stamps, old(prev), old(facts));
        rounds <= bound && (bound <= budget ==> r.Some?)
      ensures Startable(M, old(prev)) && r.Some? ==>
        && (old(prev) == map[] || TableLe(old(prev), r.value))
        && (forall x :: Above(M, old(prev), x) ==> TableLe(r.value, x))
        && (Verifies(M, stamps, old(prev)) ==>
              (Least(M, map[], r.value) <==> forall x :: Closed(M, map[], x) ==> Above(M, old(prev), x)))
    {
      hide WellTyped, Rising, Headroom, MemoSound, TableLe, Above, Solves, Stale, Least, Closed, Rounds, Settles,
        Verifies, Fall, Falling, TypedTable, Decided;
      ghost var H, stale := prev, |Stale(M, stamps, facts)|;
      var done;
      done, hs := RunRounds(M, stamps, budget);
      r := None;
      if done {
        r := Some(prev);
        MemoAfter(M, stamps, facts, facts.Keys - M.funs.Keys);
        facts := facts - (facts.Keys - M.funs.Keys);
        if Startable(M, H) && Verifies(M, stamps, H) {
          LeastExact(M, H, prev);
        }
      }
      EndsExactly(M, H, hs, r, budget, stale, Verifies(M, stamps, H));
    }

    /** The loop over the rounds; `done` when the last one refuted nothing. */
    method RunRounds(M: Program, stamps: Stamps, budget: nat) returns (done: bool, ghost hs: seq<Table>)
      requires WellTyped(M) && MemoSound(M, stamps, facts)
      modifies this
      ensures MemoSound(M, stamps, facts) && rounds <= budget && (if done then rounds > 0 else rounds == budget)
      ensures stamps.None? ==> forall f <- facts :: f in old(facts) && facts[f] == old(facts)[f]
      ensures Rounds(M, hs) && |hs| == rounds + 1 && hs[0] == old(prev) && prev == hs[rounds]
      ensures done && Verifies(M, stamps, old(prev)) ==> Solves(M, map[], prev)
      ensures forall i: nat :: i <= rounds && Solves(M, map[], hs[i]) ==>
        rounds <= i + |Stale(M, stamps, old(facts))| + (if done then 1 else 0)
      ensures Startable(M, old(prev)) || stamps.None? ==>
        rounds + (if done then 0 else 1) <= RoundBound(M, stamps, old(prev), old(facts))
      ensures Startable(M, old(prev)) && done ==>
        && (old(prev) == map[] || TableLe(old(prev), prev))
        && (forall x :: Above(M, old(prev), x) ==> TableLe(prev, x))
    {
      hide WellTyped, MemoSound, Solves, Stale, Least, Rounds, Verifies, Startable, RoundBound, Ran, RoundFacts;
      ghost var stale: nat := |Stale(M, stamps, facts)|;
      RanNothing(M, stamps, prev, stale);
      rounds, done := 0, false;
      var H := prev;
      hs := [H];
      while !done && rounds < budget
        invariant MemoSound(M, stamps, facts)
        invariant stamps.None? ==> forall f <- facts :: f in old(facts) && facts[f] == old(facts)[f]
        invariant rounds <= budget && |hs| == rounds + 1 && prev == hs[rounds]
        invariant if done then rounds > 0 else prev == H
        invariant Ran(M, stamps, old(prev), |Stale(M, stamps, old(facts))|, hs, stale, done)
        invariant !done ==> stale == |Stale(M, stamps, facts)|
        decreases budget - rounds
      {
        rounds := rounds + 1;
        var memo, drifted := RunRound(M, stamps, H);
        RanMore(M, stamps, old(prev), |Stale(M, stamps, old(facts))|, hs, stale, prev,
          |Stale(M, stamps, memo - drifted)|, drifted == {});
        hs, stale := hs + [prev], |Stale(M, stamps, memo - drifted)|;
        if drifted == {} {
          facts, done := memo, true;
        } else {
          facts := memo - drifted;
          H := prev;
        }
      }
      RanEnds(M, stamps, old(prev), old(facts), hs, stale, done);
    }

    /** One round under any hypothesis `H`; its table becomes the kept one. */
    method RunRound(M: Program, stamps: Stamps, H: Table) returns (memo: FactsMemo, drifted: set<Def>)
      requires WellTyped(M) && MemoSound(M, stamps, facts)
      modifies this`prev
      ensures Least(M, H, prev) && Solves(M, H, prev) && MemoSound(M, stamps, memo)
      ensures MemoSound(M, stamps, memo - drifted)
      ensures stamps.None? ==> memo == facts
      ensures RoundFacts(M, stamps, H, prev, |Stale(M, stamps, facts)|, |Stale(M, stamps, memo - drifted)|,
        drifted == {})
    {
      hide WellTyped, TableLe, Rising, MemoSound, Headroom, Solves, RoundResult, TypedTable, Decided, Stale;
      var c;
      c, memo, drifted := FixpointRound(M, stamps, H, facts);
      ResultParts(M, stamps, H, facts, c, memo, drifted);
      LeastSolves(M, H, c);
      StaleSame(M, stamps, facts, memo);
      MemoAfter(M, stamps, memo, drifted);
      StaleLess(M, stamps, memo, drifted);
      if Startable(M, H) {
        RoundRises(M, H, c);
      }
      if H == map[] || Solves(M, map[], H) {
        SolvedStays(M, H, c);
      }
      if drifted == {} {
        if stamps.Some? {
          RoundSolves(M, stamps, H, facts, c, memo, drifted);
        }
      } else {
        if stamps.None? || H == map[] || Solves(M, map[], H) {
          StaleProgress(M, stamps, H, facts, c, memo, drifted);
        }
        if Startable(M, H) {
          RoundProgress(M, stamps, H, facts, c, memo, drifted);
        }
      }
      prev := c;
    }
  }

  lemma StaleLess(M: Program, stamps: Stamps, memo: FactsMemo, drifted: set<Def>)
    ensures |Stale(M, stamps, memo - drifted)| <= |Stale(M, stamps, memo)|
  {
    SubsetCard(Stale(M, stamps, memo - drifted), Stale(M, stamps, memo));
  }

  /** Where a run from a startable hypothesis `H0` has arrived: above it, and below every closed
      table above it. */
  ghost predicate Ascended(M: Program, H0: Table, c: Table, done: bool) {
    && (if done then Rising(M, c) else Startable(M, c) && (H0 != map[] ==> c != map[]))
    && (H0 != map[] ==> TableLe(H0, c))
    && forall x :: Above(M, H0, x) ==> if done then TableLe(c, x) else Above(M, c, x)
  }

  lemma AscendFirst(M: Program, H: Table)
    requires Startable(M, H)
    ensures Ascended(M, H, H, false)
  {
    hide TableLe;
    if H != map[] {
      TableLeRefl(H);
    }
  }

  lemma AscendsFrom(M: Program, H0: Table, H: Table)
    requires Ascended(M, H0, H, false)
    ensures Startable(M, H) && (H0 != map[] ==> H != map[])
  {
  }

  lemma AscendMore(M: Program, H0: Table, H: Table, c: Table, done: bool)
    requires Ascended(M, H0, H, false) && RoundAscends(M, H, c) && (H != map[] ==> done || c != map[])
    ensures Ascended(M, H0, c, done)
  {
    hide TableLe, Rising, Above;
    if H0 != map[] {
      TableLeTrans(H0, H, c);
    }
  }

  lemma AscendedTo(M: Program, H0: Table, c: Table)
    requires Ascended(M, H0, c, true)
    ensures H0 == map[] || TableLe(H0, c)
    ensures forall x :: Above(M, H0, x) ==> TableLe(c, x)
  {
    hide TableLe, Rising, Above;
  }

  /** At most `n` rounds follow a table that solves the true equations. */
  ghost predicate Bounded(M: Program, hs: seq<Table>, n: nat) {
    forall i: nat {:trigger hs[i]} :: i < |hs| && Solves(M, map[], hs[i]) ==> |hs| - 1 <= i + n
  }

  /** Once a table solves the true equations, so does the last one, and every round since then
      got rid of a stale fact. */
  ghost predicate Tracked(M: Program, hs: seq<Table>, stale: nat, stale0: nat) {
    hs != [] && stale <= stale0 &&
    forall i: nat {:trigger hs[i]} :: i < |hs| && Solves(M, map[], hs[i]) ==>
      Solves(M, map[], hs[|hs| - 1]) && |hs| - 1 - i + stale <= stale0
  }

  lemma RoundsFirst(M: Program, H: Table, stale: nat)
    ensures Rounds(M, [H]) && Tracked(M, [H], stale, stale)
  {
  }

  lemma TrackedBounded(M: Program, hs: seq<Table>, stale0: nat)
    ensures forall stale: nat :: Tracked(M, hs, stale, stale0) ==> Bounded(M, hs, stale0)
    ensures forall n: nat, i: nat :: Bounded(M, hs, n) && i < |hs| && Solves(M, map[], hs[i]) ==> |hs| - 1 <= i + n
  {
    hide Solves;
  }

  lemma TrackedEnds(M: Program, hs: seq<Table>, stale: nat, stale0: nat, c: Table)
    requires Tracked(M, hs, stale, stale0)
    ensures Bounded(M, hs + [c], stale0 + 1)
  {
    hide Solves;
    var more := hs + [c];
    forall i: nat {:trigger more[i]} | i < |more| && Solves(M, map[], more[i])
      ensures |more| - 1 <= i + stale0 + 1
    {
      if i < |hs| {
        assert Solves(M, map[], hs[i]);
      }
    }
  }

  lemma TrackedMore(M: Program, hs: seq<Table>, stale: nat, stale0: nat, c: Table, left: nat)
    requires Tracked(M, hs, stale, stale0) && left <= stale
    requires Solves(M, map[], hs[|hs| - 1]) ==> Solves(M, map[], c) && left < stale
    ensures Tracked(M, hs + [c], left, stale0)
  {
    hide Solves;
    var more := hs + [c];
    forall i: nat {:trigger more[i]} | i < |more| && Solves(M, map[], more[i])
      ensures Solves(M, map[], c) && |more| - 1 - i + left <= stale0
    {
      if i < |hs| {
        assert Solves(M, map[], hs[i]);
      }
    }
  }

  /** What is known of a run from `H0` with `stale0` stale facts: the contracts `hs` of its
      rounds so far, and how many stale facts are left. */
  ghost predicate Ran(M: Program, stamps: Stamps, H0: Table, stale0: nat, hs: seq<Table>, left: nat, done: bool) {
    && Rounds(M, hs) && hs != [] && hs[0] == H0
    && var rounds, c, more := |hs| - 1, hs[|hs| - 1], if done then 1 else 0;
    && (Verifies(M, stamps, H0) ==> if done then Solves(M, map[], c) else Verifies(M, stamps, c))
    && (Startable(M, H0) ==> Ascended(M, H0, c, done))
    && (if done then Bounded(M, hs, stale0 + 1) else Tracked(M, hs, left, stale0))
    && (H0 == map[] ==> c == map[] || Solves(M, map[], c))
    && (H0 == map[] || stamps.None? ==> rounds + left <= stale0 + more)
    && (Startable(M, H0) && H0 != map[] ==>
          rounds + left + (if done then 0 else Headroom(M.defs, c)) <= Headroom(M.defs, H0) + stale0 + more)
  }

  lemma RanNothing(M: Program, stamps: Stamps, H: Table, stale: nat)
    ensures Ran(M, stamps, H, stale, [H], stale, false)
  {
    hide Solves, Verifies, Startable, Headroom;
    RoundsFirst(M, H, stale);
    if Startable(M, H) {
      AscendFirst(M, H);
    }
  }

  lemma RanMore(M: Program, stamps: Stamps, H0: Table, stale0: nat, hs: seq<Table>, stale: nat, c: Table, left: nat,
        done: bool)
    requires Ran(M, stamps, H0, stale0, hs, stale, false)
    requires RoundFacts(M, stamps, hs[|hs| - 1], c, stale, left, done)
    ensures Ran(M, stamps, H0, stale0, hs + [c], left, done)
  {
    hide Solves, Verifies, Startable, Headroom, Rounds, Tracked, Bounded, Ascended, RoundAscends;
    RoundsMore(M, hs, c);
    if Startable(M, H0) {
      AscendsFrom(M, H0, hs[|hs| - 1]);
      AscendMore(M, H0, hs[|hs| - 1], c, done);
    }
    if done {
      TrackedEnds(M, hs, stale, stale0, c);
    } else {
      TrackedMore(M, hs, stale, stale0, c, left);
    }
  }

  lemma RanEnds(M: Program, stamps: Stamps, H0: Table, facts0: FactsMemo, hs: seq<Table>, left: nat, done: bool)
    requires Ran(M, stamps, H0, |Stale(M, stamps, facts0)|, hs, left, done)
    ensures Rounds(M, hs) && hs != [] && hs[0] == H0
    ensures var rounds, c, stale := |hs| - 1, hs[|hs| - 1], |Stale(M, stamps, facts0)|;
      && (done && Verifies(M, stamps, H0) ==> Solves(M, map[], c))
      && (forall i: nat :: i <= rounds && Solves(M, map[], hs[i]) ==> rounds <= i + stale + (if done then 1 else 0))
      && (Startable(M, H0) || stamps.None? ==>
            rounds + (if done then 0 else 1) <= RoundBound(M, stamps, H0, facts0))
      && (Startable(M, H0) && done ==>
            (H0 == map[] || TableLe(H0, c)) && forall x :: Above(M, H0, x) ==> TableLe(c, x))
  {
    hide Solves, Verifies, Startable, Headroom, Tracked, Bounded, Ascended, Stale, TableLe, Above;
    TrackedBounded(M, hs, |Stale(M, stamps, facts0)|);
    if Startable(M, H0) && done {
      AscendedTo(M, H0, hs[|hs| - 1]);
    }
  }

  /** What the rounds of a run say about the iterates of its hypothesis. */
  lemma EndsExactly(M: Program, H: Table, hs: seq<Table>, r: Option<Table>, budget: nat, stale: nat, checks: bool)
    requires WellTyped(M) && Rounds(M, hs) && hs[0] == H && |hs| - 1 <= budget
    requires if r.Some? then r.value == hs[|hs| - 1] else |hs| - 1 == budget
    requires r.Some? && checks ==> Solves(M, map[], r.value)
    requires forall i: nat :: i < |hs| && Solves(M, map[], hs[i]) ==> |hs| - 1 <= i + stale + (if r.Some? then 1 else 0)
    ensures H.Keys == M.funs.Keys && r.Some? && checks ==> Settles(M, H, budget)
    ensures H.Keys == M.funs.Keys ==>
      forall n: nat {:trigger Settles(M, H, n)} :: Settles(M, H, n) ==>
        |hs| - 1 <= n + 1 + stale && (n + 1 + stale <= budget ==> r.Some?)
    ensures Falling(M, H) && Fall(M, H) + 1 + stale <= budget ==> r.Some?
    ensures TypedTable(M, H) && r.Some? && checks && (forall x :: Closed(M, map[], x) ==> TableLe(H, x)) ==>
      Least(M, map[], r.value)
  {
    hide WellTyped, Solves, Fall, Falling, Closed, TableLe, TypedTable, Rounds, Settles;
    if H.Keys == M.funs.Keys {
      if r.Some? && checks {
        RunSettles(M, hs, budget);
      }
      forall n: nat {:trigger Settles(M, H, n)} | Settles(M, H, n)
        ensures |hs| - 1 <= n + 1 + stale && (n + 1 + stale <= budget ==> r.Some?)
      {
        SettledRun(M, hs, n, stale + (if r.Some? then 1 else 0));
      }
    }
    if Falling(M, H) {
      FallingTotal(M, H);
      FallingSettles(M, H);
    }
    if TypedTable(M, H) && r.Some? && checks && forall x :: Closed(M, map[], x) ==> TableLe(H, x) {
      BelowLeast(M, hs);
    }
  }

  lemma RunSettles(M: Program, hs: seq<Table>, budget: nat)
    requires Rounds(M, hs) && hs[0].Keys == M.funs.Keys && |hs| - 1 <= budget && Solves(M, map[], hs[|hs| - 1])
    ensures Settles(M, hs[0], budget)
  {
    hide Solves, Iterate;
    RoundsIterate(M, hs, 0, |hs| - 1);
  }

  lemma SettledRun(M: Program, hs: seq<Table>, n: nat, stale: nat)
    requires Rounds(M, hs) && hs[0].Keys == M.funs.Keys && Settles(M, hs[0], n)
    requires forall i: nat :: i < |hs| && Solves(M, map[], hs[i]) ==> |hs| - 1 <= i + stale
    ensures |hs| - 1 <= n + stale
  {
    hide Solves, Iterate;
    var i: nat :| i <= n && Solves(M, map[], Iterate(M, hs[0], i));
    if i < |hs| {
      RoundsIterate(M, hs, 0, i);
    }
  }

  lemma FallingTotal(M: Program, H: Table)
    requires Falling(M, H)
    ensures H.Keys == M.funs.Keys
  {
  }

  lemma RoundsMore(M: Program, hs: seq<Table>, c: Table)
    requires Rounds(M, hs) && Solves(M, hs[|hs| - 1], c)
    ensures Rounds(M, hs + [c])
  {
    hide Solves;
    var more := hs + [c];
    forall i {:trigger more[i]} | 0 <= i < |more| - 1
      ensures Solves(M, more[i], more[i + 1])
    {
      if i < |hs| - 1 {
        assert Solves(M, hs[i], hs[i + 1]);
      }
    }
  }

  /** Main result on termination: from a hypothesis for every function, the pass ends exactly when
      some iterate of the equations solves them. Given such an iterate, so many rounds are
      enough, whatever facts and stamps it starts from. */
  method InferSettling(o: Oracle, M: Program, stamps: Stamps, n: nat) returns (c: Table)
    requires WellTyped(M) && MemoSound(M, stamps, o.facts) && stamps.Some?
    requires o.prev.Keys == M.funs.Keys && Settles(M, o.prev, n)
    modifies o
    ensures Solves(M, map[], c) && o.rounds <= n + 1 + |Stale(M, stamps, old(o.facts))|
  {
    var r;
    ghost var hs;
    r, hs := o.InferContracts(M, stamps, n + 1 + |Stale(M, stamps, o.facts)|);
    c := r.value;
  }

  /** And without such an iterate it gives no result for any number of rounds. */
  method InferUnsettled(o: Oracle, M: Program, stamps: Stamps, budget: nat) returns (r: Option<Table>)
    requires WellTyped(M) && MemoSound(M, stamps, o.facts) && stamps.Some?
    requires o.prev.Keys == M.funs.Keys && forall n: nat :: !Settles(M, o.prev, n)
    modifies o
    ensures r.None? && o.rounds == budget
  {
    ghost var hs;
    r, hs := o.InferContracts(M, stamps, budget);
  }

  /** A round without drift ends the pass at a solution. */
  lemma RoundSolves(M: Program, stamps: Stamps, H: Table, memo0: FactsMemo, c: Table, memo: FactsMemo,
        drifted: set<Def>)
    requires RoundResult(M, stamps, H, memo0, c, memo, drifted) && drifted == {} && stamps.Some?
    ensures Solves(M, map[], c)
  {
    hide UpToDate, Drifted, Next;
    MemoStamps(M, stamps, memo);
    forall f <- M.funs
      ensures !Drifted(c, memo[f])
    {
    }
    NoDriftSolves(M, stamps, H, c, memo);
  }

  // ---------- hypotheses the rounds do not recover from ----------

  function Forwarder(callee: Def): Fun {
    Fun([0], [false], {}, Prim(Call(callee), [Var(0)]))
  }

  /** A function that only forwards its parameter takes over the callee's contract. */
  lemma ForwardInfers(callee: Def, view: View, b: Behavior)
    requires view(callee) == [b] && b in {Borrow, Escape}
    ensures Inferred(Forwarder(callee), view) == [b]
  {
    var F := Forwarder(callee);
    var S := Taint(seq(|F.params|, _ => UNUSED), map[], map[]);
    assert S.facts == [UNUSED];
    var T := S.(seen := S.seen[callee := [b]]);
    assert [Var(0)][1..] == [];
    assert Position([0], 0) == Some(0);
    var ctx := BehaviorCtx(b);
    assert Walk(F, view, Var(0), ctx, T) == (Flag(F, 0, ctx, T), {0});
    assert Flag(F, 0, ctx, T).facts == [Flagged(UNUSED, ctx)];
    var r := WalkArgs(F, view, Call(callee), [b], [Var(0)], 0, MoveCtx, T);
    assert r == (Flag(F, 0, ctx, T), if b == Escape then {0} + {} else {} + {});
    assert Walk(F, view, F.body, MoveCtx, S) == r;
    assert Collect(F, view).facts[0] ==
      if b == Escape then Flagged(UNUSED, ctx).(escaped := true) else Flagged(UNUSED, ctx);
    assert Inferred(F, view)[0] == b;
  }

  /** Two functions that forward to each other. */
  const MUTUAL := Program([0, 1], map[0 := Forwarder(1), 1 := Forwarder(0)])

  /** The same tables, read as a hypothesis that is half escape and half borrow. */
  function Half(flipped: bool): Table {
    map[0 := [if flipped then Borrow else Escape], 1 := [if flipped then Escape else Borrow]]
  }

  lemma MutualTyped()
    ensures WellTyped(MUTUAL)
  {
    assert Callees(Forwarder(1).body) == {1} && Callees(Forwarder(0).body) == {0} by {
      assert [Var(0)][1..] == [];
    }
  }

  /** From (escape, borrow) one round swaps the two contracts. */
  lemma MutualSwapsOnce(flipped: bool, c: Table)
    requires Solves(MUTUAL, Half(flipped), c)
    ensures c == Half(!flipped)
  {
    hide Inferred;
    var H := Half(flipped);
    ForwardInfers(1, ViewOf(H, c), if flipped then Escape else Borrow);
    ForwardInfers(0, ViewOf(H, c), if flipped then Borrow else Escape);
    assert c[0] == Next(MUTUAL, H, c, 0) && c[1] == Next(MUTUAL, H, c, 1);
  }

  lemma HalfSolvesNothing(flipped: bool)
    ensures !Solves(MUTUAL, map[], Half(flipped))
  {
    hide Inferred;
    var c := Half(flipped);
    ForwardInfers(1, ViewOf(map[], c), if flipped then Escape else Borrow);
    assert Next(MUTUAL, map[], c, 0) != c[0];
  }

  /** From (escape, borrow) the two contracts are swapped in every round, however many there
      are, and no table along the way solves the equations. */
  lemma {:induction false} MutualSwaps(hs: seq<Table>, n: nat)
    requires Rounds(MUTUAL, hs) && hs[0] == Half(false) && n < |hs|
    ensures hs[n] == Half(n % 2 == 1) && !Solves(MUTUAL, map[], hs[n])
  {
    hide Solves, Half;
    if n > 0 {
      MutualSwaps(hs, n - 1);
      assert Solves(MUTUAL, hs[n - 1], hs[n - 1 + 1]);
      MutualSwapsOnce((n - 1) % 2 == 1, hs[n]);
    }
    HalfSolvesNothing(n % 2 == 1);
  }

  /** Every one of these rounds refutes some kept fact, so the loop goes on. */
  lemma MutualDrifts(hs: seq<Table>, n: nat, stamps: Stamps, memo0: FactsMemo, memo: FactsMemo, drifted: set<Def>)
    requires Rounds(MUTUAL, hs) && hs[0] == Half(false) && n + 1 < |hs| && stamps.Some?
    requires RoundResult(MUTUAL, stamps, hs[n], memo0, hs[n + 1], memo, drifted)
    ensures drifted != {}
  {
    hide RoundResult, Solves;
    MutualSwaps(hs, n + 1);
    if drifted == {} {
      RoundSolves(MUTUAL, stamps, hs[n], memo0, hs[n + 1], memo, drifted);
    }
  }

  /** The pass never ends: no number of rounds is enough. */
  method MutualNeverEnds(o: Oracle, stamps: Stamps, budget: nat) returns (r: Option<Table>)
    requires o.prev == Half(false) && stamps.Some? && MemoSound(MUTUAL, stamps, o.facts)
    modifies o
    ensures r.None? && o.rounds == budget && o.prev == Half(budget % 2 == 1)
  {
    hide MemoSound, Solves, Half, WellTyped, Rising;
    MutualTyped();
    ghost var hs;
    r, hs := o.InferContracts(MUTUAL, stamps, budget);
    MutualSwaps(hs, o.rounds);
  }

  /** Without stamps nothing is verified: kept contracts with no kept facts are applied once and
      the result is taken for the solution. */
  method InferUnverified(o: Oracle, M: Program) returns (c: Table)
    requires WellTyped(M) && o.prev.Keys == M.funs.Keys && o.facts == map[]
    modifies o
    ensures o.rounds == 1 && Solves(M, old(o.prev), c) && c == Iterate(M, old(o.prev), 1)
  {
    hide WellTyped, Solves, Iterate, Headroom, Settles, Fall, Falling, Startable, Closed, Least, Verifies, Rounds,
      Above, TableLe, TypedTable;
    var r;
    ghost var hs;
    r, hs := o.InferContracts(M, None, 1);
    c := r.value;
    OneRound(M, hs);
  }

  lemma OneRound(M: Program, hs: seq<Table>)
    requires Rounds(M, hs) && |hs| == 2 && hs[0].Keys == M.funs.Keys
    ensures Solves(M, hs[0], hs[1]) && hs[1] == Iterate(M, hs[0], 1)
  {
    hide Solves, Iterate;
    assert Solves(M, hs[0], hs[0 + 1]);
    RoundsIterate(M, hs, 0, 1);
  }

  /** It need not be one: from (escape, borrow) it is (borrow, escape), which solves nothing. */
  method UnverifiedSwaps(o: Oracle) returns (c: Table)
    requires o.prev == Half(false) && o.facts == map[]
    modifies o
    ensures c == Half(true) && !Solves(MUTUAL, map[], c)
  {
    hide Solves, WellTyped, Half, Iterate;
    MutualTyped();
    HalfKeys(false);
    c := InferUnverified(o, MUTUAL);
    MutualSwapsOnce(false, c);
    HalfSolvesNothing(true);
  }

  // ---------- how such hypotheses come about ----------

  /** A function whose parameter flows into its result. */
  const PASSES := Fun([0], [false], {}, Var(0))

  /** A function that only reads a part of its parameter. */
  const LOOKS := Fun([0], [false], {}, Field(Var(0), 0, true))

  lemma PassesInfers(view: View)
    ensures Inferred(PASSES, view) == [Escape]
  {
    var S := Taint(seq(|PASSES.params|, _ => UNUSED), map[], map[]);
    assert S.facts == [UNUSED];
    assert Position([0], 0) == Some(0);
    assert Walk(PASSES, view, PASSES.body, MoveCtx, S) == (Flag(PASSES, 0, MoveCtx, S), {0});
    assert Collect(PASSES, view).facts[0] == Flagged(UNUSED, MoveCtx).(escaped := true);
    assert Inferred(PASSES, view)[0] == Escape;
  }

  lemma LooksInfers(view: View)
    ensures Inferred(LOOKS, view) == [Borrow]
  {
    var S := Taint(seq(|LOOKS.params|, _ => UNUSED), map[], map[]);
    assert S.facts == [UNUSED];
    assert Position([0], 0) == Some(0);
    assert Walk(LOOKS, view, Var(0), ReadCtx, S) == (Flag(LOOKS, 0, ReadCtx, S), {0});
    assert Walk(LOOKS, view, LOOKS.body, MoveCtx, S) == (Flag(LOOKS, 0, ReadCtx, S), {});
    assert Collect(LOOKS, view).facts[0] == Flagged(UNUSED, ReadCtx);
    assert Inferred(LOOKS, view)[0] == Borrow;
  }

  /** Before the edit that turned both bodies into forwarders. */
  const MUTUAL_BEFORE := Program([0, 1], map[0 := PASSES, 1 := LOOKS])

  /** Before the edit that made the function call itself. */
  const SELF_BEFORE := Program([0], map[0 := PASSES])

  /** Without calls the right-hand sides are constants, so they are the least solution. */
  lemma ConstantLeast(M: Program, c: Table)
    requires c.Keys == M.funs.Keys && forall f <- M.funs, x: Table :: Next(M, map[], x, f) == c[f]
    ensures Least(M, map[], c)
  {
    hide Next, ContractLe, TypedContract;
    forall x | Closed(M, map[], x)
      ensures TableLe(c, x)
    {
      forall f <- M.funs
        ensures ContractLe(c[f], x[f])
      {
        assert ContractLe(Next(M, map[], x, f), x[f]);
      }
    }
  }

  /** Both bad hypotheses are the final contracts of an earlier version of the program, with the
      same functions and signatures. */
  lemma HypothesesAreFinals()
    ensures WellTyped(MUTUAL_BEFORE) && Least(MUTUAL_BEFORE, map[], Half(false))
    ensures WellTyped(SELF_BEFORE) && Least(SELF_BEFORE, map[], map[0 := [Escape]])
  {
    hide Inferred, Least;
    MutualBefore();
    SelfBefore();
  }

  lemma MutualBefore()
    ensures WellTyped(MUTUAL_BEFORE) && Least(MUTUAL_BEFORE, map[], Half(false))
  {
    hide Inferred, Least, Half;
    assert WellTyped(MUTUAL_BEFORE);
    forall f <- MUTUAL_BEFORE.funs, x: Table
      ensures f in Half(false) && Next(MUTUAL_BEFORE, map[], x, f) == Half(false)[f]
    {
      MutualConstant(f, x);
    }
    HalfKeys(false);
    ConstantLeast(MUTUAL_BEFORE, Half(false));
  }

  lemma HalfKeys(flipped: bool)
    ensures Half(flipped).Keys == {0, 1}
  {
  }

  lemma MutualConstant(f: Def, x: Table)
    requires f in MUTUAL_BEFORE.funs
    ensures f in Half(false) && Next(MUTUAL_BEFORE, map[], x, f) == Half(false)[f]
  {
    hide Inferred;
    PassesInfers(ViewOf(map[], x));
    LooksInfers(ViewOf(map[], x));
  }

  lemma SelfBefore()
    ensures WellTyped(SELF_BEFORE) && Least(SELF_BEFORE, map[], map[0 := [Escape]])
  {
    hide Inferred, Least;
    var s: Table := map[0 := [Escape]];
    forall f <- SELF_BEFORE.funs, x: Table
      ensures Next(SELF_BEFORE, map[], x, f) == s[f]
    {
      PassesInfers(ViewOf(map[], x));
    }
    ConstantLeast(SELF_BEFORE, s);
  }

  const SELF := Program([0], map[0 := Forwarder(0)])

  /** A self-forwarder started at escape confirms escape, although the least solution is
      borrow. */
  lemma SelfStaysEscaped(c: Table)
    requires Solves(SELF, map[0 := [Escape]], c)
    ensures c == map[0 := [Escape]] && Solves(SELF, map[], c)
    ensures Solves(SELF, map[], map[0 := [Borrow]]) && !Least(SELF, map[], c)
  {
    hide Inferred;
    var H := map[0 := [Escape]];
    var low: Table := map[0 := [Borrow]];
    ForwardInfers(0, ViewOf(H, c), Escape);
    assert c[0] == Next(SELF, H, c, 0);
    assert c == H;
    ForwardInfers(0, ViewOf(map[], c), Escape);
    ForwardInfers(0, ViewOf(map[], low), Borrow);
    SolutionClosed(SELF, map[], low);
    EscapeIsStronger();
  }

  lemma EscapeIsStronger()
    ensures !TableLe(map[0 := [Escape]], map[0 := [Borrow]])
  {
    assert !Weaker(At([Escape], 0), At([Borrow], 0));
    assert !ContractLe([Escape], [Borrow]);
    var a: Table := map[0 := [Escape]];
    var b: Table := map[0 := [Borrow]];
    assert !ContractLe(a[0], b[0]);
  }
}
