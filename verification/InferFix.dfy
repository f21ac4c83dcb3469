/** The inference passes themselves: the reverse-dependency worklist with reused facts, and the
    outer rounds that verify the hypothesis they read. */
module InferFix {
  import opened Wrappers
  import opened Hir
  import opened Infer
  import opened InferMono
  import opened InferCollector
  import opened InferDeps
  import opened InferTables

  type Stamp = (nat, nat)

  /** Facts kept from an earlier collection, the stamps of the body they were collected from,
      and the callee contracts they were collected under. */
  datatype FactsEntry = FactsEntry(stamp: Stamp, facts: seq<ParamFacts>, seen: map<Def, Contract>)

  type FactsMemo = map<Def, FactsEntry>

  /** Without stamps nothing is reused or kept. */
  type Stamps = Option<map<Def, Stamp>>

  /** Some collection of this body gave exactly the entry. */
  ghost predicate Explains(F: Fun, e: FactsEntry) {
    exists v: View :: Collect(F, v).facts == e.facts && Collect(F, v).seen == e.seen
  }

  /** An entry whose stamp is current was collected from the current body. */
  ghost predicate MemoSound(M: Program, stamps: Stamps, memo: FactsMemo) {
    stamps.Some? ==>
      M.funs.Keys <= stamps.value.Keys &&
      forall f <- memo :: f in M.funs && memo[f].stamp == stamps.value[f] ==> Explains(M.funs[f], memo[f])
  }

  /** The entry holds under a view that gives the recorded contracts. */
  ghost predicate HoldsUnder(e: FactsEntry, v: View) {
    forall d <- e.seen :: v(d) == e.seen[d]
  }

  /** Reusing an entry equals collecting again. */
  lemma ReuseIsCollect(F: Fun, e: FactsEntry, v: View)
    requires Explains(F, e) && HoldsUnder(e, v)
    ensures Collect(F, v).facts == e.facts && Collect(F, v).seen == e.seen && e.seen.Keys <= Callees(F.body)
  {
    var w: View :| Collect(F, w).facts == e.facts && Collect(F, w).seen == e.seen;
    CollectDeps(F, w, v);
  }

  /** The entry of `f` is current and recorded what the view still says. */
  ghost predicate UpToDate(M: Program, stamps: Stamps, memo: FactsMemo, f: Def, v: View)
    requires f in M.funs && (stamps.Some? ==> M.funs.Keys <= stamps.value.Keys)
  {
    stamps.Some? ==>
      f in memo && memo[f].stamp == stamps.value[f] && Explains(M.funs[f], memo[f]) && HoldsUnder(memo[f], v)
  }

  // ---------- reverse edges ----------

  /** For every function, the functions that call it. */
  method CallersOf(M: Program) returns (callers: map<Def, seq<Def>>)
    requires Listed(M)
    ensures forall d, g :: (d in callers && g in callers[d]) <==> (g in M.funs && d in Callees(M.funs[g].body))
  {
    callers := map[];
    var i := 0;
    while i < |M.defs|
      invariant 0 <= i <= |M.defs|
      invariant forall d, g :: (d in callers && g in callers[d]) <==> (g in M.defs[..i] && d in Callees(M.funs[g].body))
    {
      var g := M.defs[i];
      assert M.defs[..i + 1] == M.defs[..i] + [g];
      var callees := CalleesOf(M.funs[g].body);
      callers := map d | d in callers.Keys + callees ::
        (if d in callers then callers[d] else []) + (if d in callees then [g] else []);
      i := i + 1;
    }
    assert M.defs[..i] == M.defs;
  }

  // ---------- the worklist's invariant ----------

  /** The table climbs toward every closed table and never overtakes one. */
  ghost predicate Climbing(M: Program, H: Table, c: Table) {
    && TypedTable(M, c) && Decided(c)
    && (forall f <- M.funs :: ContractLe(c[f], Next(M, H, c, f)))
    && forall x :: Closed(M, H, x) ==> TableLe(c, x)
  }

  lemma BottomClimbs(M: Program, H: Table)
    requires WellTyped(M)
    ensures Climbing(M, H, Bottom(M))
  {
    BottomTyped(M);
    forall f <- M.funs
      ensures ContractLe(Bottom(M)[f], Next(M, H, Bottom(M), f))
    {
      NextTyped(M, H, Bottom(M), f);
      BottomLowest(M, f, Next(M, H, Bottom(M), f));
    }
    forall x | Closed(M, H, x)
      ensures TableLe(Bottom(M), x)
    {
      BottomLeast(M, x);
    }
  }

  /** Replacing a contract by its right-hand side keeps the invariant and climbs. */
  lemma UpdateClimbs(M: Program, H: Table, c: Table, f: Def)
    requires WellTyped(M) && Climbing(M, H, c) && f in M.funs
    ensures var d := c[f := Next(M, H, c, f)]; Climbing(M, H, d) && TableLe(c, d) && |d[f]| == |c[f]|
  {
    hide WellTyped, Closed;
    var d := c[f := Next(M, H, c, f)];
    UpdateTyped(M, H, c, f);
    hide Next, ContractLe, TypedContract;
    forall g <- M.funs
      ensures ContractLe(d[g], Next(M, H, d, g))
    {
      NextMono(M, H, c, d, g);
      if g != f {
        LeTrans(c[g], Next(M, H, c, g), Next(M, H, d, g));
      }
    }
    forall x | Closed(M, H, x)
      ensures TableLe(d, x)
    {
      UpdateBelow(M, H, c, f, x);
    }
  }

  lemma UpdateTyped(M: Program, H: Table, c: Table, f: Def)
    requires TypedTable(M, c) && Decided(c) && f in M.funs && ContractLe(c[f], Next(M, H, c, f))
    ensures var d := c[f := Next(M, H, c, f)]; TypedTable(M, d) && Decided(d) && TableLe(c, d) && |d[f]| == |c[f]|
  {
    hide Next;
    var d := c[f := Next(M, H, c, f)];
    NextTyped(M, H, c, f);
    NextDecided(M, H, c, f);
    forall g <- c
      ensures ContractLe(c[g], d[g])
    {
      RefLe(c[g]);
    }
  }

  /** A closed table above `c` is above its right-hand sides. */
  lemma UpdateBelow(M: Program, H: Table, c: Table, f: Def, x: Table)
    requires WellTyped(M) && TypedTable(M, c) && f in M.funs && Closed(M, H, x) && TableLe(c, x)
    ensures TableLe(c[f := Next(M, H, c, f)], x)
  {
    hide WellTyped, Next, ContractLe, TypedContract;
    NextMono(M, H, c, x, f);
    LeTrans(Next(M, H, c, f), Next(M, H, x, f), x[f]);
  }

  lemma RefLe(a: Contract)
    ensures ContractLe(a, a)
  {
  }

  lemma LeTrans(a: Contract, b: Contract, c: Contract)
    requires ContractLe(a, b) && ContractLe(b, c)
    ensures ContractLe(a, c)
  {
    forall i: nat
      ensures Weaker(At(a, i), At(c, i))
    {
      assert Weaker(At(a, i), At(b, i)) && Weaker(At(b, i), At(c, i));
    }
  }

  lemma ClimbingRoom(M: Program, H: Table, c: Table, f: Def)
    requires WellTyped(M) && Climbing(M, H, c) && f in M.funs && c[f] != Next(M, H, c, f)
    ensures Headroom(M.defs, c[f := Next(M, H, c, f)]) < Headroom(M.defs, c)
  {
    hide Next, Headroom;
    var d := c[f := Next(M, H, c, f)];
    UpdateClimbs(M, H, c, f);
    HeadroomShrinks(M.defs, c, d);
    assert f in M.defs && c[f] != d[f];
  }

  /** `f` satisfies its equation and its kept facts are current. */
  ghost predicate Settled(M: Program, stamps: Stamps, H: Table, c: Table, memo: FactsMemo, f: Def)
    requires f in M.funs && f in c && (stamps.Some? ==> M.funs.Keys <= stamps.value.Keys)
  {
    c[f] == Next(M, H, c, f) && UpToDate(M, stamps, memo, f, ViewOf(H, c))
  }

  /** A change of `f` leaves settled every function that does not call it. */
  lemma SettledStays(M: Program, stamps: Stamps, H: Table, c: Table, memo: FactsMemo, f: Def, k: Contract, g: Def)
    requires g in M.funs && g in c && f in c && (stamps.Some? ==> M.funs.Keys <= stamps.value.Keys)
    requires f !in Callees(M.funs[g].body)
    requires UpToDate(M, stamps, memo, g, ViewOf(H, c))
    ensures UpToDate(M, stamps, memo, g, ViewOf(H, c[f := k])) && Next(M, H, c[f := k], g) == Next(M, H, c, g)
  {
    var d := c[f := k];
    assert forall e <- Callees(M.funs[g].body) :: ViewOf(H, c)(e) == ViewOf(H, d)(e);
    NextLocal(M, H, c, d, g);
    if stamps.Some? {
      ReuseIsCollect(M.funs[g], memo[g], ViewOf(H, c));
    }
  }

  // ---------- one round ----------

  /** Reuses the facts of `f` when its stamp and every recorded contract still match. */
  method TakeMemo(stamps: Stamps, memo: FactsMemo, f: Def, view: View) returns (r: Option<FactsEntry>)
    requires stamps.Some? ==> f in stamps.value
    ensures r.Some? ==>
      stamps.Some? && f in memo && r.value == memo[f] && memo[f].stamp == stamps.value[f] && HoldsUnder(memo[f], view)
  {
    if stamps.None? || f !in memo || memo[f].stamp != stamps.value[f] {
      return None;
    }
    var e := memo[f];
    var todo := e.seen.Keys;
    while todo != {}
      invariant todo <= e.seen.Keys && forall d <- e.seen :: d !in todo ==> view(d) == e.seen[d]
      decreases |todo|
    {
      var d :| d in todo;
      if view(d) != e.seen[d] {
        return None;
      }
      todo := todo - {d};
    }
    r := Some(e);
  }

  /** The facts of `f` under the view, reused or collected; the memo keeps them. */
  method FactsOf(M: Program, stamps: Stamps, memo: FactsMemo, f: Def, view: View)
    returns (facts: seq<ParamFacts>, next: FactsMemo)
    requires f in M.funs && MemoSound(M, stamps, memo) && (stamps.Some? ==> f in stamps.value)
    ensures facts == Collect(M.funs[f], view).facts && MemoSound(M, stamps, next)
    ensures next.Keys == memo.Keys + (if stamps.Some? then {f} else {})
    ensures forall g <- memo :: g != f ==> next[g] == memo[g]
    ensures stamps.None? ==> next == memo
    ensures UpToDate(M, stamps, next, f, view)
  {
    var hit := TakeMemo(stamps, memo, f, view);
    next := memo;
    if hit.Some? {
      ReuseIsCollect(M.funs[f], hit.value, view);
      facts := hit.value.facts;
    } else {
      var consumed;
      facts, consumed := CollectFacts(M.funs[f], view);
      CollectDeps(M.funs[f], view, view);
      if stamps.Some? {
        var e := FactsEntry(stamps.value[f], facts, consumed);
        assert Collect(M.funs[f], view).facts == e.facts && Collect(M.funs[f], view).seen == e.seen;
        assert Explains(M.funs[f], e);
        next := next[f := e];
      }
    }
  }

  /** What is still queued, without repetition. */
  ghost predicate Queue(M: Program, work: seq<Def>, head: nat, queued: set<Def>) {
    && head <= |work|
    && (forall i, j :: head <= i < j < |work| ==> work[i] != work[j])
    && (forall d :: d in queued <==> d in work[head..])
    && queued <= M.funs.Keys
  }

  /** Queues every caller that is not queued yet. */
  method Enqueue(M: Program, work: seq<Def>, head: nat, queued: set<Def>, callers: seq<Def>)
    returns (work1: seq<Def>, queued1: set<Def>)
    requires Queue(M, work, head, queued) && forall d <- callers :: d in M.funs
    ensures work <= work1 && Queue(M, work1, head, queued1) && queued <= queued1
    ensures forall d <- callers :: d in queued1
  {
    work1, queued1 := work, queued;
    var i := 0;
    while i < |callers|
      invariant 0 <= i <= |callers| && work <= work1 && Queue(M, work1, head, queued1) && queued <= queued1
      invariant forall d <- callers[..i] :: d in queued1
    {
      var d := callers[i];
      assert callers[..i + 1] == callers[..i] + [d];
      if d !in queued1 {
        assert (work1 + [d])[head..] == work1[head..] + [d];
        work1, queued1 := work1 + [d], queued1 + {d};
      }
      i := i + 1;
    }
    assert callers[..i] == callers;
  }

  /** Kept facts whose recorded contracts the table does not confirm. */
  ghost predicate Drifted(c: Table, e: FactsEntry) {
    exists d <- e.seen :: d !in c || c[d] != e.seen[d]
  }

  method FindDrifted(c: Table, memo: FactsMemo) returns (drifted: set<Def>)
    ensures forall f :: f in drifted <==> f in memo && Drifted(c, memo[f])
  {
    drifted := set f | f in memo && exists d <- memo[f].seen :: d !in c || c[d] != memo[f].seen[d];
  }

  /** Everything the worklist keeps between two steps. */
  ghost predicate Working(M: Program, stamps: Stamps, H: Table, c: Table, memo: FactsMemo, work: seq<Def>, head: nat,
        queued: set<Def>)
  {
    && Climbing(M, H, c) && c.Keys == M.funs.Keys && MemoSound(M, stamps, memo) && Queue(M, work, head, queued)
    && forall f <- M.funs :: f in queued || Settled(M, stamps, H, c, memo, f)
  }

  /** As `Working`, just after `f` was taken from the queue. */
  ghost predicate Popping(M: Program, stamps: Stamps, H: Table, c: Table, memo: FactsMemo, f: Def, work: seq<Def>,
        head: nat, queued: set<Def>)
  {
    && f in M.funs
    && Climbing(M, H, c) && c.Keys == M.funs.Keys && MemoSound(M, stamps, memo) && Queue(M, work, head, queued)
    && forall g <- M.funs :: g in queued || g == f || Settled(M, stamps, H, c, memo, g)
  }

  /** Brings the contract of the popped function `f` to its right-hand side and queues its
      callers if that changed it. */
  method Settle(M: Program, stamps: Stamps, H: Table, c0: Table, memo0: FactsMemo, callers: map<Def, seq<Def>>, f: Def,
        work0: seq<Def>, head: nat, queued0: set<Def>)
    returns (c: Table, memo: FactsMemo, work: seq<Def>, queued: set<Def>)
    requires WellTyped(M) && Popping(M, stamps, H, c0, memo0, f, work0, head, queued0)
    requires forall d, g :: (d in callers && g in callers[d]) <==> (g in M.funs && d in Callees(M.funs[g].body))
    ensures Working(M, stamps, H, c, memo, work, head, queued)
    ensures memo.Keys == memo0.Keys + (if stamps.Some? then {f} else {}) && (stamps.None? ==> memo == memo0)
    ensures Headroom(M.defs, c) < Headroom(M.defs, c0) || (c == c0 && work == work0)
  {
    hide Inferred, Callees, WellTyped, Climbing, UpToDate, Queue, MemoSound, Next;
    MemoStamps(M, stamps, memo0);
    var facts;
    facts, memo := FactsOf(M, stamps, memo0, f, ViewOf(H, c0));
    var next := ClassifyAll(M.funs[f].copyParams, facts);
    NextIs(M, H, c0, f);
    OtherSettled(M, stamps, H, c0, memo0, memo, f, queued0);
    c, work, queued := c0, work0, queued0;
    if c[f] != next {
      ClimbingRoom(M, H, c0, f);
      UpdateClimbs(M, H, c0, f);
      c := c[f := next];
      if f in callers {
        work, queued := Enqueue(M, work, head, queued, callers[f]);
      }
      AfterChange(M, stamps, H, c0, memo, f, queued0, queued);
    }
  }

  lemma MemoStamps(M: Program, stamps: Stamps, memo: FactsMemo)
    requires MemoSound(M, stamps, memo)
    ensures stamps.Some? ==> M.funs.Keys <= stamps.value.Keys
  {
  }

  /** After a change of `f` with its callers queued, everything else is still settled. */
  lemma AfterChange(M: Program, stamps: Stamps, H: Table, c: Table, memo: FactsMemo, f: Def, before: set<Def>,
        queued: set<Def>)
    requires f in M.funs && c.Keys == M.funs.Keys && (stamps.Some? ==> M.funs.Keys <= stamps.value.Keys)
    requires forall g <- M.funs :: g in before || g == f || Settled(M, stamps, H, c, memo, g)
    requires UpToDate(M, stamps, memo, f, ViewOf(H, c)) && before <= queued
    requires forall g <- M.funs :: f in Callees(M.funs[g].body) ==> g in queued
    ensures forall g <- M.funs :: g in queued || Settled(M, stamps, H, c[f := Next(M, H, c, f)], memo, g)
  {
    hide Inferred, Callees, UpToDate, Next;
    var k := Next(M, H, c, f);
    forall g <- M.funs | g !in queued
      ensures Settled(M, stamps, H, c[f := k], memo, g)
    {
      SettledStays(M, stamps, H, c, memo, f, k, g);
    }
  }

  /** What a round leaves behind: the least table under the hypothesis, and a memo that is sound
      and current for every function. */
  ghost predicate RoundResult(M: Program, stamps: Stamps, H: Table, memo0: FactsMemo, c: Table, memo: FactsMemo,
        drifted: set<Def>)
  {
    && Least(M, H, c) && TypedTable(M, c) && Decided(c) && MemoSound(M, stamps, memo)
    && memo.Keys == memo0.Keys + (if stamps.Some? then M.funs.Keys else {})
    && (stamps.Some? ==> M.funs.Keys <= stamps.value.Keys)
    && (forall f <- M.funs :: UpToDate(M, stamps, memo, f, ViewOf(H, c)))
    && (stamps.None? ==> memo == memo0)
    && forall f :: f in drifted <==> f in memo && Drifted(c, memo[f])
  }

  /** One round: a worklist from the bottom table, reading through the hypothesis. It ends for
      every hypothesis, and whatever the order of the work, its table is the least solution of
      the equations read through that hypothesis. */
  method FixpointRound(M: Program, stamps: Stamps, H: Table, memo0: FactsMemo)
    returns (c: Table, memo: FactsMemo, drifted: set<Def>)
    requires WellTyped(M) && MemoSound(M, stamps, memo0)
    ensures RoundResult(M, stamps, H, memo0, c, memo, drifted)
  {
    hide Inferred, Callees, WellTyped, Working, Popping, Headroom, UpToDate, Least, TypedTable, Decided, MemoSound,
      Listed, RoundResult, Drifted;
    ProgramListed(M);
    c, memo := Bottom(M), memo0;
    BottomClimbs(M, H);
    var callers := CallersOf(M);
    var work, head, queued := M.defs, 0, M.funs.Keys;
    WorkStarts(M, stamps, H, memo);
    while head < |work|
      invariant Working(M, stamps, H, c, memo, work, head, queued)
      invariant memo0.Keys <= memo.Keys <= memo0.Keys + (if stamps.Some? then M.funs.Keys else {})
      invariant stamps.None? ==> memo == memo0
      decreases Headroom(M.defs, c), |work| - head
    {
      var f := work[head];
      Popped(M, stamps, H, c, memo, work, head, queued);
      head := head + 1;
      c, memo, work, queued := Settle(M, stamps, H, c, memo, callers, f, work, head, queued - {f});
    }
    RoundEnds(M, stamps, H, c, memo, work, head, queued);
    drifted := FindDrifted(c, memo);
    RoundConcludes(M, stamps, H, memo0, c, memo, drifted);
  }

  lemma RoundConcludes(M: Program, stamps: Stamps, H: Table, memo0: FactsMemo, c: Table, memo: FactsMemo,
        drifted: set<Def>)
    requires Least(M, H, c) && TypedTable(M, c) && Decided(c) && MemoSound(M, stamps, memo)
    requires memo0.Keys <= memo.Keys <= memo0.Keys + (if stamps.Some? then M.funs.Keys else {})
    requires (stamps.Some? ==> M.funs.Keys <= stamps.value.Keys) && (stamps.None? ==> memo == memo0)
    requires forall f <- M.funs :: UpToDate(M, stamps, memo, f, ViewOf(H, c)) && (stamps.Some? ==> f in memo)
    requires forall f :: f in drifted <==> f in memo && Drifted(c, memo[f])
    ensures RoundResult(M, stamps, H, memo0, c, memo, drifted)
  {
    hide Least, TypedTable, Decided, MemoSound, UpToDate, Drifted;
  }

  lemma WorkStarts(M: Program, stamps: Stamps, H: Table, memo: FactsMemo)
    requires WellTyped(M) && MemoSound(M, stamps, memo)
    ensures Working(M, stamps, H, Bottom(M), memo, M.defs, 0, M.funs.Keys)
  {
    BottomClimbs(M, H);
    assert M.defs[0..] == M.defs;
  }

  lemma Popped(M: Program, stamps: Stamps, H: Table, c: Table, memo: FactsMemo, work: seq<Def>, head: nat,
        queued: set<Def>)
    requires head < |work| && Working(M, stamps, H, c, memo, work, head, queued)
    ensures work[head] in M.funs && Popping(M, stamps, H, c, memo, work[head], work, head + 1, queued - {work[head]})
  {
    hide Climbing, MemoSound, Settled;
    assert work[head..] == [work[head]] + work[head + 1..];
    assert work[head] in work[head..];
  }

  lemma ProgramListed(M: Program)
    requires WellTyped(M)
    ensures Listed(M)
  {
  }

  lemma NextIs(M: Program, H: Table, c: Table, f: Def)
    requires f in M.funs
    ensures Next(M, H, c, f) == ClassifyAll(M.funs[f].copyParams, Collect(M.funs[f], ViewOf(H, c)).facts)
  {
  }

  lemma OtherSettled(M: Program, stamps: Stamps, H: Table, c: Table, memo: FactsMemo, memo1: FactsMemo, f: Def,
        queued: set<Def>)
    requires c.Keys == M.funs.Keys && (stamps.Some? ==> M.funs.Keys <= stamps.value.Keys)
    requires forall g <- M.funs :: g in queued || g == f || Settled(M, stamps, H, c, memo, g)
    requires memo.Keys <= memo1.Keys && forall g <- memo :: g != f ==> memo1[g] == memo[g]
    ensures forall g <- M.funs :: g in queued || g == f || Settled(M, stamps, H, c, memo1, g)
  {
  }

  lemma RoundEnds(M: Program, stamps: Stamps, H: Table, c: Table, memo: FactsMemo, work: seq<Def>, head: nat,
        queued: set<Def>)
    requires |work| <= head && Working(M, stamps, H, c, memo, work, head, queued)
    ensures Least(M, H, c) && TypedTable(M, c) && Decided(c)
    ensures MemoSound(M, stamps, memo) && (stamps.Some? ==> M.funs.Keys <= stamps.value.Keys)
    ensures forall f <- M.funs :: UpToDate(M, stamps, memo, f, ViewOf(H, c)) && (stamps.Some? ==> f in memo)
  {
    MemoStamps(M, stamps, memo);
    hide MemoSound, UpToDate, Next, Climbing;
    assert work[head..] == [] && queued == {};
    forall f <- M.funs
      ensures c[f] == Next(M, H, c, f) && UpToDate(M, stamps, memo, f, ViewOf(H, c)) && (stamps.Some? ==> f in memo)
    {
      assert Settled(M, stamps, H, c, memo, f);
      UpToDateKept(M, stamps, memo, f, ViewOf(H, c));
    }
    ClimbingEnds(M, H, c);
  }

  /** A climbing table that satisfies its equations is the least solution. */
  lemma ClimbingEnds(M: Program, H: Table, c: Table)
    requires Climbing(M, H, c) && Solves(M, H, c)
    ensures Least(M, H, c) && TypedTable(M, c) && Decided(c)
  {
    hide Next;
  }

  lemma UpToDateKept(M: Program, stamps: Stamps, memo: FactsMemo, f: Def, v: View)
    requires f in M.funs && (stamps.Some? ==> M.funs.Keys <= stamps.value.Keys) && UpToDate(M, stamps, memo, f, v)
    ensures stamps.Some? ==> f in memo
  {
  }
}
