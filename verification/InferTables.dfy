/** Contract tables: the equations a module's contracts satisfy, their order, and the measure
    that makes every ascending process end. */
module InferTables {
  import opened Hir
  import opened Infer
  import opened InferMono
  import opened InferDeps

  type Table = map<Def, Contract>

  /** The functions of a workspace in declaration order. */
  datatype Program = Program(defs: seq<Def>, funs: map<Def, Fun>)

  ghost predicate Listed(M: Program) {
    && (forall i, j :: 0 <= i < j < |M.defs| ==> M.defs[i] != M.defs[j])
    && (forall d :: d in M.defs <==> d in M.funs)
  }

  function SigOf(M: Program, d: Def): seq<bool> {
    if d in M.funs then M.funs[d].copyParams else []
  }

  /** Bodies are well typed and call functions of the module only. */
  ghost predicate WellTyped(M: Program) {
    && Listed(M)
    && (forall f <- M.funs :: Typed((d: Def) => SigOf(M, d), M.funs[f].body))
    && (forall f <- M.funs :: Callees(M.funs[f].body) <= M.funs.Keys)
  }

  /** A collection reads the hypothesis where it has an entry, else the table in flight. */
  function ViewOf(H: Table, c: Table): View {
    (d: Def) => if d in H then H[d] else if d in c then c[d] else []
  }

  /** The right-hand side of the equation of `f`. */
  function Next(M: Program, H: Table, c: Table, f: Def): Contract
    requires f in M.funs
  {
    Inferred(M.funs[f], ViewOf(H, c))
  }

  // ---------- tables ----------

  /** One typed contract of the right length for every function. */
  ghost predicate TypedTable(M: Program, c: Table) {
    c.Keys == M.funs.Keys && forall f <- c :: |c[f]| == |SigOf(M, f)| && TypedContract(SigOf(M, f), c[f])
  }

  ghost predicate TableLe(a: Table, b: Table) {
    a.Keys == b.Keys && forall f <- a :: ContractLe(a[f], b[f])
  }

  lemma TableLeRefl(a: Table)
    ensures TableLe(a, a)
  {
  }

  lemma TableLeTrans(a: Table, b: Table, c: Table)
    requires TableLe(a, b) && TableLe(b, c)
    ensures TableLe(a, c)
  {
    forall f <- a
      ensures ContractLe(a[f], c[f])
    {
      assert ContractLe(a[f], b[f]) && ContractLe(b[f], c[f]);
      forall i: nat
        ensures Weaker(At(a[f], i), At(c[f], i))
      {
        assert Weaker(At(a[f], i), At(b[f], i)) && Weaker(At(b[f], i), At(c[f], i));
      }
    }
  }

  /** The weakest typed contract. */
  function BottomOf(sig: seq<bool>): (r: Contract)
    ensures |r| == |sig| && forall i :: 0 <= i < |r| ==> r[i] == if sig[i] then Copy else Borrow
  {
    seq(|sig|, i requires 0 <= i < |sig| => if sig[i] then Copy else Borrow)
  }

  function Bottom(M: Program): Table {
    map f | f in M.funs :: BottomOf(M.funs[f].copyParams)
  }

  lemma BottomTyped(M: Program)
    ensures TypedTable(M, Bottom(M))
  {
    forall f <- M.funs
      ensures TypedContract(SigOf(M, f), Bottom(M)[f])
    {
    }
  }

  lemma BottomLeast(M: Program, c: Table)
    requires TypedTable(M, c)
    ensures TableLe(Bottom(M), c)
  {
    forall f <- M.funs
      ensures ContractLe(Bottom(M)[f], c[f])
    {
      forall i: nat
        ensures Weaker(At(Bottom(M)[f], i), At(c[f], i))
      {
        assert At(c[f], i) == Copy <==> CopyAt(SigOf(M, f), i);
      }
    }
  }

  lemma BottomLowest(M: Program, f: Def, k: Contract)
    requires f in M.funs && |k| == |SigOf(M, f)| && TypedContract(SigOf(M, f), k)
    ensures ContractLe(Bottom(M)[f], k)
  {
    forall i: nat
      ensures Weaker(At(Bottom(M)[f], i), At(k, i))
    {
      assert At(k, i) == Copy <==> CopyAt(SigOf(M, f), i);
    }
  }

  // ---------- the equations are monotone ----------

  lemma NextTyped(M: Program, H: Table, c: Table, f: Def)
    requires f in M.funs
    ensures |Next(M, H, c, f)| == |SigOf(M, f)| && TypedContract(SigOf(M, f), Next(M, H, c, f))
  {
    InferredTyped(M.funs[f], ViewOf(H, c));
  }

  /** Stronger tables give stronger right-hand sides, under any hypothesis. */
  lemma NextMono(M: Program, H: Table, a: Table, b: Table, f: Def)
    requires WellTyped(M) && TypedTable(M, a) && TypedTable(M, b) && TableLe(a, b) && f in M.funs
    ensures ContractLe(Next(M, H, a, f), Next(M, H, b, f))
  {
    var sigs := (d: Def) => SigOf(M, d);
    var v1, v2 := ViewOf(H, a), ViewOf(H, b);
    forall d
      ensures ContractStep(sigs(d), v1(d), v2(d))
    {
      if d !in H && d in a {
        assert ContractLe(a[d], b[d]);
      }
    }
    InferredMono(M.funs[f], sigs, v1, v2);
  }

  /** Stronger typed hypotheses give stronger right-hand sides. */
  lemma HypothesisMono(M: Program, a: Table, b: Table, f: Def)
    requires WellTyped(M) && TypedTable(M, a) && TypedTable(M, b) && TableLe(a, b) && f in M.funs
    ensures ContractLe(Next(M, a, a, f), Next(M, b, b, f))
  {
    NextMono(M, map[], a, b, f);
    SameView(M, a, a, f);
    SameView(M, b, b, f);
  }

  /** A hypothesis for every function hides the table in flight. */
  lemma SameView(M: Program, H: Table, c: Table, f: Def)
    requires f in M.funs && H.Keys == c.Keys
    ensures Next(M, H, c, f) == Next(M, map[], H, f) == Next(M, H, H, f)
  {
    var F := M.funs[f];
    CollectDeps(F, ViewOf(H, c), ViewOf(map[], H));
    CollectDeps(F, ViewOf(H, c), ViewOf(H, H));
    forall d
      ensures ViewOf(H, c)(d) == ViewOf(map[], H)(d) == ViewOf(H, H)(d)
    {
    }
  }

  /** Only the contracts of called functions matter. */
  lemma NextLocal(M: Program, H: Table, a: Table, b: Table, f: Def)
    requires f in M.funs && forall d <- Callees(M.funs[f].body) :: ViewOf(H, a)(d) == ViewOf(H, b)(d)
    ensures Next(M, H, a, f) == Next(M, H, b, f)
  {
    CollectDeps(M.funs[f], ViewOf(H, a), ViewOf(H, b));
  }

  // ---------- room to climb ----------

  function RoomOf(b: Behavior): nat {
    4 - Strength(b)
  }

  function Room(c: Contract): nat {
    if c == [] then 0 else RoomOf(c[0]) + Room(c[1..])
  }

  function Headroom(defs: seq<Def>, c: Table): nat {
    if defs == [] then 0 else (if defs[0] in c then Room(c[defs[0]]) else 0) + Headroom(defs[1..], c)
  }

  /** Stronger contracts of the same length have less room; as much only when equal. */
  lemma {:induction false} RoomShrinks(a: Contract, b: Contract)
    requires |a| == |b| && forall i :: 0 <= i < |a| ==> Weaker(a[i], b[i]) && a[i] != Unknown && b[i] != Unknown
    ensures Room(b) <= Room(a) && (a != b ==> Room(b) < Room(a))
  {
    if a != [] {
      RoomShrinks(a[1..], b[1..]);
      assert Weaker(a[0], b[0]);
      if a != b && a[0] == b[0] {
        assert a == [a[0]] + a[1..] && b == [b[0]] + b[1..];
      }
    }
  }

  ghost predicate Decided(c: Table) {
    forall f <- c :: Unknown !in c[f]
  }

  lemma ContractShrinks(a: Contract, b: Contract)
    requires |a| == |b| && ContractLe(a, b) && Unknown !in a && Unknown !in b
    ensures Room(b) <= Room(a) && (a != b ==> Room(b) < Room(a))
  {
    forall i | 0 <= i < |a|
      ensures Weaker(a[i], b[i]) && a[i] != Unknown && b[i] != Unknown
    {
      assert Weaker(At(a, i), At(b, i));
    }
    RoomShrinks(a, b);
  }

  lemma {:induction false} HeadroomShrinks(defs: seq<Def>, a: Table, b: Table)
    requires TableLe(a, b) && Decided(a) && Decided(b) && forall f <- a :: |a[f]| == |b[f]|
    ensures Headroom(defs, b) <= Headroom(defs, a)
    ensures (exists f <- a :: f in defs && a[f] != b[f]) ==> Headroom(defs, b) < Headroom(defs, a)
  {
    if defs != [] {
      HeadroomShrinks(defs[1..], a, b);
      if defs[0] in a {
        ContractShrinks(a[defs[0]], b[defs[0]]);
      }
    }
  }

  // ---------- solutions ----------

  ghost predicate Solves(M: Program, H: Table, c: Table) {
    c.Keys == M.funs.Keys && forall f <- M.funs :: c[f] == Next(M, H, c, f)
  }

  /** Closed under the equations: no right-hand side exceeds the table. */
  ghost predicate Closed(M: Program, H: Table, c: Table) {
    TypedTable(M, c) && forall f <- M.funs :: ContractLe(Next(M, H, c, f), c[f])
  }

  /** A solution below every closed table, hence the least solution. */
  ghost predicate Least(M: Program, H: Table, c: Table) {
    Solves(M, H, c) && forall x :: Closed(M, H, x) ==> TableLe(c, x)
  }

  lemma SolutionClosed(M: Program, H: Table, c: Table)
    requires Solves(M, H, c)
    ensures Closed(M, H, c)
  {
    forall f <- M.funs
      ensures |c[f]| == |SigOf(M, f)| && TypedContract(SigOf(M, f), c[f]) && ContractLe(Next(M, H, c, f), c[f])
    {
      NextTyped(M, H, c, f);
    }
  }

  /** There is at most one least solution, so no processing order can give another. */
  lemma LeastUnique(M: Program, H: Table, a: Table, b: Table)
    requires Least(M, H, a) && Least(M, H, b)
    ensures a == b
  {
    SolutionClosed(M, H, a);
    SolutionClosed(M, H, b);
    assert TableLe(a, b) && TableLe(b, a);
    forall f <- M.funs
      ensures a[f] == b[f]
    {
      SolutionDecided(M, H, a, f);
      SolutionDecided(M, H, b, f);
      assert ContractLe(a[f], b[f]) && ContractLe(b[f], a[f]);
      ContractShrinks(a[f], b[f]);
      ContractShrinks(b[f], a[f]);
    }
  }

  lemma SolutionDecided(M: Program, H: Table, c: Table, f: Def)
    requires Solves(M, H, c) && f in M.funs
    ensures |c[f]| == |SigOf(M, f)| && Unknown !in c[f]
  {
    NextDecided(M, H, c, f);
  }

  lemma NextDecided(M: Program, H: Table, c: Table, f: Def)
    requires f in M.funs
    ensures |Next(M, H, c, f)| == |SigOf(M, f)| && Unknown !in Next(M, H, c, f)
  {
    var k := Next(M, H, c, f);
    forall b <- k
      ensures b != Unknown
    {
      var i :| 0 <= i < |k| && k[i] == b;
    }
  }
}
