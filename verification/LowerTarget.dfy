/** The finished graph seen from a point of the construction: what the builder has emitted
    so far is what the machine will execute. */
module LowerTarget {
  import opened Wrappers
  import opened Hir
  import opened Semantics
  import opened Mir
  import opened Lower
  import opened LowerShape

  /** The finished graph `T` contains everything `L` has emitted. */
  ghost predicate Ext(L: Builder, T: Builder) {
    && |L.blocks| <= |T.blocks|
    && L.locals <= T.locals
    && forall b {:trigger T.blocks[b]} :: 0 <= b < |L.blocks| ==>
         L.blocks[b].stmts <= T.blocks[b].stmts && (!L.blocks[b].term.Pending? ==> L.blocks[b] == T.blocks[b])
  }

  lemma ExtStep(L: Builder, M: Builder, T: Builder)
    requires Step(L, M) && Ext(M, T)
    ensures Ext(L, T)
  {
    forall b {:trigger T.blocks[b]} | 0 <= b < |L.blocks|
      ensures L.blocks[b].stmts <= T.blocks[b].stmts && (!L.blocks[b].term.Pending? ==> L.blocks[b] == T.blocks[b])
    {
      assert BlockGrows(L.blocks[b], M.blocks[b], b == L.cur);
    }
  }

  /** No symbol has two slots: every loop variable is declared once and named nowhere else. */
  ghost predicate Distinct(locals: seq<Option<Sym>>) {
    forall i, j :: 0 <= i < j < |locals| && locals[i].Some? ==> locals[i] != locals[j]
  }

  lemma SlotIs(locals: seq<Option<Sym>>, s: Sym, l: nat)
    requires Distinct(locals) && l < |locals| && locals[l] == Some(s)
    ensures SlotOf(locals, s) == Some(l)
  {
  }

  /** The machine is about to execute what `L` emits next. */
  function Point(L: Builder, m: seq<Slot>): Cfg
    requires InRange(L)
  {
    At(L.cur, |L.blocks[L.cur].stmts|, m)
  }

  lemma EmitRun(calls: Calls, L: Builder, s: MStmt, T: Builder, m: seq<Slot>)
    requires WF(L) && !L.closed && Ext(Emit(L, s), T)
    ensures var r := ExecStmt(calls, m, s);
      Reaches(T.blocks, calls, Point(L, m), if r.None? then Done(Trapped) else Point(Emit(L, s), r.value))
  {
    var M := Emit(L, s);
    assert M.blocks[L.cur].stmts == L.blocks[L.cur].stmts + [s];
    assert T.blocks[L.cur].stmts[|L.blocks[L.cur].stmts|] == s;
    ReachesStep(T.blocks, calls, Point(L, m));
  }

  lemma CloseRun(calls: Calls, L: Builder, t: Term, T: Builder, m: seq<Slot>)
    requires WF(L) && !L.closed && !t.Pending? && Ext(Close(L, t), T)
    ensures Reaches(T.blocks, calls, Point(L, m), Jump(t, m))
  {
    var M := Close(L, t);
    assert T.blocks[L.cur] == L.blocks[L.cur].(term := t);
    ReachesStep(T.blocks, calls, Point(L, m));
  }

  // ---------- the store and the locals ----------

  /** Every binding that holds a value holds it in its slot. */
  ghost predicate Agree(h: Store, m: seq<Slot>, T: Builder) {
    |m| == |T.locals| &&
    forall s {:trigger IsLive(h, s)} ::
      IsLive(h, s) ==> SlotOf(T.locals, s).Some? && m[SlotOf(T.locals, s).value] == h[s]
  }

  /** The first `n` slots keep their content unless they belong to a symbol. */
  ghost predicate Kept(n: nat, m: seq<Slot>, m': seq<Slot>, T: Builder) {
    |m| == |m'| == |T.locals| &&
    forall l {:trigger m'[l]} :: 0 <= l < n && l < |T.locals| && T.locals[l].None? ==> m'[l] == m[l]
  }

  lemma AgreeSet(h: Store, m: seq<Slot>, T: Builder, x: Sym, l: nat, slot: Slot)
    requires Agree(h, m, T) && Distinct(T.locals) && l < |T.locals| && T.locals[l] == Some(x)
    ensures Agree(h[x := slot], m[l := slot], T)
  {
    var g := h[x := slot];
    forall s | IsLive(g, s)
      ensures SlotOf(T.locals, s).Some? && m[l := slot][SlotOf(T.locals, s).value] == g[s]
    {
      SlotIs(T.locals, x, l);
      if s != x {
        assert IsLive(h, s);
      }
    }
  }

  /** A binding that is not live may be given any content. */
  lemma AgreeLoose(h: Store, m: seq<Slot>, T: Builder, x: Sym, l: nat, slot: Slot)
    requires Agree(h, m, T) && Distinct(T.locals) && l < |T.locals| && T.locals[l] == Some(x) && !IsLive(h, x)
    ensures Agree(h, m[l := slot], T)
  {
    SlotIs(T.locals, x, l);
  }

  lemma AgreeTemp(h: Store, m: seq<Slot>, T: Builder, l: nat, slot: Slot)
    requires Agree(h, m, T) && l < |T.locals| && T.locals[l].None?
    ensures Agree(h, m[l := slot], T)
  {
  }

  lemma AgreeDrop(h: Store, m: seq<Slot>, T: Builder, x: Sym)
    requires Agree(h, m, T)
    ensures Agree(h - {x}, m, T)
  {
    forall s | IsLive(h - {x}, s)
      ensures SlotOf(T.locals, s).Some? && m[SlotOf(T.locals, s).value] == (h - {x})[s]
    {
      assert IsLive(h, s);
    }
  }

  lemma AgreeRead(h: Store, m: seq<Slot>, T: Builder, s: Sym, l: nat)
    requires Agree(h, m, T) && Distinct(T.locals) && l < |T.locals| && T.locals[l] == Some(s) && IsLive(h, s)
    ensures m[l] == h[s] && Read(m, Place(l, [])) == Some(h[s].v)
  {
    SlotIs(T.locals, s, l);
  }

  lemma KeptTrans(n: nat, k: nat, m: seq<Slot>, m1: seq<Slot>, m2: seq<Slot>, T: Builder)
    requires Kept(n, m, m1, T) && Kept(k, m1, m2, T) && n <= k
    ensures Kept(n, m, m2, T)
  {
    forall l {:trigger m2[l]} | 0 <= l < n && l < |T.locals| && T.locals[l].None?
      ensures m2[l] == m[l]
    {
      assert m1[l] == m[l];
    }
  }
}
