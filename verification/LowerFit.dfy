/** Trees whose lowering keeps left-to-right, by-value meaning, and the dispatch of `match`. */
module LowerFit {
  import opened Wrappers
  import opened Hir
  import opened Semantics
  import opened Mir
  import opened Lower
  import opened Effects

  // ---------- match dispatch ----------

  predicate Lists(arm: Arm, tag: nat) {
    arm.pat.VariantPat? && arm.pat.variant == tag
  }

  /** Every variant arm written behind a catch-all repeats a variant listed before it. */
  ghost predicate InOrder(arms: seq<Arm>) {
    forall i, j :: 0 <= i < j < |arms| && arms[i].pat.BindPat? && arms[j].pat.VariantPat? ==>
      exists k :: 0 <= k < i && Lists(arms[k], arms[j].pat.variant)
  }

  /** The block the lowered dispatch selects for a discriminant. */
  function Dispatch(arms: seq<Arm>, bb: nat, tag: nat): Option<nat> {
    Select(ArmTargets(arms, bb), DefaultTarget(arms, bb), tag)
  }

  /** The block of the first arm, in written order, that matches. */
  function FirstMatch(arms: seq<Arm>, bb: nat, tag: nat): Option<nat> {
    if FindArm(arms, tag).None? then None else Some(bb + FindArm(arms, tag).value)
  }

  function FirstListed(arms: seq<Arm>, tag: nat): (r: Option<nat>)
    ensures r.Some? ==> r.value < |arms| && Lists(arms[r.value], tag)
    ensures forall j :: 0 <= j < (if r.Some? then r.value else |arms|) ==> !Lists(arms[j], tag)
  {
    if arms == [] then None
    else if Lists(arms[0], tag) then Some(0)
    else
      var r := FirstListed(arms[1..], tag);
      assert forall j :: 0 < j < |arms| ==> arms[j] == arms[1..][j - 1];
      if r.Some? then Some(r.value + 1) else None
  }

  function FirstCatchAll(arms: seq<Arm>): (r: Option<nat>)
    ensures r.Some? ==> r.value < |arms| && arms[r.value].pat.BindPat?
    ensures forall j :: 0 <= j < (if r.Some? then r.value else |arms|) ==> !arms[j].pat.BindPat?
  {
    if arms == [] then None
    else if arms[0].pat.BindPat? then Some(0)
    else
      var r := FirstCatchAll(arms[1..]);
      assert forall j :: 0 < j < |arms| ==> arms[j] == arms[1..][j - 1];
      if r.Some? then Some(r.value + 1) else None
  }

  lemma {:induction false} DefaultIs(arms: seq<Arm>, bb: nat)
    ensures DefaultTarget(arms, bb) == if FirstCatchAll(arms).Some? then Some(bb + FirstCatchAll(arms).value) else None
  {
    if arms != [] {
      DefaultIs(arms[1..], bb + 1);
    }
  }

  /** Listed variants win over the default wherever the default is written. */
  lemma {:induction false} DispatchIs(arms: seq<Arm>, bb: nat, default: Option<nat>, tag: nat)
    ensures Select(ArmTargets(arms, bb), default, tag) ==
            if FirstListed(arms, tag).Some? then Some(bb + FirstListed(arms, tag).value) else default
  {
    if arms != [] {
      DispatchIs(arms[1..], bb + 1, default, tag);
      var rest := ArmTargets(arms[1..], bb + 1);
      if arms[0].pat.VariantPat? {
        assert ([(arms[0].pat.variant, bb)] + rest)[1..] == rest;
      }
    }
  }

  /** The lowered dispatch picks the first matching arm for every discriminant exactly when
      the arms are in order. */
  lemma {:induction false} DispatchExact(arms: seq<Arm>, bb: nat)
    ensures (forall tag: nat :: Dispatch(arms, bb, tag) == FirstMatch(arms, bb, tag)) <==> InOrder(arms)
  {
    if InOrder(arms) {
      forall tag: nat
        ensures Dispatch(arms, bb, tag) == FirstMatch(arms, bb, tag)
      {
        DispatchInOrder(arms, bb, tag);
      }
    } else {
      var i, j :| 0 <= i < j < |arms| && arms[i].pat.BindPat? && arms[j].pat.VariantPat? &&
        !exists k :: 0 <= k < i && Lists(arms[k], arms[j].pat.variant);
      var tag := arms[j].pat.variant;
      DispatchIs(arms, bb, DefaultTarget(arms, bb), tag);
      assert Lists(arms[j], tag) && PatMatches(arms[i].pat, tag);
      assert Dispatch(arms, bb, tag) != FirstMatch(arms, bb, tag);
    }
  }

  lemma DispatchInOrder(arms: seq<Arm>, bb: nat, tag: nat)
    requires InOrder(arms)
    ensures Dispatch(arms, bb, tag) == FirstMatch(arms, bb, tag)
  {
    DispatchIs(arms, bb, DefaultTarget(arms, bb), tag);
    DefaultIs(arms, bb);
    var l, c, f := FirstListed(arms, tag), FirstCatchAll(arms), FindArm(arms, tag);
    if f.Some? {
      assert PatMatches(arms[f.value].pat, tag);
      assert arms[f.value].pat.BindPat? || Lists(arms[f.value], tag);
    }
    if c.Some? {
      assert PatMatches(arms[c.value].pat, tag);
    }
    if l.Some? {
      assert PatMatches(arms[l.value].pat, tag);
    }
  }

  // ---------- operands ----------

  /** A place operand is read when it is consumed, so no later operand may write it. */
  predicate Undisturbed(cs: Contracts, args: seq<Expr>)
  {
    args == [] ||
    (Undisturbed(cs, args[1..]) &&
     (TailVar(args[0]).Some? ==> TailVar(args[0]).value !in WritesAll(cs, args[1..])))
  }

  /** A mutably borrowed argument is written as a place or shares nothing. */
  predicate SharesPlaces(cs: Contracts, def: Def, args: seq<Expr>) {
    forall i {:trigger args[i]} ::
      0 <= i < |args| && ContractAt(cs, def, i) == BorrowMut ==> TailVar(args[i]) == PlaceBase(args[i])
  }

  // ---------- the covered trees ----------

  /** No struct values; operands undisturbed; arms in order; a range variable is not written
      by its body; an `if` without `else` is unit. */
  ghost predicate Fits(cs: Contracts, e: Expr)
    decreases e, 1
  {
    match e
    case Lit(_) => true
    case Poison => true
    case Var(_) => true
    case Field(_, _, _) => false
    case Prim(op, args) =>
      !op.StructLit? && FitsAll(cs, args) && Undisturbed(cs, args) && (op.Call? ==> SharesPlaces(cs, op.def, args))
    case Logic(_, l, r) => Fits(cs, l) && Fits(cs, r)
    case If(c, t, f, unit) => Fits(cs, c) && Fits(cs, t) && FitsOpt(cs, f) && (f.None? ==> unit)
    case Block(stmts, tail) => FitsStmts(cs, stmts) && FitsOpt(cs, tail)
    case Match(s, arms, _) =>
      Fits(cs, s) && FitsArms(cs, arms) && InOrder(arms) &&
      (TailVar(s).Some? ==> forall k :: 0 <= k < |arms| ==> TailVar(s).value !in PatSyms(arms[k].pat))
    case ForRange(x, lo, hi, body) => FitsOpt(cs, lo) && FitsOpt(cs, hi) && Fits(cs, body) && x !in Writes(cs, body)
    case ForEach(_, iter, body) => Fits(cs, iter) && Fits(cs, body)
  }

  ghost predicate FitsOpt(cs: Contracts, o: Option<Expr>)
    decreases o, 2
  {
    o.Some? ==> Fits(cs, o.value)
  }

  ghost predicate FitsAll(cs: Contracts, es: seq<Expr>)
    decreases es, 0
  {
    es == [] || (Fits(cs, es[0]) && FitsAll(cs, es[1..]))
  }

  ghost predicate FitsStmts(cs: Contracts, ss: seq<Stmt>)
    decreases ss, 0
  {
    ss == [] || (FitsStmt(cs, ss[0]) && FitsStmts(cs, ss[1..]))
  }

  ghost predicate FitsStmt(cs: Contracts, s: Stmt)
    decreases s, 1
  {
    match s
    case Let(_, init) => FitsOpt(cs, init)
    case Assign(_, path, e) => path == [] && Fits(cs, e)
    case ExprStmt(e) => Fits(cs, e)
    case Return(o) => FitsOpt(cs, o)
  }

  ghost predicate FitsArms(cs: Contracts, arms: seq<Arm>)
    decreases arms, 0
  {
    arms == [] || (FitsArm(cs, arms[0]) && FitsArms(cs, arms[1..]))
  }

  ghost predicate FitsArm(cs: Contracts, arm: Arm)
    decreases arm, 1
  {
    Fits(cs, arm.body)
  }
}
