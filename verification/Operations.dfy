/** What the operations on values compute, stated by the laws they satisfy. */
module Operations {
  import opened Wrappers
  import opened Hir

  function Bin2(op: BinOp, a: int, b: int): Option<Value> {
    Apply(Bin(op), [IntV(a), IntV(b)])
  }

  predicate Holds(op: BinOp, a: int, b: int) {
    Bin2(op, a, b) == Some(BoolV(true))
  }

  lemma Adds(a: int, b: int)
    ensures Bin2(Add, a, b) == Some(IntV(a + b))
  {
  }

  lemma Subtracts(a: int, b: int)
    ensures Bin2(Sub, a, b) == Some(IntV(a - b))
  {
  }

  lemma Negates(a: int)
    ensures Apply(Un(Neg), [IntV(a)]) == Some(IntV(-a))
  {
  }

  /** Addition is a commutative group: subtraction undoes it, negation gives the inverse, and
      adding one is the successor. */
  lemma AddGroup(a: int, b: int, c: int)
    ensures exists s, t: int ::
      && Bin2(Add, a, b) == Some(IntV(s)) && Bin2(Add, b, a) == Some(IntV(s)) && Bin2(Sub, s, b) == Some(IntV(a))
      && Bin2(Add, b, c) == Some(IntV(t)) && Bin2(Add, s, c) == Bin2(Add, a, t)
    ensures Bin2(Add, a, 0) == Some(IntV(a)) && (Bin2(Add, a, 1) == Some(IntV(b)) <==> b == a + 1)
    ensures exists n: int :: Apply(Un(Neg), [IntV(a)]) == Some(IntV(n)) && Bin2(Add, a, n) == Some(IntV(0))
  {
    hide Bin2, Apply;
    var s, t := a + b, b + c;
    Adds(a, b);
    Adds(b, a);
    Adds(b, c);
    Adds(s, c);
    Adds(a, t);
    Adds(a, 0);
    Adds(a, 1);
    Adds(a, -a);
    Subtracts(s, b);
    Negates(a);
  }

  /** Multiplication is repeated addition. */
  lemma MulRepeats(a: int, b: int)
    ensures Bin2(Mul, a, 0) == Some(IntV(0))
    ensures exists p, q: int ::
      && Bin2(Mul, a, b) == Some(IntV(p)) && Bin2(Mul, a, b + 1) == Some(IntV(q))
      && Bin2(Add, p, a) == Some(IntV(q))
  {
    var p, q := a * b, a * (b + 1);
    assert Bin2(Mul, a, b) == Some(IntV(p)) && Bin2(Mul, a, b + 1) == Some(IntV(q));
    assert q == p + a;
  }

  /** Quotient and remainder of a division that rounds toward zero. */
  predicate Divides(a: int, b: int, q: int, r: int) {
    a == b * q + r && -Abs(b) < r < Abs(b) && (r > 0 ==> a > 0) && (r < 0 ==> a < 0)
  }

  function Abs(a: int): (r: int)
    ensures 0 <= r
  {
    if a < 0 then -a else a
  }

  lemma SmallMultiple(b: int, k: int, d: int)
    requires b * k == d && -Abs(b) < d < Abs(b)
    ensures k == 0
  {
    if k >= 1 {
      MulGrows(Abs(b), k);
    } else if k <= -1 {
      MulGrows(Abs(b), -k);
    }
    assert b * k == Abs(b) * k || b * k == -(Abs(b) * k);
    assert Abs(b) * k == -(Abs(b) * (-k));
  }

  lemma MulGrows(b: nat, k: int)
    requires k >= 1
    ensures b * k >= b
  {
  }

  /** At most one pair is quotient and remainder. */
  lemma DividesOnce(a: int, b: int, q: int, r: int, q1: int, r1: int)
    requires Divides(a, b, q, r) && Divides(a, b, q1, r1)
    ensures q == q1 && r == r1
  {
    assert b * (q - q1) == r1 - r by {
      assert b * (q - q1) == b * q - b * q1;
    }
    SmallMultiple(b, q - q1, r1 - r);
  }

  /** Division and remainder: exactly the quotient that rounds toward zero, with a remainder of
      the dividend's sign, and a trap exactly for a zero divisor. */
  lemma DivExact(a: int, b: int, q: int, r: int)
    ensures Bin2(Div, a, b).None? <==> b == 0
    ensures Bin2(Rem, a, b).None? <==> b == 0
    ensures b != 0 ==> (Divides(a, b, q, r) <==> Bin2(Div, a, b) == Some(IntV(q)) && Bin2(Rem, a, b) == Some(IntV(r)))
  {
    if b != 0 {
      TruncDivides(a, b);
      if Divides(a, b, q, r) {
        DividesOnce(a, b, q, r, TruncDiv(a, b), TruncRem(a, b));
      }
    }
  }

  lemma EuclidDivides(a: nat, b: int)
    requires b != 0
    ensures a == b * (a / b) + a % b && 0 <= a % b < Abs(b)
  {
  }

  lemma TruncDivides(a: int, b: int)
    requires b != 0
    ensures Divides(a, b, TruncDiv(a, b), TruncRem(a, b))
  {
    if a >= 0 {
      EuclidDivides(a, b);
      SignsAgree(a, b, a / b, a % b);
      RemainderOf(a, b, a / b, a % b);
    } else {
      EuclidDivides(-a, b);
      Negated(b, (-a) / b);
      SignsAgree(a, b, -((-a) / b), -((-a) % b));
      RemainderOf(a, b, -((-a) / b), -((-a) % b));
    }
  }

  lemma SignsAgree(a: int, b: int, q: int, r: int)
    requires a == b * q + r && -Abs(b) < r < Abs(b) && (if a >= 0 then r >= 0 else r <= 0)
    ensures Divides(a, b, q, r)
  {
    if a == 0 {
      SmallMultiple(b, q, -r);
    }
  }

  lemma Negated(b: int, q: int)
    ensures b * -q == -(b * q)
  {
  }

  lemma RemainderOf(a: int, b: int, q: int, r: int)
    requires b != 0 && a == b * q + r && TruncDiv(a, b) == q
    ensures TruncRem(a, b) == r
  {
    hide TruncDiv;
  }

  /** The comparisons of numbers are one strict total order, its reflexive form and their
      converses; the successor of a number is above it. */
  lemma OrderTotal(a: int, b: int, c: int)
    ensures Holds(Lt, a, b) <==> !Holds(Eq, a, b) && !Holds(Gt, a, b)
    ensures Holds(Eq, a, b) <==> a == b
    ensures Holds(Ne, a, b) <==> !Holds(Eq, a, b)
    ensures Holds(Gt, a, b) <==> Holds(Lt, b, a)
    ensures Holds(Le, a, b) <==> !Holds(Gt, a, b)
    ensures Holds(Ge, a, b) <==> !Holds(Lt, a, b)
    ensures Holds(Lt, a, b) && Holds(Lt, b, c) ==> Holds(Lt, a, c)
    ensures Holds(Lt, a, a + 1) && !Holds(Lt, a, a)
    ensures forall op :: op in {Eq, Ne, Lt, Le, Gt, Ge} && !Holds(op, a, b) ==> Bin2(op, a, b) == Some(BoolV(false))
  {
  }

  /** Equality answers for every pair of values: yes exactly for equal scalars of one kind. The
      other binary operations take numbers only. */
  lemma EqualityExact(v: Value, w: Value, op: BinOp)
    ensures Apply(Bin(Eq), [v, w]) == Some(BoolV(v == w && (v.IntV? || v.BoolV? || v.UnitV?)))
    ensures exists b :: Apply(Bin(Eq), [v, w]) == Some(BoolV(b)) && Apply(Bin(Ne), [v, w]) == Some(BoolV(!b))
    ensures op !in {Eq, Ne} && !(v.IntV? && w.IntV?) ==> Apply(Bin(op), [v, w]).None?
    ensures Apply(Un(Not), [v]) == (if v.BoolV? then Some(BoolV(v != BoolV(true))) else None)
    ensures Apply(Un(Neg), [v]).Some? <==> v.IntV?
  {
    var b := ValuesEq(v, w);
    assert Apply(Bin(Eq), [v, w]) == Some(BoolV(b)) && Apply(Bin(Ne), [v, w]) == Some(BoolV(!b));
  }

  /** An array literal holds its operands in order: its length counts them, indexing gives each
      one back, and indexing traps exactly outside. */
  lemma ArrayHolds(vals: seq<Value>, i: int, copy: bool)
    ensures exists a ::
      && Apply(ArrayLit, vals) == Some(a) && Apply(Len, [a]) == Some(IntV(|vals|))
      && Apply(Index(copy), [a, IntV(i)]) == if 0 <= i < |vals| then Some(vals[i]) else None
  {
    var a := ArrayV(vals);
    assert Apply(ArrayLit, vals) == Some(a);
  }

  /** Only arrays have a length, elements and slices, and only numbers index them. */
  lemma ArraysOnly(v: Value, w: Value, copy: bool)
    ensures Apply(Len, [v]).Some? <==> v.ArrayV?
    ensures Apply(Index(copy), [v, w]).Some? ==> v.ArrayV? && w.IntV?
    ensures Apply(Slice(true, false, copy), [v, w]).Some? ==> v.ArrayV? && w.IntV?
    ensures Apply(Slice(false, true, copy), [v, w]).Some? ==> v.ArrayV? && w.IntV?
  {
  }

  /** The operands of a slice whose missing bounds are left out. */
  function SliceArgs(a: Value, lo: Option<int>, hi: Option<int>): seq<Value> {
    [a] + (if lo.Some? then [IntV(lo.value)] else []) + (if hi.Some? then [IntV(hi.value)] else [])
  }

  /** A slice has exactly the elements between its bounds, a missing bound is the end of the
      array on that side, and it traps exactly when the bounds are not in order within it. */
  lemma SliceHolds(a: Value, lo: Option<int>, hi: Option<int>, copy: bool, k: int)
    requires a.ArrayV?
    ensures var from := if lo.Some? then lo.value else 0;
      var to := if hi.Some? then hi.value else |a.elems|;
      var r := Apply(Slice(lo.Some?, hi.Some?, copy), SliceArgs(a, lo, hi));
      && (r.Some? <==> 0 <= from <= to <= |a.elems|)
      && (r.Some? ==> Apply(Len, [r.value]) == Some(IntV(to - from)))
      && (r.Some? && 0 <= k < to - from ==>
            Apply(Index(copy), [r.value, IntV(k)]) == Apply(Index(copy), [a, IntV(from + k)]))
  {
  }

  /** A struct literal puts every operand at its slot. */
  lemma FieldsPlaced(slots: seq<nat>, vals: seq<Value>, k: nat)
    requires |slots| == |vals| && k < |vals| && forall i, j :: 0 <= i < j < |slots| ==> slots[i] != slots[j]
    ensures slots[k] in PlaceFields(slots, vals) && PlaceFields(slots, vals)[slots[k]] == vals[k]
  {
    FieldsUpTo(slots, vals, |vals|, k);
    assert vals[..|vals|] == vals;
  }

  lemma {:induction false} FieldsUpTo(slots: seq<nat>, vals: seq<Value>, n: nat, k: nat)
    requires k < n <= |vals| && |slots| == |vals| && forall i, j :: 0 <= i < j < |slots| ==> slots[i] != slots[j]
    ensures slots[k] in PlaceFields(slots, vals[..n]) && PlaceFields(slots, vals[..n])[slots[k]] == vals[k]
    decreases n
  {
    assert vals[..n][..n - 1] == vals[..n - 1];
    if k < n - 1 {
      FieldsUpTo(slots, vals, n - 1, k);
    }
  }

  lemma FieldsOnly(slots: seq<nat>, vals: seq<Value>, f: nat)
    requires f in PlaceFields(slots, vals) && |slots| == |vals|
    ensures f in slots
  {
    assert vals[..|vals|] == vals;
    FieldsOnlyUpTo(slots, vals, |vals|, f);
  }

  lemma {:induction false} FieldsOnlyUpTo(slots: seq<nat>, vals: seq<Value>, n: nat, f: nat)
    requires n <= |vals| == |slots| && f in PlaceFields(slots, vals[..n])
    ensures f in slots
    decreases n
  {
    if n > 0 {
      assert vals[..n][..n - 1] == vals[..n - 1];
      if f != slots[n - 1] {
        FieldsOnlyUpTo(slots, vals, n - 1, f);
      }
    }
  }

  /** A struct literal has exactly its slots as fields, each with its operand; a variant literal
      keeps its operands as payload. */
  lemma AggregatesHold(def: Def, tag: nat, slots: seq<nat>, vals: seq<Value>)
    requires |slots| == |vals| && forall i, j :: 0 <= i < j < |slots| ==> slots[i] != slots[j]
    ensures exists s ::
      && Apply(StructLit(def, slots), vals) == Some(s) && s.StructV? && s.def == def
      && (forall f :: f in s.fields <==> f in slots)
      && forall k :: 0 <= k < |vals| ==> slots[k] in s.fields && s.fields[slots[k]] == vals[k]
    ensures exists v ::
      && Apply(VariantLit(def, tag), vals) == Some(v) && v.VariantV? && v.def == def && v.tag == tag
      && v.payload == vals
  {
    var s := StructV(def, PlaceFields(slots, vals));
    forall f
      ensures f in s.fields <==> f in slots
    {
      if f in s.fields {
        FieldsOnly(slots, vals, f);
      }
      if f in slots {
        var k :| 0 <= k < |slots| && slots[k] == f;
        FieldsPlaced(slots, vals, k);
      }
    }
    forall k | 0 <= k < |vals|
      ensures slots[k] in s.fields && s.fields[slots[k]] == vals[k]
    {
      FieldsPlaced(slots, vals, k);
    }
    assert Apply(StructLit(def, slots), vals) == Some(s);
    assert Apply(VariantLit(def, tag), vals) == Some(VariantV(def, tag, vals));
  }
}
