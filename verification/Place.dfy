/** Places and loans: a binding plus field projections, and the access a call holds to it. */
module Place {
  import opened Wrappers
  import opened Hir
  import opened Semantics

  datatype Path = Path(base: Sym, fields: seq<nat>)

  datatype LoanKind = Shared | Mut

  datatype Loan = Loan(place: Path, kind: LoanKind)

  /** Same root binding, and one projection path is a prefix of the other. */
  predicate Overlaps(p: Path, q: Path) {
    p.base == q.base && (p.fields <= q.fields || q.fields <= p.fields)
  }

  /** `q` lies in the storage of `p`. */
  predicate Within(q: Path, p: Path) {
    q.base == p.base && p.fields <= q.fields
  }

  /** Two places overlap exactly when they share some storage. */
  lemma OverlapsExact(p: Path, q: Path)
    ensures Overlaps(p, q) <==> exists r :: Within(r, p) && Within(r, q)
  {
    if Overlaps(p, q) {
      var r := if p.fields <= q.fields then q else p;
      assert Within(r, p) && Within(r, q);
    }
    if r :| Within(r, p) && Within(r, q) {
      if |p.fields| <= |q.fields| {
        assert forall i :: 0 <= i < |p.fields| ==> p.fields[i] == r.fields[i] == q.fields[i];
      } else {
        assert forall i :: 0 <= i < |q.fields| ==> q.fields[i] == r.fields[i] == p.fields[i];
      }
    }
  }

  /** A binding followed by field projections is a place; nothing else is. */
  function PlaceOf(e: Expr): Option<Path> {
    if PlaceBase(e).Some? then Some(Path(PlaceBase(e).value, PlacePath(e))) else None
  }

  function Reversed(s: seq<nat>): (r: seq<nat>)
    ensures |r| == |s|
  {
    if s == [] then [] else Reversed(s[1..]) + [s[0]]
  }

  lemma {:induction false} ReversedSnoc(s: seq<nat>, x: nat)
    ensures Reversed(s + [x]) == [x] + Reversed(s)
  {
    if s == [] {
      assert [x][1..] == [];
    } else {
      ReversedSnoc(s[1..], x);
      assert (s + [x])[1..] == s[1..] + [x];
    }
  }

  /** Walks from the expression to its root, collecting projections innermost last. */
  method FindPlace(e: Expr) returns (r: Option<Path>)
    ensures r == PlaceOf(e)
  {
    var fields: seq<nat> := [];
    var cur := e;
    while cur.Field?
      invariant PlaceBase(cur) == PlaceBase(e)
      invariant PlacePath(e) == PlacePath(cur) + Reversed(fields)
      decreases cur
    {
      ReversedSnoc(fields, cur.field);
      fields := fields + [cur.field];
      cur := cur.base;
    }
    if cur.Var? {
      assert PlacePath(cur) == [];
      assert PlacePath(e) == Reversed(fields);
      r := Some(Path(cur.sym, Reversed(fields)));
    } else {
      r := None;
    }
  }
}
