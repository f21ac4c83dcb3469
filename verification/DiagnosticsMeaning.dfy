/** What the diagnostics query answers: the located diagnostics of everything it depends on, each
    once, in the order in which they first occur, and in which order they are collected. */
module DiagnosticsMeaning {
  import opened Query
  import opened FromScratch
  import opened FromScratchFacts
  import opened QueryMeaning
  import opened StageMeaning

  ghost predicate NoRepeats<T>(s: seq<T>) {
    forall i, j :: 0 <= i < j < |s| ==> s[i] != s[j]
  }

  /** Some occurrence of `a` in the list is before every occurrence of `b`. */
  ghost predicate Sooner(all: seq<Diag>, a: Diag, b: Diag) {
    exists p :: 0 <= p < |all| && all[p] == a && forall q :: 0 <= q < |all| && all[q] == b ==> p < q
  }

  // ---------- removing repetitions ----------

  lemma {:induction false} DistinctMeans(ds: seq<Diag>, out: seq<Diag>)
    requires NoRepeats(out)
    ensures var r := Distinct(ds, out);
      && NoRepeats(r) && (forall d :: d in r <==> d in out || d in ds)
      && forall i, j :: |out| <= i < j < |r| ==> Sooner(ds, r[i], r[j])
  {
    if ds != [] {
      var next := if ds[0] in out then out else out + [ds[0]];
      var r := Distinct(ds, out);
      DistinctMeans(ds[1..], next);
      assert ds == [ds[0]] + ds[1..];
      assert next <= r;
      forall i, j | |out| <= i < j < |r|
        ensures Sooner(ds, r[i], r[j])
      {
        assert r[j] != ds[0] by {
          DistinctSkips(ds[0], out, next, r, j);
        }
        if i < |next| {
          assert ds[0] == r[i];
        } else {
          SoonerBehind(ds[0], ds[1..], r[i], r[j]);
        }
      }
    }
  }

  /** The front element is among the results before any later one. */
  lemma DistinctSkips(d: Diag, out: seq<Diag>, next: seq<Diag>, r: seq<Diag>, j: nat)
    requires d in next && next <= r && NoRepeats(r) && |next| <= j < |r|
    ensures r[j] != d
  {
    var i :| 0 <= i < |next| && next[i] == d;
    assert r[i] == d;
  }

  lemma SoonerBehind(d: Diag, rest: seq<Diag>, a: Diag, b: Diag)
    requires Sooner(rest, a, b) && d != b
    ensures Sooner([d] + rest, a, b)
  {
    var p :| 0 <= p < |rest| && rest[p] == a && forall q :: 0 <= q < |rest| && rest[q] == b ==> p < q;
    var all := [d] + rest;
    assert all[p + 1] == a;
    forall q | 0 <= q < |all| && all[q] == b
      ensures p + 1 < q
    {
      assert q > 0 && rest[q - 1] == b;
    }
  }

  // ---------- what is collected ----------

  lemma {:induction false} ConcatHolds(S: Stages, src: Sources, order: seq<QueryKey>, d: Diag)
    requires Registered(S)
    ensures d in Concat(S, src, order) <==> exists k <- order :: d in Make(S, src, k).diags
  {
    hide Make;
    if order != [] {
      var last := |order| - 1;
      ConcatHolds(S, src, order[..last], d);
      assert order == order[..last] + [order[last]];
      if d in Make(S, src, order[last]).diags {
        assert order[last] in order;
      }
      if k :| k in order && d in Make(S, src, k).diags {
        assert k in order[..last] || k == order[last];
      }
    }
  }

  /** The diagnostic is emitted by a query the listed ones depend on. */
  ghost predicate Emitted(S: Stages, src: Sources, keys: seq<QueryKey>, d: Diag)
    requires Registered(S)
  {
    exists q, k :: q in keys && Reaches(S, src, q, k) && d in Make(S, src, k).diags
  }

  lemma GatherHolds(S: Stages, src: Sources, bound: nat, keys: seq<QueryKey>, d: Diag)
    requires Registered(S) && Lower(keys, bound)
    ensures d in Gather(S, src, bound, keys) <==> Emitted(S, src, keys, d)
  {
    hide Make, Reaches, Visit, Gather;
    GatherOrder(S, src, bound, keys);
    var w := Visit(S, src, bound, keys, Walked([], []));
    ConcatHolds(S, src, w.order, d);
    if Emitted(S, src, keys, d) {
      var q, k :| q in keys && Reaches(S, src, q, k) && d in Make(S, src, k).diags;
      assert k in w.order;
    }
    if d in Gather(S, src, bound, keys) {
      var k :| k in w.order && d in Make(S, src, k).diags;
      var q :| q in keys && Reaches(S, src, q, k);
    }
  }

  lemma AstsOfNone()
    ensures AstsOf([]) == []
  {
  }

  lemma AstsOfTwo(v: Value, w: Value)
    ensures AstsOf([v]) == (if v.AstV? then [v.ast] else [])
    ensures AstsOf([v, w]) == AstsOf([v]) + AstsOf([w])
  {
    assert [v][1..] == [] && [v, w] == [v] + [w];
    AstsOfPlus([v], [w]);
  }

  lemma ParsedFile(S: Stages, src: Sources, f: File, rest: seq<QueryKey>)
    requires Registered(S)
    ensures AstsOf(Values(S, src, [ParseKey(f), AstKey(f)] + rest)) ==
      [SyntaxOf(S, src, f)] + AstsOf(Values(S, src, rest))
  {
    hide Make, SyntaxOf, AstsOf;
    var two := [ParseKey(f), AstKey(f)];
    ParseMeans(S, src, f);
    AstMeans(S, src, f);
    ValuesPlus(S, src, two, rest);
    var v, w := Make(S, src, two[0]).value, Make(S, src, two[1]).value;
    assert Values(S, src, two) == [v, w];
    AstsOfTwo(v, w);
    AstsOfTwo(w, w);
    AstsOfPlus([v, w], Values(S, src, rest));
  }

  /** The syntax of the workspace's files, as the diagnostics query has it. */
  lemma {:induction false} ParsedAnswers(S: Stages, src: Sources, files: seq<File>)
    requires Registered(S)
    ensures AstsOf(Values(S, src, ParseAndAst(files))) == SyntaxAll(S, src, files)
  {
    hide Make, SyntaxOf, AstsOf;
    if files == [] {
      AstsOfNone();
    } else {
      ParsedAnswers(S, src, files[1..]);
      ParsedMore(S, src, files, ParseAndAst(files[1..]));
    }
  }

  lemma ParsedMore(S: Stages, src: Sources, files: seq<File>, rest: seq<QueryKey>)
    requires Registered(S) && files != [] && AstsOf(Values(S, src, rest)) == SyntaxAll(S, src, files[1..])
    ensures AstsOf(Values(S, src, [ParseKey(files[0]), AstKey(files[0])] + rest)) == SyntaxAll(S, src, files)
  {
    hide Make, SyntaxOf, AstsOf;
    ParsedFile(S, src, files[0], rest);
    assert SyntaxAll(S, src, files) == [SyntaxOf(S, src, files[0])] + SyntaxAll(S, src, files[1..]);
  }

  lemma ReportAnswers(S: Stages, src: Sources, f: File, root: File, files: seq<File>, keys: seq<DefKey>)
    requires Registered(S)
    ensures AstsOf(Values(S, src, [ParseKey(f), ScopeKey(root)] +
      (ParseAndAst(files) + BodyKeys(keys) + [OwnershipKey(root)]))) == SyntaxAll(S, src, files)
  {
    hide Make, ParseAndAst, AstsOf, SyntaxOf;
    var two, own := [ParseKey(f), ScopeKey(root)], [OwnershipKey(root)];
    ParseMeans(S, src, f);
    ScopeAnswer(S, src, root);
    ContractsMean(S, src, root);
    ValuesPlus(S, src, two, ParseAndAst(files) + BodyKeys(keys) + own);
    ValuesPlus(S, src, ParseAndAst(files) + BodyKeys(keys), own);
    ValuesPlus(S, src, ParseAndAst(files), BodyKeys(keys));
    var t, p, b, o := Values(S, src, two), Values(S, src, ParseAndAst(files)), Values(S, src, BodyKeys(keys)),
      Values(S, src, own);
    assert t == [Make(S, src, two[0]).value, Make(S, src, two[1]).value] && o == [Make(S, src, own[0]).value];
    AstsOfTwo(t[0], t[1]);
    AstsOfTwo(t[1], o[0]);
    AstsOfTwo(o[0], o[0]);
    AstsOfPlus(t, p + b + o);
    AstsOfPlus(p + b, o);
    AstsOfPlus(p, b);
    ParsedAnswers(S, src, files);
    BodyAnswers(S, src, keys);
  }

  /** Where a diagnostic of this workspace is shown. */
  function Shown(S: Stages, src: Sources, f: File, d: Diag): Diag
    requires Registered(S)
  {
    var scope := ScopeOf(S, src, S.rootOf(f));
    S.locate(scope, SyntaxAll(S, src, S.scopeFiles(scope)), d)
  }

  function ShownAll(S: Stages, src: Sources, f: File, ds: seq<Diag>): (r: seq<Diag>)
    requires Registered(S)
    ensures |r| == |ds| && forall i :: 0 <= i < |r| ==> r[i] == Shown(S, src, f, ds[i])
  {
    seq(|ds|, i requires 0 <= i < |ds| => Shown(S, src, f, ds[i]))
  }

  lemma ReportMeans(S: Stages, src: Sources, f: File)
    requires Registered(S)
    ensures var m := Make(S, src, DiagnosticsKey(f));
      var raw := Gather(S, src, Rank(DiagnosticsKey(f)), m.deps);
      m.diags == [] && m.value == DiagsV(Distinct(ShownAll(S, src, f, raw), []))
  {
    hide Make, Gather, ScopeOf, Distinct, ParseAndAst, BodyKeys;
    var root := S.rootOf(f);
    DiagnosticsDemands(S, src, f);
    MakePlan(S, src, DiagnosticsKey(f));
    ScopeAnswer(S, src, root);
    var m := Make(S, src, DiagnosticsKey(f));
    var scope := ScopeOf(S, src, root);
    var all := Values(S, src, m.deps);
    ReportAnswers(S, src, f, root, S.scopeFiles(scope), S.fnKeys(scope));
    assert m.deps[1] == ScopeKey(root) && all[1] == ScopeV(scope);
    var raw := Gather(S, src, Rank(DiagnosticsKey(f)), m.deps);
    assert Located(S, scope, AstsOf(all), raw) == ShownAll(S, src, f, raw);
  }

  /** Main result on reported diagnostics: exactly the located diagnostics of the queries it
      depends on, none twice, in the order of their first occurrence among the collected ones. */
  lemma DiagnosticsMean(S: Stages, src: Sources, f: File)
    requires Registered(S)
    ensures var m := Make(S, src, DiagnosticsKey(f));
      m.value.DiagsV? && var ds := m.value.diags;
      && NoRepeats(ds)
      && (forall d :: d in ds <==> exists e :: Emitted(S, src, m.deps, e) && d == Shown(S, src, f, e))
      && forall i, j :: 0 <= i < j < |ds| ==>
           Sooner(ShownAll(S, src, f, Gather(S, src, Rank(DiagnosticsKey(f)), m.deps)), ds[i], ds[j])
  {
    hide Make, Gather, Emitted, Shown, Distinct, Sooner;
    ReportMeans(S, src, f);
    var m := Make(S, src, DiagnosticsKey(f));
    var raw := Gather(S, src, Rank(DiagnosticsKey(f)), m.deps);
    var all := ShownAll(S, src, f, raw);
    DistinctMeans(all, []);
    forall d
      ensures d in all <==> exists e :: Emitted(S, src, m.deps, e) && d == Shown(S, src, f, e)
    {
      if d in all {
        var i :| 0 <= i < |all| && all[i] == d;
        assert raw[i] in raw;
        GatherHolds(S, src, Rank(DiagnosticsKey(f)), m.deps, raw[i]);
      }
      if e :| Emitted(S, src, m.deps, e) && d == Shown(S, src, f, e) {
        GatherHolds(S, src, Rank(DiagnosticsKey(f)), m.deps, e);
        var i :| 0 <= i < |raw| && raw[i] == e;
        assert all[i] == d;
      }
    }
  }

  // ---------- the order of collection ----------

  /** Everything reachable from an earlier listed query is collected before anything that is only
      reachable from later ones; what was collected before stays in front. */
  lemma VisitDepthFirst(S: Stages, src: Sources, bound: nat, keys: seq<QueryKey>, w: Walked, i: nat)
    requires Registered(S) && Lower(keys, bound) && Ordered(S, src, w) && i <= |keys|
    ensures var r := Visit(S, src, bound, keys, w);
      exists n :: |w.order| <= n <= |r.order| && w.order <= r.order[..n] &&
        forall k :: k in r.order[..n] <==> k in w.order || exists q <- keys[..i] :: Reaches(S, src, q, k)
  {
    hide Make, Ordered, Reaches, Visit;
    var head, tail := keys[..i], keys[i..];
    assert keys == head + tail;
    VisitSplit(S, src, bound, head, tail, w);
    VisitExact(S, src, bound, head, w);
    var first := Visit(S, src, bound, head, w);
    var r := Visit(S, src, bound, keys, w);
    assert first.order <= r.order;
    assert r.order[..|first.order|] == first.order;
  }

  lemma {:induction false} VisitSplit(S: Stages, src: Sources, bound: nat, a: seq<QueryKey>, b: seq<QueryKey>,
        w: Walked)
    requires Registered(S) && Lower(a, bound) && Lower(b, bound)
    ensures Lower(a + b, bound) && Visit(S, src, bound, a + b, w) == Visit(S, src, bound, b, Visit(S, src, bound, a, w))
    decreases |a|
  {
    hide Make;
    if a == [] {
      assert a + b == b;
    } else {
      assert (a + b)[0] == a[0] && (a + b)[1..] == a[1..] + b;
      var key := a[0];
      var next := if key in w.order then w
        else Emit(key, Make(S, src, key), Visit(S, src, Rank(key), Make(S, src, key).deps, w));
      VisitSplit(S, src, bound, a[1..], b, next);
    }
  }

  lemma VisitExact(S: Stages, src: Sources, bound: nat, keys: seq<QueryKey>, w: Walked)
    requires Registered(S) && Lower(keys, bound) && Ordered(S, src, w)
    ensures forall k :: k in Visit(S, src, bound, keys, w).order <==>
      k in w.order || exists q <- keys :: Reaches(S, src, q, k)
  {
    hide Make, Ordered, Reaches, Visit;
    VisitOrdered(S, src, bound, keys, w);
    var r := Visit(S, src, bound, keys, w);
    forall k
      ensures k in r.order <==> k in w.order || exists q <- keys :: Reaches(S, src, q, k)
    {
      if q :| q in keys && Reaches(S, src, q, k) {
        OrderedClosed(S, src, r, q, k);
      }
    }
  }
}
