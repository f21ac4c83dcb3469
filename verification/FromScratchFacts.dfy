/** Facts about from-scratch evaluation: what it demands, which texts it can see, and in what
    order it collects diagnostics. */
module FromScratchFacts {
  import opened Query
  import opened FromScratch

  // ---------- demands and answers ----------

  /** The values of a list of keys. */
  function Values(S: Stages, src: Sources, keys: seq<QueryKey>): (r: seq<Value>)
    requires Registered(S)
    ensures |r| == |keys| && forall i :: 0 <= i < |r| ==> r[i] == Make(S, src, keys[i]).value
  {
    seq(|keys|, i requires 0 <= i < |keys| => Make(S, src, keys[i]).value)
  }

  /** A plan never takes back a demand. */
  lemma PlanGrows(S: Stages, key: QueryKey, answers: seq<Value>, v: Value)
    requires |answers| < |Plan(S, key, answers)|
    ensures Plan(S, key, answers) <= Plan(S, key, answers + [v])
  {
    hide BodyKeys, MirKeys, OwnershipKeys, ParseAndAst;
    var more := answers + [v];
    if key.ScopeKey? {
      OrderPrefix(S, key.f, answers, v, |answers|);
    }
    if |answers| >= 1 {
      assert more[0] == answers[0];
    }
    if |answers| >= 2 {
      assert more[1] == answers[1];
    }
  }

  lemma {:induction false} OrderPrefix(S: Stages, root: File, answers: seq<Value>, v: Value, n: nat)
    requires n <= |answers|
    ensures Order(S, root, answers + [v], n) == Order(S, root, answers, n)
    decreases n
  {
    if n > 0 {
      OrderPrefix(S, root, answers, v, n - 1);
      assert (answers + [v])[n - 1] == answers[n - 1];
    }
  }

  /** Once its demands are answered, an evaluator has asked for exactly its plan. */
  lemma {:induction false} ReplayPlan(S: Stages, src: Sources, key: QueryKey, answers: seq<Value>, deps: seq<QueryKey>)
    requires Registered(S) && Lower(deps, Rank(key)) && answers == Values(S, src, deps)
    requires deps <= Plan(S, key, answers)
    ensures var m := Replay(S, src, key, answers, deps);
      var all := Values(S, src, m.deps);
      m.deps == Plan(S, key, all) &&
      (if key.DiagnosticsKey? then m == Made(Report(S, all, Gather(S, src, Rank(key), m.deps)), m.deps, [])
       else (m.value, m.diags) == Finish(S, key, all))
    decreases Phase(key, answers), Left(S, key, answers)
  {
    hide Plan, Finish, Visit;
    if Next(S, key, answers).Demand? {
      var k := Next(S, key, answers).key;
      var v := Make(S, src, k).value;
      NextProgress(S, key, answers, v);
      PlanGrows(S, key, answers, v);
      assert deps + [k] <= Plan(S, key, answers);
      assert Values(S, src, deps + [k]) == answers + [v];
      ReplayPlan(S, src, key, answers + [v], deps + [k]);
    }
  }

  /** An evaluation as an equation: its demands are its plan on their values, and its result is
      what the stage computes from those values. */
  lemma MakePlan(S: Stages, src: Sources, key: QueryKey)
    requires Registered(S) && !key.SourceKey?
    ensures var m := Make(S, src, key);
      var all := Values(S, src, m.deps);
      m.deps == Plan(S, key, all) &&
      (if key.DiagnosticsKey? then m == Made(Report(S, all, Gather(S, src, Rank(key), m.deps)), m.deps, [])
       else (m.value, m.diags) == Finish(S, key, all))
  {
    hide Plan, Finish;
    assert Values(S, src, []) == [];
    ReplayPlan(S, src, key, [], []);
  }

  /** Every key produces its own kind of value. */
  predicate KindOk(key: QueryKey, v: Value) {
    match key
    case SourceKey(_) => v.TextV?
    case ParseKey(_) => v.TreeV?
    case AstKey(_) => v.AstV?
    case ScopeKey(_) => v.ScopeV?
    case AstItemKey(_) => v.ItemV?
    case HirBodyKey(_) => v.HirV?
    case BodyTypesKey(_) => v.CheckedV?
    case OwnershipKey(_) => v.OwnershipV?
    case MirBodyKey(_) => v.MirV?
    case GraphKey(_) => v.GraphV?
    case DiagnosticsKey(_) => v.DiagsV?
    case CompileKey(_) => v.CompileV?
  }

  /** No evaluator ever receives an answer of the wrong kind. */
  lemma {:induction false} MakeKind(S: Stages, src: Sources, key: QueryKey)
    requires Registered(S)
    ensures KindOk(key, Make(S, src, key).value)
    decreases Rank(key)
  {
    hide Plan, Finish, Gather;
    if !key.SourceKey? {
      MakePlan(S, src, key);
      var m := Make(S, src, key);
      var all := Values(S, src, m.deps);
      forall i | 0 <= i < |m.deps|
        ensures KindOk(m.deps[i], all[i])
      {
        MakeKind(S, src, m.deps[i]);
      }
      if !key.DiagnosticsKey? {
        KindStep(S, key, m.deps, all);
      }
    }
  }

  lemma KindStep(S: Stages, key: QueryKey, deps: seq<QueryKey>, all: seq<Value>)
    requires !key.SourceKey? && !key.DiagnosticsKey? && deps == Plan(S, key, all) && |all| == |deps|
    requires forall i :: 0 <= i < |deps| ==> KindOk(deps[i], all[i])
    ensures KindOk(key, Finish(S, key, all).0)
  {
    hide Order, OwnershipKeys, CheckedOf, AstsOf;
    match key
    case GraphKey(f) =>
      assert deps[0] == ScopeKey(S.rootOf(f)) && KindOk(deps[0], all[0]);
      var n := |S.fnKeys(all[0].scope)|;
      assert deps[1 + n] == OwnershipKey(S.rootOf(f));
      assert KindOk(deps[1 + n], all[1 + n]);
    case OwnershipKey(f) => assert deps[0] == ScopeKey(S.rootOf(f)) && KindOk(deps[0], all[0]);
    case ParseKey(_) => assert KindOk(deps[0], all[0]);
    case AstKey(_) => assert KindOk(deps[0], all[0]);
    case ScopeKey(_) =>
    case AstItemKey(_) =>
    case HirBodyKey(_) =>
    case BodyTypesKey(_) =>
    case MirBodyKey(_) =>
    case CompileKey(_) =>
  }

  // ---------- which texts an evaluation sees ----------

  /** The files whose text an evaluation reads, directly or through its demands. */
  function Files(S: Stages, src: Sources, key: QueryKey): set<File>
    requires Registered(S)
    decreases Rank(key), 1, 0
  {
    if key.SourceKey? then {key.f} else FilesAll(S, src, Rank(key), Make(S, src, key).deps)
  }

  function FilesAll(S: Stages, src: Sources, bound: nat, keys: seq<QueryKey>): set<File>
    requires Registered(S) && Lower(keys, bound)
    decreases bound, 0, |keys|
  {
    if keys == [] then {} else Files(S, src, keys[0]) + FilesAll(S, src, bound, keys[1..])
  }

  lemma {:induction false} FilesOfOne(S: Stages, src: Sources, bound: nat, keys: seq<QueryKey>, k: QueryKey)
    requires Registered(S) && Lower(keys, bound) && k in keys
    ensures Files(S, src, k) <= FilesAll(S, src, bound, keys)
    decreases |keys|
  {
    if k != keys[0] {
      FilesOfOne(S, src, bound, keys[1..], k);
    }
  }

  /** A bound on every listed key bounds them all. */
  lemma {:induction false} FilesWithin(S: Stages, src: Sources, bound: nat, keys: seq<QueryKey>, all: set<File>)
    requires Registered(S) && Lower(keys, bound) && forall k <- keys :: Files(S, src, k) <= all
    ensures FilesAll(S, src, bound, keys) <= all
    decreases |keys|
  {
    if keys != [] {
      FilesWithin(S, src, bound, keys[1..], all);
    }
  }

  ghost predicate SameTexts(S: Stages, s1: Sources, s2: Sources, files: set<File>) {
    forall f <- files :: TextAt(S, s1, f) == TextAt(S, s2, f)
  }

  /** An evaluation whose demands answer alike on both sources goes the same way on both. */
  lemma {:induction false} ReplayStable(S: Stages, s1: Sources, s2: Sources, key: QueryKey, answers: seq<Value>,
        deps: seq<QueryKey>)
    requires Registered(S) && Lower(deps, Rank(key))
    requires forall d <- Replay(S, s1, key, answers, deps).deps ::
      d in deps || Make(S, s1, d).value == Make(S, s2, d).value
    requires forall d <- deps :: Make(S, s1, d).value == Make(S, s2, d).value
    requires var all := Replay(S, s1, key, answers, deps).deps;
      key.DiagnosticsKey? ==> Gather(S, s1, Rank(key), all) == Gather(S, s2, Rank(key), all)
    ensures Replay(S, s2, key, answers, deps) == Replay(S, s1, key, answers, deps)
    decreases Phase(key, answers), Left(S, key, answers)
  {
    hide Make, Visit, Gather;
    if Next(S, key, answers).Demand? {
      var k := Next(S, key, answers).key;
      var v := Make(S, s1, k).value;
      NextProgress(S, key, answers, v);
      var m := Replay(S, s1, key, answers, deps);
      assert m == Replay(S, s1, key, answers + [v], deps + [k]);
      assert k in m.deps by {
        assert m.deps[|deps|] == k;
      }
      ReplayStable(S, s1, s2, key, answers + [v], deps + [k]);
    }
  }

  /** An evaluation depends only on the texts it can see. */
  lemma {:induction false} MakeLocal(S: Stages, s1: Sources, s2: Sources, key: QueryKey)
    requires Registered(S) && SameTexts(S, s1, s2, Files(S, s1, key))
    ensures Make(S, s2, key) == Make(S, s1, key)
    decreases Rank(key), 2, 0
  {
    if !key.SourceKey? {
      var m := Make(S, s1, key);
      forall d <- m.deps
        ensures Make(S, s1, d).value == Make(S, s2, d).value
      {
        FilesOfOne(S, s1, Rank(key), m.deps, d);
        MakeLocal(S, s1, s2, d);
      }
      GatherLocal(S, s1, s2, Rank(key), m.deps, Walked([], []));
      ReplayStable(S, s1, s2, key, [], []);
    }
  }

  lemma {:induction false} GatherLocal(S: Stages, s1: Sources, s2: Sources, bound: nat, keys: seq<QueryKey>, w: Walked)
    requires Registered(S) && Lower(keys, bound) && SameTexts(S, s1, s2, FilesAll(S, s1, bound, keys))
    ensures Visit(S, s2, bound, keys, w) == Visit(S, s1, bound, keys, w)
    decreases bound, 1, |keys|
  {
    hide Make;
    if keys != [] {
      var key := keys[0];
      var m := Make(S, s1, key);
      MakeLocal(S, s1, s2, key);
      if key.SourceKey? {
        SourceNoDeps(S, s1, key);
      } else {
        GatherLocal(S, s1, s2, Rank(key), m.deps, w);
      }
      var next := if key in w.order then w else Emit(key, m, Visit(S, s1, Rank(key), m.deps, w));
      GatherLocal(S, s1, s2, bound, keys[1..], next);
    }
  }

  lemma SourceNoDeps(S: Stages, src: Sources, key: QueryKey)
    requires Registered(S) && key.SourceKey?
    ensures Make(S, src, key).deps == []
  {
  }

  // ---------- the files diagnostics observe ----------

  /** What the resolver guarantees: a scope lists the files it was built from, its functions
      live in those files, and a workspace root is its own root. */
  ghost predicate Sensible(S: Stages) {
    && Registered(S)
    && (forall f {:trigger S.rootOf(f)} :: S.rootOf(S.rootOf(f)) == S.rootOf(f))
    && (forall r, files, asts :: S.scopeFiles(S.resolve(r, files, asts).0) == files)
    && (forall r, files, asts :: forall k <- S.fnKeys(S.resolve(r, files, asts).0) :: k.root == r && k.file in files)
  }

  /** The scope of a workspace, and the files it was resolved from. */
  function ScopeOf(S: Stages, src: Sources, r: File): ScopeTable
    requires Registered(S)
  {
    MakeKind(S, src, ScopeKey(r));
    Make(S, src, ScopeKey(r)).value.scope
  }

  function Workspace(S: Stages, src: Sources, r: File): set<File>
    requires Registered(S)
  {
    set f | f in S.scopeFiles(ScopeOf(S, src, r))
  }

  lemma AstFiles(S: Stages, src: Sources, f: File)
    requires Registered(S)
    ensures Files(S, src, ParseKey(f)) == {f} && Files(S, src, AstKey(f)) == {f}
  {
    MakePlan(S, src, ParseKey(f));
    MakePlan(S, src, AstKey(f));
    OneDemand(S, src, ParseKey(f), SourceKey(f));
    OneDemand(S, src, AstKey(f), ParseKey(f));
  }

  lemma OneDemand(S: Stages, src: Sources, key: QueryKey, d: QueryKey)
    requires Registered(S) && !key.SourceKey? && Make(S, src, key).deps == [d]
    ensures Files(S, src, key) == Files(S, src, d)
  {
    assert [d][1..] == [];
    FilesUnfold(S, src, key);
  }

  lemma ScopeFilesOf(S: Stages, src: Sources, r: File)
    requires Sensible(S)
    ensures Files(S, src, ScopeKey(r)) <= Workspace(S, src, r)
    ensures forall k <- S.fnKeys(ScopeOf(S, src, r)) :: k.root == r && k.file in Workspace(S, src, r)
  {
    hide Files, FilesAll;
    var key := ScopeKey(r);
    MakePlan(S, src, key);
    var m := Make(S, src, key);
    var all := Values(S, src, m.deps);
    var order := Order(S, r, all, |all|);
    assert S.scopeFiles(ScopeOf(S, src, r)) == order;
    forall d <- m.deps
      ensures Files(S, src, d) <= Workspace(S, src, r)
    {
      ScopeDemands(S, r, all, d);
      AstFiles(S, src, d.f);
    }
    FilesWithin(S, src, Rank(key), m.deps, Workspace(S, src, r));
    FilesUnfold(S, src, key);
  }

  lemma ScopeDemands(S: Stages, r: File, all: seq<Value>, d: QueryKey)
    requires d in Plan(S, ScopeKey(r), all)
    ensures d.AstKey? && d.f in Order(S, r, all, |all|)
  {
  }

  lemma FilesUnfold(S: Stages, src: Sources, key: QueryKey)
    requires Registered(S) && !key.SourceKey?
    ensures Files(S, src, key) == FilesAll(S, src, Rank(key), Make(S, src, key).deps)
  {
  }

  /** A key whose every demand stays within `all` stays within `all`. */
  lemma FilesFrom(S: Stages, src: Sources, key: QueryKey, all: set<File>)
    requires Registered(S) && !key.SourceKey? && forall d <- Make(S, src, key).deps :: Files(S, src, d) <= all
    ensures Files(S, src, key) <= all
  {
    FilesWithin(S, src, Rank(key), Make(S, src, key).deps, all);
    FilesUnfold(S, src, key);
  }

  lemma BodyFiles(S: Stages, src: Sources, k: DefKey, all: set<File>)
    requires Sensible(S) && k.file in all && Workspace(S, src, S.rootOf(k.root)) <= all
    ensures Files(S, src, HirBodyKey(k)) <= all && Files(S, src, BodyTypesKey(k)) <= all
  {
    hide Files, Workspace, Finish;
    ScopeFilesOf(S, src, S.rootOf(k.root));
    AstFiles(S, src, k.file);
    MakePlan(S, src, AstItemKey(k));
    FilesFrom(S, src, AstItemKey(k), all);
    MakePlan(S, src, HirBodyKey(k));
    FilesFrom(S, src, HirBodyKey(k), all);
    MakePlan(S, src, BodyTypesKey(k));
    FilesFrom(S, src, BodyTypesKey(k), all);
  }

  lemma OwnershipFiles(S: Stages, src: Sources, f: File)
    requires Sensible(S)
    ensures Files(S, src, OwnershipKey(f)) <= Workspace(S, src, S.rootOf(f))
  {
    hide Files, Workspace, Finish;
    var r := S.rootOf(f);
    var all := Workspace(S, src, r);
    ScopeFilesOf(S, src, r);
    MakePlan(S, src, OwnershipKey(f));
    var m := Make(S, src, OwnershipKey(f));
    MakeKind(S, src, ScopeKey(r));
    assert m.deps[0] == ScopeKey(r);
    var scope := ScopeOf(S, src, r);
    assert m.deps == [ScopeKey(r)] + OwnershipKeys(S.fnKeys(scope));
    forall d <- m.deps
      ensures Files(S, src, d) <= all
    {
      if d != ScopeKey(r) {
        var k :| k in S.fnKeys(scope) && (d == HirBodyKey(k) || d == BodyTypesKey(k));
        assert S.rootOf(k.root) == S.rootOf(S.rootOf(f));
        BodyFiles(S, src, k, all);
      }
    }
    FilesFrom(S, src, OwnershipKey(f), all);
  }

  /** The demands of the diagnostics query on its workspace. */
  lemma DiagnosticsDemands(S: Stages, src: Sources, f: File)
    requires Registered(S)
    ensures var scope := ScopeOf(S, src, S.rootOf(f));
      Make(S, src, DiagnosticsKey(f)).deps ==
        [ParseKey(f), ScopeKey(S.rootOf(f))] +
        (ParseAndAst(S.scopeFiles(scope)) + BodyKeys(S.fnKeys(scope)) + [OwnershipKey(S.rootOf(f))])
  {
    hide Gather, Report;
    var r := S.rootOf(f);
    MakePlan(S, src, DiagnosticsKey(f));
    var m := Make(S, src, DiagnosticsKey(f));
    MakeKind(S, src, ScopeKey(r));
    assert m.deps[0] == ParseKey(f) && m.deps[1] == ScopeKey(r);
  }

  /** The diagnostics query observes the parse of every file its result can depend on. */
  lemma DiagnosticsObserve(S: Stages, src: Sources, f: File)
    requires Sensible(S)
    ensures forall g <- Files(S, src, DiagnosticsKey(f)) :: ParseKey(g) in Make(S, src, DiagnosticsKey(f)).deps
  {
    hide Files, Workspace;
    var r := S.rootOf(f);
    var scope := ScopeOf(S, src, r);
    var all := Workspace(S, src, r) + {f};
    var m := Make(S, src, DiagnosticsKey(f));
    DiagnosticsDemands(S, src, f);
    ScopeFilesOf(S, src, r);
    AstFiles(S, src, f);
    OwnershipFiles(S, src, r);
    forall d <- m.deps
      ensures Files(S, src, d) <= all
    {
      if d in BodyKeys(S.fnKeys(scope)) {
        BodyFiles(S, src, d.k, all);
      } else if d in ParseAndAst(S.scopeFiles(scope)) {
        WorkspaceMember(S, src, r, d.f);
        AstFiles(S, src, d.f);
      }
    }
    FilesFrom(S, src, DiagnosticsKey(f), all);
    forall g <- Files(S, src, DiagnosticsKey(f))
      ensures ParseKey(g) in m.deps
    {
      if g != f {
        WorkspaceMember(S, src, r, g);
      } else {
        assert m.deps[0] == ParseKey(f);
      }
    }
  }

  lemma WorkspaceMember(S: Stages, src: Sources, r: File, g: File)
    requires Registered(S)
    ensures g in Workspace(S, src, r) <==> g in S.scopeFiles(ScopeOf(S, src, r))
  {
  }

  /** When every direct demand of a query answers alike on two sources, and for the diagnostics
      query also every parsed text is the same, the whole evaluation is the same. */
  lemma MakeStable(S: Stages, s1: Sources, s2: Sources, key: QueryKey)
    requires Sensible(S) && !key.SourceKey?
    requires forall d <- Make(S, s1, key).deps :: Make(S, s1, d).value == Make(S, s2, d).value
    requires key.DiagnosticsKey? ==>
      forall g :: ParseKey(g) in Make(S, s1, key).deps ==> TextAt(S, s1, g) == TextAt(S, s2, g)
    ensures Make(S, s2, key) == Make(S, s1, key)
  {
    hide Next, Files, Visit;
    var m := Make(S, s1, key);
    if key.DiagnosticsKey? {
      DiagnosticsObserve(S, s1, key.f);
      FilesUnfold(S, s1, key);
      GatherLocal(S, s1, s2, Rank(key), m.deps, Walked([], []));
    }
    ReplayStable(S, s1, s2, key, [], []);
  }

  // ---------- the order diagnostics are collected in ----------

  /** Reachable through demands, in any number of steps. */
  ghost predicate Reaches(S: Stages, src: Sources, from: QueryKey, to: QueryKey)
    requires Registered(S)
    decreases Rank(from)
  {
    from == to || exists d <- Make(S, src, from).deps :: Reaches(S, src, d, to)
  }

  /** The own diagnostics of the keys in a list, concatenated. */
  function Concat(S: Stages, src: Sources, order: seq<QueryKey>): seq<Diag>
    requires Registered(S)
  {
    if order == [] then [] else Concat(S, src, order[..|order| - 1]) + Make(S, src, order[|order| - 1]).diags
  }

  /** No key twice, every key after everything it demands, the diagnostics in that order. */
  ghost predicate Ordered(S: Stages, src: Sources, w: Walked)
    requires Registered(S)
  {
    && (forall i, j :: 0 <= i < j < |w.order| ==> w.order[i] != w.order[j])
    && (forall i {:trigger w.order[i]} ::
      0 <= i < |w.order| ==> forall d <- Make(S, src, w.order[i]).deps :: d in w.order[..i])
    && w.diags == Concat(S, src, w.order)
  }

  lemma {:induction false} VisitOrdered(S: Stages, src: Sources, bound: nat, keys: seq<QueryKey>, w: Walked)
    requires Registered(S) && Lower(keys, bound) && Ordered(S, src, w)
    ensures var r := Visit(S, src, bound, keys, w);
      Ordered(S, src, r) && (forall k <- keys :: k in r.order) &&
      forall k <- r.order :: k in w.order || exists q <- keys :: Reaches(S, src, q, k)
    decreases bound, |keys|
  {
    hide Make, Ordered;
    if keys != [] {
      var key := keys[0];
      var next := if key in w.order then w
        else Emit(key, Make(S, src, key), Visit(S, src, Rank(key), Make(S, src, key).deps, w));
      if key !in w.order {
        VisitOrdered(S, src, Rank(key), Make(S, src, key).deps, w);
        var below := Visit(S, src, Rank(key), Make(S, src, key).deps, w);
        VisitNew(S, src, Rank(key), Make(S, src, key).deps, w);
        EmitOrdered(S, src, key, below);
      }
      VisitOrdered(S, src, bound, keys[1..], next);
      assert key in next.order && keys == [key] + keys[1..];
      forall k <- Visit(S, src, bound, keys, w).order
        ensures k in w.order || exists q <- keys :: Reaches(S, src, q, k)
      {
        if k in next.order && k !in w.order {
          assert Reaches(S, src, key, k);
        } else if k !in w.order {
          var q :| q in keys[1..] && Reaches(S, src, q, k);
          assert q in keys;
        }
      }
    }
  }

  /** Only keys of lower rank are added. */
  lemma {:induction false} VisitNew(S: Stages, src: Sources, bound: nat, keys: seq<QueryKey>, w: Walked)
    requires Registered(S) && Lower(keys, bound)
    ensures forall k <- Visit(S, src, bound, keys, w).order :: k in w.order || Rank(k) < bound
    decreases bound, |keys|
  {
    hide Make;
    if keys != [] {
      var key := keys[0];
      if key !in w.order {
        VisitNew(S, src, Rank(key), Make(S, src, key).deps, w);
      }
      var next := if key in w.order then w
        else Emit(key, Make(S, src, key), Visit(S, src, Rank(key), Make(S, src, key).deps, w));
      VisitNew(S, src, bound, keys[1..], next);
    }
  }

  lemma EmitOrdered(S: Stages, src: Sources, key: QueryKey, w: Walked)
    requires Registered(S) && Ordered(S, src, w) && key !in w.order
    requires forall d <- Make(S, src, key).deps :: d in w.order
    ensures Ordered(S, src, Emit(key, Make(S, src, key), w))
  {
    hide Make;
    var r := Emit(key, Make(S, src, key), w);
    assert r.order[..|w.order|] == w.order;
    forall i {:trigger r.order[i]} | 0 <= i < |r.order|
      ensures forall d <- Make(S, src, r.order[i]).deps :: d in r.order[..i]
    {
      if i < |w.order| {
        assert r.order[..i] == w.order[..i];
      }
    }
  }

  /** Main result on collection: every reachable query once, nothing else, each after the
      queries it depends on. */
  lemma {:induction false} GatherOrder(S: Stages, src: Sources, bound: nat, keys: seq<QueryKey>)
    requires Registered(S) && Lower(keys, bound)
    ensures var w := Visit(S, src, bound, keys, Walked([], []));
      Gather(S, src, bound, keys) == Concat(S, src, w.order) &&
      (forall i, j :: 0 <= i < j < |w.order| ==> w.order[i] != w.order[j]) &&
      (forall i, d :: 0 <= i < |w.order| && d in Make(S, src, w.order[i]).deps ==> d in w.order[..i]) &&
      (forall k :: k in w.order <==> exists q <- keys :: Reaches(S, src, q, k))
  {
    hide Make;
    VisitOrdered(S, src, bound, keys, Walked([], []));
    var w := Visit(S, src, bound, keys, Walked([], []));
    forall q <- keys, k | Reaches(S, src, q, k)
      ensures k in w.order
    {
      OrderedClosed(S, src, w, q, k);
    }
  }

  lemma {:induction false} OrderedClosed(S: Stages, src: Sources, w: Walked, q: QueryKey, k: QueryKey)
    requires Registered(S) && Ordered(S, src, w) && q in w.order && Reaches(S, src, q, k)
    ensures k in w.order
    decreases Rank(q)
  {
    hide Make;
    if q != k {
      var d :| d in Make(S, src, q).deps && Reaches(S, src, d, k);
      var i :| 0 <= i < |w.order| && w.order[i] == q;
      assert d in w.order[..i];
      OrderedClosed(S, src, w, d, k);
    }
  }
}
