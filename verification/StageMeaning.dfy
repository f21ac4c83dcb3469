/** Every query answers with the stage its key names, applied to what the other queries mean; the
    scope stage gets the discovered files of the workspace. */
module StageMeaning {
  import opened Wrappers
  import opened Query
  import opened FromScratch
  import opened FromScratchFacts
  import opened QueryMeaning

  // ---------- the meaning of a query ----------

  function ItemOf(S: Stages, src: Sources, k: DefKey): Option<Item> {
    S.findItem(SyntaxOf(S, src, k.file), k.name)
  }

  /** The body of a definition in the scope of its workspace, if its file defines the name. */
  function BodyOf(S: Stages, src: Sources, k: DefKey): (Option<Body>, seq<Diag>)
    requires Registered(S)
  {
    match ItemOf(S, src, k)
    case None => (None, [])
    case Some(item) => S.lowerBody(ScopeOf(S, src, S.rootOf(k.root)), k, item)
  }

  function TypesOf(S: Stages, src: Sources, k: DefKey): (Option<Checked>, seq<Diag>)
    requires Registered(S)
  {
    match BodyOf(S, src, k).0
    case None => (None, [])
    case Some(body) =>
      var (checked, d) := S.checkBody(ScopeOf(S, src, S.rootOf(k.root)), body);
      (Some(checked), d)
  }

  function TypesAll(S: Stages, src: Sources, keys: seq<DefKey>): (r: seq<Option<Checked>>)
    requires Registered(S)
    ensures |r| == |keys| && forall i :: 0 <= i < |r| ==> r[i] == TypesOf(S, src, keys[i]).0
  {
    seq(|keys|, i requires 0 <= i < |keys| => TypesOf(S, src, keys[i]).0)
  }

  /** The contracts of the workspace `f` belongs to, from all its checked bodies in order. */
  function ContractsOf(S: Stages, src: Sources, f: File): (Ownership, seq<Diag>)
    requires Registered(S)
  {
    var scope := ScopeOf(S, src, S.rootOf(f));
    S.infer(scope, TypesAll(S, src, S.fnKeys(scope)))
  }

  function MirOf(S: Stages, src: Sources, k: DefKey): Option<MirFn>
    requires Registered(S)
  {
    match TypesOf(S, src, k).0
    case None => None
    case Some(checked) =>
      Some(S.lowerFn(ScopeOf(S, src, S.rootOf(k.root)), checked, ContractsOf(S, src, S.rootOf(k.root)).0))
  }

  function GraphOf(S: Stages, src: Sources, f: File): Graph
    requires Registered(S)
  {
    var scope := ScopeOf(S, src, S.rootOf(f));
    S.buildGraph(scope, TypesAll(S, src, S.fnKeys(scope)), ContractsOf(S, src, S.rootOf(f)).0,
      SyntaxAll(S, src, S.itemFiles(scope)))
  }

  // ---------- lists of answers ----------

  lemma {:induction false} AstsOfPlus(a: seq<Value>, b: seq<Value>)
    ensures AstsOf(a + b) == AstsOf(a) + AstsOf(b)
  {
    if a == [] {
      assert a + b == b;
    } else {
      assert (a + b)[0] == a[0] && (a + b)[1..] == a[1..] + b;
      AstsOfPlus(a[1..], b);
    }
  }

  lemma {:induction false} CheckedOfPlus(a: seq<Value>, b: seq<Value>)
    ensures CheckedOf(a + b) == CheckedOf(a) + CheckedOf(b)
  {
    if a == [] {
      assert a + b == b;
    } else {
      assert (a + b)[0] == a[0] && (a + b)[1..] == a[1..] + b;
      CheckedOfPlus(a[1..], b);
    }
  }

  lemma ValuesPlus(S: Stages, src: Sources, a: seq<QueryKey>, b: seq<QueryKey>)
    requires Registered(S)
    ensures Values(S, src, a + b) == Values(S, src, a) + Values(S, src, b)
  {
    hide Make;
  }

  /** The trees of a list of files, as answers. */
  lemma {:induction false} AstAnswers(S: Stages, src: Sources, files: seq<File>)
    requires Registered(S)
    ensures AstsOf(Values(S, src, AstKeys(files))) == SyntaxAll(S, src, files)
    ensures CheckedOf(Values(S, src, AstKeys(files))) == []
  {
    hide Make;
    if files == [] {
    } else {
      AstMeans(S, src, files[0]);
      AstAnswers(S, src, files[1..]);
      var vals := Values(S, src, AstKeys(files));
      assert AstKeys(files)[1..] == AstKeys(files[1..]);
      assert vals[1..] == Values(S, src, AstKeys(files[1..]));
      assert SyntaxAll(S, src, files) == [SyntaxOf(S, src, files[0])] + SyntaxAll(S, src, files[1..]);
    }
  }

  // ---------- single stages ----------

  lemma ParseMeans(S: Stages, src: Sources, f: File)
    requires Registered(S)
    ensures var (tree, d) := S.parse(TextAt(S, src, f));
      Make(S, src, ParseKey(f)).value == TreeV(tree) && Make(S, src, ParseKey(f)).diags == d
  {
    MakePlan(S, src, ParseKey(f));
  }

  lemma AstMeans(S: Stages, src: Sources, f: File)
    requires Registered(S)
    ensures Make(S, src, AstKey(f)).value == AstV(SyntaxOf(S, src, f))
    ensures Make(S, src, AstKey(f)).diags == S.lowerModule(S.parse(TextAt(S, src, f)).0).1
  {
    hide Make;
    ParseMeans(S, src, f);
    MakePlan(S, src, AstKey(f));
  }

  /** What the scope query demands: the syntax of every discovered file, twice. */
  lemma ScopeRuns(S: Stages, src: Sources, root: File) returns (order: seq<File>)
    requires Registered(S)
    ensures Discovery(S, src, root, order)
    ensures Make(S, src, ScopeKey(root)).deps == AstKeys(order) + AstKeys(order)
    ensures var (scope, d) := S.resolve(root, order, SyntaxAll(S, src, order));
      Make(S, src, ScopeKey(root)).value == ScopeV(scope) && Make(S, src, ScopeKey(root)).diags == d
  {
    hide Make, Discovery, Order;
    var key := ScopeKey(root);
    MakePlan(S, src, key);
    var m := Make(S, src, key);
    var all := Values(S, src, m.deps);
    order := Order(S, root, all, |all|);
    assert m.deps == AstKeys(order) + AstKeys(order);
    ValuesPlus(S, src, AstKeys(order), AstKeys(order));
    AstAnswers(S, src, order);
    assert all[|order|..] == Values(S, src, AstKeys(order));
    forall i | 0 <= i < |order|
      ensures all[i] == AstV(SyntaxOf(S, src, order[i]))
    {
      AstMeans(S, src, order[i]);
      assert m.deps[i] == AstKey(order[i]);
    }
    assert Answering(S, src, root, all, |all|);
    OrderFollows(S, src, root, all, |all|);
    FollowedAll(S, src, root, order, |all|);
  }

  /** Main result on discovery: there is exactly one list of discovered files, and the scope of a
      workspace is the resolution of the syntax of these files in this order. */
  lemma ScopeMeans(S: Stages, src: Sources, root: File, order: seq<File>)
    requires Registered(S) && Discovery(S, src, root, order)
    ensures var (scope, d) := S.resolve(root, order, SyntaxAll(S, src, order));
      Make(S, src, ScopeKey(root)).value == ScopeV(scope) && Make(S, src, ScopeKey(root)).diags == d
  {
    hide Discovery, Make;
    var o := ScopeRuns(S, src, root);
    DiscoveryOnce(S, src, root, o, order);
  }

  lemma ItemMeans(S: Stages, src: Sources, k: DefKey)
    requires Registered(S)
    ensures Make(S, src, AstItemKey(k)).value == ItemV(ItemOf(S, src, k))
    ensures Make(S, src, AstItemKey(k)).diags == []
  {
    hide Make;
    AstMeans(S, src, k.file);
    MakePlan(S, src, AstItemKey(k));
  }

  lemma ScopeAnswer(S: Stages, src: Sources, root: File)
    requires Registered(S)
    ensures Make(S, src, ScopeKey(root)).value == ScopeV(ScopeOf(S, src, root))
  {
    hide Make;
    MakeKind(S, src, ScopeKey(root));
  }

  lemma BodyMeans(S: Stages, src: Sources, k: DefKey)
    requires Registered(S)
    ensures Make(S, src, HirBodyKey(k)).value == HirV(BodyOf(S, src, k).0)
    ensures Make(S, src, HirBodyKey(k)).diags == BodyOf(S, src, k).1
  {
    hide Make, ScopeOf, ItemOf;
    ScopeAnswer(S, src, S.rootOf(k.root));
    ItemMeans(S, src, k);
    MakePlan(S, src, HirBodyKey(k));
  }

  lemma TypesMean(S: Stages, src: Sources, k: DefKey)
    requires Registered(S)
    ensures Make(S, src, BodyTypesKey(k)).value == CheckedV(TypesOf(S, src, k).0)
    ensures Make(S, src, BodyTypesKey(k)).diags == TypesOf(S, src, k).1
  {
    hide Make, ScopeOf, BodyOf;
    ScopeAnswer(S, src, S.rootOf(k.root));
    BodyMeans(S, src, k);
    MakePlan(S, src, BodyTypesKey(k));
  }

  lemma {:induction false} OwnershipAnswers(S: Stages, src: Sources, keys: seq<DefKey>)
    requires Registered(S)
    ensures CheckedOf(Values(S, src, OwnershipKeys(keys))) == TypesAll(S, src, keys)
  {
    hide Make, TypesOf;
    if keys == [] {
    } else {
      BodyMeans(S, src, keys[0]);
      TypesMean(S, src, keys[0]);
      OwnershipAnswers(S, src, keys[1..]);
      var two := [HirBodyKey(keys[0]), BodyTypesKey(keys[0])];
      ValuesPlus(S, src, two, OwnershipKeys(keys[1..]));
      var vals := Values(S, src, two);
      assert vals == [HirV(BodyOf(S, src, keys[0]).0), CheckedV(TypesOf(S, src, keys[0]).0)];
      assert vals[1..] == [vals[1]] && vals[1..][1..] == [];
      CheckedOfPlus(vals, Values(S, src, OwnershipKeys(keys[1..])));
      assert TypesAll(S, src, keys) == [TypesOf(S, src, keys[0]).0] + TypesAll(S, src, keys[1..]);
    }
  }

  lemma {:induction false} BodyAnswers(S: Stages, src: Sources, keys: seq<DefKey>)
    requires Registered(S)
    ensures CheckedOf(Values(S, src, BodyKeys(keys))) == TypesAll(S, src, keys)
    ensures AstsOf(Values(S, src, BodyKeys(keys))) == []
  {
    hide Make, TypesOf;
    if keys == [] {
    } else {
      TypesMean(S, src, keys[0]);
      BodyAnswers(S, src, keys[1..]);
      var vals := Values(S, src, BodyKeys(keys));
      assert BodyKeys(keys)[1..] == BodyKeys(keys[1..]);
      assert vals[1..] == Values(S, src, BodyKeys(keys[1..]));
      assert TypesAll(S, src, keys) == [TypesOf(S, src, keys[0]).0] + TypesAll(S, src, keys[1..]);
    }
  }

  lemma ContractsMean(S: Stages, src: Sources, f: File)
    requires Registered(S)
    ensures Make(S, src, OwnershipKey(f)).value == OwnershipV(ContractsOf(S, src, f).0)
    ensures Make(S, src, OwnershipKey(f)).diags == ContractsOf(S, src, f).1
  {
    hide Make, ScopeOf, TypesOf, OwnershipKeys;
    var root := S.rootOf(f);
    ScopeAnswer(S, src, root);
    MakePlan(S, src, OwnershipKey(f));
    var m := Make(S, src, OwnershipKey(f));
    var all := Values(S, src, m.deps);
    assert m.deps[0] == ScopeKey(root);
    var keys := S.fnKeys(ScopeOf(S, src, root));
    assert m.deps == [ScopeKey(root)] + OwnershipKeys(keys);
    ValuesPlus(S, src, [ScopeKey(root)], OwnershipKeys(keys));
    assert all[1..] == Values(S, src, OwnershipKeys(keys));
    OwnershipAnswers(S, src, keys);
  }

  lemma MirMeans(S: Stages, src: Sources, k: DefKey)
    requires Registered(S)
    ensures Make(S, src, MirBodyKey(k)).value == MirV(MirOf(S, src, k))
    ensures Make(S, src, MirBodyKey(k)).diags == []
  {
    hide Make, ScopeOf, TypesOf, ContractsOf;
    ScopeAnswer(S, src, S.rootOf(k.root));
    TypesMean(S, src, k);
    ContractsMean(S, src, S.rootOf(k.root));
    MakePlan(S, src, MirBodyKey(k));
    var m := Make(S, src, MirBodyKey(k));
    assert m.deps[0] == ScopeKey(S.rootOf(k.root)) && m.deps[1] == BodyTypesKey(k);
  }

  lemma GraphMeans(S: Stages, src: Sources, f: File)
    requires Registered(S)
    ensures Make(S, src, GraphKey(f)).value == GraphV(GraphOf(S, src, f))
    ensures Make(S, src, GraphKey(f)).diags == []
  {
    hide Make, ScopeOf, TypesOf, ContractsOf, BodyKeys, AstKeys;
    var root := S.rootOf(f);
    ScopeAnswer(S, src, root);
    ContractsMean(S, src, root);
    MakePlan(S, src, GraphKey(f));
    var m := Make(S, src, GraphKey(f));
    var all := Values(S, src, m.deps);
    assert m.deps[0] == ScopeKey(root);
    var scope := ScopeOf(S, src, root);
    var keys, files := S.fnKeys(scope), S.itemFiles(scope);
    var own := [OwnershipKey(root)];
    assert m.deps == [ScopeKey(root)] + (BodyKeys(keys) + own + AstKeys(files));
    GraphAnswers(S, src, root, keys, files, all);
    assert all[1 + |keys|] == OwnershipV(ContractsOf(S, src, root).0);
  }

  lemma GraphAnswers(S: Stages, src: Sources, root: File, keys: seq<DefKey>, files: seq<File>, all: seq<Value>)
    requires Registered(S)
    requires all == Values(S, src, [ScopeKey(root)] + (BodyKeys(keys) + [OwnershipKey(root)] + AstKeys(files)))
    ensures CheckedOf(all) == TypesAll(S, src, keys) && AstsOf(all) == SyntaxAll(S, src, files)
    ensures |all| == 2 + |keys| + |files| && all[1 + |keys|] == Make(S, src, OwnershipKey(root)).value
  {
    hide Make, TypesOf, CheckedOf, AstsOf, Values, BodyKeys, AstKeys;
    var v, w := ScopeV(ScopeOf(S, src, root)), OwnershipV(ContractsOf(S, src, root).0);
    var a, c := Values(S, src, BodyKeys(keys)), Values(S, src, AstKeys(files));
    GraphValues(S, src, root, BodyKeys(keys), AstKeys(files));
    ContractsMean(S, src, root);
    FourParts(v, a, w, c);
    ValuesLength(S, src, keys, files);
    BodyAnswers(S, src, keys);
    AstAnswers(S, src, files);
  }

  lemma GraphValues(S: Stages, src: Sources, root: File, a: seq<QueryKey>, c: seq<QueryKey>)
    requires Registered(S)
    ensures Values(S, src, [ScopeKey(root)] + (a + [OwnershipKey(root)] + c)) ==
            [ScopeV(ScopeOf(S, src, root))] +
            (Values(S, src, a) + [OwnershipV(ContractsOf(S, src, root).0)] + Values(S, src, c))
  {
    hide Make;
    ValuesPlus(S, src, [ScopeKey(root)], a + [OwnershipKey(root)] + c);
    ValuesPlus(S, src, a + [OwnershipKey(root)], c);
    ValuesPlus(S, src, a, [OwnershipKey(root)]);
    ScopeAnswer(S, src, root);
    ContractsMean(S, src, root);
    assert Values(S, src, [ScopeKey(root)]) == [ScopeV(ScopeOf(S, src, root))];
    assert Values(S, src, [OwnershipKey(root)]) == [OwnershipV(ContractsOf(S, src, root).0)];
  }

  lemma ValuesLength(S: Stages, src: Sources, keys: seq<DefKey>, files: seq<File>)
    requires Registered(S)
    ensures |Values(S, src, BodyKeys(keys))| == |keys| && |Values(S, src, AstKeys(files))| == |files|
  {
    hide Make;
  }

  lemma FourParts(v: Value, a: seq<Value>, w: Value, c: seq<Value>)
    requires v.ScopeV? && w.OwnershipV?
    ensures var all := [v] + (a + [w] + c);
      && CheckedOf(all) == CheckedOf(a) + CheckedOf(c) && AstsOf(all) == AstsOf(a) + AstsOf(c)
      && |all| == 2 + |a| + |c| && all[1 + |a|] == w
  {
    CheckedOfPlus([v], a + [w] + c);
    CheckedOfPlus(a + [w], c);
    CheckedOfPlus(a, [w]);
    AstsOfPlus([v], a + [w] + c);
    AstsOfPlus(a + [w], c);
    AstsOfPlus(a, [w]);
    assert [v][1..] == [] && [w][1..] == [];
  }

  /** The bundle of a compilation is made from the answers of exactly these queries. */
  lemma CompileMeans(S: Stages, src: Sources, f: File)
    requires Registered(S)
    ensures var root := S.rootOf(f);
      var scope := ScopeOf(S, src, root);
      var asked := [ScopeKey(root)] +
        (AstKeys(S.scopeFiles(scope)) + BodyKeys(S.fnKeys(scope)) + [OwnershipKey(root), GraphKey(root)] +
         MirKeys(S.fnKeys(scope)) + [DiagnosticsKey(f)]);
      Make(S, src, CompileKey(f)) == Made(CompileV(S.bundle(Values(S, src, asked))), asked, [])
  {
    hide Make, ScopeOf, BodyKeys, AstKeys, MirKeys;
    ScopeAnswer(S, src, S.rootOf(f));
    MakePlan(S, src, CompileKey(f));
    var m := Make(S, src, CompileKey(f));
    assert m.deps[0] == ScopeKey(S.rootOf(f));
  }

  /** The answer of every other query, in terms of the stages alone. */
  function Meant(S: Stages, src: Sources, key: QueryKey): Value
    requires Registered(S) && !key.DiagnosticsKey? && !key.CompileKey?
  {
    match key
    case SourceKey(f) => TextV(TextAt(S, src, f))
    case ParseKey(f) => TreeV(S.parse(TextAt(S, src, f)).0)
    case AstKey(f) => AstV(SyntaxOf(S, src, f))
    case ScopeKey(f) => ScopeV(ScopeOf(S, src, f))
    case AstItemKey(k) => ItemV(ItemOf(S, src, k))
    case HirBodyKey(k) => HirV(BodyOf(S, src, k).0)
    case BodyTypesKey(k) => CheckedV(TypesOf(S, src, k).0)
    case OwnershipKey(f) => OwnershipV(ContractsOf(S, src, f).0)
    case MirBodyKey(k) => MirV(MirOf(S, src, k))
    case GraphKey(f) => GraphV(GraphOf(S, src, f))
  }

  /** Main result on the evaluators: every query answers with its stage, applied to the texts and
      to what the other stages make of them. */
  lemma StagesMean(S: Stages, src: Sources, key: QueryKey)
    requires Registered(S) && !key.DiagnosticsKey? && !key.CompileKey?
    ensures Make(S, src, key).value == Meant(S, src, key)
  {
    hide Make, ScopeOf, ItemOf, BodyOf, TypesOf, ContractsOf, MirOf, GraphOf, SyntaxOf;
    match key
    case SourceKey(f) => SourceMeans(S, src, f);
    case ParseKey(f) => ParseMeans(S, src, f);
    case AstKey(f) => AstMeans(S, src, f);
    case ScopeKey(f) => ScopeAnswer(S, src, f);
    case AstItemKey(k) => ItemMeans(S, src, k);
    case HirBodyKey(k) => BodyMeans(S, src, k);
    case BodyTypesKey(k) => TypesMean(S, src, k);
    case OwnershipKey(f) => ContractsMean(S, src, f);
    case MirBodyKey(k) => MirMeans(S, src, k);
    case GraphKey(f) => GraphMeans(S, src, f);
  }

  lemma SourceMeans(S: Stages, src: Sources, f: File)
    requires Registered(S)
    ensures Make(S, src, SourceKey(f)) == Made(TextV(TextAt(S, src, f)), [], [])
  {
  }
}
