/** What the incremental compiler can be asked: keys, memoized values, early-cutoff
    comparison, and what every evaluator demands. Each evaluator asks for one key at a time,
    and what it asks next may depend on the answers so far. */
module Query {
  import opened Wrappers

  // The stage results are opaque; only the parts that steer demands are looked at.
  type Text(==, !new)
  type Tree(!new)
  type AstModule(==, !new)
  type ScopeTable(==, !new)
  type Item(==, !new)
  type Body(==, !new)
  type Checked(==, !new)
  type Ownership(==, !new)
  type MirFn(==, !new)
  type Graph(==, !new)
  type Diag(==, !new)
  type Bundle(!new)

  type File = nat
  type Name = nat

  /** A definition by workspace root, file and name; stable across revisions. */
  datatype DefKey = DefKey(root: File, file: File, name: Name)

  datatype QueryKey =
    | SourceKey(f: File)
    | ParseKey(f: File)
    | AstKey(f: File)
    | ScopeKey(f: File)
    | AstItemKey(k: DefKey)
    | HirBodyKey(k: DefKey)
    | BodyTypesKey(k: DefKey)
    | OwnershipKey(f: File)
    | MirBodyKey(k: DefKey)
    | GraphKey(f: File)
    | DiagnosticsKey(f: File)
    | CompileKey(f: File)

  datatype Value =
    | TextV(text: Text)
    | TreeV(tree: Tree)
    | AstV(ast: AstModule)
    | ScopeV(scope: ScopeTable)
    | ItemV(item: Option<Item>)
    | HirV(body: Option<Body>)
    | CheckedV(checked: Option<Checked>)
    | OwnershipV(contracts: Ownership)
    | MirV(mir: Option<MirFn>)
    | GraphV(graph: Graph)
    | DiagsV(diags: seq<Diag>)
    | CompileV(bundle: Bundle)

  /** Early cutoff: trees and bundles never compare equal. */
  predicate SameValue(a: Value, b: Value) {
    match (a, b)
    case (TextV(x), TextV(y)) => x == y
    case (AstV(x), AstV(y)) => x == y
    case (ScopeV(x), ScopeV(y)) => x == y
    case (ItemV(x), ItemV(y)) => x == y
    case (HirV(x), HirV(y)) => x == y
    case (CheckedV(x), CheckedV(y)) => x == y
    case (OwnershipV(x), OwnershipV(y)) => x == y
    case (MirV(x), MirV(y)) => x == y
    case (GraphV(x), GraphV(y)) => x == y
    case (DiagsV(x), DiagsV(y)) => x == y
    case _ => false
  }

  /** The pure stages of the compiler. `moduleOf` is the table of registered modules, `rootOf`
      the workspace routing; both are fixed. `noText` stands for an unregistered file. */
  datatype Stages = Stages(
    count: nat,
    noText: Text,
    moduleOf: Name -> Option<File>,
    rootOf: File -> File,
    parse: Text -> (Tree, seq<Diag>),
    lowerModule: Tree -> (AstModule, seq<Diag>),
    uses: AstModule -> seq<Name>,
    resolve: (File, seq<File>, seq<AstModule>) -> (ScopeTable, seq<Diag>),
    scopeFiles: ScopeTable -> seq<File>,
    fnKeys: ScopeTable -> seq<DefKey>,
    itemFiles: ScopeTable -> seq<File>,
    findItem: (AstModule, Name) -> Option<Item>,
    lowerBody: (ScopeTable, DefKey, Item) -> (Option<Body>, seq<Diag>),
    checkBody: (ScopeTable, Body) -> (Checked, seq<Diag>),
    infer: (ScopeTable, seq<Option<Checked>>) -> (Ownership, seq<Diag>),
    lowerFn: (ScopeTable, Checked, Ownership) -> MirFn,
    buildGraph: (ScopeTable, seq<Option<Checked>>, Ownership, seq<AstModule>) -> Graph,
    locate: (ScopeTable, seq<AstModule>, Diag) -> Diag,
    bundle: seq<Value> -> Bundle)

  /** Evaluators only demand keys of lower rank. */
  function Rank(key: QueryKey): nat {
    match key
    case SourceKey(_) => 0
    case ParseKey(_) => 1
    case AstKey(_) => 2
    case ScopeKey(_) => 3
    case AstItemKey(_) => 3
    case HirBodyKey(_) => 4
    case BodyTypesKey(_) => 5
    case OwnershipKey(_) => 6
    case MirBodyKey(_) => 7
    case GraphKey(_) => 7
    case DiagnosticsKey(_) => 7
    case CompileKey(_) => 8
  }

  /** Every key ranks below the bound. */
  predicate Lower(keys: seq<QueryKey>, bound: nat) {
    forall k <- keys :: Rank(k) < bound
  }

  // ---------- what an evaluator demands ----------

  function AstKeys(files: seq<File>): (r: seq<QueryKey>)
    ensures |r| == |files| && forall i :: 0 <= i < |r| ==> r[i] == AstKey(files[i])
  {
    seq(|files|, i requires 0 <= i < |files| => AstKey(files[i]))
  }

  function BodyKeys(keys: seq<DefKey>): (r: seq<QueryKey>)
    ensures |r| == |keys| && forall i :: 0 <= i < |r| ==> r[i] == BodyTypesKey(keys[i])
  {
    seq(|keys|, i requires 0 <= i < |keys| => BodyTypesKey(keys[i]))
  }

  function MirKeys(keys: seq<DefKey>): (r: seq<QueryKey>)
    ensures |r| == |keys| && forall i :: 0 <= i < |r| ==> r[i] == MirBodyKey(keys[i])
  {
    seq(|keys|, i requires 0 <= i < |keys| => MirBodyKey(keys[i]))
  }

  /** The raw body is demanded before its checked form. */
  function OwnershipKeys(keys: seq<DefKey>): (r: seq<QueryKey>)
    ensures forall q <- r :: exists k <- keys :: q == HirBodyKey(k) || q == BodyTypesKey(k)
  {
    if keys == [] then [] else
      assert forall k <- keys[1..] :: k in keys;
      [HirBodyKey(keys[0]), BodyTypesKey(keys[0])] + OwnershipKeys(keys[1..])
  }

  /** Every reachable file is observed through its parse as well as its tree. */
  function ParseAndAst(files: seq<File>): (r: seq<QueryKey>)
    ensures forall f <- files :: ParseKey(f) in r
    ensures forall q <- r :: exists f <- files :: q == ParseKey(f) || q == AstKey(f)
  {
    if files == [] then [] else
      assert forall f <- files[1..] :: f in files;
      [ParseKey(files[0]), AstKey(files[0])] + ParseAndAst(files[1..])
  }

  /** The files named by `use` declarations of `f` that are not yet in the queue. */
  function Enqueue(S: Stages, order: seq<File>, f: File, names: seq<Name>): (r: seq<File>)
    ensures order <= r
    decreases |names|
  {
    if names == [] then order
    else
      var dep := S.moduleOf(names[0]);
      Enqueue(S, if dep.Some? && dep.value != f && dep.value !in order then order + [dep.value] else order, f,
        names[1..])
  }

  /** Breadth-first discovery after the syntax of the first `n` files was read. */
  function Order(S: Stages, root: File, answers: seq<Value>, n: nat): (r: seq<File>)
    requires n <= |answers|
    ensures 0 < |r| && r[0] == root
    decreases n
  {
    if n == 0 then [root]
    else
      var order := Order(S, root, answers, n - 1);
      if n - 1 < |order| && answers[n - 1].AstV? then Enqueue(S, order, order[n - 1], S.uses(answers[n - 1].ast))
        else order
  }

  /** Discovery reads every file once; once it is over, every file is read again in order. */
  function ScopePlan(S: Stages, root: File, answers: seq<Value>): seq<QueryKey> {
    var order := Order(S, root, answers, |answers|);
    AstKeys(order) + if |answers| >= |order| then AstKeys(order) else []
  }

  /** The demands an evaluator is known to make once it has the given answers. */
  function Plan(S: Stages, key: QueryKey, answers: seq<Value>): seq<QueryKey> {
    match key
    case SourceKey(_) => []
    case ParseKey(f) => [SourceKey(f)]
    case AstKey(f) => [ParseKey(f)]
    case ScopeKey(f) => ScopePlan(S, f, answers)
    case AstItemKey(k) => [AstKey(k.file)]
    case HirBodyKey(k) => [ScopeKey(S.rootOf(k.root)), AstItemKey(k)]
    case BodyTypesKey(k) => [ScopeKey(S.rootOf(k.root)), HirBodyKey(k)]
    case OwnershipKey(f) =>
      [ScopeKey(S.rootOf(f))] +
      if |answers| >= 1 && answers[0].ScopeV? then OwnershipKeys(S.fnKeys(answers[0].scope)) else []
    case MirBodyKey(k) =>
      [ScopeKey(S.rootOf(k.root)), BodyTypesKey(k)] +
      if |answers| >= 2 && answers[1].CheckedV? && answers[1].checked.Some? then [OwnershipKey(S.rootOf(k.root))]
        else []
    case GraphKey(f) =>
      [ScopeKey(S.rootOf(f))] +
      if |answers| >= 1 && answers[0].ScopeV? then
        BodyKeys(S.fnKeys(answers[0].scope)) + [OwnershipKey(S.rootOf(f))] + AstKeys(S.itemFiles(answers[0].scope))
      else []
    case DiagnosticsKey(f) =>
      [ParseKey(f), ScopeKey(S.rootOf(f))] +
      if |answers| >= 2 && answers[1].ScopeV? then
        ParseAndAst(S.scopeFiles(answers[1].scope)) + BodyKeys(S.fnKeys(answers[1].scope)) + [OwnershipKey(S.rootOf(f))]
      else []
    case CompileKey(f) =>
      [ScopeKey(S.rootOf(f))] +
      if |answers| >= 1 && answers[0].ScopeV? then
        AstKeys(S.scopeFiles(answers[0].scope)) + BodyKeys(S.fnKeys(answers[0].scope)) +
        [OwnershipKey(S.rootOf(f)), GraphKey(S.rootOf(f))] + MirKeys(S.fnKeys(answers[0].scope)) + [DiagnosticsKey(f)]
      else []
  }

  /** An evaluator either demands a key, finishes, or finishes by collecting the diagnostics
      reachable from what it demanded. */
  datatype Step = Demand(key: QueryKey) | Done(value: Value, diags: seq<Diag>) | Collect

  function Next(S: Stages, key: QueryKey, answers: seq<Value>): Step {
    var plan := Plan(S, key, answers);
    if |answers| < |plan| then Demand(plan[|answers|])
    else if key.DiagnosticsKey? then Collect
    else
      var (v, d) := Finish(S, key, answers);
      Done(v, d)
  }

  // ---------- what an evaluator computes ----------

  function CheckedOf(answers: seq<Value>): seq<Option<Checked>> {
    if answers == [] then []
    else if answers[0].CheckedV? then [answers[0].checked] + CheckedOf(answers[1..])
    else CheckedOf(answers[1..])
  }

  function AstsOf(answers: seq<Value>): seq<AstModule> {
    if answers == [] then []
    else if answers[0].AstV? then [answers[0].ast] + AstsOf(answers[1..])
    else AstsOf(answers[1..])
  }

  /** The value and own diagnostics once every demand is answered. Answers of the wrong kind
      do not occur. */
  function Finish(S: Stages, key: QueryKey, answers: seq<Value>): (Value, seq<Diag>) {
    match key
    case ParseKey(_) =>
      if |answers| == 1 && answers[0].TextV? then
        var (tree, d) := S.parse(answers[0].text);
        (TreeV(tree), d)
      else (ItemV(None), [])
    case AstKey(_) =>
      if |answers| == 1 && answers[0].TreeV? then
        var (ast, d) := S.lowerModule(answers[0].tree);
        (AstV(ast), d)
      else (ItemV(None), [])
    case ScopeKey(f) =>
      var order := Order(S, f, answers, |answers|);
      var (scope, d) := S.resolve(f, order, if |order| <= |answers| then AstsOf(answers[|order|..]) else []);
      (ScopeV(scope), d)
    case AstItemKey(k) =>
      (ItemV(if |answers| == 1 && answers[0].AstV? then S.findItem(answers[0].ast, k.name) else None), [])
    case HirBodyKey(k) =>
      if |answers| == 2 && answers[0].ScopeV? && answers[1].ItemV? && answers[1].item.Some? then
        var (body, d) := S.lowerBody(answers[0].scope, k, answers[1].item.value);
        (HirV(body), d)
      else (HirV(None), [])
    case BodyTypesKey(_) =>
      if |answers| == 2 && answers[0].ScopeV? && answers[1].HirV? && answers[1].body.Some? then
        var (checked, d) := S.checkBody(answers[0].scope, answers[1].body.value);
        (CheckedV(Some(checked)), d)
      else (CheckedV(None), [])
    case OwnershipKey(_) =>
      if |answers| >= 1 && answers[0].ScopeV? then
        var (contracts, d) := S.infer(answers[0].scope, CheckedOf(answers));
        (OwnershipV(contracts), d)
      else (ItemV(None), [])
    case MirBodyKey(_) =>
      if |answers| == 3 && answers[0].ScopeV? && answers[1].CheckedV? && answers[1].checked.Some? &&
        answers[2].OwnershipV?
      then
        (MirV(Some(S.lowerFn(answers[0].scope, answers[1].checked.value, answers[2].contracts))), [])
      else (MirV(None), [])
    case GraphKey(_) =>
      if |answers| >= 1 && answers[0].ScopeV? && 1 + |S.fnKeys(answers[0].scope)| < |answers|
         && answers[1 + |S.fnKeys(answers[0].scope)|].OwnershipV? then
        (GraphV(S.buildGraph(answers[0].scope, CheckedOf(answers), answers[1 + |S.fnKeys(answers[0].scope)|].contracts,
          AstsOf(answers))), [])
      else (ItemV(None), [])
    case CompileKey(_) => (CompileV(S.bundle(answers)), [])
    case _ => (ItemV(None), [])
  }

  /** Located, each distinct diagnostic once, in order. */
  function Distinct(ds: seq<Diag>, out: seq<Diag>): (r: seq<Diag>)
    ensures out <= r
    decreases |ds|
  {
    if ds == [] then out
    else Distinct(ds[1..], if ds[0] in out then out else out + [ds[0]])
  }

  function Located(S: Stages, scope: ScopeTable, asts: seq<AstModule>, ds: seq<Diag>): seq<Diag> {
    seq(|ds|, i requires 0 <= i < |ds| => S.locate(scope, asts, ds[i]))
  }

  /** The value of `DiagnosticsKey` on the diagnostics it collected. */
  function Report(S: Stages, answers: seq<Value>, collected: seq<Diag>): Value {
    if |answers| >= 2 && answers[1].ScopeV? then
      DiagsV(Distinct(Located(S, answers[1].scope, AstsOf(answers), collected), []))
    else DiagsV([])
  }

  // ---------- evaluators end ----------

  /** Whether the evaluator still waits for the answer that fixes the rest of its plan. */
  function Phase(key: QueryKey, answers: seq<Value>): nat {
    match key
    case OwnershipKey(_) => if |answers| == 0 then 1 else 0
    case GraphKey(_) => if |answers| == 0 then 1 else 0
    case CompileKey(_) => if |answers| == 0 then 1 else 0
    case MirBodyKey(_) => if |answers| < 2 then 2 - |answers| else 0
    case DiagnosticsKey(_) => if |answers| < 2 then 2 - |answers| else 0
    case _ => 0
  }

  function Left(S: Stages, key: QueryKey, answers: seq<Value>): nat {
    var bound := if key.ScopeKey? then 2 * (S.count + 1) else |Plan(S, key, answers)|;
    if bound >= |answers| then bound - |answers| else 0
  }

  /** Modules are registered files. */
  ghost predicate Registered(S: Stages) {
    forall n :: S.moduleOf(n).Some? ==> S.moduleOf(n).value < S.count
  }

  predicate Queue(S: Stages, root: File, order: seq<File>) {
    (forall i, j :: 0 <= i < j < |order| ==> order[i] != order[j]) &&
    forall f <- order :: f == root || f < S.count
  }

  lemma {:induction false} EnqueueQueue(S: Stages, root: File, order: seq<File>, f: File, names: seq<Name>)
    requires Registered(S) && Queue(S, root, order)
    ensures Queue(S, root, Enqueue(S, order, f, names))
    decreases |names|
  {
    if names != [] {
      var dep := S.moduleOf(names[0]);
      EnqueueQueue(S, root, if dep.Some? && dep.value != f && dep.value !in order then order + [dep.value] else order,
        f, names[1..]);
    }
  }

  lemma {:induction false} OrderQueue(S: Stages, root: File, answers: seq<Value>, n: nat)
    requires Registered(S) && n <= |answers|
    ensures Queue(S, root, Order(S, root, answers, n))
    decreases n
  {
    if n > 0 {
      OrderQueue(S, root, answers, n - 1);
      var order := Order(S, root, answers, n - 1);
      if n - 1 < |order| && answers[n - 1].AstV? {
        EnqueueQueue(S, root, order, order[n - 1], S.uses(answers[n - 1].ast));
      }
    }
  }

  /** Distinct files are no more than there are files. */
  lemma {:induction false} QueueShort(S: Stages, root: File, order: seq<File>)
    requires Queue(S, root, order)
    ensures |order| <= S.count + 1
  {
    var all := Below(S.count) + {root};
    SeqCard(order, all);
  }

  function Below(n: nat): (r: set<File>)
    ensures |r| == n && forall f: File :: f in r <==> f < n
  {
    if n == 0 then {} else Below(n - 1) + {n - 1}
  }

  lemma {:induction false} SeqCard(s: seq<File>, all: set<File>)
    requires (forall i, j :: 0 <= i < j < |s| ==> s[i] != s[j]) && forall f <- s :: f in all
    ensures |s| <= |all|
  {
    if s != [] {
      var last := s[|s| - 1];
      SeqCard(s[..|s| - 1], all - {last});
    }
  }

  lemma LowerPlus(a: seq<QueryKey>, b: seq<QueryKey>, n: nat)
    requires Lower(a, n) && Lower(b, n)
    ensures Lower(a + b, n)
  {
  }

  /** The demands for items of the workspace rank below the bundles built from them. */
  lemma ItemsLower(fns: seq<DefKey>, files: seq<File>)
    ensures Lower(BodyKeys(fns), 7) && Lower(AstKeys(files), 7) && Lower(ParseAndAst(files), 7)
    ensures Lower(MirKeys(fns), 8)
    ensures Lower(BodyKeys(fns), 8) && Lower(AstKeys(files), 8) && Lower(OwnershipKeys(fns), 6)
  {
  }

  lemma BundleLower(S: Stages, key: QueryKey, answers: seq<Value>)
    requires key.GraphKey? || key.DiagnosticsKey? || key.CompileKey?
    ensures Lower(Plan(S, key, answers), Rank(key))
  {
    hide Lower, BodyKeys, AstKeys, ParseAndAst, MirKeys;
    var f := key.f;
    var own := [OwnershipKey(S.rootOf(f))];
    Singles(S.rootOf(f), f);
    if key.GraphKey? && |answers| >= 1 && answers[0].ScopeV? {
      var fns, files := S.fnKeys(answers[0].scope), S.itemFiles(answers[0].scope);
      ItemsLower(fns, files);
      LowerPlus(BodyKeys(fns), own, 7);
      LowerPlus(BodyKeys(fns) + own, AstKeys(files), 7);
      LowerPlus([ScopeKey(S.rootOf(f))], BodyKeys(fns) + own + AstKeys(files), 7);
    } else if key.DiagnosticsKey? && |answers| >= 2 && answers[1].ScopeV? {
      var fns, files := S.fnKeys(answers[1].scope), S.scopeFiles(answers[1].scope);
      ItemsLower(fns, files);
      LowerPlus(ParseAndAst(files), BodyKeys(fns), 7);
      LowerPlus(ParseAndAst(files) + BodyKeys(fns), own, 7);
      LowerPlus([ParseKey(f), ScopeKey(S.rootOf(f))], ParseAndAst(files) + BodyKeys(fns) + own, 7);
    } else if key.CompileKey? && |answers| >= 1 && answers[0].ScopeV? {
      CompileLower(S, f, answers);
    } else {
      LowerPlus([ScopeKey(S.rootOf(f))], [], Rank(key));
      LowerPlus([ParseKey(f), ScopeKey(S.rootOf(f))], [], Rank(key));
    }
  }

  lemma Singles(root: File, f: File)
    ensures Lower([OwnershipKey(root)], 7) && Lower([ScopeKey(root)], 7) && Lower([ScopeKey(root)], 8)
    ensures Lower([ParseKey(f), ScopeKey(root)], 7) && Lower([ParseKey(f), ScopeKey(root)], 8)
    ensures Lower([OwnershipKey(root), GraphKey(root)], 8) && Lower([DiagnosticsKey(f)], 8)
    ensures forall n: nat :: Lower([], n)
  {
  }

  lemma CompileLower(S: Stages, f: File, answers: seq<Value>)
    requires |answers| >= 1 && answers[0].ScopeV?
    ensures Lower(Plan(S, CompileKey(f), answers), 8)
  {
    hide Lower, BodyKeys, AstKeys, MirKeys;
    var root := S.rootOf(f);
    var fns, files := S.fnKeys(answers[0].scope), S.scopeFiles(answers[0].scope);
    ItemsLower(fns, files);
    Singles(root, f);
    var a := AstKeys(files) + BodyKeys(fns);
    LowerPlus(AstKeys(files), BodyKeys(fns), 8);
    LowerPlus(a, [OwnershipKey(root), GraphKey(root)], 8);
    LowerPlus(a + [OwnershipKey(root), GraphKey(root)], MirKeys(fns), 8);
    LowerPlus(a + [OwnershipKey(root), GraphKey(root)] + MirKeys(fns), [DiagnosticsKey(f)], 8);
    LowerPlus([ScopeKey(root)], a + [OwnershipKey(root), GraphKey(root)] + MirKeys(fns) + [DiagnosticsKey(f)], 8);
  }

  lemma PlanLower(S: Stages, key: QueryKey, answers: seq<Value>)
    ensures forall q <- Plan(S, key, answers) :: Rank(q) < Rank(key)
  {
    hide Order;
    assert Lower(Plan(S, key, answers), Rank(key)) by {
      if key.GraphKey? || key.DiagnosticsKey? || key.CompileKey? {
        BundleLower(S, key, answers);
      }
    }
  }

  /** Once the phase is over, the rest of the plan is fixed. */
  lemma PlanFixed(S: Stages, key: QueryKey, answers: seq<Value>, v: Value)
    requires !key.ScopeKey?
    ensures Phase(key, answers + [v]) < Phase(key, answers) ||
            (Phase(key, answers + [v]) == Phase(key, answers) && Plan(S, key, answers + [v]) == Plan(S, key, answers))
  {
    hide AstKeys, BodyKeys, MirKeys, OwnershipKeys, ParseAndAst, ScopePlan;
    var more := answers + [v];
    if |answers| >= 1 {
      assert more[0] == answers[0];
    }
    if |answers| >= 2 {
      assert more[1] == answers[1];
    }
  }

  /** Every demand is for a key of lower rank, and every answer brings the evaluator closer to
      its end, whatever the answer is. */
  lemma NextProgress(S: Stages, key: QueryKey, answers: seq<Value>, v: Value)
    requires Registered(S) && Next(S, key, answers).Demand?
    ensures Rank(Next(S, key, answers).key) < Rank(key)
    ensures Phase(key, answers + [v]) < Phase(key, answers) ||
            (Phase(key, answers + [v]) == Phase(key, answers) && Left(S, key, answers + [v]) < Left(S, key, answers))
  {
    hide Plan;
    PlanLower(S, key, answers);
    if key.ScopeKey? {
      OrderQueue(S, key.f, answers, |answers|);
      QueueShort(S, key.f, Order(S, key.f, answers, |answers|));
      ScopePlanShort(S, key.f, answers);
    } else {
      PlanFixed(S, key, answers, v);
    }
  }

  lemma ScopePlanShort(S: Stages, root: File, answers: seq<Value>)
    ensures |Plan(S, ScopeKey(root), answers)| <= 2 * |Order(S, root, answers, |answers|)|
  {
  }
}
