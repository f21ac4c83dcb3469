/** What the queries mean, told from the stages and the texts alone: the files of a workspace,
    the result of every stage on them, and the diagnostics that are reported. */
module QueryMeaning {
  import opened Wrappers
  import opened Query
  import opened FromScratch

  /** The syntax of a file. */
  function SyntaxOf(S: Stages, src: Sources, f: File): AstModule {
    S.lowerModule(S.parse(TextAt(S, src, f)).0).0
  }

  function SyntaxAll(S: Stages, src: Sources, files: seq<File>): (r: seq<AstModule>)
    ensures |r| == |files| && forall i :: 0 <= i < |r| ==> r[i] == SyntaxOf(S, src, files[i])
  {
    seq(|files|, i requires 0 <= i < |files| => SyntaxOf(S, src, files[i]))
  }

  // ---------- the files of a workspace ----------

  /** The `k`-th import of `f` is another file, `g`. */
  predicate Imports(S: Stages, src: Sources, f: File, k: nat, g: File) {
    var uses := S.uses(SyntaxOf(S, src, f));
    k < |uses| && S.moduleOf(uses[k]) == Some(g) && g != f
  }

  predicate Before(a: nat, k: nat, b: nat, l: nat) {
    a < b || (a == b && k < l)
  }

  /** File `i` of the list is imported before every import of file `j`. */
  ghost predicate FoundFirst(S: Stages, src: Sources, order: seq<File>, i: nat, j: nat)
    requires i < |order| && j < |order|
  {
    forall b: nat, l: nat :: b < |order| && Imports(S, src, order[b], l, order[j]) ==>
      exists a: nat, k: nat :: a < |order| && Imports(S, src, order[a], k, order[i]) && Before(a, k, b, l)
  }

  /** The files found from `root` by following imports: each once, those named earlier first. */
  ghost predicate Discovery(S: Stages, src: Sources, root: File, order: seq<File>) {
    && 0 < |order| && order[0] == root
    && (forall i, j :: 0 <= i < j < |order| ==> order[i] != order[j])
    && (forall b: nat, l: nat, g :: b < |order| && Imports(S, src, order[b], l, g) ==> g in order)
    && (forall j: nat :: 0 < j < |order| ==> ImportedBy(S, src, order, j, j, 0))
    && (forall i: nat, j: nat :: 0 < i < j < |order| ==> FoundFirst(S, src, order, i, j))
  }

  /** File `j` of the list is imported by a file before it, at an import before `(a, k)`. */
  ghost predicate ImportedBy(S: Stages, src: Sources, order: seq<File>, j: nat, a: nat, k: nat)
    requires j < |order|
  {
    exists b: nat, l: nat :: b < j && Before(b, l, a, k) && Imports(S, src, order[b], l, order[j])
  }

  ghost predicate Uses(S: Stages, src: Sources, f: File, g: File) {
    exists k: nat :: Imports(S, src, f, k, g)
  }

  /** Each file of the path imports the next one. */
  ghost predicate Linked(S: Stages, src: Sources, path: seq<File>) {
    forall i {:trigger path[i]} :: 0 <= i < |path| - 1 ==> Uses(S, src, path[i], path[i + 1])
  }

  /** Reachable from `root` through imports. */
  ghost predicate Reachable(S: Stages, src: Sources, root: File, g: File) {
    exists path: seq<File> :: path != [] && path[0] == root && path[|path| - 1] == g && Linked(S, src, path)
  }

  /** The discovered files are exactly the reachable ones. */
  lemma DiscoveredReachable(S: Stages, src: Sources, root: File, order: seq<File>, g: File)
    requires Discovery(S, src, root, order)
    ensures g in order <==> Reachable(S, src, root, g)
  {
    hide FoundFirst, Imports;
    if g in order {
      var j :| 0 <= j < |order| && order[j] == g;
      PathTo(S, src, root, order, j);
    }
    if Reachable(S, src, root, g) {
      var path :| path != [] && path[0] == root && path[|path| - 1] == g && Linked(S, src, path);
      PathStays(S, src, root, order, path, |path| - 1);
    }
  }

  lemma {:induction false} PathTo(S: Stages, src: Sources, root: File, order: seq<File>, j: nat)
    requires Discovery(S, src, root, order) && j < |order|
    ensures Reachable(S, src, root, order[j])
    decreases j
  {
    hide FoundFirst, Imports;
    if j == 0 {
      assert Linked(S, src, [root]);
      assert [root][|[root]| - 1] == root;
    } else {
      assert ImportedBy(S, src, order, j, j, 0);
      var b: nat, l: nat :| b < j && Imports(S, src, order[b], l, order[j]);
      PathTo(S, src, root, order, b);
      var path :| path != [] && path[0] == root && path[|path| - 1] == order[b] && Linked(S, src, path);
      var more := path + [order[j]];
      forall i {:trigger more[i]} | 0 <= i < |more| - 1
        ensures Uses(S, src, more[i], more[i + 1])
      {
        if i < |path| - 1 {
          assert Uses(S, src, path[i], path[i + 1]);
        }
      }
      assert Linked(S, src, more) && more[|more| - 1] == order[j];
    }
  }

  lemma {:induction false} PathStays(S: Stages, src: Sources, root: File, order: seq<File>, path: seq<File>, i: nat)
    requires Discovery(S, src, root, order) && i < |path| && path[0] == root && Linked(S, src, path)
    ensures path[i] in order
    decreases i
  {
    hide FoundFirst, Imports;
    if i > 0 {
      PathStays(S, src, root, order, path, i - 1);
      assert Uses(S, src, path[i - 1], path[i - 1 + 1]);
      var b: nat :| b < |order| && order[b] == path[i - 1];
      var k: nat :| Imports(S, src, path[i - 1], k, path[i]);
      assert Imports(S, src, order[b], k, path[i]);
    }
  }

  /** There is one such list at most. */
  lemma DiscoveryOnce(S: Stages, src: Sources, root: File, p: seq<File>, q: seq<File>)
    requires Discovery(S, src, root, p) && Discovery(S, src, root, q)
    ensures p == q
  {
    hide FoundFirst, Imports;
    if |p| <= |q| {
      SamePrefix(S, src, root, p, q, |p|);
      NoLonger(S, src, root, p, q);
    } else {
      SamePrefix(S, src, root, q, p, |q|);
      NoLonger(S, src, root, q, p);
    }
  }

  lemma NoLonger(S: Stages, src: Sources, root: File, p: seq<File>, q: seq<File>)
    requires Discovery(S, src, root, p) && Discovery(S, src, root, q) && |p| <= |q| && q[..|p|] == p
    ensures p == q
  {
    hide FoundFirst, Imports;
    if |p| < |q| {
      DiscoveredReachable(S, src, root, p, q[|p|]);
      DiscoveredReachable(S, src, root, q, q[|p|]);
      assert false;
    }
  }

  lemma {:induction false} SamePrefix(S: Stages, src: Sources, root: File, p: seq<File>, q: seq<File>, n: nat)
    requires Discovery(S, src, root, p) && Discovery(S, src, root, q) && n <= |p| <= |q|
    ensures p[..n] == q[..n]
    decreases n
  {
    hide FoundFirst, Imports;
    if n == 1 {
      assert p[0] == q[0];
    } else if n > 1 {
      SamePrefix(S, src, root, p, q, n - 1);
      var m := n - 1;
      if p[m] != q[m] {
        var i := Elsewhere(S, src, root, p, q, m);
        var j := Elsewhere(S, src, root, q, p, m);
        assert ImportedBy(S, src, q, m, m, 0);
        var b: nat, l: nat :| b < m && Imports(S, src, q[b], l, q[m]);
        assert p[..m][b] == q[..m][b];
        NoDescent(S, src, p, q, m, j, i, b, l);
      }
    }
  }

  /** The file one list has at `m` sits further on in the other one. */
  lemma Elsewhere(S: Stages, src: Sources, root: File, p: seq<File>, q: seq<File>, m: nat) returns (i: nat)
    requires Discovery(S, src, root, p) && Discovery(S, src, root, q)
    requires 0 < m < |p| && m < |q| && p[..m] == q[..m] && p[m] != q[m]
    ensures m < i < |q| && q[i] == p[m]
  {
    hide FoundFirst, Imports;
    DiscoveredReachable(S, src, root, p, p[m]);
    DiscoveredReachable(S, src, root, q, p[m]);
    i :| 0 <= i < |q| && q[i] == p[m];
    assert p[m] !in p[..m];
  }

  /** Two files cannot each be found before the other. */
  lemma {:induction false} NoDescent(S: Stages, src: Sources, p: seq<File>, q: seq<File>, m: nat, j: nat, i: nat,
        b: nat, l: nat)
    requires 0 < m < j < |p| && m < i < |q| && p[..m] == q[..m] && p[j] == q[m] && q[i] == p[m]
    requires FoundFirst(S, src, p, m, j) && FoundFirst(S, src, q, m, i)
    requires b < m && Imports(S, src, p[b], l, p[j])
    ensures false
    decreases b, l
  {
    hide Imports;
    var a: nat, k: nat :| a < |p| && Imports(S, src, p[a], k, p[m]) && Before(a, k, b, l);
    assert p[..m][a] == q[..m][a];
    var b1: nat, l1: nat :| b1 < |q| && Imports(S, src, q[b1], l1, q[m]) && Before(b1, l1, a, k);
    assert p[..m][b1] == q[..m][b1];
    NoDescent(S, src, p, q, m, j, i, b1, l1);
  }

  // ---------- the queue finds them ----------

  /** Every import before the `k`-th of file `a` has been followed. */
  ghost predicate Followed(S: Stages, src: Sources, root: File, order: seq<File>, a: nat, k: nat) {
    && 0 < |order| && order[0] == root
    && (forall i, j :: 0 <= i < j < |order| ==> order[i] != order[j])
    && (forall b: nat, l: nat, g :: b < |order| && Before(b, l, a, k) && Imports(S, src, order[b], l, g) ==> g in order)
    && (forall j: nat :: 0 < j < |order| ==> ImportedBy(S, src, order, j, a, k))
    && (forall i: nat, j: nat :: 0 < i < j < |order| ==> FoundFirst(S, src, order, i, j))
  }

  lemma FollowedAll(S: Stages, src: Sources, root: File, order: seq<File>, a: nat)
    requires Followed(S, src, root, order, a, 0) && |order| <= a
    ensures Discovery(S, src, root, order)
  {
    hide Imports, FoundFirst;
    forall j: nat | 0 < j < |order|
      ensures ImportedBy(S, src, order, j, j, 0)
    {
      assert ImportedBy(S, src, order, j, a, 0);
    }
  }

  /** A use that names no new file adds none. */
  lemma FollowOld(S: Stages, src: Sources, root: File, order: seq<File>, a: nat, k: nat)
    requires Followed(S, src, root, order, a, k) && a < |order|
    requires forall g :: Imports(S, src, order[a], k, g) ==> g in order
    ensures Followed(S, src, root, order, a, k + 1)
  {
    hide Imports, FoundFirst;
    var next := k + 1;
    forall j: nat {:trigger ImportedBy(S, src, order, j, a, next)} | 0 < j < |order|
      ensures ImportedBy(S, src, order, j, a, next)
    {
      assert ImportedBy(S, src, order, j, a, k);
    }
  }

  lemma FollowNew(S: Stages, src: Sources, root: File, order: seq<File>, a: nat, k: nat, g: File)
    requires Followed(S, src, root, order, a, k) && a < |order| && Imports(S, src, order[a], k, g) && g !in order
    ensures Followed(S, src, root, order + [g], a, k + 1)
  {
    hide Imports, FoundFirst;
    var more := order + [g];
    forall b: nat, l: nat, h | b < |more| && Before(b, l, a, k + 1) && Imports(S, src, more[b], l, h)
      ensures h in more
    {
      if Before(b, l, a, k) {
        assert h in order;
      } else {
        ImportsOne(S, src, order[a], k, g, h);
      }
    }
    var next := k + 1;
    forall j: nat {:trigger ImportedBy(S, src, more, j, a, next)} | 0 < j < |more|
      ensures ImportedBy(S, src, more, j, a, next)
    {
      if j < |order| {
        assert ImportedBy(S, src, order, j, a, k);
        var b: nat, l: nat :| b < j && Before(b, l, a, k) && Imports(S, src, order[b], l, order[j]);
        assert more[b] == order[b];
      } else {
        assert Imports(S, src, more[a], k, more[j]);
      }
    }
    forall i: nat, j: nat | 0 < i < j < |more|
      ensures FoundFirst(S, src, more, i, j)
    {
      FoundMore(S, src, root, order, a, k, g, i, j);
    }
  }

  lemma ImportsOne(S: Stages, src: Sources, f: File, k: nat, g: File, h: File)
    requires Imports(S, src, f, k, g) && Imports(S, src, f, k, h)
    ensures g == h
  {
  }

  lemma FoundMore(S: Stages, src: Sources, root: File, order: seq<File>, a: nat, k: nat, g: File, i: nat, j: nat)
    requires Followed(S, src, root, order, a, k) && a < |order| && g !in order && 0 < i < j <= |order|
    ensures FoundFirst(S, src, order + [g], i, j)
  {
    hide Imports;
    var more := order + [g];
    assert ImportedBy(S, src, order, i, a, k);
    var c: nat, m: nat :| c < i && Before(c, m, a, k) && Imports(S, src, order[c], m, order[i]);
    assert more[c] == order[c] && more[i] == order[i];
    forall b: nat, l: nat | b < |more| && Imports(S, src, more[b], l, more[j])
      ensures exists d: nat, n: nat :: d < |more| && Imports(S, src, more[d], n, more[i]) && Before(d, n, b, l)
    {
      if b < |order| && j < |order| {
        assert FoundFirst(S, src, order, i, j);
        var d: nat, n: nat :| d < |order| && Imports(S, src, order[d], n, order[i]) && Before(d, n, b, l);
        assert more[d] == order[d];
      } else if Before(b, l, a, k) {
        assert false;
      } else {
        assert Before(c, m, b, l);
      }
    }
  }

  lemma {:induction false} EnqueueFollows(S: Stages, src: Sources, root: File, order: seq<File>, a: nat, k: nat)
    requires a < |order| && k <= |S.uses(SyntaxOf(S, src, order[a]))| && Followed(S, src, root, order, a, k)
    ensures var uses := S.uses(SyntaxOf(S, src, order[a]));
      Followed(S, src, root, Enqueue(S, order, order[a], uses[k..]), a, |uses|)
    decreases |S.uses(SyntaxOf(S, src, order[a]))| - k
  {
    hide Followed;
    var f := order[a];
    var uses := S.uses(SyntaxOf(S, src, f));
    if k < |uses| {
      assert uses[k..][0] == uses[k] && uses[k..][1..] == uses[k + 1..];
      var dep := S.moduleOf(uses[k]);
      if dep.Some? && dep.value != f && dep.value !in order {
        FollowNew(S, src, root, order, a, k, dep.value);
        assert (order + [dep.value])[a] == f;
        EnqueueFollows(S, src, root, order + [dep.value], a, k + 1);
      } else {
        FollowOld(S, src, root, order, a, k);
        EnqueueFollows(S, src, root, order, a, k + 1);
      }
    }
  }

  lemma {:induction false} NextFile(S: Stages, src: Sources, root: File, order: seq<File>, a: nat, n: nat)
    requires Followed(S, src, root, order, a, n)
    requires a < |order| ==> |S.uses(SyntaxOf(S, src, order[a]))| <= n
    requires |order| <= a ==> n == 0
    ensures Followed(S, src, root, order, a + 1, 0)
  {
    hide FoundFirst;
    var next := a + 1;
    forall j: nat {:trigger ImportedBy(S, src, order, j, next, 0)} | 0 < j < |order|
      ensures ImportedBy(S, src, order, j, next, 0)
    {
      assert ImportedBy(S, src, order, j, a, n);
    }
  }

  /** The answers are the syntax of the queued files, as far as they go. */
  ghost predicate Answering(S: Stages, src: Sources, root: File, answers: seq<Value>, n: nat)
    requires n <= |answers|
  {
    var order := Order(S, root, answers, n);
    forall i :: 0 <= i < n && i < |order| ==> answers[i] == AstV(SyntaxOf(S, src, order[i]))
  }

  lemma {:induction false} OrderFollows(S: Stages, src: Sources, root: File, answers: seq<Value>, n: nat)
    requires n <= |answers| && Answering(S, src, root, answers, n)
    ensures Followed(S, src, root, Order(S, root, answers, n), n, 0)
    decreases n
  {
    hide Followed, Enqueue;
    if n == 0 {
      FollowedStart(S, src, root);
    } else {
      var order := Order(S, root, answers, n - 1);
      assert order <= Order(S, root, answers, n);
      assert Answering(S, src, root, answers, n - 1);
      OrderFollows(S, src, root, answers, n - 1);
      if n - 1 < |order| {
        var f := order[n - 1];
        assert answers[n - 1] == AstV(SyntaxOf(S, src, f));
        var uses := S.uses(SyntaxOf(S, src, f));
        EnqueueFollows(S, src, root, order, n - 1, 0);
        assert uses[0..] == uses;
        var more := Enqueue(S, order, f, uses);
        assert order <= more && more[n - 1] == f;
        NextFile(S, src, root, more, n - 1, |uses|);
      } else {
        NextFile(S, src, root, order, n - 1, 0);
      }
    }
  }

  lemma FollowedStart(S: Stages, src: Sources, root: File)
    ensures Followed(S, src, root, [root], 0, 0)
  {
  }

  // ---------- early cutoff ----------

  /** Two answers count as the same exactly when they are equal, except for trees and bundles. */
  lemma CutoffExact(a: Value, b: Value)
    ensures SameValue(a, b) <==> a == b && !a.TreeV? && !a.CompileV?
  {
  }
}
