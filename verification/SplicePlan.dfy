/** Planning a patch: the overlap check, the order edits are applied in, and the splice of every
    file they touch. */
module SplicePlan {
  import opened Wrappers
  import opened Splice

  /** The edits of one file, in list order. */
  function ForFile(es: seq<Edit>, f: nat): (r: seq<Edit>)
    ensures forall e :: e in r <==> e in es && e.file == f
  {
    if es == [] then []
    else
      var n := |es| - 1;
      ForFile(es[..n], f) + (if es[n].file == f then [es[n]] else [])
  }

  /** Descending starts, and at one start descending operations. */
  predicate NotBefore(a: Edit, b: Edit) {
    b.start < a.start || (a.start == b.start && b.op <= a.op)
  }

  ghost predicate Down(es: seq<Edit>) {
    forall i, j :: 0 <= i < j < |es| ==> NotBefore(es[i], es[j])
  }

  function Reverse(es: seq<Edit>): (r: seq<Edit>)
    ensures |r| == |es| && forall i :: 0 <= i < |es| ==> r[i] == es[|es| - 1 - i]
  {
    if es == [] then [] else [es[|es| - 1]] + Reverse(es[..|es| - 1])
  }

  // ---------- the overlap check ----------

  ghost predicate Grouped(groups: map<nat, seq<Edit>>, es: seq<Edit>) {
    forall f: nat :: (if f in groups then groups[f] else []) == ForFile(es, f) && (f in groups ==> groups[f] != [])
  }

  lemma GroupOne(groups: map<nat, seq<Edit>>, es: seq<Edit>, e: Edit)
    requires Grouped(groups, es)
    ensures Grouped(groups[e.file := (if e.file in groups then groups[e.file] else []) + [e]], es + [e])
  {
    var more := groups[e.file := (if e.file in groups then groups[e.file] else []) + [e]];
    forall f: nat
      ensures (if f in more then more[f] else []) == ForFile(es + [e], f) && (f in more ==> more[f] != [])
    {
      ForFileAppend(es, e, f);
      hide ForFile;
      assert (if f in groups then groups[f] else []) == ForFile(es, f);
    }
  }

  lemma ForFileAppend(es: seq<Edit>, e: Edit, f: nat)
    ensures ForFile(es + [e], f) == ForFile(es, f) + if e.file == f then [e] else []
  {
    assert (es + [e])[..|es|] == es;
  }

  method GroupByFile(es: seq<Edit>) returns (groups: map<nat, seq<Edit>>)
    ensures Grouped(groups, es)
  {
    hide Grouped;
    groups := map[];
    GroupNone();
    var i := 0;
    assert es[..0] == [];
    while i < |es|
      invariant 0 <= i <= |es| && Grouped(groups, es[..i])
    {
      var e := es[i];
      assert es[..i + 1] == es[..i] + [e];
      GroupOne(groups, es[..i], e);
      groups := groups[e.file := (if e.file in groups then groups[e.file] else []) + [e]];
      i := i + 1;
    }
    assert es[..i] == es;
  }

  lemma GroupNone()
    ensures Grouped(map[], [])
  {
  }

  /** Compares every pair of edits of a file. */
  method AnyClash(es: seq<Edit>) returns (clash: bool)
    ensures clash <==> !NoClash(es)
  {
    var i := 0;
    while i < |es|
      invariant 0 <= i <= |es|
      invariant forall a, b :: 0 <= a < i && a < b < |es| ==> !Clash(es[a], es[b])
    {
      var j := i + 1;
      while j < |es|
        invariant i < j <= |es|
        invariant forall b :: i < b < j ==> !Clash(es[i], es[b])
      {
        if Clash(es[i], es[j]) {
          return true;
        }
        j := j + 1;
      }
      i := i + 1;
    }
    clash := false;
  }

  method CheckOverlap(es: seq<Edit>) returns (ok: bool)
    ensures ok <==> forall f: nat :: NoClash(ForFile(es, f))
  {
    hide NoClash, ForFile;
    var groups := GroupByFile(es);
    var todo := groups.Keys;
    while todo != {}
      invariant todo <= groups.Keys
      invariant forall f: nat :: f in groups && f !in todo ==> NoClash(groups[f])
      decreases |todo|
    {
      var f :| f in todo;
      var clash := AnyClash(groups[f]);
      if clash {
        assert groups[f] == ForFile(es, f);
        return false;
      }
      todo := todo - {f};
    }
    NoClashNone();
    forall f: nat
      ensures NoClash(ForFile(es, f))
    {
      assert (if f in groups then groups[f] else []) == ForFile(es, f);
    }
    ok := true;
  }

  lemma NoClashNone()
    ensures NoClash([])
  {
  }

  // ---------- ordering ----------

  /** Inserts an edit behind every edit that does not come after it. */
  method InsertDown(es: seq<Edit>, e: Edit) returns (r: seq<Edit>)
    requires Down(es)
    ensures Down(r) && multiset(r) == multiset(es) + multiset{e}
    ensures (forall d <- es :: NotBefore(d, e)) ==> r == es + [e]
  {
    var k := 0;
    while k < |es| && NotBefore(es[k], e)
      invariant 0 <= k <= |es|
      invariant forall i :: 0 <= i < k ==> NotBefore(es[i], e)
    {
      k := k + 1;
    }
    DownInsert(es, k, e);
    r := es[..k] + [e] + es[k..];
    assert es == es[..k] + es[k..];
    assert k < |es| ==> es[k] in es;
    assert k == |es| ==> r == es + [e];
  }

  lemma DownInsert(es: seq<Edit>, k: nat, e: Edit)
    requires Down(es) && k <= |es| && (forall i :: 0 <= i < k ==> NotBefore(es[i], e))
    requires k < |es| ==> !NotBefore(es[k], e)
    ensures Down(es[..k] + [e] + es[k..])
  {
    var r := es[..k] + [e] + es[k..];
    forall i, j | 0 <= i < j < |r|
      ensures NotBefore(r[i], r[j])
    {
      assert r[i] == if i < k then es[i] else if i == k then e else es[i - 1];
      assert r[j] == if j < k then es[j] else if j == k then e else es[j - 1];
      if i == k {
        assert j - 1 == k || NotBefore(es[k], es[j - 1]);
      } else if j != k {
        assert NotBefore(es[if i < k then i else i - 1], es[if j < k then j else j - 1]);
      }
    }
  }

  /** Sorts for splicing: right to left, the later operation first at one point. */
  method SortDown(es: seq<Edit>) returns (r: seq<Edit>)
    ensures Down(r) && multiset(r) == multiset(es)
    ensures Down(es) ==> r == es
  {
    r := [];
    var i := 0;
    while i < |es|
      invariant 0 <= i <= |es| && Down(r) && multiset(r) == multiset(es[..i])
      invariant Down(es) ==> r == es[..i]
    {
      assert es[..i + 1] == es[..i] + [es[i]];
      r := InsertDown(r, es[i]);
      i := i + 1;
    }
    assert es[..i] == es;
  }

  ghost predicate StartsDown(es: seq<Edit>) {
    forall i, j :: 0 <= i < j < |es| ==> es[j].start <= es[i].start
  }

  /** Inserts an edit behind every edit that starts no earlier. */
  method InsertByStart(es: seq<Edit>, e: Edit) returns (r: seq<Edit>)
    requires StartsDown(es)
    ensures StartsDown(r) && multiset(r) == multiset(es) + multiset{e}
    ensures (forall d <- es :: NotBefore(d, e)) ==> r == es + [e]
  {
    var k := 0;
    while k < |es| && e.start <= es[k].start
      invariant 0 <= k <= |es|
      invariant forall i :: 0 <= i < k ==> e.start <= es[i].start
    {
      k := k + 1;
    }
    StartsInsert(es, k, e);
    r := es[..k] + [e] + es[k..];
    assert es == es[..k] + es[k..];
    assert k < |es| ==> es[k] in es;
    assert k == |es| ==> r == es + [e];
  }

  /** A stable sort by descending start only; a list already in splice order stays as it is. */
  method SortByStart(es: seq<Edit>) returns (r: seq<Edit>)
    ensures StartsDown(r) && multiset(r) == multiset(es)
    ensures Down(es) ==> r == es
  {
    r := [];
    var i := 0;
    while i < |es|
      invariant 0 <= i <= |es| && StartsDown(r) && multiset(r) == multiset(es[..i])
      invariant Down(es) ==> r == es[..i]
    {
      assert es[..i + 1] == es[..i] + [es[i]];
      r := InsertByStart(r, es[i]);
      i := i + 1;
    }
    assert es[..i] == es;
  }

  lemma StartsInsert(es: seq<Edit>, k: nat, e: Edit)
    requires StartsDown(es) && k <= |es| && (forall i :: 0 <= i < k ==> e.start <= es[i].start)
    requires k < |es| ==> es[k].start < e.start
    ensures StartsDown(es[..k] + [e] + es[k..])
  {
    var r := es[..k] + [e] + es[k..];
    forall i | 0 <= i < |r|
      ensures r[i] == if i < k then es[i] else if i == k then e else es[i - 1]
    {
    }
  }

  // ---------- splicing ----------

  /** Applies a file's edits one after the other, rightmost first. */
  method SpliceFile(source: string, es: seq<Edit>) returns (text: string)
    ensures text == SpliceAll(source, Reverse(es))
  {
    text := source;
    var i := 0;
    assert es[..0] == [];
    while i < |es|
      invariant 0 <= i <= |es|
      invariant text == SpliceAll(source, Reverse(es[..i]))
    {
      var e := es[i];
      assert es[..i + 1][..i] == es[..i] && Reverse(es[..i + 1]) == [e] + Reverse(es[..i]);
      if e.start <= e.end <= |text| {
        text := text[..e.start] + e.replace + text[e.end..];
      }
      i := i + 1;
    }
    assert es[..i] == es;
  }

  /** Two edits of one file never share both their start and their operation. */
  ghost predicate Keyed(es: seq<Edit>) {
    forall i, j :: 0 <= i < j < |es| && es[i].file == es[j].file ==> es[i].start != es[j].start || es[i].op != es[j].op
  }

  lemma {:induction false} ForFileKeyed(es: seq<Edit>, f: nat)
    requires Keyed(es)
    ensures Keyed(ForFile(es, f))
  {
    if es != [] {
      var n := |es| - 1;
      ForFileKeyed(es[..n], f);
      if es[n].file == f {
        var g := ForFile(es[..n], f);
        forall i | 0 <= i < |g|
          ensures g[i].start != es[n].start || g[i].op != es[n].op
        {
          assert g[i] in es[..n];
          var k :| 0 <= k < n && es[k] == g[i];
        }
      }
    }
  }

  /** Keyed edits in descending order are, read backwards, strictly in order. */
  lemma DownInOrder(es: seq<Edit>, f: nat)
    requires Down(es) && Keyed(es) && forall e <- es :: e.file == f
    ensures InOrder(Reverse(es))
  {
    var r := Reverse(es);
    forall i, j | 0 <= i < j < |r|
      ensures Before(r[i], r[j])
    {
      assert r[i] in es && r[j] in es;
      assert NotBefore(es[|es| - 1 - j], es[|es| - 1 - i]);
    }
  }

  lemma {:induction false} ReverseSame(es: seq<Edit>)
    ensures multiset(Reverse(es)) == multiset(es)
  {
    if es != [] {
      ReverseSame(es[..|es| - 1]);
      assert es == es[..|es| - 1] + [es[|es| - 1]];
    }
  }

  /** Clashing does not depend on the order of the list. */
  lemma NoClashOrder(es: seq<Edit>, fs: seq<Edit>)
    requires NoClash(es) && Spans(es) && InOrder(fs) && forall e :: e in fs <==> e in es
    ensures NoClash(fs) && Spans(fs)
  {
    forall i, j | 0 <= i < j < |fs|
      ensures !Clash(fs[i], fs[j])
    {
      assert fs[i] in es && fs[j] in es && Before(fs[i], fs[j]);
      var a :| 0 <= a < |es| && es[a] == fs[i];
      var b :| 0 <= b < |es| && es[b] == fs[j];
      if a < b {
        assert !Clash(es[a], es[b]);
      } else if b < a {
        assert !Clash(es[b], es[a]);
      }
    }
  }

  /** The new text of a file is what substituting its edits at once gives. */
  ghost predicate Substituted(source: string, es: seq<Edit>, text: string) {
    exists fs: seq<Edit> :: multiset(fs) == multiset(es) && InOrder(fs) && text == Substitute(source, fs, 0)
  }

  lemma FileSubstituted(source: string, es: seq<Edit>, sorted: seq<Edit>, text: string, f: nat)
    requires (forall e <- es :: e.file == f) && Keyed(es) && NoClash(es) && Spans(es) && Within(source, es)
    requires NoShadow(es)
    requires Down(sorted) && multiset(sorted) == multiset(es) && text == SpliceAll(source, Reverse(sorted))
    ensures Substituted(source, es, text)
  {
    var fs := Reverse(sorted);
    ReverseSame(sorted);
    SameMembers(es, sorted);
    SameMembers(es, fs);
    KeyedOrder(es, sorted, f);
    DownInOrder(sorted, f);
    NoClashOrder(es, fs);
    forall i, j | 0 <= i < |fs| && 0 <= j < |fs| && Inserts(fs[i]) && !Inserts(fs[j]) && fs[i].start == fs[j].start
      ensures !(fs[j].op < fs[i].op)
    {
      assert fs[i] in es && fs[j] in es;
    }
    SpliceSubstitutes(source, fs);
  }

  lemma SameMembers(es: seq<Edit>, fs: seq<Edit>)
    requires multiset(es) == multiset(fs)
    ensures forall e :: e in fs <==> e in es
  {
    forall e
      ensures e in fs <==> e in es
    {
      assert e in fs <==> e in multiset(fs);
      assert e in es <==> e in multiset(es);
    }
  }

  /** Keys stay distinct under reordering. */
  lemma KeyedOrder(es: seq<Edit>, fs: seq<Edit>, f: nat)
    requires Keyed(es) && multiset(fs) == multiset(es) && forall e <- es :: e.file == f
    ensures Keyed(fs) && forall e <- fs :: e.file == f
  {
    SameMembers(es, fs);
    forall i, j | 0 <= i < j < |fs|
      ensures fs[i].start != fs[j].start || fs[i].op != fs[j].op
    {
      if fs[i].start == fs[j].start && fs[i].op == fs[j].op {
        assert fs[j] in es && fs[i] in es;
        SameKey(es, fs[i], fs[j]);
        TwiceIn(fs, i, j);
        OnceIn(es, fs[i]);
      }
    }
  }

  lemma SameKey(es: seq<Edit>, a: Edit, b: Edit)
    requires Keyed(es) && a in es && b in es && a.file == b.file && a.start == b.start && a.op == b.op
    ensures a == b
  {
    var i :| 0 <= i < |es| && es[i] == a;
    var j :| 0 <= j < |es| && es[j] == b;
  }

  lemma TwiceIn(fs: seq<Edit>, i: nat, j: nat)
    requires i < j < |fs| && fs[i] == fs[j]
    ensures multiset(fs)[fs[i]] >= 2
  {
    assert fs == fs[..j] + [fs[j]] + fs[j + 1..];
    assert fs[..j][i] == fs[i];
    assert fs[i] in multiset(fs[..j]);
  }

  lemma LastIsNew(es: seq<Edit>)
    requires Keyed(es) && es != []
    ensures es[|es| - 1] !in es[..|es| - 1]
  {
  }

  lemma {:induction false} OnceIn(es: seq<Edit>, e: Edit)
    requires Keyed(es)
    ensures multiset(es)[e] <= 1
  {
    if es != [] {
      var n := |es| - 1;
      OnceIn(es[..n], e);
      assert es == es[..n] + [es[n]];
      LastIsNew(es);
      assert e !in es[..n] ==> multiset(es[..n])[e] == 0;
    }
  }

  // ---------- the whole plan ----------

  lemma {:induction false} ForFileCount(es: seq<Edit>, f: nat, e: Edit)
    ensures multiset(ForFile(es, f))[e] == if e.file == f then multiset(es)[e] else 0
  {
    if es != [] {
      var n := |es| - 1;
      ForFileCount(es[..n], f, e);
      assert es == es[..n] + [es[n]];
    }
  }

  lemma ForFileSame(es: seq<Edit>, fs: seq<Edit>, f: nat)
    requires multiset(es) == multiset(fs)
    ensures multiset(ForFile(es, f)) == multiset(ForFile(fs, f))
  {
    forall e
      ensures multiset(ForFile(es, f))[e] == multiset(ForFile(fs, f))[e]
    {
      ForFileCount(es, f, e);
      ForFileCount(fs, f, e);
    }
  }

  lemma {:induction false} ForFileDown(es: seq<Edit>, f: nat)
    requires Down(es)
    ensures Down(ForFile(es, f))
  {
    if es != [] {
      var n := |es| - 1;
      ForFileDown(es[..n], f);
      var g := ForFile(es[..n], f);
      forall i | 0 <= i < |g|
        ensures NotBefore(g[i], es[n])
      {
        assert g[i] in es[..n];
        var k :| 0 <= k < n && es[k] == g[i];
      }
    }
  }

  /** The edits of a file fit its text, and no insertion is shadowed. */
  ghost predicate Sound(source: string, es: seq<Edit>) {
    Spans(es) && Within(source, es) && NoShadow(es)
  }

  /** Plans a patch: rejects clashing edits, otherwise gives the new text of every touched file.
      Each text is the original with all its edits substituted at once. */
  method PlanPatch(sources: seq<string>, edits: seq<Edit>) returns (r: Option<map<nat, string>>)
    requires Keyed(edits) && forall e <- edits :: e.file < |sources|
    ensures r.None? <==> exists f: nat :: !NoClash(ForFile(edits, f))
    ensures r.Some? ==> forall f: nat :: f in r.value <==> ForFile(edits, f) != []
    ensures r.Some? ==> forall f: nat :: f in r.value && f < |sources| && Sound(sources[f], ForFile(edits, f)) ==>
      Substituted(sources[f], ForFile(edits, f), r.value[f])
  {
    hide NoClash, Keyed, Down, ForFile, Sound, Substituted, Grouped;
    var ok := CheckOverlap(edits);
    if !ok {
      return None;
    }
    var order := SortDown(edits);
    var groups := GroupByFile(order);
    AllTouched(groups, order, edits);
    var news: map<nat, string> := map[];
    var todo := groups.Keys;
    while todo != {}
      invariant todo <= groups.Keys && news.Keys == groups.Keys - todo
      invariant forall f <- news ::
        f < |sources| && (Sound(sources[f], ForFile(edits, f)) ==> Substituted(sources[f], ForFile(edits, f), news[f]))
      decreases |todo|
    {
      var f :| f in todo;
      GroupTouched(groups, order, edits, f);
      var text := PlanFile(sources[f], groups[f], edits, order, f);
      news := news[f := text];
      todo := todo - {f};
    }
    r := Some(news);
  }

  lemma AllTouched(groups: map<nat, seq<Edit>>, order: seq<Edit>, edits: seq<Edit>)
    requires Grouped(groups, order) && multiset(order) == multiset(edits)
    ensures forall f: nat :: f in groups <==> ForFile(edits, f) != []
  {
    hide Grouped, ForFile;
    forall f: nat
      ensures f in groups <==> ForFile(edits, f) != []
    {
      GroupTouched(groups, order, edits, f);
    }
  }

  /** The new text of one file. */
  method PlanFile(source: string, es: seq<Edit>, ghost edits: seq<Edit>, ghost order: seq<Edit>, f: nat)
    returns (text: string)
    requires Keyed(edits) && NoClash(ForFile(edits, f))
    requires Down(order) && multiset(order) == multiset(edits) && es == ForFile(order, f)
    ensures Sound(source, ForFile(edits, f)) ==> Substituted(source, ForFile(edits, f), text)
  {
    hide NoClash, Keyed, Down, Sound, Substituted;
    ForFileDown(order, f);
    var sorted := SortByStart(es);
    text := SpliceFile(source, sorted);
    ForFileSame(order, edits, f);
    ForFileKeyed(edits, f);
    if Sound(source, ForFile(edits, f)) {
      SoundFile(source, ForFile(edits, f), sorted, text, f);
    }
  }

  lemma GroupTouched(groups: map<nat, seq<Edit>>, order: seq<Edit>, edits: seq<Edit>, f: nat)
    requires Grouped(groups, order) && multiset(order) == multiset(edits)
    ensures f in groups <==> ForFile(edits, f) != []
    ensures f in groups ==> groups[f] == ForFile(order, f) && exists e <- edits :: e.file == f
  {
    ForFileSame(order, edits, f);
    SameMembers(ForFile(edits, f), ForFile(order, f));
    var g, h := ForFile(order, f), ForFile(edits, f);
    assert (if f in groups then groups[f] else []) == g;
    if g != [] {
      assert g[0] in h;
      assert g[0] in edits;
    }
    if h != [] {
      assert h[0] in g;
    }
  }

  lemma SoundFile(source: string, es: seq<Edit>, sorted: seq<Edit>, text: string, f: nat)
    requires Sound(source, es) && (forall e <- es :: e.file == f) && Keyed(es) && NoClash(es)
    requires Down(sorted) && multiset(sorted) == multiset(es) && text == SpliceAll(source, Reverse(sorted))
    ensures Substituted(source, es, text)
  {
    FileSubstituted(source, es, sorted, text, f);
  }
}
