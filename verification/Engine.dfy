/** The incremental engine: a memo table with revisions, dependencies recorded while an
    evaluator runs, early cutoff, and verification of old entries. A ghost history of the
    sources says what every entry was computed from. */
module Engine {
  import opened Query
  import opened FromScratch
  import opened FromScratchFacts

  datatype Entry = Entry(value: Value, deps: seq<QueryKey>, diags: seq<Diag>, computedAt: nat, verifiedAt: nat)

  type Memo = map<QueryKey, Entry>

  /** The sources at every revision; the last one is current. */
  type History = seq<Sources>

  function Now(hist: History): nat
    requires hist != []
  {
    |hist| - 1
  }

  function MadeOf(e: Entry): Made {
    Made(e.value, e.deps, e.diags)
  }

  predicate Fresh(memo: Memo, key: QueryKey, rev: nat) {
    key in memo && memo[key].verifiedAt == rev
  }

  // ---------- the invariant ----------

  ghost predicate TextSteady(S: Stages, hist: History, f: File, from: nat, to: nat)
    requires to < |hist|
  {
    forall r {:trigger hist[r]} :: from <= r <= to ==> TextAt(S, hist[r], f) == TextAt(S, hist[to], f)
  }

  /** A source entry holds the current text, which has not changed since its stamp. */
  ghost predicate SourceOk(S: Stages, hist: History, e: Entry, f: File)
    requires hist != []
  {
    && MadeOf(e) == Made(TextV(TextAt(S, hist[Now(hist)], f)), [], [])
    && e.computedAt <= Now(hist) && e.verifiedAt <= Now(hist)
    && TextSteady(S, hist, f, e.computedAt, Now(hist))
  }

  /** A demanded entry was verified no earlier, and if it has not changed since then, it still
      holds the value that was seen then. */
  ghost predicate DepOk(S: Stages, hist: History, memo: Memo, d: QueryKey, seen: nat)
    requires Registered(S) && seen < |hist|
  {
    && d in memo && seen <= memo[d].verifiedAt
    && (memo[d].computedAt <= seen ==> memo[d].value == Make(S, hist[seen], d).value)
  }

  /** A computed entry is the from-scratch result on the sources of its last verification. */
  ghost predicate DerivedOk(S: Stages, hist: History, memo: Memo, key: QueryKey)
    requires Registered(S) && hist != [] && key in memo
  {
    var e := memo[key];
    && e.computedAt <= e.verifiedAt <= Now(hist)
    && MadeOf(e) == Make(S, hist[e.verifiedAt], key)
    && (forall d <- e.deps :: DepOk(S, hist, memo, d, e.verifiedAt))
    && (key.ParseKey? ==> TextSteady(S, hist, key.f, e.computedAt, e.verifiedAt))
  }

  ghost predicate EntryOk(S: Stages, hist: History, memo: Memo, key: QueryKey)
    requires Registered(S) && hist != [] && key in memo
  {
    if key.SourceKey? then SourceOk(S, hist, memo[key], key.f) else DerivedOk(S, hist, memo, key)
  }

  ghost predicate Good(S: Stages, hist: History, memo: Memo) {
    && Sensible(S) && hist != []
    && (forall r {:trigger hist[r]} :: 0 <= r < |hist| ==> |hist[r]| == S.count)
    && (forall f: File :: f < S.count ==> SourceKey(f) in memo)
    && forall k <- memo :: EntryOk(S, hist, memo, k)
  }

  /** What bringing keys of rank below `bound` up to date may do to the table. */
  ghost predicate Extends(m0: Memo, m1: Memo, rev: nat, bound: nat) {
    && (forall k <- m0 ::
      k in m1 && m0[k].verifiedAt <= m1[k].verifiedAt && (m0[k].verifiedAt == rev ==> m1[k] == m0[k]))
    && (forall k {:trigger k in m1} :: bound <= Rank(k) ==> (k in m0 <==> k in m1) && (k in m0 ==> m1[k] == m0[k]))
  }

  lemma ExtendsTrans(m0: Memo, m1: Memo, m2: Memo, rev: nat, b1: nat, b2: nat, bound: nat)
    requires Extends(m0, m1, rev, b1) && Extends(m1, m2, rev, b2) && b1 <= bound && b2 <= bound
    ensures Extends(m0, m2, rev, bound)
  {
    forall k | bound <= Rank(k)
      ensures (k in m0 <==> k in m2) && (k in m0 ==> m2[k] == m0[k])
    {
      assert k in m0 <==> k in m1;
    }
  }

  lemma SameMeansEqual(a: Value, b: Value)
    ensures SameValue(a, b) ==> a == b && !b.TreeV?
  {
  }

  /** A fresh entry is the from-scratch result on the current sources. */
  lemma FreshIsMake(S: Stages, hist: History, memo: Memo, key: QueryKey)
    requires Good(S, hist, memo) && key in memo && (key.SourceKey? || memo[key].verifiedAt == Now(hist))
    ensures MadeOf(memo[key]) == Make(S, hist[Now(hist)], key)
  {
    hide Make;
    assert EntryOk(S, hist, memo, key);
    if key.SourceKey? {
      SourceMake(S, hist[Now(hist)], key.f);
    }
  }

  lemma SourceMake(S: Stages, src: Sources, f: File)
    requires Registered(S)
    ensures Make(S, src, SourceKey(f)) == Made(TextV(TextAt(S, src, f)), [], [])
  {
  }

  // ---------- installing a result ----------

  function Installed(memo: Memo, key: QueryKey, m: Made, rev: nat): Entry {
    var computed := if key in memo && SameValue(memo[key].value, m.value) then memo[key].computedAt else rev;
    Entry(m.value, m.deps, m.diags, computed, rev)
  }

  /** Replacing a stale entry by the current result keeps the invariant, also for the entries
      that depend on it: an equal value keeps its stamp, a new value gets a newer one. */
  lemma InstallKeeps(S: Stages, hist: History, memo: Memo, key: QueryKey, m: Made)
    requires Good(S, hist, memo) && (key in memo ==> memo[key].verifiedAt < Now(hist))
    requires m == Make(S, hist[Now(hist)], key) && forall d <- m.deps :: Fresh(memo, d, Now(hist))
    requires key.SourceKey? ==> key !in memo
    ensures Good(S, hist, memo[key := Installed(memo, key, m, Now(hist))])
  {
    hide Make;
    var rev := Now(hist);
    var e := Installed(memo, key, m, rev);
    var memo1 := memo[key := e];
    MakeKind(S, hist[rev], key);
    if key in memo {
      assert EntryOk(S, hist, memo, key);
      SameMeansEqual(memo[key].value, m.value);
    }
    forall k <- memo1
      ensures EntryOk(S, hist, memo1, k)
    {
      if k == key {
        InstalledOk(S, hist, memo, key, m);
      } else {
        assert EntryOk(S, hist, memo, k);
        assert !k.SourceKey? && key in memo[k].deps ==> DepOk(S, hist, memo, key, memo[k].verifiedAt);
        OthersKeep(S, hist, memo, key, e, k);
      }
    }
  }

  lemma InstalledOk(S: Stages, hist: History, memo: Memo, key: QueryKey, m: Made)
    requires Good(S, hist, memo) && (key in memo ==> memo[key].verifiedAt < Now(hist))
    requires m == Make(S, hist[Now(hist)], key) && forall d <- m.deps :: Fresh(memo, d, Now(hist))
    requires key.SourceKey? ==> key !in memo
    ensures EntryOk(S, hist, memo[key := Installed(memo, key, m, Now(hist))], key)
  {
    hide Make;
    var rev := Now(hist);
    var e := Installed(memo, key, m, rev);
    var memo1 := memo[key := e];
    MakeKind(S, hist[rev], key);
    if key in memo {
      assert EntryOk(S, hist, memo, key);
      SameMeansEqual(memo[key].value, m.value);
    }
    if key.SourceKey? {
      SourceMake(S, hist[rev], key.f);
    } else {
      forall d <- e.deps
        ensures DepOk(S, hist, memo1, d, rev)
      {
        assert Rank(d) < Rank(key);
        FreshIsMake(S, hist, memo, d);
      }
    }
  }

  /** An entry whose value is equal or newer does not disturb the entries depending on it. */
  lemma OthersKeep(S: Stages, hist: History, memo: Memo, key: QueryKey, e: Entry, k: QueryKey)
    requires Registered(S) && hist != [] && k in memo && k != key && EntryOk(S, hist, memo, k)
    requires key in memo ==> memo[key].verifiedAt <= e.verifiedAt
    requires !k.SourceKey? && key in memo[k].deps && key in memo ==>
      (e.value == memo[key].value && e.computedAt == memo[key].computedAt) || e.computedAt > memo[k].verifiedAt
    ensures EntryOk(S, hist, memo[key := e], k)
  {
    hide Make, TextSteady, MadeOf;
    var memo1 := memo[key := e];
    if !k.SourceKey? {
      forall d <- memo[k].deps
        ensures DepOk(S, hist, memo1, d, memo[k].verifiedAt)
      {
        assert DepOk(S, hist, memo, d, memo[k].verifiedAt);
      }
    }
  }

  /** An entry none of whose demands changed since its last verification is still the
      from-scratch result. */
  lemma ConfirmKeeps(S: Stages, hist: History, memo: Memo, key: QueryKey)
    requires Good(S, hist, memo) && key in memo
    requires forall d <- memo[key].deps :: Fresh(memo, d, Now(hist)) && memo[d].computedAt <= memo[key].verifiedAt
    ensures Good(S, hist, memo[key := memo[key].(verifiedAt := Now(hist))])
  {
    hide Make;
    var rev := Now(hist);
    var e := memo[key].(verifiedAt := rev);
    var memo1 := memo[key := e];
    assert EntryOk(S, hist, memo, key);
    forall k <- memo1
      ensures EntryOk(S, hist, memo1, k)
    {
      if k == key {
        if !key.SourceKey? {
          ConfirmedOk(S, hist, memo, key);
        }
      } else {
        assert EntryOk(S, hist, memo, k);
        OthersKeep(S, hist, memo, key, e, k);
      }
    }
  }

  lemma ConfirmedOk(S: Stages, hist: History, memo: Memo, key: QueryKey)
    requires Good(S, hist, memo) && key in memo && !key.SourceKey?
    requires forall d <- memo[key].deps :: Fresh(memo, d, Now(hist)) && memo[d].computedAt <= memo[key].verifiedAt
    ensures DerivedOk(S, hist, memo[key := memo[key].(verifiedAt := Now(hist))], key)
  {
    hide Make;
    var rev := Now(hist);
    var was := memo[key];
    var memo1 := memo[key := was.(verifiedAt := rev)];
    assert EntryOk(S, hist, memo, key);
    var v := was.verifiedAt;
    forall d <- was.deps
      ensures Make(S, hist[v], d).value == Make(S, hist[rev], d).value == memo[d].value
      ensures d.ParseKey? || d.SourceKey? ==> TextSteady(S, hist, d.f, v, rev)
    {
      assert DepOk(S, hist, memo, d, v);
      FreshIsMake(S, hist, memo, d);
      assert EntryOk(S, hist, memo, d);
    }
    forall g | ParseKey(g) in was.deps
      ensures TextAt(S, hist[v], g) == TextAt(S, hist[rev], g)
    {
      assert TextSteady(S, hist, ParseKey(g).f, v, rev);
    }
    assert was.deps == Make(S, hist[v], key).deps;
    MakeStable(S, hist[v], hist[rev], key);
    forall d <- was.deps
      ensures DepOk(S, hist, memo1, d, rev)
    {
      assert Rank(d) < Rank(key);
    }
    if key.ParseKey? {
      MakePlan(S, hist[v], key);
      assert SourceKey(key.f) in was.deps;
      assert TextSteady(S, hist, SourceKey(key.f).f, v, rev);
      forall r {:trigger hist[r]} | was.computedAt <= r <= rev
        ensures TextAt(S, hist[r], key.f) == TextAt(S, hist[rev], key.f)
      {
        assert r <= v ==> TextAt(S, hist[r], key.f) == TextAt(S, hist[v], key.f);
      }
    }
  }

  // ---------- edits ----------

  /** A new revision with unchanged sources. */
  lemma BumpKeeps(S: Stages, hist: History, memo: Memo)
    requires Good(S, hist, memo)
    ensures Good(S, hist + [hist[Now(hist)]], memo)
  {
    hide Make;
    var next := hist + [hist[Now(hist)]];
    forall k <- memo
      ensures EntryOk(S, next, memo, k)
    {
      assert EntryOk(S, hist, memo, k);
      if !k.SourceKey? {
        forall d <- memo[k].deps
          ensures DepOk(S, next, memo, d, memo[k].verifiedAt)
        {
          assert DepOk(S, hist, memo, d, memo[k].verifiedAt);
        }
      }
    }
  }

  function Written(memo: Memo, f: File, text: Text, rev: nat): Entry
  {
    var key := SourceKey(f);
    var computed := if key in memo && SameValue(memo[key].value, TextV(text)) then memo[key].computedAt else rev;
    Entry(TextV(text), [], [], computed, rev)
  }

  /** No computed entry has been verified in the current revision yet. */
  ghost predicate Quiet(hist: History, memo: Memo)
    requires hist != []
  {
    forall k <- memo :: !k.SourceKey? ==> memo[k].verifiedAt < Now(hist)
  }

  lemma WriteKeeps(S: Stages, hist: History, memo: Memo, f: File, text: Text)
    requires Good(S, hist, memo) && Quiet(hist, memo) && f < S.count
    ensures var rev := Now(hist);
      var memo1 := memo[SourceKey(f) := Written(memo, f, text, rev)];
      var next := hist[rev := hist[rev][f := text]];
      Good(S, next, memo1) && Quiet(next, memo1)
  {
    hide Make;
    var rev := Now(hist);
    var e := Written(memo, f, text, rev);
    var memo1 := memo[SourceKey(f) := e];
    var next := hist[rev := hist[rev][f := text]];
    assert EntryOk(S, hist, memo, SourceKey(f));
    SameMeansEqual(memo[SourceKey(f)].value, TextV(text));
    forall k <- memo1
      ensures EntryOk(S, next, memo1, k)
    {
      if k.SourceKey? {
        assert k != SourceKey(f) ==> EntryOk(S, hist, memo, k);
        WrittenOk(S, hist, memo, f, text, k.f);
      } else {
        assert EntryOk(S, hist, memo, k);
        DerivedKeeps(S, hist, next, memo, k);
        OthersKeep(S, next, memo, SourceKey(f), e, k);
      }
    }
  }

  lemma WrittenOk(S: Stages, hist: History, memo: Memo, f: File, text: Text, g: File)
    requires Good(S, hist, memo) && f < S.count && (g == f || SourceKey(g) in memo)
    ensures var rev := Now(hist);
      var memo1 := memo[SourceKey(f) := Written(memo, f, text, rev)];
      SourceOk(S, hist[rev := hist[rev][f := text]], memo1[SourceKey(g)], g)
  {
    assert EntryOk(S, hist, memo, SourceKey(g));
    SameMeansEqual(memo[SourceKey(g)].value, TextV(text));
  }

  lemma DerivedKeeps(S: Stages, hist: History, next: History, memo: Memo, k: QueryKey)
    requires Registered(S) && hist != [] && |next| == |hist| && k in memo && !k.SourceKey?
    requires memo[k].verifiedAt < Now(hist) && forall r :: 0 <= r < Now(hist) ==> next[r] == hist[r]
    requires DerivedOk(S, hist, memo, k)
    ensures DerivedOk(S, next, memo, k)
  {
    hide Make;
    forall d <- memo[k].deps
      ensures DepOk(S, next, memo, d, memo[k].verifiedAt)
    {
      assert DepOk(S, hist, memo, d, memo[k].verifiedAt);
    }
  }

  // ---------- nothing changed ----------

  /** No value has changed in the current revision. */
  ghost predicate Calm(memo: Memo, rev: nat) {
    forall k <- memo :: memo[k].computedAt < rev
  }

  /** The entry was verified in this revision or the one before. */
  ghost predicate Recent(memo: Memo, key: QueryKey, rev: nat) {
    key in memo && rev <= memo[key].verifiedAt + 1
  }

  lemma RecentDeps(S: Stages, hist: History, memo: Memo, key: QueryKey)
    requires Good(S, hist, memo) && Recent(memo, key, Now(hist))
    ensures forall d <- memo[key].deps :: Recent(memo, d, Now(hist))
  {
    hide Make;
    assert EntryOk(S, hist, memo, key);
    forall d <- memo[key].deps
      ensures Recent(memo, d, Now(hist))
    {
      assert DepOk(S, hist, memo, d, memo[key].verifiedAt);
    }
  }

  lemma CalmAt(memo: Memo, rev: nat, key: QueryKey)
    requires Calm(memo, rev) && key in memo
    ensures memo[key].computedAt < rev
  {
  }

  lemma CalmKeeps(memo: Memo, key: QueryKey, e: Entry, rev: nat)
    requires Calm(memo, rev) && key in memo && e.computedAt == memo[key].computedAt
    ensures Calm(memo[key := e], rev)
  {
  }

  lemma StillRecent(m0: Memo, m1: Memo, rev: nat, bound: nat, keys: seq<QueryKey>)
    requires Extends(m0, m1, rev, bound) && forall d <- keys :: Recent(m0, d, rev)
    ensures forall d <- keys :: Recent(m1, d, rev)
  {
  }

  /** Writing back the text a file already has leaves every stamp alone. */
  lemma CalmAfterWrite(S: Stages, hist: History, memo: Memo, f: File)
    requires Good(S, hist, memo) && f < S.count
    ensures var rev := Now(hist) + 1;
      Calm(memo[SourceKey(f) := Written(memo, f, hist[Now(hist)][f], rev)], rev)
  {
    hide Make;
    forall k <- memo
      ensures memo[k].computedAt <= Now(hist)
    {
      assert EntryOk(S, hist, memo, k);
    }
    assert EntryOk(S, hist, memo, SourceKey(f));
  }

  // ---------- bookkeeping ----------

  /** The sources after a list of edits. */
  function Edited(files: Sources, edits: seq<(File, Text)>): (r: Sources)
    ensures |r| == |files|
  {
    if edits == [] then files
    else
      var (f, text) := edits[|edits| - 1];
      var before := Edited(files, edits[..|edits| - 1]);
      if f < |files| then before[f := text] else before
  }

  lemma QuietAfterBump(S: Stages, hist: History, next: History, memo: Memo)
    requires Good(S, hist, memo) && |hist| < |next|
    ensures Quiet(next, memo)
  {
    hide Make;
    forall k <- memo | !k.SourceKey?
      ensures memo[k].verifiedAt < Now(next)
    {
      assert EntryOk(S, hist, memo, k);
    }
  }

  lemma DepsLower(S: Stages, hist: History, memo: Memo, key: QueryKey)
    requires Good(S, hist, memo) && key in memo
    ensures Lower(memo[key].deps, Rank(key)) && (key.SourceKey? ==> memo[key].deps == [])
  {
    hide Make;
    assert EntryOk(S, hist, memo, key);
    if memo[key].deps != [] {
      assert memo[key].deps[0] in memo[key].deps;
    }
  }

  lemma FreshDeps(S: Stages, hist: History, memo: Memo, key: QueryKey)
    requires Good(S, hist, memo) && Fresh(memo, key, Now(hist))
    ensures forall d <- memo[key].deps :: Fresh(memo, d, Now(hist))
  {
    hide Make;
    assert EntryOk(S, hist, memo, key);
    forall d <- memo[key].deps
      ensures Fresh(memo, d, Now(hist))
    {
      assert DepOk(S, hist, memo, d, Now(hist));
      assert EntryOk(S, hist, memo, d);
    }
  }

  lemma GoodRegistered(S: Stages, hist: History, memo: Memo)
    requires Good(S, hist, memo)
    ensures Registered(S)
  {
  }

  lemma ExtendsRefl(m: Memo, rev: nat, bound: nat)
    ensures Extends(m, m, rev, bound)
  {
  }

  lemma Untouched(m0: Memo, m1: Memo, rev: nat, bound: nat, key: QueryKey)
    requires Extends(m0, m1, rev, bound) && bound <= Rank(key) && key in m0
    ensures key in m1 && m1[key] == m0[key]
  {
    assert key in m0 <==> key in m1;
  }

  lemma VerifiedByNow(S: Stages, hist: History, memo: Memo, key: QueryKey)
    requires Good(S, hist, memo) && key in memo
    ensures memo[key].verifiedAt <= Now(hist)
  {
    hide Make;
    assert EntryOk(S, hist, memo, key);
  }

  /** One answered demand does not change where the evaluator ends. */
  lemma ReplayStep(S: Stages, src: Sources, key: QueryKey, answers: seq<Value>, deps: seq<QueryKey>)
    requires Registered(S) && Lower(deps, Rank(key)) && Next(S, key, answers).Demand?
    ensures var k := Next(S, key, answers).key;
      var v := Make(S, src, k).value;
      Rank(k) < Rank(key) && Lower(deps + [k], Rank(key)) &&
      Replay(S, src, key, answers + [v], deps + [k]) == Replay(S, src, key, answers, deps)
  {
    NextProgress(S, key, answers, TextV(S.noText));
  }

  lemma ReplayEnd(S: Stages, src: Sources, key: QueryKey, answers: seq<Value>, deps: seq<QueryKey>)
    requires Registered(S) && Lower(deps, Rank(key)) && !Next(S, key, answers).Demand?
    ensures Replay(S, src, key, answers, deps) ==
      match Next(S, key, answers)
      case Done(v, d) => Made(v, deps, d)
      case _ => Made(Report(S, answers, Gather(S, src, Rank(key), deps)), deps, [])
  {
  }

  lemma ReplayStart(S: Stages, src: Sources, key: QueryKey)
    requires Registered(S) && !key.SourceKey?
    ensures Replay(S, src, key, [], []) == Make(S, src, key)
  {
  }

  lemma StillClean(m0: Memo, m1: Memo, rev: nat, bound: nat, keys: seq<QueryKey>, seen: nat)
    requires Extends(m0, m1, rev, bound) && forall d <- keys :: Fresh(m0, d, rev) && m0[d].computedAt <= seen
    ensures forall d <- keys :: Fresh(m1, d, rev) && m1[d].computedAt <= seen
  {
  }

  lemma StillFresh(m0: Memo, m1: Memo, rev: nat, bound: nat, keys: seq<QueryKey>)
    requires Extends(m0, m1, rev, bound) && forall d <- keys :: Fresh(m0, d, rev)
    ensures forall d <- keys :: Fresh(m1, d, rev)
  {
  }

  lemma OneEntry(m0: Memo, key: QueryKey, e: Entry, rev: nat)
    requires !Fresh(m0, key, rev) && (key in m0 ==> m0[key].verifiedAt <= e.verifiedAt)
    ensures Extends(m0, m0[key := e], rev, Rank(key) + 1)
  {
  }

  lemma VisitOld(S: Stages, src: Sources, bound: nat, keys: seq<QueryKey>, w: Walked)
    requires Registered(S) && Lower(keys, bound)
    ensures forall k <- w.order :: k in Visit(S, src, bound, keys, w).order
  {
  }

  // ---------- the engine ----------

  class Db {
    const S: Stages
    var files: Sources
    var revision: nat
    var memo: Memo
    var frames: seq<seq<QueryKey>>
    var lastRun: seq<QueryKey>
    ghost var hist: History

    /** Registers the files one after the other; every registration is a revision. */
    constructor (S: Stages, texts: Sources)
      requires Sensible(S) && S.count == |texts|
      ensures Valid() && this.S == S && files == texts && frames == []
    {
      this.S := S;
      files, revision, memo, frames, lastRun := [], 0, map[], [], [];
      hist := seq(|texts| + 1, i => texts);
      new;
      var i := 0;
      while i < |texts|
        invariant 0 <= i <= |texts| && revision == i && files == texts[..i] && frames == []
        invariant this.S == S && hist == seq(|texts| + 1, i => texts)
        invariant forall k <- memo :: k.SourceKey? && k.f < i
        invariant forall f: File ::
          f < i ==> SourceKey(f) in memo && memo[SourceKey(f)] == Entry(TextV(texts[f]), [], [], f + 1, f + 1)
      {
        AddSource(texts[i]);
        i := i + 1;
      }
    }

    method AddSource(text: Text)
      requires SourceKey(|files|) !in memo
      modifies this`files, this`revision, this`memo
      ensures files == old(files) + [text] && revision == old(revision) + 1
      ensures memo == old(memo)[SourceKey(old(|files|)) := Entry(TextV(text), [], [], revision, revision)]
    {
      revision := revision + 1;
      memo := memo[SourceKey(|files|) := Entry(TextV(text), [], [], revision, revision)];
      files := files + [text];
    }

    ghost predicate Valid()
      reads this
    {
      Good(S, hist, memo) && revision == Now(hist) && files == hist[revision]
    }

    // ---------- edits ----------

    /** One edit, one revision. */
    method SetSource(file: File, text: Text)
      requires Valid() && file < |files|
      modifies this
      ensures Valid() && files == old(files)[file := text]
      ensures revision == old(revision) + 1 && frames == old(frames)
      ensures forall k <- old(memo) :: !k.SourceKey? ==> k in memo && memo[k] == old(memo)[k]
      ensures text == old(files[file]) ==> Calm(memo, revision)
    {
      CalmAfterWrite(S, hist, memo, file);
      BumpKeeps(S, hist, memo);
      revision := revision + 1;
      hist := hist + [files];
      assert Quiet(hist, memo) by {
        QuietAfterBump(S, hist[..|hist| - 1], hist, memo);
      }
      WriteSource(file, text);
    }

    /** Several edits in a single revision, the later ones winning. */
    method SetSources(edits: seq<(File, Text)>)
      requires Valid() && forall e <- edits :: e.0 < |files|
      modifies this
      ensures Valid() && files == Edited(old(files), edits)
      ensures revision == old(revision) + 1 && frames == old(frames)
    {
      BumpKeeps(S, hist, memo);
      revision := revision + 1;
      hist := hist + [files];
      assert Quiet(hist, memo) by {
        QuietAfterBump(S, hist[..|hist| - 1], hist, memo);
      }
      var i := 0;
      assert edits[..0] == [];
      while i < |edits|
        invariant 0 <= i <= |edits| && Valid() && Quiet(hist, memo)
        invariant files == Edited(old(files), edits[..i]) && |files| == |old(files)|
        invariant revision == old(revision) + 1 && frames == old(frames)
      {
        WriteSource(edits[i].0, edits[i].1);
        assert edits[..i + 1][..i] == edits[..i];
        i := i + 1;
      }
      assert edits[..i] == edits;
    }

    /** Writes one file's entry; an unchanged text keeps its stamp. */
    method WriteSource(file: File, text: Text)
      requires Valid() && Quiet(hist, memo) && file < |files|
      modifies this`files, this`memo, this`hist
      ensures Valid() && Quiet(hist, memo) && files == old(files)[file := text]
      ensures memo == old(memo)[SourceKey(file) := Written(old(memo), file, text, revision)]
    {
      WriteKeeps(S, hist, memo, file, text);
      files := files[file := text];
      memo := memo[SourceKey(file) := Written(memo, file, text, revision)];
      hist := hist[revision := files];
    }

    // ---------- demands ----------

    /** A demand from outside: whatever was edited and demanded before, the answer is the
        from-scratch value on the current sources. */
    method TopDemand(key: QueryKey) returns (v: Value)
      requires Valid() && frames == []
      modifies this
      ensures Valid() && files == old(files) && revision == old(revision) && hist == old(hist) && frames == []
      ensures v == Make(S, files, key).value && Fresh(memo, key, revision)
      ensures old(Calm(memo, revision) && Recent(memo, key, revision)) ==> lastRun == []
    {
      lastRun := [];
      EnsureFresh(key);
      FreshIsMake(S, hist, memo, key);
      v := memo[key].value;
    }

    /** Records the dependency, brings the key up to date and answers. */
    method Demand(key: QueryKey) returns (v: Value)
      requires Valid() && frames != []
      modifies this`memo, this`frames, this`lastRun
      ensures Valid() && Fresh(memo, key, revision) && Extends(old(memo), memo, revision, Rank(key) + 1)
      ensures |frames| == old(|frames|) && frames[..|frames| - 1] == old(frames[..|frames| - 1])
      ensures frames[|frames| - 1] == old(frames[|frames| - 1]) + [key]
      ensures v == Make(S, files, key).value
      decreases Rank(key), 4, 0, 0
    {
      var top := |frames| - 1;
      frames := frames[..top] + [frames[top] + [key]];
      EnsureFresh(key);
      FreshIsMake(S, hist, memo, key);
      v := memo[key].value;
    }

    /** Verifies the dependencies in order and re-evaluates at the first one that changed after
        the entry was last verified. */
    method EnsureFresh(key: QueryKey)
      requires Valid()
      modifies this`memo, this`frames, this`lastRun
      ensures Valid() && Fresh(memo, key, revision) && Extends(old(memo), memo, revision, Rank(key) + 1)
      ensures frames == old(frames)
      ensures old(Calm(memo, revision) && Recent(memo, key, revision)) ==>
        lastRun == old(lastRun) && Calm(memo, revision)
      decreases Rank(key), 3, 0, 0
    {
      ghost var calm := Calm(memo, revision) && Recent(memo, key, revision);
      hide Good, Make, Extends, Calm, Rank;
      ExtendsRefl(memo, revision, Rank(key));
      if key !in memo {
        RunEval(key);
        return;
      }
      if memo[key].verifiedAt == revision {
        ExtendsRefl(memo, revision, Rank(key) + 1);
        return;
      }
      var verifiedAt := memo[key].verifiedAt;
      var deps := memo[key].deps;
      DepsLower(S, hist, memo, key);
      VerifiedByNow(S, hist, memo, key);
      if calm {
        RecentDeps(S, hist, memo, key);
      }
      var dirty := false;
      var i := 0;
      while i < |deps| && !dirty
        invariant 0 <= i <= |deps| && (dirty ==> 0 < |deps|) && Valid() && frames == old(frames)
        invariant Extends(old(memo), memo, revision, Rank(key))
        invariant calm ==>
          !dirty && lastRun == old(lastRun) && Calm(memo, revision) && forall d <- deps :: Recent(memo, d, revision)
        invariant !dirty ==> forall d <- deps[..i] :: Fresh(memo, d, revision) && memo[d].computedAt <= verifiedAt
      {
        label Before:
        EnsureFresh(deps[i]);
        StillClean(old@Before(memo), memo, revision, Rank(deps[i]) + 1, deps[..i], verifiedAt);
        ExtendsTrans(old(memo), old@Before(memo), memo, revision, Rank(key), Rank(deps[i]) + 1, Rank(key));
        assert deps[..i + 1] == deps[..i] + [deps[i]];
        if calm {
          StillRecent(old@Before(memo), memo, revision, Rank(deps[i]) + 1, deps);
          CalmAt(memo, revision, deps[i]);
        }
        if memo[deps[i]].computedAt > verifiedAt {
          dirty := true;
        }
        i := i + 1;
      }
      Untouched(old(memo), memo, revision, Rank(key), key);
      label After:
      if dirty {
        RunEval(key);
        ExtendsTrans(old(memo), old@After(memo), memo, revision, Rank(key), Rank(key) + 1, Rank(key) + 1);
      } else {
        assert deps[..i] == deps;
        ConfirmKeeps(S, hist, memo, key);
        memo := memo[key := memo[key].(verifiedAt := revision)];
        OneEntry(old@After(memo), key, memo[key], revision);
        ExtendsTrans(old(memo), old@After(memo), memo, revision, Rank(key), Rank(key) + 1, Rank(key) + 1);
        if calm {
          CalmKeeps(old@After(memo), key, memo[key], revision);
        }
      }
    }

    /** Runs the evaluator, records what it demands and installs the result. */
    method RunEval(key: QueryKey)
      requires Valid() && !Fresh(memo, key, revision) && (key.SourceKey? ==> key !in memo)
      modifies this`memo, this`frames, this`lastRun
      ensures Valid() && Fresh(memo, key, revision) && Extends(old(memo), memo, revision, Rank(key) + 1)
      ensures frames == old(frames)
      decreases Rank(key), 2, 0, 0
    {
      frames := frames + [[]];
      var value, diags := Evaluate(key);
      var deps := frames[|frames| - 1];
      frames := frames[..|frames| - 1];
      assert frames == old(frames);
      label Ran:
      var m := Made(value, deps, diags);
      InstallKeeps(S, hist, memo, key, m);
      memo := memo[key := Installed(memo, key, m, revision)];
      OneEntry(old@Ran(memo), key, memo[key], revision);
      ExtendsTrans(old(memo), old@Ran(memo), memo, revision, Rank(key), Rank(key) + 1, Rank(key) + 1);
      lastRun := lastRun + [key];
    }

    /** The evaluator of `key` has its answers from the demands in the top frame. */
    ghost predicate Running(key: QueryKey, answers: seq<Value>)
      reads this
    {
      && Valid() && frames != [] && Lower(frames[|frames| - 1], Rank(key))
      && Replay(S, files, key, answers, frames[|frames| - 1]) == Make(S, files, key)
      && forall d <- frames[|frames| - 1] :: Fresh(memo, d, revision)
    }

    /** The evaluator proper: it demands keys until it can finish. */
    method Evaluate(key: QueryKey) returns (value: Value, diags: seq<Diag>)
      requires Valid() && frames != [] && frames[|frames| - 1] == []
      modifies this`memo, this`frames, this`lastRun
      ensures Valid() && Extends(old(memo), memo, revision, Rank(key))
      ensures |frames| == old(|frames|) && frames[..|frames| - 1] == old(frames[..|frames| - 1])
      ensures Made(value, frames[|frames| - 1], diags) == Make(S, files, key)
      ensures forall d <- frames[|frames| - 1] :: Fresh(memo, d, revision)
      decreases Rank(key), 1, 0, 0
    {
      hide Good, Make, Extends, Next, Replay, Phase, Left, Rank, Running;
      ExtendsRefl(memo, revision, Rank(key));
      if key.SourceKey? {
        GoodRegistered(S, hist, memo);
        SourceMake(S, files, key.f);
        return TextV(TextAt(S, files, key.f)), [];
      }
      Starts(key);
      var answers: seq<Value> := [];
      var step := Next(S, key, answers);
      while step.Demand?
        invariant Running(key, answers) && Extends(old(memo), memo, revision, Rank(key))
        invariant step == Next(S, key, answers)
        invariant |frames| == old(|frames|) && frames[..|frames| - 1] == old(frames[..|frames| - 1])
        decreases Phase(key, answers), Left(S, key, answers)
      {
        label Before:
        var v := Answer(key, answers, step.key);
        Progresses(key, answers, v);
        ExtendsTrans(old(memo), old@Before(memo), memo, revision, Rank(key), Rank(key), Rank(key));
        answers := answers + [v];
        step := Next(S, key, answers);
      }
      value, diags := Conclude(key, answers, step);
      Ends(key, answers);
    }

    /** An evaluator with no answers and an empty frame is running. */
    lemma Starts(key: QueryKey)
      requires Valid() && frames != [] && frames[|frames| - 1] == [] && !key.SourceKey?
      ensures Running(key, [])
    {
      GoodRegistered(S, hist, memo);
      hide Good, Make, Replay;
      ReplayStart(S, files, key);
    }

    /** Each answer brings the evaluator closer to its end. */
    lemma Progresses(key: QueryKey, answers: seq<Value>, v: Value)
      requires Running(key, answers + [v]) && Next(S, key, answers).Demand?
      ensures Phase(key, answers + [v]) < Phase(key, answers)
        || (Phase(key, answers + [v]) == Phase(key, answers)
          && Left(S, key, answers + [v]) < Left(S, key, answers))
    {
      GoodRegistered(S, hist, memo);
      hide Good, Make, Replay, Next, Phase, Left;
      NextProgress(S, key, answers, v);
    }

    /** What a running evaluator has read is fresh. */
    lemma Ends(key: QueryKey, answers: seq<Value>)
      requires Running(key, answers)
      ensures Valid() && frames != [] && forall d <- frames[|frames| - 1] :: Fresh(memo, d, revision)
    {
    }

    /** What an evaluator that has all its answers returns. */
    method Conclude(key: QueryKey, answers: seq<Value>, step: Step) returns (value: Value, diags: seq<Diag>)
      requires Running(key, answers) && !key.SourceKey? && step == Next(S, key, answers) && !step.Demand?
      ensures Made(value, frames[|frames| - 1], diags) == Make(S, files, key)
    {
      GoodRegistered(S, hist, memo);
      hide Good, Make, Next, Replay, Gather, Report;
      ReplayEnd(S, files, key, answers, frames[|frames| - 1]);
      if step.Done? {
        value, diags := step.value, step.diags;
      } else {
        var collected := CollectDiags(frames[|frames| - 1], Rank(key));
        value, diags := Report(S, answers, collected), [];
      }
    }

    /** One demand of a running evaluator. */
    method Answer(key: QueryKey, ghost answers: seq<Value>, k: QueryKey) returns (v: Value)
      requires Running(key, answers) && Next(S, key, answers) == Query.Demand(k)
      modifies this`memo, this`frames, this`lastRun
      ensures Running(key, answers + [v]) && Extends(old(memo), memo, revision, Rank(key))
      ensures |frames| == old(|frames|) && frames[..|frames| - 1] == old(frames[..|frames| - 1])
      decreases Rank(key), 0, 0, 0
    {
      GoodRegistered(S, hist, memo);
      hide Good, Make, Extends, Next, Replay, Rank;
      ReplayStep(S, files, key, answers, frames[|frames| - 1]);
      v := Demand(k);
      StillFresh(old(memo), memo, revision, Rank(k) + 1, old(frames[|frames| - 1]));
      ExtendsRefl(old(memo), revision, Rank(key));
      ExtendsTrans(old(memo), old(memo), memo, revision, Rank(key), Rank(k) + 1, Rank(key));
    }

    // ---------- collecting diagnostics ----------

    /** The diagnostics reachable from fresh entries equal the from-scratch ones. */
    method CollectDiags(roots: seq<QueryKey>, ghost bound: nat) returns (out: seq<Diag>)
      requires Valid() && Lower(roots, bound) && forall k <- roots :: Fresh(memo, k, revision)
      ensures out == Gather(S, files, bound, roots)
    {
      var seen: set<QueryKey> := {};
      out := [];
      ghost var w := Walked([], []);
      seen, out, w := VisitAll(roots, seen, out, bound, w);
    }

    method VisitAll(keys: seq<QueryKey>, seen0: set<QueryKey>, out0: seq<Diag>, ghost bound: nat, ghost w0: Walked)
      returns (seen: set<QueryKey>, out: seq<Diag>, ghost w: Walked)
      requires Valid() && Lower(keys, bound) && forall k <- keys :: Fresh(memo, k, revision)
      requires out0 == w0.diags && forall k :: Rank(k) < bound ==> (k in seen0 <==> k in w0.order)
      ensures w == Visit(S, files, bound, keys, w0) && out == w.diags
      ensures forall k :: Rank(k) < bound ==> (k in seen <==> k in w.order)
      ensures forall k :: bound <= Rank(k) ==> (k in seen <==> k in seen0)
      decreases bound, |keys|
    {
      hide Good, Make;
      seen, out, w := seen0, out0, w0;
      GoodRegistered(S, hist, memo);
      var i := 0;
      while i < |keys|
        invariant 0 <= i <= |keys|
        invariant Visit(S, files, bound, keys[i..], w) == Visit(S, files, bound, keys, w0)
        invariant out == w.diags && forall k :: Rank(k) < bound ==> (k in seen <==> k in w.order)
        invariant forall k :: bound <= Rank(k) ==> (k in seen <==> k in seen0)
      {
        var key := keys[i];
        assert keys[i..][0] == key && keys[i..][1..] == keys[i + 1..];
        assert key in keys && Fresh(memo, key, revision) && Rank(key) < bound;
        if key !in seen {
          FreshIsMake(S, hist, memo, key);
          FreshDeps(S, hist, memo, key);
          var deps := memo[key].deps;
          ghost var before := w;
          seen, out, w := VisitAll(deps, seen + {key}, out, Rank(key), w);
          VisitNew(S, files, Rank(key), deps, before);
          VisitOld(S, files, Rank(key), deps, before);
          out := out + memo[key].diags;
          w := FromScratch.Emit(key, Make(S, files, key), w);
        }
        i := i + 1;
      }
    }
  }

  // ---------- whole sessions ----------

  datatype Action = Edit(edits: seq<(File, Text)>) | Ask(key: QueryKey)

  /** What a session should answer: every question from scratch on the sources at that time. */
  function Expected(S: Stages, files: Sources, actions: seq<Action>): seq<Value>
    requires Registered(S)
    decreases |actions|
  {
    if actions == [] then []
    else if actions[0].Edit? then Expected(S, Edited(files, actions[0].edits), actions[1..])
    else [Make(S, files, actions[0].key).value] + Expected(S, files, actions[1..])
  }

  /** Main result: any interleaving of edits and demands is answered as from scratch. */
  method Session(db: Db, actions: seq<Action>) returns (answers: seq<Value>)
    requires db.Valid() && db.frames == []
    requires forall a <- actions :: a.Edit? ==> forall e <- a.edits :: e.0 < |db.files|
    modifies db
    ensures db.Valid() && Registered(db.S) && answers == Expected(db.S, old(db.files), actions)
  {
    GoodRegistered(db.S, db.hist, db.memo);
    hide Make, Good;
    answers := [];
    ghost var files := db.files;
    ghost var whole := Expected(db.S, files, actions);
    var i := 0;
    assert actions[0..] == actions;
    while i < |actions|
      invariant 0 <= i <= |actions| && db.Valid() && db.frames == [] && |db.files| == |files|
      invariant whole == answers + Expected(db.S, db.files, actions[i..])
    {
      var action := actions[i];
      assert actions[i..][0] == action && actions[i..][1..] == actions[i + 1..];
      if action.Edit? {
        db.SetSources(action.edits);
      } else {
        var v := db.TopDemand(action.key);
        assert answers + ([v] + Expected(db.S, db.files, actions[i + 1..])) ==
          (answers + [v]) + Expected(db.S, db.files, actions[i + 1..]);
        answers := answers + [v];
      }
      i := i + 1;
    }
    assert answers + [] == answers;
  }

  /** Writing back an unchanged text makes the next demand a pure verification pass. */
  method Resave(db: Db, file: File, key: QueryKey) returns (v: Value)
    requires db.Valid() && db.frames == [] && file < |db.files| && Fresh(db.memo, key, db.revision) && !key.SourceKey?
    modifies db
    ensures db.Valid() && db.files == old(db.files) && db.lastRun == [] && v == Make(db.S, db.files, key).value
  {
    var text := db.files[file];
    db.SetSource(file, text);
    assert db.files == old(db.files);
    v := db.TopDemand(key);
  }
}
