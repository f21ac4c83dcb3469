/** Which answer a recovery gives on a working disk, from any files and any journal, and when a
    conflict leaves the files alone. */
module PersistRecover {
  import opened Persist
  import opened PersistFacts
  import opened PersistHealthy

  // ---------- what recovery can see ----------

  /** File `i` holds its new bytes. */
  predicate IsNew(t: Tx, files: Files, i: nat)
    requires Paired(t) && i < |t.before|
  {
    Holds(files, Dest(i), t.after[i])
  }

  predicate KnownAt(t: Tx, files: Files, i: nat)
    requires Paired(t) && i < |t.before|
  {
    Holds(files, Dest(i), t.before[i]) || IsNew(t, files, i)
  }

  /** Every file holds its old or its new bytes. */
  predicate Known(t: Tx, files: Files)
    requires Paired(t)
  {
    forall i: nat {:trigger KnownAt(t, files, i)} :: i < |t.before| ==> KnownAt(t, files, i)
  }

  /** The commit point has passed: some file is new, or there is none at all. */
  predicate Begun(t: Tx, files: Files)
    requires Paired(t)
  {
    |t.before| == 0 || exists i: nat {:trigger IsNew(t, files, i)} :: i < |t.before| && IsNew(t, files, i)
  }

  /** Every file that is not new has its staged bytes. */
  predicate Finishable(t: Tx, files: Files)
    requires Paired(t)
  {
    forall i: nat {:trigger IsNew(t, files, i)} ::
      i < |t.before| && !IsNew(t, files, i) ==> Holds(files, Stage(i), t.after[i])
  }

  /** The answer on a working disk, read off the journal and the files. */
  function Verdict(t: Tx, w: World): Answer
    requires Paired(t)
  {
    if w.journal.NoJournal? then Clean
    else if w.journal.Torn? || !Known(t, w.files) then Conflict
    else if !Begun(t, w.files) then RolledBack
    else if Finishable(t, w.files) then Committed
    else Conflict
  }

  /** The first file that is not new has its staged bytes. */
  predicate FirstStaged(t: Tx, files: Files)
    requires Paired(t)
  {
    exists i: nat {:trigger IsNew(t, files, i)} ::
      i < |t.before| && !IsNew(t, files, i) && Holds(files, Stage(i), t.after[i]) &&
      forall j: nat {:trigger IsNew(t, files, j)} :: j < i ==> IsNew(t, files, j)
  }

  /** Recovery starts swapping files. */
  predicate Starts(t: Tx, w: World)
    requires Paired(t)
  {
    w.journal.Record? && Known(t, w.files) && Begun(t, w.files) && FirstStaged(t, w.files)
  }

  // ---------- sorting the files ----------

  lemma {:induction false} ClassifyTells(t: Tx, w: World, i: nat, pending: seq<nat>, swapped: bool)
    requires Paired(t) && Healthy(w) && i <= |t.before| && forall k <- pending :: k < |t.before|
    ensures var (v, c) := Classify(t, w, i, pending, swapped);
      v == w && !c.ClassifyDied? &&
      (c.Sorted? <==> forall k: nat {:trigger KnownAt(t, w.files, k)} :: i <= k < |t.before| ==> KnownAt(t, w.files, k))
    decreases |t.before| - i
  {
    if i < |t.before| {
      var (v, got) := Read(w, Dest(i));
      assert KnownAt(t, w.files, i) <==> got == Content(t.after[i]) || got == Content(t.before[i]);
      if got == Content(t.after[i]) {
        ClassifyTells(t, w, i + 1, pending, true);
      } else if got == Content(t.before[i]) {
        ClassifyTells(t, w, i + 1, pending + [i], swapped);
      }
    }
  }

  /** The pending files are exactly those that are not new. */
  lemma PendingIs(t: Tx, files: Files, pending: seq<nat>, swapped: bool)
    requires Paired(t) && SortedRight(t, files, pending, swapped, |t.before|)
    ensures forall i: nat :: i < |t.before| ==> (i in pending <==> !IsNew(t, files, i))
    ensures Known(t, files) && (swapped || |t.before| == 0 <==> Begun(t, files))
    ensures !swapped ==> (pending == [] <==> |t.before| == 0)
    ensures pending == [] ==> Finishable(t, files) && !FirstStaged(t, files)
    ensures pending != [] ==> pending[0] < |t.before|
    ensures pending != [] ==> (FirstStaged(t, files) <==> Holds(files, Stage(pending[0]), t.after[pending[0]]))
  {
    forall i: nat | i < |t.before|
      ensures i in pending <==> !IsNew(t, files, i)
      ensures KnownAt(t, files, i)
    {
      assert Dest(i) == Dest(i);
    }
    if swapped {
      var i: nat :| i < |t.before| && i !in pending;
      assert IsNew(t, files, i);
    } else if 0 < |t.before| {
      assert 0 in pending;
    }
    if pending != [] {
      assert pending[0] in pending;
      FirstPending(t, files, pending);
    }
  }

  lemma FirstIsLeast(pending: seq<nat>, j: nat)
    requires j in pending && forall a, b :: 0 <= a < b < |pending| ==> pending[a] < pending[b]
    ensures pending[0] <= j
  {
    var a :| 0 <= a < |pending| && pending[a] == j;
    assert a > 0 ==> pending[0] < pending[a];
  }

  lemma FirstPending(t: Tx, files: Files, pending: seq<nat>)
    requires Paired(t) && pending != [] && pending[0] < |t.before|
    requires forall a, b :: 0 <= a < b < |pending| ==> pending[a] < pending[b]
    requires forall i: nat :: i < |t.before| ==> (i in pending <==> !IsNew(t, files, i))
    ensures FirstStaged(t, files) <==> Holds(files, Stage(pending[0]), t.after[pending[0]])
  {
    var p := pending[0];
    assert !IsNew(t, files, p);
    forall j: nat | j < p
      ensures IsNew(t, files, j)
    {
      if j in pending {
        FirstIsLeast(pending, j);
      }
    }
    if FirstStaged(t, files) {
      var i: nat :| i < |t.before| && !IsNew(t, files, i) && Holds(files, Stage(i), t.after[i]) && forall j: nat ::
        j < i ==> IsNew(t, files, j);
      assert i == p;
    }
  }

  // ---------- finishing ----------

  /** The backups of `i..n` are gone and nothing else changed. */
  lemma {:induction false} BaksGone(w: World, i: nat, n: nat, ok: bool)
    requires Healthy(w) && i <= n
    ensures var (v, io, r) := RemoveBaks(w, i, n, ok);
      io.Good? && Healthy(v) &&
      forall p: Path {:trigger SameFile(w.files, v.files, p)} {:trigger p in v.files} ::
        if p.Bak? && i <= p.i < n then p !in v.files else SameFile(w.files, v.files, p)
    decreases n - i
  {
    if i < n {
      var (v, io) := Remove(w, Bak(i));
      BaksGone(v, i + 1, n, ok && io.Good?);
    }
  }

  /** The files after both renames of file `i`. */
  function SwapFile(files: Files, i: nat): Files
    requires Dest(i) in files && Stage(i) in files
  {
    ((files - {Dest(i)})[Bak(i) := files[Dest(i)]] - {Stage(i)})[Dest(i) := files[Stage(i)]]
  }

  ghost predicate Waiting(t: Tx, files: Files, pending: seq<nat>)
    requires Paired(t)
  {
    && (forall a, b :: 0 <= a < b < |pending| ==> pending[a] < pending[b])
    && forall k <- pending :: k < |t.before| && Dest(k) in files && files[Dest(k)] != t.after[k]
  }

  lemma WaitingRest(t: Tx, files: Files, g: Files, pending: seq<nat>)
    requires Paired(t) && pending != [] && Waiting(t, files, pending)
    requires forall k: nat :: k != pending[0] ==> SameFile(files, g, Dest(k))
    ensures Waiting(t, g, pending[1..]) && pending[0] !in pending[1..]
    ensures forall k :: k in pending <==> k == pending[0] || k in pending[1..]
  {
    var rest := pending[1..];
    assert pending == [pending[0]] + rest;
    forall k <- rest
      ensures pending[0] < k < |t.before| && Dest(k) in g && g[Dest(k)] != t.after[k]
    {
      var a :| 0 <= a < |rest| && rest[a] == k;
      assert k in pending && pending[0] < pending[a + 1];
      assert SameFile(files, g, Dest(k));
    }
  }

  /** What finishing leaves at the paths of file `i`. */
  predicate Finished(t: Tx, f: Files, g: Files, pending: seq<nat>, i: nat)
    requires Paired(t) && i < |t.before|
  {
    Bak(i) !in g &&
    if i in pending then Holds(g, Dest(i), t.after[i]) && Stage(i) !in g
    else SameFile(f, g, Dest(i)) && SameFile(f, g, Stage(i))
  }

  ghost predicate AllStaged(t: Tx, files: Files, pending: seq<nat>)
    requires Paired(t) && forall k <- pending :: k < |t.before|
  {
    forall k <- pending :: Holds(files, Stage(k), t.after[k])
  }

  lemma {:induction false} FinishExact(t: Tx, w: World, pending: seq<nat>)
    requires Paired(t) && Healthy(w) && Waiting(t, w.files, pending)
    ensures var (v, a) := FinishSwaps(t, w, pending);
      && (forall i: nat {:trigger Dest(i)} :: i !in pending ==> SameFile(w.files, v.files, Dest(i)))
      && Healthy(v) && a == (if AllStaged(t, w.files, pending) then Committed else Conflict)
      && (a.Committed? ==> v.journal.NoJournal?)
      && (a.Committed? ==> forall i: nat {:trigger Finished(t, w.files, v.files, pending, i)} ::
        i < |t.before| ==> Finished(t, w.files, v.files, pending, i))
      && (a.Conflict? ==> (v.files == w.files <==> !Holds(w.files, Stage(pending[0]), t.after[pending[0]])))
    decreases |pending|
  {
    if pending == [] {
      BaksGone(w, 0, |t.before|, true);
    } else {
      var i := pending[0];
      assert i in pending;
      if Holds(w.files, Stage(i), t.after[i]) {
        FinishStep(t, w, pending);
      }
    }
  }

  lemma WaitingFirst(t: Tx, files: Files, pending: seq<nat>)
    requires Paired(t) && Waiting(t, files, pending) && pending != []
    ensures pending[0] in pending && forall k <- pending :: k < |t.before|
    ensures Dest(pending[0]) in files && files[Dest(pending[0])] != t.after[pending[0]]
  {
  }

  lemma FinishFirst(t: Tx, w: World, i: nat, rest: seq<nat>)
    requires Paired(t) && Healthy(w) && i < |t.before| && forall k <- rest :: k < |t.before|
    requires Dest(i) in w.files && Holds(w.files, Stage(i), t.after[i])
    ensures FinishSwaps(t, w, [i] + rest) == FinishSwaps(t, World(SwapFile(w.files, i), Record(Swapping), []), rest)
  {
    assert ([i] + rest)[1..] == rest;
  }

  lemma {:induction false} FinishStep(t: Tx, w: World, pending: seq<nat>)
    requires Paired(t) && Healthy(w) && Waiting(t, w.files, pending) && pending != []
    requires pending[0] < |t.before| && Holds(w.files, Stage(pending[0]), t.after[pending[0]])
    ensures var (v, a) := FinishSwaps(t, w, pending);
      && (forall i: nat {:trigger Dest(i)} :: i !in pending ==> SameFile(w.files, v.files, Dest(i)))
      && Healthy(v) && a == (if AllStaged(t, w.files, pending) then Committed else Conflict)
      && (a.Committed? ==> v.journal.NoJournal?)
      && (a.Committed? ==> forall i: nat {:trigger Finished(t, w.files, v.files, pending, i)} ::
        i < |t.before| ==> Finished(t, w.files, v.files, pending, i))
      && (a.Conflict? ==> v.files != w.files)
    decreases |pending|, 0
  {
    hide Waiting, FinishSwaps;
    var i, rest := pending[0], pending[1..];
    WaitingFirst(t, w.files, pending);
    var g := SwapFile(w.files, i);
    var x := World(g, Record(Swapping), []);
    WaitingRest(t, w.files, g, pending);
    FinishFirst(t, w, i, rest);
    assert [i] + rest == pending;
    FinishExact(t, x, rest);
    var (v, a) := FinishSwaps(t, x, rest);
    assert SameFile(g, v.files, Dest(i));
    assert AllStaged(t, g, rest) <==> AllStaged(t, w.files, pending) by {
      assert forall k: nat :: k != i ==> SameFile(w.files, g, Stage(k));
    }
    forall k: nat {:trigger Dest(k)} | k !in pending
      ensures SameFile(w.files, v.files, Dest(k))
    {
      assert SameFile(w.files, g, Dest(k)) && SameFile(g, v.files, Dest(k));
    }
    if a.Committed? {
      forall k: nat {:trigger Finished(t, w.files, v.files, pending, k)} | k < |t.before|
        ensures Finished(t, w.files, v.files, pending, k)
      {
        assert Finished(t, g, v.files, rest, k);
        assert k != i ==> SameFile(w.files, g, Dest(k)) && SameFile(w.files, g, Stage(k));
      }
    }
  }

  // ---------- the exact answer ----------

  /** Main result on recovery: on a working disk its answer is `Verdict`, for any files and any
      journal. It finishes or undoes exactly what can be finished or undone, and then leaves
      neither journal nor backups; only the staged copies of files that were new before are left
      when it finished others. A conflict changed files exactly when swapping started. */
  lemma RecoverExact(t: Tx, w: World)
    requires Paired(t) && Healthy(w)
    ensures var (v, a) := Recover(t, w);
      && Healthy(v) && a == Verdict(t, w)
      && (a.Clean? ==> v == w)
      && (a.RolledBack? ==> AllBefore(t, v.files) && v.journal.NoJournal? && NoArtifacts(v.files, 0, |t.before|))
      && (a.Committed? ==> AllAfter(t, v.files) && v.journal.NoJournal? && NoBaks(t, v.files))
      && (a.Committed? ==> forall i: nat {:trigger Stage(i)} :: i < |t.before| ==>
           (Stage(i) in v.files <==> Stage(i) in w.files && IsNew(t, w.files, i) && !AllAfter(t, w.files)))
      && (a.Conflict? ==> (v.files == w.files <==> !Starts(t, w)))
      && (a.Conflict? && !Starts(t, w) ==> v == w)
  {
    hide Classify, CleanUp, FinishSwaps, AllBefore, AllAfter, Known, Begun, Finishable, FirstStaged, SortedRight,
      NoArtifacts, NoBaks;
    if w.journal.Record? {
      SortedNone(t, w.files);
      ClassifyExact(t, w, 0, [], false);
      ClassifyTells(t, w, 0, [], false);
      var (u, c) := Classify(t, w, 0, [], false);
      assert c.Sorted? <==> Known(t, w.files) by {
        KnownIs(t, w.files);
      }
      if c.Sorted? {
        PendingIs(t, w.files, c.pending, c.swapped);
        if c.pending == [] {
          CleanCommitted(t, w, c.pending, c.swapped);
        } else if c.swapped {
          FinishSorted(t, w, c.pending);
        } else {
          CleanRolledBack(t, w, c.pending);
        }
      }
    }
  }

  lemma KnownIs(t: Tx, files: Files)
    requires Paired(t)
    ensures Known(t, files) <==>
      forall k: nat {:trigger KnownAt(t, files, k)} :: 0 <= k < |t.before| ==> KnownAt(t, files, k)
  {
  }

  lemma CleanCommitted(t: Tx, w: World, pending: seq<nat>, swapped: bool)
    requires Paired(t) && Healthy(w) && w.journal.Record? && pending == []
    requires SortedRight(t, w.files, pending, swapped, |t.before|)
    ensures var (v, a) := CleanUp(t, w, Committed);
      Healthy(v) && a.Committed? && AllAfter(t, w.files) && AllAfter(t, v.files) && v.journal.NoJournal? &&
      NoBaks(t, v.files) &&
      forall i: nat {:trigger Stage(i)} :: i < |t.before| ==> Stage(i) !in v.files
  {
    forall i | 0 <= i < |t.after|
      ensures Holds(w.files, Dest(i), t.after[i])
    {
      assert Dest(i) == Dest(i);
    }
    BothHealthy(w, 0, |t.before|);
    RemoveBothDests(w, 0, |t.before|);
    var v := RemoveBoth(w, 0, |t.before|).0;
    DestsKeep(t, w.files, v.files);
    forall i: nat | i < |t.before|
      ensures Stage(i) !in v.files && Bak(i) !in v.files
    {
      assert Stage(i) == Stage(i);
    }
  }

  lemma CleanRolledBack(t: Tx, w: World, pending: seq<nat>)
    requires Paired(t) && Healthy(w) && w.journal.Record? && SortedRight(t, w.files, pending, false, |t.before|)
    ensures var (v, a) := CleanUp(t, w, RolledBack);
      Healthy(v) && a.RolledBack? && AllBefore(t, v.files) && v.journal.NoJournal? &&
      NoArtifacts(v.files, 0, |t.before|)
  {
    forall i | 0 <= i < |t.before|
      ensures Holds(w.files, Dest(i), t.before[i])
    {
      assert i in pending;
    }
    BothHealthy(w, 0, |t.before|);
    RemoveBothDests(w, 0, |t.before|);
    DestsKeep(t, w.files, RemoveBoth(w, 0, |t.before|).0.files);
  }

  lemma FinishSorted(t: Tx, w: World, pending: seq<nat>)
    requires Paired(t) && Healthy(w) && pending != [] && SortedRight(t, w.files, pending, true, |t.before|)
    requires forall i: nat :: i < |t.before| ==> (i in pending <==> !IsNew(t, w.files, i))
    ensures var (v, a) := FinishSwaps(t, w, pending);
      && Healthy(v) && a == (if Finishable(t, w.files) then Committed else Conflict)
      && (a.Committed? ==> AllAfter(t, v.files) && v.journal.NoJournal? && NoBaks(t, v.files) && !AllAfter(t, w.files))
      && (a.Committed? ==> forall i: nat {:trigger Stage(i)} :: i < |t.before| ==>
           (Stage(i) in v.files <==> Stage(i) in w.files && IsNew(t, w.files, i)))
      && (a.Conflict? ==> (v.files == w.files <==> !Holds(w.files, Stage(pending[0]), t.after[pending[0]])))
      && (a.Conflict? && v.files == w.files ==> v == w)
  {
    assert pending[0] in pending;
    assert !AllAfter(t, w.files) by {
      assert !Holds(w.files, Dest(pending[0]), t.after[pending[0]]);
    }
    FinishExact(t, w, pending);
    hide FinishSwaps;
    var (v, a) := FinishSwaps(t, w, pending);
    assert AllStaged(t, w.files, pending) <==> Finishable(t, w.files);
    if a.Committed? {
      forall i: nat | i < |t.before|
        ensures Bak(i) !in v.files && Holds(v.files, Dest(i), t.after[i])
        ensures Stage(i) in v.files <==> Stage(i) in w.files && IsNew(t, w.files, i)
      {
        assert Finished(t, w.files, v.files, pending, i);
      }
    }
  }

  predicate SomeOld(t: Tx, files: Files)
    requires Paired(t)
  {
    exists i: nat {:trigger IsNew(t, files, i)} :: i < |t.before| && !IsNew(t, files, i)
  }

  /** Where finishing gives up, the first file that is not new has no staged bytes. */
  lemma {:induction false} FinishStuck(t: Tx, w: World, pending: seq<nat>)
    requires Paired(t) && Healthy(w) && Waiting(t, w.files, pending) && w.journal.Record?
    requires forall i: nat :: i < |t.before| ==> (i in pending <==> !IsNew(t, w.files, i))
    ensures var (v, a) := FinishSwaps(t, w, pending);
      a.Conflict? ==> v.journal.Record? && !FirstStaged(t, v.files) && SomeOld(t, v.files)
    decreases |pending|
  {
    if pending != [] {
      var i, rest := pending[0], pending[1..];
      assert i in pending && !IsNew(t, w.files, i);
      FirstPending(t, w.files, pending);
      if Holds(w.files, Stage(i), t.after[i]) {
        var g := SwapFile(w.files, i);
        WaitingRest(t, w.files, g, pending);
        forall k: nat | k < |t.before|
          ensures k in rest <==> !IsNew(t, g, k)
        {
          assert k != i ==> SameFile(w.files, g, Dest(k));
          assert IsNew(t, w.files, k) <==> k !in pending;
        }
        FinishStuck(t, World(g, Record(Swapping), []), rest);
      }
    } else {
      BaksGone(w, 0, |t.before|, true);
    }
  }

  /** Recovering again changes nothing and repeats a conflict. */
  lemma RecoverTwice(t: Tx, w: World)
    requires Paired(t) && Healthy(w)
    ensures var (v, a) := Recover(t, w); Recover(t, v) == (v, if a.Conflict? then Conflict else Clean)
  {
    hide Classify, CleanUp, FinishSwaps, Known, Begun, Finishable, FirstStaged, SortedRight, AllAfter, AllBefore,
      NoArtifacts, NoBaks;
    RecoverExact(t, w);
    var (v, a) := Recover(t, w);
    if a.Conflict? && Starts(t, w) {
      StartsStuck(t, w);
      RecoverExact(t, v);
    }
  }

  lemma StartsStuck(t: Tx, w: World)
    requires Paired(t) && Healthy(w) && Starts(t, w) && Recover(t, w).1.Conflict?
    ensures var v := Recover(t, w).0; v.journal.Record? && Healthy(v) && !Starts(t, v) && Verdict(t, v).Conflict?
  {
    hide Classify, CleanUp, FinishSwaps, Known, Begun, Finishable, FirstStaged, SortedRight;
    SortedNone(t, w.files);
    ClassifyExact(t, w, 0, [], false);
    ClassifyTells(t, w, 0, [], false);
    KnownIs(t, w.files);
    var c := Classify(t, w, 0, [], false).1;
    PendingIs(t, w.files, c.pending, c.swapped);
    SortedWaits(t, w.files, c.pending, c.swapped);
    FinishStuck(t, w, c.pending);
    FinishExact(t, w, c.pending);
    var v := FinishSwaps(t, w, c.pending).0;
    NewStay(t, w.files, v.files, c.pending);
    StuckConflicts(t, v.files);
  }

  lemma SortedWaits(t: Tx, files: Files, pending: seq<nat>, swapped: bool)
    requires Paired(t) && SortedRight(t, files, pending, swapped, |t.before|)
    ensures Waiting(t, files, pending)
  {
  }

  lemma NewStay(t: Tx, f: Files, g: Files, pending: seq<nat>)
    requires Paired(t) && Begun(t, f) && forall i: nat {:trigger Dest(i)} :: i !in pending ==> SameFile(f, g, Dest(i))
    requires forall i: nat :: i < |t.before| ==> (i in pending <==> !IsNew(t, f, i))
    ensures Begun(t, g)
  {
    if 0 < |t.before| {
      var i: nat :| i < |t.before| && IsNew(t, f, i);
      assert IsNew(t, g, i);
    }
  }

  /** If some file is not new and the first such file is unstaged, not all of them are staged. */
  lemma StuckConflicts(t: Tx, files: Files)
    requires Paired(t) && !FirstStaged(t, files) && SomeOld(t, files)
    ensures !Finishable(t, files)
  {
    hide FirstStaged;
    if Finishable(t, files) {
      var i: nat :| i < |t.before| && !IsNew(t, files, i);
      FirstOld(t, files, i);
    }
  }

  lemma {:induction false} FirstOld(t: Tx, files: Files, i: nat)
    requires Paired(t) && i < |t.before| && !IsNew(t, files, i) && Finishable(t, files)
    ensures FirstStaged(t, files)
  {
    if j: nat :| j < i && !IsNew(t, files, j) {
      FirstOld(t, files, j);
    } else {
      assert Holds(files, Stage(i), t.after[i]);
    }
  }

  /** Under any faults, a conflict touches nothing unless swapping could start. */
  lemma ConflictTouchesNothing(t: Tx, w: World)
    requires Paired(t) && !Starts(t, w)
    ensures var (v, a) := Recover(t, w); a.Conflict? ==> v.files == w.files
  {
    hide Classify, CleanUp, Known, Begun, FirstStaged, SortedRight;
    var v0 := Take(w).0;
    var v := Take(v0).0;
    if v.journal.Record? {
      SortedNone(t, v.files);
      ClassifyExact(t, v, 0, [], false);
      var (u, c) := Classify(t, v, 0, [], false);
      if c.Sorted? {
        PendingIs(t, u.files, c.pending, c.swapped);
        CleanUpAnswers(t, u, Committed);
        CleanUpAnswers(t, u, RolledBack);
      }
    }
  }

  lemma CleanUpAnswers(t: Tx, w: World, answer: Answer)
    requires Paired(t)
    ensures CleanUp(t, w, answer).1 in {answer, RecoveryDied}
  {
  }

  // ---------- what can be resolved ----------

  /** Recovery finishes or rolls back exactly when every file is old or new, and either all of
      them are old or the old ones are still staged. */
  lemma RecoverResolves(t: Tx, w: World)
    requires Paired(t) && Changes(t) && Healthy(w) && w.journal.Record?
    ensures Recover(t, w).1 in {Committed, RolledBack} <==>
      Known(t, w.files) &&
      (AllBefore(t, w.files) ||
       forall i: nat {:trigger Stage(i)} ::
         i < |t.before| && Holds(w.files, Dest(i), t.before[i]) ==> Holds(w.files, Stage(i), t.after[i]))
  {
    hide Recover;
    RecoverExact(t, w);
    if Known(t, w.files) {
      forall i: nat | i < |t.before|
        ensures IsNew(t, w.files, i) <==> !Holds(w.files, Dest(i), t.before[i])
      {
        assert KnownAt(t, w.files, i);
      }
    }
  }

  /** A commit that died between two files is finished, or undone if no file was swapped yet. */
  lemma BetweenFiles(t: Tx, w: World, k: nat)
    requires Paired(t) && Changes(t) && Healthy(w) && w.journal.Record? && 0 < |t.before| && k <= |t.before|
    requires Swapped(t, w.files, k)
    ensures Recover(t, w).1 == if k == 0 then RolledBack else Committed
  {
    hide Recover;
    RecoverExact(t, w);
    forall i: nat | i < |t.before|
      ensures KnownAt(t, w.files, i) && (IsNew(t, w.files, i) <==> i < k)
      ensures k <= i ==> Holds(w.files, Stage(i), t.after[i])
    {
      assert SwappedAt(t, w.files, k, i);
    }
    if k > 0 {
      assert IsNew(t, w.files, 0);
    }
  }

  /** Which outcomes of a transaction a later recovery on a working disk cannot resolve. A torn
      journal never is. With a readable one these are only: a "rolled back" error that was not
      true, a request for recovery that left a file missing or an old one without its staged
      copy, and deaths. */
  lemma ConflictAfter(t: Tx, w: World)
    requires Paired(t) && Changes(t) && Pristine(t, w)
    ensures var (v, o) := PersistTx(t, w);
      var a := Recover(t, v.(faults := [])).1;
      && (v.journal.Torn? ==> a.Conflict?)
      && (o in {Refused, StagingFailed, Complete, Uncleaned} && !v.journal.Torn? ==> !a.Conflict?)
      && (o.Undone? && v.journal.Record? ==> (a.Conflict? <==> !AllBefore(t, v.files)))
      && (o.NeedsRecovery? && v.journal.Record? ==> a in {Committed, Conflict})
      && (o.NeedsRecovery? && v.journal.Record? ==> (a.Conflict? <==> !(Known(t, v.files) && Finishable(t, v.files))))
  {
    hide PersistTx, Recover, RollBack, NoLoss, AllBefore, AllAfter, Known, Begun, Finishable, Broken, RollBackPoint,
      Misled, NoBaks;
    PersistTruthful(t, w);
    var (v, o) := PersistTx(t, w);
    RecoverExact(t, v.(faults := []));
    SettledKnown(t, v.files);
    RollBackPointIs(t, w);
    if o in {Undone, NeedsRecovery} {
      var p := RollBackPoint(t, w).value;
      RollBackExact(t, p.0, p.1);
      IncompleteRollBack(t, p.0, p.1);
      if Dest(p.1) !in v.files {
        MissingUnknown(t, v.files, p.1);
      }
    }
  }

  /** Old or new throughout is never a conflict; known but not old throughout has begun. */
  lemma SettledKnown(t: Tx, files: Files)
    requires Paired(t) && Changes(t)
    ensures AllBefore(t, files) ==> Known(t, files) && (Begun(t, files) ==> |t.before| == 0 && Finishable(t, files))
    ensures AllAfter(t, files) ==> Known(t, files) && Begun(t, files) && Finishable(t, files)
    ensures Known(t, files) && !AllBefore(t, files) ==> Begun(t, files)
  {
    if AllBefore(t, files) {
      forall i: nat | i < |t.before|
        ensures KnownAt(t, files, i) && !IsNew(t, files, i)
      {
        assert Holds(files, Dest(i), t.before[i]);
      }
    }
    if AllAfter(t, files) {
      forall i: nat | i < |t.before|
        ensures KnownAt(t, files, i) && IsNew(t, files, i)
      {
        assert Holds(files, Dest(i), t.after[i]);
      }
      if 0 < |t.before| {
        assert IsNew(t, files, 0);
      }
    }
    if Known(t, files) && !AllBefore(t, files) {
      var i: nat :| i < |t.before| && !Holds(files, Dest(i), t.before[i]);
      assert KnownAt(t, files, i);
      assert IsNew(t, files, i);
    }
  }

  lemma MissingUnknown(t: Tx, files: Files, k: nat)
    requires Paired(t) && k < |t.before| && Dest(k) !in files
    ensures !Known(t, files)
  {
    assert !KnownAt(t, files, k);
  }

  // ---------- an interrupted rollback ----------

  const TWO_FILES := Tx(["a", "b"], ["A", "B"])

  /** `n` steps that work, then those of `tail`. */
  function After(n: nat, tail: seq<Fault>): seq<Fault> {
    if n == 0 then tail else [Fine] + After(n - 1, tail)
  }

  lemma FineStep(files: Files, j: Journal, n: nat, tail: seq<Fault>)
    ensures Take(World(files, j, After(n + 1, tail))) == (World(files, j, After(n, tail)), Fine)
  {
    assert ([Fine] + After(n, tail))[1..] == After(n, tail);
  }

  /** Swapping a file takes three steps. */
  lemma SwapWorks(t: Tx, files: Files, i: nat, tail: seq<Fault>)
    requires Paired(t) && i < |t.before| && Dest(i) in files && Stage(i) in files
    ensures SwapFrom(t, World(files, Record(Swapping), After(3, tail)), i) ==
      SwapFrom(t, World(SwapFile(files, i), Record(Swapping), After(0, tail)), i + 1)
  {
    hide RollBack, Finalize;
    var j := Record(Swapping);
    var aside := (files - {Dest(i)})[Bak(i) := files[Dest(i)]];
    FineStep(files, j, 2, tail);
    FineStep(aside, j, 1, tail);
    FineStep(SwapFile(files, i), j, 0, tail);
    assert Rename(World(files, j, After(3, tail)), Dest(i), Bak(i)) == (World(aside, j, After(2, tail)), Good);
  }

  /** Setting the second file aside fails, and so does restoring the first one. */
  const TWO_FAIL: seq<Fault> := [Fails(Nothing), Fails(Nothing)]

  /** A full run into an incomplete rollback, and the recovery that answers it. */
  lemma InterruptedRollBack()
    ensures var w := World(map[Dest(0) := "a", Dest(1) := "b"], NoJournal, After(11, TWO_FAIL));
      var (v, o) := PersistTx(TWO_FILES, w);
      && Pristine(TWO_FILES, w) && o.NeedsRecovery? && v.journal == Record(Swapping)
      && v.files == map[Dest(0) := "A", Bak(0) := "a", Dest(1) := "b"]
      && NoLoss(TWO_FILES, v.files) && Recover(TWO_FILES, v.(faults := [])).1.Conflict?
  {
    hide StageFrom, SwapFrom, NoLoss, Recover;
    var t := TWO_FILES;
    var files: Files := map[Dest(0) := "a", Dest(1) := "b"];
    FineStep(files, NoJournal, 10, TWO_FAIL);
    FineStep(files, NoJournal, 9, TWO_FAIL);
    FineStep(files, NoJournal, 8, TWO_FAIL);
    FineStep(files, NoJournal, 7, TWO_FAIL);
    assert CheckFrom(t, World(files, NoJournal, After(8, TWO_FAIL)), 2) ==
      (World(files, NoJournal, After(8, TWO_FAIL)), Good);
    assert CheckFrom(t, World(files, NoJournal, After(9, TWO_FAIL)), 1) ==
      (World(files, NoJournal, After(8, TWO_FAIL)), Good);
    assert CheckFrom(t, World(files, NoJournal, After(10, TWO_FAIL)), 0) ==
      (World(files, NoJournal, After(8, TWO_FAIL)), Good);
    InterruptedStaging(files);
    InterruptedConflicts();
  }

  lemma InterruptedConflicts()
    ensures var left: Files := map[Dest(0) := "A", Bak(0) := "a", Dest(1) := "b"];
      NoLoss(TWO_FILES, left) && Recover(TWO_FILES, World(left, Record(Swapping), [])).1.Conflict?
  {
    hide NoLoss, Recover;
    var t := TWO_FILES;
    var left: Files := map[Dest(0) := "A", Bak(0) := "a", Dest(1) := "b"];
    assert AllKept(t, left) by {
      assert Kept(t, left, 0) && Kept(t, left, 1);
    }
    KeptNoLoss(t, left);
    RecoverExact(t, World(left, Record(Swapping), []));
    assert IsNew(t, left, 0) && !IsNew(t, left, 1);
    assert Begun(t, left) && !Finishable(t, left);
  }

  lemma InterruptedStaging(files: Files)
    requires files == map[Dest(0) := "a", Dest(1) := "b"]
    ensures var (v, o) := StageFrom(TWO_FILES, World(files, Record(Prepared), After(7, TWO_FAIL)), 0);
      o.NeedsRecovery? && v.journal == Record(Swapping) && v.files == map[Dest(0) := "A", Bak(0) := "a", Dest(1) := "b"]
  {
    hide SwapFrom;
    var t := TWO_FILES;
    var one := files[Stage(0) := "A"];
    var two := one[Stage(1) := "B"];
    FineStep(files, Record(Prepared), 6, TWO_FAIL);
    FineStep(one, Record(Prepared), 5, TWO_FAIL);
    FineStep(two, Record(Prepared), 4, TWO_FAIL);
    FineStep(two, Record(Staged), 3, TWO_FAIL);
    var w := World(two, Record(Prepared), After(5, TWO_FAIL));
    assert StageFrom(t, w, 2) == AfterStaging(t, w) == SwapFrom(t, World(two, Record(Swapping), After(3, TWO_FAIL)), 0);
    assert StageFrom(t, World(one, Record(Prepared), After(6, TWO_FAIL)), 1) == StageFrom(t, w, 2);
    InterruptedSwap(two);
  }

  lemma InterruptedSwap(files: Files)
    requires files == map[Dest(0) := "a", Dest(1) := "b", Stage(0) := "A", Stage(1) := "B"]
    ensures var (v, o) := SwapFrom(TWO_FILES, World(files, Record(Swapping), After(3, TWO_FAIL)), 0);
      o.NeedsRecovery? && v.journal == Record(Swapping) && v.files == map[Dest(0) := "A", Bak(0) := "a", Dest(1) := "b"]
  {
    hide SwapFrom;
    var first := SwapFile(files, 0);
    SwapWorks(TWO_FILES, files, 0, TWO_FAIL);
    assert first == map[Dest(0) := "A", Bak(0) := "a", Dest(1) := "b", Stage(1) := "B"];
    InterruptedBack(first);
  }

  lemma InterruptedBack(first: Files)
    requires first == map[Dest(0) := "A", Bak(0) := "a", Dest(1) := "b", Stage(1) := "B"]
    ensures var (v, o) := SwapFrom(TWO_FILES, World(first, Record(Swapping), After(0, TWO_FAIL)), 1);
      o.NeedsRecovery? && v.journal == Record(Swapping) && v.files == map[Dest(0) := "A", Bak(0) := "a", Dest(1) := "b"]
  {
    var t := TWO_FILES;
    var j := Record(Swapping);
    var u := World(first, j, [Fails(Nothing)]);
    assert After(0, TWO_FAIL)[1..] == [Fails(Nothing)] && u.faults[1..] == [];
    assert SwapFrom(t, World(first, j, After(0, TWO_FAIL)), 1) == RollBack(t, u, 1);
    var v := World(first, j, []);
    assert Restore(v, 1, 1, false) == (v, Good, false);
    assert Restore(u, 0, 1, true) == (v, Good, false);
    var x := World(first - {Stage(1)}, j, []);
    assert RemoveStages(v, 1, 2) == RemoveStages(x, 2, 2) == (x, Good);
    assert RestoreLast(x, 1, false) == (x, NeedsRecovery);
    assert x.files == map[Dest(0) := "A", Bak(0) := "a", Dest(1) := "b"];
  }

  // ---------- a conflict that changes a file ----------

  const THREE_FILES := Tx(["a", "b", "c"], ["A", "B", "C"])

  /** Setting the second file aside fails, and so do restoring the first one and dropping the
      second one's staged copy; dropping the third one's works. */
  const THREE_FAIL: seq<Fault> := [Fails(Nothing), Fails(Nothing), Fails(Nothing)]

  /** A run that asks for recovery, and a recovery that swaps the second file and then finds the
      third one unstaged: the conflict it reports comes with a changed file. */
  lemma ConflictTouches()
    ensures var t := THREE_FILES;
      var w := World(map[Dest(0) := "a", Dest(1) := "b", Dest(2) := "c"], NoJournal, After(13, THREE_FAIL));
      var (v, o) := PersistTx(t, w);
      var (u, a) := Recover(t, v.(faults := []));
      && Pristine(t, w) && AllBefore(t, w.files) && o.NeedsRecovery? && v.journal.Record?
      && NoLoss(t, v.files) && a.Conflict? && u.files != v.files
  {
    hide StageFrom, SwapFrom, NoLoss, Recover;
    var t := THREE_FILES;
    var files: Files := map[Dest(0) := "a", Dest(1) := "b", Dest(2) := "c"];
    FineStep(files, NoJournal, 12, THREE_FAIL);
    DroppedChecks(files);
    FineStep(files, NoJournal, 8, THREE_FAIL);
    DroppedStaging(files);
    DroppedConflicts();
  }

  lemma DroppedChecks(files: Files)
    requires files == map[Dest(0) := "a", Dest(1) := "b", Dest(2) := "c"]
    ensures CheckFrom(THREE_FILES, World(files, NoJournal, After(12, THREE_FAIL)), 0) ==
      (World(files, NoJournal, After(9, THREE_FAIL)), Good)
  {
    var t := THREE_FILES;
    var done := World(files, NoJournal, After(9, THREE_FAIL));
    FineStep(files, NoJournal, 11, THREE_FAIL);
    FineStep(files, NoJournal, 10, THREE_FAIL);
    FineStep(files, NoJournal, 9, THREE_FAIL);
    assert CheckFrom(t, done, 3) == (done, Good);
    assert CheckFrom(t, World(files, NoJournal, After(10, THREE_FAIL)), 2) == (done, Good);
    assert CheckFrom(t, World(files, NoJournal, After(11, THREE_FAIL)), 1) == (done, Good);
  }

  lemma DroppedStaging(files: Files)
    requires files == map[Dest(0) := "a", Dest(1) := "b", Dest(2) := "c"]
    ensures var (v, o) := StageFrom(THREE_FILES, World(files, Record(Prepared), After(8, THREE_FAIL)), 0);
      o.NeedsRecovery? && v == World(HALF_DONE, Record(Swapping), [])
  {
    hide SwapFrom;
    var t := THREE_FILES;
    var one := files[Stage(0) := "A"];
    var two := one[Stage(1) := "B"];
    var three := two[Stage(2) := "C"];
    FineStep(files, Record(Prepared), 7, THREE_FAIL);
    FineStep(one, Record(Prepared), 6, THREE_FAIL);
    FineStep(two, Record(Prepared), 5, THREE_FAIL);
    FineStep(three, Record(Prepared), 4, THREE_FAIL);
    FineStep(three, Record(Staged), 3, THREE_FAIL);
    var w := World(three, Record(Prepared), After(5, THREE_FAIL));
    assert StageFrom(t, w, 3) == AfterStaging(t, w) ==
      SwapFrom(t, World(three, Record(Swapping), After(3, THREE_FAIL)), 0);
    assert StageFrom(t, World(two, Record(Prepared), After(6, THREE_FAIL)), 2) == StageFrom(t, w, 3);
    assert StageFrom(t, World(one, Record(Prepared), After(7, THREE_FAIL)), 1) == StageFrom(t, w, 3);
    DroppedSwap(three);
  }

  lemma DroppedSwap(files: Files)
    requires files ==
      map[Dest(0) := "a", Dest(1) := "b", Dest(2) := "c", Stage(0) := "A", Stage(1) := "B", Stage(2) := "C"]
    ensures SwapFrom(THREE_FILES, World(files, Record(Swapping), After(3, THREE_FAIL)), 0) ==
      (World(HALF_DONE, Record(Swapping), []), NeedsRecovery)
  {
    hide RollBack, SwapFrom;
    var first := HALF_DONE[Stage(2) := "C"];
    SwapWorks(THREE_FILES, files, 0, THREE_FAIL);
    assert SwapFile(files, 0) == first;
    DroppedAside(first);
    DroppedBack(World(first, Record(Swapping), [Fails(Nothing), Fails(Nothing)]));
  }

  lemma DroppedAside(files: Files)
    ensures SwapFrom(THREE_FILES, World(files, Record(Swapping), THREE_FAIL), 1) ==
      RollBack(THREE_FILES, World(files, Record(Swapping), [Fails(Nothing), Fails(Nothing)]), 1)
  {
    hide RollBack;
    assert THREE_FAIL[1..] == [Fails(Nothing), Fails(Nothing)];
  }

  lemma DroppedBack(u: World)
    requires u == World(HALF_DONE[Stage(2) := "C"], Record(Swapping), [Fails(Nothing), Fails(Nothing)])
    ensures RollBack(THREE_FILES, u, 1) == (World(HALF_DONE, Record(Swapping), []), NeedsRecovery)
  {
    var v := u.(faults := [Fails(Nothing)]);
    assert u.faults[1..] == [Fails(Nothing)] && v.faults[1..] == [];
    assert Restore(v, 1, 1, false) == (v, Good, false);
    assert Restore(u, 0, 1, true) == (v, Good, false);
    var x := v.(faults := []);
    var y := World(HALF_DONE, Record(Swapping), []);
    assert x.files - {Stage(2)} == HALF_DONE;
    assert RemoveStages(x, 2, 3) == RemoveStages(y, 3, 3) == (y, Good);
    assert RemoveStages(v, 1, 3) == (y, Good);
    assert RestoreLast(y, 1, false) == (y, NeedsRecovery);
  }

  /** The first file is new, the second one staged, the third one neither. */
  const HALF_DONE: Files := map[Dest(0) := "A", Bak(0) := "a", Dest(1) := "b", Stage(1) := "B", Dest(2) := "c"]

  lemma DroppedConflicts()
    ensures var (v, a) := Recover(THREE_FILES, World(HALF_DONE, Record(Swapping), []));
      NoLoss(THREE_FILES, HALF_DONE) && a.Conflict? && v.files != HALF_DONE
  {
    hide Recover, NoLoss;
    var t, files := THREE_FILES, HALF_DONE;
    assert AllKept(t, files) by {
      assert Kept(t, files, 0) && Kept(t, files, 1) && Kept(t, files, 2);
    }
    KeptNoLoss(t, files);
    RecoverExact(t, World(files, Record(Swapping), []));
    assert IsNew(t, files, 0) && !IsNew(t, files, 1) && !IsNew(t, files, 2);
  }
}
