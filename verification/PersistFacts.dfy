/** Crash safety of the journaled commit: what its answers mean and that no bytes are lost, for
    every schedule of faults, every crash and every crash inside recovery. */
module PersistFacts {
  import opened Wrappers
  import opened Persist

  // ---------- states of the files ----------

  predicate Holds(files: Files, p: Path, b: Bytes) {
    p in files && files[p] == b
  }

  predicate AllBefore(t: Tx, files: Files) {
    forall i :: 0 <= i < |t.before| ==> Holds(files, Dest(i), t.before[i])
  }

  predicate AllAfter(t: Tx, files: Files) {
    forall i :: 0 <= i < |t.after| ==> Holds(files, Dest(i), t.after[i])
  }

  /** The original bytes of file `i` are at its path or at its backup. */
  predicate Kept(t: Tx, files: Files, i: nat)
    requires i < |t.before|
  {
    Holds(files, Dest(i), t.before[i]) || Holds(files, Bak(i), t.before[i])
  }

  /** Nothing is lost: every file holds its new bytes, or every original is still there. */
  predicate NoLoss(t: Tx, files: Files) {
    AllAfter(t, files) || forall i {:trigger Kept(t, files, i)} :: 0 <= i < |t.before| ==> Kept(t, files, i)
  }

  /** No backup of the transaction exists. */
  predicate NoBaks(t: Tx, files: Files) {
    forall i: nat {:trigger Bak(i)} :: i < |t.before| ==> Bak(i) !in files
  }

  /** Every file is original, and none of them counts as new. */
  predicate Untouched(t: Tx, files: Files)
    requires Paired(t)
  {
    forall i: nat {:trigger Dest(i)} :: i < |t.before| ==>
      Holds(files, Dest(i), t.before[i]) && !Holds(files, Dest(i), t.after[i])
  }

  /** Every file really changes. */
  predicate Changes(t: Tx) {
    forall i :: 0 <= i < |t.before| && i < |t.after| ==> t.before[i] != t.after[i]
  }

  /** No artifact of the transaction exists. */
  predicate Pristine(t: Tx, w: World) {
    w.journal.NoJournal? && forall i: nat :: i < |t.before| ==> Stage(i) !in w.files && Bak(i) !in w.files
  }

  /** The destinations and backups are the same in both. */
  ghost predicate SameLive(f: Files, g: Files) {
    forall i: nat :: SameFile(f, g, Dest(i)) && SameFile(f, g, Bak(i))
  }

  predicate SameFile(f: Files, g: Files, p: Path) {
    (p in f <==> p in g) && (p in f ==> g[p] == f[p])
  }

  /** The destinations are the same in both. */
  ghost predicate SameDests(f: Files, g: Files) {
    forall i: nat :: SameFile(f, g, Dest(i))
  }

  lemma KeptSame(t: Tx, f: Files, g: Files)
    requires SameLive(f, g) && Paired(t)
    ensures AllBefore(t, f) == AllBefore(t, g) && AllAfter(t, f) == AllAfter(t, g) && (NoLoss(t, f) ==> NoLoss(t, g))
  {
    if !AllAfter(t, f) && NoLoss(t, f) {
      forall i | 0 <= i < |t.before|
        ensures Kept(t, g, i)
      {
        assert Kept(t, f, i);
      }
    }
  }

  // ---------- cleaning up ----------

  lemma {:induction false} RemoveStagesLive(w: World, i: nat, n: nat)
    requires i <= n
    ensures SameLive(w.files, RemoveStages(w, i, n).0.files) && RemoveStages(w, i, n).0.journal == w.journal
    decreases n - i
  {
    if i < n {
      RemoveStagesLive(Remove(w, Stage(i)).0, i + 1, n);
    }
  }

  lemma {:induction false} RemoveBothDests(w: World, i: nat, n: nat)
    requires i <= n
    ensures SameDests(w.files, RemoveBoth(w, i, n).0.files)
    decreases n - i
  {
    if i < n {
      var (v, io) := Remove(w, Stage(i));
      RemoveBothDests(Remove(v, Bak(i)).0, i + 1, n);
    }
  }

  lemma {:induction false} RemoveBaksDests(w: World, i: nat, n: nat, ok: bool)
    requires i <= n
    ensures SameDests(w.files, RemoveBaks(w, i, n, ok).0.files)
    decreases n - i
  {
    if i < n {
      var (v, io) := Remove(w, Bak(i));
      RemoveBaksDests(v, i + 1, n, ok && io.Good?);
    }
  }

  lemma DestsKeep(t: Tx, f: Files, g: Files)
    requires SameDests(f, g) && Paired(t)
    ensures AllBefore(t, f) == AllBefore(t, g) && AllAfter(t, f) == AllAfter(t, g)
    ensures AllBefore(t, f) ==> NoLoss(t, g)
  {
    if AllBefore(t, f) {
      forall i | 0 <= i < |t.before|
        ensures Kept(t, g, i)
      {
      }
    }
  }

  // ---------- the commit ----------

  /** Files below `k` are swapped, the others untouched and staged. */
  predicate Swapped(t: Tx, files: Files, k: nat)
    requires Paired(t)
  {
    forall i: nat {:trigger Dest(i)} {:trigger SwappedAt(t, files, k, i)} ::
      i < |t.before| ==> SwappedAt(t, files, k, i)
  }

  predicate SwappedAt(t: Tx, files: Files, k: nat, i: nat)
    requires Paired(t) && i < |t.before|
  {
    if i < k then Holds(files, Dest(i), t.after[i]) && Holds(files, Bak(i), t.before[i])
    else Holds(files, Dest(i), t.before[i]) && Holds(files, Stage(i), t.after[i]) && Bak(i) !in files
  }

  /** As `Swapped`, but file `k` may have been moved to its backup. */
  predicate Broken(t: Tx, files: Files, k: nat)
    requires Paired(t)
  {
    forall i: nat {:trigger Dest(i)} {:trigger BrokenAt(t, files, k, i)} :: i < |t.before| ==> BrokenAt(t, files, k, i)
  }

  predicate BrokenAt(t: Tx, files: Files, k: nat, i: nat)
    requires Paired(t) && i < |t.before|
  {
    if i < k then Holds(files, Dest(i), t.after[i]) && Holds(files, Bak(i), t.before[i])
    else if i == k then
      (Holds(files, Dest(i), t.before[i]) && Bak(i) !in files) ||
        (Dest(i) !in files && Holds(files, Bak(i), t.before[i]))
    else Holds(files, Dest(i), t.before[i]) && Bak(i) !in files
  }

  lemma BrokenNoLoss(t: Tx, files: Files, k: nat)
    requires Paired(t) && Broken(t, files, k)
    ensures NoLoss(t, files)
  {
    forall i | 0 <= i < |t.before|
      ensures Kept(t, files, i)
    {
      assert BrokenAt(t, files, k, i);
    }
  }

  lemma SwappedBroken(t: Tx, files: Files, k: nat)
    requires Paired(t) && Swapped(t, files, k)
    ensures Broken(t, files, k)
  {
    forall i: nat | i < |t.before|
      ensures BrokenAt(t, files, k, i)
    {
      assert SwappedAt(t, files, k, i);
    }
  }

  lemma SwappedAll(t: Tx, files: Files)
    requires Paired(t) && Swapped(t, files, |t.before|)
    ensures AllAfter(t, files)
  {
    forall i | 0 <= i < |t.after|
      ensures Holds(files, Dest(i), t.after[i])
    {
      assert SwappedAt(t, files, |t.before|, i);
    }
  }

  /** During the restore loop: below `j` each file is restored or still swapped. */
  predicate Restoring(t: Tx, files: Files, j: nat, k: nat, ok: bool)
    requires Paired(t)
  {
    forall i: nat {:trigger Dest(i)} {:trigger RestoringAt(t, files, j, k, ok, i)} :: i < |t.before| ==>
      RestoringAt(t, files, j, k, ok, i)
  }

  predicate RestoringAt(t: Tx, files: Files, j: nat, k: nat, ok: bool, i: nat)
    requires Paired(t) && i < |t.before|
  {
    if i < j then
      (Holds(files, Dest(i), t.before[i]) && Bak(i) !in files) ||
      (!ok && Holds(files, Dest(i), t.after[i]) && Holds(files, Bak(i), t.before[i]))
    else BrokenAt(t, files, k, i)
  }

  lemma RestoringNoLoss(t: Tx, files: Files, j: nat, k: nat, ok: bool)
    requires Paired(t) && Restoring(t, files, j, k, ok)
    ensures NoLoss(t, files)
  {
    forall i | 0 <= i < |t.before|
      ensures Kept(t, files, i)
    {
      assert RestoringAt(t, files, j, k, ok, i);
    }
  }

  lemma RestoringSame(t: Tx, f: Files, g: Files, j: nat, k: nat, ok: bool)
    requires Paired(t) && Restoring(t, f, j, k, ok) && SameLive(f, g)
    ensures Restoring(t, g, j, k, ok)
  {
    forall i: nat | i < |t.before|
      ensures RestoringAt(t, g, j, k, ok, i)
    {
      assert SameFile(f, g, Dest(i)) && SameFile(f, g, Bak(i)) && RestoringAt(t, f, j, k, ok, i);
    }
  }

  lemma {:induction false} RestoreWorks(t: Tx, w: World, j: nat, k: nat, ok: bool)
    requires Paired(t) && j <= k < |t.before| && Restoring(t, w.files, j, k, ok)
    ensures var (v, io, good) := Restore(w, j, k, ok);
      v.journal == w.journal && NoLoss(t, v.files) && (!io.Dead? ==> Restoring(t, v.files, k, k, good))
    decreases k - j
  {
    if j == k {
      RestoringNoLoss(t, w.files, j, k, ok);
    } else {
      var (v, io) := Rename(w, Bak(j), Dest(j));
      RestoreOne(t, w, j, k, ok);
      RestoringNoLoss(t, v.files, if io.Dead? then j else j + 1, k, ok && io.Good?);
      if !io.Dead? {
        RestoreWorks(t, v, j + 1, k, ok && io.Good?);
      }
    }
  }

  lemma RestoreOne(t: Tx, w: World, j: nat, k: nat, ok: bool)
    requires Paired(t) && j < k < |t.before| && Restoring(t, w.files, j, k, ok)
    ensures var (v, io) := Rename(w, Bak(j), Dest(j));
      v.journal == w.journal && Restoring(t, v.files, if io.Dead? then j else j + 1, k, ok && io.Good?)
  {
    var (v, io) := Rename(w, Bak(j), Dest(j));
    var j1, ok1 := if io.Dead? then j else j + 1, ok && io.Good?;
    assert RestoringAt(t, w.files, j, k, ok, j);
    forall i: nat | i < |t.before|
      ensures RestoringAt(t, v.files, j1, k, ok1, i)
    {
      assert RestoringAt(t, w.files, j, k, ok, i);
      assert i != j ==> SameFile(w.files, v.files, Dest(i)) && SameFile(w.files, v.files, Bak(i));
    }
  }

  /** Where the probe for file `k`'s backup happens. */
  function AtProbe(t: Tx, w: World, k: nat): World
    requires Paired(t) && k < |t.before|
  {
    RemoveStages(Restore(w, 0, k, true).0, k, |t.before|).0
  }

  /** The rollback looked for the backup and was told it does not exist, although it does. */
  predicate Misled(t: Tx, w: World, k: nat)
    requires Paired(t) && k < |t.before|
  {
    var p := AtProbe(t, w, k);
    Bak(k) in p.files && !Take(p).1.Fine?
  }

  /** A rollback never loses bytes; reporting itself complete, it is complete exactly when the
      probe for the last backup did not fail on an existing backup. */
  lemma RollBackExact(t: Tx, w: World, k: nat)
    requires Paired(t) && k < |t.before| && Broken(t, w.files, k)
    ensures var (v, o) := RollBack(t, w, k);
      NoLoss(t, v.files) && o in {Undone, NeedsRecovery, Died} &&
      (o.Undone? ==> (AllBefore(t, v.files) <==> !Misled(t, w, k)) && (AllBefore(t, v.files) <==> NoBaks(t, v.files)) &&
                     (AllBefore(t, v.files) || Dest(k) !in v.files)) &&
      (o.NeedsRecovery? ==> v.journal == w.journal)
  {
    BrokenRestoring(t, w.files, k);
    RestoreWorks(t, w, 0, k, true);
    var (v, io, ok) := Restore(w, 0, k, true);
    if !io.Dead? {
      RemoveStagesLive(v, k, |t.before|);
      var (u, jo) := RemoveStages(v, k, |t.before|);
      KeptSame(t, v.files, u.files);
      if !jo.Dead? {
        RestoringSame(t, v.files, u.files, k, k, ok);
        RestoreLastExact(t, u, k, ok);
      }
    }
  }

  /** A restore that did not work leaves some file new. */
  lemma {:induction false} RestoreLeavesNew(t: Tx, w: World, j: nat, k: nat, ok: bool)
    requires Paired(t) && j <= k < |t.before| && Restoring(t, w.files, j, k, ok)
    ensures var (v, io, good) := Restore(w, j, k, ok);
      && (forall i: nat {:trigger Dest(i)} :: i < j || k <= i ==> SameFile(w.files, v.files, Dest(i)))
      && (!io.Dead? && ok && !good ==>
        exists i: nat {:trigger Dest(i)} :: j <= i < k && Holds(v.files, Dest(i), t.after[i]))
    decreases k - j
  {
    if j < k {
      var (v, io) := Rename(w, Bak(j), Dest(j));
      assert RestoringAt(t, w.files, j, k, ok, j);
      RestoreOne(t, w, j, k, ok);
      if !io.Dead? {
        RestoreLeavesNew(t, v, j + 1, k, ok && io.Good?);
        var u := Restore(v, j + 1, k, ok && io.Good?).0;
        assert SameFile(v.files, u.files, Dest(j));
        if !io.Good? {
          assert Holds(u.files, Dest(j), t.after[j]);
        }
      }
    }
  }

  /** A rollback that asks for recovery did not bring every file back. */
  lemma IncompleteRollBack(t: Tx, w: World, k: nat)
    requires Paired(t) && Changes(t) && k < |t.before| && Broken(t, w.files, k)
    ensures var (v, o) := RollBack(t, w, k); o.NeedsRecovery? ==> !AllBefore(t, v.files)
  {
    hide Broken, Restoring, Restore, RemoveStages;
    BrokenRestoring(t, w.files, k);
    RestoreWorks(t, w, 0, k, true);
    RestoreLeavesNew(t, w, 0, k, true);
    var (v, io, ok) := Restore(w, 0, k, true);
    if !io.Dead? {
      RemoveStagesLive(v, k, |t.before|);
      var (u, jo) := RemoveStages(v, k, |t.before|);
      if !jo.Dead? {
        RestoringSame(t, v.files, u.files, k, k, ok);
        if !ok {
          var i: nat :| i < k && Holds(v.files, Dest(i), t.after[i]);
          assert SameFile(v.files, u.files, Dest(i));
          NewRemains(t, u, k, i, ok);
        } else {
          LastFails(t, u, k);
        }
      }
    }
  }

  lemma NewRemains(t: Tx, w: World, k: nat, i: nat, ok: bool)
    requires Paired(t) && Changes(t) && i < k < |t.before| && Holds(w.files, Dest(i), t.after[i])
    ensures !AllBefore(t, RestoreLast(w, k, ok).0.files)
  {
    var v := RestoreLast(w, k, ok).0;
    assert SameFile(w.files, v.files, Dest(i));
    assert !Holds(v.files, Dest(i), t.before[i]);
  }

  lemma LastFails(t: Tx, w: World, k: nat)
    requires Paired(t) && k < |t.before| && Restoring(t, w.files, k, k, true)
    ensures var (v, o) := RestoreLast(w, k, true); o.NeedsRecovery? ==> !AllBefore(t, v.files)
  {
    assert RestoringAt(t, w.files, k, k, true, k);
    var (v, o) := RestoreLast(w, k, true);
    if o.NeedsRecovery? {
      assert Dest(k) !in v.files;
    }
  }

  lemma BrokenRestoring(t: Tx, files: Files, k: nat)
    requires Paired(t) && Broken(t, files, k)
    ensures Restoring(t, files, 0, k, true)
  {
    forall i: nat | i < |t.before|
      ensures RestoringAt(t, files, 0, k, true, i)
    {
      assert BrokenAt(t, files, k, i);
    }
  }

  lemma RestoreLastExact(t: Tx, w: World, k: nat, ok: bool)
    requires Paired(t) && k < |t.before| && Restoring(t, w.files, k, k, ok)
    ensures var (v, o) := RestoreLast(w, k, ok);
      NoLoss(t, v.files) && o in {Undone, NeedsRecovery, Died} &&
      (o.Undone? ==> (AllBefore(t, v.files) <==> !(Bak(k) in w.files && !Take(w).1.Fine?)) &&
                     (AllBefore(t, v.files) <==> NoBaks(t, v.files)) &&
                     (AllBefore(t, v.files) || Dest(k) !in v.files)) &&
      (o.NeedsRecovery? ==> v.journal == w.journal)
  {
    RestoringNoLoss(t, w.files, k, k, ok);
    var (v, f) := Take(w);
    if f.Fine? && Bak(k) in v.files {
      var (u, io) := Rename(v, Bak(k), Dest(k));
      if io.Good? {
        LastRestored(t, w.files, u.files, k, ok);
      }
    } else {
      LastLeft(t, w.files, k, ok);
    }
  }

  lemma LastRestored(t: Tx, f: Files, g: Files, k: nat, ok: bool)
    requires Paired(t) && k < |t.before| && Restoring(t, f, k, k, ok)
    requires Bak(k) in f && g == (f - {Bak(k)})[Dest(k) := f[Bak(k)]]
    ensures NoLoss(t, g) && (ok ==> AllBefore(t, g) && NoBaks(t, g))
  {
    forall i | 0 <= i < |t.before|
      ensures Kept(t, g, i) && (ok ==> Holds(g, Dest(i), t.before[i]) && Bak(i) !in g)
    {
      assert RestoringAt(t, f, k, k, ok, i);
      assert i != k ==> SameFile(f, g, Dest(i)) && SameFile(f, g, Bak(i));
    }
  }

  lemma LastLeft(t: Tx, f: Files, k: nat, ok: bool)
    requires Paired(t) && k < |t.before| && Restoring(t, f, k, k, ok)
    ensures ok ==>
      (AllBefore(t, f) <==> Bak(k) !in f) && (NoBaks(t, f) <==> Bak(k) !in f) && (AllBefore(t, f) || Dest(k) !in f)
  {
    if ok {
      assert RestoringAt(t, f, k, k, ok, k);
      forall i: nat {:trigger Bak(i)} | i < |t.before| && i != k
        ensures Bak(i) !in f
      {
        assert RestoringAt(t, f, k, k, ok, i);
      }
      if Bak(k) !in f {
        forall i | 0 <= i < |t.before|
          ensures Holds(f, Dest(i), t.before[i])
        {
          assert RestoringAt(t, f, k, k, ok, i);
        }
      }
    }
  }

  lemma RenameFirst(t: Tx, w: World, k: nat)
    requires Paired(t) && k < |t.before| && Swapped(t, w.files, k)
    ensures var (v, io) := Rename(w, Dest(k), Bak(k));
      v.journal == w.journal && Broken(t, v.files, k) && !io.Missing? &&
      (io.Good? ==> Dest(k) !in v.files) &&
      (io.Good? ==> forall i: nat :: k <= i < |t.before| ==> Holds(v.files, Stage(i), t.after[i]))
  {
    var (v, io) := Rename(w, Dest(k), Bak(k));
    assert SwappedAt(t, w.files, k, k);
    if io.Good? {
      MovedAside(t, w.files, v.files, k);
    } else {
      SwappedBroken(t, w.files, k);
    }
  }

  lemma MovedAside(t: Tx, f: Files, g: Files, k: nat)
    requires Paired(t) && k < |t.before| && Swapped(t, f, k)
    requires Dest(k) in f && g == (f - {Dest(k)})[Bak(k) := f[Dest(k)]]
    ensures Broken(t, g, k) && forall i: nat :: k <= i < |t.before| ==> Holds(g, Stage(i), t.after[i])
  {
    assert SwappedAt(t, f, k, k);
    forall i: nat | i < |t.before|
      ensures BrokenAt(t, g, k, i)
      ensures k <= i ==> Holds(g, Stage(i), t.after[i])
    {
      assert SwappedAt(t, f, k, i) && SameFile(f, g, Stage(i));
      assert i != k ==> SameFile(f, g, Dest(i)) && SameFile(f, g, Bak(i));
    }
  }

  lemma RenameSecond(t: Tx, w: World, k: nat)
    requires Paired(t) && k < |t.before| && Broken(t, w.files, k) && Dest(k) !in w.files
    requires forall i: nat :: k <= i < |t.before| ==> Holds(w.files, Stage(i), t.after[i])
    ensures var (v, io) := Rename(w, Stage(k), Dest(k));
      v.journal == w.journal && !io.Missing? && (if io.Good? then Swapped(t, v.files, k + 1) else Broken(t, v.files, k))
  {
    hide Broken, Swapped;
    var (v, io) := Rename(w, Stage(k), Dest(k));
    if io.Good? {
      MovedIn(t, w.files, v.files, k);
    }
  }

  lemma MovedIn(t: Tx, f: Files, g: Files, k: nat)
    requires Paired(t) && k < |t.before| && Broken(t, f, k) && Dest(k) !in f
    requires forall i: nat :: k <= i < |t.before| ==> Holds(f, Stage(i), t.after[i])
    requires Stage(k) in f && g == (f - {Stage(k)})[Dest(k) := f[Stage(k)]]
    ensures Swapped(t, g, k + 1)
  {
    forall i: nat {:trigger Dest(i)} | i < |t.before|
      ensures SwappedAt(t, g, k + 1, i)
    {
      assert BrokenAt(t, f, k, i) && SameFile(f, g, Bak(i));
      assert i != k ==> SameFile(f, g, Dest(i)) && SameFile(f, g, Stage(i));
    }
  }

  /** What the end of the commit phase says about the files. */
  ghost predicate Faithful(t: Tx, w: World, o: Outcome) {
    match o
    case Complete => AllAfter(t, w.files)
    case Uncleaned => AllAfter(t, w.files)
    case NeedsRecovery => NoLoss(t, w.files) && !w.journal.NoJournal?
    case Undone => NoLoss(t, w.files) && (AllBefore(t, w.files) <==> NoBaks(t, w.files))
    case Died => NoLoss(t, w.files)
    case Refused => false
    case StagingFailed => false
  }

  lemma {:induction false} SwapSafe(t: Tx, w: World, k: nat)
    requires Paired(t) && k <= |t.before| && Swapped(t, w.files, k) && !w.journal.NoJournal?
    ensures var (v, o) := SwapFrom(t, w, k); Faithful(t, v, o)
    decreases |t.before| - k
  {
    hide Swapped, Broken, NoLoss, AllAfter, AllBefore, NoBaks, Rename, WriteJournal, RollBack, Finalize, Misled;
    if k == |t.before| {
      SwappedAll(t, w.files);
      FinalizeSafe(t, w);
    } else {
      RenameFirst(t, w, k);
      var (v, io) := Rename(w, Dest(k), Bak(k));
      BrokenNoLoss(t, v.files, k);
      if io.Error? {
        RollBackExact(t, v, k);
      } else if io.Good? {
        RenameSecond(t, v, k);
        var (u, jo) := Rename(v, Stage(k), Dest(k));
        if jo.Good? {
          SwappedBroken(t, u.files, k + 1);
          BrokenNoLoss(t, u.files, k + 1);
          JournalKeeps(u, Record(Swapping));
          var x := WriteJournal(u, Record(Swapping)).0;
          SwapSafe(t, x, k + 1);
        } else {
          BrokenNoLoss(t, u.files, k);
          if jo.Error? {
            RollBackExact(t, u, k);
          }
        }
      }
    }
  }

  /** Journal writes leave the files alone and never remove the journal. */
  lemma JournalKeeps(w: World, j: Journal)
    requires !j.NoJournal?
    ensures var (v, io) := WriteJournal(w, j);
      v.files == w.files && !io.Missing? && (!w.journal.NoJournal? || io.Good? ==> !v.journal.NoJournal?)
  {
  }

  lemma FinalizeSafe(t: Tx, w: World)
    requires Paired(t) && AllAfter(t, w.files)
    ensures var (v, o) := Finalize(t, w); AllAfter(t, v.files) && NoLoss(t, v.files) && o in {Complete, Uncleaned, Died}
  {
    RemoveBaksDests(w, 0, |t.before|, true);
    DestsKeep(t, w.files, RemoveBaks(w, 0, |t.before|, true).0.files);
  }

  // ---------- staging ----------

  /** Before the commit phase: originals in place, the first `k` candidates staged. */
  predicate Staging(t: Tx, files: Files, k: nat)
    requires Paired(t)
  {
    forall i: nat {:trigger Dest(i)} {:trigger StagingAt(t, files, k, i)} ::
      i < |t.before| ==> StagingAt(t, files, k, i)
  }

  predicate StagingAt(t: Tx, files: Files, k: nat, i: nat)
    requires Paired(t) && i < |t.before|
  {
    Holds(files, Dest(i), t.before[i]) && Bak(i) !in files &&
    if i < k then Holds(files, Stage(i), t.after[i]) else Stage(i) !in files
  }

  lemma CreateStages(t: Tx, w: World, k: nat)
    requires Paired(t) && k < |t.before| && Staging(t, w.files, k)
    ensures var (v, io) := Create(w, Stage(k), t.after[k]);
      v.journal == w.journal && SameLive(w.files, v.files) && !io.Missing? && (io.Good? ==> Staging(t, v.files, k + 1))
  {
    var (v, io) := Create(w, Stage(k), t.after[k]);
    assert StagingAt(t, w.files, k, k);
    if io.Good? {
      forall i: nat {:trigger Dest(i)} | i < |t.before|
        ensures StagingAt(t, v.files, k + 1, i)
      {
        assert StagingAt(t, w.files, k, i) && SameFile(w.files, v.files, Dest(i)) && SameFile(w.files, v.files, Bak(i));
        assert i != k ==> SameFile(w.files, v.files, Stage(i));
      }
    }
  }

  lemma StagingBefore(t: Tx, files: Files, k: nat)
    requires Paired(t) && Staging(t, files, k)
    ensures AllBefore(t, files) && (k == |t.before| ==> Swapped(t, files, 0))
  {
    forall i | 0 <= i < |t.before|
      ensures Holds(files, Dest(i), t.before[i])
    {
      assert StagingAt(t, files, k, i);
    }
    if k == |t.before| {
      forall i: nat | i < |t.before|
        ensures SwappedAt(t, files, 0, i)
      {
        assert StagingAt(t, files, k, i);
      }
    }
  }

  /** A staging failure leaves every live file at its original bytes. */
  lemma {:induction false} StageSafe(t: Tx, w: World, k: nat)
    requires Paired(t) && k <= |t.before| && Staging(t, w.files, k) && !w.journal.NoJournal?
    ensures var (v, o) := StageFrom(t, w, k);
      if o.StagingFailed? then SameLive(w.files, v.files) && AllBefore(t, v.files) else Faithful(t, v, o)
    decreases |t.before| - k
  {
    hide Staging, NoLoss, AllBefore, AllAfter, Swapped, Create, SwapFrom, Broken, WriteJournal, RemoveJournal, SameLive;
    StagingBefore(t, w.files, k);
    if k == |t.before| {
      AfterStagingSafe(t, w);
    } else {
      CreateStages(t, w, k);
      var (v, io) := Create(w, Stage(k), t.after[k]);
      BeforeStays(t, w.files, v.files);
      if io.Good? {
        StageSafe(t, v, k + 1);
        var r := StageFrom(t, v, k + 1).0;
        if StageFrom(t, v, k + 1).1.StagingFailed? {
          SameLiveTrans(w.files, v.files, r.files);
        }
      } else if io.Error? {
        DropSafe(t, v);
        var u := RemoveStages(v, 0, |t.before|).0;
        SameLiveTrans(w.files, v.files, u.files);
        RemoveJournalFiles(u);
      }
    }
  }

  lemma BeforeStays(t: Tx, f: Files, g: Files)
    requires Paired(t) && AllBefore(t, f) && SameLive(f, g)
    ensures AllBefore(t, g) && NoLoss(t, g)
  {
    KeptSame(t, f, g);
    DestsKeep(t, f, g);
  }

  lemma SameLiveTrans(f: Files, g: Files, h: Files)
    requires SameLive(f, g) && SameLive(g, h)
    ensures SameLive(f, h)
  {
    forall i: nat
      ensures SameFile(f, h, Dest(i)) && SameFile(f, h, Bak(i))
    {
      assert SameFile(f, g, Dest(i)) && SameFile(f, g, Bak(i));
    }
  }

  lemma RemoveJournalFiles(w: World)
    ensures RemoveJournal(w).0.files == w.files
  {
  }

  lemma DropSafe(t: Tx, w: World)
    requires Paired(t) && AllBefore(t, w.files)
    ensures var u := RemoveStages(w, 0, |t.before|).0;
      SameLive(w.files, u.files) && AllBefore(t, u.files) && NoLoss(t, u.files)
  {
    RemoveStagesLive(w, 0, |t.before|);
    BeforeStays(t, w.files, RemoveStages(w, 0, |t.before|).0.files);
  }

  lemma AfterStagingSafe(t: Tx, w: World)
    requires Paired(t) && Staging(t, w.files, |t.before|) && !w.journal.NoJournal?
    ensures var (v, o) := AfterStaging(t, w);
      if o.StagingFailed? then SameLive(w.files, v.files) && AllBefore(t, v.files) else Faithful(t, v, o)
  {
    hide Staging, NoLoss, AllBefore, AllAfter, Swapped, SwapFrom, Broken, WriteJournal, RemoveJournal, SameLive;
    StagingBefore(t, w.files, |t.before|);
    JournalKeeps(w, Record(Staged));
    var (v, io) := WriteJournal(w, Record(Staged));
    DropSafe(t, v);
    SwappedBroken(t, w.files, 0);
    if |t.before| > 0 {
      BrokenNoLoss(t, w.files, 0);
    } else {
      EmptyNoLoss(t, w.files);
    }
    if io.Error? {
      RemoveJournalFiles(RemoveStages(v, 0, |t.before|).0);
    } else if io.Good? {
      JournalKeeps(v, Record(Swapping));
      var (u, jo) := WriteJournal(v, Record(Swapping));
      if !jo.Dead? {
        SwapSafe(t, u, 0);
      }
    }
  }

  lemma EmptyNoLoss(t: Tx, files: Files)
    requires Paired(t) && |t.before| == 0
    ensures NoLoss(t, files)
  {
  }

  lemma {:induction false} CheckExact(t: Tx, w: World, i: nat)
    requires Paired(t) && i <= |t.before|
    ensures var (v, io) := CheckFrom(t, w, i);
      v.files == w.files && v.journal == w.journal && !io.Missing? &&
      (io.Good? ==> forall k :: i <= k < |t.before| ==> Holds(w.files, Dest(k), t.before[k]))
    decreases |t.before| - i
  {
    if i < |t.before| {
      CheckExact(t, Read(w, Dest(i)).0, i + 1);
    }
  }

  // ---------- the whole transaction ----------

  /** What each answer of the transaction promises, whatever fails and wherever it dies. */
  ghost predicate Truthful(t: Tx, w: World, v: World, o: Outcome) {
    match o
    case Refused => v.files == w.files && v.journal == w.journal
    case StagingFailed => SameDests(w.files, v.files) && AllBefore(t, v.files)
    case Complete => AllAfter(t, v.files)
    case Uncleaned => AllAfter(t, v.files)
    case Undone => NoLoss(t, v.files) && (AllBefore(t, v.files) <==> NoBaks(t, v.files))
    case NeedsRecovery => NoLoss(t, v.files) && !v.journal.NoJournal?
    case Died => v.files == w.files || NoLoss(t, v.files)
  }

  /** Main result for one transaction: its answers are true, a stale file stops it before
      anything is written, and from validated files no bytes are ever lost. */
  lemma PersistTruthful(t: Tx, w: World)
    requires Paired(t) && Pristine(t, w)
    ensures var (v, o) := PersistTx(t, w);
      Truthful(t, w, v, o) &&
      (!AllBefore(t, w.files) ==> o in {Refused, Died} && v.files == w.files) &&
      (AllBefore(t, w.files) ==> NoLoss(t, v.files))
  {
    hide StageFrom, Staging, NoLoss, WriteJournal, SameLive, Swapped;
    var (v, f) := Take(w);
    if !f.Dies? {
      CheckExact(t, v, 0);
      var (u, io) := CheckFrom(t, v, 0);
      if io.Good? {
        PristineStaging(t, w);
        JournalKeeps(u, Record(Prepared));
        var (x, jo) := WriteJournal(u, Record(Prepared));
        if jo.Good? {
          StageSafe(t, x, 0);
          var r := StageFrom(t, x, 0).0;
          if StageFrom(t, x, 0).1.StagingFailed? {
            LiveDests(w.files, r.files);
            BeforeNoLoss(t, r.files);
          } else {
            FaithfulNoLoss(t, r, StageFrom(t, x, 0).1);
          }
        }
      }
    }
    if AllBefore(t, w.files) {
      BeforeNoLoss(t, w.files);
    }
  }

  lemma FaithfulNoLoss(t: Tx, w: World, o: Outcome)
    requires Faithful(t, w, o)
    ensures NoLoss(t, w.files)
  {
  }

  lemma PristineStaging(t: Tx, w: World)
    requires Paired(t) && Pristine(t, w) && AllBefore(t, w.files)
    ensures Staging(t, w.files, 0)
  {
    forall i: nat | i < |t.before|
      ensures StagingAt(t, w.files, 0, i)
    {
      assert Stage(i) !in w.files && Holds(w.files, Dest(i), t.before[i]);
    }
  }

  lemma LiveDests(f: Files, g: Files)
    requires SameLive(f, g)
    ensures SameDests(f, g)
  {
  }

  lemma BeforeNoLoss(t: Tx, files: Files)
    requires Paired(t) && AllBefore(t, files)
    ensures NoLoss(t, files)
  {
    DestsKeep(t, files, files);
  }

  // ---------- recovery ----------

  ghost predicate SortedRight(t: Tx, files: Files, pending: seq<nat>, swapped: bool, n: nat)
    requires Paired(t) && n <= |t.before|
  {
    && (forall a, b :: 0 <= a < b < |pending| ==> pending[a] < pending[b])
    && (forall i <- pending :: i < n && Holds(files, Dest(i), t.before[i]) && !Holds(files, Dest(i), t.after[i]))
    && (forall i: nat {:trigger Dest(i)} :: i < n && i !in pending ==> Holds(files, Dest(i), t.after[i]))
    && (swapped <==> exists i: nat :: i < n && i !in pending)
  }

  lemma PendingNext(t: Tx, files: Files, pending: seq<nat>, swapped: bool, i: nat)
    requires Paired(t) && i < |t.before| && SortedRight(t, files, pending, swapped, i)
    requires Holds(files, Dest(i), t.before[i]) && !Holds(files, Dest(i), t.after[i])
    ensures SortedRight(t, files, pending + [i], swapped, i + 1)
  {
    var more := pending + [i];
    assert i in more;
    assert forall a :: 0 <= a < |pending| ==> pending[a] in pending;
    assert forall k: nat :: k in more <==> k in pending || k == i;
    if swapped {
      var k: nat :| k < i && k !in pending;
      assert k !in more;
    }
  }

  lemma SwappedNext(t: Tx, files: Files, pending: seq<nat>, swapped: bool, i: nat)
    requires Paired(t) && i < |t.before| && SortedRight(t, files, pending, swapped, i)
    requires Holds(files, Dest(i), t.after[i])
    ensures SortedRight(t, files, pending, true, i + 1)
  {
    assert i !in pending;
  }

  lemma {:induction false} ClassifyExact(t: Tx, w: World, i: nat, pending: seq<nat>, swapped: bool)
    requires Paired(t) && i <= |t.before| && SortedRight(t, w.files, pending, swapped, i)
    ensures var (v, c) := Classify(t, w, i, pending, swapped);
      v.files == w.files && v.journal == w.journal &&
      (c.Sorted? ==> SortedRight(t, w.files, c.pending, c.swapped, |t.before|))
    decreases |t.before| - i
  {
    hide SortedRight;
    if i < |t.before| {
      var (v, got) := Read(w, Dest(i));
      if got == Content(t.after[i]) {
        SwappedNext(t, v.files, pending, swapped, i);
        ClassifyExact(t, v, i + 1, pending, true);
      } else if got == Content(t.before[i]) {
        PendingNext(t, v.files, pending, swapped, i);
        ClassifyExact(t, v, i + 1, pending + [i], swapped);
      }
    }
  }

  ghost predicate AllKept(t: Tx, files: Files) {
    forall i {:trigger Kept(t, files, i)} :: 0 <= i < |t.before| ==> Kept(t, files, i)
  }

  /** While finishing: the pending files still hold their originals, the rest their new bytes. */
  ghost predicate Finishing(t: Tx, files: Files, pending: seq<nat>)
    requires Paired(t)
  {
    && (forall a, b :: 0 <= a < b < |pending| ==> pending[a] < pending[b])
    && (forall i <- pending :: i < |t.before| && Holds(files, Dest(i), t.before[i]))
    && (forall i: nat {:trigger Dest(i)} :: i < |t.before| && i !in pending ==> Holds(files, Dest(i), t.after[i]))
    && AllKept(t, files)
  }

  lemma FinishOne(t: Tx, w: World, pending: seq<nat>)
    requires Paired(t) && pending != [] && pending[0] < |t.before| && Finishing(t, w.files, pending)
    requires Holds(w.files, Stage(pending[0]), t.after[pending[0]])
    ensures var i := pending[0];
      var (u, io) := Rename(w, Dest(i), Bak(i));
      AllKept(t, u.files) && u.journal == w.journal &&
      (io.Good? ==>
        var (x, jo) := Rename(u, Stage(i), Dest(i));
        AllKept(t, x.files) && x.journal == w.journal && (jo.Good? ==> Finishing(t, x.files, pending[1..])))
  {
    var i := pending[0];
    var (u, io) := Rename(w, Dest(i), Bak(i));
    OthersKept(t, w.files, u.files, i);
    if io.Good? {
      var (x, jo) := Rename(u, Stage(i), Dest(i));
      OthersKept(t, u.files, x.files, i);
      if jo.Good? {
        StillFinishing(t, w.files, x.files, pending);
      }
    }
  }

  lemma StillFinishing(t: Tx, f: Files, g: Files, pending: seq<nat>)
    requires Paired(t) && pending != [] && pending[0] < |t.before| && Finishing(t, f, pending) && AllKept(t, g)
    requires Holds(g, Dest(pending[0]), t.after[pending[0]])
    requires forall k: nat :: k != pending[0] ==> SameFile(f, g, Dest(k))
    ensures Finishing(t, g, pending[1..])
  {
    var i, rest := pending[0], pending[1..];
    forall k <- rest
      ensures k < |t.before| && Holds(g, Dest(k), t.before[k])
    {
      var a :| 0 <= a < |rest| && rest[a] == k;
      assert k in pending && pending[0] < pending[a + 1];
      assert SameFile(f, g, Dest(k));
    }
    forall k: nat {:trigger Dest(k)} | k < |t.before| && k !in rest
      ensures Holds(g, Dest(k), t.after[k])
    {
      if k != i {
        assert k !in pending && SameFile(f, g, Dest(k));
      }
    }
  }

  lemma OthersKept(t: Tx, f: Files, g: Files, i: nat)
    requires i < |t.before| && AllKept(t, f) && Kept(t, g, i)
    requires forall k: nat :: k != i ==> SameFile(f, g, Dest(k)) && SameFile(f, g, Bak(k))
    ensures AllKept(t, g)
  {
    forall k | 0 <= k < |t.before|
      ensures Kept(t, g, k)
    {
      assert Kept(t, f, k);
    }
  }

  lemma KeptNoLoss(t: Tx, files: Files)
    requires AllKept(t, files)
    ensures NoLoss(t, files)
  {
  }

  lemma {:induction false} FinishSafe(t: Tx, w: World, pending: seq<nat>)
    requires Paired(t) && Finishing(t, w.files, pending) && forall k <- pending :: k < |t.before|
    ensures var (v, a) := FinishSwaps(t, w, pending);
      NoLoss(t, v.files) && a in {Committed, Conflict, RecoveryDied} && (a.Committed? ==> AllAfter(t, v.files))
    decreases |pending|
  {
    hide NoLoss, AllKept, AllAfter, Finishing;
    FinishingFacts(t, w.files, pending);
    if pending == [] {
      FinishCleanSafe(t, w);
    } else {
      var i := pending[0];
      assert i in pending;
      var (v, got) := Read(w, Stage(i));
      if got == Content(t.after[i]) {
        FinishOne(t, v, pending);
        var (u, io) := Rename(v, Dest(i), Bak(i));
        KeptNoLoss(t, u.files);
        if io.Good? {
          var (x, jo) := Rename(u, Stage(i), Dest(i));
          KeptNoLoss(t, x.files);
          if jo.Good? {
            FinishSafe(t, WriteJournal(x, Record(Swapping)).0, pending[1..]);
          }
        }
      }
    }
  }

  lemma FinishingFacts(t: Tx, files: Files, pending: seq<nat>)
    requires Paired(t) && Finishing(t, files, pending)
    ensures NoLoss(t, files) && (pending == [] ==> AllAfter(t, files))
  {
    KeptNoLoss(t, files);
    if pending == [] {
      forall i | 0 <= i < |t.after|
        ensures Holds(files, Dest(i), t.after[i])
      {
        assert Dest(i) == Dest(i);
      }
    }
  }

  lemma FinishCleanSafe(t: Tx, w: World)
    requires Paired(t) && AllAfter(t, w.files)
    ensures var (v, a) := FinishClean(t, w);
      NoLoss(t, v.files) && a in {Committed, RecoveryDied} && AllAfter(t, v.files)
  {
    RemoveBaksDests(w, 0, |t.before|, true);
    DestsKeep(t, w.files, RemoveBaks(w, 0, |t.before|, true).0.files);
  }

  lemma CleanUpSafe(t: Tx, w: World, answer: Answer)
    requires Paired(t) && (AllBefore(t, w.files) || AllAfter(t, w.files))
    ensures var (v, a) := CleanUp(t, w, answer);
      NoLoss(t, v.files) && a in {answer, RecoveryDied} &&
      AllBefore(t, v.files) == AllBefore(t, w.files) && AllAfter(t, v.files) == AllAfter(t, w.files) &&
      (Untouched(t, w.files) ==> Untouched(t, v.files))
  {
    RemoveBothDests(w, 0, |t.before|);
    DestsKeep(t, w.files, RemoveBoth(w, 0, |t.before|).0.files);
  }

  /** Main result for one recovery: true answers, nothing lost, and a finished commit stays
      finished, whatever fails and wherever the recovery itself dies. */
  lemma RecoverTruthful(t: Tx, w: World)
    requires Paired(t) && NoLoss(t, w.files)
    ensures var (v, a) := Recover(t, w);
      NoLoss(t, v.files) &&
      (a.Committed? ==> AllAfter(t, v.files)) &&
      (a.RolledBack? ==> AllBefore(t, v.files)) &&
      (a.RolledBack? ==> Untouched(t, v.files)) &&
      (AllAfter(t, w.files) ==> AllAfter(t, v.files)) &&
      (0 < |t.before| && Untouched(t, w.files) ==> Untouched(t, v.files))
  {
    hide CleanUp, FinishSwaps, Classify, AllBefore, AllAfter, NoLoss, Untouched;
    var (v0, f) := Take(w);
    var (v, g) := Take(v0);
    if !f.Dies? && !f.Fails? && !v0.journal.NoJournal? && g.Fine? && v.journal.Record? {
      SortedNone(t, v.files);
      ClassifyExact(t, v, 0, [], false);
      var (u, c) := Classify(t, v, 0, [], false);
      if c.Sorted? {
        SortedMeans(t, u.files, c.pending, c.swapped);
        if c.pending == [] {
          CleanUpSafe(t, u, Committed);
        } else if c.swapped {
          FinishSafe(t, u, c.pending);
        } else {
          CleanUpSafe(t, u, RolledBack);
        }
      }
    }
  }

  lemma SortedNone(t: Tx, files: Files)
    requires Paired(t)
    ensures SortedRight(t, files, [], false, 0)
  {
  }

  lemma SwappedTouched(t: Tx, files: Files, pending: seq<nat>)
    requires Paired(t) && SortedRight(t, files, pending, true, |t.before|)
    ensures !Untouched(t, files)
  {
    var i: nat :| i < |t.before| && i !in pending;
    assert Dest(i) == Dest(i);
  }

  lemma SortedMeans(t: Tx, files: Files, pending: seq<nat>, swapped: bool)
    requires Paired(t) && NoLoss(t, files) && SortedRight(t, files, pending, swapped, |t.before|)
    ensures pending == [] ==> AllAfter(t, files)
    ensures pending != [] ==> !AllAfter(t, files) && Finishing(t, files, pending)
    ensures !swapped ==> AllBefore(t, files)
    ensures !swapped ==> Untouched(t, files)
    ensures Untouched(t, files) ==> !swapped && (0 < |t.before| ==> pending != [])
  {
    if swapped {
      SwappedTouched(t, files, pending);
    } else if 0 < |t.before| {
      assert 0 in pending;
    }
    forall i | 0 <= i < |t.before| && i !in pending
      ensures Holds(files, Dest(i), t.after[i])
    {
      assert Dest(i) == Dest(i);
    }
    if pending != [] {
      assert pending[0] in pending;
    }
  }

  // ---------- runs ----------

  /** The world after the first `k` recoveries, each under its own schedule of faults. */
  function AfterRecoveries(t: Tx, w: World, schedules: seq<seq<Fault>>, k: nat): World
    requires Paired(t) && k <= |schedules|
    decreases k
  {
    if k == 0 then w else Recover(t, AfterRecoveries(t, w, schedules, k - 1).(faults := schedules[k - 1])).0
  }

  function AnswerAt(t: Tx, w: World, schedules: seq<seq<Fault>>, k: nat): Answer
    requires Paired(t) && k < |schedules|
  {
    Recover(t, AfterRecoveries(t, w, schedules, k).(faults := schedules[k])).1
  }

  lemma {:induction false} RecoveriesKeep(t: Tx, w: World, schedules: seq<seq<Fault>>, k: nat)
    requires Paired(t) && k <= |schedules| && NoLoss(t, w.files)
    ensures NoLoss(t, AfterRecoveries(t, w, schedules, k).files)
    decreases k
  {
    hide NoLoss, Recover;
    if k > 0 {
      RecoveriesKeep(t, w, schedules, k - 1);
      RecoverTruthful(t, AfterRecoveries(t, w, schedules, k - 1).(faults := schedules[k - 1]));
    }
  }

  lemma {:induction false} AfterStays(t: Tx, w: World, schedules: seq<seq<Fault>>, j: nat, k: nat)
    requires Paired(t) && j <= k <= |schedules| && NoLoss(t, w.files)
    requires AllAfter(t, AfterRecoveries(t, w, schedules, j).files)
    ensures AllAfter(t, AfterRecoveries(t, w, schedules, k).files)
    decreases k - j
  {
    hide NoLoss, Recover, AllAfter;
    if j < k {
      AfterStays(t, w, schedules, j, k - 1);
      RecoveriesKeep(t, w, schedules, k - 1);
      RecoverTruthful(t, AfterRecoveries(t, w, schedules, k - 1).(faults := schedules[k - 1]));
    }
  }

  lemma {:induction false} UntouchedStays(t: Tx, w: World, schedules: seq<seq<Fault>>, j: nat, k: nat)
    requires Paired(t) && j <= k <= |schedules| && NoLoss(t, w.files)
    requires Untouched(t, AfterRecoveries(t, w, schedules, j).files)
    ensures Untouched(t, AfterRecoveries(t, w, schedules, k).files)
    decreases k - j
  {
    hide NoLoss, Recover, Untouched;
    if |t.before| == 0 {
      NothingUntouched(t, AfterRecoveries(t, w, schedules, k).files);
    } else if j < k {
      UntouchedStays(t, w, schedules, j, k - 1);
      RecoveriesKeep(t, w, schedules, k - 1);
      RecoverTruthful(t, AfterRecoveries(t, w, schedules, k - 1).(faults := schedules[k - 1]));
    }
  }

  lemma NothingUntouched(t: Tx, files: Files)
    requires Paired(t) && |t.before| == 0
    ensures Untouched(t, files)
  {
  }

  lemma UntouchedIs(t: Tx, files: Files)
    requires Paired(t)
    ensures Untouched(t, files) ==> AllBefore(t, files)
    ensures Changes(t) && AllBefore(t, files) ==> Untouched(t, files)
  {
    if Untouched(t, files) {
      forall i | 0 <= i < |t.before|
        ensures Holds(files, Dest(i), t.before[i])
      {
        assert Dest(i) == Dest(i);
      }
    }
  }

  /** Main result over whole runs: a transaction on validated files under any faults, followed
      by any number of recoveries under any faults, each of which may die anywhere. No original
      is ever lost before every file is new, and every answer is true from then on. */
  lemma {:induction false} RunsSafe(t: Tx, w: World, schedules: seq<seq<Fault>>, k: nat)
    requires Paired(t) && Pristine(t, w) && AllBefore(t, w.files) && k <= |schedules|
    ensures var v := PersistTx(t, w).0;
      NoLoss(t, AfterRecoveries(t, v, schedules, k).files) &&
      (PersistTx(t, w).1 in {Complete, Uncleaned} ==> AllAfter(t, AfterRecoveries(t, v, schedules, k).files)) &&
      (Changes(t) && AllBefore(t, v.files) ==> AllBefore(t, AfterRecoveries(t, v, schedules, k).files)) &&
      forall j: nat :: j < k ==>
        (AnswerAt(t, v, schedules, j).Committed? ==> AllAfter(t, AfterRecoveries(t, v, schedules, k).files)) &&
        (AnswerAt(t, v, schedules, j).RolledBack? ==> AllBefore(t, AfterRecoveries(t, v, schedules, k).files))
  {
    hide NoLoss, Recover, AllAfter, AllBefore, Untouched, PersistTx, Changes;
    PersistTruthful(t, w);
    var (v, o) := PersistTx(t, w);
    var last := AfterRecoveries(t, v, schedules, k).files;
    RecoveriesKeep(t, v, schedules, k);
    UntouchedIs(t, last);
    if o in {Complete, Uncleaned} {
      AfterStays(t, v, schedules, 0, k);
    }
    if Changes(t) && AllBefore(t, v.files) {
      UntouchedIs(t, v.files);
      UntouchedStays(t, v, schedules, 0, k);
    }
    forall j: nat | j < k
      ensures AnswerAt(t, v, schedules, j).Committed? ==> AllAfter(t, last)
      ensures AnswerAt(t, v, schedules, j).RolledBack? ==> AllBefore(t, last)
    {
      RecoveriesKeep(t, v, schedules, j);
      RecoverTruthful(t, AfterRecoveries(t, v, schedules, j).(faults := schedules[j]));
      if AnswerAt(t, v, schedules, j).Committed? {
        AfterStays(t, v, schedules, j + 1, k);
      }
      if AnswerAt(t, v, schedules, j).RolledBack? {
        UntouchedStays(t, v, schedules, j + 1, k);
      }
    }
  }

  // ---------- where the answers stop short ----------

  /** Where the swap loop fails, if it fails without dying: the world and the file. */
  function SwapFailure(t: Tx, w: World, i: nat): Option<(World, nat)>
    requires Paired(t) && i <= |t.before|
    decreases |t.before| - i
  {
    if i == |t.before| then None
    else
      var (v, io) := Rename(w, Dest(i), Bak(i));
      if io.Dead? then None
      else if !io.Good? then Some((v, i))
      else
        var (u, jo) := Rename(v, Stage(i), Dest(i));
        if jo.Dead? then None
        else if !jo.Good? then Some((u, i))
        else
          var (x, ko) := WriteJournal(u, Record(Swapping));
          if ko.Dead? then None else SwapFailure(t, x, i + 1)
  }

  /** The world in which the swap loop of a transaction starts, if it starts. */
  function SwapStart(t: Tx, w: World): Option<World>
    requires Paired(t)
  {
    var (u, io) := CheckFrom(t, Take(w).0, 0);
    var (x, jo) := WriteJournal(u, Record(Prepared));
    StagedWorld(t, x, 0)
  }

  function StagedWorld(t: Tx, w: World, i: nat): Option<World>
    requires Paired(t) && i <= |t.before|
    decreases |t.before| - i
  {
    if i == |t.before| then
      var (v, io) := WriteJournal(w, Record(Staged));
      var (u, jo) := WriteJournal(v, Record(Swapping));
      if io.Good? && !jo.Dead? then Some(u) else None
    else
      var (v, io) := Create(w, Stage(i), t.after[i]);
      if io.Good? then StagedWorld(t, v, i + 1) else None
  }

  /** The world and the file in which a transaction starts to roll back, if it does. */
  function RollBackPoint(t: Tx, w: World): Option<(World, nat)>
    requires Paired(t)
  {
    match SwapStart(t, w)
    case Some(x) => SwapFailure(t, x, 0)
    case None => None
  }

  /** `p` is a rollback point from which the outcome came. */
  ghost predicate RolledFrom(t: Tx, p: Option<(World, nat)>, v: World, o: Outcome)
    requires Paired(t)
  {
    p.Some? && p.value.1 < |t.before| && Broken(t, p.value.0.files, p.value.1) &&
    RollBack(t, p.value.0, p.value.1) == (v, o)
  }

  lemma {:induction false} SwapFailureIs(t: Tx, w: World, i: nat)
    requires Paired(t) && i <= |t.before| && Swapped(t, w.files, i)
    ensures var (v, o) := SwapFrom(t, w, i);
      o in {Undone, NeedsRecovery} ==> RolledFrom(t, SwapFailure(t, w, i), v, o)
    decreases |t.before| - i
  {
    hide Swapped, Broken, Rename, WriteJournal, RollBack, RemoveBaks;
    if i < |t.before| {
      RenameFirst(t, w, i);
      var (v, io) := Rename(w, Dest(i), Bak(i));
      if io.Good? {
        RenameSecond(t, v, i);
        var (u, jo) := Rename(v, Stage(i), Dest(i));
        if jo.Good? {
          JournalKeeps(u, Record(Swapping));
          SwapFailureIs(t, WriteJournal(u, Record(Swapping)).0, i + 1);
        }
      }
    }
  }

  lemma {:induction false} StagedWorldIs(t: Tx, w: World, i: nat)
    requires Paired(t) && i <= |t.before| && Staging(t, w.files, i)
    ensures var (v, o) := StageFrom(t, w, i);
      o in {Undone, NeedsRecovery} ==>
        StagedWorld(t, w, i).Some? && RolledFrom(t, SwapFailure(t, StagedWorld(t, w, i).value, 0), v, o)
    decreases |t.before| - i
  {
    hide Staging, Swapped, RollBack, Broken, Create, WriteJournal, RemoveJournal, RemoveStages, SwapFrom, SwapFailure;
    if i < |t.before| {
      CreateStages(t, w, i);
      if Create(w, Stage(i), t.after[i]).1.Good? {
        StagedWorldIs(t, Create(w, Stage(i), t.after[i]).0, i + 1);
      }
    } else {
      StagingBefore(t, w.files, i);
      JournalKeeps(w, Record(Staged));
      var v := WriteJournal(w, Record(Staged)).0;
      JournalKeeps(v, Record(Swapping));
      SwapFailureIs(t, WriteJournal(v, Record(Swapping)).0, 0);
    }
  }

  /** A transaction that rolled back did so from its rollback point. */
  lemma RollBackPointIs(t: Tx, w: World)
    requires Paired(t) && Pristine(t, w)
    ensures var (v, o) := PersistTx(t, w); o in {Undone, NeedsRecovery} ==> RolledFrom(t, RollBackPoint(t, w), v, o)
  {
    hide StageFrom, Staging, WriteJournal, RolledFrom, SwapFailure, StagedWorld;
    var (v, f) := Take(w);
    CheckExact(t, v, 0);
    var (u, io) := CheckFrom(t, v, 0);
    if !f.Dies? && io.Good? {
      PristineStaging(t, w);
      JournalKeeps(u, Record(Prepared));
      var (x, jo) := WriteJournal(u, Record(Prepared));
      if jo.Good? {
        StagedWorldIs(t, x, 0);
      }
    }
  }

  /** The "rolled back" error is true exactly when the run was not misled about the backup of the
      file that failed, and exactly when no backup is left. */
  lemma UndoneExact(t: Tx, w: World)
    requires Paired(t) && Pristine(t, w) && PersistTx(t, w).1.Undone?
    ensures var v := PersistTx(t, w).0;
      RollBackPoint(t, w).Some? && RollBackPoint(t, w).value.1 < |t.before| &&
      (AllBefore(t, v.files) <==> !Misled(t, RollBackPoint(t, w).value.0, RollBackPoint(t, w).value.1)) &&
      (AllBefore(t, v.files) <==> NoBaks(t, v.files))
  {
    hide PersistTx, RollBack, Misled, RollBackPoint;
    RollBackPointIs(t, w);
    var p := RollBackPoint(t, w).value;
    RollBackExact(t, p.0, p.1);
  }

  lemma {:induction false} MissingConflicts(t: Tx, w: World, i: nat, pending: seq<nat>, swapped: bool, k: nat)
    requires Paired(t) && i <= k < |t.before| && Dest(k) !in w.files && forall j <- pending :: j < |t.before|
    ensures var (v, c) := Classify(t, w, i, pending, swapped); v.files == w.files && !c.Sorted?
    decreases |t.before| - i
  {
    if i < k {
      var (v, got) := Read(w, Dest(i));
      MissingConflicts(t, v, i + 1, pending, true, k);
      if got == Content(t.before[i]) {
        MissingConflicts(t, v, i + 1, pending + [i], swapped, k);
      }
    }
  }

  /** A crash between `dest -> bak` and `stage -> dest` is never completed: recovery answers
      with a conflict, or not at all, and touches nothing. */
  lemma MidSwapConflicts(t: Tx, w: World, k: nat)
    requires Paired(t) && k < |t.before| && Dest(k) !in w.files
    ensures var (v, a) := Recover(t, w); v.files == w.files && a in {Clean, Conflict, RecoveryDied}
  {
    var v := Take(Take(w).0).0;
    MissingConflicts(t, v, 0, [], false, k);
  }

  const ONE_FILE := Tx(["old"], ["new"])

  /** Promoting the staged file fails, and so does the probe for the backup. */
  const MISLEADING: seq<Fault> := [Fine, Fine, Fine, Fine, Fine, Fine, Fine, Fails(Nothing), Fine, Fails(Nothing), Fine]

  /** The commit error says "rolled back" although the file is gone from its path. */
  lemma RolledBackClaimFails()
    ensures var w := World(map[Dest(0) := "old"], NoJournal, MISLEADING);
      var (v, o) := PersistTx(ONE_FILE, w);
      Pristine(ONE_FILE, w) && o.Undone? && Dest(0) !in v.files && Holds(v.files, Bak(0), "old")
  {
    hide StageFrom, SwapFrom;
    var w := World(map[Dest(0) := "old"], NoJournal, MISLEADING);
    var w1 := w.(faults := MISLEADING[1..]);
    assert MISLEADING[1..][1..] == MISLEADING[2..] && MISLEADING[2..][1..] == MISLEADING[3..];
    assert Read(w1, Dest(0)) == (w1.(faults := MISLEADING[2..]), Content("old"));
    assert CheckFrom(ONE_FILE, w1, 0) == CheckFrom(ONE_FILE, w1.(faults := MISLEADING[2..]), 1);
    MisledStaging(w.files);
  }

  lemma MisledStaging(files: Files)
    requires files == map[Dest(0) := "old"]
    ensures var (v, o) := StageFrom(ONE_FILE, World(files, Record(Prepared), MISLEADING[3..]), 0);
      o.Undone? && Dest(0) !in v.files && Holds(v.files, Bak(0), "old")
  {
    hide SwapFrom;
    var F := MISLEADING;
    var w := World(files, Record(Prepared), F[3..]);
    var staged := files[Stage(0) := "new"];
    assert F[3..][1..] == F[4..] && F[4..][1..] == F[5..] && F[5..][1..] == F[6..];
    var v := World(staged, Record(Prepared), F[4..]);
    assert Create(w, Stage(0), "new") == (v, Good);
    assert StageFrom(ONE_FILE, w, 0) == StageFrom(ONE_FILE, v, 1) == AfterStaging(ONE_FILE, v);
    assert AfterStaging(ONE_FILE, v) == SwapFrom(ONE_FILE, World(staged, Record(Swapping), F[6..]), 0);
    MisledSwap(staged, F);
  }

  lemma MisledSwap(files: Files, F: seq<Fault>)
    requires files == map[Dest(0) := "old", Stage(0) := "new"] && F == MISLEADING
    ensures var (v, o) := SwapFrom(ONE_FILE, World(files, Record(Swapping), F[6..]), 0);
      o.Undone? && Dest(0) !in v.files && Holds(v.files, Bak(0), "old")
  {
    var t := ONE_FILE;
    var w := World(files, Record(Swapping), F[6..]);
    assert F[6..][1..] == F[7..] && F[7..][1..] == F[8..] && F[8..][1..] == F[9..] && F[9..][1..] == F[10..];
    var moved := (files - {Dest(0)})[Bak(0) := "old"];
    assert Rename(w, Dest(0), Bak(0)) == (World(moved, Record(Swapping), F[7..]), Good);
    var u := World(moved, Record(Swapping), F[8..]);
    assert Rename(World(moved, Record(Swapping), F[7..]), Stage(0), Dest(0)) == (u, Error);
    assert SwapFrom(t, w, 0) == RollBack(t, u, 0);
    assert Restore(u, 0, 0, true) == (u, Good, true);
    var x := World(moved - {Stage(0)}, Record(Swapping), F[9..]);
    assert Remove(u, Stage(0)) == (x, Good);
    assert RemoveStages(u, 0, 1) == RemoveStages(x, 1, 1) == (x, Good);
    assert RestoreLast(x, 0, true) == EndRollBack(x.(faults := F[10..]), true);
  }
}
