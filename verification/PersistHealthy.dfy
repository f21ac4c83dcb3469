/** What the commit achieves when the disk works: it installs every file and cleans up. */
module PersistHealthy {
  import opened Persist
  import opened PersistFacts

  predicate Healthy(w: World) {
    w.faults == []
  }

  /** No artifact of files `i..n` is left. */
  predicate NoArtifacts(files: Files, i: nat, n: nat) {
    forall k: nat {:trigger Stage(k)} :: i <= k < n ==> Stage(k) !in files && Bak(k) !in files
  }

  lemma {:induction false} CheckHealthy(t: Tx, w: World, i: nat)
    requires Paired(t) && Healthy(w) && i <= |t.before| && AllBefore(t, w.files)
    ensures CheckFrom(t, w, i) == (w, Good)
    decreases |t.before| - i
  {
    if i < |t.before| {
      CheckHealthy(t, w, i + 1);
    }
  }

  /** Files below `k` are swapped and have no staged copy left. */
  predicate Clear(t: Tx, files: Files, k: nat)
    requires Paired(t)
  {
    Swapped(t, files, k) && forall i: nat {:trigger Stage(i)} :: i < k && i < |t.before| ==> Stage(i) !in files
  }

  lemma {:induction false} StageHealthy(t: Tx, w: World, k: nat)
    requires Paired(t) && Healthy(w) && k <= |t.before| && Staging(t, w.files, k)
    ensures var (v, o) := StageFrom(t, w, k);
      o.Complete? && v.journal.NoJournal? && AllAfter(t, v.files) && NoArtifacts(v.files, 0, |t.before|)
    decreases |t.before| - k
  {
    if k < |t.before| {
      CreateStages(t, w, k);
      assert Dest(k) == Dest(k);
      StageHealthy(t, Create(w, Stage(k), t.after[k]).0, k + 1);
    } else {
      StagingBefore(t, w.files, k);
      SwapHealthy(t, World(w.files, Record(Swapping), []), 0);
    }
  }

  lemma SwapOne(t: Tx, w: World, k: nat)
    requires Paired(t) && Healthy(w) && k < |t.before| && Clear(t, w.files, k)
    ensures var (v, io) := Rename(w, Dest(k), Bak(k));
      var (u, jo) := Rename(v, Stage(k), Dest(k));
      io.Good? && jo.Good? && Healthy(u) && u.journal == w.journal && Clear(t, u.files, k + 1)
  {
    var (v, io) := Rename(w, Dest(k), Bak(k));
    assert Dest(k) == Dest(k);
    RenameFirst(t, w, k);
    RenameSecond(t, v, k);
    var u := Rename(v, Stage(k), Dest(k)).0;
    forall i: nat {:trigger Stage(i)} | i < k + 1 && i < |t.before|
      ensures Stage(i) !in u.files
    {
    }
  }

  lemma {:induction false} SwapHealthy(t: Tx, w: World, k: nat)
    requires Paired(t) && Healthy(w) && k <= |t.before| && Clear(t, w.files, k)
    ensures var (v, o) := SwapFrom(t, w, k);
      o.Complete? && v.journal.NoJournal? && AllAfter(t, v.files) && NoArtifacts(v.files, 0, |t.before|)
    decreases |t.before| - k
  {
    hide Clear, Swapped, Rename;
    if k < |t.before| {
      SwapOne(t, w, k);
      var u := Rename(Rename(w, Dest(k), Bak(k)).0, Stage(k), Dest(k)).0;
      SwapHealthy(t, World(u.files, Record(Swapping), []), k + 1);
    } else {
      ClearDone(t, w.files);
      BaksHealthy(t, w, 0, true);
    }
  }

  lemma ClearDone(t: Tx, files: Files)
    requires Paired(t) && Clear(t, files, |t.before|)
    ensures AllAfter(t, files) && forall i: nat :: i < |t.before| ==> Bak(i) in files && Stage(i) !in files
  {
    forall i: nat | i < |t.before|
      ensures Bak(i) in files && Stage(i) !in files && Holds(files, Dest(i), t.after[i])
    {
      assert Dest(i) == Dest(i);
    }
  }

  /** Every backup of `i..n` exists, so every removal works. */
  lemma {:induction false} BaksHealthy(t: Tx, w: World, i: nat, ok: bool)
    requires Paired(t) && Healthy(w) && i <= |t.before| && AllAfter(t, w.files)
    requires forall k: nat :: k < |t.before| ==> Stage(k) !in w.files && (Bak(k) in w.files <==> i <= k)
    ensures var (v, io, r) := RemoveBaks(w, i, |t.before|, ok);
      io.Good? && r == ok && Healthy(v) && AllAfter(t, v.files) && NoArtifacts(v.files, 0, |t.before|)
    decreases |t.before| - i
  {
    if i < |t.before| {
      var (v, io) := Remove(w, Bak(i));
      assert AllAfter(t, v.files);
      BaksHealthy(t, v, i + 1, ok && io.Good?);
    }
  }

  /** On a working disk a validated transaction installs every file and leaves nothing behind. */
  lemma PersistCompletes(t: Tx, w: World)
    requires Paired(t) && Healthy(w) && Pristine(t, w) && AllBefore(t, w.files)
    ensures var (v, o) := PersistTx(t, w); o.Complete? && AllAfter(t, v.files) && Pristine(t, v)
  {
    CheckHealthy(t, w, 0);
    PristineStaging(t, w);
    StageHealthy(t, World(w.files, Record(Prepared), []), 0);
    var v := PersistTx(t, w).0;
    forall i: nat | i < |t.before|
      ensures Stage(i) !in v.files && Bak(i) !in v.files
    {
      assert Stage(i) == Stage(i);
    }
  }

  // ---------- recovery ----------

  lemma {:induction false} BothHealthy(w: World, i: nat, n: nat)
    requires Healthy(w) && i <= n && NoArtifacts(w.files, 0, i)
    ensures var (v, io) := RemoveBoth(w, i, n);
      io.Good? && Healthy(v) && v.journal == w.journal && NoArtifacts(v.files, 0, n)
    decreases n - i
  {
    if i < n {
      BothHealthy(Remove(Remove(w, Stage(i)).0, Bak(i)).0, i + 1, n);
    }
  }
}
