/** The commit and its recovery as they run: steps on a disk, in loops, each step at the mercy
    of the next fault. Every method does exactly what its function in `Persist` says. */
module PersistDisk {
  import opened Persist

  lemma TailBelow(s: seq<nat>, j: nat, n: nat)
    requires j <= |s| && forall k <- s :: k < n
    ensures forall k <- s[j..] :: k < n
  {
    forall k <- s[j..]
      ensures k < n
    {
      var i :| 0 <= i < |s[j..]| && s[j..][i] == k;
      assert s[j + i] == k && k in s;
    }
  }

  class Disk {
    var files: Files
    var journal: Journal
    var faults: seq<Fault>

    constructor (files: Files, faults: seq<Fault>)
      ensures Now() == World(files, NoJournal, faults)
    {
      this.files, journal, this.faults := files, NoJournal, faults;
    }

    ghost function Now(): World
      reads this
    {
      World(files, journal, faults)
    }

    // ---------- operations ----------

    method NextFault() returns (f: Fault)
      modifies this`faults
      ensures (Now(), f) == Take(old(Now()))
    {
      f := Fine;
      if faults != [] {
        f := faults[0];
        faults := faults[1..];
      }
    }

    method RenameFile(from: Path, to: Path) returns (io: Io)
      modifies this
      ensures (Now(), io) == Rename(old(Now()), from, to)
    {
      var f := NextFault();
      if f.Dies? {
        return Dead;
      } else if f.Fails? {
        return Error;
      } else if from !in files {
        return Missing;
      }
      var bytes := files[from];
      files := files - {from};
      files := files[to := bytes];
      io := Good;
    }

    method RemoveFile(p: Path) returns (io: Io)
      modifies this
      ensures (Now(), io) == Remove(old(Now()), p)
    {
      var f := NextFault();
      if f.Dies? {
        return Dead;
      } else if f.Fails? {
        return Error;
      } else if p !in files {
        return Missing;
      }
      files := files - {p};
      io := Good;
    }

    method CreateFile(p: Path, bytes: Bytes) returns (io: Io)
      modifies this
      ensures (Now(), io) == Create(old(Now()), p, bytes)
    {
      var f := NextFault();
      io := if f.Dies? then Dead else if p in files || f.Fails? then Error else Good;
      if p !in files {
        files := LeaveFile(files, p, bytes, if f.Fine? then Whole else f.left);
      }
    }

    method PutJournal(j: Journal) returns (io: Io)
      modifies this
      ensures (Now(), io) == WriteJournal(old(Now()), j)
    {
      var f := NextFault();
      io := if f.Dies? then Dead else if f.Fails? then Error else Good;
      journal := LeaveJournal(journal, j, if f.Fine? then Whole else f.left);
    }

    method DropJournal() returns (io: Io)
      modifies this
      ensures (Now(), io) == RemoveJournal(old(Now()))
    {
      var f := NextFault();
      if f.Dies? {
        return Dead;
      } else if f.Fails? {
        return Error;
      } else if journal.NoJournal? {
        return Missing;
      }
      journal := NoJournal;
      io := Good;
    }

    method ReadFile(p: Path) returns (got: Got)
      modifies this
      ensures (Now(), got) == Read(old(Now()), p)
    {
      var f := NextFault();
      got := if f.Dies? then ReadDied else if f.Fails? then Unread else if p in files then Content(files[p])
        else Absent;
    }

    // ---------- the transaction ----------

    /** One transaction, from validation to clean-up. What its answer means is `PersistTruthful`. */
    method Commit(t: Tx) returns (o: Outcome)
      requires Paired(t)
      modifies this
      ensures (Now(), o) == PersistTx(t, old(Now()))
    {
      hide StageFrom, CheckFrom;
      var f := NextFault();
      if f.Dies? {
        return Died;
      }
      if f.Fine? && !journal.NoJournal? {
        return Refused;
      }
      var io := CheckFiles(t);
      if io.Dead? {
        return Died;
      } else if !io.Good? {
        return Refused;
      }
      io := PutJournal(Record(Prepared));
      if io.Dead? {
        return Died;
      } else if io.Error? {
        return StagingFailed;
      }
      o := StageFiles(t);
    }

    method CheckFiles(t: Tx) returns (io: Io)
      requires Paired(t)
      modifies this
      ensures (Now(), io) == CheckFrom(t, old(Now()), 0)
    {
      var i := 0;
      while i < |t.before|
        invariant 0 <= i <= |t.before|
        invariant CheckFrom(t, Now(), i) == CheckFrom(t, old(Now()), 0)
      {
        var got := ReadFile(Dest(i));
        if got.ReadDied? {
          return Dead;
        } else if got != Content(t.before[i]) {
          return Error;
        }
        i := i + 1;
      }
      io := Good;
    }

    method StageFiles(t: Tx) returns (o: Outcome)
      requires Paired(t)
      modifies this
      ensures (Now(), o) == StageFrom(t, old(Now()), 0)
    {
      hide RemoveStages, AfterStaging;
      var i := 0;
      while i < |t.before|
        invariant 0 <= i <= |t.before|
        invariant StageFrom(t, Now(), i) == StageFrom(t, old(Now()), 0)
      {
        var io := CreateFile(Stage(i), t.after[i]);
        if io.Dead? {
          return Died;
        } else if !io.Good? {
          o := Abandon(t);
          return;
        }
        i := i + 1;
      }
      o := AfterStages(t);
    }

    /** Drops the staged bytes and the journal. */
    method Abandon(t: Tx) returns (o: Outcome)
      requires Paired(t)
      modifies this
      ensures var (u, jo) := RemoveStages(old(Now()), 0, |t.before|);
        if jo.Dead? then (Now(), o) == (u, Died)
        else (Now(), o) == (RemoveJournal(u).0, if RemoveJournal(u).1.Dead? then Died else StagingFailed)
    {
      var io := DropStages(0, |t.before|);
      if io.Dead? {
        return Died;
      }
      io := DropJournal();
      o := if io.Dead? then Died else StagingFailed;
    }

    method DropStages(from: nat, n: nat) returns (io: Io)
      requires from <= n
      modifies this
      ensures (Now(), io) == RemoveStages(old(Now()), from, n)
    {
      var i := from;
      while i < n
        invariant from <= i <= n
        invariant RemoveStages(Now(), i, n) == RemoveStages(old(Now()), from, n)
      {
        io := RemoveFile(Stage(i));
        if io.Dead? {
          return;
        }
        i := i + 1;
      }
      io := Good;
    }

    method AfterStages(t: Tx) returns (o: Outcome)
      requires Paired(t)
      modifies this
      ensures (Now(), o) == AfterStaging(t, old(Now()))
    {
      hide RemoveStages, SwapFrom;
      var io := PutJournal(Record(Staged));
      if io.Dead? {
        return Died;
      } else if io.Error? {
        o := Abandon(t);
        return;
      }
      io := PutJournal(Record(Swapping));
      if io.Dead? {
        return Died;
      }
      o := SwapFiles(t);
    }

    method SwapFiles(t: Tx) returns (o: Outcome)
      requires Paired(t)
      modifies this
      ensures (Now(), o) == SwapFrom(t, old(Now()), 0)
    {
      hide RollBack, Finalize, Rename, WriteJournal;
      var i := 0;
      while i < |t.before|
        invariant 0 <= i <= |t.before|
        invariant SwapFrom(t, Now(), i) == SwapFrom(t, old(Now()), 0)
      {
        var io := RenameFile(Dest(i), Bak(i));
        if io.Good? {
          io := RenameFile(Stage(i), Dest(i));
        }
        if io.Dead? {
          return Died;
        } else if !io.Good? {
          o := RollBackFrom(t, i);
          return;
        }
        io := PutJournal(Record(Swapping));
        if io.Dead? {
          return Died;
        }
        i := i + 1;
      }
      o := FinishUp(t);
    }

    method RollBackFrom(t: Tx, k: nat) returns (o: Outcome)
      requires Paired(t) && k < |t.before|
      modifies this
      ensures (Now(), o) == RollBack(t, old(Now()), k)
    {
      hide RemoveStages;
      var ok := true;
      var i := 0;
      while i < k
        invariant 0 <= i <= k
        invariant Restore(Now(), i, k, ok) == Restore(old(Now()), 0, k, true)
      {
        var io := RenameFile(Bak(i), Dest(i));
        if io.Dead? {
          return Died;
        }
        ok := ok && io.Good?;
        i := i + 1;
      }
      var io := DropStages(k, |t.before|);
      if io.Dead? {
        return Died;
      }
      var f := NextFault();
      if f.Dies? {
        return Died;
      }
      if f.Fine? && Bak(k) in files {
        io := RenameFile(Bak(k), Dest(k));
        if io.Dead? {
          return Died;
        }
        ok := ok && io.Good?;
      }
      if !ok {
        return NeedsRecovery;
      }
      io := DropJournal();
      o := if io.Dead? then Died else Undone;
    }

    method DropBaks(n: nat) returns (io: Io, ok: bool)
      modifies this
      ensures (Now(), io, ok) == RemoveBaks(old(Now()), 0, n, true)
    {
      var i := 0;
      ok := true;
      while i < n
        invariant 0 <= i <= n
        invariant RemoveBaks(Now(), i, n, ok) == RemoveBaks(old(Now()), 0, n, true)
      {
        io := RemoveFile(Bak(i));
        if io.Dead? {
          return;
        }
        ok := ok && io.Good?;
        i := i + 1;
      }
      io := Good;
    }

    method EndJournal() returns (io: Io)
      modifies this
      ensures (Now(), io) == CloseJournal(old(Now()))
    {
      io := PutJournal(Record(Finished));
      if !io.Dead? {
        io := DropJournal();
        io := if io.Dead? then Dead else Good;
      }
    }

    method FinishUp(t: Tx) returns (o: Outcome)
      requires Paired(t)
      modifies this
      ensures (Now(), o) == Finalize(t, old(Now()))
    {
      hide RemoveBaks;
      var io, ok := DropBaks(|t.before|);
      if io.Dead? {
        return Died;
      }
      io := EndJournal();
      o := if io.Dead? then Died else if ok then Complete else Uncleaned;
    }

    // ---------- recovery ----------

    /** Inspects the pending journal and resolves it. What the answer means is
        `RecoverTruthful`. */
    method Resolve(t: Tx) returns (a: Answer)
      requires Paired(t)
      modifies this
      ensures (Now(), a) == Recover(t, old(Now()))
    {
      hide Classify, CleanUp, FinishSwaps;
      var f := NextFault();
      if f.Dies? {
        return RecoveryDied;
      } else if f.Fails? || journal.NoJournal? {
        return Clean;
      }
      f := NextFault();
      if f.Dies? {
        return RecoveryDied;
      } else if f.Fails? || !journal.Record? {
        return Conflict;
      }
      var c := ClassifyFiles(t);
      if c.CannotTell? {
        return Conflict;
      } else if c.ClassifyDied? {
        return RecoveryDied;
      }
      if c.pending == [] {
        a := CleanFiles(t, Committed);
      } else if c.swapped {
        a := FinishFiles(t, c.pending);
      } else {
        a := CleanFiles(t, RolledBack);
      }
    }

    method ClassifyFiles(t: Tx) returns (c: Class)
      requires Paired(t)
      modifies this
      ensures (Now(), c) == Classify(t, old(Now()), 0, [], false)
    {
      var pending: seq<nat>, swapped := [], false;
      var i := 0;
      while i < |t.before|
        invariant 0 <= i <= |t.before| && forall k <- pending :: k < |t.before|
        invariant Classify(t, Now(), i, pending, swapped) == Classify(t, old(Now()), 0, [], false)
      {
        var got := ReadFile(Dest(i));
        if got.ReadDied? {
          return ClassifyDied;
        } else if got == Content(t.after[i]) {
          swapped := true;
        } else if got == Content(t.before[i]) {
          pending := pending + [i];
        } else {
          return CannotTell;
        }
        i := i + 1;
      }
      c := Sorted(pending, swapped);
    }

    method CleanFiles(t: Tx, answer: Answer) returns (a: Answer)
      requires Paired(t)
      modifies this
      ensures (Now(), a) == CleanUp(t, old(Now()), answer)
    {
      var i := 0;
      while i < |t.before|
        invariant 0 <= i <= |t.before|
        invariant RemoveBoth(Now(), i, |t.before|) == RemoveBoth(old(Now()), 0, |t.before|)
      {
        var io := RemoveFile(Stage(i));
        if io.Dead? {
          return RecoveryDied;
        }
        io := RemoveFile(Bak(i));
        if io.Dead? {
          return RecoveryDied;
        }
        i := i + 1;
      }
      var io := DropJournal();
      a := if io.Dead? then RecoveryDied else answer;
    }

    method FinishFiles(t: Tx, pending: seq<nat>) returns (a: Answer)
      requires Paired(t) && forall k <- pending :: k < |t.before|
      modifies this
      ensures (Now(), a) == FinishSwaps(t, old(Now()), pending)
    {
      hide RemoveBaks, Rename, WriteJournal;
      var j := 0;
      assert pending[0..] == pending;
      while j < |pending|
        invariant 0 <= j <= |pending| && forall k <- pending[j..] :: k < |t.before|
        invariant FinishSwaps(t, Now(), pending[j..]) == FinishSwaps(t, old(Now()), pending)
      {
        var i := pending[j];
        assert i in pending;
        assert pending[j..][0] == i && pending[j..][1..] == pending[j + 1..];
        TailBelow(pending, j + 1, |t.before|);
        var got := ReadFile(Stage(i));
        if got.ReadDied? {
          return RecoveryDied;
        } else if got != Content(t.after[i]) {
          return Conflict;
        }
        var io := RenameFile(Dest(i), Bak(i));
        if io.Good? {
          io := RenameFile(Stage(i), Dest(i));
        }
        if io.Dead? {
          return RecoveryDied;
        } else if !io.Good? {
          return Conflict;
        }
        io := PutJournal(Record(Swapping));
        if io.Dead? {
          return RecoveryDied;
        }
        j := j + 1;
      }
      var io, _ := DropBaks(|t.before|);
      if io.Dead? {
        return RecoveryDied;
      }
      io := EndJournal();
      a := if io.Dead? then RecoveryDied else Committed;
    }
  }
}
