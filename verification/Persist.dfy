/** The journaled multi-file commit, as functions on a world of files, one journal and a
    schedule of faults. Every file operation takes the next fault: it succeeds, it fails, or
    the process dies there; a write that does not succeed may leave part of its bytes. */
module Persist {

  type Bytes = string

  datatype Path = Dest(i: nat) | Stage(i: nat) | Bak(i: nat)

  type Files = map<Path, Bytes>

  datatype Phase = Prepared | Staged | Swapping | Finished

  /** `Torn` is a journal whose last write did not complete. The per-file progress flags a
      journal also carries are never read back. */
  datatype Journal = NoJournal | Torn | Record(phase: Phase)

  /** What an interrupted write leaves behind. */
  datatype Left = Nothing | Part(junk: Bytes) | Whole

  datatype Fault = Fine | Fails(left: Left) | Dies(left: Left)

  datatype World = World(files: Files, journal: Journal, faults: seq<Fault>)

  /** The files of a transaction: the bytes it validated and the bytes it installs. */
  datatype Tx = Tx(before: seq<Bytes>, after: seq<Bytes>)

  predicate Paired(t: Tx) {
    |t.before| == |t.after|
  }

  // ---------- file operations ----------

  datatype Io = Good | Missing | Error | Dead

  function Take(w: World): (World, Fault) {
    if w.faults == [] then (w, Fine) else (w.(faults := w.faults[1..]), w.faults[0])
  }

  function Rename(w: World, from: Path, to: Path): (World, Io) {
    var (v, f) := Take(w);
    match f
    case Fine => if from in v.files then (v.(files := (v.files - {from})[to := v.files[from]]), Good) else (v, Missing)
    case Fails(_) => (v, Error)
    case Dies(_) => (v, Dead)
  }

  function Remove(w: World, p: Path): (World, Io) {
    var (v, f) := Take(w);
    match f
    case Fine => if p in v.files then (v.(files := v.files - {p}), Good) else (v, Missing)
    case Fails(_) => (v, Error)
    case Dies(_) => (v, Dead)
  }

  function LeaveFile(files: Files, p: Path, bytes: Bytes, left: Left): Files {
    match left
    case Nothing => files
    case Part(junk) => files[p := junk]
    case Whole => files[p := bytes]
  }

  /** Creates a file that must not exist yet, writes and syncs it. */
  function Create(w: World, p: Path, bytes: Bytes): (World, Io) {
    var (v, f) := Take(w);
    if f.Dies? then (if p in v.files then v else v.(files := LeaveFile(v.files, p, bytes, f.left)), Dead)
    else if p in v.files then (v, Error)
    else if f.Fine? then (v.(files := v.files[p := bytes]), Good)
    else (v.(files := LeaveFile(v.files, p, bytes, f.left)), Error)
  }

  function LeaveJournal(was: Journal, now: Journal, left: Left): Journal {
    match left
    case Nothing => was
    case Part(_) => Torn
    case Whole => now
  }

  /** Truncates and rewrites the journal. */
  function WriteJournal(w: World, j: Journal): (World, Io) {
    var (v, f) := Take(w);
    match f
    case Fine => (v.(journal := j), Good)
    case Fails(left) => (v.(journal := LeaveJournal(v.journal, j, left)), Error)
    case Dies(left) => (v.(journal := LeaveJournal(v.journal, j, left)), Dead)
  }

  function RemoveJournal(w: World): (World, Io) {
    var (v, f) := Take(w);
    match f
    case Fine => if v.journal.NoJournal? then (v, Missing) else (v.(journal := NoJournal), Good)
    case Fails(_) => (v, Error)
    case Dies(_) => (v, Dead)
  }

  datatype Got = Content(b: Bytes) | Absent | Unread | ReadDied

  function Read(w: World, p: Path): (World, Got) {
    var (v, f) := Take(w);
    match f
    case Fine => (v, if p in v.files then Content(v.files[p]) else Absent)
    case Fails(_) => (v, Unread)
    case Dies(_) => (v, ReadDied)
  }

  // ---------- the transaction ----------

  /** How a transaction ends. `Undone` is the commit error that reports a complete rollback,
      `Uncleaned` the one that reports left-over backups. */
  datatype Outcome = Complete | Refused | StagingFailed | Undone | Uncleaned | NeedsRecovery | Died

  function PersistTx(t: Tx, w: World): (World, Outcome)
    requires Paired(t)
  {
    var (v, f) := Take(w);
    if f.Dies? then (v, Died)
    else if f.Fine? && !v.journal.NoJournal? then (v, Refused)
    else
      var (u, io) := CheckFrom(t, v, 0);
      if io.Dead? then (u, Died)
      else if !io.Good? then (u, Refused)
      else
        var (x, jo) := WriteJournal(u, Record(Prepared));
        if jo.Dead? then (x, Died) else if jo.Error? then (x, StagingFailed) else StageFrom(t, x, 0)
  }

  /** Every destination must hold exactly the validated bytes. */
  function CheckFrom(t: Tx, w: World, i: nat): (World, Io)
    requires Paired(t) && i <= |t.before|
    decreases |t.before| - i
  {
    if i == |t.before| then (w, Good)
    else
      var (v, got) := Read(w, Dest(i));
      if got.ReadDied? then (v, Dead)
      else if got != Content(t.before[i]) then (v, Error)
      else CheckFrom(t, v, i + 1)
  }

  function StageFrom(t: Tx, w: World, i: nat): (World, Outcome)
    requires Paired(t) && i <= |t.before|
    decreases |t.before| - i, 1
  {
    if i == |t.before| then AfterStaging(t, w)
    else
      var (v, io) := Create(w, Stage(i), t.after[i]);
      if io.Dead? then (v, Died)
      else if io.Good? then StageFrom(t, v, i + 1)
      else
        var (u, jo) := RemoveStages(v, 0, |t.before|);
        if jo.Dead? then (u, Died)
        else
          var (x, ko) := RemoveJournal(u);
          (x, if ko.Dead? then Died else StagingFailed)
  }

  /** Removes the staged files `i..n`; only a death is reported. */
  function RemoveStages(w: World, i: nat, n: nat): (World, Io)
    requires i <= n
    decreases n - i
  {
    if i == n then (w, Good)
    else
      var (v, io) := Remove(w, Stage(i));
      if io.Dead? then (v, Dead) else RemoveStages(v, i + 1, n)
  }

  function AfterStaging(t: Tx, w: World): (World, Outcome)
    requires Paired(t)
    decreases 0, 1
  {
    var (v, io) := WriteJournal(w, Record(Staged));
    if io.Dead? then (v, Died)
    else if io.Error? then
      var (u, jo) := RemoveStages(v, 0, |t.before|);
      if jo.Dead? then (u, Died)
      else
        var (x, ko) := RemoveJournal(u);
        (x, if ko.Dead? then Died else StagingFailed)
    else
      var (u, jo) := WriteJournal(v, Record(Swapping));
      if jo.Dead? then (u, Died) else SwapFrom(t, u, 0)
  }

  /** `dest -> bak`, then `stage -> dest`, file by file; a failure rolls back. */
  function SwapFrom(t: Tx, w: World, i: nat): (World, Outcome)
    requires Paired(t) && i <= |t.before|
    decreases |t.before| - i
  {
    if i == |t.before| then Finalize(t, w)
    else
      var (v, io) := Rename(w, Dest(i), Bak(i));
      if io.Dead? then (v, Died)
      else if !io.Good? then RollBack(t, v, i)
      else
        var (u, jo) := Rename(v, Stage(i), Dest(i));
        if jo.Dead? then (u, Died)
        else if !jo.Good? then RollBack(t, u, i)
        else
          var (x, ko) := WriteJournal(u, Record(Swapping));
          if ko.Dead? then (x, Died) else SwapFrom(t, x, i + 1)
  }

  /** Puts the backups of files `i..k` back; the flag says whether every rename worked. */
  function Restore(w: World, i: nat, k: nat, ok: bool): (World, Io, bool)
    requires i <= k
    decreases k - i
  {
    if i == k then (w, Good, ok)
    else
      var (v, io) := Rename(w, Bak(i), Dest(i));
      if io.Dead? then (v, Dead, ok) else Restore(v, i + 1, k, ok && io.Good?)
  }

  /** Swapping file `k` failed. */
  function RollBack(t: Tx, w: World, k: nat): (World, Outcome)
    requires Paired(t) && k < |t.before|
  {
    var (v, io, ok) := Restore(w, 0, k, true);
    if io.Dead? then (v, Died)
    else
      var (u, jo) := RemoveStages(v, k, |t.before|);
      if jo.Dead? then (u, Died) else RestoreLast(u, k, ok)
  }

  /** File `k` itself may sit at its backup. The probe for it answers no when it fails. */
  function RestoreLast(w: World, k: nat, ok: bool): (World, Outcome) {
    var (v, f) := Take(w);
    if f.Dies? then (v, Died)
    else if f.Fine? && Bak(k) in v.files then
      var (u, io) := Rename(v, Bak(k), Dest(k));
      if io.Dead? then (u, Died) else EndRollBack(u, ok && io.Good?)
    else EndRollBack(v, ok)
  }

  function EndRollBack(w: World, ok: bool): (World, Outcome) {
    if !ok then (w, NeedsRecovery)
    else
      var (v, io) := RemoveJournal(w);
      (v, if io.Dead? then Died else Undone)
  }

  /** Removes the backups `i..n`; the flag says whether every removal worked. */
  function RemoveBaks(w: World, i: nat, n: nat, ok: bool): (World, Io, bool)
    requires i <= n
    decreases n - i
  {
    if i == n then (w, Good, ok)
    else
      var (v, io) := Remove(w, Bak(i));
      if io.Dead? then (v, Dead, ok) else RemoveBaks(v, i + 1, n, ok && io.Good?)
  }

  function Finalize(t: Tx, w: World): (World, Outcome)
    requires Paired(t)
  {
    var (v, io, ok) := RemoveBaks(w, 0, |t.before|, true);
    if io.Dead? then (v, Died)
    else
      var (u, jo) := CloseJournal(v);
      (u, if jo.Dead? then Died else if ok then Complete else Uncleaned)
  }

  /** Marks the journal finished and removes it; only a death is reported. */
  function CloseJournal(w: World): (World, Io) {
    var (v, io) := WriteJournal(w, Record(Finished));
    if io.Dead? then (v, Dead)
    else
      var (u, jo) := RemoveJournal(v);
      (u, if jo.Dead? then Dead else Good)
  }

  // ---------- recovery ----------

  datatype Answer = Clean | Committed | RolledBack | Conflict | RecoveryDied

  function Recover(t: Tx, w: World): (World, Answer)
    requires Paired(t)
  {
    var (v, f) := Take(w);
    if f.Dies? then (v, RecoveryDied)
    else if f.Fails? || v.journal.NoJournal? then (v, Clean)
    else RecoverOne(t, v)
  }

  function RecoverOne(t: Tx, w: World): (World, Answer)
    requires Paired(t)
  {
    var (v, f) := Take(w);
    if f.Dies? then (v, RecoveryDied)
    else if f.Fails? || !v.journal.Record? then (v, Conflict)
    else
      match Classify(t, v, 0, [], false)
      case (u, CannotTell) => (u, Conflict)
      case (u, ClassifyDied) => (u, RecoveryDied)
      case (u, Sorted(pending, swapped)) =>
        if pending == [] then CleanUp(t, u, Committed)
        else if swapped then FinishSwaps(t, u, pending)
        else CleanUp(t, u, RolledBack)
  }

  /** The files still holding `before`, and whether some file holds `after`. */
  datatype Class = Sorted(pending: seq<nat>, swapped: bool) | CannotTell | ClassifyDied

  function Classify(t: Tx, w: World, i: nat, pending: seq<nat>, swapped: bool): (r: (World, Class))
    requires Paired(t) && i <= |t.before| && forall k <- pending :: k < |t.before|
    ensures r.1.Sorted? ==> forall k <- r.1.pending :: k < |t.before|
    decreases |t.before| - i
  {
    if i == |t.before| then (w, Sorted(pending, swapped))
    else
      var (v, got) := Read(w, Dest(i));
      if got.ReadDied? then (v, ClassifyDied)
      else if got == Content(t.after[i]) then Classify(t, v, i + 1, pending, true)
      else if got == Content(t.before[i]) then Classify(t, v, i + 1, pending + [i], swapped)
      else (v, CannotTell)
  }

  /** Removes every staged file and backup, then the journal. */
  function CleanUp(t: Tx, w: World, answer: Answer): (World, Answer)
    requires Paired(t)
  {
    var (v, io) := RemoveBoth(w, 0, |t.before|);
    if io.Dead? then (v, RecoveryDied)
    else
      var (u, jo) := RemoveJournal(v);
      (u, if jo.Dead? then RecoveryDied else answer)
  }

  function RemoveBoth(w: World, i: nat, n: nat): (World, Io)
    requires i <= n
    decreases n - i
  {
    if i == n then (w, Good)
    else
      var (v, io) := Remove(w, Stage(i));
      if io.Dead? then (v, Dead)
      else
        var (u, jo) := Remove(v, Bak(i));
        if jo.Dead? then (u, Dead) else RemoveBoth(u, i + 1, n)
  }

  /** The commit point has passed: swap the remaining files from their staged bytes. */
  function FinishSwaps(t: Tx, w: World, pending: seq<nat>): (World, Answer)
    requires Paired(t) && forall k <- pending :: k < |t.before|
    decreases |pending|
  {
    if pending == [] then FinishClean(t, w)
    else
      var i := pending[0];
      assert i in pending && forall k <- pending[1..] :: k in pending;
      var (v, got) := Read(w, Stage(i));
      if got.ReadDied? then (v, RecoveryDied)
      else if got != Content(t.after[i]) then (v, Conflict)
      else
        var (u, io) := Rename(v, Dest(i), Bak(i));
        if io.Dead? then (u, RecoveryDied)
        else if !io.Good? then (u, Conflict)
        else
          var (x, jo) := Rename(u, Stage(i), Dest(i));
          if jo.Dead? then (x, RecoveryDied)
          else if !jo.Good? then (x, Conflict)
          else
            var (y, ko) := WriteJournal(x, Record(Swapping));
            if ko.Dead? then (y, RecoveryDied) else FinishSwaps(t, y, pending[1..])
  }

  function FinishClean(t: Tx, w: World): (World, Answer)
    requires Paired(t)
  {
    var (v, io, ok) := RemoveBaks(w, 0, |t.before|, true);
    if io.Dead? then (v, RecoveryDied)
    else
      var (u, jo) := CloseJournal(v);
      (u, if jo.Dead? then RecoveryDied else Committed)
  }
}
