/** Several transactions and recoveries on one workspace: while a journal is pending no other
    transaction writes, and nothing the pending one still needs is lost. */
module PersistSession {
  import opened Persist
  import opened PersistFacts

  /** A transaction that finds a journal stops there: with a working listing it is refused, and
      neither a file nor the journal changes. */
  lemma PendingRefuses(t: Tx, w: World)
    requires Paired(t) && !w.journal.NoJournal? && !Take(w).1.Fails?
    ensures var (v, o) := PersistTx(t, w);
      v.files == w.files && v.journal == w.journal && o == if Take(w).1.Dies? then Died else Refused
  {
  }

  // ---------- the workspace ----------

  type Workspace = map<nat, Bytes>

  /** The workspace, and the transaction begun last: where its files are in the workspace, its
      staged files and backups, and the journal. Every transaction has names of its own for the
      files it adds. */
  datatype Session = Session(ws: Workspace, tx: Tx, place: seq<nat>, extra: Files, journal: Journal, begun: nat)

  datatype Op = Begin(t: Tx, place: seq<nat>, faults: seq<Fault>) | Repair(faults: seq<Fault>)

  datatype Reply = Ended(o: Outcome) | Answered(a: Answer)

  predicate Separate(place: seq<nat>) {
    forall i, j :: 0 <= i < j < |place| ==> place[i] != place[j]
  }

  predicate Fits(t: Tx, place: seq<nat>) {
    Paired(t) && |place| == |t.before| && Separate(place)
  }

  /** The disk as a transaction sees it. */
  function Seen(ws: Workspace, place: seq<nat>, extra: Files): Files {
    map p | p in extra.Keys + (set i | 0 <= i < |place| :: Dest(i)) &&
            (if p.Dest? then p.i < |place| && place[p.i] in ws else p in extra) ::
      if p.Dest? then ws[place[p.i]] else extra[p]
  }

  function IndexIn(place: seq<nat>, n: nat): (i: nat)
    requires n in place
    ensures i < |place| && place[i] == n
  {
    if place[0] == n then 0 else 1 + IndexIn(place[1..], n)
  }

  /** The workspace after a transaction left these files. */
  function Put(ws: Workspace, place: seq<nat>, files: Files): Workspace {
    map n | n in ws.Keys + (set n | n in place) && (if n in place then Dest(IndexIn(place, n)) in files else n in ws) ::
      if n in place then files[Dest(IndexIn(place, n))] else ws[n]
  }

  function Step(s: Session, op: Op): (Session, Reply)
    requires Paired(s.tx) && (op.Begin? ==> Fits(op.t, op.place))
  {
    match op
    case Begin(t, place, faults) =>
      var files := Seen(s.ws, place, map[]);
      var (v, o) := PersistTx(t, World(files, s.journal, faults));
      var r := s.(ws := Put(s.ws, place, v.files), journal := v.journal);
      (if s.journal.NoJournal? && AllBefore(t, files)
       then r.(tx := t, place := place, extra := v.files, begun := s.begun + 1) else r, Ended(o))
    case Repair(faults) =>
      var (v, a) := Recover(s.tx, World(Disk(s), s.journal, faults));
      (s.(ws := Put(s.ws, s.place, v.files), extra := v.files, journal := v.journal), Answered(a))
  }

  /** What the transaction begun last has on disk. */
  function Disk(s: Session): Files {
    Seen(s.ws, s.place, s.extra)
  }

  /** Nothing of the transaction begun last is lost. */
  ghost predicate Intact(s: Session) {
    Fits(s.tx, s.place) && NoLoss(s.tx, Disk(s))
  }

  /** The operation is a transaction on distinct files whose listing of journals does not fail,
      or a recovery. */
  predicate Proper(op: Op) {
    op.Begin? ==> Fits(op.t, op.place) && !(op.faults != [] && op.faults[0].Fails?)
  }

  predicate AllProper(ops: seq<Op>) {
    forall i :: 0 <= i < |ops| ==> Proper(ops[i])
  }

  // ---------- seeing what was put ----------

  lemma SeenPut(ws: Workspace, place: seq<nat>, files: Files)
    requires Separate(place)
    ensures forall i: nat :: SameFile(files, Seen(Put(ws, place, files), place, files), Bak(i))
    ensures forall i: nat {:trigger Dest(i)} :: i < |place| ==>
      SameFile(files, Seen(Put(ws, place, files), place, files), Dest(i))
  {
    forall i: nat {:trigger Dest(i)} | i < |place|
      ensures SameFile(files, Seen(Put(ws, place, files), place, files), Dest(i))
    {
      var n := place[i];
      assert n in place && IndexIn(place, n) == i;
    }
  }

  lemma PutSame(ws: Workspace, place: seq<nat>, extra: Files)
    ensures Put(ws, place, Seen(ws, place, extra)) == ws
  {
    var files := Seen(ws, place, extra);
    forall n
      ensures n in Put(ws, place, files) <==> n in ws
      ensures n in ws && n in Put(ws, place, files) ==> Put(ws, place, files)[n] == ws[n]
    {
      if n in place {
        var i := IndexIn(place, n);
        assert Dest(i) in files <==> n in ws;
      }
    }
  }

  lemma PutElsewhere(ws: Workspace, place: seq<nat>, files: Files, n: nat)
    requires n !in place
    ensures n in Put(ws, place, files) <==> n in ws
    ensures n in ws ==> Put(ws, place, files)[n] == ws[n]
  {
  }

  /** The states of a transaction's files only look at its own destinations and backups. */
  lemma StatesSame(t: Tx, f: Files, g: Files)
    requires Paired(t)
    requires forall i: nat {:trigger Dest(i)} :: i < |t.before| ==> SameFile(f, g, Dest(i)) && SameFile(f, g, Bak(i))
    ensures AllBefore(t, f) == AllBefore(t, g) && AllAfter(t, f) == AllAfter(t, g)
    ensures NoLoss(t, f) ==> NoLoss(t, g)
    ensures Untouched(t, f) == Untouched(t, g)
  {
    forall i: nat {:trigger Dest(i)} | i < |t.before|
      ensures SameFile(f, g, Dest(i)) && SameFile(f, g, Bak(i)) && (Kept(t, f, i) ==> Kept(t, g, i))
    {
      assert Dest(i) == Dest(i);
    }
    if NoLoss(t, f) && !AllAfter(t, f) {
      forall i | 0 <= i < |t.before|
        ensures Kept(t, g, i)
      {
        assert Kept(t, f, i) && Dest(i) == Dest(i);
      }
    }
  }

  lemma SeenStates(t: Tx, ws: Workspace, place: seq<nat>, files: Files)
    requires Fits(t, place)
    ensures var g := Seen(Put(ws, place, files), place, files);
      && AllBefore(t, files) == AllBefore(t, g) && AllAfter(t, files) == AllAfter(t, g)
      && (NoLoss(t, files) ==> NoLoss(t, g)) && Untouched(t, files) == Untouched(t, g)
  {
    hide AllBefore, AllAfter, NoLoss, Untouched, Seen, Put;
    SeenPut(ws, place, files);
    StatesSame(t, files, Seen(Put(ws, place, files), place, files));
  }

  lemma SeenPristine(t: Tx, ws: Workspace, place: seq<nat>, faults: seq<Fault>)
    ensures Pristine(t, World(Seen(ws, place, map[]), NoJournal, faults))
  {
  }

  // ---------- one step ----------

  /** A transaction on a workspace with a pending journal is refused and changes nothing. */
  lemma BeginPending(s: Session, op: Op)
    requires Intact(s) && op.Begin? && Proper(op) && !s.journal.NoJournal?
    ensures Step(s, op).0 == s && Step(s, op).1 in {Ended(Refused), Ended(Died)}
    ensures (op.faults == [] || op.faults[0].Fine?) ==> Step(s, op).1 == Ended(Refused)
  {
    hide NoLoss, PersistTx, Put, Seen;
    var w := World(Seen(s.ws, op.place, map[]), s.journal, op.faults);
    PendingRefuses(op.t, w);
    PutSame(s.ws, op.place, map[]);
  }

  /** Without one it begins exactly from the validated files, and then loses nothing of its own;
      otherwise it changes no file. */
  lemma BeginClear(s: Session, op: Op)
    requires Intact(s) && op.Begin? && Proper(op) && s.journal.NoJournal?
    ensures var (r, reply) := Step(s, op);
      && Intact(r) && s.begun <= r.begun
      && (r.begun == s.begun ==> r.ws == s.ws && Disk(r) == Disk(s) && r.tx == s.tx)
      && (r.begun == s.begun ==> reply in {Ended(Refused), Ended(Died)})
      && (r.begun != s.begun ==> r.tx == op.t && r.place == op.place && Truthful(op.t, r, reply))
  {
    hide NoLoss, PersistTx, Put, Seen, AllBefore, AllAfter, Untouched, Pristine;
    var files := Seen(s.ws, op.place, map[]);
    var w := World(files, s.journal, op.faults);
    SeenPristine(op.t, s.ws, op.place, op.faults);
    PersistTruthful(op.t, w);
    var (v, o) := PersistTx(op.t, w);
    if AllBefore(op.t, files) {
      SeenStates(op.t, s.ws, op.place, v.files);
    } else {
      PutSame(s.ws, op.place, map[]);
    }
  }

  /** The answers that report every file as new. */
  predicate AllNew(reply: Reply) {
    reply in {Answered(Committed), Ended(Complete), Ended(Uncleaned)}
  }

  /** What a transaction that began promises about the workspace it leaves. */
  ghost predicate Truthful(t: Tx, r: Session, reply: Reply) {
    && (reply in {Ended(Complete), Ended(Uncleaned)} ==> AllAfter(t, Disk(r)))
    && (reply == Ended(StagingFailed) ==> AllBefore(t, Disk(r)))
    && (reply == Ended(NeedsRecovery) ==> !r.journal.NoJournal?)
  }

  lemma RepairStep(s: Session, op: Op)
    requires Intact(s) && op.Repair?
    ensures var (r, reply) := Step(s, op);
      && Intact(r) && r.tx == s.tx && r.begun == s.begun
      && (reply == Answered(Committed) || AllAfter(s.tx, Disk(s)) ==> AllAfter(r.tx, Disk(r)))
      && (reply == Answered(RolledBack) ==> AllBefore(r.tx, Disk(r)))
  {
    hide NoLoss, Recover, Put, Seen, AllBefore, AllAfter, Untouched;
    var w := World(Disk(s), s.journal, op.faults);
    RecoverTruthful(s.tx, w);
    SeenStates(s.tx, s.ws, s.place, Recover(s.tx, w).0.files);
  }

  // ---------- whole sessions ----------

  /** The session after the first `k` operations. */
  function After(s: Session, ops: seq<Op>, k: nat): (r: Session)
    requires k <= |ops| && Paired(s.tx) && AllProper(ops)
    ensures Paired(r.tx)
    decreases k
  {
    if k == 0 then s else Step(After(s, ops, k - 1), ops[k - 1]).0
  }

  function ReplyAt(s: Session, ops: seq<Op>, k: nat): Reply
    requires k < |ops| && Paired(s.tx) && AllProper(ops)
  {
    Step(After(s, ops, k), ops[k]).1
  }

  lemma StepIntact(s: Session, op: Op)
    requires Paired(s.tx) && Intact(s) && Proper(op)
    ensures Intact(Step(s, op).0) && Step(s, op).0.begun >= s.begun
    ensures Step(s, op).0.begun == s.begun ==>
      Step(s, op).0.tx == s.tx && (AllAfter(s.tx, Disk(s)) ==> AllAfter(s.tx, Disk(Step(s, op).0)))
  {
    hide Intact, Step, AllAfter, Disk;
    if op.Repair? {
      RepairStep(s, op);
    } else if s.journal.NoJournal? {
      BeginClear(s, op);
    } else {
      BeginPending(s, op);
    }
  }

  lemma {:induction false} StaysIntact(s: Session, ops: seq<Op>, j: nat, k: nat)
    requires j <= k <= |ops| && Paired(s.tx) && Intact(s) && AllProper(ops)
    ensures Intact(After(s, ops, k)) && After(s, ops, j).begun <= After(s, ops, k).begun
    ensures After(s, ops, j).begun == After(s, ops, k).begun ==>
      After(s, ops, k).tx == After(s, ops, j).tx &&
      (AllAfter(After(s, ops, j).tx, Disk(After(s, ops, j))) ==> AllAfter(After(s, ops, j).tx, Disk(After(s, ops, k))))
    decreases k
  {
    hide Intact, Step, AllAfter, Disk;
    if k > 0 {
      StaysIntact(s, ops, if j < k then j else k - 1, k - 1);
      StepIntact(After(s, ops, k - 1), ops[k - 1]);
    }
  }

  /** Main result over sessions: in any sequence of transactions and recoveries, each under any
      faults that leave the listing of journals alone, nothing of the transaction begun last is
      ever lost; while its journal is pending every other transaction leaves the whole session as
      it is; and an answer that all its files are new stays true until the next one begins. */
  lemma SessionSafe(s: Session, ops: seq<Op>, k: nat)
    requires k <= |ops| && Paired(s.tx) && Intact(s) && AllProper(ops)
    ensures Intact(After(s, ops, k))
    ensures forall j: nat :: j < k && ops[j].Begin? && !After(s, ops, j).journal.NoJournal? ==>
      After(s, ops, j + 1) == After(s, ops, j) && ReplyAt(s, ops, j) in {Ended(Refused), Ended(Died)}
    ensures forall j: nat {:trigger ReplyAt(s, ops, j)} ::
      j < k && After(s, ops, j + 1).begun == After(s, ops, k).begun && AllNew(ReplyAt(s, ops, j)) ==>
        AllAfter(After(s, ops, k).tx, Disk(After(s, ops, k)))
  {
    hide Intact, Step, AllAfter, Disk;
    StaysIntact(s, ops, 0, k);
    forall j: nat | j < k && ops[j].Begin? && !After(s, ops, j).journal.NoJournal?
      ensures After(s, ops, j + 1) == After(s, ops, j) && ReplyAt(s, ops, j) in {Ended(Refused), Ended(Died)}
    {
      StaysIntact(s, ops, 0, j);
      BeginPending(After(s, ops, j), ops[j]);
    }
    forall j: nat {:trigger ReplyAt(s, ops, j)} |
      j < k && After(s, ops, j + 1).begun == After(s, ops, k).begun && AllNew(ReplyAt(s, ops, j))
      ensures AllAfter(After(s, ops, k).tx, Disk(After(s, ops, k)))
    {
      StaysIntact(s, ops, 0, j);
      ReplyTrue(After(s, ops, j), ops[j]);
      StaysIntact(s, ops, j + 1, k);
    }
  }

  lemma ReplyTrue(s: Session, op: Op)
    requires Intact(s) && Proper(op)
    requires AllNew(Step(s, op).1)
    ensures AllAfter(Step(s, op).0.tx, Disk(Step(s, op).0))
  {
    hide Intact, AllAfter, Disk, PersistTx, Recover, Put, Seen, AllBefore;
    if op.Repair? {
      RepairStep(s, op);
    } else if s.journal.NoJournal? {
      BeginClear(s, op);
    } else {
      BeginPending(s, op);
    }
  }

  /** Files a transaction does not name are never touched by it. */
  lemma OthersStay(s: Session, op: Op, n: nat)
    requires Paired(s.tx) && (op.Begin? ==> Fits(op.t, op.place))
    requires n !in if op.Begin? then op.place else s.place
    ensures n in Step(s, op).0.ws <==> n in s.ws
    ensures n in s.ws ==> Step(s, op).0.ws[n] == s.ws[n]
  {
    hide PersistTx, Recover, Put, Seen, AllBefore;
    match op
    case Begin(t, place, faults) =>
      PutElsewhere(s.ws, place, PersistTx(t, World(Seen(s.ws, place, map[]), s.journal, faults)).0.files, n);
    case Repair(faults) =>
      PutElsewhere(s.ws, s.place, Recover(s.tx, World(Disk(s), s.journal, faults)).0.files, n);
  }
}
