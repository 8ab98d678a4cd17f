/** What holds in every state of every run of the pipeline, crashes and failures included. */
module Safety {
  import opened Names
  import opened Pipeline

  // ---- One server ----------------------------------------------------------------------------------

  /** The history: captures are snapshot names, the last is the newest, and only captures are recorded. */
  predicate HistoryOk(t: Tier) {
    && (forall n | n in t.taken :: IsBackupDir(n) && Rank(n) <= Rank(t.latest))
    && Known(t, t.latest) && Known(t, t.rec.hot) && Known(t, t.rec.cold)
  }

  /** Every directory named as a snapshot holds what was captured under that name, unless a removal of it failed. */
  predicate DisksOk(t: Tier) {
    && (forall n | n in t.hot && IsBackupDir(n) ::
          n in t.taken && (t.hot[n] == Complete(t.taken[n]) || n in t.hurtHot))
    && (forall n | n in t.cold && IsBackupDir(n) ::
          n in t.taken && (t.cold[n] == Complete(t.taken[n]) || n in t.hurtCold || n in t.hurtHot))
  }

  /** No completed cold snapshot is newer than the recorded one, but for the one renamed and not yet recorded. */
  predicate ColdOrdered(t: Tier, inFlight: string) {
    && (forall n | n in t.cold && IsBackupDir(n) :: Rank(n) <= Rank(t.rec.cold) || n == inFlight)
    && (inFlight != "" ==> Rank(inFlight) > Rank(t.rec.cold))
  }

  /** Promotions happened in strictly increasing order, up to the recorded one or the one in flight. */
  predicate PromotedInOrder(t: Tier, inFlight: string) {
    && (forall i, j | 0 <= i < j < |t.promoted| :: Rank(t.promoted[i]) < Rank(t.promoted[j]))
    && (forall i | 0 <= i < |t.promoted| ::
          Rank(t.promoted[i]) <= Rank(if inFlight == "" then t.rec.cold else inFlight))
  }

  /** All that holds of one server; `inFlight` is the name renamed into its cold tier and not yet recorded. */
  predicate TierOk(t: Tier, inFlight: string) {
    HistoryOk(t) && DisksOk(t) && ColdOrdered(t, inFlight) && PromotedInOrder(t, inFlight)
  }

  // ---- The two processes ---------------------------------------------------------------------------

  /** The name renamed into k's cold directory and not yet recorded. */
  function InFlight(w: Worker, k: string): string {
    if w.WRenamed? && w.job.key == k then w.sel else ""
  }

  predicate KnownRecord(t: Tier, r: Record) {
    Known(t, r.hot) && Known(t, r.cold)
  }

  ghost predicate CycleOk(s: State) {
    var c := s.cyc;
    match c
    case CIdle => true
    case CRead(_, _, _) => true
    case CSaving(_, _, _, _) => true
    case CCopying(k, _, _, _, ts) => IsBackupDir(ts) && Rank(ts) > Rank(Of(s, k).latest)
    case CCopied(k, _, _, ts, image) =>
      && IsBackupDir(ts) && Rank(ts) > Rank(Of(s, k).latest)
      && InProgress(ts) in Of(s, k).hot && Of(s, k).hot[InProgress(ts)] == Complete(image)
    case CRenamed(k, ts) => ts == Of(s, k).latest != ""
    case CFailed(_) => true
    case CCaptured(k, ts) => ts == Of(s, k).latest != ""
    case CCommitted(k, ts, saved) => KnownRecord(Of(s, k), saved)
    case CFileRead(k, ts, saved, m) => KnownRecord(Of(s, k), saved) && KnownRecords(s, m)
    case CFiled(_, _) => true
    case CMarked(_, _) => true
  }

  /** Selected, newer than the recorded cold snapshot, which nobody else changes. */
  predicate Selected(t: Tier, sel: string, prev: string) {
    sel in t.taken && prev == t.rec.cold && Rank(sel) > Rank(prev)
  }

  ghost predicate WorkerOk(s: State) {
    var w := s.wrk;
    if w.WIdle? then true
    else
      var t := Of(s, w.job.key);
      match w
      case WTaken(_) => true
      case WListed(_, sel) => Known(t, sel)
      case WSkipping(_) => true
      case WMarking(_, sel, prev) => Selected(t, sel, prev)
      case WMarkingSel(_, sel, prev) => Selected(t, sel, prev)
      case WStarting(_, sel, prev) => Selected(t, sel, prev)
      case WCopying(_, sel, prev) => Selected(t, sel, prev)
      case WCopied(_, sel, prev) =>
        && Selected(t, sel, prev) && InProgress(sel) in t.cold
        && (t.cold[InProgress(sel)] == Complete(t.taken[sel]) || sel in t.hurtHot)
      case WRenamed(_, sel) => sel in t.taken
      case WCommitted(_, _, saved) => KnownRecord(t, saved)
      case WFileRead(_, _, saved, m) => KnownRecord(t, saved) && KnownRecords(s, m)
      case WClearing(_, _, _) => true
      case WClearingSel(_, _, _) => true
      case WListing(_, _) => true
      case WPruning(_, _, victims) => forall v | v in victims :: IsBackupDir(v)
  }

  ghost predicate Ok(s: State) {
    && (forall k :: TierOk(Of(s, k), InFlight(s.wrk, k)))
    && KnownRecords(s, s.file)
    && CycleOk(s)
    && WorkerOk(s)
  }

  // ---- Growing history keeps what is known -----------------------------------------------------------

  /** The other process' facts survive a step that only adds captures and leaves these parts alone. */
  predicate Extends(t': Tier, t: Tier) {
    forall n | n in t.taken :: n in t'.taken && t'.taken[n] == t.taken[n]
  }

  lemma KnownRecordsGrow(s: State, s': State, m: StateFile)
    requires KnownRecords(s, m) && forall k :: Extends(Of(s', k), Of(s, k))
    ensures KnownRecords(s', m)
  {
    forall k | k in m
      ensures Known(Of(s', k), m[k].hot) && Known(Of(s', k), m[k].cold)
    {
      assert Extends(Of(s', k), Of(s, k));
    }
  }

  /** The two directories hold the same snapshots; what is being written may differ. */
  predicate SameSnapshots(d: Dir, d': Dir) {
    && (forall n | n in d && IsBackupDir(n) :: n in d' && d'[n] == d[n])
    && (forall n | n in d' && IsBackupDir(n) :: n in d)
  }

  lemma WriteIsPrivate(d: Dir, ts: string, c: Content)
    requires IsBackupDir(ts)
    ensures SameSnapshots(d, d[InProgress(ts) := c])
  {
    InProgressIsNotBackup(ts);
  }

  lemma CleanUpIsPrivate(d: Dir, ts: string, left: Left)
    requires IsBackupDir(ts)
    ensures SameSnapshots(d, Cleaned(d, ts, left))
  {
    InProgressIsNotBackup(ts);
  }

  lemma SameIsSame(d: Dir)
    ensures SameSnapshots(d, d)
  {
  }

  // ---- Steps of the cycle ----------------------------------------------------------------------------

  /** Only k's directories and record may have changed. */
  ghost predicate OthersSame(s: State, s': State, k: string) {
    forall j | j != k :: Of(s', j) == Of(s, j)
  }

  /** A cycle step leaves the cold tier alone and only adds captures. */
  predicate CycleMayChange(t: Tier, t': Tier) {
    && t'.cold == t.cold && t'.rec.cold == t.rec.cold && t'.promoted == t.promoted
    && t'.earlier == t.earlier && t'.hurtHot == t.hurtHot && t'.hurtCold == t.hurtCold
    && Extends(t', t)
  }

  lemma WorkerFactsSurvive(s: State, s': State)
    requires WorkerOk(s) && s'.wrk == s.wrk
    requires forall k :: CycleMayChange(Of(s, k), Of(s', k))
    ensures WorkerOk(s')
  {
    if !s.wrk.WIdle? {
      assert CycleMayChange(Of(s, s.wrk.job.key), Of(s', s.wrk.job.key));
      if s.wrk.WFileRead? {
        KnownRecordsGrow(s, s', s.wrk.m);
      }
    }
  }

  lemma CycleStepOk(s: State, s': State, k: string)
    requires Ok(s) && s'.wrk == s.wrk && OthersSame(s, s', k)
    requires CycleMayChange(Of(s, k), Of(s', k)) && TierOk(Of(s', k), InFlight(s.wrk, k))
    requires CycleOk(s') && KnownRecords(s', s'.file)
    ensures Ok(s')
  {
    hide TierOk, CycleOk, WorkerOk, KnownRecords;
    assert forall j :: CycleMayChange(Of(s, j), Of(s', j));
    WorkerFactsSurvive(s, s');
    forall j
      ensures TierOk(Of(s', j), InFlight(s'.wrk, j))
    {
      assert TierOk(Of(s, j), InFlight(s.wrk, j));
    }
  }

  /** Writing an entry that is not a snapshot name changes nothing the invariant speaks of. */
  lemma CleanedOk(t: Tier, inFlight: string, hot: Dir)
    requires TierOk(t, inFlight)
    requires SameSnapshots(t.hot, hot)
    ensures TierOk(t.(hot := hot), inFlight)
  {
  }

  /** The hot rename completes the capture of a name newer than all before. */
  lemma RenamedOk(t: Tier, inFlight: string, ts: string, image: nat)
    requires TierOk(t, inFlight) && IsBackupDir(ts) && Rank(ts) > Rank(t.latest)
    requires CanMove(t.hot, ts) && t.hot[InProgress(ts)] == Complete(image)
    ensures var t' := t.(hot := Moved(t.hot, ts), taken := t.taken[ts := image], latest := ts);
            TierOk(t', inFlight) && CycleMayChange(t, t')
  {
    InProgressIsNotBackup(ts);
  }

  lemma RecordedHotOk(t: Tier, inFlight: string, ts: string)
    requires TierOk(t, inFlight) && ts in t.taken
    ensures TierOk(t.(rec := t.rec.(hot := ts)), inFlight)
  {
  }

  lemma KnownAfterCycle(s: State, s': State, k: string, m: StateFile)
    requires KnownRecords(s, m) && OthersSame(s, s', k) && CycleMayChange(Of(s, k), Of(s', k))
    ensures KnownRecords(s', m)
  {
    assert forall j :: Extends(Of(s', j), Of(s, j));
    KnownRecordsGrow(s, s', m);
  }

  predicate WritesHot(e: CycleEvent) {
    e.Prepare? || e.CopyDone? || e.Abort? || e.RenameHot?
  }

  predicate Renames(s: State, e: CycleEvent)
    requires CycleEnabled(s, e)
  {
    e.RenameHot? && e.works && CanMove(Of(s, s.cyc.key).hot, s.cyc.ts)
  }

  /** Anything but the successful rename writes or removes only the directory being written. */
  lemma CycleWriteEffect(s: State, e: CycleEvent)
    requires CycleEnabled(s, e) && WritesHot(e) && !Renames(s, e)
    requires s.cyc.CCopying? || s.cyc.CCopied? ==> IsBackupDir(s.cyc.ts)
    ensures var s', k := CycleApply(s, e), s.cyc.key;
            && s'.wrk == s.wrk && s'.file == s.file && OthersSame(s, s', k)
            && Of(s', k) == Of(s, k).(hot := Of(s', k).hot)
            && SameSnapshots(Of(s, k).hot, Of(s', k).hot)
  {
    hide CycleOtherStep, SameSnapshots, Cleaned;
    var d := Of(s, s.cyc.key).hot;
    match e
    case Prepare(ts, junk) => WriteIsPrivate(d, ts, Partial(junk));
    case CopyDone(image) => WriteIsPrivate(d, s.cyc.ts, Complete(image));
    case Abort(left) =>
      SameIsSame(d);
      if s.cyc.CCopying? {
        CleanUpIsPrivate(d, s.cyc.ts, left);
      }
    case RenameHot(works, left) => CleanUpIsPrivate(d, s.cyc.ts, left);
  }

  lemma CycleWriteGoesOn(s: State, e: CycleEvent)
    requires CycleOk(s) && CycleEnabled(s, e) && WritesHot(e) && !Renames(s, e)
    ensures CycleOk(CycleApply(s, e))
  {
    hide CycleOtherStep;
  }

  lemma CycleWriteOk(s: State, e: CycleEvent)
    requires Ok(s) && CycleEnabled(s, e) && WritesHot(e) && !Renames(s, e)
    ensures Ok(CycleApply(s, e))
  {
    hide TierOk, WorkerOk, KnownRecords, CycleApply;
    var k, s' := s.cyc.key, CycleApply(s, e);
    assert TierOk(Of(s, k), InFlight(s.wrk, k));
    CycleWriteEffect(s, e);
    CycleWriteGoesOn(s, e);
    CleanedOk(Of(s, k), InFlight(s.wrk, k), Of(s', k).hot);
    KnownAfterCycle(s, s', k, s.file);
    CycleStepOk(s, s', k);
  }

  lemma RenameHotOk(s: State, e: CycleEvent)
    requires Ok(s) && CycleEnabled(s, e) && Renames(s, e)
    ensures Ok(CycleApply(s, e))
  {
    hide TierOk, WorkerOk, KnownRecords, CycleOtherStep;
    var k, s' := s.cyc.key, CycleApply(s, e);
    assert TierOk(Of(s, k), InFlight(s.wrk, k));
    RenamedOk(Of(s, k), InFlight(s.wrk, k), s.cyc.ts, s.cyc.image);
    KnownAfterCycle(s, s', k, s.file);
    CycleStepOk(s, s', k);
  }

  lemma CommitOk(s: State)
    requires Ok(s) && CycleEnabled(s, Commit)
    ensures Ok(CycleApply(s, Commit))
  {
    hide WorkerOk, KnownRecords, CycleOtherStep;
    var k, s' := s.cyc.key, CycleApply(s, Commit);
    assert TierOk(Of(s, k), InFlight(s.wrk, k));
    RecordedHotOk(Of(s, k), InFlight(s.wrk, k), s.cyc.ts);
    KnownAfterCycle(s, s', k, s.file);
    CycleStepOk(s, s', k);
  }

  /** The other steps touch the state file, the status table, the queue or the program counter only. */
  lemma CycleMemoryOk(s: State, e: CycleEvent)
    requires Ok(s) && CycleEnabled(s, e) && !WritesHot(e) && !e.Commit?
    ensures Ok(CycleApply(s, e))
  {
    hide TierOk, WorkerOk, KnownRecords, CycleTierStep, IsNewest, IsBackupDir, Rank;
    var s' := CycleApply(s, e);
    var k := if e.Begin? then e.key else s.cyc.key;
    assert TierOk(Of(s, k), InFlight(s.wrk, k));
    assert Of(s', k) == Of(s, k);
    KnownAfterCycle(s, s', k, s.file);
    if e.WriteFile? {
      KnownAfterCycle(s, s', k, s.cyc.m);
      KnownUpdated(s', s.cyc.m, k, s.cyc.saved);
    }
    CycleStepOk(s, s', k);
  }

  lemma KnownUpdated(s: State, m: StateFile, k: string, r: Record)
    requires KnownRecords(s, m) && KnownRecord(Of(s, k), r)
    ensures KnownRecords(s, m[k := r])
  {
  }

  lemma CycleKeepsOk(s: State, e: CycleEvent)
    requires Ok(s) && CycleEnabled(s, e)
    ensures Ok(CycleApply(s, e))
  {
    if Renames(s, e) {
      RenameHotOk(s, e);
    } else if WritesHot(e) {
      CycleWriteOk(s, e);
    } else if e.Commit? {
      CommitOk(s);
    } else {
      CycleMemoryOk(s, e);
    }
  }

  // ---- Steps of the worker ---------------------------------------------------------------------------

  /** A worker step captures nothing and leaves the directory a capture is written to alone. */
  ghost predicate WorkerMayChange(t: Tier, t': Tier) {
    && t'.taken == t.taken && t'.latest == t.latest
    && forall n | n in t.hot && !IsBackupDir(n) :: n in t'.hot && t'.hot[n] == t.hot[n]
  }

  lemma CycleFactsSurvive(s: State, s': State)
    requires CycleOk(s) && s'.cyc == s.cyc
    requires forall k :: WorkerMayChange(Of(s, k), Of(s', k))
    ensures CycleOk(s')
  {
    if !s.cyc.CIdle? {
      assert WorkerMayChange(Of(s, s.cyc.key), Of(s', s.cyc.key));
      if s.cyc.CCopied? {
        InProgressIsNotBackup(s.cyc.ts);
      }
      if s.cyc.CFileRead? {
        KnownAfterWorker(s, s', s.cyc.m);
      }
    }
  }

  lemma KnownAfterWorker(s: State, s': State, m: StateFile)
    requires KnownRecords(s, m) && forall k :: WorkerMayChange(Of(s, k), Of(s', k))
    ensures KnownRecords(s', m)
  {
    forall k
      ensures Extends(Of(s', k), Of(s, k))
    {
      assert WorkerMayChange(Of(s, k), Of(s', k));
    }
    KnownRecordsGrow(s, s', m);
  }

  lemma AllMayChange(s: State, s': State, k: string)
    requires OthersSame(s, s', k) && WorkerMayChange(Of(s, k), Of(s', k))
    ensures forall j :: WorkerMayChange(Of(s, j), Of(s', j))
  {
  }

  lemma WorkerStepOk(s: State, s': State, k: string)
    requires Ok(s) && s'.cyc == s.cyc && OthersSame(s, s', k)
    requires !s.wrk.WIdle? ==> s.wrk.job.key == k
    requires !s'.wrk.WIdle? ==> s'.wrk.job.key == k
    requires WorkerMayChange(Of(s, k), Of(s', k)) && TierOk(Of(s', k), InFlight(s'.wrk, k))
    requires WorkerOk(s') && KnownRecords(s', s'.file)
    ensures Ok(s')
  {
    hide TierOk, CycleOk, WorkerOk, KnownRecords, WorkerMayChange;
    AllMayChange(s, s', k);
    CycleFactsSurvive(s, s');
    forall j
      ensures TierOk(Of(s', j), InFlight(s'.wrk, j))
    {
      assert TierOk(Of(s, j), InFlight(s.wrk, j));
    }
  }

  // What each kind of step does to the server's directories and record.

  lemma ColdCleanedOk(t: Tier, inFlight: string, cold: Dir)
    requires TierOk(t, inFlight)
    requires SameSnapshots(t.cold, cold)
    ensures TierOk(t.(cold := cold), inFlight)
  {
  }

  /** The cold rename adds a copy of what was captured, newer than every completed cold snapshot. */
  lemma PromotedOk(t: Tier, sel: string)
    requires TierOk(t, "") && Selected(t, sel, t.rec.cold) && CanMove(t.cold, sel)
    requires t.cold[InProgress(sel)] == Complete(t.taken[sel]) || sel in t.hurtHot
    ensures var t' := t.(cold := Moved(t.cold, sel), promoted := t.promoted + [sel]);
            TierOk(t', sel) && WorkerMayChange(t, t')
  {
    InProgressIsNotBackup(sel);
  }

  lemma RecordedColdOk(t: Tier, sel: string, hot: string)
    requires TierOk(t, sel) && sel in t.taken && (hot == sel || hot == t.rec.hot)
    ensures var t' := t.(rec := Record(hot, sel));
            TierOk(t', "") && WorkerMayChange(t, t') && KnownRecord(t', t'.rec)
  {
  }

  lemma RemovedOk(t: Tier, pass: Pass, n: string, how: Removal)
    requires TierOk(t, "") && IsBackupDir(n)
    ensures TierOk(RemovedFrom(t, pass, n, how), "") && WorkerMayChange(t, RemovedFrom(t, pass, n, how))
  {
  }

  predicate WritesCold(e: WorkerEvent) {
    e.MakeDir? || e.CopyCold? || e.RenameCold?
  }

  predicate Promotes(s: State, e: WorkerEvent)
    requires WorkerEnabled(s, e)
  {
    e.RenameCold? && e.works && CanMove(Of(s, s.wrk.job.key).cold, s.wrk.sel)
  }

  lemma ColdWriteFrame(s: State, e: WorkerEvent)
    requires WorkerEnabled(s, e) && WritesCold(e) && !Promotes(s, e)
    ensures var s', k := WorkerApply(s, e), s.wrk.job.key;
            && s'.cyc == s.cyc && s'.file == s.file && OthersSame(s, s', k)
            && !s'.wrk.WIdle? && s'.wrk.job.key == k && !s'.wrk.WRenamed?
  {
    hide WorkerTrackerStep, WorkerMemoryStep;
  }

  lemma ColdWriteEffect(s: State, e: WorkerEvent)
    requires WorkerEnabled(s, e) && WritesCold(e) && !Promotes(s, e) && IsBackupDir(s.wrk.sel)
    ensures var t, t' := Of(s, s.wrk.job.key), Of(WorkerApply(s, e), s.wrk.job.key);
            t' == t.(cold := t'.cold) && SameSnapshots(t.cold, t'.cold)
  {
    hide WorkerTrackerStep, WorkerMemoryStep, SameSnapshots, Cleaned;
    var t, sel := Of(s, s.wrk.job.key), s.wrk.sel;
    SameIsSame(t.cold);
    match e
    case MakeDir(_, junk) => WriteIsPrivate(t.cold, sel, Partial(junk));
    case CopyCold(_, left) =>
      CleanUpIsPrivate(t.cold, sel, left);
      if sel in t.hot {
        WriteIsPrivate(t.cold, sel, t.hot[sel]);
      }
    case RenameCold(_, left) => CleanUpIsPrivate(t.cold, sel, left);
  }

  lemma ColdWriteGoesOn(s: State, e: WorkerEvent)
    requires WorkerOk(s) && WorkerEnabled(s, e) && WritesCold(e) && !Promotes(s, e)
    requires DisksOk(Of(s, s.wrk.job.key)) && IsBackupDir(s.wrk.sel)
    ensures WorkerOk(WorkerApply(s, e))
  {
    hide WorkerTrackerStep, WorkerMemoryStep;
  }

  lemma ColdOnlyMayChange(t: Tier, cold: Dir)
    ensures WorkerMayChange(t, t.(cold := cold))
  {
  }

  lemma ColdWriteOk(s: State, e: WorkerEvent)
    requires Ok(s) && WorkerEnabled(s, e) && WritesCold(e) && !Promotes(s, e)
    ensures Ok(WorkerApply(s, e))
  {
    hide CycleOk, KnownRecords, WorkerApply, DisksOk, ColdOrdered, PromotedInOrder, WorkerMayChange;
    var k, s' := s.wrk.job.key, WorkerApply(s, e);
    assert TierOk(Of(s, k), InFlight(s.wrk, k));
    ColdWriteFrame(s, e);
    ColdWriteEffect(s, e);
    ColdWriteGoesOn(s, e);
    ColdCleanedOk(Of(s, k), "", Of(s', k).cold);
    ColdOnlyMayChange(Of(s, k), Of(s', k).cold);
    AllMayChange(s, s', k);
    KnownAfterWorker(s, s', s.file);
    WorkerStepOk(s, s', k);
  }

  lemma RenameColdOk(s: State, e: WorkerEvent)
    requires Ok(s) && WorkerEnabled(s, e) && Promotes(s, e)
    ensures Ok(WorkerApply(s, e))
  {
    hide CycleOk, KnownRecords, TierOk, WorkerMayChange, WorkerTrackerStep, WorkerMemoryStep;
    var k, s' := s.wrk.job.key, WorkerApply(s, e);
    assert TierOk(Of(s, k), InFlight(s.wrk, k));
    PromotedOk(Of(s, k), s.wrk.sel);
    AllMayChange(s, s', k);
    KnownAfterWorker(s, s', s.file);
    WorkerStepOk(s, s', k);
  }

  lemma CommitColdOk(s: State)
    requires Ok(s) && WorkerEnabled(s, CommitCold)
    ensures Ok(WorkerApply(s, CommitCold))
  {
    hide CycleOk, KnownRecords, TierOk, WorkerMayChange, WorkerTrackerStep, WorkerMemoryStep;
    var k, s' := s.wrk.job.key, WorkerApply(s, CommitCold);
    assert TierOk(Of(s, k), InFlight(s.wrk, k));
    RecordedColdOk(Of(s, k), s.wrk.sel, Of(s', k).rec.hot);
    AllMayChange(s, s', k);
    KnownAfterWorker(s, s', s.file);
    WorkerStepOk(s, s', k);
  }

  lemma RemoveOk(s: State, n: string, how: Removal)
    requires Ok(s) && WorkerEnabled(s, Remove(n, how))
    ensures Ok(WorkerApply(s, Remove(n, how)))
  {
    hide CycleOk, KnownRecords, TierOk, WorkerMayChange, WorkerTrackerStep, WorkerMemoryStep;
    var k, s' := s.wrk.job.key, WorkerApply(s, Remove(n, how));
    assert TierOk(Of(s, k), InFlight(s.wrk, k));
    RemovedOk(Of(s, k), s.wrk.pass, n, how);
    AllMayChange(s, s', k);
    KnownAfterWorker(s, s', s.file);
    WorkerStepOk(s, s', k);
  }

  /** The other steps leave every server's directories and record alone. */
  lemma WorkerMemoryEffect(s: State, e: WorkerEvent)
    requires WorkerEnabled(s, e) && !WorkerWritesTier(e)
    ensures var s' := WorkerApply(s, e); s'.tiers == s.tiers && s'.cyc == s.cyc && !s'.wrk.WRenamed?
    ensures var s' := WorkerApply(s, e);
            !s.wrk.WIdle? && !s'.wrk.WIdle? ==> s.wrk.job == s'.wrk.job
  {
    hide WorkerTierStep;
  }

  /** Whatever is selected was captured. */
  lemma ListHotGoesOn(s: State, readable: bool)
    requires WorkerOk(s) && WorkerEnabled(s, ListHot(readable)) && TierOk(Of(s, s.wrk.job.key), "")
    ensures WorkerOk(WorkerApply(s, ListHot(readable)))
  {
    hide WorkerTierStep, WorkerTrackerStep, ColdOrdered, PromotedInOrder;
  }

  /** Whatever goes on to be promoted is newer than the recorded cold snapshot. */
  lemma CompareGoesOn(s: State)
    requires WorkerOk(s) && WorkerEnabled(s, Compare) && TierOk(Of(s, s.wrk.job.key), "")
    ensures WorkerOk(WorkerApply(s, Compare))
  {
    hide WorkerTierStep, WorkerTrackerStep, ColdOrdered, PromotedInOrder, DisksOk;
  }

  lemma ListPassGoesOn(s: State, readable: bool, now: int)
    requires WorkerEnabled(s, ListPass(readable, now))
    ensures WorkerOk(WorkerApply(s, ListPass(readable, now)))
  {
    hide WorkerTierStep, WorkerTrackerStep;
  }

  lemma OtherGoesOn(s: State, e: WorkerEvent)
    requires WorkerOk(s) && KnownRecords(s, s.file)
    requires WorkerEnabled(s, e) && !WorkerWritesTier(e) && !e.ListHot? && !e.Compare? && !e.ListPass?
    ensures WorkerOk(WorkerApply(s, e))
  {
    hide KnownRecords, WorkerTierStep;
    KnownSameTiers(s, WorkerApply(s, e), s.file);
  }

  lemma KnownSameTiers(s: State, s': State, m: StateFile)
    requires KnownRecords(s, m)
    ensures s'.tiers == s.tiers ==> KnownRecords(s', m)
  {
  }

  lemma FileAfterWorker(s: State, e: WorkerEvent)
    requires WorkerOk(s) && KnownRecords(s, s.file) && WorkerEnabled(s, e) && !WorkerWritesTier(e)
    ensures KnownRecords(WorkerApply(s, e), WorkerApply(s, e).file)
  {
    hide WorkerTierStep;
    var s' := WorkerApply(s, e);
    WorkerMemoryEffect(s, e);
    hide KnownRecords;
    KnownSameTiers(s, s', s.file);
    if e.WriteFileCold? {
      KnownSameTiers(s, s', s.wrk.m);
      KnownUpdated(s', s.wrk.m, s.wrk.job.key, s.wrk.saved);
    }
  }

  lemma WorkerMemoryOk(s: State, e: WorkerEvent)
    requires Ok(s) && WorkerEnabled(s, e) && !WorkerWritesTier(e)
    ensures Ok(WorkerApply(s, e))
  {
    hide CycleOk, KnownRecords, WorkerApply, TierOk, WorkerOk;
    var s' := WorkerApply(s, e);
    WorkerMemoryEffect(s, e);
    FileAfterWorker(s, e);
    var k := if !s.wrk.WIdle? then s.wrk.job.key else if !s'.wrk.WIdle? then s'.wrk.job.key else "";
    assert TierOk(Of(s, k), InFlight(s.wrk, k));
    if e.ListHot? {
      ListHotGoesOn(s, e.readable);
    } else if e.Compare? {
      CompareGoesOn(s);
    } else if e.ListPass? {
      ListPassGoesOn(s, e.readable, e.now);
    } else {
      OtherGoesOn(s, e);
    }
    WorkerStepOk(s, s', k);
  }

  lemma WorkerKeepsOk(s: State, e: WorkerEvent)
    requires Ok(s) && WorkerEnabled(s, e)
    ensures Ok(WorkerApply(s, e))
  {
    hide Ok, WorkerApply;
    if !WorkerWritesTier(e) {
      WorkerMemoryOk(s, e);
    } else if e.CommitCold? {
      CommitColdOk(s);
    } else if e.Remove? {
      RemoveOk(s, e.n, e.how);
    } else if Promotes(s, e) {
      RenameColdOk(s, e);
    } else {
      ColdWriteOk(s, e);
    }
  }

  // ---- Crash recovery --------------------------------------------------------------------------------

  /** Whatever was in flight, and however old the stored names, discovery restores the invariant. */
  lemma RebootedOk(t: Tier, inFlight: string, stored: Record)
    requires TierOk(t, inFlight) && KnownRecord(t, stored)
    ensures TierOk(t.(rec := Discovered(stored, t), earlier := t.earlier + t.promoted, promoted := []), "")
    ensures KnownRecord(t, Discovered(stored, t))
  {
  }

  lemma RestartAt(s: State, written: set<string>, k: string)
    requires TierOk(Of(s, k), InFlight(s.wrk, k)) && KnownRecord(Of(s, k), Stored(s.file, k))
    ensures var s' := RestartApply(s, written);
            TierOk(Of(s', k), "") && KnownRecord(Of(s', k), Stored(s'.file, k))
  {
    hide TierOk;
    RebootedOk(Of(s, k), InFlight(s.wrk, k), Stored(s.file, k));
    EmptyIsOk();
  }

  lemma KnownIsStored(s: State)
    ensures KnownRecords(s, s.file) <==> forall k :: KnownRecord(Of(s, k), Stored(s.file, k))
  {
    if forall k :: KnownRecord(Of(s, k), Stored(s.file, k)) {
      forall k | k in s.file
        ensures Known(Of(s, k), s.file[k].hot) && Known(Of(s, k), s.file[k].cold)
      {
        assert KnownRecord(Of(s, k), Stored(s.file, k));
      }
    }
  }

  lemma RestartOk(s: State, written: set<string>)
    requires Ok(s)
    ensures Ok(RestartApply(s, written))
  {
    hide TierOk, KnownRecords, KnownRecord;
    var s' := RestartApply(s, written);
    KnownIsStored(s);
    forall k
      ensures TierOk(Of(s', k), "") && KnownRecord(Of(s', k), Stored(s'.file, k))
    {
      hide RestartApply;
      assert TierOk(Of(s, k), InFlight(s.wrk, k));
      RestartAt(s, written, k);
    }
    KnownIsStored(s');
  }

  lemma EmptyIsOk()
    ensures TierOk(EMPTY, "")
  {
  }

  // ---- Every run -------------------------------------------------------------------------------------

  lemma FileLostOk(s: State, m: StateFile)
    requires Ok(s) && KnownRecords(s, m)
    ensures Ok(s.(file := m))
  {
    hide TierOk, Known, IsBackupDir, Rank, InProgress;
    var s' := s.(file := m);
    if s.cyc.CFileRead? {
      KnownSameTiers(s, s', s.cyc.m);
    }
    if s.wrk.WFileRead? {
      KnownSameTiers(s, s', s.wrk.m);
    }
    KnownSameTiers(s, s', m);
    assert forall k :: TierOk(Of(s, k), InFlight(s.wrk, k)) ==> TierOk(Of(s', k), InFlight(s'.wrk, k));
  }

  lemma StepKeepsOk(s: State, e: Event)
    requires Ok(s) && Enabled(s, e)
    ensures Ok(Apply(s, e))
  {
    match e
    case Cyc(c) =>
      hide Ok;
      CycleKeepsOk(s, c);
    case Wrk(w) =>
      hide Ok;
      WorkerKeepsOk(s, w);
    case Restart(written) =>
      hide Ok;
      RestartOk(s, written);
    case FileLost(m) =>
      hide Ok;
      FileLostOk(s, m);
  }

  lemma {:induction false} RunIsOk(states: seq<State>, events: seq<Event>, conf: Settings)
    requires Run(states, events) && states[0] == Initial(conf)
    ensures Ok(states[|events|])
  {
    if events == [] {
      EmptyIsOk();
    } else {
      hide Ok, Apply, Enabled;
      var n := |events| - 1;
      RunIsOk(states[..n + 1], events[..n], conf);
      StepKeepsOk(states[n], events[n]);
    }
  }

  lemma ReachableIsOk(s: State, conf: Settings)
    requires Reachable(s, conf)
    ensures Ok(s)
  {
    hide Ok;
    var states: seq<State>, events: seq<Event> :|
      Run(states, events) && states[0] == Initial(conf) && states[|events|] == s;
    RunIsOk(states, events, conf);
  }
}
