/** The pipeline's promises, read off the invariant: what a maintainer may rely on in any reachable state. */
module Guarantees {
  import opened Names
  import opened Pipeline
  import opened Safety

  // ---- Order in the cold tier ------------------------------------------------------------------------

  /** Between the final rename and the critical section that records it. */
  predicate Unrecorded(s: State, k: string, n: string) {
    s.wrk.WRenamed? && s.wrk.job.key == k && s.wrk.sel == n
  }

  /**
   * The recorded cold name is at least every completed name in the cold directory, all but the one
   * that has been renamed and is about to be recorded.
   */
  lemma RecordCoversCold(s: State, conf: Settings, k: string, n: string)
    requires Reachable(s, conf)
    requires n in Of(s, k).cold && IsBackupDir(n)
    ensures Rank(n) <= Rank(Of(s, k).rec.cold) <==> !Unrecorded(s, k, n)
  {
    hide Reachable;
    ReachableIsOk(s, conf);
    assert TierOk(Of(s, k), InFlight(s.wrk, k));
  }

  /** Neither final rename ever meets an existing directory: both work whenever the file system lets them. */
  lemma RenamesMeetNothing(s: State, conf: Settings)
    requires Reachable(s, conf)
    ensures s.wrk.WCopied? ==> CanMove(Of(s, s.wrk.job.key).cold, s.wrk.sel)
    ensures s.cyc.CCopied? ==> CanMove(Of(s, s.cyc.key).hot, s.cyc.ts)
    ensures s.wrk.WCopied? ==>
              var d := Of(s, s.wrk.job.key).cold; InProgress(s.wrk.sel) in d && s.wrk.sel !in d
    ensures s.cyc.CCopied? ==> var d := Of(s, s.cyc.key).hot; InProgress(s.cyc.ts) in d && s.cyc.ts !in d
  {
    hide Reachable;
    ReachableIsOk(s, conf);
    if s.wrk.WCopied? {
      assert TierOk(Of(s, s.wrk.job.key), "");
    }
    if s.cyc.CCopied? {
      assert TierOk(Of(s, s.cyc.key), InFlight(s.wrk, s.cyc.key));
    }
  }

  // ---- Fidelity --------------------------------------------------------------------------------------

  /**
   * Every directory named as a snapshot was captured under that name and holds all of it, unless a
   * removal of it failed part way. A cold one may also be a copy of a hot one so damaged.
   */
  lemma SnapshotsAreFaithful(s: State, conf: Settings, k: string, n: string)
    requires Reachable(s, conf) && IsBackupDir(n)
    ensures var t := Of(s, k);
            && (n in t.hot ==> n in t.taken && (t.hot[n] == Complete(t.taken[n]) || n in t.hurtHot))
            && (n in t.cold ==>
                  n in t.taken && (t.cold[n] == Complete(t.taken[n]) || n in t.hurtCold || n in t.hurtHot))
  {
    hide Reachable;
    ReachableIsOk(s, conf);
    assert TierOk(Of(s, k), InFlight(s.wrk, k));
  }

  /** A capture that fails before or at its rename adds no snapshot and leaves every record alone. */
  lemma FailedCaptureAddsNothing(s: State, conf: Settings, e: CycleEvent, k: string)
    requires Reachable(s, conf) && CycleEnabled(s, e) && CycleApply(s, e).cyc.CFailed? && !e.SaveOn?
    ensures SameSnapshots(Of(s, k).hot, Of(CycleApply(s, e), k).hot)
    ensures Of(CycleApply(s, e), k) == Of(s, k).(hot := Of(CycleApply(s, e), k).hot)
  {
    hide Reachable, Ok, CycleApply;
    ReachableIsOk(s, conf);
    CopyNamesAreBackups(s);
    FailureIsWrite(s, e);
    CycleWriteEffect(s, e);
  }

  lemma FailureIsWrite(s: State, e: CycleEvent)
    requires CycleEnabled(s, e) && CycleApply(s, e).cyc.CFailed? && !e.SaveOn?
    ensures WritesHot(e) && !Renames(s, e)
  {
  }

  lemma CopyNamesAreBackups(s: State)
    requires Ok(s)
    ensures s.cyc.CCopying? || s.cyc.CCopied? ==> IsBackupDir(s.cyc.ts)
  {
    hide TierOk, WorkerOk, KnownRecords;
  }

  /** A transfer that fails adds no snapshot and leaves every record alone. */
  lemma FailedTransferAddsNothing(s: State, conf: Settings, e: WorkerEvent, k: string)
    requires Reachable(s, conf) && WorkerEnabled(s, e) && (e.MakeDir? || e.CopyCold? || e.RenameCold?)
    requires WorkerApply(s, e).wrk.WClearing?
    ensures SameSnapshots(Of(s, k).cold, Of(WorkerApply(s, e), k).cold)
    ensures Of(WorkerApply(s, e), k) == Of(s, k).(cold := Of(WorkerApply(s, e), k).cold)
  {
    hide Reachable, Ok, WorkerApply, SameSnapshots;
    ReachableIsOk(s, conf);
    SelectedIsBackup(s);
    NotPromoted(s, e);
    ColdWriteFrame(s, e);
    ColdWriteEffect(s, e);
    SameIsSame(Of(s, k).cold);
  }

  lemma NotPromoted(s: State, e: WorkerEvent)
    requires WorkerEnabled(s, e) && (e.MakeDir? || e.CopyCold? || e.RenameCold?)
    requires WorkerApply(s, e).wrk.WClearing?
    ensures WritesCold(e) && !Promotes(s, e)
  {
  }

  lemma SelectedIsBackup(s: State)
    requires Ok(s) && (s.wrk.WStarting? || s.wrk.WCopying? || s.wrk.WCopied?)
    ensures IsBackupDir(s.wrk.sel)
  {
    hide CycleOk, KnownRecords, DisksOk, ColdOrdered, PromotedInOrder;
    assert TierOk(Of(s, s.wrk.job.key), "");
  }

  /** What the worker selects is a completed capture, never a directory being written. */
  lemma SelectionIsComplete(s: State, conf: Settings)
    requires Reachable(s, conf) && s.wrk.WListed? && s.wrk.sel != ""
    ensures IsBackupDir(s.wrk.sel) && s.wrk.sel in Of(s, s.wrk.job.key).taken
    ensures forall ts | IsBackupDir(ts) :: s.wrk.sel != InProgress(ts)
  {
    hide Reachable;
    ReachableIsOk(s, conf);
    assert TierOk(Of(s, s.wrk.job.key), "");
    forall ts | IsBackupDir(ts)
      ensures s.wrk.sel != InProgress(ts)
    {
      InProgressIsNotBackup(ts);
    }
  }

  // ---- The recorded hot name -------------------------------------------------------------------------

  /** The recorded hot name never goes back, whatever the cycle and the worker store and in which order. */
  lemma RecordedHotOnlyGrows(s: State, conf: Settings, e: Event, k: string)
    requires Reachable(s, conf) && Enabled(s, e) && !e.Restart?
    ensures Rank(Of(s, k).rec.hot) <= Rank(Of(Apply(s, e), k).rec.hot)
  {
    hide Reachable;
    ReachableIsOk(s, conf);
    match e
    case Cyc(c) => HotGrowsInCycle(s, c, k);
    case Wrk(w) => HotGrowsInWorker(s, w, k);
    case FileLost(_) =>
  }

  lemma HotGrowsInCycle(s: State, e: CycleEvent, k: string)
    requires Ok(s) && CycleEnabled(s, e)
    ensures Rank(Of(s, k).rec.hot) <= Rank(Of(CycleApply(s, e), k).rec.hot)
  {
    hide Ok, CycleTierStep;
    if e.Commit? {
      CommitTakesLatest(s, k);
    } else if CycleWritesTier(e) {
      CaptureKeepsRecord(s, e, k);
    }
  }

  lemma CaptureKeepsRecord(s: State, e: CycleEvent, k: string)
    requires CycleEnabled(s, e) && CycleWritesTier(e) && !e.Commit?
    ensures Of(CycleApply(s, e), k).rec == Of(s, k).rec
  {
    hide CycleOtherStep;
  }

  lemma CommitTakesLatest(s: State, k: string)
    requires Ok(s) && CycleEnabled(s, Commit)
    ensures Rank(Of(s, k).rec.hot) <= Rank(Of(CycleApply(s, Commit), k).rec.hot)
  {
    hide WorkerOk, KnownRecords, DisksOk, ColdOrdered, PromotedInOrder, CycleOtherStep;
    assert TierOk(Of(s, s.cyc.key), InFlight(s.wrk, s.cyc.key));
  }

  lemma HotGrowsInWorker(s: State, e: WorkerEvent, k: string)
    requires WorkerEnabled(s, e)
    ensures Rank(Of(s, k).rec.hot) <= Rank(Of(WorkerApply(s, e), k).rec.hot)
  {
    hide WorkerApply;
    if e.CommitCold? {
      CommitTakesLater(s, k);
    } else if WorkerWritesTier(e) {
      TransferKeepsRecord(s, e, k);
    } else {
      OtherKeepsTiers(s, e);
    }
  }

  lemma TransferKeepsRecord(s: State, e: WorkerEvent, k: string)
    requires WorkerEnabled(s, e) && WorkerWritesTier(e) && !e.CommitCold?
    ensures Of(WorkerApply(s, e), k).rec == Of(s, k).rec
  {
    hide WorkerTrackerStep, WorkerMemoryStep, AfterRemoval, Cleaned;
  }

  lemma OtherKeepsTiers(s: State, e: WorkerEvent)
    requires WorkerEnabled(s, e) && !WorkerWritesTier(e)
    ensures WorkerApply(s, e).tiers == s.tiers
  {
    hide WorkerTierStep;
  }

  lemma CommitTakesLater(s: State, k: string)
    requires WorkerEnabled(s, CommitCold)
    ensures Rank(Of(s, k).rec.hot) <= Rank(Of(WorkerApply(s, CommitCold), k).rec.hot)
  {
    hide WorkerTrackerStep, WorkerMemoryStep;
  }

  // ---- Crash recovery --------------------------------------------------------------------------------

  /** r is one of the two names, and neither is later. */
  predicate IsLarger(r: string, a: string, b: string) {
    (r == a || r == b) && Rank(a) <= Rank(r) && Rank(b) <= Rank(r)
  }

  /**
   * From any point of a crash and any old state file, the start records in each tier the larger of the
   * stored name and the newest completed directory, and the cold record covers the cold directory again.
   */
  lemma RestartRecovers(s: State, conf: Settings, written: set<string>, k: string)
    requires Reachable(s, conf)
    ensures var t, stored := Of(RestartApply(s, written), k), Stored(s.file, k);
            k in conf.keys ==>
              && IsLarger(t.rec.hot, stored.hot, Newest(Of(s, k).hot.Keys))
              && IsLarger(t.rec.cold, stored.cold, Newest(Of(s, k).cold.Keys))
              && t.hot == Of(s, k).hot && t.cold == Of(s, k).cold
    ensures var t := Of(RestartApply(s, written), k);
            forall n | n in t.cold && IsBackupDir(n) :: Rank(n) <= Rank(t.rec.cold)
  {
    hide Reachable, Ok, RestartApply;
    ReachableIsOk(s, conf);
    ConfStays(s, conf);
    RestartOk(s, written);
    RestartIsQuiet(s, written);
    OkCoversCold(RestartApply(s, written), k);
    if k in conf.keys {
      StoredRanks(s, k);
      RestartTakesLarger(s, written, k);
    }
  }

  lemma RestartIsQuiet(s: State, written: set<string>)
    ensures RestartApply(s, written).wrk.WIdle?
  {
  }

  lemma StoredRanks(s: State, k: string)
    requires Ok(s)
    ensures IsRecorded(Stored(s.file, k).hot) && IsRecorded(Stored(s.file, k).cold)
  {
    hide CycleOk, WorkerOk, DisksOk, ColdOrdered, PromotedInOrder;
    assert TierOk(Of(s, k), InFlight(s.wrk, k));
  }

  lemma RestartTakesLarger(s: State, written: set<string>, k: string)
    requires k in s.conf.keys
    requires IsRecorded(Stored(s.file, k).hot) && IsRecorded(Stored(s.file, k).cold)
    ensures var t, stored := Of(RestartApply(s, written), k), Stored(s.file, k);
            && IsLarger(t.rec.hot, stored.hot, Newest(Of(s, k).hot.Keys))
            && IsLarger(t.rec.cold, stored.cold, Newest(Of(s, k).cold.Keys))
            && t.hot == Of(s, k).hot && t.cold == Of(s, k).cold
  {
  }

  lemma OkCoversCold(s: State, k: string)
    requires Ok(s)
    ensures s.wrk.WIdle? ==> forall n | n in Of(s, k).cold && IsBackupDir(n) :: Rank(n) <= Rank(Of(s, k).rec.cold)
  {
    hide CycleOk, WorkerOk, KnownRecords, DisksOk, PromotedInOrder;
    assert TierOk(Of(s, k), InFlight(s.wrk, k));
  }

  lemma {:induction false} RunKeepsConf(states: seq<State>, events: seq<Event>, conf: Settings)
    requires Run(states, events) && states[0] == Initial(conf)
    ensures states[|events|].conf == conf
  {
    hide Apply, Enabled;
    if events != [] {
      var n := |events| - 1;
      RunKeepsConf(states[..n + 1], events[..n], conf);
      StepKeepsConf(states[n], events[n]);
    }
  }

  lemma CycleKeepsConf(s: State, e: CycleEvent)
    requires CycleEnabled(s, e)
    ensures CycleApply(s, e).conf == s.conf
  {
  }

  lemma WorkerKeepsConf(s: State, e: WorkerEvent)
    requires WorkerEnabled(s, e)
    ensures WorkerApply(s, e).conf == s.conf
  {
  }

  lemma StepKeepsConf(s: State, e: Event)
    requires Enabled(s, e)
    ensures Apply(s, e).conf == s.conf
  {
    hide CycleApply, WorkerApply;
    match e
    case Cyc(c) => CycleKeepsConf(s, c);
    case Wrk(w) => WorkerKeepsConf(s, w);
    case _ =>
  }

  lemma ConfStays(s: State, conf: Settings)
    requires Reachable(s, conf)
    ensures s.conf == conf
  {
    var states: seq<State>, events: seq<Event> :|
      Run(states, events) && states[0] == Initial(conf) && states[|events|] == s;
    RunKeepsConf(states, events, conf);
  }

  /** A second start finds everything as the first left it, whichever entries reached the state file. */
  lemma RestartTwiceIsOnce(s: State, w1: set<string>, w2: set<string>, k: string)
    ensures Of(RestartApply(RestartApply(s, w1), w2), k) == Of(RestartApply(s, w1), k)
  {
    var once := RestartApply(s, w1);
    var twice := RestartApply(once, w2);
    if k in once.tiers {
      assert Of(once, k).hot == Of(s, k).hot && Of(once, k).cold == Of(s, k).cold;
      assert Stored(once.file, k) == Stored(s.file, k) || Stored(once.file, k) == FoundFor(s, k);
      assert twice.tiers[k] == Rebooted(once.file, k, once.tiers[k]);
    }
  }

  /**
   * A second start that writes only entries with something to record leaves the state file as the first
   * left it, if and only if what it writes was written by the first or had not changed.
   */
  lemma SecondStartKeepsFile(s: State, w1: set<string>, w2: set<string>)
    requires forall k | k in w2 :: FoundFor(RestartApply(s, w1), k) != NOTHING
    ensures RestartApply(RestartApply(s, w1), w2).file == RestartApply(s, w1).file
       <==> forall k | k in w2 :: k in w1 || FoundFor(s, k) == Stored(s.file, k)
  {
    hide RestartApply, FoundFor, Stored;
    var once := RestartApply(s, w1);
    forall k | k in w2
      ensures FoundFor(once, k) == Stored(once.file, k) <==> k in w1 || FoundFor(s, k) == Stored(s.file, k)
    {
      FoundAgain(s, w1, k);
    }
    RestartFile(once, w2);
    WritingKeeps(once.file, RestartApply(once, w2).file, w2, k => FoundFor(once, k));
  }

  lemma FoundAgain(s: State, w: set<string>, k: string)
    ensures var once := RestartApply(s, w);
            FoundFor(once, k) == FoundFor(s, k)
            && Stored(once.file, k) == (if k in w then FoundFor(s, k) else Stored(s.file, k))
  {
    hide RestartApply, Newest, IsNewest;
    SameDirs(s, w, k);
    RestartFile(s, w);
  }

  /** Writing entries over a file changes nothing if and only if they are there already. */
  lemma WritingKeeps(file: StateFile, file': StateFile, written: set<string>, entry: string -> Record)
    requires file'.Keys == file.Keys + written && forall k | k in written :: entry(k) != NOTHING
    requires forall k | k in file' :: file'[k] == if k in written then entry(k) else file[k]
    ensures file' == file <==> forall k | k in written :: entry(k) == Stored(file, k)
  {
    if forall k | k in written :: entry(k) == Stored(file, k) {
      forall k | k in written
        ensures k in file
      {
        assert entry(k) == Stored(file, k);
      }
      assert file'.Keys == file.Keys;
    } else {
      var k :| k in written && entry(k) != Stored(file, k);
      assert file'[k] == entry(k);
    }
  }

  lemma SameDirs(s: State, written: set<string>, k: string)
    ensures Of(RestartApply(s, written), k).hot == Of(s, k).hot && Of(RestartApply(s, written), k).cold == Of(s, k).cold
  {
  }

  lemma RestartFile(s: State, written: set<string>)
    ensures var file := RestartApply(s, written).file;
            && file.Keys == s.file.Keys + written
            && forall k | k in file :: file[k] == if k in written then FoundFor(s, k) else s.file[k]
  {
  }

  // ---- Only configured servers ------------------------------------------------------------------------

  /** Directories, jobs and processes concern configured servers. */
  predicate Configured(s: State) {
    && s.tiers.Keys <= s.conf.keys
    && (forall i | 0 <= i < |s.queue| :: s.queue[i].key in s.conf.keys)
    && (!s.cyc.CIdle? ==> s.cyc.key in s.conf.keys)
    && (!s.wrk.WIdle? ==> s.wrk.job.key in s.conf.keys)
  }

  lemma CycleTierStepStaysConfigured(s: State, e: CycleEvent)
    requires Configured(s) && CycleEnabled(s, e) && CycleWritesTier(e)
    ensures Configured(CycleApply(s, e))
  {
    hide CycleOtherStep, Cleaned, Moved, CanMove;
  }

  lemma CycleOtherStepStaysConfigured(s: State, e: CycleEvent)
    requires Configured(s) && CycleEnabled(s, e) && !CycleWritesTier(e)
    ensures Configured(CycleApply(s, e))
  {
    hide CycleTierStep, IsNewest;
  }

  lemma CycleStaysConfigured(s: State, e: CycleEvent)
    requires Configured(s) && CycleEnabled(s, e)
    ensures Configured(CycleApply(s, e))
  {
    hide CycleApply, Configured;
    if CycleWritesTier(e) {
      CycleTierStepStaysConfigured(s, e);
    } else {
      CycleOtherStepStaysConfigured(s, e);
    }
  }

  lemma WorkerStaysConfigured(s: State, e: WorkerEvent)
    requires Configured(s) && WorkerEnabled(s, e)
    ensures Configured(WorkerApply(s, e))
  {
    hide WorkerApply;
    if e.Remove? || e.CommitCold? {
      RecordStepStaysConfigured(s, e);
    } else if WorkerWritesTier(e) {
      TransferStepStaysConfigured(s, e);
    } else if CallsTracker(e) {
      TrackerStepStaysConfigured(s, e);
    } else {
      MemoryStepStaysConfigured(s, e);
    }
  }

  lemma RecordStepStaysConfigured(s: State, e: WorkerEvent)
    requires Configured(s) && WorkerEnabled(s, e) && (e.Remove? || e.CommitCold?)
    ensures Configured(WorkerApply(s, e))
  {
    hide WorkerTrackerStep, WorkerMemoryStep, RemovedFrom;
  }

  lemma TransferStepShape(s: State, e: WorkerEvent)
    requires WorkerEnabled(s, e) && (e.MakeDir? || e.CopyCold? || e.RenameCold?)
    ensures var s' := WorkerApply(s, e);
            && !s.wrk.WIdle? && !s'.wrk.WIdle? && s'.wrk.job == s.wrk.job
            && s'.queue == s.queue && s'.cyc == s.cyc && s'.conf == s.conf
            && s'.tiers.Keys <= s.tiers.Keys + {s.wrk.job.key}
  {
    hide WorkerTrackerStep, WorkerMemoryStep, Cleaned, Moved, CanMove;
  }

  lemma TransferStepStaysConfigured(s: State, e: WorkerEvent)
    requires Configured(s) && WorkerEnabled(s, e) && (e.MakeDir? || e.CopyCold? || e.RenameCold?)
    ensures Configured(WorkerApply(s, e))
  {
    hide WorkerApply, WorkerEnabled;
    TransferStepShape(s, e);
  }

  lemma TrackerStepStaysConfigured(s: State, e: WorkerEvent)
    requires Configured(s) && WorkerEnabled(s, e) && CallsTracker(e)
    ensures Configured(WorkerApply(s, e))
  {
    hide WorkerTierStep, WorkerMemoryStep;
  }

  lemma MemoryStepStaysConfigured(s: State, e: WorkerEvent)
    requires Configured(s) && WorkerEnabled(s, e) && !CallsTracker(e) && !WorkerWritesTier(e)
    ensures Configured(WorkerApply(s, e))
  {
    hide WorkerTierStep, WorkerTrackerStep, Victims;
  }

  lemma StepStaysConfigured(s: State, e: Event)
    requires Configured(s) && Enabled(s, e)
    ensures Configured(Apply(s, e))
  {
    hide CycleApply, WorkerApply;
    match e
    case Cyc(c) => CycleStaysConfigured(s, c);
    case Wrk(w) => WorkerStaysConfigured(s, w);
    case _ =>
  }

  lemma {:induction false} RunStaysConfigured(states: seq<State>, events: seq<Event>, conf: Settings)
    requires Run(states, events) && states[0] == Initial(conf)
    ensures Configured(states[|events|])
  {
    hide Apply, Enabled;
    if events != [] {
      var n := |events| - 1;
      RunStaysConfigured(states[..n + 1], events[..n], conf);
      StepStaysConfigured(states[n], events[n]);
    }
  }

  lemma ReachableIsConfigured(s: State, conf: Settings)
    requires Reachable(s, conf)
    ensures Configured(s) && s.conf == conf
  {
    var states: seq<State>, events: seq<Event> :|
      Run(states, events) && states[0] == Initial(conf) && states[|events|] == s;
    RunStaysConfigured(states, events, conf);
    ConfStays(s, conf);
  }
}
