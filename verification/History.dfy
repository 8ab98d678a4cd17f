/**
 * The order of promotions over whole runs, crashes and lost state files included. A start may leave the
 * record behind the promotions made before it; what keeps the order then is that every job queued since
 * is for a capture later than all of them.
 */
module History {
  import opened Names
  import opened Pipeline
  import opened Safety
  import opened Guarantees
  import opened HotSafety

  /** Every final rename into the cold tier in the run so far. */
  function AllPromoted(t: Tier): seq<string> {
    t.earlier + t.promoted
  }

  predicate Increasing(names: seq<string>) {
    forall i, j | 0 <= i < j < |names| :: Rank(names[i]) < Rank(names[j])
  }

  /** n is later than every promotion. */
  predicate Later(t: Tier, n: string) {
    forall i | 0 <= i < |AllPromoted(t)| :: Rank(AllPromoted(t)[i]) < Rank(n)
  }

  /** The record, or the name about to be recorded, covers every promotion. */
  predicate Remembers(t: Tier, inFlight: string) {
    forall i | 0 <= i < |AllPromoted(t)| ::
      Rank(AllPromoted(t)[i]) <= Rank(if inFlight == "" then t.rec.cold else inFlight)
  }

  /** A capture on disk that is later than every promotion. */
  predicate Fresh(t: Tier, ts: string) {
    ts in t.hot && IsBackupDir(ts) && Later(t, ts)
  }

  /** The cycle has a completed capture that it may still queue. */
  predicate Pending(c: Cycle, k: string) {
    (c.CRenamed? || c.CCaptured? || c.CCommitted? || c.CFileRead? || c.CFiled? || c.CMarked?) && c.key == k
  }

  /** The worker's job is for a later capture, and it has promoted nothing for it yet. */
  predicate FreshWork(t: Tier, w: Worker, k: string) {
    if w.WIdle? || w.job.key != k then true
    else
      match w
      case WTaken(job) => Fresh(t, job.timestamp)
      case WListed(_, sel) => sel != "" ==> Later(t, sel)
      case WSkipping(_) => true
      case WMarking(_, sel, _) => Later(t, sel)
      case WMarkingSel(_, sel, _) => Later(t, sel)
      case WStarting(_, sel, _) => Later(t, sel)
      case WCopying(_, sel, _) => Later(t, sel)
      case WCopied(_, sel, _) => Later(t, sel)
      case WRenamed(_, _) => false
      case WCommitted(_, _, _) => false
      case WFileRead(_, _, _, _) => false
      case WClearing(_, _, ok) => !ok
      case WClearingSel(_, _, ok) => !ok
      case WListing(_, _) => false
      case WPruning(_, _, _) => false
  }

  predicate FreshQueue(t: Tier, queue: seq<Job>, k: string) {
    forall i | 0 <= i < |queue| && queue[i].key == k :: Fresh(t, queue[i].timestamp)
  }

  predicate FreshCycle(t: Tier, c: Cycle, k: string) {
    Pending(c, k) ==> Fresh(t, c.ts)
  }

  predicate InOrder(t: Tier) {
    Increasing(AllPromoted(t)) && forall i | 0 <= i < |AllPromoted(t)| :: AllPromoted(t)[i] in t.taken
  }

  /** Everything under way for k is for captures later than every promotion. */
  predicate AllFresh(s: State, k: string) {
    var t := Of(s, k);
    FreshQueue(t, s.queue, k) && FreshCycle(t, s.cyc, k) && FreshWork(t, s.wrk, k)
  }

  predicate Kept(s: State, k: string) {
    InOrder(Of(s, k)) && (Remembers(Of(s, k), InFlight(s.wrk, k)) || AllFresh(s, k))
  }

  // ---- The cycle ---------------------------------------------------------------------------------------

  /** What was fresh stays so: snapshots stay and nothing is promoted. */
  lemma CycleKeepsFresh(t: Tier, t': Tier)
    requires CycleOnlyAdds(t, t')
    ensures AllPromoted(t') == AllPromoted(t)
    ensures forall n :: Fresh(t, n) ==> Fresh(t', n)
    ensures forall n :: Later(t, n) ==> Later(t', n)
    ensures InOrder(t) ==> InOrder(t')
    ensures forall n :: Remembers(t, n) ==> Remembers(t', n)
  {
  }

  lemma PendingGoesOn(s: State, e: CycleEvent, k: string)
    requires CycleEnabled(s, e) && Pending(CycleApply(s, e).cyc, k)
    ensures s.cyc.key == k && CycleApply(s, e).cyc.ts == s.cyc.ts
    ensures Pending(s.cyc, k) || Renames(s, e)
  {
  }

  lemma CycleQueues(s: State, e: CycleEvent)
    requires CycleEnabled(s, e)
    ensures var q := CycleApply(s, e).queue;
            q == s.queue || (e.Enqueue? && q == s.queue + [Job(s.cyc.key, s.cyc.ts)])
  {
  }

  /** A new capture is later than everything promoted before. */
  lemma RenamedIsFresh(s: State, e: CycleEvent)
    requires Ok(s) && CycleEnabled(s, e) && Renames(s, e) && InOrder(Of(s, s.cyc.key))
    ensures Fresh(Of(CycleApply(s, e), s.cyc.key), s.cyc.ts)
  {
    hide WorkerOk, KnownRecords, DisksOk, ColdOrdered, PromotedInOrder, CycleOtherStep;
    assert TierOk(Of(s, s.cyc.key), InFlight(s.wrk, s.cyc.key));
  }

  lemma CycleKeepsQueue(s: State, e: CycleEvent, k: string)
    requires Ok(s) && CycleEnabled(s, e)
    requires FreshQueue(Of(s, k), s.queue, k) && FreshCycle(Of(s, k), s.cyc, k)
    ensures FreshQueue(Of(CycleApply(s, e), k), CycleApply(s, e).queue, k)
  {
    hide Ok, CycleApply, Fresh;
    CycleAdds(s, e, k);
    CycleKeepsFresh(Of(s, k), Of(CycleApply(s, e), k));
    CycleQueues(s, e);
  }

  lemma CycleKeepsPending(s: State, e: CycleEvent, k: string)
    requires Ok(s) && CycleEnabled(s, e) && InOrder(Of(s, k))
    requires FreshCycle(Of(s, k), s.cyc, k)
    ensures FreshCycle(Of(CycleApply(s, e), k), CycleApply(s, e).cyc, k)
  {
    hide Ok, CycleApply, Fresh, InOrder;
    if Pending(CycleApply(s, e).cyc, k) {
      PendingGoesOn(s, e, k);
      if Renames(s, e) {
        RenamedIsFresh(s, e);
      } else {
        CycleAdds(s, e, k);
        CycleKeepsFresh(Of(s, k), Of(CycleApply(s, e), k));
      }
    }
  }

  lemma CycleKeepsWork(t: Tier, t': Tier, w: Worker, k: string)
    requires FreshWork(t, w, k) && CycleOnlyAdds(t, t')
    ensures FreshWork(t', w, k)
  {
    CycleKeepsFresh(t, t');
  }

  lemma CycleKeepsOrder(s: State, e: CycleEvent, k: string)
    requires Ok(s) && CycleEnabled(s, e) && Kept(s, k)
    ensures Kept(CycleApply(s, e), k)
  {
    hide Ok, CycleApply, FreshWork, FreshQueue, FreshCycle, InOrder, Remembers, Fresh, Later;
    CycleAdds(s, e, k);
    CycleKeepsFresh(Of(s, k), Of(CycleApply(s, e), k));
    if AllFresh(s, k) {
      CycleKeepsQueue(s, e, k);
      CycleKeepsPending(s, e, k);
      CycleKeepsWork(Of(s, k), Of(CycleApply(s, e), k), s.wrk, k);
    }
  }

  // ---- The worker --------------------------------------------------------------------------------------

  /** The newest of a directory with a fresh capture is later than every promotion. */
  lemma NewestIsLater(t: Tier, ts: string)
    requires Fresh(t, ts)
    ensures Later(t, Newest(t.hot.Keys))
  {
    assert IsNewest(Newest(t.hot.Keys), t.hot.Keys);
  }

  lemma TakeKeepsOrder(s: State, k: string)
    requires WorkerEnabled(s, Take) && Kept(s, k)
    ensures Kept(WorkerApply(s, Take), k)
  {
    hide WorkerTierStep, WorkerTrackerStep, InOrder, Fresh, Remembers;
    assert s.queue == [s.queue[0]] + s.queue[1..];
  }

  lemma ListKeepsOrder(s: State, readable: bool, k: string)
    requires WorkerEnabled(s, ListHot(readable)) && Kept(s, k)
    ensures Kept(WorkerApply(s, ListHot(readable)), k)
  {
    hide WorkerTierStep, WorkerTrackerStep, InOrder, Remembers, FreshQueue, FreshCycle, Later, Newest;
    if k == s.wrk.job.key && AllFresh(s, k) {
      NewestIsLater(Of(s, k), s.wrk.job.timestamp);
    }
  }

  /** The other steps that leave the tiers alone. */
  lemma WorkGoesOn(s: State, e: WorkerEvent, t: Tier, k: string)
    requires WorkerEnabled(s, e) && !WorkerWritesTier(e) && !e.Take? && !e.ListHot?
    requires FreshWork(t, s.wrk, k)
    ensures FreshWork(t, WorkerApply(s, e).wrk, k)
  {
    hide WorkerTierStep, Later, Fresh, Victims;
  }

  lemma RenamedIsRecordedNext(s: State, e: WorkerEvent, k: string)
    requires WorkerEnabled(s, e) && !WorkerWritesTier(e)
    ensures InFlight(s.wrk, k) == "" && InFlight(WorkerApply(s, e).wrk, k) == ""
  {
    hide WorkerTierStep, Victims;
  }

  lemma QuietKeepsOrder(s: State, e: WorkerEvent, k: string)
    requires WorkerEnabled(s, e) && !WorkerWritesTier(e) && !e.Take? && !e.ListHot? && Kept(s, k)
    ensures Kept(WorkerApply(s, e), k)
  {
    hide WorkerApply, InOrder, Remembers, FreshWork, FreshQueue, FreshCycle;
    OtherKeepsTiers(s, e);
    RenamedIsRecordedNext(s, e, k);
    OnlyTakeTakes(s, e);
    if AllFresh(s, k) {
      WorkGoesOn(s, e, Of(s, k), k);
    }
  }

  lemma OnlyTakeTakes(s: State, e: WorkerEvent)
    requires WorkerEnabled(s, e) && !e.Take?
    ensures WorkerApply(s, e).queue == s.queue && WorkerApply(s, e).cyc == s.cyc
  {
  }

  /** A transfer's steps before its final rename change neither promotions nor hot snapshots. */
  lemma WriteEffect(s: State, e: WorkerEvent, k: string)
    requires Ok(s) && WorkerEnabled(s, e) && WritesCold(e) && !Promotes(s, e)
    ensures var t, t' := Of(s, k), Of(WorkerApply(s, e), k); t' == t.(cold := t'.cold)
  {
    hide Ok, WorkerApply;
    SelectedIsBackup(s);
    ColdWriteFrame(s, e);
    ColdWriteEffect(s, e);
  }

  lemma WriteGoesOn(s: State, e: WorkerEvent, k: string)
    requires WorkerEnabled(s, e) && WritesCold(e) && !Promotes(s, e)
    ensures var w, w' := s.wrk, WorkerApply(s, e).wrk;
            && !w.WIdle? && !w'.WIdle? && w'.job == w.job
            && (w.WStarting? || w.WCopying? || w.WCopied?)
            && (((w'.WCopying? || w'.WCopied?) && w'.sel == w.sel) || (w'.WClearing? && !w'.ok))
  {
    hide WorkerTrackerStep, WorkerMemoryStep, Cleaned;
  }

  lemma WriteKeepsOrder(s: State, e: WorkerEvent, k: string)
    requires Ok(s) && WorkerEnabled(s, e) && WritesCold(e) && !Promotes(s, e) && Kept(s, k)
    ensures Kept(WorkerApply(s, e), k)
  {
    hide Ok, WorkerApply;
    WriteEffect(s, e, k);
    WriteGoesOn(s, e, k);
    OnlyTakeTakes(s, e);
    SameHistory(Of(s, k), Of(WorkerApply(s, e), k));
    hide InOrder, Remembers, Fresh, Later;
  }

  /** What the order speaks of is the hot directory, the promotions, the record and the captures. */
  lemma SameHistory(t: Tier, t': Tier)
    requires t'.hot == t.hot && t'.earlier == t.earlier && t'.promoted == t.promoted && t'.rec == t.rec
    requires t'.taken == t.taken
    ensures InOrder(t') == InOrder(t)
    ensures forall n :: Remembers(t', n) == Remembers(t, n)
    ensures forall n :: Fresh(t', n) == Fresh(t, n)
    ensures forall n :: Later(t', n) == Later(t, n)
  {
  }

  lemma OneMorePromoted(t: Tier, t': Tier, sel: string)
    requires InOrder(t) && Later(t, sel) && sel in t.taken && IsBackupDir(sel)
    requires t' == t.(cold := t'.cold, promoted := t.promoted + [sel])
    ensures InOrder(t') && Remembers(t', sel)
  {
    assert AllPromoted(t') == AllPromoted(t) + [sel];
  }

  /** Either the record covers the promotions, and the selected name is newer, or all work is fresh. */
  lemma PromotionKeepsOrder(s: State, e: WorkerEvent, k: string)
    requires Ok(s) && WorkerEnabled(s, e) && Promotes(s, e) && Kept(s, k)
    ensures Kept(WorkerApply(s, e), k)
  {
    hide Ok, WorkerApply, InOrder, Later, Fresh, FreshQueue, FreshCycle, Moved, Remembers;
    PromotionEffect(s, e, k);
    PromotionGoesOn(s, e);
    OnlyTakeTakes(s, e);
    if k == s.wrk.job.key {
      SelectedIsLater(s);
      OneMorePromoted(Of(s, k), Of(WorkerApply(s, e), k), s.wrk.sel);
    }
  }

  lemma SelectedIsLater(s: State)
    requires Ok(s) && s.wrk.WCopied? && Kept(s, s.wrk.job.key)
    ensures Later(Of(s, s.wrk.job.key), s.wrk.sel)
    ensures s.wrk.sel in Of(s, s.wrk.job.key).taken && IsBackupDir(s.wrk.sel)
  {
    SelectedIsBackup(s);
    hide CycleOk, KnownRecords, TierOk;
  }

  lemma PromotionGoesOn(s: State, e: WorkerEvent)
    requires WorkerEnabled(s, e) && Promotes(s, e)
    ensures s.wrk.WCopied? && WorkerApply(s, e).wrk == WRenamed(s.wrk.job, s.wrk.sel)
  {
    hide WorkerTrackerStep, WorkerMemoryStep, Moved;
  }

  lemma CommitKeepsOrder(s: State, k: string)
    requires Ok(s) && WorkerEnabled(s, CommitCold) && Kept(s, k)
    ensures Kept(WorkerApply(s, CommitCold), k)
  {
    hide Ok, WorkerApply;
    RenamedIsNamed(s);
    CommitEffect(s, k);
    OnlyTakeTakes(s, CommitCold);
    SameButRecord(Of(s, k), Of(WorkerApply(s, CommitCold), k));
    hide InOrder, Fresh, Later, FreshQueue, FreshCycle;
  }

  lemma RenamedIsNamed(s: State)
    requires Ok(s) && s.wrk.WRenamed?
    ensures s.wrk.sel != ""
  {
    hide CycleOk, KnownRecords, DisksOk, ColdOrdered, PromotedInOrder;
    assert TierOk(Of(s, s.wrk.job.key), s.wrk.sel);
  }

  lemma SameButRecord(t: Tier, t': Tier)
    requires t' == t.(rec := t'.rec)
    ensures AllPromoted(t') == AllPromoted(t) && InOrder(t') == InOrder(t)
  {
  }

  lemma RemoveKeepsOrder(s: State, n: string, how: Removal, k: string)
    requires WorkerEnabled(s, Remove(n, how)) && Kept(s, k)
    ensures Kept(WorkerApply(s, Remove(n, how)), k)
  {
    hide WorkerApply, FreshQueue, FreshCycle, RemovedFrom, InOrder, Remembers, Fresh, Later;
    RemoveEffect(s, n, how, k);
    OnlyTakeTakes(s, Remove(n, how));
    RemovedHistory(Of(s, k), s.wrk.pass, n, how, InFlight(s.wrk, k));
  }

  lemma RemovedHistory(t: Tier, pass: Pass, n: string, how: Removal, inFlight: string)
    ensures var t' := RemovedFrom(t, pass, n, how);
            InOrder(t') == InOrder(t) && Remembers(t', inFlight) == Remembers(t, inFlight)
  {
  }

  lemma WorkerKeepsOrder(s: State, e: WorkerEvent, k: string)
    requires Ok(s) && WorkerEnabled(s, e) && Kept(s, k)
    ensures Kept(WorkerApply(s, e), k)
  {
    hide Ok, Kept, WorkerApply;
    if e.Take? {
      TakeKeepsOrder(s, k);
    } else if e.ListHot? {
      ListKeepsOrder(s, e.readable, k);
    } else if !WorkerWritesTier(e) {
      QuietKeepsOrder(s, e, k);
    } else if e.CommitCold? {
      CommitKeepsOrder(s, k);
    } else if e.Remove? {
      RemoveKeepsOrder(s, e.n, e.how, k);
    } else if Promotes(s, e) {
      PromotionKeepsOrder(s, e, k);
    } else {
      WriteKeepsOrder(s, e, k);
    }
  }

  // ---- Every run ---------------------------------------------------------------------------------------

  lemma RestartHistory(s: State, written: set<string>, k: string)
    ensures var s' := RestartApply(s, written);
            && AllPromoted(Of(s', k)) == AllPromoted(Of(s, k)) && Of(s', k).taken == Of(s, k).taken
            && s'.queue == [] && s'.cyc.CIdle? && s'.wrk.WIdle?
  {
    hide Discovered;
  }

  lemma RestartKeepsOrder(s: State, written: set<string>, k: string)
    requires Kept(s, k)
    ensures Kept(RestartApply(s, written), k)
  {
    hide RestartApply, AllPromoted, Fresh, Later, Remembers;
    RestartHistory(s, written, k);
  }

  lemma StepKeepsOrder(s: State, e: Event, k: string)
    requires Ok(s) && Enabled(s, e) && Kept(s, k)
    ensures Kept(Apply(s, e), k)
  {
    hide Ok, CycleApply, WorkerApply, RestartApply;
    match e
    case Cyc(c) =>
      hide Kept;
      CycleKeepsOrder(s, c, k);
    case Wrk(w) =>
      hide Kept;
      WorkerKeepsOrder(s, w, k);
    case Restart(written) =>
      hide Kept;
      RestartKeepsOrder(s, written, k);
    case FileLost(m) =>
      assert Of(s.(file := m), k) == Of(s, k);
  }

  lemma {:induction false} RunKeepsOrder(states: seq<State>, events: seq<Event>, conf: Settings, k: string)
    requires Run(states, events) && states[0] == Initial(conf)
    ensures Kept(states[|events|], k)
  {
    if events != [] {
      hide Ok, Kept, Apply, Enabled;
      var n := |events| - 1;
      RunKeepsOrder(states[..n + 1], events[..n], conf, k);
      RunIsOk(states[..n + 1], events[..n], conf);
      StepKeepsOrder(states[n], events[n], k);
    }
  }

  /**
   * Over a whole run, whatever crashes, starts and old state files it contains, the promotions of a
   * server are in strictly increasing order: no timestamp is promoted twice.
   */
  lemma PromotionsIncrease(s: State, conf: Settings, k: string)
    requires Reachable(s, conf)
    ensures Increasing(AllPromoted(Of(s, k)))
    ensures forall i, j | 0 <= i < j < |AllPromoted(Of(s, k))| :: AllPromoted(Of(s, k))[i] != AllPromoted(Of(s, k))[j]
  {
    hide Remembers, AllFresh;
    var states: seq<State>, events: seq<Event> :|
      Run(states, events) && states[0] == Initial(conf) && states[|events|] == s;
    RunKeepsOrder(states, events, conf, k);
  }

  /** A start leaves the record behind the last promotion unless the state file or the cold tier still has it. */
  lemma StartRemembers(s: State, conf: Settings, written: set<string>, k: string)
    requires Reachable(s, conf) && k in conf.keys && AllPromoted(Of(s, k)) != []
    ensures var last := AllPromoted(Of(s, k))[|AllPromoted(Of(s, k))| - 1];
            var t := Of(RestartApply(s, written), k);
            AllPromoted(t) == AllPromoted(Of(s, k))
            && (Remembers(t, "") <==>
                  || Rank(last) <= Rank(Stored(s.file, k).cold)
                  || Rank(last) <= Rank(Newest(Of(s, k).cold.Keys)))
  {
    hide Reachable, Newest, IsNewest;
    PromotionsIncrease(s, conf, k);
    RestartRecovers(s, conf, written, k);
    RestartHistory(s, written, k);
  }
}
