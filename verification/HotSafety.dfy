/**
 * Pruning the hot tier while the cycle captures and the worker transfers. As long as no pruning by age
 * reaches the last capture it stays, which is what both of them depend on. `calm` says that none has so far;
 * with `hot_prune_days` at 0 none ever does.
 */
module HotSafety {
  import opened Names
  import opened Pipeline
  import opened Safety
  import opened Guarantees
  import Prune

  // ---- The invariant ---------------------------------------------------------------------------------

  /** The last capture is there and undamaged, and cold snapshots were copied from undamaged ones. */
  predicate TierKept(t: Tier) {
    && (t.latest != "" ==> t.latest in t.hot && t.latest !in t.hurtHot)
    && (forall n | n in t.hurtHot :: n in t.taken)
    && (forall n | n in t.cold && IsBackupDir(n) ::
          n in t.taken && (t.cold[n] == Complete(t.taken[n]) || n in t.hurtCold))
  }

  predicate Capturing(c: Cycle) {
    c.CRead? || c.CSaving? || c.CCopying? || c.CCopied?
  }

  /** A link-dest base that was the newest hot snapshot at the start is still the last capture. */
  predicate BaseKept(s: State, calm: bool) {
    calm && Capturing(s.cyc) && s.cyc.baseNewest ==>
      s.cyc.base != "" && s.cyc.base == Of(s, s.cyc.key).latest
  }

  /** From selecting the hot snapshot until its copy is complete. */
  predicate InTransfer(w: Worker) {
    (w.WListed? && w.sel != "") || w.WMarking? || w.WMarkingSel? || w.WStarting? || w.WCopying?
  }

  predicate WorkerKept(s: State, calm: bool) {
    var w := s.wrk;
    && (InTransfer(w) ==>
          var t := Of(s, w.job.key);
          w.sel in t.hot && IsBackupDir(w.sel) && (calm ==> w.sel !in t.hurtHot))
    && (w.WCopied? && calm ==>
          var t := Of(s, w.job.key);
          InProgress(w.sel) in t.cold && w.sel in t.taken && t.cold[InProgress(w.sel)] == Complete(t.taken[w.sel]))
    && (w.WPruning? && calm && (w.pass.HotDays? || w.pass.HotCount?) ==>
          var t := Of(s, w.job.key);
          forall v | v in w.victims :: v in t.taken && Rank(v) < Rank(t.latest))
  }

  ghost predicate Kept(s: State, calm: bool) {
    && (calm ==> forall k :: TierKept(Of(s, k)))
    && BaseKept(s, calm)
    && WorkerKept(s, calm)
  }

  /** A pruning pass by age over the hot tier has its cutoff at or before the last capture's time. */
  ghost predicate SparesLatest(s: State, e: Event)
    requires Enabled(s, e)
  {
    e.Wrk? && e.w.ListPass? && e.w.readable && s.wrk.pass.HotDays? && s.conf.hotDays > 0 ==>
      var latest := Of(s, s.wrk.job.key).latest;
      SpellsTime(latest) ==> Prune.Cutoff(e.w.now, s.conf.hotDays) <= Prune.Instant(latest, s.conf.offset)
  }

  // ---- Steps of the cycle ----------------------------------------------------------------------------

  /** Whatever the cycle does, snapshots stay and captures only get newer. */
  predicate CycleOnlyAdds(t: Tier, t': Tier) {
    && CycleMayChange(t, t')
    && (forall n | n in t.hot && IsBackupDir(n) :: n in t'.hot)
    && Rank(t.latest) <= Rank(t'.latest)
  }

  lemma CycleAdds(s: State, e: CycleEvent, k: string)
    requires Ok(s) && CycleEnabled(s, e)
    ensures CycleOnlyAdds(Of(s, k), Of(CycleApply(s, e), k))
    ensures CycleApply(s, e).wrk == s.wrk
  {
    hide Ok, CycleTierStep;
    if CycleWritesTier(e) {
      if Renames(s, e) {
        RenameAdds(s, e, k);
      } else if e.Commit? {
        CommitAdds(s, k);
      } else {
        CopyNamesAreBackups(s);
        CycleWriteEffect(s, e);
      }
    }
  }

  lemma CommitAdds(s: State, k: string)
    requires CycleEnabled(s, Commit)
    ensures CycleOnlyAdds(Of(s, k), Of(CycleApply(s, Commit), k)) && CycleApply(s, Commit).wrk == s.wrk
  {
    hide CycleOtherStep;
  }

  lemma RenameAdds(s: State, e: CycleEvent, k: string)
    requires Ok(s) && CycleEnabled(s, e) && Renames(s, e)
    ensures CycleOnlyAdds(Of(s, k), Of(CycleApply(s, e), k)) && CycleApply(s, e).wrk == s.wrk
  {
    hide CycleOtherStep, WorkerOk, KnownRecords, TierOk;
    assert TierOk(Of(s, s.cyc.key), InFlight(s.wrk, s.cyc.key));
    RenamedOk(Of(s, s.cyc.key), InFlight(s.wrk, s.cyc.key), s.cyc.ts, s.cyc.image);
    InProgressIsNotBackup(s.cyc.ts);
  }

  lemma WorkerKeptByCycle(s: State, s': State, calm: bool)
    requires WorkerKept(s, calm) && s'.wrk == s.wrk && s'.conf == s.conf
    requires !s.wrk.WIdle? ==> CycleOnlyAdds(Of(s, s.wrk.job.key), Of(s', s.wrk.job.key))
    ensures WorkerKept(s', calm)
  {
  }

  /** A step that captures nothing keeps the last capture, which was there before. */
  lemma TierKeptByCycle(t: Tier, t': Tier)
    requires TierKept(t) && CycleOnlyAdds(t, t') && t'.latest == t.latest && Known(t, t.latest)
    requires forall n | n in t.taken :: IsBackupDir(n)
    ensures TierKept(t')
  {
  }

  lemma TierKeptByRename(t: Tier, ts: string, image: nat)
    requires TierKept(t) && IsBackupDir(ts) && ts !in t.taken && CanMove(t.hot, ts)
    ensures TierKept(t.(hot := Moved(t.hot, ts), taken := t.taken[ts := image], latest := ts))
  {
  }

  lemma LatestIsNewest(t: Tier, inFlight: string, r: string)
    requires TierOk(t, inFlight) && TierKept(t)
    requires r != "" && IsNewest(r, t.hot.Keys)
    ensures r == t.latest
  {
    hide ColdOrdered, PromotedInOrder;
    RankInjective(r, t.latest);
  }

  lemma BaseKeptAtBegin(s: State, k: string, calm: bool)
    requires Ok(s) && Kept(s, calm) && CycleEnabled(s, Begin(k))
    ensures BaseKept(CycleApply(s, Begin(k)), calm)
  {
    hide TierOk, CycleOk, WorkerOk, KnownRecords, TierKept, WorkerKept;
    var base := Of(s, k).rec.hot;
    if calm && base != "" && IsNewest(base, Of(s, k).hot.Keys) {
      assert TierOk(Of(s, k), InFlight(s.wrk, k)) && TierKept(Of(s, k));
      LatestIsNewest(Of(s, k), InFlight(s.wrk, k), base);
    }
  }

  lemma BaseKeptLater(s: State, e: CycleEvent, calm: bool)
    requires BaseKept(s, calm) && CycleEnabled(s, e) && !e.Begin?
    ensures BaseKept(CycleApply(s, e), calm)
  {
  }

  lemma TiersKeptByCycle(s: State, e: CycleEvent, k: string)
    requires Ok(s) && TierKept(Of(s, k)) && CycleEnabled(s, e)
    ensures TierKept(Of(CycleApply(s, e), k))
  {
    hide CycleOk, WorkerOk, KnownRecords, TierKept, DisksOk, ColdOrdered, PromotedInOrder, CycleApply;
    assert TierOk(Of(s, k), InFlight(s.wrk, k));
    CycleAdds(s, e, k);
    if Renames(s, e) && s.cyc.key == k {
      RenamedTierKept(s, e);
    } else {
      SameLatest(s, e, k);
      TierKeptByCycle(Of(s, k), Of(CycleApply(s, e), k));
    }
  }

  lemma RenamedTierKept(s: State, e: CycleEvent)
    requires Ok(s) && CycleEnabled(s, e) && Renames(s, e) && TierKept(Of(s, s.cyc.key))
    ensures TierKept(Of(CycleApply(s, e), s.cyc.key))
  {
    hide WorkerOk, KnownRecords, DisksOk, ColdOrdered, PromotedInOrder, TierKept, CycleOtherStep;
    assert TierOk(Of(s, s.cyc.key), InFlight(s.wrk, s.cyc.key));
    TierKeptByRename(Of(s, s.cyc.key), s.cyc.ts, s.cyc.image);
  }

  lemma SameLatest(s: State, e: CycleEvent, k: string)
    requires CycleEnabled(s, e) && !(Renames(s, e) && s.cyc.key == k)
    ensures Of(CycleApply(s, e), k).latest == Of(s, k).latest
  {
  }

  lemma CycleKeeps(s: State, e: CycleEvent, calm: bool)
    requires Ok(s) && Kept(s, calm) && CycleEnabled(s, e)
    ensures Kept(CycleApply(s, e), calm)
  {
    hide Ok, TierKept, WorkerKept, BaseKept, CycleApply;
    var s' := CycleApply(s, e);
    CycleKeepsConf(s, e);
    if calm {
      forall k
        ensures TierKept(Of(s', k))
      {
        TiersKeptByCycle(s, e, k);
      }
    }
    if e.Begin? {
      BaseKeptAtBegin(s, e.key, calm);
    } else {
      BaseKeptLater(s, e, calm);
    }
    var k := if s.wrk.WIdle? then "" else s.wrk.job.key;
    CycleAdds(s, e, k);
    WorkerKeptByCycle(s, s', calm);
  }

  // ---- Steps of the worker ---------------------------------------------------------------------------

  lemma TierKeptByColdWrite(t: Tier, cold: Dir)
    requires TierKept(t) && SameSnapshots(t.cold, cold)
    ensures TierKept(t.(cold := cold))
  {
  }

  lemma TierKeptByPromotion(t: Tier, sel: string)
    requires TierKept(t) && IsBackupDir(sel) && CanMove(t.cold, sel)
    requires sel in t.taken && t.cold[InProgress(sel)] == Complete(t.taken[sel])
    ensures TierKept(t.(cold := Moved(t.cold, sel), promoted := t.promoted + [sel]))
  {
  }

  /** Removing anything but the last capture from the hot tier, and anything at all from the cold one. */
  lemma TierKeptByRemoval(t: Tier, pass: Pass, n: string, how: Removal)
    requires TierKept(t)
    requires pass.HotDays? || pass.HotCount? ==> n in t.taken && n != t.latest
    ensures TierKept(RemovedFrom(t, pass, n, how))
  {
  }

  /** Counting never chooses the last capture: no snapshot is newer. */
  lemma CountSparesLatest(t: Tier, keep: int)
    requires TierKept(t) && HistoryOk(t) && DisksOk(t)
    ensures forall v | v in Prune.CountVictims(t.hot.Keys, keep) :: v in t.taken && Rank(v) < Rank(t.latest)
  {
    assert Prune.Newer(t.hot.Keys, t.latest) == {};
    if t.latest != "" {
      Prune.CountKeepsNewest(t.hot.Keys, keep, t.latest);
    }
    forall v | v in Prune.CountVictims(t.hot.Keys, keep)
      ensures v in t.taken && Rank(v) < Rank(t.latest)
    {
      LexIsRank(v, t.latest);
    }
  }

  /** Nor does age, with a cutoff at or before the last capture's time. */
  lemma DaysSpareLatest(t: Tier, days: int, now: int, offset: int)
    requires HistoryOk(t) && DisksOk(t)
    requires days > 0 && SpellsTime(t.latest) ==> Prune.Cutoff(now, days) <= Prune.Instant(t.latest, offset)
    ensures forall v | v in Prune.DaysVictims(t.hot.Keys, days, now, offset) :: v in t.taken && Rank(v) < Rank(t.latest)
  {
    hide Prune.Cutoff, Prune.Instant;
    forall v | v in Prune.DaysVictims(t.hot.Keys, days, now, offset)
      ensures v in t.taken && Rank(v) < Rank(t.latest)
    {
      LexIsRank(v, t.latest);
    }
  }

  /** Every step but a removal or a promotion leaves what TierKept speaks of alone. */
  lemma QuietTierKept(s: State, e: WorkerEvent, k: string)
    requires Ok(s) && TierKept(Of(s, k)) && WorkerEnabled(s, e)
    requires !e.Remove? && !Promotes(s, e)
    ensures TierKept(Of(WorkerApply(s, e), k))
    ensures Of(WorkerApply(s, e), k).latest == Of(s, k).latest
  {
    hide Ok, TierKept, WorkerTierStep, WorkerApply;
    if !WorkerWritesTier(e) {
      OtherKeepsTiers(s, e);
    } else if e.CommitCold? {
      CommitKeepsTier(s, k);
    } else {
      SelectedIsBackup(s);
      ColdWriteFrame(s, e);
      ColdWriteEffect(s, e);
      if k == s.wrk.job.key {
        TierKeptByColdWrite(Of(s, k), Of(WorkerApply(s, e), k).cold);
      }
    }
  }

  lemma CommitKeepsTier(s: State, k: string)
    requires TierKept(Of(s, k)) && WorkerEnabled(s, CommitCold)
    ensures TierKept(Of(WorkerApply(s, CommitCold), k))
    ensures Of(WorkerApply(s, CommitCold), k).latest == Of(s, k).latest
  {
    hide WorkerTrackerStep, WorkerMemoryStep;
  }

  lemma PromotionTierKept(s: State, e: WorkerEvent, k: string)
    requires Ok(s) && WorkerKept(s, true) && TierKept(Of(s, k))
    requires WorkerEnabled(s, e) && Promotes(s, e)
    ensures TierKept(Of(WorkerApply(s, e), k))
    ensures Of(WorkerApply(s, e), k).latest == Of(s, k).latest
  {
    hide Ok, TierKept, WorkerApply, Moved;
    SelectedIsBackup(s);
    PromotionEffect(s, e, k);
    if k == s.wrk.job.key {
      TierKeptByPromotion(Of(s, k), s.wrk.sel);
    }
  }

  lemma PromotionEffect(s: State, e: WorkerEvent, k: string)
    requires WorkerEnabled(s, e) && Promotes(s, e)
    ensures var t, sel := Of(s, k), s.wrk.sel;
            Of(WorkerApply(s, e), k) ==
            if k != s.wrk.job.key then t
            else t.(cold := Moved(t.cold, sel), promoted := t.promoted + [sel])
  {
    hide WorkerTrackerStep, WorkerMemoryStep, Moved, CanMove;
  }

  lemma RemoveEffect(s: State, n: string, how: Removal, k: string)
    requires WorkerEnabled(s, Remove(n, how))
    ensures var s' := WorkerApply(s, Remove(n, how));
            && s'.wrk.WPruning? && s'.wrk.job == s.wrk.job
            && Of(s', k) == if k == s.wrk.job.key then RemovedFrom(Of(s, k), s.wrk.pass, n, how) else Of(s, k)
  {
    hide WorkerTrackerStep, WorkerMemoryStep, RemovedFrom;
  }

  lemma CommitEffect(s: State, k: string)
    requires WorkerEnabled(s, CommitCold)
    ensures var s' := WorkerApply(s, CommitCold);
            var t, t' := Of(s, k), Of(s', k);
            && s'.wrk.WCommitted? && s'.wrk.job == s.wrk.job
            && (if k == s.wrk.job.key then t' == t.(rec := t'.rec) && t'.rec.cold == s.wrk.sel else t' == t)
  {
    hide WorkerTrackerStep, WorkerMemoryStep;
  }

  lemma RemovalTierKept(s: State, n: string, how: Removal, k: string)
    requires WorkerKept(s, true) && TierKept(Of(s, k)) && WorkerEnabled(s, Remove(n, how))
    ensures TierKept(Of(WorkerApply(s, Remove(n, how)), k))
    ensures Of(WorkerApply(s, Remove(n, how)), k).latest == Of(s, k).latest
  {
    hide TierKept, WorkerTrackerStep, WorkerMemoryStep;
    if k == s.wrk.job.key {
      TierKeptByRemoval(Of(s, k), s.wrk.pass, n, how);
    }
  }

  lemma TiersKeptByWorker(s: State, e: WorkerEvent, k: string)
    requires Ok(s) && WorkerKept(s, true) && TierKept(Of(s, k)) && WorkerEnabled(s, e)
    ensures TierKept(Of(WorkerApply(s, e), k))
    ensures Of(WorkerApply(s, e), k).latest == Of(s, k).latest
  {
    hide Ok, WorkerKept, TierKept, WorkerApply;
    if e.Remove? {
      RemovalTierKept(s, e.n, e.how, k);
    } else if Promotes(s, e) {
      PromotionTierKept(s, e, k);
    } else {
      QuietTierKept(s, e, k);
    }
  }

  // What the worker itself carries along.

  lemma ListKeepsWorker(s: State, readable: bool, calm: bool)
    requires Ok(s) && WorkerEnabled(s, ListHot(readable))
    requires calm ==> TierKept(Of(s, s.wrk.job.key))
    ensures WorkerKept(WorkerApply(s, ListHot(readable)), calm)
  {
    hide CycleOk, WorkerOk, KnownRecords, TierOk, TierKept, WorkerTierStep, WorkerTrackerStep;
    var t := Of(s, s.wrk.job.key);
    var sel := WorkerApply(s, ListHot(readable)).wrk.sel;
    assert TierOk(t, InFlight(s.wrk, s.wrk.job.key));
    if calm && sel != "" {
      LatestIsNewest(t, InFlight(s.wrk, s.wrk.job.key), sel);
      LatestUnhurt(t);
    }
  }

  lemma LatestUnhurt(t: Tier)
    requires TierKept(t) && t.latest != ""
    ensures t.latest !in t.hurtHot
  {
  }

  lemma CopyKeepsWorker(s: State, works: bool, left: Left, calm: bool)
    requires Ok(s) && WorkerKept(s, calm) && WorkerEnabled(s, CopyCold(works, left))
    ensures WorkerKept(WorkerApply(s, CopyCold(works, left)), calm)
  {
    hide CycleOk, WorkerOk, KnownRecords, ColdOrdered, PromotedInOrder, HistoryOk, WorkerTrackerStep, WorkerMemoryStep;
    assert TierOk(Of(s, s.wrk.job.key), InFlight(s.wrk, s.wrk.job.key));
    InProgressIsNotBackup(s.wrk.sel);
  }

  lemma ListPassKeepsWorker(s: State, readable: bool, now: int, calm: bool)
    requires Ok(s) && WorkerEnabled(s, ListPass(readable, now))
    requires calm ==> TierKept(Of(s, s.wrk.job.key)) && SparesLatest(s, Wrk(ListPass(readable, now)))
    ensures WorkerKept(WorkerApply(s, ListPass(readable, now)), calm)
  {
    hide CycleOk, WorkerOk, KnownRecords, ColdOrdered, PromotedInOrder, TierKept, WorkerTierStep, WorkerTrackerStep;
    var t := Of(s, s.wrk.job.key);
    assert TierOk(t, InFlight(s.wrk, s.wrk.job.key));
    if calm {
      CountSparesLatest(t, s.conf.hotCount);
      if readable && s.wrk.pass.HotDays? {
        DaysSpareLatest(t, s.conf.hotDays, now, s.conf.offset);
      }
    }
  }

  lemma RemoveKeepsWorker(s: State, n: string, how: Removal, calm: bool)
    requires WorkerKept(s, calm) && WorkerEnabled(s, Remove(n, how))
    ensures WorkerKept(WorkerApply(s, Remove(n, how)), calm)
  {
    hide WorkerTrackerStep, WorkerMemoryStep;
  }

  lemma WriteKeepsWorker(s: State, e: WorkerEvent, calm: bool)
    requires WorkerKept(s, calm) && WorkerEnabled(s, e) && (e.MakeDir? || e.RenameCold? || e.CommitCold?)
    ensures WorkerKept(WorkerApply(s, e), calm)
  {
    hide WorkerTrackerStep, WorkerMemoryStep;
  }

  lemma OtherKeepsWorker(s: State, e: WorkerEvent, calm: bool)
    requires WorkerKept(s, calm) && WorkerEnabled(s, e) && !WorkerWritesTier(e) && !e.ListHot? && !e.ListPass?
    ensures WorkerKept(WorkerApply(s, e), calm)
  {
    hide WorkerTierStep;
  }

  lemma WorkerKeepsWorker(s: State, e: WorkerEvent, calm: bool)
    requires Ok(s) && WorkerKept(s, calm) && WorkerEnabled(s, e)
    requires !s.wrk.WIdle? && calm ==> TierKept(Of(s, s.wrk.job.key)) && SparesLatest(s, Wrk(e))
    ensures WorkerKept(WorkerApply(s, e), calm)
  {
    hide Ok, TierKept, WorkerKept, WorkerApply;
    match e
    case ListHot(readable) => ListKeepsWorker(s, readable, calm);
    case CopyCold(works, left) => CopyKeepsWorker(s, works, left, calm);
    case ListPass(readable, now) => ListPassKeepsWorker(s, readable, now, calm);
    case Remove(n, how) => RemoveKeepsWorker(s, n, how, calm);
    case MakeDir(_, _) => WriteKeepsWorker(s, e, calm);
    case RenameCold(_, _) => WriteKeepsWorker(s, e, calm);
    case CommitCold => WriteKeepsWorker(s, e, calm);
    case _ => OtherKeepsWorker(s, e, calm);
  }

  lemma WorkerKeepsCycle(s: State, e: WorkerEvent)
    requires WorkerEnabled(s, e)
    ensures WorkerApply(s, e).cyc == s.cyc
  {
  }

  lemma WorkerKeeps(s: State, e: WorkerEvent, calm: bool)
    requires Ok(s) && Kept(s, calm) && WorkerEnabled(s, e) && (calm ==> SparesLatest(s, Wrk(e)))
    ensures Kept(WorkerApply(s, e), calm)
  {
    hide Ok, TierKept, WorkerKept, WorkerApply;
    var s' := WorkerApply(s, e);
    WorkerKeepsConf(s, e);
    WorkerKeepsCycle(s, e);
    if calm {
      forall k
        ensures TierKept(Of(s', k)) && Of(s', k).latest == Of(s, k).latest
      {
        TiersKeptByWorker(s, e, k);
      }
    }
    WorkerKeepsWorker(s, e, calm);
  }

  // ---- Every run -------------------------------------------------------------------------------------

  lemma RestartKeeps(s: State, written: set<string>, calm: bool)
    requires Kept(s, calm)
    ensures Kept(RestartApply(s, written), calm)
  {
    var s' := RestartApply(s, written);
    if calm {
      forall k
        ensures TierKept(Of(s', k))
      {
        assert TierKept(Of(s, k));
      }
    }
  }

  lemma StepKeeps(s: State, e: Event, calm: bool)
    requires Ok(s) && Kept(s, calm) && Enabled(s, e) && (calm ==> SparesLatest(s, e))
    ensures Kept(Apply(s, e), calm)
  {
    hide Ok, CycleApply, WorkerApply, TierKept, RestartApply;
    match e
    case Cyc(c) => CycleKeeps(s, c, calm);
    case Wrk(w) => WorkerKeeps(s, w, calm);
    case Restart(written) => RestartKeeps(s, written, calm);
    case FileLost(m) =>
      assert forall k :: TierKept(Of(s, k)) ==> TierKept(Of(s.(file := m), k));
  }

  /** No pruning by age in the run reached the last capture of its server. */
  ghost predicate Spared(states: seq<State>, events: seq<Event>)
    requires Run(states, events)
  {
    forall i | 0 <= i < |events| :: SparesLatest(states[i], events[i])
  }

  ghost predicate SparedReachable(s: State, conf: Settings) {
    exists states: seq<State>, events: seq<Event> ::
      Run(states, events) && states[0] == Initial(conf) && states[|events|] == s && Spared(states, events)
  }

  lemma {:induction false} RunKeeps(states: seq<State>, events: seq<Event>, conf: Settings, calm: bool)
    requires Run(states, events) && states[0] == Initial(conf) && (calm ==> Spared(states, events))
    ensures Kept(states[|events|], calm)
  {
    if events != [] {
      hide Ok, Kept, Apply, Enabled, SparesLatest;
      var n := |events| - 1;
      RunKeeps(states[..n + 1], events[..n], conf, calm);
      RunIsOk(states[..n + 1], events[..n], conf);
      StepKeeps(states[n], events[n], calm);
    }
  }

  lemma ReachableIsKept(s: State, conf: Settings)
    requires Reachable(s, conf)
    ensures Kept(s, false) && Ok(s)
  {
    hide Ok, Kept;
    var states: seq<State>, events: seq<Event> :|
      Run(states, events) && states[0] == Initial(conf) && states[|events|] == s;
    RunKeeps(states, events, conf, false);
    RunIsOk(states, events, conf);
  }

  lemma SparedIsKept(s: State, conf: Settings)
    requires SparedReachable(s, conf)
    ensures Kept(s, true) && Ok(s)
  {
    hide Ok, Kept, Spared;
    var states: seq<State>, events: seq<Event> :|
      Run(states, events) && states[0] == Initial(conf) && states[|events|] == s && Spared(states, events);
    RunKeeps(states, events, conf, true);
    RunIsOk(states, events, conf);
  }

  /** With `hot_prune_days` at 0 every run is one. */
  lemma ZeroDaysSpare(s: State, conf: Settings)
    requires Reachable(s, conf) && conf.hotDays <= 0
    ensures SparedReachable(s, conf)
  {
    hide Apply, Enabled;
    var states: seq<State>, events: seq<Event> :|
      Run(states, events) && states[0] == Initial(conf) && states[|events|] == s;
    forall i | 0 <= i < |events|
      ensures SparesLatest(states[i], events[i])
    {
      RunKeepsConf(states[..i + 1], events[..i], conf);
      assert states[..i + 1][i] == states[i];
    }
    assert Spared(states, events);
  }

  // ---- The promises ----------------------------------------------------------------------------------

  /** The snapshot being transferred is never pruned, whatever the settings. */
  lemma TransferSourceStays(s: State, conf: Settings)
    requires Reachable(s, conf) && InTransfer(s.wrk)
    ensures s.wrk.sel in Of(s, s.wrk.job.key).hot
  {
    hide Reachable, Ok;
    ReachableIsKept(s, conf);
  }

  /** A link-dest base that was the newest hot snapshot at the start stays, whole, as long as the capture runs. */
  lemma LinkBaseStays(s: State, conf: Settings)
    requires SparedReachable(s, conf) && Capturing(s.cyc) && s.cyc.baseNewest
    ensures var t := Of(s, s.cyc.key);
            s.cyc.base in t.hot && s.cyc.base in t.taken && t.hot[s.cyc.base] == Complete(t.taken[s.cyc.base])
  {
    hide SparedReachable, CycleOk, WorkerOk, KnownRecords, WorkerKept;
    SparedIsKept(s, conf);
    assert TierKept(Of(s, s.cyc.key)) && TierOk(Of(s, s.cyc.key), InFlight(s.wrk, s.cyc.key));
  }

  /** Every cold snapshot is a whole copy of what was captured, unless removing it failed part way. */
  lemma ColdSnapshotsAreWhole(s: State, conf: Settings, k: string, n: string)
    requires SparedReachable(s, conf) && n in Of(s, k).cold && IsBackupDir(n)
    ensures var t := Of(s, k); n in t.taken && (t.cold[n] == Complete(t.taken[n]) || n in t.hurtCold)
  {
    hide SparedReachable, Ok;
    SparedIsKept(s, conf);
    assert TierKept(Of(s, k));
  }

  /** The last capture is always on disk and whole. */
  lemma LastCaptureStays(s: State, conf: Settings, k: string)
    requires SparedReachable(s, conf) && Of(s, k).latest != ""
    ensures var t := Of(s, k);
            t.latest in t.hot && t.latest in t.taken && t.hot[t.latest] == Complete(t.taken[t.latest])
  {
    hide SparedReachable, CycleOk, WorkerOk, KnownRecords, WorkerKept, BaseKept;
    SparedIsKept(s, conf);
    assert TierKept(Of(s, k)) && TierOk(Of(s, k), InFlight(s.wrk, k));
  }
}
