/**
 * When every directory named as a snapshot is a complete copy of what was captured under that name. The
 * one way to lose that is a removal that fails part way.
 */
module Fidelity {
  import opened Names
  import opened Pipeline
  import opened Safety
  import opened Guarantees
  import opened HotSafety

  /** Every snapshot of the directory is complete and holds the image captured under its name. */
  predicate DirFaithful(d: Dir, taken: map<string, nat>) {
    forall n | n in d && IsBackupDir(n) :: n in taken && d[n] == Complete(taken[n])
  }

  predicate TierFaithful(t: Tier) {
    DirFaithful(t.hot, t.taken) && DirFaithful(t.cold, t.taken)
  }

  ghost predicate Faithful(s: State) {
    forall k :: TierFaithful(Of(s, k))
  }

  /** A pruning pass removes part of a directory that is there. */
  ghost predicate Damages(s: State, e: Event)
    requires Enabled(s, e)
  {
    && e.Wrk? && e.w.Remove? && e.w.how.Damaged?
    && var t := Of(s, s.wrk.job.key);
       e.w.n in (if s.wrk.pass.ColdDays? || s.wrk.pass.ColdCount? then t.cold else t.hot)
  }

  /** A finished copy equals its source, which is still there. */
  predicate CopyTrue(s: State) {
    s.wrk.WCopied? ==>
      var t, sel := Of(s, s.wrk.job.key), s.wrk.sel;
      && IsBackupDir(sel) && sel in t.hot
      && InProgress(sel) in t.cold && t.cold[InProgress(sel)] == t.hot[sel]
  }

  // ---- The cycle ---------------------------------------------------------------------------------------

  /** Snapshots already there stay as they are. */
  predicate HotStays(t: Tier, t': Tier) {
    && t'.cold == t.cold
    && forall n | n in t.hot && IsBackupDir(n) :: n in t'.hot && t'.hot[n] == t.hot[n]
  }

  lemma RenamedFaithful(t: Tier, ts: string, image: nat)
    requires HistoryOk(t) && DisksOk(t) && IsBackupDir(ts) && Rank(ts) > Rank(t.latest)
    requires CanMove(t.hot, ts) && t.hot[InProgress(ts)] == Complete(image)
    ensures var t' := t.(hot := Moved(t.hot, ts), taken := t.taken[ts := image], latest := ts);
            HotStays(t, t') && (TierFaithful(t) ==> TierFaithful(t'))
  {
    InProgressIsNotBackup(ts);
    assert ts !in t.taken;
  }

  lemma CycleRenames(s: State, e: CycleEvent, k: string)
    requires Ok(s) && CycleEnabled(s, e) && Renames(s, e)
    ensures var t, t' := Of(s, k), Of(CycleApply(s, e), k);
            HotStays(t, t') && (TierFaithful(t) ==> TierFaithful(t'))
  {
    hide WorkerOk, KnownRecords, ColdOrdered, PromotedInOrder, CycleOtherStep, TierFaithful;
    if k == s.cyc.key {
      assert TierOk(Of(s, k), InFlight(s.wrk, k));
      RenamedFaithful(Of(s, k), s.cyc.ts, s.cyc.image);
    }
  }

  lemma CycleWrites(s: State, e: CycleEvent, k: string)
    requires Ok(s) && CycleEnabled(s, e) && WritesHot(e) && !Renames(s, e)
    ensures var t, t' := Of(s, k), Of(CycleApply(s, e), k);
            HotStays(t, t') && (TierFaithful(t) ==> TierFaithful(t'))
  {
    hide Ok, CycleApply;
    CopyNamesAreBackups(s);
    CycleWriteEffect(s, e);
  }

  lemma CycleLeavesDirs(s: State, e: CycleEvent, k: string)
    requires CycleEnabled(s, e) && !WritesHot(e)
    ensures var t := Of(s, k); Of(CycleApply(s, e), k) == t.(rec := Of(CycleApply(s, e), k).rec)
  {
  }

  lemma CycleKeepsFaithful(s: State, e: CycleEvent, k: string)
    requires Ok(s) && CycleEnabled(s, e)
    ensures var t, t' := Of(s, k), Of(CycleApply(s, e), k);
            HotStays(t, t') && (TierFaithful(t) ==> TierFaithful(t'))
  {
    hide Ok, CycleApply;
    if !WritesHot(e) {
      CycleLeavesDirs(s, e, k);
    } else if Renames(s, e) {
      CycleRenames(s, e, k);
    } else {
      CycleWrites(s, e, k);
    }
  }

  lemma CycleKeepsCopy(s: State, e: CycleEvent)
    requires Ok(s) && CopyTrue(s) && CycleEnabled(s, e)
    ensures CopyTrue(CycleApply(s, e))
  {
    hide Ok, CycleApply;
    var k := if s.wrk.WIdle? then "" else s.wrk.job.key;
    CycleAdds(s, e, k);
    CycleKeepsFaithful(s, e, k);
  }

  // ---- The worker --------------------------------------------------------------------------------------

  lemma WorkerCopies(s: State, works: bool, left: Left)
    requires Ok(s) && WorkerEnabled(s, CopyCold(works, left))
    ensures CopyTrue(WorkerApply(s, CopyCold(works, left)))
  {
    SelectedIsBackup(s);
    hide Ok, WorkerTrackerStep, WorkerMemoryStep, Cleaned;
  }

  lemma OnlyCopyCopies(s: State, e: WorkerEvent)
    requires WorkerEnabled(s, e) && !e.CopyCold?
    ensures !WorkerApply(s, e).wrk.WCopied?
  {
  }

  lemma WorkerKeepsCopy(s: State, e: WorkerEvent)
    requires Ok(s) && WorkerEnabled(s, e)
    ensures CopyTrue(WorkerApply(s, e))
  {
    hide Ok, WorkerApply;
    if e.CopyCold? {
      WorkerCopies(s, e.works, e.left);
    } else {
      OnlyCopyCopies(s, e);
    }
  }

  lemma PromotedFaithful(t: Tier, sel: string)
    requires TierFaithful(t) && IsBackupDir(sel) && sel in t.hot
    requires CanMove(t.cold, sel) && t.cold[InProgress(sel)] == t.hot[sel]
    ensures TierFaithful(t.(cold := Moved(t.cold, sel), promoted := t.promoted + [sel]))
  {
  }

  lemma PromotionKeepsFaithful(s: State, e: WorkerEvent, k: string)
    requires CopyTrue(s) && WorkerEnabled(s, e) && Promotes(s, e)
    requires TierFaithful(Of(s, k))
    ensures TierFaithful(Of(WorkerApply(s, e), k))
  {
    hide WorkerApply, TierFaithful, Moved;
    PromotionEffect(s, e, k);
    if k == s.wrk.job.key {
      PromotedFaithful(Of(s, k), s.wrk.sel);
    }
  }

  lemma ColdWriteKeepsFaithful(s: State, e: WorkerEvent, k: string)
    requires Ok(s) && WorkerEnabled(s, e) && WritesCold(e) && !Promotes(s, e)
    requires TierFaithful(Of(s, k))
    ensures TierFaithful(Of(WorkerApply(s, e), k))
  {
    hide Ok, WorkerApply;
    SelectedIsBackup(s);
    ColdWriteFrame(s, e);
    ColdWriteEffect(s, e);
  }

  lemma WorkerKeepsFaithful(s: State, e: WorkerEvent, k: string)
    requires Ok(s) && CopyTrue(s) && WorkerEnabled(s, e) && !Damages(s, Wrk(e))
    requires TierFaithful(Of(s, k))
    ensures TierFaithful(Of(WorkerApply(s, e), k))
  {
    hide Ok, WorkerApply;
    if !WorkerWritesTier(e) {
      OtherKeepsTiers(s, e);
    } else if e.CommitCold? {
      CommitEffect(s, k);
    } else if e.Remove? {
      RemoveEffect(s, e.n, e.how, k);
    } else if Promotes(s, e) {
      PromotionKeepsFaithful(s, e, k);
    } else {
      ColdWriteKeepsFaithful(s, e, k);
    }
  }

  /** What is left of a directory removed in part is no complete copy of anything. */
  lemma DamageShows(s: State, e: Event)
    requires Ok(s) && Enabled(s, e) && Damages(s, e)
    ensures !Faithful(Apply(s, e))
  {
    hide CycleOk, KnownRecords, TierOk, WorkerApply;
    var k := s.wrk.job.key;
    RemoveEffect(s, e.w.n, e.w.how, k);
    assert IsBackupDir(e.w.n);
    assert !TierFaithful(Of(Apply(s, e), k));
  }

  // ---- Every run ---------------------------------------------------------------------------------------

  lemma StepKeepsCopy(s: State, e: Event)
    requires Ok(s) && CopyTrue(s) && Enabled(s, e)
    ensures CopyTrue(Apply(s, e))
  {
    hide Ok, CycleApply, WorkerApply;
    match e
    case Cyc(c) => CycleKeepsCopy(s, c);
    case Wrk(w) => WorkerKeepsCopy(s, w);
    case _ =>
  }

  lemma {:induction false} RunKeepsCopy(states: seq<State>, events: seq<Event>, conf: Settings)
    requires Run(states, events) && states[0] == Initial(conf)
    ensures CopyTrue(states[|events|])
  {
    if events != [] {
      hide Ok, CopyTrue, Apply, Enabled;
      var n := |events| - 1;
      RunKeepsCopy(states[..n + 1], events[..n], conf);
      RunIsOk(states[..n + 1], events[..n], conf);
      StepKeepsCopy(states[n], events[n]);
    }
  }

  lemma StepKeepsFaithful(s: State, e: Event)
    requires Ok(s) && CopyTrue(s) && Faithful(s) && Enabled(s, e) && !Damages(s, e)
    ensures Faithful(Apply(s, e))
  {
    hide Ok, CopyTrue, TierFaithful, CycleApply, WorkerApply, RestartApply;
    forall k
      ensures TierFaithful(Of(Apply(s, e), k))
    {
      assert TierFaithful(Of(s, k));
      match e
      case Cyc(c) => CycleKeepsFaithful(s, c, k);
      case Wrk(w) => WorkerKeepsFaithful(s, w, k);
      case Restart(written) => RestartKeepsFaithful(s, written, k);
      case FileLost(_) =>
    }
  }

  lemma RestartKeepsFaithful(s: State, written: set<string>, k: string)
    requires TierFaithful(Of(s, k))
    ensures TierFaithful(Of(RestartApply(s, written), k))
  {
  }

  /** From a faithful state, the next one is faithful if and only if the step damages no snapshot. */
  lemma FidelityIsLostByDamage(s: State, conf: Settings, e: Event)
    requires Reachable(s, conf) && Faithful(s) && Enabled(s, e)
    ensures Faithful(Apply(s, e)) <==> !Damages(s, e)
  {
    hide Ok, CopyTrue, Faithful, Apply, Enabled;
    var states: seq<State>, events: seq<Event> :|
      Run(states, events) && states[0] == Initial(conf) && states[|events|] == s;
    RunKeepsCopy(states, events, conf);
    RunIsOk(states, events, conf);
    if Damages(s, e) {
      DamageShows(s, e);
    } else {
      StepKeepsFaithful(s, e);
    }
  }

  /** No removal in the run failed part way. */
  ghost predicate Undamaged(states: seq<State>, events: seq<Event>)
    requires Run(states, events)
  {
    forall i | 0 <= i < |events| :: !Damages(states[i], events[i])
  }

  ghost predicate AlwaysFaithful(states: seq<State>) {
    forall i | 0 <= i < |states| :: Faithful(states[i])
  }

  /**
   * All along a run, crashes and failures included, every snapshot in either tier is a complete copy of
   * what was captured under its name, if and only if no removal in the run failed part way.
   */
  lemma {:induction false} RunsAreFaithful(states: seq<State>, events: seq<Event>, conf: Settings)
    requires Run(states, events) && states[0] == Initial(conf)
    ensures AlwaysFaithful(states) <==> Undamaged(states, events)
  {
    hide Faithful, Apply, Enabled, Damages;
    StartIsFaithful(conf);
    if events != [] {
      var n := |events| - 1;
      var before, earlier := states[..n + 1], events[..n];
      RunsAreFaithful(before, earlier, conf);
      assert states == before + [states[n + 1]] && events == earlier + [events[n]];
      assert Reachable(states[n], conf) by {
        assert Run(before, earlier) && before[0] == Initial(conf) && before[|earlier|] == states[n];
      }
      if Faithful(states[n]) {
        FidelityIsLostByDamage(states[n], conf, events[n]);
      }
      assert forall i | 0 <= i < n :: Damages(before[i], earlier[i]) <==> Damages(states[i], events[i]);
    }
  }

  lemma StartIsFaithful(conf: Settings)
    ensures Faithful(Initial(conf))
  {
  }
}
