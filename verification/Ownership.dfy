/** Every entry of the status table belongs to someone who will clear it. */
module Ownership {
  import opened Pipeline

  /** The cycle has announced this server and not yet handed it over or given it up. */
  predicate CycleHolds(c: Cycle, k: string) {
    !c.CIdle? && !c.CRead? && !c.CMarked? && c.key == k
  }

  /** The entries, as server and snapshot, that the job in flight will still clear. */
  function Held(w: Worker): set<Job> {
    match w
    case WIdle => {}
    case WListing(_, _) => {}
    case WPruning(_, _, _) => {}
    case WTaken(job) => {job}
    case WListed(job, _) => {job}
    case WSkipping(job) => {job}
    case WMarking(job, _, _) => {job}
    case WClearingSel(job, sel, _) => {Job(job.key, sel)}
    case WMarkingSel(job, sel, _) => {job, Job(job.key, sel)}
    case WStarting(job, sel, _) => {job, Job(job.key, sel)}
    case WCopying(job, sel, _) => {job, Job(job.key, sel)}
    case WCopied(job, sel, _) => {job, Job(job.key, sel)}
    case WRenamed(job, sel) => {job, Job(job.key, sel)}
    case WCommitted(job, sel, _) => {job, Job(job.key, sel)}
    case WFileRead(job, sel, _, _) => {job, Job(job.key, sel)}
    case WClearing(job, sel, _) => {job, Job(job.key, sel)}
  }

  /** The cycle is about to queue, or to drop, the job that clears this entry. */
  predicate HandingOver(c: Cycle, k: string, snapshot: string) {
    c.CMarked? && c.key == k && c.ts == snapshot
  }

  predicate Owned(s: State, k: string, snapshot: string) {
    || CycleHolds(s.cyc, k)
    || HandingOver(s.cyc, k, snapshot)
    || Job(k, snapshot) in s.queue
    || Job(k, snapshot) in Held(s.wrk)
  }

  predicate AllOwned(s: State) {
    forall k | k in s.tracker :: Owned(s, k, s.tracker[k].snapshot)
  }

  lemma CycleTierKeepsOwned(s: State, e: CycleEvent)
    requires AllOwned(s) && CycleEnabled(s, e) && CycleWritesTier(e)
    ensures AllOwned(CycleApply(s, e))
  {
    hide CycleOtherStep;
    var s' := CycleApply(s, e);
    forall k | k in s'.tracker
      ensures Owned(s', k, s'.tracker[k].snapshot)
    {
      assert Owned(s, k, s.tracker[k].snapshot);
    }
  }

  lemma CycleKeepsOwned(s: State, e: CycleEvent)
    requires AllOwned(s) && CycleEnabled(s, e)
    ensures AllOwned(CycleApply(s, e))
  {
    hide CycleTierStep;
    if CycleWritesTier(e) {
      CycleTierKeepsOwned(s, e);
    } else {
      var s' := CycleApply(s, e);
      forall k | k in s'.tracker
        ensures Owned(s', k, s'.tracker[k].snapshot)
      {
        assert k in s.tracker ==> Owned(s, k, s.tracker[k].snapshot);
      }
    }
  }

  lemma MarkKeepsOwned(s: State, e: WorkerEvent)
    requires AllOwned(s) && WorkerEnabled(s, e) && (e.MarkJob? || e.MarkSel? || e.Report?)
    ensures AllOwned(WorkerApply(s, e))
  {
    hide WorkerTierStep, WorkerMemoryStep;
    var s' := WorkerApply(s, e);
    forall k | k in s'.tracker
      ensures Owned(s', k, s'.tracker[k].snapshot)
    {
      assert k in s.tracker ==> Owned(s, k, s.tracker[k].snapshot);
    }
  }

  lemma ClearKeepsOwned(s: State, e: WorkerEvent)
    requires AllOwned(s) && WorkerEnabled(s, e) && (e.Skip? || e.ClearJob? || e.ClearSel?)
    ensures AllOwned(WorkerApply(s, e))
  {
    hide WorkerTierStep, WorkerMemoryStep;
    var s' := WorkerApply(s, e);
    forall k | k in s'.tracker
      ensures Owned(s', k, s'.tracker[k].snapshot)
    {
      assert Owned(s, k, s.tracker[k].snapshot);
    }
  }

  /** A step that makes no tracker call keeps what the worker holds. */
  lemma QuietStep(s: State, e: WorkerEvent)
    requires WorkerEnabled(s, e) && !CallsTracker(e) && !e.Take?
    ensures var s' := WorkerApply(s, e); s'.tracker == s.tracker && s'.queue == s.queue && s'.cyc == s.cyc
  {
    hide WorkerTrackerStep, Moved, CanMove, Cleaned, RemovedFrom, Victims, Newest, Next;
  }

  lemma QuietHeld(s: State, e: WorkerEvent)
    requires WorkerEnabled(s, e) && !CallsTracker(e) && !e.Take?
    ensures Held(s.wrk) <= Held(WorkerApply(s, e).wrk)
  {
    hide WorkerTrackerStep;
  }

  lemma QuietKeepsOwned(s: State, s': State)
    requires AllOwned(s)
    requires s'.tracker == s.tracker && s'.queue == s.queue && s'.cyc == s.cyc && Held(s.wrk) <= Held(s'.wrk)
    ensures AllOwned(s')
  {
    forall k | k in s'.tracker
      ensures Owned(s', k, s'.tracker[k].snapshot)
    {
      assert Owned(s, k, s.tracker[k].snapshot);
    }
  }

  lemma TakeKeepsOwned(s: State)
    requires AllOwned(s) && WorkerEnabled(s, Take)
    ensures AllOwned(WorkerApply(s, Take))
  {
    assert s.queue == [s.queue[0]] + s.queue[1..];
  }

  lemma WorkerKeepsOwned(s: State, e: WorkerEvent)
    requires AllOwned(s) && WorkerEnabled(s, e)
    ensures AllOwned(WorkerApply(s, e))
  {
    if e.Take? {
      TakeKeepsOwned(s);
    } else if e.MarkJob? || e.MarkSel? || e.Report? {
      MarkKeepsOwned(s, e);
    } else if CallsTracker(e) {
      ClearKeepsOwned(s, e);
    } else {
      QuietStep(s, e);
      QuietHeld(s, e);
      QuietKeepsOwned(s, WorkerApply(s, e));
    }
  }

  /** In every interleaving each entry is owned by the running cycle, a queued job or the job in flight. */
  lemma {:induction false} EntriesAreOwned(states: seq<State>, events: seq<Event>, conf: Settings)
    requires Run(states, events) && states[0] == Initial(conf)
    ensures AllOwned(states[|events|])
  {
    if events != [] {
      var n := |events| - 1;
      assert Run(states[..n + 1], events[..n]);
      EntriesAreOwned(states[..n + 1], events[..n], conf);
      var s, e := states[n], events[n];
      assert AllOwned(s) && Enabled(s, e) && states[n + 1] == Apply(s, e);
      match e
      case Cyc(c) => CycleKeepsOwned(s, c);
      case Wrk(w) => WorkerKeepsOwned(s, w);
      case Restart(_) =>
      case FileLost(_) =>
    }
  }

  /** With no cycle running, no job in flight and nothing queued, the table is empty. */
  lemma QuietMeansEmpty(s: State, conf: Settings)
    requires Reachable(s, conf)
    requires s.cyc.CIdle? && s.wrk.WIdle? && s.queue == []
    ensures s.tracker == map[]
  {
    var states: seq<State>, events: seq<Event> :|
      Run(states, events) && states[0] == Initial(conf) && states[|events|] == s;
    EntriesAreOwned(states, events, conf);
    assert forall k, snapshot :: !Owned(s, k, snapshot);
  }

  // ---- Nobody else's entry -----------------------------------------------------------------------------

  /** The entry is for the job's own snapshot or for the one selected for it. */
  predicate OfJob(w: Worker, k: string, snapshot: string) {
    !w.WIdle? && w.job.key == k && (snapshot == w.job.timestamp || Job(k, snapshot) in Held(w))
  }

  /** The worker neither removes nor changes an entry that is not its job's: a newer capture's stays. */
  lemma WorkerSparesOthers(s: State, e: WorkerEvent, k: string)
    requires WorkerEnabled(s, e) && k in s.tracker && !OfJob(s.wrk, k, s.tracker[k].snapshot)
    ensures k in WorkerApply(s, e).tracker && WorkerApply(s, e).tracker[k] == s.tracker[k]
  {
    hide WorkerTierStep, WorkerMemoryStep;
    if !CallsTracker(e) {
      UncalledKeepsTable(s, e);
    }
  }

  lemma UncalledKeepsTable(s: State, e: WorkerEvent)
    requires WorkerEnabled(s, e) && !CallsTracker(e)
    ensures WorkerApply(s, e).tracker == s.tracker
  {
    hide WorkerTrackerStep;
  }

  /** Nor does the cycle touch another server's. */
  lemma CycleSparesOthers(s: State, e: CycleEvent, k: string)
    requires CycleEnabled(s, e) && k in s.tracker && (s.cyc.CIdle? || s.cyc.key != k)
    ensures k in CycleApply(s, e).tracker && CycleApply(s, e).tracker[k] == s.tracker[k]
  {
  }
}
