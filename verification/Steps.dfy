/**
 * What single steps of the pipeline do to the fields of the daemon that takes them, and how the effects of
 * one method combine with those of the next.
 */
module Steps {
  import opened Names
  import opened Tracker
  import opened Pipeline
  import Safety
  import Guarantees
  import Prune

  function DirAt(dirs: map<string, Dir>, k: string): Dir {
    if k in dirs then dirs[k] else map[]
  }

  function RecordAt(recs: map<string, Record>, k: string): Record {
    if k in recs then recs[k] else NOTHING
  }

  /** What the outside world answers while one job is processed. */
  datatype Luck = Luck(readable: bool, cancelled: bool, makeDir: bool, copy: bool, rename: bool, write: bool,
                       junk: nat, left: Left, reports: seq<(int, int)>,
                       now: int, listable: Pass -> bool, removal: string -> Removal)

  /** No failure and no cancellation before the snapshot is recorded. */
  predicate Good(luck: Luck) {
    luck.readable && !luck.cancelled && luck.makeDir && luck.copy && luck.rename
  }

  lemma StepReachable(s: State, e: Event, conf: Settings)
    requires Reachable(s, conf) && Enabled(s, e)
    ensures Reachable(Apply(s, e), conf)
  {
    hide Apply, Enabled;
    var states: seq<State>, events: seq<Event> :|
      Run(states, events) && states[0] == Initial(conf) && states[|events|] == s;
    var more, longer := states + [Apply(s, e)], events + [e];
    forall i | 0 <= i < |longer|
      ensures Enabled(more[i], longer[i]) && more[i + 1] == Apply(more[i], longer[i])
    {
      if i < |events| {
        assert more[i] == states[i] && more[i + 1] == states[i + 1] && longer[i] == events[i];
      }
    }
    assert Run(more, longer) && more[0] == Initial(conf) && more[|longer|] == Apply(s, e);
  }

  lemma StartReachable(conf: Settings)
    ensures Reachable(Initial(conf), conf)
  {
    var states, events := [Initial(conf)], [];
    assert Run(states, events) && states[0] == Initial(conf) && states[|events|] == Initial(conf);
  }

  ghost predicate Mirrors(s: State, hot: map<string, Dir>, cold: map<string, Dir>, recs: map<string, Record>) {
    forall k ::
      && Of(s, k).hot == DirAt(hot, k)
      && Of(s, k).cold == DirAt(cold, k)
      && Of(s, k).rec == RecordAt(recs, k)
  }

  lemma MirrorsAt(s: State, k: string, hot: map<string, Dir>, cold: map<string, Dir>, recs: map<string, Record>)
    requires Mirrors(s, hot, cold, recs)
    ensures Of(s, k).hot == DirAt(hot, k) && Of(s, k).cold == DirAt(cold, k) && Of(s, k).rec == RecordAt(recs, k)
  {
  }

  lemma SameTiersMirror(s: State, s': State, hot: map<string, Dir>, cold: map<string, Dir>, recs: map<string, Record>)
    requires Mirrors(s, hot, cold, recs) && s'.tiers == s.tiers
    ensures Mirrors(s', hot, cold, recs)
  {
  }

  // One server's cold directory, hot directory or record changes alike on both sides.

  lemma ColdMirrors(s: State, s': State, k: string, hot: map<string, Dir>, cold: map<string, Dir>,
                    recs: map<string, Record>)
    requires Mirrors(s, hot, cold, recs) && Safety.OthersSame(s, s', k)
    requires Of(s', k).hot == Of(s, k).hot && Of(s', k).rec == Of(s, k).rec
    ensures Mirrors(s', hot, cold[k := Of(s', k).cold], recs)
  {
    assert forall j :: j != k ==> Of(s', j) == Of(s, j);
  }

  lemma HotMirrors(s: State, s': State, k: string, hot: map<string, Dir>, cold: map<string, Dir>,
                   recs: map<string, Record>)
    requires Mirrors(s, hot, cold, recs) && Safety.OthersSame(s, s', k)
    requires Of(s', k).cold == Of(s, k).cold && Of(s', k).rec == Of(s, k).rec
    ensures Mirrors(s', hot[k := Of(s', k).hot], cold, recs)
  {
    assert forall j :: j != k ==> Of(s', j) == Of(s, j);
  }

  lemma RecordMirrors(s: State, s': State, k: string, hot: map<string, Dir>, cold: map<string, Dir>,
                      recs: map<string, Record>)
    requires Mirrors(s, hot, cold, recs) && Safety.OthersSame(s, s', k)
    requires Of(s', k).hot == Of(s, k).hot && Of(s', k).cold == Of(s, k).cold
    ensures Mirrors(s', hot, cold, recs[k := Of(s', k).rec])
  {
    assert forall j :: j != k ==> Of(s', j) == Of(s, j);
  }

  /** A step that concerns k: nothing of the others, the cycle, the queue or the state file changes. */
  ghost predicate Framed(s: State, s': State, k: string) {
    Safety.OthersSame(s, s', k) && s'.cyc == s.cyc && s'.queue == s.queue && s'.file == s.file && s'.conf == s.conf
  }

  lemma FrameParts(s: State, s': State, k: string)
    requires Framed(s, s', k)
    ensures Safety.OthersSame(s, s', k) && s'.queue == s.queue && s'.file == s.file && s'.conf == s.conf
  {
  }

  // What single steps do to the pipeline's state.

  lemma MakeDirStep(s: State, job: Job, sel: string, prev: string, works: bool, junk: nat)
    requires s.wrk == WStarting(job, sel, prev)
    ensures WorkerEnabled(s, MakeDir(works, junk))
    ensures var s', t := WorkerApply(s, MakeDir(works, junk)), Of(s, job.key);
            && Framed(s, s', job.key) && s'.tracker == s.tracker
            && s'.wrk == (if works then WCopying(job, sel, prev) else WClearing(job, sel, false))
            && Of(s', job.key) == (if works then t.(cold := t.cold[InProgress(sel) := Partial(junk)]) else t)
            && (!works ==> s'.tiers == s.tiers)
  {
    hide WorkerTrackerStep, WorkerMemoryStep;
  }

  lemma CopyStep(s: State, job: Job, sel: string, prev: string, works: bool, left: Left)
    requires s.wrk == WCopying(job, sel, prev)
    ensures WorkerEnabled(s, CopyCold(works, left))
    ensures var s', t := WorkerApply(s, CopyCold(works, left)), Of(s, job.key);
            var ok := works && sel in t.hot;
            && Framed(s, s', job.key) && s'.tracker == s.tracker
            && s'.wrk == (if ok then WCopied(job, sel, prev) else WClearing(job, sel, false))
            && Of(s', job.key) ==
               t.(cold := if ok then t.cold[InProgress(sel) := t.hot[sel]] else Cleaned(t.cold, sel, left))
  {
    hide WorkerTrackerStep, WorkerMemoryStep;
  }

  lemma RenameStep(s: State, job: Job, sel: string, prev: string, works: bool, left: Left)
    requires s.wrk == WCopied(job, sel, prev)
    ensures WorkerEnabled(s, RenameCold(works, left))
    ensures var s', t := WorkerApply(s, RenameCold(works, left)), Of(s, job.key);
            var ok := works && CanMove(t.cold, sel);
            && Framed(s, s', job.key) && s'.tracker == s.tracker
            && s'.wrk == (if ok then WRenamed(job, sel) else WClearing(job, sel, false))
            && Of(s', job.key) ==
               (if ok then t.(cold := Moved(t.cold, sel), promoted := t.promoted + [sel])
                else t.(cold := Cleaned(t.cold, sel, left)))
  {
    hide WorkerTrackerStep, WorkerMemoryStep;
  }

  lemma CommitStep(s: State, job: Job, sel: string)
    requires s.wrk == WRenamed(job, sel)
    ensures WorkerEnabled(s, CommitCold)
    ensures var s', rec := WorkerApply(s, CommitCold), PromotedRecord(Of(s, job.key).rec, sel);
            && Framed(s, s', job.key) && s'.tracker == s.tracker && s'.wrk == WCommitted(job, sel, rec)
            && Of(s', job.key) == Of(s, job.key).(rec := rec)
  {
    hide WorkerTrackerStep, WorkerMemoryStep;
  }

  lemma RemoveStep(s: State, job: Job, pass: Pass, victims: set<string>, n: string, how: Removal)
    requires s.wrk == WPruning(job, pass, victims) && n in victims
    ensures WorkerEnabled(s, Remove(n, how))
    ensures var s' := WorkerApply(s, Remove(n, how));
            && Framed(s, s', job.key) && s'.tracker == s.tracker && s'.wrk == WPruning(job, pass, victims - {n})
            && Of(s', job.key) == RemovedFrom(Of(s, job.key), pass, n, how)
  {
    hide WorkerTrackerStep, WorkerMemoryStep;
  }

  lemma SelectSteps(s: State, job: Job, readable: bool)
    requires s.wrk == WTaken(job)
    ensures WorkerEnabled(s, ListHot(readable))
    ensures var sel := if readable then Newest(Of(s, job.key).hot.Keys) else "";
            var s1 := WorkerApply(s, ListHot(readable));
            var prev := Of(s, job.key).rec.cold;
            && s1 == s.(wrk := WListed(job, sel)) && WorkerEnabled(s1, Compare)
            && WorkerApply(s1, Compare)
               == s.(wrk := if sel == "" || (prev != "" && Rank(sel) <= Rank(prev)) then WSkipping(job)
                            else WMarking(job, sel, prev))
  {
    hide WorkerTierStep, WorkerTrackerStep;
  }

  /** Nothing of the other servers, the cycle or the queue changes. */
  ghost predicate OthersFramed(s: State, s': State, k: string) {
    Safety.OthersSame(s, s', k) && s'.cyc == s.cyc && s'.queue == s.queue && s'.conf == s.conf
  }

  lemma CopyFrames(s0: State, s1: State, s2: State, s3: State, k: string)
    requires Framed(s0, s1, k) && s2 == s1.(tracker := s2.tracker) && Framed(s2, s3, k)
    requires Safety.SameSnapshots(Of(s0, k).cold, Of(s1, k).cold)
    requires Safety.SameSnapshots(Of(s2, k).cold, Of(s3, k).cold)
    ensures Framed(s0, s3, k) && Of(s2, k) == Of(s1, k)
    ensures Safety.SameSnapshots(Of(s0, k).cold, Of(s3, k).cold)
  {
  }

  lemma RenameFrames(s0: State, s3: State, s4: State, k: string, sel: string, ok: bool)
    requires Framed(s0, s3, k) && Framed(s3, s4, k)
    requires Safety.SameSnapshots(Of(s0, k).cold, Of(s3, k).cold)
    requires !ok ==> Safety.SameSnapshots(Of(s3, k).cold, Of(s4, k).cold)
    ensures Framed(s0, s4, k)
    ensures !ok ==> Safety.SameSnapshots(Of(s0, k).cold, Of(s4, k).cold)
  {
  }

  lemma NothingFrames(s: State, k: string)
    ensures OthersFramed(s, s, k)
  {
  }

  lemma FrameFrames(s0: State, s: State, s': State, k: string)
    requires OthersFramed(s0, s, k) && Framed(s, s', k)
    ensures OthersFramed(s0, s', k)
  {
  }

  lemma ThenFrames(s0: State, s: State, s': State, k: string)
    requires OthersFramed(s0, s, k) && OthersFramed(s, s', k)
    ensures OthersFramed(s0, s', k)
  {
  }

  lemma MemoryFrames(s0: State, s: State, s': State, k: string)
    requires OthersFramed(s0, s, k)
    requires s'.tiers == s.tiers && s'.cyc == s.cyc && s'.queue == s.queue && s'.conf == s.conf
    ensures OthersFramed(s0, s', k) && Of(s', k) == Of(s, k)
  {
  }

  lemma OffloadFrames(s0: State, s1: State, s2: State, k: string)
    requires s1.tiers == s0.tiers && s1.cyc == s0.cyc && s1.queue == s0.queue && s1.conf == s0.conf
    requires Framed(s1, s2, k)
    ensures OthersFramed(s0, s2, k) && Of(s1, k) == Of(s0, k)
  {
  }

  /** What a transfer does to the server it was for. */
  predicate Transferred(t: Tier, t': Tier, sel: string, ok: bool) {
    if ok then
      sel in t.hot && OnlyPruned(Promoted(t, sel), t')
    else
      t' == t.(cold := t'.cold) && Safety.SameSnapshots(t.cold, t'.cold)
  }

  /**
   * What processing a job does to its server: nothing if there is no hot snapshot newer than the
   * recorded cold one; otherwise the newest is promoted and recorded, or the attempt leaves no trace.
   */
  ghost predicate Processed(t: Tier, t': Tier, good: bool) {
    var best := Newest(t.hot.Keys);
    if Rank(best) <= Rank(t.rec.cold) then t' == t
    else Transferred(t, t', best, true) || (!good && Transferred(t, t', best, false))
  }

  lemma PassFrames(s0: State, s1: State, s2: State, s3: State, k: string)
    requires s1 == s0.(wrk := s1.wrk) && Framed(s1, s2, k) && s3 == s2.(wrk := s3.wrk)
    ensures Framed(s0, s3, k) && Of(s1, k) == Of(s0, k) && Of(s3, k) == Of(s2, k)
  {
    assert forall j :: Of(s1, j) == Of(s0, j) && Of(s3, j) == Of(s2, j);
  }

  lemma PrunedTwice(s0: State, s1: State, s2: State, k: string)
    requires Framed(s0, s1, k) && Framed(s1, s2, k)
    requires OnlyPruned(Of(s0, k), Of(s1, k)) && OnlyPruned(Of(s1, k), Of(s2, k))
    ensures Framed(s0, s2, k) && OnlyPruned(Of(s0, k), Of(s2, k))
  {
  }

  lemma VictimsOfDirs(conf: Settings, t: Tier, u: Tier, pass: Pass, now: int)
    requires t.hot == u.hot && t.cold == u.cold
    ensures Victims(conf, t, pass, now) == Victims(conf, u, pass, now)
  {
  }

  /** Pruning removes or damages snapshots and changes nothing else. */
  predicate OnlyPruned(t: Tier, t': Tier) {
    && t' == t.(hot := t'.hot, cold := t'.cold, hurtHot := t'.hurtHot, hurtCold := t'.hurtCold)
    && (forall n | n in t'.hot :: n in t.hot && (t'.hot[n] == t.hot[n] || n in t'.hurtHot))
    && (forall n | n in t'.cold :: n in t.cold && (t'.cold[n] == t.cold[n] || n in t'.hurtCold))
    && t.hurtHot <= t'.hurtHot && t.hurtCold <= t'.hurtCold
  }

  lemma RecordedNames(s: State, conf: Settings, k: string)
    requires Reachable(s, conf)
    ensures IsRecorded(Of(s, k).rec.cold) && IsRecorded(Of(s, k).rec.hot)
  {
    hide Reachable, Safety.CycleOk, Safety.WorkerOk, KnownRecords;
    Safety.ReachableIsOk(s, conf);
    assert Safety.TierOk(Of(s, k), Safety.InFlight(s.wrk, k));
  }

  // ---- Draining the queue ----------------------------------------------------------------------------

  function KeysOf(queue: seq<Job>): set<string> {
    set i | 0 <= i < |queue| :: queue[i].key
  }

  /** The servers in `done` have been processed once as far as their state tells; the others are as they were. */
  ghost predicate Drained(s: State, s': State, done: set<string>) {
    forall k :: if k in done then Processed(Of(s, k), Of(s', k), true) else Of(s', k) == Of(s, k)
  }

  lemma NewestOfFewer(names: set<string>, fewer: set<string>)
    requires fewer <= names
    ensures Rank(Newest(fewer)) <= Rank(Newest(names))
  {
    assert IsNewest(Newest(fewer), fewer) && IsNewest(Newest(names), names);
  }

  /** Once a job for a server has been processed without failure, further ones change nothing of it. */
  lemma SecondJobChangesNothing(t: Tier, t1: Tier, t2: Tier)
    requires Processed(t, t1, true) && Processed(t1, t2, true)
    ensures t2 == t1
  {
    NewestOfFewer(t.hot.Keys, t1.hot.Keys);
  }

  lemma OneMoreJob(s0: State, s: State, s': State, done: set<string>, k: string)
    requires Drained(s0, s, done)
    requires Safety.OthersSame(s, s', k) && Processed(Of(s, k), Of(s', k), true)
    ensures Drained(s0, s', done + {k})
    ensures k in done ==> Of(s', k) == Of(s, k)
  {
    hide Processed;
    if k in done {
      SecondJobChangesNothing(Of(s0, k), Of(s, k), Of(s', k));
    }
    assert forall j :: j != k ==> Of(s', j) == Of(s, j);
  }

  /** What a drained queue leaves of one server: the larger name recorded, after at most one transfer. */
  ghost predicate Converged(t: Tier, t': Tier) {
    && Guarantees.IsLarger(t'.rec.cold, t.rec.cold, Newest(t.hot.Keys))
    && t'.promoted == t.promoted + (if Rank(Newest(t.hot.Keys)) > Rank(t.rec.cold) then [Newest(t.hot.Keys)] else [])
  }

  lemma DrainConverges(s: State, s': State, done: set<string>)
    requires Drained(s, s', done)
    ensures forall k :: if k in done then Converged(Of(s, k), Of(s', k)) else Of(s', k) == Of(s, k)
  {
  }

  lemma TakeStep(s: State)
    requires s.wrk.WIdle? && s.queue != []
    ensures WorkerEnabled(s, Take)
    ensures WorkerApply(s, Take) == s.(wrk := WTaken(s.queue[0]), queue := s.queue[1..])
  {
    hide WorkerTierStep, WorkerTrackerStep;
  }

  lemma NothingDrained(s: State, q: seq<Job>)
    ensures Drained(s, s, KeysOf(q[..0]))
  {
  }

  lemma JobDrained(s0: State, s: State, s1: State, s2: State, q: seq<Job>, n: nat)
    requires n < |q| && Drained(s0, s, KeysOf(q[..n]))
    requires s1.tiers == s.tiers && Safety.OthersSame(s1, s2, q[n].key)
    requires Processed(Of(s1, q[n].key), Of(s2, q[n].key), true)
    ensures Drained(s0, s2, KeysOf(q[..n + 1]))
  {
    hide Drained, Processed;
    var k := q[n].key;
    assert KeysOf(q[..n + 1]) == KeysOf(q[..n]) + {k} by {
      assert q[..n + 1][n] == q[n] && forall i | 0 <= i < n :: q[..n + 1][i] == q[..n][i];
    }
    assert forall j :: Of(s1, j) == Of(s, j);
    OneMoreJob(s0, s, s2, KeysOf(q[..n]), k);
  }

  // ---- When nothing fails ----------------------------------------------------------------------------

  /** Every directory to be pruned is listed and every removal works. */
  ghost predicate Tidy(luck: Luck) {
    (forall pass :: luck.listable(pass)) && forall n :: luck.removal(n).Gone?
  }

  /** The newer of the recorded hot name and the one just promoted, and the promoted one. */
  function PromotedRecord(rec: Record, sel: string): Record {
    Record(if rec.hot == "" || Rank(sel) >= Rank(rec.hot) then sel else rec.hot, sel)
  }

  lemma PromotedIsLarger(rec: Record, sel: string)
    ensures PromotedRecord(rec, sel).cold == sel && Guarantees.IsLarger(PromotedRecord(rec, sel).hot, sel, rec.hot)
  {
  }

  /** The server after `sel` has been promoted and recorded, before pruning. */
  function Promoted(t: Tier, sel: string): Tier
    requires sel in t.hot
  {
    t.(cold := (t.cold - {InProgress(sel)})[sel := t.hot[sel]],
       promoted := t.promoted + [sel], rec := PromotedRecord(t.rec, sel))
  }

  /** The server after the renamed snapshot has been recorded. */
  function Recorded(t: Tier, sel: string): Tier {
    t.(rec := PromotedRecord(t.rec, sel))
  }

  /** The server after one pruning pass. */
  function Tidied(conf: Settings, t: Tier, pass: Pass, now: int): Tier {
    if pass.ColdDays? || pass.ColdCount? then t.(cold := t.cold - Victims(conf, t, pass, now))
    else t.(hot := t.hot - Victims(conf, t, pass, now))
  }

  function AllTidied(conf: Settings, t: Tier, now: int): Tier {
    var t1 := Tidied(conf, t, ColdDays, now);
    var t2 := Tidied(conf, t1, ColdCount, now);
    var t3 := Tidied(conf, t2, HotDays, now);
    Tidied(conf, t3, HotCount, now)
  }

  lemma CopyThenMove(d: Dir, sel: string, junk: Content, c: Content)
    requires IsBackupDir(sel)
    requires CanMove(d[InProgress(sel) := junk][InProgress(sel) := c], sel)
    ensures Moved(d[InProgress(sel) := junk][InProgress(sel) := c], sel) == (d - {InProgress(sel)})[sel := c]
  {
    InProgressIsNotBackup(sel);
  }

  /** The tier after the victims in `done` have been dealt with, whatever came of each removal. */
  ghost predicate PrunedBy(t: Tier, t': Tier, pass: Pass, done: set<string>, luck: Luck) {
    if pass.ColdDays? || pass.ColdCount? then
      && t' == t.(cold := t'.cold, hurtCold := t'.hurtCold)
      && RemovedBy(t.cold, t'.cold, done, luck.removal) && t'.hurtCold == t.hurtCold + Hurt(done, luck.removal)
    else
      && t' == t.(hot := t'.hot, hurtHot := t'.hurtHot)
      && RemovedBy(t.hot, t'.hot, done, luck.removal) && t'.hurtHot == t.hurtHot + Hurt(done, luck.removal)
  }

  function Hurt(done: set<string>, removal: string -> Removal): set<string> {
    set n | n in done && removal(n).Damaged?
  }

  predicate RemovedBy(d: Dir, d': Dir, done: set<string>, removal: string -> Removal) {
    && d'.Keys == d.Keys - (set n | n in done && removal(n).Gone?)
    && forall n | n in d' && !(n in done && removal(n).Damaged?) :: d'[n] == d[n]
  }

  lemma OneMoreRemoved(t: Tier, t1: Tier, pass: Pass, done: set<string>, n: string, luck: Luck)
    requires PrunedBy(t, t1, pass, done, luck) && n !in done
    ensures PrunedBy(t, RemovedFrom(t1, pass, n, luck.removal(n)), pass, done + {n}, luck)
  {
  }

  lemma PrunedOnly(t: Tier, t': Tier, pass: Pass, done: set<string>, luck: Luck)
    requires PrunedBy(t, t', pass, done, luck)
    ensures OnlyPruned(t, t')
  {
  }

  lemma PrunedTidily(conf: Settings, t: Tier, t': Tier, pass: Pass, luck: Luck)
    requires PrunedBy(t, t', pass, Victims(conf, t, pass, luck.now), luck) && Tidy(luck)
    ensures t' == Tidied(conf, t, pass, luck.now)
  {
    hide Victims;
    var done := Victims(conf, t, pass, luck.now);
    assert Hurt(done, luck.removal) == {};
    assert (set n | n in done && luck.removal(n).Gone?) == done;
  }

  lemma NothingRemoved(t: Tier, pass: Pass, luck: Luck)
    ensures PrunedBy(t, t, pass, {}, luck)
  {
  }

  lemma PassResult(conf: Settings, t: Tier, t': Tier, pass: Pass, luck: Luck)
    requires PrunedBy(t, t', pass, if luck.listable(pass) then Victims(conf, t, pass, luck.now) else {}, luck)
    ensures OnlyPruned(t, t')
    ensures Tidy(luck) ==> t' == Tidied(conf, t, pass, luck.now)
  {
    hide Victims;
    PrunedOnly(t, t', pass, if luck.listable(pass) then Victims(conf, t, pass, luck.now) else {}, luck);
    if Tidy(luck) {
      PrunedTidily(conf, t, t', pass, luck);
    }
  }

  // ---- The backup cycle --------------------------------------------------------------------------------

  /** What the outside world answers while one server is backed up. `mark` and `ts` are two readings of the clock. */
  datatype CaptureLuck = CaptureLuck(mark: string, ts: string, ready: bool, junk: nat, reports: seq<(int, int)>,
                                     copy: bool, image: nat, rename: bool, left: Left, saveOn: bool, write: bool)

  predicate Lucky(luck: CaptureLuck) {
    luck.ready && luck.copy && luck.rename && luck.saveOn
  }

  /** The server after a capture of `image` at ts has been renamed to its final name. */
  function Captured(t: Tier, ts: string, image: nat): Tier {
    t.(hot := (t.hot - {InProgress(ts)})[ts := Complete(image)], taken := t.taken[ts := image], latest := ts)
  }

  /** A step of the cycle for k: nothing of the others, the worker, the queue or the state file changes. */
  ghost predicate CycleFramed(s: State, s': State, k: string) {
    && Safety.OthersSame(s, s', k) && s'.wrk == s.wrk && s'.queue == s.queue && s'.file == s.file
    && s'.conf == s.conf
  }

  lemma CycleFrameParts(s: State, s': State, k: string)
    requires CycleFramed(s, s', k)
    ensures Safety.OthersSame(s, s', k) && s'.queue == s.queue && s'.file == s.file && s'.conf == s.conf
  {
  }

  lemma BeginStep(s: State, k: string)
    requires s.cyc.CIdle? && k in s.conf.keys
    ensures CycleEnabled(s, Begin(k))
    ensures var s' := CycleApply(s, Begin(k));
            s'.cyc.CRead? && s'.cyc.key == k && s'.cyc.base == Of(s, k).rec.hot && s' == s.(cyc := s'.cyc)
  {
    hide CycleTierStep;
  }

  lemma PrepareStep(s: State, k: string, mark: string, ts: string, junk: nat)
    requires s.cyc.CSaving? && s.cyc.key == k && s.cyc.mark == mark
    requires IsBackupDir(ts) && Rank(ts) > Rank(Of(s, k).latest)
    ensures CycleEnabled(s, Prepare(ts, junk))
    ensures var s', t := CycleApply(s, Prepare(ts, junk)), Of(s, k);
            && CycleFramed(s, s', k) && s'.tracker == s.tracker
            && s'.cyc == CCopying(k, s.cyc.base, s.cyc.baseNewest, mark, ts)
            && Of(s', k) == t.(hot := t.hot[InProgress(ts) := Partial(junk)])
  {
    hide CycleOtherStep;
  }

  lemma AbortStep(s: State, k: string, left: Left)
    requires (s.cyc.CSaving? || s.cyc.CCopying?) && s.cyc.key == k
    ensures CycleEnabled(s, Abort(left))
    ensures var s', t := CycleApply(s, Abort(left)), Of(s, k);
            && CycleFramed(s, s', k) && s'.tracker == s.tracker && s'.cyc == CFailed(k)
            && Of(s', k) == (if s.cyc.CSaving? then t else t.(hot := Cleaned(t.hot, s.cyc.ts, left)))
            && (s.cyc.CSaving? ==> s'.tiers == s.tiers)
  {
    hide CycleOtherStep, Cleaned;
  }

  lemma CopyDoneStep(s: State, k: string, ts: string, image: nat)
    requires s.cyc.CCopying? && s.cyc.key == k && s.cyc.ts == ts
    ensures CycleEnabled(s, CopyDone(image))
    ensures var s', t := CycleApply(s, CopyDone(image)), Of(s, k);
            && CycleFramed(s, s', k) && s'.tracker == s.tracker
            && s'.cyc == CCopied(k, s.cyc.base, s.cyc.baseNewest, ts, image)
            && Of(s', k) == t.(hot := t.hot[InProgress(ts) := Complete(image)])
  {
    hide CycleOtherStep;
  }

  lemma RenameHotStep(s: State, k: string, ts: string, image: nat, works: bool, left: Left)
    requires s.cyc.CCopied? && s.cyc.key == k && s.cyc.ts == ts && s.cyc.image == image
    ensures CycleEnabled(s, RenameHot(works, left))
    ensures var s', t := CycleApply(s, RenameHot(works, left)), Of(s, k);
            var ok := works && CanMove(t.hot, ts);
            && CycleFramed(s, s', k) && s'.tracker == s.tracker
            && s'.cyc == (if ok then CRenamed(k, ts) else CFailed(k))
            && Of(s', k) == (if ok then t.(hot := Moved(t.hot, ts), taken := t.taken[ts := image], latest := ts)
                             else t.(hot := Cleaned(t.hot, ts, left)))
  {
    hide CycleOtherStep, Cleaned, Moved, CanMove;
  }

  lemma CommitHotStep(s: State, k: string, ts: string)
    requires s.cyc == CCaptured(k, ts)
    ensures CycleEnabled(s, Commit)
    ensures var s', rec := CycleApply(s, Commit), Of(s, k).rec.(hot := ts);
            && CycleFramed(s, s', k) && s'.tracker == s.tracker && s'.cyc == CCommitted(k, ts, rec)
            && Of(s', k) == Of(s, k).(rec := rec)
  {
    hide CycleOtherStep;
  }

  lemma CycleTwice(s0: State, s1: State, s2: State, k: string)
    requires CycleFramed(s0, s1, k) && CycleFramed(s1, s2, k)
    ensures CycleFramed(s0, s2, k)
  {
  }

  lemma TrackerFrames(s: State, s': State, k: string)
    requires s' == s.(tracker := s'.tracker, cyc := s'.cyc)
    ensures CycleFramed(s, s', k) && Of(s', k) == Of(s, k)
  {
  }

  lemma CopyAndCleanIsPrivate(d: Dir, ts: string, x: Content, y: Content, left: Left)
    requires IsBackupDir(ts)
    ensures Safety.SameSnapshots(d, Cleaned(d[InProgress(ts) := x], ts, left))
    ensures Safety.SameSnapshots(d, Cleaned(d[InProgress(ts) := x][InProgress(ts) := y], ts, left))
  {
    InProgressIsNotBackup(ts);
  }

  /**
   * What a capture does to the server: the snapshot is added whole, or no trace of it is left, unless the
   * clean-up of its private directory fails.
   */
  ghost predicate CaptureResult(t: Tier, t': Tier, luck: CaptureLuck) {
    if luck.ready && luck.copy && luck.rename then t' == Captured(t, luck.ts, luck.image)
    else
      && t' == t.(hot := t'.hot) && Safety.SameSnapshots(t.hot, t'.hot)
      && (luck.ready && luck.left.Nothing? ==> InProgress(luck.ts) !in t'.hot)
  }

  lemma CleanedIsGone(d: Dir, ts: string, left: Left)
    ensures left.Nothing? ==> InProgress(ts) !in Cleaned(d, ts, left)
  {
  }

  lemma SaveOnStep(s: State, key: string, ts: string, ok: bool)
    requires s.cyc == CRenamed(key, ts)
    ensures CycleEnabled(s, SaveOn(ok))
    ensures CycleApply(s, SaveOn(ok)) == s.(cyc := if ok then CCaptured(key, ts) else CFailed(key))
  {
    hide CycleTierStep;
  }

  /** The server after one pass of the cycle over it. A capture whose save-on failed stays unrecorded. */
  ghost predicate BackedUp(t: Tier, t': Tier, luck: CaptureLuck) {
    if Lucky(luck) then
      t' == Captured(t, luck.ts, luck.image).(rec := t.rec.(hot := luck.ts))
    else CaptureResult(t, t', luck)
  }

  /** What backing up one server leaves of its directories and its record. */
  lemma BackedUpMeans(t: Tier, t': Tier, luck: CaptureLuck)
    requires BackedUp(t, t', luck)
    ensures t'.cold == t.cold
    ensures t'.rec ==
            if luck.ready && luck.copy && luck.rename && luck.saveOn then Record(luck.ts, t.rec.cold) else t.rec
    ensures if luck.ready && luck.copy && luck.rename then
              t'.hot == (t.hot - {InProgress(luck.ts)})[luck.ts := Complete(luck.image)]
            else
              && (forall n | IsBackupDir(n) :: (n in t'.hot <==> n in t.hot) && (n in t.hot ==> t'.hot[n] == t.hot[n]))
              && (luck.ready && luck.left.Nothing? ==> InProgress(luck.ts) !in t'.hot)
  {
    hide IsBackupDir, InProgress;
  }

  lemma SameFrames(s: State, s': State, k: string)
    requires s' == s.(cyc := s'.cyc)
    ensures CycleFramed(s, s', k) && Of(s', k) == Of(s, k) && Safety.SameSnapshots(Of(s, k).hot, Of(s', k).hot)
  {
  }

  lemma EnqueueStep(s: State, key: string, ts: string)
    requires s.cyc == CMarked(key, ts)
    ensures CycleEnabled(s, Enqueue)
    ensures CycleApply(s, Enqueue) ==
            if |s.queue| < s.conf.capacity then s.(cyc := CIdle, queue := s.queue + [Job(key, ts)])
            else s.(cyc := CIdle, tracker := RemovedIf(s.tracker, key, ts))
  {
    hide CycleTierStep;
  }

  lemma EntryReplaced(a: Jobs, b: Jobs, key: string, info: JobInfo)
    requires a - {key} == b - {key}
    ensures a[key := info] == b[key := info]
    ensures RemovedIf(a[key := info], key, info.snapshot) == b - {key}
  {
    assert forall k :: k != key ==> (k in a <==> k in a - {key}) && (k in b <==> k in b - {key});
    assert forall k | k in a && k != key :: a[k] == (a - {key})[k] && b[k] == (b - {key})[k];
  }

  /** The queue after the job has been offered: a full queue drops it. */
  function Offered(queue: seq<Job>, job: Job, capacity: nat): seq<Job> {
    if |queue| < capacity then queue + [job] else queue
  }

  /** A step of the cycle that leaves the server and the worker alone. */
  ghost predicate MemoryOnly(s: State, s': State) {
    s'.tiers == s.tiers && s'.wrk == s.wrk && s'.conf == s.conf
  }

  /** Nothing of the other servers or the worker changes. */
  ghost predicate WorkerFramed(s: State, s': State, k: string) {
    Safety.OthersSame(s, s', k) && s'.wrk == s.wrk && s'.conf == s.conf
  }

  lemma CaptureFrames(s0: State, s1: State, s2: State, s3: State, k: string)
    requires MemoryOnly(s0, s1) && CycleFramed(s1, s2, k) && MemoryOnly(s2, s3)
    ensures WorkerFramed(s0, s3, k) && Of(s1, k) == Of(s0, k) && Of(s3, k) == Of(s2, k)
  {
    assert forall j :: Of(s1, j) == Of(s0, j) && Of(s3, j) == Of(s2, j);
  }

  lemma WorkerFramedTwice(s0: State, s1: State, s2: State, s3: State, k: string)
    requires WorkerFramed(s0, s1, k) && CycleFramed(s1, s2, k) && MemoryOnly(s2, s3)
    ensures WorkerFramed(s0, s3, k) && Of(s3, k) == Of(s2, k)
  {
    assert forall j :: Of(s3, j) == Of(s2, j);
  }

  /** The servers a cycle over `servers` reaches before it is cancelled and does not skip. */
  function Visited(servers: seq<string>, eligible: string -> bool): set<string> {
    set i | 0 <= i < |servers| && eligible(servers[i]) :: servers[i]
  }

  function QueuedBy(queue: seq<Job>, servers: seq<string>, eligible: string -> bool,
                    lucks: string -> CaptureLuck, capacity: nat): seq<Job>
  {
    if servers == [] then queue
    else
      var n := |servers| - 1;
      var k := servers[n];
      var before := QueuedBy(queue, servers[..n], eligible, lucks, capacity);
      if eligible(k) && Lucky(lucks(k)) then Offered(before, Job(k, lucks(k).ts), capacity) else before
  }

  /** The state file after the captures that were recorded and could be written. */
  function FiledBy(s: State, file: StateFile, servers: seq<string>, eligible: string -> bool,
                   lucks: string -> CaptureLuck): StateFile
  {
    if servers == [] then file
    else
      var n := |servers| - 1;
      var k := servers[n];
      var before := FiledBy(s, file, servers[..n], eligible, lucks);
      if eligible(k) && Lucky(lucks(k)) && lucks(k).write then before[k := Of(s, k).rec.(hot := lucks(k).ts)]
      else before
  }

  /** The status table: a visited server waits for its transfer if its job found room, and has no entry if not. */
  function ShownBy(jobs: Jobs, queue: seq<Job>, servers: seq<string>, eligible: string -> bool,
                   lucks: string -> CaptureLuck, capacity: nat): Jobs
  {
    if servers == [] then jobs
    else
      var n := |servers| - 1;
      var k := servers[n];
      var before := ShownBy(jobs, queue, servers[..n], eligible, lucks, capacity);
      if !eligible(k) then before
      else if Lucky(lucks(k)) && |QueuedBy(queue, servers[..n], eligible, lucks, capacity)| < capacity then
        Added(before, k, Waiting(k, lucks(k).ts))
      else Removed(before, k)
  }

  lemma OneMoreServer(s: State, queue: seq<Job>, file: StateFile, jobs: Jobs, servers: seq<string>, n: nat,
                      eligible: string -> bool, lucks: string -> CaptureLuck, capacity: nat)
    requires n < |servers|
    ensures var k, luck := servers[n], lucks(servers[n]);
            var before := QueuedBy(queue, servers[..n], eligible, lucks, capacity);
            var done := eligible(k) && Lucky(luck);
            && QueuedBy(queue, servers[..n + 1], eligible, lucks, capacity) ==
               (if done then Offered(before, Job(k, luck.ts), capacity) else before)
            && FiledBy(s, file, servers[..n + 1], eligible, lucks) ==
               (if done && luck.write then
                  FiledBy(s, file, servers[..n], eligible, lucks)[k := Of(s, k).rec.(hot := luck.ts)]
                else FiledBy(s, file, servers[..n], eligible, lucks))
            && ShownBy(jobs, queue, servers[..n + 1], eligible, lucks, capacity) ==
               (if !eligible(k) then ShownBy(jobs, queue, servers[..n], eligible, lucks, capacity)
                else if done && |before| < capacity then
                  Added(ShownBy(jobs, queue, servers[..n], eligible, lucks, capacity), k, Waiting(k, luck.ts))
                else Removed(ShownBy(jobs, queue, servers[..n], eligible, lucks, capacity), k))
  {
    assert servers[..n + 1][..n] == servers[..n];
  }

  lemma NoServers(s: State, queue: seq<Job>, file: StateFile, jobs: Jobs, servers: seq<string>,
                  eligible: string -> bool, lucks: string -> CaptureLuck, capacity: nat)
    ensures QueuedBy(queue, servers[..0], eligible, lucks, capacity) == queue
    ensures FiledBy(s, file, servers[..0], eligible, lucks) == file
    ensures ShownBy(jobs, queue, servers[..0], eligible, lucks, capacity) == jobs
  {
  }

  /** A server the cycle does not serve keeps its entries. */
  lemma {:induction false} OtherServer(s: State, queue: seq<Job>, file: StateFile, jobs: Jobs, servers: seq<string>,
                                       eligible: string -> bool, lucks: string -> CaptureLuck, capacity: nat, k: string)
    requires forall i | 0 <= i < |servers| && eligible(servers[i]) :: servers[i] != k
    ensures Stored(FiledBy(s, file, servers, eligible, lucks), k) == Stored(file, k)
    ensures var shown := ShownBy(jobs, queue, servers, eligible, lucks, capacity);
            (k in shown <==> k in jobs) && (k in jobs ==> shown[k] == jobs[k])
    ensures var queued := QueuedBy(queue, servers, eligible, lucks, capacity);
            queue <= queued && forall j | |queue| <= j < |queued| :: queued[j].key != k
  {
    hide Lucky;
    if servers != [] {
      var n := |servers| - 1;
      assert eligible(servers[n]) ==> servers[n] != k;
      OtherServer(s, queue, file, jobs, servers[..n], eligible, lucks, capacity, k);
    }
  }

  /** A server the cycle serves: its file entry, its job if there was room, and its status entry with the job. */
  lemma {:induction false} ServedServer(s: State, queue: seq<Job>, file: StateFile, jobs: Jobs, servers: seq<string>,
                                        eligible: string -> bool, lucks: string -> CaptureLuck, capacity: nat, i: nat)
    requires i < |servers| && eligible(servers[i])
    requires forall i, j | 0 <= i < j < |servers| :: servers[i] != servers[j]
    ensures ServedAs(s, queue, file, servers[i], lucks(servers[i]), capacity,
                     QueuedBy(queue, servers, eligible, lucks, capacity), FiledBy(s, file, servers, eligible, lucks),
                     ShownBy(jobs, queue, servers, eligible, lucks, capacity))
  {
    hide ServedAs, Lucky, Offered;
    var n, k := |servers| - 1, servers[i];
    var before := servers[..n];
    if i == n {
      OtherServer(s, queue, file, jobs, before, eligible, lucks, capacity, k);
      ServedNow(s, queue, file, k, lucks(k), capacity, QueuedBy(queue, before, eligible, lucks, capacity),
                FiledBy(s, file, before, eligible, lucks), ShownBy(jobs, queue, before, eligible, lucks, capacity));
    } else {
      ServedServer(s, queue, file, jobs, before, eligible, lucks, capacity, i);
      ServedStays(s, queue, file, k, lucks(k), capacity, QueuedBy(queue, before, eligible, lucks, capacity),
                  FiledBy(s, file, before, eligible, lucks), ShownBy(jobs, queue, before, eligible, lucks, capacity),
                  Job(servers[n], lucks(servers[n]).ts), Of(s, servers[n]).rec.(hot := lucks(servers[n]).ts));
    }
  }

  lemma ServedNow(s: State, queue: seq<Job>, file: StateFile, k: string, luck: CaptureLuck, capacity: nat,
                  queued: seq<Job>, filed: StateFile, shown: Jobs)
    requires queue <= queued && forall j | |queue| <= j < |queued| :: queued[j].key != k
    requires Stored(filed, k) == Stored(file, k)
    ensures ServedAs(s, queue, file, k, luck, capacity,
                     if Lucky(luck) then Offered(queued, Job(k, luck.ts), capacity) else queued,
                     if Lucky(luck) && luck.write then filed[k := Of(s, k).rec.(hot := luck.ts)] else filed,
                     if Lucky(luck) && |queued| < capacity then Added(shown, k, Waiting(k, luck.ts))
                     else Removed(shown, k))
  {
    var q := queued[|queue|..];
    assert (queued + [Job(k, luck.ts)])[|queue|..] == q + [Job(k, luck.ts)];
    assert forall j | 0 <= j < |q| :: q[j] == queued[|queue| + j];
  }

  /** Serving another server leaves that. */
  lemma ServedStays(s: State, queue: seq<Job>, file: StateFile, k: string, luck: CaptureLuck, capacity: nat,
                    queued: seq<Job>, filed: StateFile, shown: Jobs, job: Job, rec: Record)
    requires ServedAs(s, queue, file, k, luck, capacity, queued, filed, shown) && job.key != k
    ensures forall q, f, j |
              && q in {queued, Offered(queued, job, capacity)} && f in {filed, filed[job.key := rec]}
              && j in {shown, Added(shown, job.key, Waiting(job.key, job.timestamp)), Removed(shown, job.key)} ::
              ServedAs(s, queue, file, k, luck, capacity, q, f, j)
  {
    assert (queued + [job])[|queue|..] == queued[|queue|..] + [job];
  }

  /** What the cycle leaves of one served server in the queue, the state file and the status table. */
  predicate ServedAs(s: State, queue: seq<Job>, file: StateFile, k: string, luck: CaptureLuck, capacity: nat,
                     queued: seq<Job>, filed: StateFile, shown: Jobs)
  {
    var ok := luck.ready && luck.copy && luck.rename && luck.saveOn;
    && queue <= queued
    && Stored(filed, k) == (if ok && luck.write then Record(luck.ts, Of(s, k).rec.cold) else Stored(file, k))
    && (k in shown <==> Job(k, luck.ts) in queued[|queue|..])
    && (k in shown ==> ok && shown[k] == JobInfo(k, luck.ts, "Waiting Offload", 0, 0))
    && (ok && |queued| < capacity ==> k in shown)
  }

  /** Nothing of this server changed: not its tiers and records, its file entry or its status entry. */
  predicate LeftAlone(s: State, s': State, file: StateFile, filed: StateFile, jobs: Jobs, shown: Jobs, k: string) {
    && Of(s', k) == Of(s, k) && Stored(filed, k) == Stored(file, k)
    && (k in shown <==> k in jobs) && (k in jobs ==> shown[k] == jobs[k])
  }

  /** The cycle, server by server. */
  lemma CycleMeans(s: State, s': State, queue: seq<Job>, file: StateFile, jobs: Jobs, servers: seq<string>,
                   eligible: string -> bool, lucks: string -> CaptureLuck, capacity: nat)
    requires AllBackedUp(s, s', Visited(servers, eligible), lucks)
    requires forall i, j | 0 <= i < j < |servers| :: servers[i] != servers[j]
    ensures var queued, filed := QueuedBy(queue, servers, eligible, lucks, capacity),
                                 FiledBy(s, file, servers, eligible, lucks);
            var shown := ShownBy(jobs, queue, servers, eligible, lucks, capacity);
            && (forall i | 0 <= i < |servers| && eligible(servers[i]) ::
                  && BackedUp(Of(s, servers[i]), Of(s', servers[i]), lucks(servers[i]))
                  && ServedAs(s, queue, file, servers[i], lucks(servers[i]), capacity, queued, filed, shown))
            && forall k | (forall i | 0 <= i < |servers| && eligible(servers[i]) :: servers[i] != k) ::
                 LeftAlone(s, s', file, filed, jobs, shown, k)
  {
    hide BackedUp, ServedAs, QueuedBy, FiledBy, ShownBy;
    forall i | 0 <= i < |servers| && eligible(servers[i])
      ensures BackedUp(Of(s, servers[i]), Of(s', servers[i]), lucks(servers[i]))
      ensures ServedAs(s, queue, file, servers[i], lucks(servers[i]), capacity,
                       QueuedBy(queue, servers, eligible, lucks, capacity), FiledBy(s, file, servers, eligible, lucks),
                       ShownBy(jobs, queue, servers, eligible, lucks, capacity))
    {
      assert servers[i] in Visited(servers, eligible);
      ServedServer(s, queue, file, jobs, servers, eligible, lucks, capacity, i);
    }
    forall k | forall i | 0 <= i < |servers| && eligible(servers[i]) :: servers[i] != k
      ensures LeftAlone(s, s', file, FiledBy(s, file, servers, eligible, lucks), jobs,
                        ShownBy(jobs, queue, servers, eligible, lucks, capacity), k)
    {
      assert k !in Visited(servers, eligible);
      OtherServer(s, queue, file, jobs, servers, eligible, lucks, capacity, k);
    }
  }

  lemma BackedUpRecord(t: Tier, t': Tier, luck: CaptureLuck)
    requires BackedUp(t, t', luck) && Lucky(luck)
    ensures t'.rec == t.rec.(hot := luck.ts)
  {
  }

  ghost predicate AllBackedUp(s: State, s': State, visited: set<string>, lucks: string -> CaptureLuck) {
    forall k :: if k in visited then BackedUp(Of(s, k), Of(s', k), lucks(k)) else Of(s', k) == Of(s, k)
  }

  lemma OneMoreBackedUp(s0: State, s: State, s': State, servers: seq<string>, n: nat, eligible: string -> bool,
                        lucks: string -> CaptureLuck)
    requires n < |servers| && forall i, j | 0 <= i < j < |servers| :: servers[i] != servers[j]
    requires AllBackedUp(s0, s, Visited(servers[..n], eligible), lucks)
    requires if eligible(servers[n]) then
               WorkerFramed(s, s', servers[n]) && BackedUp(Of(s, servers[n]), Of(s', servers[n]), lucks(servers[n]))
             else s' == s
    ensures AllBackedUp(s0, s', Visited(servers[..n + 1], eligible), lucks)
  {
    hide BackedUp;
    var k := servers[n];
    assert Visited(servers[..n + 1], eligible) ==
           Visited(servers[..n], eligible) + (if eligible(k) then {k} else {}) by {
      assert servers[..n + 1][n] == k && forall i | 0 <= i < n :: servers[..n + 1][i] == servers[..n][i];
    }
    assert k !in Visited(servers[..n], eligible);
    assert forall j :: j != k ==> Of(s', j) == Of(s, j);
  }

  lemma NoneBackedUp(s: State, servers: seq<string>, eligible: string -> bool, lucks: string -> CaptureLuck)
    ensures AllBackedUp(s, s, Visited(servers[..0], eligible), lucks)
  {
  }

  lemma NotYetVisited(s0: State, s: State, servers: seq<string>, n: nat, eligible: string -> bool,
                      lucks: string -> CaptureLuck)
    requires n < |servers| && forall i, j | 0 <= i < j < |servers| :: servers[i] != servers[j]
    requires AllBackedUp(s0, s, Visited(servers[..n], eligible), lucks)
    ensures Of(s, servers[n]) == Of(s0, servers[n])
  {
    hide BackedUp;
    assert servers[n] !in Visited(servers[..n], eligible);
  }

  lemma FrameKeepsWorker(s: State, s': State, k: string)
    requires WorkerFramed(s, s', k)
    ensures s'.wrk == s.wrk
  {
  }

  /** A captured server whose job is queued has its capture recorded in the cold tier once the queue has drained. */
  lemma CaptureReachesCold(s: State, conf: Settings, t: Tier, t': Tier, k: string, luck: CaptureLuck)
    requires Reachable(s, conf)
    requires IsBackupDir(luck.ts) && Rank(luck.ts) > Rank(Of(s, k).latest)
    requires Lucky(luck) && BackedUp(Of(s, k), t, luck) && Converged(t, t')
    ensures t'.rec.cold == luck.ts && t'.promoted == t.promoted + [luck.ts]
  {
    hide Reachable, Safety.CycleOk, Safety.WorkerOk, KnownRecords;
    Safety.ReachableIsOk(s, conf);
    assert Safety.TierOk(Of(s, k), Safety.InFlight(s.wrk, k));
    assert IsNewest(luck.ts, t.hot.Keys);
    NewestIsUnique(luck.ts, Newest(t.hot.Keys), t.hot.Keys);
  }

  // ---- Starting after a crash --------------------------------------------------------------------------

  ghost predicate DirsMirror(s: State, hot: map<string, Dir>, cold: map<string, Dir>) {
    forall k :: Of(s, k).hot == DirAt(hot, k) && Of(s, k).cold == DirAt(cold, k)
  }

  /** An entry is due if it changed or carried no time, and there is anything to record. */
  predicate Due(found: Record, stored: Record, noTime: bool) {
    (found != stored || noTime) && found != NOTHING
  }

  /** The servers whose entry is due and can be written. */
  ghost function WrittenFor(s: State, seen: set<string>, noTime: string -> bool, writes: string -> bool): set<string> {
    set k | k in seen && Due(FoundFor(s, k), Stored(s.file, k), noTime(k)) && writes(k)
  }

  lemma OneMoreWritten(s: State, seen: set<string>, noTime: string -> bool, writes: string -> bool, k: string)
    ensures WrittenFor(s, seen + {k}, noTime, writes) ==
            WrittenFor(s, seen, noTime, writes)
            + (if Due(FoundFor(s, k), Stored(s.file, k), noTime(k)) && writes(k) then {k} else {})
  {
    hide Due, FoundFor;
  }

  /** The records of the servers in `seen` and the state file with the entries of `written`. */
  ghost predicate Recovered(s: State, recs: map<string, Record>, file: StateFile, seen: set<string>,
                            written: set<string>)
  {
    && recs.Keys == seen && written <= seen && file.Keys == s.file.Keys + written
    && (forall k | k in recs :: recs[k] == FoundFor(s, k))
    && forall k | k in file :: file[k] == if k in written then FoundFor(s, k) else s.file[k]
  }

  lemma NothingRecovered(s: State, noTime: string -> bool, writes: string -> bool)
    ensures Recovered(s, map[], s.file, {}, {}) && WrittenFor(s, {}, noTime, writes) == {}
  {
  }

  lemma OneMoreRecovered(s: State, recs: map<string, Record>, file: StateFile, seen: set<string>,
                         written: set<string>, k: string)
    requires Recovered(s, recs, file, seen, written) && k !in seen
    ensures Recovered(s, recs[k := FoundFor(s, k)], file, seen + {k}, written)
    ensures Recovered(s, recs[k := FoundFor(s, k)], file[k := FoundFor(s, k)], seen + {k}, written + {k})
  {
    hide FoundFor;
  }

  lemma RecoveredMirrors(s: State, conf: Settings, hot: map<string, Dir>, cold: map<string, Dir>,
                         recs: map<string, Record>, file: StateFile, written: set<string>)
    requires Reachable(s, conf) && DirsMirror(s, hot, cold)
    requires Recovered(s, recs, file, conf.keys, written)
    ensures Mirrors(RestartApply(s, written), hot, cold, recs)
    ensures RestartApply(s, written).file == file
    ensures var s' := RestartApply(s, written); s'.conf == s.conf && s'.tracker == map[] && s'.queue == []
  {
    hide Reachable, Discovered;
    Guarantees.ReachableIsConfigured(s, conf);
    var s' := RestartApply(s, written);
    forall k
      ensures Of(s', k).hot == DirAt(hot, k) && Of(s', k).cold == DirAt(cold, k) && Of(s', k).rec == RecordAt(recs, k)
    {
      if k in conf.keys {
        assert s'.tiers[k] == Rebooted(s.file, k, Of(s, k));
      } else {
        assert k !in s'.tiers;
      }
    }
    assert s'.file == file;
  }

  /** What discovery leaves in memory and on disk, server by server. */
  lemma RecoveredMeans(s: State, recs: map<string, Record>, file: StateFile, seen: set<string>, written: set<string>,
                       noTime: string -> bool, writes: string -> bool)
    requires Recovered(s, recs, file, seen, written) && written == WrittenFor(s, seen, noTime, writes)
    ensures forall k | k in seen && writes(k) :: Stored(file, k) == RecordAt(recs, k)
    ensures forall k | k in seen && writes(k) && noTime(k) && RecordAt(recs, k) != NOTHING :: k in written
    ensures forall k | k in written :: writes(k) && (noTime(k) || RecordAt(recs, k) != Stored(s.file, k))
    ensures forall k | k !in written :: Stored(file, k) == Stored(s.file, k)
  {
    hide Recovered, WrittenFor;
    forall k
      ensures k in seen && writes(k) ==> Stored(file, k) == RecordAt(recs, k)
      ensures k in seen && writes(k) && noTime(k) && RecordAt(recs, k) != NOTHING ==> k in written
      ensures k in written ==> writes(k) && (noTime(k) || RecordAt(recs, k) != Stored(s.file, k))
      ensures k !in written ==> Stored(file, k) == Stored(s.file, k)
    {
      RecoveredAt(s, recs, file, seen, written, noTime, writes, k);
    }
  }

  lemma RecoveredAt(s: State, recs: map<string, Record>, file: StateFile, seen: set<string>, written: set<string>,
                    noTime: string -> bool, writes: string -> bool, k: string)
    requires Recovered(s, recs, file, seen, written) && written == WrittenFor(s, seen, noTime, writes)
    ensures k in seen && writes(k) ==> Stored(file, k) == RecordAt(recs, k)
    ensures k in seen && writes(k) && noTime(k) && RecordAt(recs, k) != NOTHING ==> k in written
    ensures k in written ==> writes(k) && (noTime(k) || RecordAt(recs, k) != Stored(s.file, k))
    ensures k !in written ==> Stored(file, k) == Stored(s.file, k)
  {
    hide FoundFor;
    if FoundFor(s, k) == NOTHING {
      NothingFound(s, k);
    }
  }

  /** Nothing is found only where nothing was stored. */
  lemma NothingFound(s: State, k: string)
    requires FoundFor(s, k) == NOTHING
    ensures Stored(s.file, k) == NOTHING
  {
  }

  lemma RecordedStored(s: State, conf: Settings, k: string)
    requires Reachable(s, conf)
    ensures IsRecorded(Stored(s.file, k).hot) && IsRecorded(Stored(s.file, k).cold)
  {
    hide Reachable;
    Safety.ReachableIsOk(s, conf);
    Guarantees.StoredRanks(s, k);
  }

  // ---- The status table --------------------------------------------------------------------------------

  /** Nothing but the entry of k may have changed. */
  predicate OnlyEntry(jobs: Jobs, jobs': Jobs, k: string) {
    jobs' - {k} == jobs - {k}
  }

  /** The server's entry, if there is one, stands for neither snapshot. */
  predicate Clear(jobs: Jobs, k: string, a: string, b: string) {
    k in jobs ==> jobs[k].snapshot != a && jobs[k].snapshot != b
  }

  lemma UpdatesEntry(jobs: Jobs, k: string, snapshot: string, info: JobInfo)
    ensures OnlyEntry(jobs, UpdatedIf(jobs, k, snapshot, info), k)
  {
  }

  lemma ClearsEntries(jobs: Jobs, k: string, a: string, b: string)
    ensures var jobs' := RemovedIf(RemovedIf(jobs, k, a), k, b);
            OnlyEntry(jobs, jobs', k) && Clear(jobs', k, a, b)
  {
  }

  lemma ClearsEntry(jobs: Jobs, k: string, a: string)
    ensures var jobs' := RemovedIf(jobs, k, a); OnlyEntry(jobs, jobs', k) && Clear(jobs', k, a, a)
  {
  }

  lemma OnlyEntryTwice(a: Jobs, b: Jobs, c: Jobs, k: string)
    requires OnlyEntry(a, b, k) && OnlyEntry(b, c, k)
    ensures OnlyEntry(a, c, k)
  {
  }

  /** The largest total the callbacks have reported, which is what they show. */
  function Largest(reports: seq<(int, int)>): (m: int)
    ensures m >= 0 && forall i | 0 <= i < |reports| :: reports[i].1 <= m
    ensures m == 0 || exists i :: 0 <= i < |reports| && reports[i].1 == m
  {
    if reports == [] then 0
    else
      var n := |reports| - 1;
      assert reports == reports[..n] + [reports[n]];
      var m := Largest(reports[..n]);
      if reports[n].1 > m then reports[n].1 else m
  }

  lemma NoReports()
    ensures Largest([]) == 0
  {
  }

  lemma OneMoreReport(reports: seq<(int, int)>, i: nat)
    requires i < |reports|
    ensures Largest(reports[..i + 1]) ==
            if reports[i].1 > Largest(reports[..i]) then reports[i].1 else Largest(reports[..i])
    ensures reports[..i + 1][i] == reports[i] && |reports[..i + 1]| == i + 1
  {
    assert reports[..i + 1][..i] == reports[..i];
  }

  /** The entry after the callbacks: if it stands for one of the two snapshots, it shows the last of them. */
  function Shown(jobs: Jobs, key: string, sel: string, timestamp: string, reports: seq<(int, int)>): Jobs {
    var x := if key in jobs then jobs[key].snapshot else sel;
    if reports != [] && x in {sel, timestamp} then
      jobs[key := JobInfo(key, x, "Transferring (Local HDD)", reports[|reports| - 1].0, Largest(reports))]
    else jobs
  }

  lemma NothingShown(jobs: Jobs, key: string, sel: string, timestamp: string)
    ensures Shown(jobs, key, sel, timestamp, []) == jobs && Largest([]) == 0
  {
  }

  lemma ShownIsOnlyEntry(jobs: Jobs, key: string, sel: string, timestamp: string, reports: seq<(int, int)>)
    ensures OnlyEntry(jobs, Shown(jobs, key, sel, timestamp, reports), key)
  {
  }

  lemma ShownMore(jobs: Jobs, key: string, sel: string, timestamp: string, reports: seq<(int, int)>, i: nat)
    requires i < |reports|
    ensures var info := (s: string) =>
              JobInfo(key, s, "Transferring (Local HDD)", reports[i].0, Largest(reports[..i + 1]));
            var first := UpdatedIf(Shown(jobs, key, sel, timestamp, reports[..i]), key, sel, info(sel));
            Shown(jobs, key, sel, timestamp, reports[..i + 1]) ==
            if sel != timestamp then UpdatedIf(first, key, timestamp, info(timestamp)) else first
  {
    hide Largest;
    OneMoreReport(reports, i);
  }

  // ---- One whole job -------------------------------------------------------------------------------------

  lemma SkippedIsProcessed(t: Tier, good: bool)
    requires good ==> Rank(Newest(t.hot.Keys)) <= Rank(t.rec.cold)
    ensures Processed(t, t, good)
  {
  }

  lemma TransferredIsProcessed(t: Tier, t': Tier, good: bool, ok: bool)
    requires Rank(Newest(t.hot.Keys)) > Rank(t.rec.cold) && (good ==> ok)
    requires Transferred(t, t', Newest(t.hot.Keys), ok)
    ensures Processed(t, t', good)
    ensures if ok then t'.rec == PromotedRecord(t.rec, Newest(t.hot.Keys)) && t'.rec.cold != t.rec.cold
            else t'.rec == t.rec
  {
  }

  /** The state file after a job: the promotion's record written if there was one and the write worked. */
  predicate FiledAs(file: StateFile, file': StateFile, k: string, t: Tier, t': Tier, write: bool) {
    file' == if t'.rec.cold != t.rec.cold && write then file[k := t'.rec] else file
  }

  // ---- What the settings keep ----------------------------------------------------------------------------

  /** One unfailing pass alone: its own tier, by its own setting. */
  lemma PassRemoves(conf: Settings, t: Tier, now: int)
    ensures Tidied(conf, t, ColdDays, now).cold.Keys
         == t.cold.Keys - Prune.DaysVictims(t.cold.Keys, conf.coldDays, now, conf.offset)
    ensures Tidied(conf, t, ColdCount, now).cold.Keys == t.cold.Keys - Prune.CountVictims(t.cold.Keys, conf.coldCount)
    ensures Tidied(conf, t, HotDays, now).hot.Keys
         == t.hot.Keys - Prune.DaysVictims(t.hot.Keys, conf.hotDays, now, conf.offset)
    ensures Tidied(conf, t, HotCount, now).hot.Keys == t.hot.Keys - Prune.CountVictims(t.hot.Keys, conf.hotCount)
    ensures Tidied(conf, t, ColdDays, now).hot == t.hot && Tidied(conf, t, ColdCount, now).hot == t.hot
    ensures Tidied(conf, t, HotDays, now).cold == t.cold && Tidied(conf, t, HotCount, now).cold == t.cold
  {
    hide Prune.DaysVictims, Prune.CountVictims;
  }

  /** All four: in each tier what its own settings retain. */
  lemma TidiedIsRetained(conf: Settings, t: Tier, now: int)
    ensures AllTidied(conf, t, now).cold.Keys
         == Prune.Retained(t.cold.Keys, conf.coldDays, now, conf.offset, conf.coldCount)
    ensures AllTidied(conf, t, now).hot.Keys
         == Prune.Retained(t.hot.Keys, conf.hotDays, now, conf.offset, conf.hotCount)
  {
    hide Tidied, Prune.DaysVictims, Prune.CountVictims;
    var t1 := Tidied(conf, t, ColdDays, now);
    var t2 := Tidied(conf, t1, ColdCount, now);
    var t3 := Tidied(conf, t2, HotDays, now);
    PassRemoves(conf, t, now);
    PassRemoves(conf, t1, now);
    PassRemoves(conf, t2, now);
    PassRemoves(conf, t3, now);
  }

  lemma TidiedKeepsRecord(conf: Settings, t: Tier, now: int)
    ensures AllTidied(conf, t, now).rec == t.rec
  {
    hide Victims;
  }

  lemma PromotedIsRetained(conf: Settings, t: Tier, sel: string, now: int)
    requires sel in t.hot
    ensures var t' := AllTidied(conf, Promoted(t, sel), now);
            && t'.cold.Keys == Prune.Retained(t.cold.Keys - {InProgress(sel)} + {sel}, conf.coldDays, now,
                                              conf.offset, conf.coldCount)
            && t'.hot.Keys == Prune.Retained(t.hot.Keys, conf.hotDays, now, conf.offset, conf.hotCount)
            && t'.rec.cold == sel && Guarantees.IsLarger(t'.rec.hot, sel, t.rec.hot)
  {
    hide AllTidied, Prune.Retained, InProgress;
    TidiedIsRetained(conf, Promoted(t, sel), now);
    TidiedKeepsRecord(conf, Promoted(t, sel), now);
    assert Promoted(t, sel).cold.Keys == t.cold.Keys - {InProgress(sel)} + {sel};
  }
}
