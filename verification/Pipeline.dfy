/**
 * The tiered snapshot pipeline as a step relation: one backup cycle at a time captures hot snapshots and
 * queues jobs, one worker promotes the newest hot snapshot to the cold tier, and either may fail or be
 * cut off at any step. An event is one critical section, one file system operation or one tracker call.
 */
module Pipeline {
  import opened Names
  import opened Tracker
  import Prune

  // ---- State ---------------------------------------------------------------------------------------

  /** A directory holds a whole copy of some world image, or anything else. */
  datatype Content = Complete(image: nat) | Partial(junk: nat)

  /** The directories of one server in one tier. */
  type Dir = map<string, Content>

  /** Base names of the last recorded snapshots; "" is none. */
  datatype Record = Record(hot: string, cold: string)

  const NOTHING := Record("", "")

  datatype Job = Job(key: string, timestamp: string)

  datatype Settings = Settings(keys: set<string>, capacity: nat,
                               hotDays: int, hotCount: int, coldDays: int, coldCount: int, offset: int)

  /** One server's directories and memory record, and what happened to them. */
  datatype Tier = Tier(
    hot: Dir, cold: Dir, rec: Record,
    taken: map<string, nat>,   // every completed capture and its image
    latest: string,            // the last completed capture
    earlier: seq<string>,      // final renames into the cold tier before the daemon's last start
    promoted: seq<string>,     // and since then
    hurtHot: set<string>, hurtCold: set<string>) // snapshots whose removal failed part way

  const EMPTY := Tier(map[], map[], NOTHING, map[], "", [], [], {}, {})

  type StateFile = map<string, Record>

  /** Where the backup cycle is in the body for one server. `base` is the link-dest snapshot. */
  datatype Cycle =
    | CIdle
    | CRead(key: string, base: string, baseNewest: bool)
    | CSaving(key: string, base: string, baseNewest: bool, mark: string)
    | CCopying(key: string, base: string, baseNewest: bool, mark: string, ts: string)
    | CCopied(key: string, base: string, baseNewest: bool, ts: string, image: nat)
    | CRenamed(key: string, ts: string)
    | CFailed(key: string)
    | CCaptured(key: string, ts: string)
    | CCommitted(key: string, ts: string, saved: Record)
    | CFileRead(key: string, ts: string, saved: Record, m: StateFile)
    | CFiled(key: string, ts: string)
    | CMarked(key: string, ts: string)

  datatype Pass = ColdDays | ColdCount | HotDays | HotCount

  /** Where the offload worker is with the job it took. `sel` is the hot snapshot it selected. */
  datatype Worker =
    | WIdle
    | WTaken(job: Job)
    | WListed(job: Job, sel: string)
    | WSkipping(job: Job)
    | WMarking(job: Job, sel: string, prev: string)
    | WMarkingSel(job: Job, sel: string, prev: string)
    | WStarting(job: Job, sel: string, prev: string)
    | WCopying(job: Job, sel: string, prev: string)
    | WCopied(job: Job, sel: string, prev: string)
    | WRenamed(job: Job, sel: string)
    | WCommitted(job: Job, sel: string, saved: Record)
    | WFileRead(job: Job, sel: string, saved: Record, m: StateFile)
    | WClearing(job: Job, sel: string, ok: bool)
    | WClearingSel(job: Job, sel: string, ok: bool)
    | WListing(job: Job, pass: Pass)
    | WPruning(job: Job, pass: Pass, victims: set<string>)

  datatype State = State(conf: Settings, tiers: map<string, Tier>, file: StateFile,
                         tracker: Jobs, queue: seq<Job>, cyc: Cycle, wrk: Worker)

  function Of(s: State, k: string): Tier {
    if k in s.tiers then s.tiers[k] else EMPTY
  }

  function With(s: State, k: string, t: Tier): State {
    s.(tiers := s.tiers[k := t])
  }

  function Stored(file: StateFile, k: string): Record {
    if k in file then file[k] else NOTHING
  }

  // ---- Choosing the newest -------------------------------------------------------------------------

  /** The greatest snapshot name present, or "" if there is none. */
  predicate IsNewest(r: string, names: set<string>) {
    && (r == "" || (r in names && IsBackupDir(r)))
    && forall n | n in names && IsBackupDir(n) :: Rank(n) <= Rank(r)
  }

  ghost function Newest(names: set<string>): (r: string)
    ensures IsNewest(r, names)
    ensures r == "" <==> forall n | n in names :: !IsBackupDir(n)
  {
    if names == {} then ""
    else
      var n :| n in names;
      var r := Newest(names - {n});
      assert names == (names - {n}) + {n};
      if IsBackupDir(n) && Rank(n) > Rank(r) then n else r
  }

  lemma NewestIsUnique(r: string, q: string, names: set<string>)
    requires IsNewest(r, names) && IsNewest(q, names)
    ensures r == q
  {
    RankInjective(r, q);
  }

  /** The rule by which discovery reconciles a stored name with what is on disk. */
  function Reconciled(stored: string, discovered: string): string {
    if discovered != "" && (stored == "" || Rank(discovered) > Rank(stored)) then discovered else stored
  }

  // ---- Directory operations ------------------------------------------------------------------------

  /** Renaming a finished copy to its final name; it cannot land on an existing directory. */
  predicate CanMove(d: Dir, ts: string) {
    InProgress(ts) in d && ts !in d
  }

  function Moved(d: Dir, ts: string): Dir
    requires CanMove(d, ts)
  {
    (d - {InProgress(ts)})[ts := d[InProgress(ts)]]
  }

  /** What a clean-up leaves of a directory being written: nothing, or something partial. */
  datatype Left = Nothing | Something(junk: nat)

  function Cleaned(d: Dir, ts: string, left: Left): Dir {
    if left.Nothing? then d - {InProgress(ts)} else d[InProgress(ts) := Partial(left.junk)]
  }

  /** How removing one snapshot ends. */
  datatype Removal = Gone | Damaged(junk: nat) | Untouched

  function AfterRemoval(d: Dir, n: string, how: Removal): Dir {
    if n !in d then d
    else
      match how
      case Gone => d - {n}
      case Damaged(junk) => d[n := Partial(junk)]
      case Untouched => d
  }

  // ---- Events of the cycle -------------------------------------------------------------------------

  datatype CycleEvent =
    | Begin(key: string)
    | Start(mark: string)
    | Progress(moved: int, total: int)
    | Prepare(ts: string, junk: nat)
    | CopyDone(image: nat)
    | Abort(left: Left)
    | RenameHot(works: bool, left: Left)
    | SaveOn(ok: bool)
    | GiveUp
    | Commit
    | ReadFile
    | WriteFile(ok: bool)
    | Mark
    | Enqueue

  function Saving(key: string, mark: string, moved: int, total: int): JobInfo {
    JobInfo(key, mark, "Saving", moved, total)
  }

  function Waiting(key: string, ts: string): JobInfo {
    JobInfo(key, ts, "Waiting Offload", 0, 0)
  }

  predicate CycleEnabled(s: State, e: CycleEvent) {
    match e
    case Begin(k) => s.cyc.CIdle? && k in s.conf.keys
    case Start(_) => s.cyc.CRead?
    case Progress(_, _) => s.cyc.CCopying?
    // capture timestamps strictly increase for a server
    case Prepare(ts, _) => s.cyc.CSaving? && IsBackupDir(ts) && Rank(ts) > Rank(Of(s, s.cyc.key).latest)
    case CopyDone(_) => s.cyc.CCopying?
    case Abort(_) => s.cyc.CSaving? || s.cyc.CCopying?
    case RenameHot(_, _) => s.cyc.CCopied?
    case SaveOn(_) => s.cyc.CRenamed?
    case GiveUp => s.cyc.CFailed?
    case Commit => s.cyc.CCaptured?
    case ReadFile => s.cyc.CCommitted?
    case WriteFile(_) => s.cyc.CFileRead?
    case Mark => s.cyc.CFiled?
    case Enqueue => s.cyc.CMarked?
  }

  /** The events that change the server's directories or record. */
  predicate CycleWritesTier(e: CycleEvent) {
    e.Prepare? || e.CopyDone? || e.Abort? || e.RenameHot? || e.Commit?
  }

  function CycleTierStep(s: State, e: CycleEvent): State
    requires CycleEnabled(s, e) && CycleWritesTier(e)
  {
    var c := s.cyc;
    match e
    case Prepare(ts, junk) =>
      var t := Of(s, c.key);
      With(s, c.key, t.(hot := t.hot[InProgress(ts) := Partial(junk)]))
      .(cyc := CCopying(c.key, c.base, c.baseNewest, c.mark, ts))
    case CopyDone(image) =>
      var t := Of(s, c.key);
      With(s, c.key, t.(hot := t.hot[InProgress(c.ts) := Complete(image)]))
      .(cyc := CCopied(c.key, c.base, c.baseNewest, c.ts, image))
    case Abort(left) =>
      if c.CSaving? then s.(cyc := CFailed(c.key))
      else
        var t := Of(s, c.key);
        With(s, c.key, t.(hot := Cleaned(t.hot, c.ts, left))).(cyc := CFailed(c.key))
    case RenameHot(works, left) =>
      var t := Of(s, c.key);
      if works && CanMove(t.hot, c.ts) then
        With(s, c.key, t.(hot := Moved(t.hot, c.ts), taken := t.taken[c.ts := c.image], latest := c.ts))
        .(cyc := CRenamed(c.key, c.ts))
      else
        With(s, c.key, t.(hot := Cleaned(t.hot, c.ts, left))).(cyc := CFailed(c.key))
    case Commit =>
      var t := Of(s, c.key);
      var rec := t.rec.(hot := c.ts);
      With(s, c.key, t.(rec := rec)).(cyc := CCommitted(c.key, c.ts, rec))
  }

  /** The events that change the status table, the state file, the queue or only the place in the program. */
  function CycleOtherStep(s: State, e: CycleEvent): State
    requires CycleEnabled(s, e) && !CycleWritesTier(e)
  {
    var c := s.cyc;
    match e
    case Begin(k) =>
      var base := Of(s, k).rec.hot;
      s.(cyc := CRead(k, base, base != "" && IsNewest(base, Of(s, k).hot.Keys)))
    case Start(mark) =>
      s.(cyc := CSaving(c.key, c.base, c.baseNewest, mark),
         tracker := Added(s.tracker, c.key, Saving(c.key, mark, 0, 0)))
    case Progress(moved, total) =>
      s.(tracker := Added(s.tracker, c.key, Saving(c.key, c.mark, moved, total)))
    case SaveOn(ok) =>
      // a failed save-on leaves the snapshot on disk but unrecorded
      s.(cyc := if ok then CCaptured(c.key, c.ts) else CFailed(c.key))
    case GiveUp =>
      s.(cyc := CIdle, tracker := Removed(s.tracker, c.key))
    case ReadFile =>
      s.(cyc := CFileRead(c.key, c.ts, c.saved, s.file))
    case WriteFile(ok) =>
      s.(cyc := CFiled(c.key, c.ts), file := if ok then c.m[c.key := c.saved] else s.file)
    case Mark =>
      s.(cyc := CMarked(c.key, c.ts),
         tracker := Added(s.tracker, c.key, Waiting(c.key, c.ts)))
    case Enqueue =>
      if |s.queue| < s.conf.capacity then s.(cyc := CIdle, queue := s.queue + [Job(c.key, c.ts)])
      else s.(cyc := CIdle, tracker := RemovedIf(s.tracker, c.key, c.ts))
  }

  function CycleApply(s: State, e: CycleEvent): State
    requires CycleEnabled(s, e)
  {
    if CycleWritesTier(e) then CycleTierStep(s, e) else CycleOtherStep(s, e)
  }

  // ---- Events of the worker ------------------------------------------------------------------------

  datatype WorkerEvent =
    | Take
    | ListHot(readable: bool)
    | Compare
    | Cancel
    | Skip
    | MarkJob
    | MarkSel
    | MakeDir(works: bool, junk: nat)
    | Report(own: bool, moved: int, total: int)
    | CopyCold(works: bool, left: Left)
    | RenameCold(works: bool, left: Left)
    | CommitCold
    | ReadFileCold
    | WriteFileCold(ok: bool)
    | ClearJob
    | ClearSel
    | ListPass(readable: bool, now: int)
    | Remove(n: string, how: Removal)
    | EndPass

  function Transferring(key: string, snapshot: string, moved: int, total: int): JobInfo {
    JobInfo(key, snapshot, "Transferring (Local HDD)", moved, total)
  }

  predicate WorkerEnabled(s: State, e: WorkerEvent) {
    match e
    case Take => s.wrk.WIdle? && s.queue != []
    case ListHot(_) => s.wrk.WTaken?
    case Compare => s.wrk.WListed?
    case Cancel => s.wrk.WMarking?
    case Skip => s.wrk.WSkipping?
    case MarkJob => s.wrk.WMarking?
    case MarkSel => s.wrk.WMarkingSel?
    case MakeDir(_, _) => s.wrk.WStarting?
    case Report(_, _, _) => s.wrk.WCopying?
    case CopyCold(_, _) => s.wrk.WCopying?
    case RenameCold(_, _) => s.wrk.WCopied?
    case CommitCold => s.wrk.WRenamed?
    case ReadFileCold => s.wrk.WCommitted?
    case WriteFileCold(_) => s.wrk.WFileRead?
    case ClearJob => s.wrk.WClearing?
    case ClearSel => s.wrk.WClearingSel?
    case ListPass(_, _) => s.wrk.WListing?
    case Remove(n, _) => s.wrk.WPruning? && n in s.wrk.victims
    case EndPass => s.wrk.WPruning? && s.wrk.victims == {}
  }

  /** The names a pruning pass sets out to remove. */
  function Victims(conf: Settings, t: Tier, pass: Pass, now: int): set<string> {
    match pass
    case ColdDays => Prune.DaysVictims(t.cold.Keys, conf.coldDays, now, conf.offset)
    case ColdCount => Prune.CountVictims(t.cold.Keys, conf.coldCount)
    case HotDays => Prune.DaysVictims(t.hot.Keys, conf.hotDays, now, conf.offset)
    case HotCount => Prune.CountVictims(t.hot.Keys, conf.hotCount)
  }

  function Next(job: Job, pass: Pass): Worker {
    match pass
    case ColdDays => WListing(job, ColdCount)
    case ColdCount => WListing(job, HotDays)
    case HotDays => WListing(job, HotCount)
    case HotCount => WIdle
  }

  function RemovedFrom(t: Tier, pass: Pass, n: string, how: Removal): Tier {
    if pass.ColdDays? || pass.ColdCount? then
      t.(cold := AfterRemoval(t.cold, n, how),
         hurtCold := if how.Damaged? then t.hurtCold + {n} else t.hurtCold)
    else
      t.(hot := AfterRemoval(t.hot, n, how),
         hurtHot := if how.Damaged? then t.hurtHot + {n} else t.hurtHot)
  }

  predicate CallsTracker(e: WorkerEvent) {
    e.Skip? || e.MarkJob? || e.MarkSel? || e.Report? || e.ClearJob? || e.ClearSel?
  }

  /** The events that change the server's directories or record. */
  predicate WorkerWritesTier(e: WorkerEvent) {
    e.MakeDir? || e.CopyCold? || e.RenameCold? || e.CommitCold? || e.Remove?
  }

  function WorkerTrackerStep(s: State, e: WorkerEvent): State
    requires WorkerEnabled(s, e) && CallsTracker(e)
  {
    var w := s.wrk;
    match e
    case Skip =>
      s.(wrk := WIdle, tracker := RemovedIf(s.tracker, w.job.key, w.job.timestamp))
    case MarkJob =>
      s.(wrk := if w.sel != w.job.timestamp then WMarkingSel(w.job, w.sel, w.prev) else WStarting(w.job, w.sel, w.prev),
         tracker := UpdatedIf(s.tracker, w.job.key, w.job.timestamp, Transferring(w.job.key, w.job.timestamp, 0, 0)))
    case MarkSel =>
      s.(wrk := WStarting(w.job, w.sel, w.prev),
         tracker := UpdatedIf(s.tracker, w.job.key, w.sel, Transferring(w.job.key, w.sel, 0, 0)))
    case Report(own, moved, total) =>
      var snapshot := if own then w.job.timestamp else w.sel;
      s.(tracker := UpdatedIf(s.tracker, w.job.key, snapshot, Transferring(w.job.key, snapshot, moved, total)))
    case ClearJob =>
      s.(wrk := WClearingSel(w.job, w.sel, w.ok),
         tracker := RemovedIf(s.tracker, w.job.key, w.job.timestamp))
    case ClearSel =>
      s.(wrk := if w.ok then WListing(w.job, ColdDays) else WIdle,
         tracker := RemovedIf(s.tracker, w.job.key, w.sel))
  }

  function WorkerTierStep(s: State, e: WorkerEvent): State
    requires WorkerEnabled(s, e) && WorkerWritesTier(e)
  {
    var w := s.wrk;
    match e
    case MakeDir(works, junk) =>
      if !works then s.(wrk := WClearing(w.job, w.sel, false))
      else
        var t := Of(s, w.job.key);
        With(s, w.job.key, t.(cold := t.cold[InProgress(w.sel) := Partial(junk)]))
        .(wrk := WCopying(w.job, w.sel, w.prev))
    case CopyCold(works, left) =>
      var t := Of(s, w.job.key);
      if works && w.sel in t.hot then
        With(s, w.job.key, t.(cold := t.cold[InProgress(w.sel) := t.hot[w.sel]]))
        .(wrk := WCopied(w.job, w.sel, w.prev))
      else
        With(s, w.job.key, t.(cold := Cleaned(t.cold, w.sel, left))).(wrk := WClearing(w.job, w.sel, false))
    case RenameCold(works, left) =>
      var t := Of(s, w.job.key);
      if works && CanMove(t.cold, w.sel) then
        With(s, w.job.key, t.(cold := Moved(t.cold, w.sel), promoted := t.promoted + [w.sel]))
        .(wrk := WRenamed(w.job, w.sel))
      else
        With(s, w.job.key, t.(cold := Cleaned(t.cold, w.sel, left))).(wrk := WClearing(w.job, w.sel, false))
    case CommitCold =>
      var t := Of(s, w.job.key);
      var rec := Record(if t.rec.hot == "" || Rank(w.sel) >= Rank(t.rec.hot) then w.sel else t.rec.hot, w.sel);
      With(s, w.job.key, t.(rec := rec)).(wrk := WCommitted(w.job, w.sel, rec))
    case Remove(n, how) =>
      With(s, w.job.key, RemovedFrom(Of(s, w.job.key), w.pass, n, how))
      .(wrk := WPruning(w.job, w.pass, w.victims - {n}))
  }

  ghost function WorkerMemoryStep(s: State, e: WorkerEvent): State
    requires WorkerEnabled(s, e) && !CallsTracker(e) && !WorkerWritesTier(e)
  {
    var w := s.wrk;
    match e
    case Take =>
      s.(wrk := WTaken(s.queue[0]), queue := s.queue[1..])
    case ListHot(readable) =>
      s.(wrk := WListed(w.job, if readable then Newest(Of(s, w.job.key).hot.Keys) else ""))
    case Compare =>
      var prev := Of(s, w.job.key).rec.cold;
      if w.sel == "" || (prev != "" && Rank(w.sel) <= Rank(prev)) then s.(wrk := WSkipping(w.job))
      else s.(wrk := WMarking(w.job, w.sel, prev))
    case Cancel =>
      s.(wrk := WSkipping(w.job))
    case ReadFileCold =>
      s.(wrk := WFileRead(w.job, w.sel, w.saved, s.file))
    case WriteFileCold(ok) =>
      s.(wrk := WClearing(w.job, w.sel, true), file := if ok then w.m[w.job.key := w.saved] else s.file)
    case ListPass(readable, now) =>
      s.(wrk := WPruning(w.job, w.pass, if readable then Victims(s.conf, Of(s, w.job.key), w.pass, now) else {}))
    case EndPass =>
      s.(wrk := Next(w.job, w.pass))
  }

  ghost function WorkerApply(s: State, e: WorkerEvent): State
    requires WorkerEnabled(s, e)
  {
    if CallsTracker(e) then WorkerTrackerStep(s, e)
    else if WorkerWritesTier(e) then WorkerTierStep(s, e)
    else WorkerMemoryStep(s, e)
  }

  // ---- Crash and restart ---------------------------------------------------------------------------

  datatype Event =
    | Cyc(c: CycleEvent)
    | Wrk(w: WorkerEvent)
    | Restart(written: set<string>)
    | FileLost(file: StateFile)

  /** What discovery records for one server. */
  ghost function Discovered(stored: Record, t: Tier): Record {
    Record(Reconciled(stored.hot, Newest(t.hot.Keys)), Reconciled(stored.cold, Newest(t.cold.Keys)))
  }

  ghost function FoundFor(s: State, k: string): Record {
    Discovered(Stored(s.file, k), Of(s, k))
  }

  ghost function Rebooted(file: StateFile, k: string, t: Tier): Tier {
    t.(rec := Discovered(Stored(file, k), t), earlier := t.earlier + t.promoted, promoted := [])
  }

  /**
   * A crash at any point, then a start: memory is gone and discovery fills the records. `written` are the
   * servers whose reconciled entry reached the state file.
   */
  ghost function RestartApply(s: State, written: set<string>): State {
    s.(tiers := map k | k in s.conf.keys + s.tiers.Keys :: Rebooted(s.file, k, Of(s, k)),
       file := map k | k in s.file.Keys + written ::
                 if k in written then Discovered(Stored(s.file, k), Of(s, k)) else s.file[k],
       tracker := map[], queue := [], cyc := CIdle, wrk := WIdle)
  }

  /** A name that was once a completed snapshot, or none. */
  predicate Known(t: Tier, n: string) {
    n == "" || n in t.taken
  }

  ghost predicate KnownRecords(s: State, m: StateFile) {
    forall k | k in m :: Known(Of(s, k), m[k].hot) && Known(Of(s, k), m[k].cold)
  }

  ghost predicate Enabled(s: State, e: Event) {
    match e
    case Cyc(c) => CycleEnabled(s, c)
    case Wrk(w) => WorkerEnabled(s, w)
    case Restart(_) => true
    // the file may be any old one, as long as its names were once completed
    case FileLost(m) => KnownRecords(s, m)
  }

  ghost function Apply(s: State, e: Event): State
    requires Enabled(s, e)
  {
    match e
    case Cyc(c) => CycleApply(s, c)
    case Wrk(w) => WorkerApply(s, w)
    case Restart(written) => RestartApply(s, written)
    case FileLost(m) => s.(file := m)
  }

  function Initial(conf: Settings): State {
    State(conf, map[], map[], map[], [], CIdle, WIdle)
  }

  /** The states a run passes through. */
  ghost predicate Run(states: seq<State>, events: seq<Event>) {
    && |states| == |events| + 1
    && forall i | 0 <= i < |events| :: Enabled(states[i], events[i]) && states[i + 1] == Apply(states[i], events[i])
  }

  ghost predicate Reachable(s: State, conf: Settings) {
    exists states: seq<State>, events: seq<Event> ::
      Run(states, events) && states[0] == Initial(conf) && states[|events|] == s
  }
}
