/**
 * The daemon's methods as they run alone, one after another. The ghost state `st` takes the steps of the
 * pipeline as the code performs them, so every state the code can be in is a reachable one.
 */
module Daemon {
  import opened Names
  import opened Tracker
  import opened Pipeline
  import opened Steps
  import Safety
  import Guarantees
  import HotSafety
  import Prune

  class Daemon {
    const conf: Settings
    const jobTracker: JobTracker
    var hot: map<string, Dir>
    var cold: map<string, Dir>
    var lastBackups: map<string, Record>
    var file: StateFile
    var offloadCh: seq<Job>
    ghost var st: State

    /** The fields are what the pipeline's state says they are, and that state can be reached. */
    ghost predicate Valid()
      reads this, jobTracker
    {
      && Reachable(st, conf) && st.conf == conf
      && st.tracker == jobTracker.jobs && st.queue == offloadCh && st.file == file
      && Mirrors(st, hot, cold, lastBackups)
    }

    constructor (conf: Settings)
      ensures Valid() && st == Initial(conf) && this.conf == conf && fresh(jobTracker)
    {
      this.conf := conf;
      jobTracker := new JobTracker();
      hot, cold, lastBackups, file, offloadCh := map[], map[], map[], map[], [];
      st := Initial(conf);
      new;
      StartReachable(conf);
    }

    ghost method Work(e: WorkerEvent)
      requires Reachable(st, conf) && WorkerEnabled(st, e)
      modifies this`st
      ensures st == WorkerApply(old(st), e) && Reachable(st, conf)
    {
      hide Reachable, WorkerApply;
      StepReachable(st, Wrk(e), conf);
      st := WorkerApply(st, e);
    }

    ghost method Cycle(e: CycleEvent)
      requires Reachable(st, conf) && CycleEnabled(st, e)
      modifies this`st
      ensures st == CycleApply(old(st), e) && Reachable(st, conf)
    {
      hide Reachable, CycleApply;
      StepReachable(st, Cyc(e), conf);
      st := CycleApply(st, e);
    }

    // ---- Selecting ---------------------------------------------------------------------------------

    /** The loop over a directory listing that keeps the greatest snapshot name. */
    method Greatest(d: Dir) returns (latest: string)
      ensures latest == Newest(d.Keys)
    {
      latest := "";
      var left := d.Keys;
      while left != {}
        invariant left <= d.Keys && IsNewest(latest, d.Keys - left)
      {
        var n :| n in left;
        if IsBackupDir(n) {
          LexIsRank(latest, n);
          if LexLess(latest, n) {
            latest := n;
          }
        }
        left := left - {n};
      }
      assert d.Keys - left == d.Keys;
      NewestIsUnique(latest, Newest(d.Keys), d.Keys);
    }

    /** Which hot snapshot to promote, if it is newer than the recorded cold one. */
    method Select(job: Job, readable: bool) returns (sel: string, prev: string, go: bool)
      requires Valid() && st.wrk == WTaken(job)
      modifies this`st
      ensures Valid()
      ensures sel == (if readable then Newest(DirAt(hot, job.key).Keys) else "")
      ensures prev == RecordAt(lastBackups, job.key).cold
      ensures DirAt(hot, job.key) == Of(old(st), job.key).hot && prev == Of(old(st), job.key).rec.cold
      ensures go <==> Rank(sel) > Rank(prev)
      ensures st == old(st).(wrk := if go then WMarking(job, sel, prev) else WSkipping(job))
    {
      hide Reachable, WorkerApply, WorkerEnabled, Mirrors;
      ghost var s0 := st;
      MirrorsAt(s0, job.key, hot, cold, lastBackups);
      SelectSteps(s0, job, readable);
      sel := "";
      if readable {
        sel := Greatest(DirAt(hot, job.key));
      }
      Work(ListHot(readable));
      prev := RecordAt(lastBackups, job.key).cold;
      RecordedNames(s0, conf, job.key);
      LexIsRank(prev, sel);
      go := !(sel == "" || (prev != "" && !LexLess(prev, sel)));
      Work(Compare);
      SameTiersMirror(s0, st, hot, cold, lastBackups);
    }

    // ---- Transferring ------------------------------------------------------------------------------

    method Announce(job: Job, sel: string, prev: string)
      requires Valid() && st.wrk == WMarking(job, sel, prev)
      modifies this`st, jobTracker
      ensures Valid()
      ensures st == old(st).(wrk := WStarting(job, sel, prev), tracker := st.tracker)
      ensures OnlyEntry(old(st).tracker, st.tracker, job.key)
      ensures var jobs := old(st).tracker;
              var x := if job.key in jobs then jobs[job.key].snapshot else job.timestamp;
              st.tracker ==
              if x == job.timestamp || x == sel then
                jobs[job.key := JobInfo(job.key, x, "Transferring (Local HDD)", 0, 0)]
              else jobs
    {
      hide Reachable, WorkerTierStep, WorkerMemoryStep, Mirrors;
      ghost var s0 := st;
      UpdatesEntry(s0.tracker, job.key, job.timestamp, Transferring(job.key, job.timestamp, 0, 0));
      var done := jobTracker.UpdateIfSnapshot(job.key, job.timestamp, Transferring(job.key, job.timestamp, 0, 0));
      Work(MarkJob);
      if sel != job.timestamp {
        UpdatesEntry(st.tracker, job.key, sel, Transferring(job.key, sel, 0, 0));
        done := jobTracker.UpdateIfSnapshot(job.key, sel, Transferring(job.key, sel, 0, 0));
        Work(MarkSel);
      }
      SameTiersMirror(s0, st, hot, cold, lastBackups);
    }

    /** The callbacks of one transfer, each updating the entry of the selected and of the job's snapshot. */
    method ReportAll(job: Job, sel: string, prev: string, reports: seq<(int, int)>)
      requires Valid() && st.wrk == WCopying(job, sel, prev)
      modifies this`st, jobTracker
      ensures Valid()
      ensures st == old(st).(tracker := st.tracker)
      ensures OnlyEntry(old(st).tracker, st.tracker, job.key)
      ensures st.tracker == Shown(old(st).tracker, job.key, sel, job.timestamp, reports)
    {
      hide Reachable, WorkerTierStep, WorkerMemoryStep, Mirrors, Valid, Largest, Shown, UpdatedIf;
      hide WorkerEnabled, WorkerApply, OnlyEntry;
      var maxTotal := 0;
      NothingShown(st.tracker, job.key, sel, job.timestamp);
      assert reports[..0] == [];
      for i := 0 to |reports|
        invariant Valid() && st == old(st).(tracker := st.tracker)
        invariant maxTotal == Largest(reports[..i])
        invariant st.tracker == Shown(old(st).tracker, job.key, sel, job.timestamp, reports[..i])
      {
        var (moved, total) := reports[i];
        OneMoreReport(reports, i);
        ShownMore(old(st).tracker, job.key, sel, job.timestamp, reports, i);
        if total > maxTotal {
          maxTotal := total;
        }
        ReportOne(job, sel, prev, false, moved, maxTotal);
        if sel != job.timestamp {
          ReportOne(job, sel, prev, true, moved, maxTotal);
        }
      }
      assert reports[..|reports|] == reports;
      ShownIsOnlyEntry(old(st).tracker, job.key, sel, job.timestamp, reports);
    }

    method ReportOne(job: Job, sel: string, prev: string, own: bool, moved: int, total: int)
      requires Valid() && st.wrk == WCopying(job, sel, prev)
      modifies this`st, jobTracker
      ensures Valid()
      ensures st == old(st).(tracker := st.tracker)
      ensures var snapshot := if own then job.timestamp else sel;
              st.tracker == UpdatedIf(old(st).tracker, job.key, snapshot,
                                      JobInfo(job.key, snapshot, "Transferring (Local HDD)", moved, total))
    {
      hide Reachable, WorkerTierStep, WorkerMemoryStep, Mirrors;
      ghost var s0 := st;
      var snapshot := if own then job.timestamp else sel;
      var done := jobTracker.UpdateIfSnapshot(job.key, snapshot, Transferring(job.key, snapshot, moved, total));
      Work(Report(own, moved, total));
      SameTiersMirror(s0, st, hot, cold, lastBackups);
    }

    method MakeColdDir(job: Job, sel: string, prev: string, works: bool, junk: nat)
      requires Valid() && st.wrk == WStarting(job, sel, prev) && IsBackupDir(sel)
      modifies this`st, this`cold
      ensures Valid() && Framed(old(st), st, job.key) && st.tracker == old(st).tracker
      ensures st.wrk == if works then WCopying(job, sel, prev) else WClearing(job, sel, false)
      ensures Of(st, job.key) == Of(old(st), job.key).(cold := Of(st, job.key).cold)
      ensures works ==> Of(st, job.key).cold == Of(old(st), job.key).cold[InProgress(sel) := Partial(junk)]
      ensures Safety.SameSnapshots(Of(old(st), job.key).cold, Of(st, job.key).cold)
    {
      hide Reachable, WorkerApply, WorkerEnabled, Mirrors;
      ghost var s0 := st;
      MirrorsAt(s0, job.key, hot, cold, lastBackups);
      MakeDirStep(s0, job, sel, prev, works, junk);
      Safety.ColdWriteEffect(s0, MakeDir(works, junk));
      Work(MakeDir(works, junk));
      if works {
        cold := cold[job.key := DirAt(cold, job.key)[InProgress(sel) := Partial(junk)]];
        ColdMirrors(s0, st, job.key, hot, old(cold), lastBackups);
      } else {
        SameTiersMirror(s0, st, hot, cold, lastBackups);
      }
    }

    method RunRsync(job: Job, sel: string, prev: string, works: bool, left: Left) returns (ok: bool)
      requires Valid() && st.wrk == WCopying(job, sel, prev) && IsBackupDir(sel)
      modifies this`st, this`cold
      ensures Valid() && Framed(old(st), st, job.key) && st.tracker == old(st).tracker
      ensures st.wrk == if ok then WCopied(job, sel, prev) else WClearing(job, sel, false)
      ensures Of(st, job.key) == Of(old(st), job.key).(cold := Of(st, job.key).cold)
      ensures var t := Of(old(st), job.key);
              ok ==> sel in t.hot && Of(st, job.key).cold == t.cold[InProgress(sel) := t.hot[sel]]
      ensures Safety.SameSnapshots(Of(old(st), job.key).cold, Of(st, job.key).cold)
      ensures !ok && left.Nothing? ==> InProgress(sel) !in Of(st, job.key).cold
      ensures works ==> ok
    {
      hide Reachable, WorkerApply, WorkerEnabled, Mirrors, Cleaned;
      ghost var s0 := st;
      MirrorsAt(s0, job.key, hot, cold, lastBackups);
      CleanedIsGone(Of(s0, job.key).cold, sel, left);
      CopyStep(s0, job, sel, prev, works, left);
      Safety.ColdWriteEffect(s0, CopyCold(works, left));
      HotSafety.TransferSourceStays(s0, conf);
      var source, dest := DirAt(hot, job.key), DirAt(cold, job.key);
      ok := works && sel in source;
      Work(CopyCold(works, left));
      // a failed copy is cleaned up by the deferred removal
      cold := cold[job.key := if ok then dest[InProgress(sel) := source[sel]] else Cleaned(dest, sel, left)];
      ColdMirrors(s0, st, job.key, hot, old(cold), lastBackups);
    }

    method RenameToFinal(job: Job, sel: string, prev: string, works: bool, left: Left) returns (ok: bool)
      requires Valid() && st.wrk == WCopied(job, sel, prev) && IsBackupDir(sel)
      modifies this`st, this`cold
      ensures Valid() && Framed(old(st), st, job.key) && st.tracker == old(st).tracker
      ensures st.wrk == if ok then WRenamed(job, sel) else WClearing(job, sel, false)
      ensures ok ==> CanMove(Of(old(st), job.key).cold, sel)
      ensures var t := Of(old(st), job.key);
              Of(st, job.key) ==
              if ok then t.(cold := Moved(t.cold, sel), promoted := t.promoted + [sel])
              else t.(cold := Of(st, job.key).cold)
      ensures !ok ==> Safety.SameSnapshots(Of(old(st), job.key).cold, Of(st, job.key).cold)
      ensures !ok && left.Nothing? ==> InProgress(sel) !in Of(st, job.key).cold
      ensures works ==> ok
    {
      hide Reachable, WorkerApply, WorkerEnabled, Mirrors, Cleaned, CanMove, Moved, InProgress, IsBackupDir;
      ghost var s0 := st;
      CleanedIsGone(Of(s0, job.key).cold, sel, left);
      MirrorsAt(s0, job.key, hot, cold, lastBackups);
      RenameStep(s0, job, sel, prev, works, left);
      Safety.CleanUpIsPrivate(Of(s0, job.key).cold, sel, left);
      Guarantees.RenamesMeetNothing(s0, conf);
      var dest := DirAt(cold, job.key);
      ok := works && CanMove(dest, sel);
      Work(RenameCold(works, left));
      cold := cold[job.key := if ok then Moved(dest, sel) else Cleaned(dest, sel, left)];
      ColdMirrors(s0, st, job.key, hot, old(cold), lastBackups);
    }

    /** `offloadSnapshot` for a local cold tier: copy under a private name, then rename. */
    method OffloadSnapshot(job: Job, sel: string, prev: string, luck: Luck) returns (ok: bool)
      requires Valid() && st.wrk == WStarting(job, sel, prev) && IsBackupDir(sel)
      modifies this`st, this`cold, jobTracker
      ensures Valid() && Framed(old(st), st, job.key)
      ensures OnlyEntry(old(st).tracker, st.tracker, job.key)
      ensures st.wrk == if ok then WRenamed(job, sel) else WClearing(job, sel, false)
      ensures luck.makeDir && luck.copy && luck.rename ==> ok
      ensures var t, t' := Of(old(st), job.key), Of(st, job.key);
              && t' == t.(cold := t'.cold, promoted := if ok then t.promoted + [sel] else t.promoted)
              && (if ok then sel in t.hot && t'.cold == (t.cold - {InProgress(sel)})[sel := t.hot[sel]]
                  else Safety.SameSnapshots(t.cold, t'.cold))
              && (!ok && luck.makeDir && luck.left.Nothing? ==> InProgress(sel) !in t'.cold)
    {
      hide Reachable, Mirrors, Safety.SameSnapshots, Framed, InProgress;
      ghost var s0, k := st, job.key;
      MakeColdDir(job, sel, prev, luck.makeDir, luck.junk);
      if !luck.makeDir {
        return false;
      }
      ghost var s1 := st;
      ReportAll(job, sel, prev, luck.reports);
      ghost var s2 := st;
      ok := RunRsync(job, sel, prev, luck.copy, luck.left);
      CopyFrames(s0, s1, s2, st, k);
      if !ok {
        return;
      }
      ghost var s3 := st;
      ok := RenameToFinal(job, sel, prev, luck.rename, luck.left);
      RenameFrames(s0, s3, st, k, sel, ok);
      if ok {
        CopyThenMove(Of(s0, k).cold, sel, Partial(luck.junk), Of(s0, k).hot[sel]);
      }
    }

    // ---- Recording and clearing --------------------------------------------------------------------

    /** The critical section after the transfer. */
    method RecordPromotion(job: Job, sel: string) returns (rec: Record)
      requires Valid() && st.wrk == WRenamed(job, sel) && IsBackupDir(sel)
      modifies this`st, this`lastBackups
      ensures Valid() && Framed(old(st), st, job.key) && st.tracker == old(st).tracker
      ensures st.wrk == WCommitted(job, sel, rec)
      ensures Of(st, job.key) == Of(old(st), job.key).(rec := rec)
      ensures rec == PromotedRecord(Of(old(st), job.key).rec, sel)
      ensures rec.cold == sel && Guarantees.IsLarger(rec.hot, sel, Of(old(st), job.key).rec.hot)
    {
      hide Reachable, WorkerApply, WorkerEnabled, Mirrors, Framed, Safety.OthersSame, LexLess, Rank, IsBackupDir;
      ghost var s0 := st;
      MirrorsAt(s0, job.key, hot, cold, lastBackups);
      RecordedNames(s0, conf, job.key);
      var cur := RecordAt(lastBackups, job.key);
      LexIsRank(sel, cur.hot);
      rec := Record(if cur.hot == "" || !LexLess(sel, cur.hot) then sel else cur.hot, sel);
      CommitStep(s0, job, sel);
      PromotedIsLarger(cur, sel);
      Work(CommitCold);
      FrameParts(s0, st, job.key);
      lastBackups := lastBackups[job.key := rec];
      RecordMirrors(s0, st, job.key, hot, cold, old(lastBackups));
    }

    method SaveRecord(job: Job, sel: string, saved: Record, write: bool)
      requires Valid() && st.wrk == WCommitted(job, sel, saved)
      modifies this`st, this`file
      ensures Valid()
      ensures st == old(st).(wrk := WClearing(job, sel, true), file := file)
      ensures file == if write then old(file)[job.key := saved] else old(file)
    {
      hide Reachable, WorkerTierStep, WorkerTrackerStep, Mirrors;
      ghost var s0 := st;
      var m := file;
      Work(ReadFileCold);
      if write {
        file := m[job.key := saved];
      }
      Work(WriteFileCold(write));
      SameTiersMirror(s0, st, hot, cold, lastBackups);
    }

    method ClearEntries(job: Job, sel: string, ghost ok: bool)
      requires Valid() && st.wrk == WClearing(job, sel, ok)
      modifies this`st, jobTracker
      ensures Valid()
      ensures st == old(st).(wrk := if ok then WListing(job, ColdDays) else WIdle, tracker := st.tracker)
      ensures OnlyEntry(old(st).tracker, st.tracker, job.key) && Clear(st.tracker, job.key, job.timestamp, sel)
    {
      hide Reachable, WorkerTierStep, WorkerMemoryStep, Mirrors;
      ghost var s0 := st;
      ClearsEntries(s0.tracker, job.key, job.timestamp, sel);
      var done := jobTracker.RemoveIfSnapshot(job.key, job.timestamp);
      Work(ClearJob);
      done := jobTracker.RemoveIfSnapshot(job.key, sel);
      Work(ClearSel);
      SameTiersMirror(s0, st, hot, cold, lastBackups);
    }

    method ClearSkipped(job: Job)
      requires Valid() && st.wrk == WSkipping(job)
      modifies this`st, jobTracker
      ensures Valid()
      ensures st == old(st).(wrk := WIdle, tracker := st.tracker)
      ensures OnlyEntry(old(st).tracker, st.tracker, job.key)
      ensures Clear(st.tracker, job.key, job.timestamp, job.timestamp)
    {
      hide Reachable, WorkerTierStep, WorkerMemoryStep, Mirrors;
      ghost var s0 := st;
      ClearsEntry(s0.tracker, job.key, job.timestamp);
      var done := jobTracker.RemoveIfSnapshot(job.key, job.timestamp);
      Work(Skip);
      SameTiersMirror(s0, st, hot, cold, lastBackups);
    }

    // ---- Pruning -----------------------------------------------------------------------------------

    method RemoveOne(job: Job, pass: Pass, ghost victims: set<string>, n: string, how: Removal)
      requires Valid() && st.wrk == WPruning(job, pass, victims) && n in victims
      modifies this`st, this`hot, this`cold
      ensures Valid() && Framed(old(st), st, job.key) && st.tracker == old(st).tracker
      ensures st.wrk == WPruning(job, pass, victims - {n})
      ensures Of(st, job.key) == RemovedFrom(Of(old(st), job.key), pass, n, how)
    {
      hide Reachable, WorkerApply, WorkerEnabled, Mirrors;
      ghost var s0 := st;
      MirrorsAt(s0, job.key, hot, cold, lastBackups);
      RemoveStep(s0, job, pass, victims, n, how);
      Work(Remove(n, how));
      if pass.ColdDays? || pass.ColdCount? {
        cold := cold[job.key := AfterRemoval(DirAt(cold, job.key), n, how)];
        ColdMirrors(s0, st, job.key, hot, old(cold), lastBackups);
      } else {
        hot := hot[job.key := AfterRemoval(DirAt(hot, job.key), n, how)];
        HotMirrors(s0, st, job.key, old(hot), cold, lastBackups);
      }
    }

    /** The directory listing of one pass and what it decides to remove. */
    method ListVictims(job: Job, pass: Pass, luck: Luck) returns (victims: set<string>)
      requires Valid() && st.wrk == WListing(job, pass)
      modifies this`st
      ensures Valid() && st == old(st).(wrk := WPruning(job, pass, victims))
      ensures victims == if luck.listable(pass) then Victims(conf, Of(st, job.key), pass, luck.now) else {}
    {
      hide Reachable, WorkerTierStep, WorkerTrackerStep, Mirrors, Victims;
      ghost var s0 := st;
      MirrorsAt(s0, job.key, hot, cold, lastBackups);
      var dirs := EMPTY.(hot := DirAt(hot, job.key), cold := DirAt(cold, job.key));
      VictimsOfDirs(conf, dirs, Of(s0, job.key), pass, luck.now);
      victims := if luck.listable(pass) then Victims(conf, dirs, pass, luck.now) else {};
      Work(ListPass(luck.listable(pass), luck.now));
      SameTiersMirror(s0, st, hot, cold, lastBackups);
    }

    method FinishPass(job: Job, pass: Pass)
      requires Valid() && st.wrk == WPruning(job, pass, {})
      modifies this`st
      ensures Valid() && st == old(st).(wrk := Next(job, pass))
    {
      hide Reachable, WorkerTierStep, WorkerTrackerStep, Mirrors;
      ghost var s0 := st;
      Work(EndPass);
      SameTiersMirror(s0, st, hot, cold, lastBackups);
    }

    method RemoveVictims(job: Job, pass: Pass, victims: set<string>, luck: Luck)
      requires Valid() && st.wrk == WPruning(job, pass, victims)
      modifies this`st, this`hot, this`cold
      ensures Valid() && Framed(old(st), st, job.key) && st.tracker == old(st).tracker
      ensures st.wrk == WPruning(job, pass, {})
      ensures PrunedBy(Of(old(st), job.key), Of(st, job.key), pass, victims, luck)
    {
      hide Valid, PrunedBy;
      var left := victims;
      NothingRemoved(Of(st, job.key), pass, luck);
      assert victims - left == {};
      while left != {}
        invariant Valid() && Framed(old(st), st, job.key) && st.tracker == old(st).tracker
        invariant left <= victims && st.wrk == WPruning(job, pass, left)
        invariant PrunedBy(Of(old(st), job.key), Of(st, job.key), pass, victims - left, luck)
      {
        var n :| n in left;
        OneMoreRemoved(Of(old(st), job.key), Of(st, job.key), pass, victims - left, n, luck);
        RemoveOne(job, pass, left, n, luck.removal(n));
        assert victims - (left - {n}) == victims - left + {n};
        left := left - {n};
      }
      assert victims - left == victims;
    }

    method PrunePass(job: Job, pass: Pass, luck: Luck)
      requires Valid() && st.wrk == WListing(job, pass)
      modifies this`st, this`hot, this`cold
      ensures Valid() && Framed(old(st), st, job.key) && st.tracker == old(st).tracker
      ensures st.wrk == Next(job, pass)
      ensures PrunedBy(Of(old(st), job.key), Of(st, job.key), pass,
                       if luck.listable(pass) then Victims(conf, Of(old(st), job.key), pass, luck.now) else {}, luck)
      ensures Tidy(luck) ==>
                var t, t' := Of(old(st), job.key), Of(st, job.key);
                match pass
                case ColdDays =>
                  && t'.cold.Keys == t.cold.Keys - Prune.DaysVictims(t.cold.Keys, conf.coldDays, luck.now, conf.offset)
                  && t'.hot == t.hot
                case ColdCount =>
                  t'.cold.Keys == t.cold.Keys - Prune.CountVictims(t.cold.Keys, conf.coldCount) && t'.hot == t.hot
                case HotDays =>
                  && t'.hot.Keys == t.hot.Keys - Prune.DaysVictims(t.hot.Keys, conf.hotDays, luck.now, conf.offset)
                  && t'.cold == t.cold
                case HotCount =>
                  t'.hot.Keys == t.hot.Keys - Prune.CountVictims(t.hot.Keys, conf.hotCount) && t'.cold == t.cold
    {
      hide Valid, Victims, PrunedBy, Framed, Tidied, Tidy;
      ghost var s0 := st;
      var victims := ListVictims(job, pass, luck);
      ghost var s1 := st;
      RemoveVictims(job, pass, victims, luck);
      ghost var s2 := st;
      FinishPass(job, pass);
      PassFrames(s0, s1, s2, st, job.key);
      PassResult(conf, Of(s0, job.key), Of(st, job.key), pass, luck);
      PassRemoves(conf, Of(s0, job.key), luck.now);
    }

    /** Both tiers: by age, then by count. */
    method PruneTiers(job: Job, luck: Luck)
      requires Valid() && st.wrk == WListing(job, ColdDays)
      modifies this`st, this`hot, this`cold
      ensures Valid() && Framed(old(st), st, job.key) && st.tracker == old(st).tracker && st.wrk.WIdle?
      ensures OnlyPruned(Of(old(st), job.key), Of(st, job.key))
      ensures Tidy(luck) ==> Of(st, job.key) == AllTidied(conf, Of(old(st), job.key), luck.now)
      ensures Tidy(luck) ==>
                var t, t' := Of(old(st), job.key), Of(st, job.key);
                && t'.cold.Keys == Prune.Retained(t.cold.Keys, conf.coldDays, luck.now, conf.offset, conf.coldCount)
                && t'.hot.Keys == Prune.Retained(t.hot.Keys, conf.hotDays, luck.now, conf.offset, conf.hotCount)
    {
      hide Valid, OnlyPruned, Framed, PrunedBy, Victims, Tidied, Tidy;
      ghost var s0, k := st, job.key;
      PrunePass(job, ColdDays, luck);
      ghost var s1 := st;
      PassResult(conf, Of(s0, k), Of(s1, k), ColdDays, luck);
      PrunePass(job, ColdCount, luck);
      ghost var s2 := st;
      PassResult(conf, Of(s1, k), Of(s2, k), ColdCount, luck);
      PrunedTwice(s0, s1, s2, k);
      PrunePass(job, HotDays, luck);
      ghost var s3 := st;
      PassResult(conf, Of(s2, k), Of(s3, k), HotDays, luck);
      PrunedTwice(s0, s2, s3, k);
      PrunePass(job, HotCount, luck);
      PassResult(conf, Of(s3, k), Of(st, k), HotCount, luck);
      TidiedIsRetained(conf, Of(s0, k), luck.now);
      PrunedTwice(s0, s3, st, k);
    }

    // ---- The worker --------------------------------------------------------------------------------

    /** After the final rename: record, save, clear, prune. */
    method Settle(job: Job, sel: string, luck: Luck)
      requires Valid() && st.wrk == WRenamed(job, sel) && IsBackupDir(sel)
      modifies this`st, this`hot, this`cold, this`lastBackups, this`file, jobTracker
      ensures Valid() && st.wrk.WIdle? && OthersFramed(old(st), st, job.key)
      ensures OnlyPruned(Recorded(Of(old(st), job.key), sel), Of(st, job.key))
      ensures Tidy(luck) ==> Of(st, job.key) == AllTidied(conf, Recorded(Of(old(st), job.key), sel), luck.now)
      ensures file == if luck.write then old(file)[job.key := Recorded(Of(old(st), job.key), sel).rec] else old(file)
      ensures OnlyEntry(old(st).tracker, st.tracker, job.key) && Clear(st.tracker, job.key, job.timestamp, sel)
    {
      hide Valid, Framed, Safety.OthersSame, OnlyPruned, AllTidied, Tidy, PromotedRecord, OnlyEntry, Clear, IsBackupDir;
      ghost var s0, k := st, job.key;
      NothingFrames(s0, k);
      var rec := RecordPromotion(job, sel);
      ghost var s1 := st;
      FrameFrames(s0, s0, s1, k);
      FrameParts(s0, s1, k);
      SaveRecord(job, sel, rec, luck.write);
      ClearEntries(job, sel, true);
      ghost var s2 := st;
      MemoryFrames(s0, s1, s2, k);
      PruneTiers(job, luck);
      FrameFrames(s0, s2, st, k);
      FrameParts(s2, st, k);
    }

    method TransferAndRecord(job: Job, sel: string, prev: string, luck: Luck) returns (ok: bool)
      requires Valid() && st.wrk == WMarking(job, sel, prev) && IsBackupDir(sel)
      modifies this`st, this`hot, this`cold, this`lastBackups, this`file, jobTracker
      ensures Valid() && st.wrk.WIdle? && OthersFramed(old(st), st, job.key)
      ensures luck.makeDir && luck.copy && luck.rename ==> ok
      ensures Transferred(Of(old(st), job.key), Of(st, job.key), sel, ok)
      ensures ok && Tidy(luck) ==>
                Of(st, job.key) == AllTidied(conf, Promoted(Of(old(st), job.key), sel), luck.now)
      ensures file == if ok && luck.write then old(file)[job.key := PromotedRecord(Of(old(st), job.key).rec, sel)]
                      else old(file)
      ensures OnlyEntry(old(st).tracker, st.tracker, job.key) && Clear(st.tracker, job.key, job.timestamp, sel)
    {
      hide Valid, Framed, Safety.OthersSame, OnlyPruned, AllTidied, Tidy, PromotedRecord, OnlyEntry, Clear, IsBackupDir;
      ghost var s0, k := st, job.key;
      Announce(job, sel, prev);
      ghost var s1 := st;
      ok := OffloadSnapshot(job, sel, prev, luck);
      ghost var s2 := st;
      OffloadFrames(s0, s1, s2, k);
      FrameParts(s1, s2, k);
      OnlyEntryTwice(s0.tracker, s1.tracker, s2.tracker, k);
      if !ok {
        ClearEntries(job, sel, false);
        MemoryFrames(s0, s2, st, k);
        OnlyEntryTwice(s0.tracker, s2.tracker, st.tracker, k);
        return;
      }
      Settle(job, sel, luck);
      ThenFrames(s0, s2, st, k);
      OnlyEntryTwice(s0.tracker, s2.tracker, st.tracker, k);
    }

    /** The job ends without a transfer: there is nothing newer, or the transfer delay was cut short. */
    method SkipJob(job: Job, sel: string, prev: string, go: bool)
      requires Valid() && st.wrk == if go then WMarking(job, sel, prev) else WSkipping(job)
      modifies this`st, jobTracker
      ensures Valid()
      ensures st == old(st).(wrk := WIdle, tracker := st.tracker)
      ensures OnlyEntry(old(st).tracker, st.tracker, job.key)
      ensures Clear(st.tracker, job.key, job.timestamp, job.timestamp)
    {
      hide Valid, OnlyEntry, Clear;
      if go {
        CancelTransfer(job, sel, prev);
      }
      ClearSkipped(job);
    }

    method ProcessOffloadJob(job: Job, luck: Luck) returns (ok: bool)
      requires Valid() && st.wrk == WTaken(job)
      modifies this`st, this`hot, this`cold, this`lastBackups, this`file, jobTracker
      ensures Valid() && st.wrk.WIdle? && OthersFramed(old(st), st, job.key)
      ensures Processed(Of(old(st), job.key), Of(st, job.key), Good(luck))
      ensures FiledAs(old(file), file, job.key, Of(old(st), job.key), Of(st, job.key), luck.write)
      ensures OnlyEntry(old(st).tracker, st.tracker, job.key)
      ensures Clear(st.tracker, job.key, job.timestamp, job.timestamp)
      ensures var t := Of(old(st), job.key);
              var best := Newest(t.hot.Keys);
              Rank(best) > Rank(t.rec.cold) && luck.readable && !luck.cancelled ==>
                && Clear(st.tracker, job.key, job.timestamp, best)
                && (Good(luck) && Tidy(luck) ==> Of(st, job.key) == AllTidied(conf, Promoted(t, best), luck.now))
      ensures var t := Of(old(st), job.key);
              Rank(Newest(t.hot.Keys)) <= Rank(t.rec.cold) ==> Of(st, job.key) == t && file == old(file)
      ensures var t, t' := Of(old(st), job.key), Of(st, job.key);
              var best := Newest(t.hot.Keys);
              Rank(best) > Rank(t.rec.cold) && Good(luck) && Tidy(luck) ==>
                && (luck.write ==> Stored(file, job.key) == t'.rec)
                && t'.cold.Keys == Prune.Retained(t.cold.Keys - {InProgress(best)} + {best}, conf.coldDays, luck.now,
                                                  conf.offset, conf.coldCount)
                && t'.hot.Keys == Prune.Retained(t.hot.Keys, conf.hotDays, luck.now, conf.offset, conf.hotCount)
                && t'.rec.cold == best && Guarantees.IsLarger(t'.rec.hot, best, t.rec.hot)
    {
      hide Valid, Framed, Safety.OthersSame, Transferred, Processed, AllTidied, Tidy;
      hide PromotedRecord, OnlyEntry, Promoted;
      ghost var s0, k := st, job.key;
      NothingFrames(s0, k);
      var sel, prev, go := Select(job, luck.readable);
      ghost var s1 := st;
      MemoryFrames(s0, s0, s1, k);
      if !go || luck.cancelled {
        SkipJob(job, sel, prev, go);
        MemoryFrames(s0, s1, st, k);
        SkippedIsProcessed(Of(s0, k), Good(luck));
        return !go;
      }
      ok := TransferAndRecord(job, sel, prev, luck);
      TransferredIsProcessed(Of(s0, k), Of(st, k), Good(luck), ok);
      if Good(luck) && Tidy(luck) {
        PromotedIsRetained(conf, Of(s0, k), sel, luck.now);
      }
      ThenFrames(s0, s1, st, k);
    }

    /** The transfer delay was cut short. */
    method CancelTransfer(job: Job, sel: string, prev: string)
      requires Valid() && st.wrk == WMarking(job, sel, prev)
      modifies this`st
      ensures Valid() && st == old(st).(wrk := WSkipping(job))
    {
      hide Reachable, WorkerTierStep, WorkerTrackerStep, Mirrors;
      ghost var s0 := st;
      Work(Pipeline.Cancel);
      SameTiersMirror(s0, st, hot, cold, lastBackups);
    }

    method TakeJob() returns (job: Job)
      requires Valid() && st.wrk.WIdle? && offloadCh != []
      modifies this`st, this`offloadCh
      ensures Valid() && old(offloadCh) == [job] + offloadCh
      ensures st == old(st).(wrk := WTaken(job), queue := offloadCh)
    {
      hide Reachable, WorkerApply, WorkerEnabled, Mirrors;
      ghost var s0 := st;
      TakeStep(s0);
      job := offloadCh[0];
      Work(Take);
      offloadCh := offloadCh[1..];
      SameTiersMirror(s0, st, hot, cold, lastBackups);
    }

    /**
     * The worker's loop, run until the queue is empty with nothing failing: every server with a queued job
     * ends with the larger of its recorded cold name and its newest hot snapshot, after one transfer at most.
     */
    method RunOffloadWorker(lucks: nat -> Luck)
      requires Valid() && st.wrk.WIdle?
      requires forall i :: Good(lucks(i))
      modifies this`st, this`hot, this`cold, this`lastBackups, this`file, this`offloadCh, jobTracker
      ensures Valid() && st.wrk.WIdle? && offloadCh == [] && st.cyc == old(st).cyc
      ensures forall k :: if k in KeysOf(old(offloadCh)) then Converged(Of(old(st), k), Of(st, k))
                          else Of(st, k) == Of(old(st), k)
    {
      hide Valid, Drained, Processed, Converged, Good;
      ghost var s0, q := st, offloadCh;
      var n := 0;
      NothingDrained(s0, q);
      while offloadCh != []
        invariant Valid() && st.wrk.WIdle? && st.cyc == s0.cyc
        invariant n <= |q| && offloadCh == q[n..]
        invariant Drained(s0, st, KeysOf(q[..n]))
        decreases |offloadCh|
      {
        ghost var s := st;
        var job := TakeJob();
        ghost var s1 := st;
        var ok := ProcessOffloadJob(job, lucks(n));
        JobDrained(s0, s, s1, st, q, n);
        n := n + 1;
      }
      assert q[..n] == q;
      DrainConverges(s0, st, KeysOf(q));
    }

    // ---- Capturing ---------------------------------------------------------------------------------

    /** The cycle reads the record and announces the server. */
    method StartSaving(key: string, mark: string) returns (base: string)
      requires Valid() && st.cyc.CIdle? && key in conf.keys
      modifies this`st, jobTracker
      ensures Valid()
      ensures base == RecordAt(lastBackups, key).hot
      ensures st.cyc.CSaving? && st.cyc.key == key && st.cyc.base == base && st.cyc.mark == mark
      ensures st == old(st).(cyc := st.cyc, tracker := old(st).tracker[key := JobInfo(key, mark, "Saving", 0, 0)])
    {
      hide Reachable, CycleTierStep, Mirrors, Newest, IsNewest;
      ghost var s0 := st;
      MirrorsAt(s0, key, hot, cold, lastBackups);
      BeginStep(s0, key);
      base := RecordAt(lastBackups, key).hot;
      Cycle(Begin(key));
      jobTracker.Add(key, Saving(key, mark, 0, 0));
      Cycle(Start(mark));
      SameTiersMirror(s0, st, hot, cold, lastBackups);
    }

    method MakeHotDir(key: string, mark: string, ts: string, junk: nat)
      requires Valid() && st.cyc.CSaving? && st.cyc.key == key && st.cyc.mark == mark
      requires IsBackupDir(ts) && Rank(ts) > Rank(Of(st, key).latest)
      modifies this`st, this`hot
      ensures Valid() && CycleFramed(old(st), st, key) && st.tracker == old(st).tracker
      ensures st.cyc.CCopying? && st.cyc.key == key && st.cyc.mark == mark && st.cyc.ts == ts
      ensures var t := Of(old(st), key); Of(st, key) == t.(hot := t.hot[InProgress(ts) := Partial(junk)])
    {
      hide Reachable, CycleApply, CycleEnabled, Mirrors;
      ghost var s0 := st;
      MirrorsAt(s0, key, hot, cold, lastBackups);
      PrepareStep(s0, key, mark, ts, junk);
      Cycle(Prepare(ts, junk));
      hot := hot[key := DirAt(hot, key)[InProgress(ts) := Partial(junk)]];
      HotMirrors(s0, st, key, old(hot), cold, lastBackups);
    }

    /** The callbacks of the capture. */
    method ReportSaving(key: string, mark: string, reports: seq<(int, int)>)
      requires Valid() && st.cyc.CCopying? && st.cyc.key == key && st.cyc.mark == mark
      modifies this`st, jobTracker
      ensures Valid()
      ensures st == old(st).(tracker := st.tracker)
      ensures st.tracker - {key} == old(st).tracker - {key}
      ensures st.tracker ==
              if reports == [] then old(st).tracker
              else old(st).tracker[key := JobInfo(key, mark, "Saving", reports[|reports| - 1].0, Largest(reports))]
    {
      hide Reachable, CycleTierStep, Mirrors, Largest, Valid, CycleApply, CycleEnabled;
      var maxTotal := 0;
      NoReports();
      assert reports[..0] == [];
      for i := 0 to |reports|
        invariant Valid() && st == old(st).(tracker := st.tracker)
        invariant maxTotal == Largest(reports[..i])
        invariant st.tracker ==
                  if i == 0 then old(st).tracker
                  else old(st).tracker[key := JobInfo(key, mark, "Saving", reports[i - 1].0, maxTotal)]
      {
        var (moved, total) := reports[i];
        OneMoreReport(reports, i);
        if total > maxTotal {
          maxTotal := total;
        }
        ReportSaved(key, mark, moved, maxTotal);
      }
      assert reports[..|reports|] == reports;
    }

    method ReportSaved(key: string, mark: string, moved: int, total: int)
      requires Valid() && st.cyc.CCopying? && st.cyc.key == key && st.cyc.mark == mark
      modifies this`st, jobTracker
      ensures Valid()
      ensures st == old(st).(tracker := old(st).tracker[key := JobInfo(key, mark, "Saving", moved, total)])
    {
      hide Reachable, CycleTierStep, Mirrors;
      ghost var s0 := st;
      jobTracker.Add(key, Saving(key, mark, moved, total));
      Cycle(Progress(moved, total));
      SameTiersMirror(s0, st, hot, cold, lastBackups);
    }

    method AbortCapture(key: string, ghost left: Left)
      requires Valid() && st.cyc.CSaving? && st.cyc.key == key
      modifies this`st
      ensures Valid() && st == old(st).(cyc := CFailed(key))
    {
      hide Reachable, CycleOtherStep, Mirrors;
      ghost var s0 := st;
      Cycle(Abort(left));
      SameTiersMirror(s0, st, hot, cold, lastBackups);
    }

    method CopyWorld(key: string, ts: string, works: bool, image: nat, left: Left)
      requires Valid() && st.cyc.CCopying? && st.cyc.key == key && st.cyc.ts == ts
      modifies this`st, this`hot
      ensures Valid() && CycleFramed(old(st), st, key) && st.tracker == old(st).tracker
      ensures st.cyc == if works then CCopied(key, old(st).cyc.base, old(st).cyc.baseNewest, ts, image)
                        else CFailed(key)
      ensures var t := Of(old(st), key);
              Of(st, key) == t.(hot := if works then t.hot[InProgress(ts) := Complete(image)]
                                       else Cleaned(t.hot, ts, left))
    {
      hide Reachable, CycleApply, CycleEnabled, Mirrors, Cleaned, CycleFramed, Safety.OthersSame;
      ghost var s0 := st;
      MirrorsAt(s0, key, hot, cold, lastBackups);
      var d := DirAt(hot, key);
      if works {
        CopyDoneStep(s0, key, ts, image);
        Cycle(CopyDone(image));
        hot := hot[key := d[InProgress(ts) := Complete(image)]];
      } else {
        AbortStep(s0, key, left);
        Cycle(Abort(left));
        hot := hot[key := Cleaned(d, ts, left)];
      }
      CycleFrameParts(s0, st, key);
      HotMirrors(s0, st, key, old(hot), cold, lastBackups);
    }

    method RenameCapture(key: string, ts: string, ghost image: nat, works: bool, left: Left)
      requires Valid() && st.cyc.CCopied? && st.cyc.key == key && st.cyc.ts == ts && st.cyc.image == image
      modifies this`st, this`hot
      ensures Valid() && CycleFramed(old(st), st, key) && st.tracker == old(st).tracker
      ensures CanMove(Of(old(st), key).hot, ts)
      ensures st.cyc == if works then CRenamed(key, ts) else CFailed(key)
      ensures var t := Of(old(st), key);
              Of(st, key) == if works then t.(hot := Moved(t.hot, ts), taken := t.taken[ts := image], latest := ts)
                             else t.(hot := Cleaned(t.hot, ts, left))
    {
      hide Reachable, CycleApply, CycleEnabled, Mirrors, Cleaned, Moved, CanMove;
      ghost var s0 := st;
      MirrorsAt(s0, key, hot, cold, lastBackups);
      RenameHotStep(s0, key, ts, image, works, left);
      Guarantees.RenamesMeetNothing(s0, conf);
      Cycle(RenameHot(works, left));
      var d := DirAt(hot, key);
      hot := hot[key := if works then Moved(d, ts) else Cleaned(d, ts, left)];
      HotMirrors(s0, st, key, old(hot), cold, lastBackups);
    }

    method TurnSavingOn(key: string, ts: string, ok: bool)
      requires Valid() && st.cyc == CRenamed(key, ts)
      modifies this`st
      ensures Valid()
      ensures st == old(st).(cyc := if ok then CCaptured(key, ts) else CFailed(key))
    {
      hide Reachable, CycleApply, CycleEnabled, Mirrors;
      ghost var s0 := st;
      SaveOnStep(s0, key, ts, ok);
      Cycle(SaveOn(ok));
      SameTiersMirror(s0, st, hot, cold, lastBackups);
    }

    /** `BackupServer` for a tiered server: copy under a private name, rename, and turn saving on again. */
    method CaptureHot(key: string, mark: string, luck: CaptureLuck) returns (ok: bool)
      requires Valid() && st.cyc.CSaving? && st.cyc.key == key && st.cyc.mark == mark
      requires IsBackupDir(luck.ts) && Rank(luck.ts) > Rank(Of(st, key).latest)
      modifies this`st, this`hot, jobTracker
      ensures Valid() && CycleFramed(old(st), st, key)
      ensures st.tracker - {key} == old(st).tracker - {key}
      ensures ok <==> luck.ready && luck.copy && luck.rename && luck.saveOn
      ensures st.cyc == if ok then CCaptured(key, luck.ts) else CFailed(key)
      ensures CaptureResult(Of(old(st), key), Of(st, key), luck)
    {
      hide Valid, CycleFramed, Cleaned, Safety.SameSnapshots;
      var ts := luck.ts;
      ghost var s0, d := st, Of(st, key).hot;
      CleanedIsGone(d[InProgress(ts) := Partial(luck.junk)], ts, luck.left);
      CleanedIsGone(d[InProgress(ts) := Partial(luck.junk)][InProgress(ts) := Complete(luck.image)], ts, luck.left);
      if !luck.ready {
        AbortCapture(key, luck.left);
        SameFrames(s0, st, key);
        return false;
      }
      CopyAndCleanIsPrivate(d, ts, Partial(luck.junk), Complete(luck.image), luck.left);
      MakeHotDir(key, mark, ts, luck.junk);
      ghost var s1 := st;
      ReportSaving(key, mark, luck.reports);
      ghost var s2 := st;
      TrackerFrames(s1, s2, key);
      CopyWorld(key, ts, luck.copy, luck.image, luck.left);
      ghost var s3 := st;
      CycleTwice(s0, s1, s2, key);
      CycleTwice(s0, s2, s3, key);
      if !luck.copy {
        return false;
      }
      RenameCapture(key, ts, luck.image, luck.rename, luck.left);
      CycleTwice(s0, s3, st, key);
      if !luck.rename {
        return false;
      }
      CopyThenMove(d, ts, Partial(luck.junk), Complete(luck.image));
      ghost var s4 := st;
      TurnSavingOn(key, ts, luck.saveOn);
      TrackerFrames(s4, st, key);
      CycleTwice(s0, s4, st, key);
      return luck.saveOn;
    }

    /** The critical section after the capture. */
    method RecordCapture(key: string, ts: string) returns (rec: Record)
      requires Valid() && st.cyc == CCaptured(key, ts)
      modifies this`st, this`lastBackups
      ensures Valid() && CycleFramed(old(st), st, key) && st.tracker == old(st).tracker
      ensures st.cyc == CCommitted(key, ts, rec)
      ensures Of(st, key) == Of(old(st), key).(rec := rec) && rec == Of(old(st), key).rec.(hot := ts)
    {
      hide Reachable, CycleApply, CycleEnabled, Mirrors;
      ghost var s0 := st;
      MirrorsAt(s0, key, hot, cold, lastBackups);
      CommitHotStep(s0, key, ts);
      rec := RecordAt(lastBackups, key).(hot := ts);
      Cycle(Commit);
      lastBackups := lastBackups[key := rec];
      RecordMirrors(s0, st, key, hot, cold, old(lastBackups));
    }

    method SaveCapture(key: string, ts: string, saved: Record, write: bool)
      requires Valid() && st.cyc == CCommitted(key, ts, saved)
      modifies this`st, this`file
      ensures Valid()
      ensures st == old(st).(cyc := CFiled(key, ts), file := file)
      ensures file == if write then old(file)[key := saved] else old(file)
    {
      hide Reachable, CycleTierStep, Mirrors;
      ghost var s0 := st;
      var m := file;
      Cycle(ReadFile);
      if write {
        file := m[key := saved];
      }
      Cycle(WriteFile(write));
      SameTiersMirror(s0, st, hot, cold, lastBackups);
    }

    method MarkWaiting(key: string, ts: string)
      requires Valid() && st.cyc == CFiled(key, ts)
      modifies this`st, jobTracker
      ensures Valid()
      ensures st == old(st).(cyc := CMarked(key, ts),
                             tracker := old(st).tracker[key := JobInfo(key, ts, "Waiting Offload", 0, 0)])
    {
      hide Reachable, CycleTierStep, Mirrors;
      ghost var s0 := st;
      jobTracker.Add(key, Waiting(key, ts));
      Cycle(Mark);
      SameTiersMirror(s0, st, hot, cold, lastBackups);
    }

    /** Offer the job without waiting; a full queue drops it and the entry goes. */
    method OfferJob(key: string, ts: string)
      requires Valid() && st.cyc == CMarked(key, ts)
      modifies this`st, this`offloadCh, jobTracker
      ensures Valid()
      ensures offloadCh == old(offloadCh) + if |old(offloadCh)| < conf.capacity then [Job(key, ts)] else []
      ensures st == old(st).(cyc := CIdle, queue := offloadCh, tracker := st.tracker)
      ensures st.tracker ==
              if |old(offloadCh)| >= conf.capacity && key in old(st).tracker && old(st).tracker[key].snapshot == ts
              then old(st).tracker - {key} else old(st).tracker
    {
      hide Reachable, CycleApply, CycleEnabled, Mirrors;
      ghost var s0 := st;
      EnqueueStep(s0, key, ts);
      if |offloadCh| < conf.capacity {
        offloadCh := offloadCh + [Job(key, ts)];
      } else {
        var done := jobTracker.RemoveIfSnapshot(key, ts);
      }
      Cycle(Enqueue);
      SameTiersMirror(s0, st, hot, cold, lastBackups);
    }

    method GiveUpServer(key: string)
      requires Valid() && st.cyc == CFailed(key)
      modifies this`st, jobTracker
      ensures Valid()
      ensures st == old(st).(cyc := CIdle, tracker := Removed(old(st).tracker, key))
    {
      hide Reachable, CycleTierStep, Mirrors;
      ghost var s0 := st;
      jobTracker.Remove(key);
      Cycle(GiveUp);
      SameTiersMirror(s0, st, hot, cold, lastBackups);
    }

    method FileAndQueue(key: string, ts: string, saved: Record, write: bool)
      requires Valid() && st.cyc == CCommitted(key, ts, saved)
      modifies this`st, this`file, this`offloadCh, jobTracker
      ensures Valid() && st.cyc.CIdle? && MemoryOnly(old(st), st)
      ensures file == if write then old(file)[key := saved] else old(file)
      ensures offloadCh == Offered(old(offloadCh), Job(key, ts), conf.capacity)
      ensures st.tracker == if |old(offloadCh)| < conf.capacity then Added(old(st).tracker, key, Waiting(key, ts))
                            else RemovedIf(Added(old(st).tracker, key, Waiting(key, ts)), key, ts)
    {
      SaveCapture(key, ts, saved, write);
      MarkWaiting(key, ts);
      OfferJob(key, ts);
    }

    /** The body of the backup cycle for one tiered server. */
    method BackUpServer(key: string, luck: CaptureLuck) returns (ok: bool)
      requires Valid() && st.cyc.CIdle? && key in conf.keys
      requires IsBackupDir(luck.ts) && Rank(luck.ts) > Rank(Of(st, key).latest)
      modifies this`st, this`hot, this`lastBackups, this`file, this`offloadCh, jobTracker
      ensures Valid() && st.cyc.CIdle? && WorkerFramed(old(st), st, key)
      ensures ok <==> luck.ready && luck.copy && luck.rename && luck.saveOn
      ensures BackedUp(Of(old(st), key), Of(st, key), luck)
      ensures var t, t' := Of(old(st), key), Of(st, key);
              && t'.cold == t.cold && t'.rec == (if ok then Record(luck.ts, t.rec.cold) else t.rec)
              && (if luck.ready && luck.copy && luck.rename then
                    t'.hot == (t.hot - {InProgress(luck.ts)})[luck.ts := Complete(luck.image)]
                  else
                    && Safety.SameSnapshots(t.hot, t'.hot)
                    && (luck.ready && luck.left.Nothing? ==> InProgress(luck.ts) !in t'.hot))
              && file == if ok && luck.write then old(file)[key := t'.rec] else old(file)
      ensures var room := ok && |old(offloadCh)| < conf.capacity;
              && offloadCh == (if room then old(offloadCh) + [Job(key, luck.ts)] else old(offloadCh))
              && jobTracker.jobs ==
                 if room then old(jobTracker.jobs)[key := JobInfo(key, luck.ts, "Waiting Offload", 0, 0)]
                 else old(jobTracker.jobs) - {key}
    {
      hide Reachable, Mirrors, CycleFramed, WorkerFramed, RemovedIf, Safety.SameSnapshots;
      ghost var s0 := st;
      var base := StartSaving(key, luck.mark);
      ghost var s1 := st;
      ok := CaptureHot(key, luck.mark, luck);
      ghost var s2 := st;
      EntryReplaced(s2.tracker, s0.tracker, key, Waiting(key, luck.ts));
      CaptureFrames(s0, s1, s2, s2, key);
      if !ok {
        GiveUpServer(key);
        CaptureFrames(s0, s1, s2, st, key);
        return;
      }
      var rec := RecordCapture(key, luck.ts);
      ghost var s3 := st;
      FileAndQueue(key, luck.ts, rec, luck.write);
      WorkerFramedTwice(s0, s2, s3, st, key);
    }

    /**
     * The backup cycle: every eligible server in turn, until a cancellation is noticed before the one at
     * `cancelAt`. A failing server does not stop the others.
     */
    method RunBackupCycle(servers: seq<string>, eligible: string -> bool, cancelAt: nat, lucks: string -> CaptureLuck)
      requires Valid() && st.cyc.CIdle?
      requires forall i, j | 0 <= i < j < |servers| :: servers[i] != servers[j]
      requires forall i | 0 <= i < |servers| :: servers[i] in conf.keys
      requires forall i | 0 <= i < |servers| && eligible(servers[i]) ::
                 IsBackupDir(lucks(servers[i]).ts) && Rank(lucks(servers[i]).ts) > Rank(Of(st, servers[i]).latest)
      modifies this`st, this`hot, this`lastBackups, this`file, this`offloadCh, jobTracker
      ensures Valid() && st.cyc.CIdle? && st.wrk == old(st).wrk
      ensures var reached := servers[..if cancelAt < |servers| then cancelAt else |servers|];
              && AllBackedUp(old(st), st, Visited(reached, eligible), lucks)
              && offloadCh == QueuedBy(old(offloadCh), reached, eligible, lucks, conf.capacity)
              && file == FiledBy(old(st), old(file), reached, eligible, lucks)
              && jobTracker.jobs ==
                 ShownBy(old(jobTracker.jobs), old(offloadCh), reached, eligible, lucks, conf.capacity)
      ensures var reached := servers[..if cancelAt < |servers| then cancelAt else |servers|];
              && (forall i | 0 <= i < |reached| && eligible(reached[i]) ::
                    && BackedUp(Of(old(st), reached[i]), Of(st, reached[i]), lucks(reached[i]))
                    && ServedAs(old(st), old(offloadCh), old(file), reached[i], lucks(reached[i]), conf.capacity,
                                offloadCh, file, jobTracker.jobs))
              && forall k | (forall i | 0 <= i < |reached| && eligible(reached[i]) :: reached[i] != k) ::
                   LeftAlone(old(st), st, old(file), file, old(jobTracker.jobs), jobTracker.jobs, k)
    {
      hide ServedAs, LeftAlone, Valid, AllBackedUp, Visited, BackedUp, WorkerFramed;
      hide IsBackupDir, Rank, QueuedBy, FiledBy, ShownBy;
      ghost var s0, q := st, offloadCh;
      var i := 0;
      NoneBackedUp(s0, servers, eligible, lucks);
      NoServers(s0, q, file, jobTracker.jobs, servers, eligible, lucks, conf.capacity);
      while i < |servers| && i < cancelAt
        invariant i <= |servers| && i <= cancelAt
        invariant Valid() && st.cyc.CIdle? && st.wrk == s0.wrk
        invariant AllBackedUp(s0, st, Visited(servers[..i], eligible), lucks)
        invariant offloadCh == QueuedBy(q, servers[..i], eligible, lucks, conf.capacity)
        invariant file == FiledBy(s0, old(file), servers[..i], eligible, lucks)
        invariant jobTracker.jobs == ShownBy(old(jobTracker.jobs), q, servers[..i], eligible, lucks, conf.capacity)
      {
        ghost var s := st;
        var k := servers[i];
        OneMoreServer(s0, q, old(file), old(jobTracker.jobs), servers, i, eligible, lucks, conf.capacity);
        if eligible(k) {
          NotYetVisited(s0, s, servers, i, eligible, lucks);
          var ok := BackUpServer(k, lucks(k));
          FrameKeepsWorker(s, st, k);
          if ok {
            BackedUpRecord(Of(s, k), Of(st, k), lucks(k));
          }
        }
        OneMoreBackedUp(s0, s, st, servers, i, eligible, lucks);
        i := i + 1;
      }
      CycleMeans(s0, st, q, old(file), old(jobTracker.jobs), servers[..i], eligible, lucks, conf.capacity);
    }

    // ---- Starting ----------------------------------------------------------------------------------

    /** A daemon that has just started: the directories and the state file of the last one, and no memory. */
    ghost predicate Booting()
      reads this, jobTracker
    {
      && Reachable(st, conf) && st.conf == conf && st.file == file
      && DirsMirror(st, hot, cold)
      && jobTracker.jobs == map[] && offloadCh == [] && lastBackups == map[]
    }

    constructor AfterCrash(conf: Settings, hot: map<string, Dir>, cold: map<string, Dir>, file: StateFile,
                           ghost crashed: State)
      requires Reachable(crashed, conf) && crashed.conf == conf && crashed.file == file
      requires DirsMirror(crashed, hot, cold)
      ensures Booting() && st == crashed && this.conf == conf && fresh(jobTracker)
    {
      hide Reachable, DirsMirror;
      this.conf := conf;
      jobTracker := new JobTracker();
      this.hot, this.cold, this.file := hot, cold, file;
      lastBackups, offloadCh := map[], [];
      st := crashed;
    }

    /** What is found for one server: in each tier the stored name or a newer completed directory. */
    method DiscoverOne(k: string, stored: Record) returns (found: Record)
      requires Reachable(st, conf) && DirsMirror(st, hot, cold) && stored == Stored(st.file, k)
      ensures found == FoundFor(st, k)
    {
      hide Reachable;
      RecordedStored(st, conf, k);
      assert Of(st, k).hot == DirAt(hot, k);
      var latestHot := Greatest(DirAt(hot, k));
      LexIsRank(stored.hot, latestHot);
      var latestCold := Greatest(DirAt(cold, k));
      LexIsRank(stored.cold, latestCold);
      found := stored;
      if latestHot != "" && (stored.hot == "" || LexLess(stored.hot, latestHot)) {
        found := found.(hot := latestHot);
      }
      if latestCold != "" && (stored.cold == "" || LexLess(stored.cold, latestCold)) {
        found := found.(cold := latestCold);
      }
    }

    /**
     * The loop of discovery. A server's entry is written when it changed or carried no time, there is
     * anything to record, and the write works.
     */
    method DiscoverAll(noTime: string -> bool, writes: string -> bool) returns (ghost written: set<string>)
      requires Booting()
      modifies this`lastBackups, this`file
      ensures Recovered(st, lastBackups, file, conf.keys, written)
      ensures written == WrittenFor(st, conf.keys, noTime, writes)
      ensures forall k | k in conf.keys && writes(k) :: Stored(file, k) == RecordAt(lastBackups, k)
      ensures forall k | k in conf.keys && writes(k) && noTime(k) && RecordAt(lastBackups, k) != NOTHING :: k in written
      ensures forall k | k in written :: writes(k) && (noTime(k) || RecordAt(lastBackups, k) != Stored(old(file), k))
      ensures forall k | k !in written :: Stored(file, k) == Stored(old(file), k)
    {
      hide Reachable, DirsMirror, FoundFor, Recovered, WrittenFor;
      var stored := file;
      var left := conf.keys;
      written := {};
      NothingRecovered(st, noTime, writes);
      assert conf.keys - left == {};
      while left != {}
        invariant left <= conf.keys
        invariant Recovered(st, lastBackups, file, conf.keys - left, written)
        invariant written == WrittenFor(st, conf.keys - left, noTime, writes)
      {
        var k :| k in left;
        var was := Stored(stored, k);
        var found := DiscoverOne(k, was);
        OneMoreRecovered(st, lastBackups, file, conf.keys - left, written, k);
        OneMoreWritten(st, conf.keys - left, noTime, writes, k);
        if (found != was || noTime(k)) && found != NOTHING && writes(k) {
          file := file[k := found];
          written := written + {k};
        }
        lastBackups := lastBackups[k := found];
        assert conf.keys - (left - {k}) == conf.keys - left + {k};
        left := left - {k};
      }
      assert conf.keys - left == conf.keys;
      RecoveredMeans(st, lastBackups, file, conf.keys, written, noTime, writes);
    }

    /** Discovery at the start: as a whole, the pipeline's restart. */
    method DiscoverSnapshots(noTime: string -> bool, writes: string -> bool) returns (ghost written: set<string>)
      requires Booting()
      modifies this`st, this`lastBackups, this`file
      ensures Valid() && st == RestartApply(old(st), written)
      ensures written == WrittenFor(old(st), conf.keys, noTime, writes)
      ensures forall k | k in conf.keys && writes(k) :: Stored(file, k) == RecordAt(lastBackups, k)
      ensures forall k | k in conf.keys && writes(k) && noTime(k) && RecordAt(lastBackups, k) != NOTHING :: k in written
      ensures forall k | k in written :: writes(k) && (noTime(k) || RecordAt(lastBackups, k) != Stored(old(file), k))
      ensures forall k | k !in written :: Stored(file, k) == Stored(old(file), k)
    {
      hide Reachable, RestartApply, Mirrors, DirsMirror, Recovered, WrittenFor;
      written := DiscoverAll(noTime, writes);
      RecoveredMirrors(st, conf, hot, cold, lastBackups, file, written);
      StepReachable(st, Restart(written), conf);
      st := RestartApply(st, written);
    }
  }
}
