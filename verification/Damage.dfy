/**
 * Two runs of the daemon. In one a removal fails part way, and the snapshot that stays under its name is no
 * complete copy; in the other a promotion is forgotten at a start.
 */
module Damage {
  import opened Names
  import opened Pipeline
  import opened Steps
  import opened Daemon
  import Safety
  import Fidelity
  import History
  import Prune

  const KEY := "mc/survival"
  const TS := "20250101-0000"
  const CONF := Settings({KEY}, 1, 0, 0, 1, 0, 0)

  lemma NameIsTime()
    ensures SpellsTime(TS)
  {
    assert Fields(TS) == Civil(2025, 1, 1, 0, 0);
  }

  lemma OnlyIsNewest(d: Dir, ts: string)
    requires d.Keys == {ts} && IsBackupDir(ts)
    ensures Newest(d.Keys) == ts
  {
    assert IsNewest(ts, d.Keys);
    NewestIsUnique(ts, Newest(d.Keys), d.Keys);
  }

  lemma NewerThanNone(ts: string)
    requires IsBackupDir(ts)
    ensures Rank(ts) > Rank("")
  {
  }

  lemma OldSnapshotGoes(names: set<string>, ts: string, now: int)
    requires ts in names && SpellsTime(ts) && now == Prune.Instant(ts, 0) + 2 * Prune.DAY
    ensures ts in Prune.DaysVictims(names, 1, now, 0)
  {
    hide SpellsTime, Prune.Instant;
    Prune.CutoffIsExact(now, 1);
  }

  /** One capture of the one server, nothing failing. */
  method Capture() returns (d: Daemon)
    ensures d.Valid() && fresh(d) && fresh(d.jobTracker) && d.conf == CONF
    ensures d.st.wrk.WIdle? && d.offloadCh == [Job(KEY, TS)]
    ensures var t := Of(d.st, KEY);
            t.hot.Keys == {TS} && t.cold == map[] && t.rec == Record(TS, "") && t.earlier == t.promoted == []
  {
    hide Reachable, Mirrors, SpellsTime, Safety.OthersSame;
    NameIsTime();
    d := new Daemon(CONF);
    ghost var t0 := Of(d.st, KEY);
    var luck := CaptureLuck(TS, TS, true, 0, [], true, 7, true, Nothing, true, true);
    var ok := d.BackUpServer(KEY, luck);
  }

  lemma FieldsShow(d: Daemon, key: string)
    requires d.Valid()
    ensures Of(d.st, key).hot == DirAt(d.hot, key) && Of(d.st, key).rec == RecordAt(d.lastBackups, key)
  {
    hide Reachable;
    MirrorsAt(d.st, key, d.hot, d.cold, d.lastBackups);
  }

  /** Taking the job and selecting its capture. */
  method Choose(d: Daemon, key: string, ts: string) returns (job: Job)
    requires d.Valid() && IsBackupDir(ts) && d.st.wrk.WIdle? && d.offloadCh == [Job(key, ts)]
    requires Of(d.st, key).hot.Keys == {ts} && Of(d.st, key).rec == Record(ts, "")
    modifies d`st, d`offloadCh
    ensures d.Valid() && job.key == key && d.st.wrk == WMarking(job, ts, "") && d.st.tiers == old(d.st).tiers
  {
    hide d.Valid;
    FieldsShow(d, key);
    OnlyIsNewest(DirAt(d.hot, key), ts);
    NewerThanNone(ts);
    job := d.TakeJob();
    assert job == ([job] + d.offloadCh)[0];
    var sel, prev, go := d.Select(job, true);
  }

  /** Copying and renaming it. */
  method Transfer(d: Daemon, key: string, ts: string, luck: Luck) returns (job: Job)
    requires d.Valid() && Good(luck) && IsBackupDir(ts)
    requires d.st.wrk.WIdle? && d.offloadCh == [Job(key, ts)]
    requires Of(d.st, key).hot.Keys == {ts} && Of(d.st, key).rec == Record(ts, "")
    modifies d, d.jobTracker
    ensures d.Valid() && job.key == key && d.st.wrk == WRenamed(job, ts)
    ensures var t, t' := Of(old(d.st), key), Of(d.st, key);
            t'.cold.Keys == t.cold.Keys - {InProgress(ts)} + {ts}
            && t'.earlier == t.earlier && t'.promoted == t.promoted + [ts]
  {
    hide d.Valid, Safety.OthersSame, IsBackupDir, Framed;
    job := Choose(d, key, ts);
    d.Announce(job, ts, "");
    var ok := d.OffloadSnapshot(job, ts, "", luck);
  }

  /** Recording it, up to the point where pruning starts. */
  method Settle(d: Daemon, job: Job, ts: string)
    requires d.Valid() && d.st.wrk == WRenamed(job, ts) && IsBackupDir(ts)
    modifies d, d.jobTracker
    ensures d.Valid() && d.st.wrk == WListing(job, ColdDays)
    ensures var t := Of(old(d.st), job.key); Of(d.st, job.key) == t.(rec := Of(d.st, job.key).rec)
  {
    hide d.Valid, Safety.OthersSame, IsBackupDir, Framed;
    var rec := d.RecordPromotion(job, ts);
    d.SaveRecord(job, ts, rec, true);
    d.ClearEntries(job, ts, true);
  }

  /** Two days later the cold copy is due for removal, and the removal stops half way. */
  method FailedRemoval() returns (d: Daemon)
    ensures d.Valid() && !Fidelity.Faithful(d.st)
  {
    NameIsTime();
    d := Capture();
    hide Reachable, Mirrors, Prune.DaysVictims, SpellsTime, Prune.Instant;
    var now := Prune.Instant(TS, 0) + 2 * Prune.DAY;
    var luck := Luck(true, false, true, true, true, true, 0, Nothing, [], now, _ => true, _ => Damaged(0));
    var job := Transfer(d, KEY, TS, luck);
    Settle(d, job, TS);
    var victims := d.ListVictims(job, ColdDays, luck);
    OldSnapshotGoes(Of(d.st, KEY).cold.Keys, TS, now);
    ghost var s := d.st;
    d.RemoveOne(job, ColdDays, victims, TS, Damaged(0));
    assert Of(d.st, KEY).cold[TS] == Partial(0);
    assert !Fidelity.TierFaithful(Of(d.st, KEY));
  }

  /**
   * Two days later the cold copy is removed for its age, the state file is lost and the daemon starts anew:
   * its record no longer covers the promotion.
   */
  method ForgottenPromotion() returns (d: Daemon)
    ensures d.Valid()
    ensures History.AllPromoted(Of(d.st, KEY)) == [TS] && !History.Remembers(Of(d.st, KEY), "")
  {
    NameIsTime();
    d := Capture();
    hide Reachable, Mirrors, Prune.DaysVictims, SpellsTime, Prune.Instant;
    var now := Prune.Instant(TS, 0) + 2 * Prune.DAY;
    var luck := Luck(true, false, true, true, true, true, 0, Nothing, [], now, _ => true, _ => Gone);
    var job := Transfer(d, KEY, TS, luck);
    Settle(d, job, TS);
    var victims := d.ListVictims(job, ColdDays, luck);
    OldSnapshotGoes(Of(d.st, KEY).cold.Keys, TS, now);
    d.RemoveOne(job, ColdDays, victims, TS, Gone);
    assert Of(d.st, KEY).cold.Keys == {};
    d := StartAnew(d);
  }

  /** A crash after which the state file is empty, and the next start. */
  method StartAnew(before: Daemon) returns (d: Daemon)
    requires before.Valid() && before.conf == CONF
    requires Of(before.st, KEY).cold.Keys == {} && History.AllPromoted(Of(before.st, KEY)) == [TS]
    ensures d.Valid()
    ensures History.AllPromoted(Of(d.st, KEY)) == [TS] && !History.Remembers(Of(d.st, KEY), "")
  {
    hide Reachable;
    ghost var s := before.st.(file := map[]);
    StepReachable(before.st, FileLost(map[]), CONF);
    NothingNewest(Of(s, KEY).cold.Keys);
    SameDirsMirror(before.st, s, before.hot, before.cold, before.lastBackups);
    hide Mirrors, DirsMirror, RestartApply, History.Remembers, History.AllPromoted;
    d := new Daemon.AfterCrash(CONF, before.hot, before.cold, map[], s);
    ghost var written := d.DiscoverSnapshots(_ => false, _ => true);
    Forgotten(s, written);
  }

  lemma NothingNewest(names: set<string>)
    requires names == {}
    ensures Newest(names) == ""
  {
  }

  lemma SameDirsMirror(s: State, s': State, hot: map<string, Dir>, cold: map<string, Dir>, recs: map<string, Record>)
    requires Mirrors(s, hot, cold, recs) && s'.tiers == s.tiers
    ensures DirsMirror(s', hot, cold)
  {
    forall k
      ensures Of(s', k).hot == DirAt(hot, k) && Of(s', k).cold == DirAt(cold, k)
    {
      MirrorsAt(s, k, hot, cold, recs);
    }
  }

  lemma Forgotten(s: State, written: set<string>)
    requires Reachable(s, CONF) && s.file == map[] && Newest(Of(s, KEY).cold.Keys) == ""
    requires History.AllPromoted(Of(s, KEY)) == [TS]
    ensures var t := Of(RestartApply(s, written), KEY);
            History.AllPromoted(t) == [TS] && !History.Remembers(t, "")
  {
    hide Reachable, RestartApply, History.Remembers, History.AllPromoted;
    NameIsTime();
    NewerThanNone(TS);
    History.StartRemembers(s, CONF, written, KEY);
  }
}
