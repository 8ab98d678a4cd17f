# Verification of the backup daemon's core

The daemon backs up game servers. For a tiered server each backup cycle captures a *hot* snapshot on fast
storage and queues a job; one worker promotes the newest hot snapshot to the *cold* tier. A record of the last
snapshots lives in memory and in the `.last-backup` file, and a table of running jobs feeds the status page.
This project models that pipeline, the two-file configuration transaction and the codecs around them, and
proves what they keep. Check it with `dafny verify dfyconfig.toml` (Dafny 4.11).

## How it is organised

**The pipeline.** `Pipeline` is a step relation. An event is one critical section, one file system operation or
one tracker call of the cycle or of the worker, in any interleaving; a crash with the start that follows; or the
replacement of the state file by any older one whose names were once completed. Each operation may fail. An
rsync run either copies everything or leaves arbitrary partial content, and a removal may work, do nothing or
stop half way. `Reachable(s, conf)` means: some run from the empty start leads to `s`.

- `Safety` proves the invariant of every run, `Ownership` the one about the status table, `HotSafety` the one
  about pruning while captures and transfers are under way, `History` the one about the order of promotions
  across crashes and starts.
- `Guarantees` and `Fidelity` read off what a maintainer relies on.
- `Daemon` is the imperative program: a class with the daemon's fields whose methods follow `daemon.go` and
  `backup.go` branch by branch, and a ghost `st` that takes the pipeline's steps as the code performs them.
  `Valid()` says that the fields are what a *reachable* pipeline state says they are, so all guarantees hold
  between any two operations. `Steps` holds the single-step lemmas. What can fail is a parameter (`Luck`,
  `CaptureLuck`).
- `Damage` has two complete runs of that program: in one a removal fails part way, in the other a start forgets a
  promotion.

**Names and retention.** `Names` ties the byte-wise order of snapshot names to an integer rank and to calendar
time; `Prune` has the two pruners.

**Configuration.** `ConfigFiles` says what loading and splitting make of the two files. `ConfigStore` has the
directory as a map of paths in which every rename, chmod, removal and temporary file may fail, with a ghost trace
of every intermediate state; its contracts say which failing operation leads to which error and what is left of
both files then. `ConfigRuns` has sequences of `config set` calls with any outcomes.

**Codecs.** `LastBackup`, `Progress`, `Shell` and `Excludes`, on `Text`, the parts of Go's `strings` and
`strconv` they use.

**The save bracket.** `SaveBracket` has the retry loop and `BackupServer` with its deferred save-on.

## Assumptions

- A server's target stays `tiered-local` for the whole run, and the hot and cold roots differ.
- A server's capture timestamps strictly increase. Names have minute resolution and a rename cannot land on a
  directory with content (POSIX.1-2017, System Interfaces, `rename()`); this is the guard of the event
  `Prepare`.
- Server names are unique across namespaces: the state file is keyed by the bare name
  (`internal/engine/daemon.go:166`), the model by one key for both.
- At a start the directories can be read, and an old state file only names snapshots that once existed. No cycle
  runs until discovery has ended: the status page, which can start one, is served a little earlier
  (`internal/engine/daemon.go:305-326`), and a record made then could be overwritten.
- Removing a stale private directory before a copy works, in both tiers. The code ignores it when it does not
  (`internal/engine/backup.go:256` and `297`), and as rsync deletes nothing, old files would then stay in the copy.
- The zone has a fixed offset from UTC.
- Encoding and decoding TOML are inverse to each other; server names are lower-case already.

## What the code does not promise

- **Complete copies.** Every snapshot in either tier is a complete copy, all along a run, if and only if no
  removal in that run failed part way (`Fidelity.RunsAreFaithful`): what is left of the directory keeps its
  name. `Damage.FailedRemoval` is such a run.
- **The cold record.** Between the final rename and the critical section after it the renamed snapshot is newer
  than the record; at any other moment the record covers the cold directory (`Guarantees.RecordCoversCold`).
- **Order of the pruning passes.** With a directory name such as `20250100-0000`, which passes `isBackupDir` but
  is no date, days-then-count and count-then-days may differ (`Prune.OrderMattersForInvalidNames`); they agree
  exactly if each such name is kept by count before pruning by age or is not kept by count after it
  (`Prune.OrderMattersExactly`).
- **Very long retention.** The cutoff is a 64-bit product of nanoseconds: it is what the setting says exactly up
  to 106751 days, and at 106752 days everything taken so far goes (`Prune.CutoffIsExact`,
  `Prune.WideSettingRemovesAll`).
- **Progress totals.** The extrapolated size is the true quotient exactly while a hundred times the byte count
  fits 64 bits (`Progress.TotalIsExact`).
- **Long lines.** A progress line of 64 KiB or more ends the scan: the callbacks are those of the lines before it,
  however the stream is cut (`Progress.StreamRsyncProgress`).
- **The state file.** An update reads back exactly when the entry is well formed: no `=` but in the hot path, no
  line feed, nothing to trim at either end (`LastBackup.UpdateReadsBack`).
- **Excludes.** A list reads back exactly when its patterns are trimmed, non-empty and without commas and it is
  not one pattern that spells a keyword (`Excludes.ExcludesRoundTrip`).
- **Rollback.** The comment on `saveSplit` promises that a failed replacement leaves no partial state
  (`internal/engine/config.go:387-391`). It holds for a file the save would change exactly if that file's own
  operation of the rollback works (`ConfigStore.RestoredExactly`); if all later operations work, the whole
  directory is as before (`ConfigStore.ConfigDir.SetConfigValue`). A failing removal of a newly created file is
  not even reported: `ConfigRuns.NewFileStays` is such a save.
- **A nil error.** `saveSplit` drops the errors of writing the sidecar (`internal/engine/config.go:461` and
  `555-575`). A save that reports success has made both files new exactly if there was no sidecar to write or
  filling it was not cut short (`ConfigStore.ConfigDir.SaveSplit`). On a full disk a cut-short sidecar replaces
  the old one, whose backup is then removed: `ConfigRuns.SidecarIsCutShort`.
- **Auto-provisioned servers.** Over any sequence of `config set` calls they stay in the sidecar and none enters the
  main file exactly as long as no call moves the sidecar away for good and none puts one in place that was cut
  short of its servers (`ConfigRuns.AutoServersStay`). A missing sidecar is taken for none by loading, and the
  next set of one of its servers writes that server into the main file: `ConfigRuns.SidecarIsLost`.
- **The record after a start.** A start leaves the cold record behind the last promotion exactly if neither the
  state file nor the cold directory has that name or a later one (`History.StartRemembers`);
  `Damage.ForgottenPromotion` is such a run. Promotions are in order all the same
  (`History.PromotionsIncrease`): what is queued after a start is later than all of them.
- **A failed save-on** after a hot rename leaves that snapshot on disk but unrecorded; the event `SaveOn(false)`.

## Model

| member | source | states |
|---|---|---|
| Ownership.EntriesAreOwned | internal/engine/daemon.go:456-521 | In every interleaving, with any callbacks and failures, each status entry belongs to the cycle now at that server, to a queued job with that key and snapshot, or to the job in flight for whose timestamp or selection it stands. |
| Ownership.QuietMeansEmpty | internal/engine/daemon.go:751-778 | With no cycle running, no job in flight and an empty queue, the status table is empty. |
| Ownership.WorkerSparesOthers | internal/engine/status.go:57-66 | No step of the worker removes or changes an entry other than that of its job's key, for its job's timestamp or its selection. |
| Ownership.CycleSparesOthers | internal/engine/daemon.go:676-778 | A step of the cycle removes or changes no entry but that of the server it is at. |
| Guarantees.RecordCoversCold | internal/engine/daemon.go:499-516 | In any reachable state a completed cold name is at most the recorded one, if and only if it is not the one just renamed and about to be recorded. |
| History.PromotionsIncrease | internal/engine/daemon.go:424-439 | Over a whole run with any crashes, starts and old state files, the promotions of a server are in strictly increasing order, so no timestamp is promoted twice. |
| History.StartRemembers | internal/engine/daemon.go:218-226 | A start keeps the promotions as they were, and its record covers them if and only if the state file's name or the newest cold directory is at least the last one. |
| Guarantees.RenamesMeetNothing | internal/engine/backup.go:270-318 | When a hot or cold copy is complete, its final name is free and its private directory there, so the rename works unless the system refuses. |
| Guarantees.SnapshotsAreFaithful | internal/engine/backup.go:251-318 | In any reachable state each directory named as a snapshot was captured under that name and holds that capture, unless a removal of it, or of the hot one it was copied from, failed part way. |
| Fidelity.FidelityIsLostByDamage | internal/engine/prune.go:32-38 | From a state with only complete copies, any step leads to another such state if and only if it is not a removal that fails part way. |
| Fidelity.RunsAreFaithful | internal/engine/backup.go:251-318 | All along a run with crashes and failures, every snapshot in either tier is a complete copy of what was captured under its name, if and only if no removal in the run failed part way. |
| Damage.FailedRemoval | internal/engine/prune.go:65-71 | A complete run of the program that ends, reachably, with a snapshot name on an incomplete copy. |
| Damage.ForgottenPromotion | internal/engine/daemon.go:218-226 | A complete run of the program with a crash and a lost state file that ends with a record that does not cover the promotion made. |
| Guarantees.FailedCaptureAddsNothing | internal/engine/backup.go:264-273 | A capture that fails up to its rename leaves the same hot snapshots and everything else about every server unchanged. |
| Guarantees.FailedTransferAddsNothing | internal/engine/backup.go:297-316 | A transfer that fails leaves the same cold snapshots and everything else about every server unchanged. |
| Guarantees.SelectionIsComplete | internal/engine/daemon.go:411-422 | What the worker selects is a completed capture and never a directory being written. |
| Guarantees.RecordedHotOnlyGrows | internal/engine/daemon.go:510-512 | No step but a restart takes the recorded hot name back, whatever the cycle's and the worker's stores do in which order. |
| Guarantees.RestartRecovers | internal/engine/daemon.go:218-258 | From any crash point and any old state file the start records in each tier the larger of the stored and the newest completed name, touches no directory, and the cold record covers the cold directory again. |
| Guarantees.RestartTwiceIsOnce | internal/engine/daemon.go:154-260 | A second start changes nothing about any server, whichever entries the first managed to write. |
| Guarantees.SecondStartKeepsFile | internal/engine/daemon.go:233-250 | A second start that writes only entries with something to record leaves the state file as it is, if and only if what it writes was written by the first or had not changed. |
| Guarantees.ReachableIsConfigured | internal/engine/daemon.go:620-667 | Directories, jobs, the cycle and the worker only ever concern configured servers. |
| HotSafety.TransferSourceStays | internal/engine/daemon.go:492-538 | From its selection until its copy is complete the hot snapshot is never pruned, whatever the settings. |
| HotSafety.LinkBaseStays | internal/engine/daemon.go:669-698 | In any run whose age passes over the hot tier have their cutoff at or before the last capture's time, a link-dest base that was the newest hot snapshot when the capture began stays on disk, complete, until the capture ends. |
| HotSafety.ZeroDaysSpare | internal/engine/prune.go:42-44 | With `hot_prune_days` at 0 every run is one of those. |
| HotSafety.LastCaptureStays | internal/engine/prune.go:31-68 | In any such run the last capture of a server is always on disk and complete. |
| HotSafety.ColdSnapshotsAreWhole | internal/engine/daemon.go:492-538 | In any such run a cold snapshot is a complete copy unless a removal of that very snapshot failed part way. |
| Safety.ReachableIsOk | internal/engine/daemon.go:410-541 | The inductive invariant of both processes holds in every reachable state. |
| Daemon.Daemon.ProcessOffloadJob | internal/engine/daemon.go:410-541 | Nothing happens to the server or the state file if no hot snapshot is newer than the cold record; else the newest is promoted, recorded and filed if the write works, or the failed attempt leaves no trace. With no failure at all each tier keeps exactly what its own age and count settings retain, the promoted name is the cold record and the later of it and the old one the hot record. The server's status entry stands for neither of the job's snapshots afterwards; other entries, other servers, the cycle and the queue are untouched. |
| Daemon.Daemon.Settle | internal/engine/daemon.go:499-538 | After the final rename the record, the state file, the status entry and the pruned directories are what the promotion asks for. |
| Daemon.Daemon.Select | internal/engine/daemon.go:411-439 | The listing loop finds the newest completed hot name, and the job goes on if and only if that is newer than the recorded cold one. |
| Daemon.Daemon.OffloadSnapshot | internal/engine/backup.go:292-318 | On success the cold directory gains exactly the hot content under the final name and loses the private one; on failure its snapshots are the same, and the private directory is gone if cleaning up works. It succeeds whenever mkdir, copy and rename do. |
| Daemon.Daemon.ReportAll | internal/engine/daemon.go:456-480 | After the callbacks an entry for the selection or for the job's timestamp, or a new one for the selection, shows the last byte count and the largest total; an entry for another snapshot stays. |
| Daemon.Daemon.Announce | internal/engine/daemon.go:482-493 | An entry for the job's timestamp or the selection becomes a transferring one for that snapshot, a missing one is made for the timestamp, and one for another snapshot stays. |
| Daemon.Daemon.RecordPromotion | internal/engine/daemon.go:499-516 | The cold record becomes the promoted name and the hot one the later of the recorded and the promoted name, and nothing else changes. |
| Daemon.Daemon.PrunePass | internal/engine/daemon.go:530-538 | One pass removes exactly the victims whose removal works, changes only those whose removal stops half way, and leaves the other tier alone; with no failure its victims are those of its own tier's age or count setting. |
| Daemon.Daemon.PruneTiers | internal/engine/daemon.go:530-538 | The four passes only remove or damage snapshots; if all removals work each tier keeps exactly what its own age setting and then its own count setting retain. |
| Steps.TidiedIsRetained | internal/engine/daemon.go:530-538 | The four victim sets taken away in order leave in each tier what its own settings retain. |
| Daemon.Daemon.RunOffloadWorker | internal/engine/daemon.go:393-408 | Draining the queue without failures terminates and leaves every server with a queued job with the larger of its old cold record and its newest hot snapshot, after exactly one transfer if that is newer and none if not; other servers are untouched. |
| Steps.SecondJobChangesNothing | internal/engine/daemon.go:436-439 | After one unfailing job for a server, processing another changes neither its directories nor its record. |
| Steps.CaptureReachesCold | internal/engine/daemon.go:588-783 | A snapshot captured by a cycle whose job was queued is the recorded cold snapshot, promoted once, when the queue has drained. |
| Daemon.Daemon.CaptureHot | internal/engine/backup.go:251-276 | The capture appears complete under its final name if and only if the preparation, copy and rename worked; else the hot snapshots are the same, and the private directory is gone if cleaning up works. It reports success if and only if save-on worked too. |
| Daemon.Daemon.ReportSaving | internal/engine/daemon.go:684-696 | After the callbacks the entry shows the last byte count and the largest total. |
| Daemon.Daemon.BackUpServer | internal/engine/daemon.go:666-779 | It succeeds if and only if preparation, copy, rename and save-on work. Then the capture is the hot record, beside the old cold one, in memory and, if the write works, in the file; the job is queued and shown as waiting if there is room, else neither. On failure record, file and queue stay and the status entry goes. |
| Daemon.Daemon.OfferJob | internal/engine/daemon.go:773-778 | The job is queued if there is room; otherwise it is dropped and its own entry with it. |
| Daemon.Daemon.RunBackupCycle | internal/engine/daemon.go:620-780 | Exactly the eligible servers before the cancellation are backed up, each as it would be alone, a failing one not stopping the others. Each has its new record in the file if its capture was recorded and written, and is shown as waiting if and only if its job was queued, which it is while there is room; of every other server nothing changes. |
| Daemon.Daemon.DiscoverOne | internal/engine/daemon.go:168-231 | The two listing loops and comparisons find, per tier, the stored name or a newer completed directory. |
| Daemon.Daemon.DiscoverAll | internal/engine/daemon.go:158-259 | Every configured server gets its found record, and where writing works the state file then says the same; an entry without a time is rewritten if there is anything to record, one with a time only if it changed, and the entries not written stay. |
| Daemon.Daemon.DiscoverSnapshots | internal/engine/daemon.go:154-260 | Starting on the directories and file a crashed daemon left performs the pipeline's restart, so the fields are again those of a reachable state; memory and state file agree wherever writing works, and only changed or timeless entries are rewritten. |
| Tracker.JobTracker.Add | internal/engine/status.go:35-39 | The key's entry becomes the given one and no other changes. |
| Tracker.JobTracker.Remove | internal/engine/status.go:40-44 | The key's entry goes and no other changes. |
| Tracker.JobTracker.UpdateIfSnapshot | internal/engine/status.go:46-55 | The entry becomes the given one, and true is returned, exactly if there was none or it was for that snapshot; an entry for another snapshot stays. |
| Tracker.JobTracker.RemoveIfSnapshot | internal/engine/status.go:57-66 | The entry is removed, and true returned, exactly if it was there for that snapshot; an entry for another snapshot stays. |
| Tracker.JobTracker.Snapshot | internal/engine/status.go:67-76 | The copying loop returns every entry and nothing else. |
| Names.InProgressIsNotBackup | internal/engine/backup.go:139-155 | The private name of a copy never passes `isBackupDir`, and two snapshots never share one. |
| Names.LexIsRank | internal/engine/daemon.go:413-419 | On snapshot names and the empty one Go's `<` is the order of an integer rank that determines the name. |
| Names.NameOrderIsTimeOrder | internal/engine/daemon.go:543-553 | For any two names that spell a time, leap years included, byte-wise order is chronological order. |
| Names.MinutesCount | internal/engine/daemon.go:543-553 | One calendar minute later, over the end of an hour, a day, a month, a leap February or a year, is one more minute. |
| Prune.SortReverse | internal/engine/prune.go:31 | The sorted list is strictly descending and has the same names. |
| Prune.SnapshotDir.PruneLocalByCount | internal/engine/prune.go:13-39 | Exactly the snapshot directories with at least `keep` newer ones go, but for failed removals; nothing goes for 0 or an unreadable directory. |
| Prune.SnapshotDir.PruneLocalByDays | internal/engine/prune.go:41-73 | Exactly the snapshot directories that spell a time before the cutoff and can be examined go, but for failed removals. |
| Prune.CountMeans | internal/engine/prune.go:13-39 | By count, an entry goes if and only if it is a removable snapshot directory with at least `keep` byte-wise greater ones beside it, and `keep` is positive. |
| Prune.DaysMeans | internal/engine/prune.go:41-73 | By age, for up to 106751 days, an entry goes if and only if it is a removable snapshot directory that spells an instant before that many times 24 hours ago, and the setting is positive. |
| Prune.InstantMeans | internal/engine/prune.go:55 | Names one calendar minute apart spell instants 60 seconds apart. |
| Prune.ZoneShifts | internal/engine/prune.go:55 | In a zone further ahead the same name spells an instant earlier by as much. |
| Prune.RetentionIsExact | internal/engine/prune.go:13-73 | On valid timestamps days-then-count keeps exactly the names at or after the cutoff with fewer than `keep` newer ones, and so does the opposite order. |
| Prune.RetentionIsUpwardClosed | internal/engine/prune.go:13-73 | Every snapshot newer than a kept one is kept. |
| Prune.RetentionTouchesSnapshotsOnly | internal/engine/prune.go:24-54 | A name that `isBackupDir` rejects is always kept. |
| Prune.CountKeepsNewest | internal/engine/prune.go:31-38 | Pruning by count never removes a snapshot with none newer. |
| Prune.FailuresOnlyKeep | internal/engine/prune.go:35-71 | If removals fail in either pass, everything that would have been kept still is. |
| Prune.InvalidNameOutlives | internal/engine/prune.go:55-59 | With an older name that spells no time beside one past the cutoff, the worker's order keeps the invalid name and the opposite order keeps neither. |
| Prune.OrderMattersForInvalidNames | internal/engine/prune.go:55-59 | A concrete directory on which the two orders of the passes differ. |
| Prune.OrderMattersExactly | internal/engine/prune.go:13-73 | On any directory the two orders keep the same, if and only if every snapshot name that spells no time is among the newest `keep` before pruning by age or is not even after it. |
| Prune.CutoffIsExact | internal/engine/prune.go:50 | The cutoff lies `days` days back if and only if `days` is at most 106751. |
| Prune.WideSettingRemovesAll | internal/engine/prune.go:50 | At 106752 days every snapshot taken up to now is a victim. |
| ConfigStore.ConfigDir.SaveSplit | internal/engine/config.go:392-553 | For every pattern of failing operations: it succeeds exactly if every operation of its plan works, and then both files are the new ones (the sidecar gone if empty) exactly if filling the sidecar was not cut short; else the first that does not work decides the error, and what each file is after the rollback, and what is reported, follows from the two operations after it, both files being as before if these work; at every intermediate state each old file is at its path or its backup, or the save is complete; if all later operations work no temporary file or backup is left. |
| ConfigStore.SavePlans | internal/engine/config.go:404-553 | The operations that must work, in order, for each of the eight combinations of existing files and remaining servers. |
| ConfigStore.RollbackRestores | internal/engine/config.go:491-517 | If the two operations after the failing one work, both files are as before and nothing is reported. |
| ConfigStore.RestoredExactly | internal/engine/config.go:491-517 | A file the save would change is as before a failed save if and only if its own operation of the rollback worked or it had not been touched. |
| ConfigStore.ConfigDir.Rollback | internal/engine/config.go:491-517 | Each file is as before exactly as its operation works, else as the failing stage left it with its backup there; exactly the existing files not put back are reported. |
| ConfigStore.ConfigDir.Restore | internal/engine/config.go:493-511 | One old file is back exactly if the rename works, one new file is gone exactly if it was not there or the removal works; only a failed rename is reported. |
| ConfigStore.ConfigDir.PutInPlace | internal/engine/config.go:519-540 | Replacing one file never loses its old content at any step; which operation failed, and what is at the path then, is given. |
| ConfigStore.ConfigDir.PutAuto | internal/engine/config.go:530-550 | The sidecar is replaced and private, or moved away if nothing is left for it, without losing its old content at any step; which operation failed, and what is at the path then, is given. |
| ConfigStore.ConfigDir.WriteTemps | internal/engine/config.go:420-470 | Both temporary files are there, the main one complete and the sidecar's as far as filling it went, or nothing but temporary files has changed; which checked operation failed is given. |
| ConfigStore.ConfigDir.Split | internal/engine/config.go:395-402 | The loop parts the servers into those named in the sidecar and the rest. |
| ConfigStore.ConfigDir.LoadConfigFile | internal/engine/config.go:259-293 | Loading merges the main file over the sidecar and fills the defaults of sidecar servers only; a malformed file or a missing main file is an error. |
| ConfigStore.ConfigDir.SetConfigValue | internal/engine/config.go:973-1019 | A call is rejected, touching nothing, exactly if the files cannot be loaded or the change is not valid; else it is done exactly if every checked operation of the save works, and leaves the split of the updated configuration with the sidecar as far as it was filled, or it fails at the first operation that does not and leaves what that stage and the rollback leave. Done with the sidecar filled, it changes the one server named, starting from that server's own fields, or the settings, and nothing else. A failed call after whose failing operation everything works leaves the whole directory as it was; a done one changes the two files only. |
| ConfigFiles.LoadAfterSave | internal/engine/config.go:259-293 | Loading after a save gives the saved configuration up to the target and container defaults of sidecar servers. |
| ConfigFiles.LoadMeans | internal/engine/config.go:259-293 | The main file wins over the sidecar for a server in both; a sidecar server without target gets `nas`, without container name its own name and `-mc-1`, and nothing else is filled in. |
| ConfigFiles.PartsAfterSave | internal/engine/config.go:393-402 | After a save every server is in exactly one file: the sidecar if it was named there before, the main file otherwise. |
| ConfigFiles.SaveLoadedRoundTrip | internal/engine/config.go:555-575 | Saving what was loaded and loading it again changes nothing. |
| ConfigFiles.SavedModes | internal/engine/config.go:409-452 | After a save the main file has its old mode, or 0600 if it is new, and the sidecar 0600. |
| ConfigFiles.SetStepEffect | internal/engine/config.go:973-1019 | One successful set is read back as that update, and moves no server between the files. |
| ConfigFiles.SetChangesOne | internal/engine/config.go:1003-1011 | After a set of a server, that server loads as the change of what it loaded as, or of the empty one if it was absent, with the defaults if it is the sidecar's; every other server and the settings load as before. A set outside the servers leaves them all. |
| ConfigRuns.AutoServersStay | internal/engine/config.go:973-1019 | Over any sequence of sets, done, rejected or failed, with any cut while filling, the sidecar keeps its servers and none of them enters the main file, if and only if no set moves the sidecar away without moving it back or puts one in place that was cut short of its servers. |
| ConfigRuns.SetsCompose | internal/engine/config.go:973-1019 | While failed sets restore the files and done ones fill the sidecar, loading gives the composition of the updates of the sets that were done. |
| ConfigRuns.NewFileStays | internal/engine/config.go:499-511 | A concrete save without a main file that fails, leaves the new main file behind and reports nothing unrestored. |
| ConfigRuns.SidecarIsLost | internal/engine/config.go:530-540 | Two concrete sets, the first failing with its rollback, after which an auto-provisioned server is in the main file. |
| ConfigRuns.SidecarIsCutShort | internal/engine/config.go:461 | A concrete set that is done on a full disk, after which an auto-provisioned server is in neither file. |
| LastBackup.ReadIsWellFormed | internal/engine/config.go:1124-1156 | Whatever is read, from malformed, older or duplicate lines too, can be written again without loss. |
| LastBackup.LineMeans | internal/engine/config.go:1138-1153 | A line is server, time, local, NAS and hot name in this order, separated by `=`; lines with two to four fields read with the missing ones empty. |
| LastBackup.LastLineWins | internal/engine/config.go:1131-1154 | Of several lines for one server the last one counts. |
| LastBackup.OnlyLinesCount | internal/engine/config.go:1131-1154 | A server without a readable line has no entry. |
| LastBackup.WriteReadRoundTrip | internal/engine/config.go:1174-1180 | Writing a well-formed map in any order and reading it gives the same map. |
| LastBackup.UpdateReadsBack | internal/engine/config.go:1162-1193 | For any earlier file text and any walking order, reading after an update gives the earlier map with that one entry replaced, if and only if the entry is well formed. |
| LastBackup.StateFile.ReadLastSnapshots | internal/engine/config.go:1124-1156 | The line loop computes the reader's specification; an unreadable file is an empty map. |
| LastBackup.StateFile.WriteLastSnapshotAt | internal/engine/config.go:1162-1193 | Unless every step works the file is unchanged; else it reads back as the update exactly for well-formed entries. |
| Progress.ScanRsyncLines | internal/engine/backup.go:383-397 | The token is the text before the first CR or LF, with CR LF consumed together if both are there; the rest only at end of file. |
| Progress.ScanMeans | internal/engine/backup.go:383-397 | A line ends at CR LF, CR or LF, which are consumed with it; without an end it is a token exactly at the end of the stream, if not empty. |
| Progress.WholeIsRuns | internal/engine/backup.go:383-397 | Split as a whole, a stream's non-empty tokens are its maximal stretches without line ends. |
| Progress.RunsOfLine | internal/engine/backup.go:383-397 | Any sequence of terminators after a line separates like a single one. |
| Progress.CallbacksIgnoreEmpty | internal/engine/backup.go:361-365 | Empty tokens cause no callback. |
| Progress.StreamRsyncProgress | internal/engine/backup.go:399-410 | However reads cut the stream, between CR and LF too, the callbacks are those of the stream's lines up to the first that does not fit the scanner's buffer, the error is reported exactly if there is one, and without one they are those of splitting the stream at once. |
| Progress.LongLineEnds | internal/engine/backup.go:399-410 | The lines before the first of 65536 characters or more count, and nothing after them does. |
| Progress.ProgressLineReads | internal/engine/backup.go:361-381 | A line with a byte count, however grouped by commas, any blanks and a percentage reads as that count and the extrapolated size, 0 at zero percent, whatever blanks lead and whatever follows. |
| Progress.OtherLineIsIgnored | internal/engine/backup.go:361-374 | A line whose first word is no number, or that has one word only, causes no callback. |
| Progress.UnknownSize | internal/engine/backup.go:375-379 | A count followed by something other than a percentage has size 0. |
| Progress.CommasGo | internal/engine/backup.go:370 | Commas in the count mean nothing. |
| Progress.TotalIsExact | internal/engine/backup.go:375-380 | For a positive percentage the extrapolated size is the true quotient if and only if a hundred times the count fits 64 bits, and then, up to 100 percent, is no less than the count. |
| Shell.QuoteInverts | internal/engine/shell.go:5-7 | By sections 2.2.1 and 2.2.2 of the Shell Command Language chapter of POSIX.1-2017, quoted text adds exactly itself to the word being read, before any further text. |
| Shell.QuoteIsOneWord | internal/engine/shell.go:5-7 | Quoted text alone is the one word it quotes. |
| Shell.ReadyCommandLexes | internal/engine/backup.go:119-121 | The sentinel test lexes to `test -f` and one path, for any root. |
| Shell.MkdirCommandLexes | internal/engine/backup.go:123-125 | The command lexes to `mkdir -p` and the one path, for any path. |
| Shell.RemoveDirCommandLexes | internal/engine/backup.go:127-129 | The command lexes to `rm -rf --` and the one path, for any path. |
| Shell.RenameCommandLexes | internal/engine/backup.go:131-133 | The command lexes to `mv --` and the two paths, for any paths. |
| Excludes.ParseExcludesValue | internal/engine/config.go:161-179 | The loop computes the reader's specification, which the next three rows describe. |
| Excludes.KeywordsRead | internal/engine/config.go:162-168 | `inherit` and `default` mean unset and `none` or a blank value the empty list, in any case and with any padding. |
| Excludes.PaddedReads | internal/engine/config.go:170-178 | Padding around the patterns of a list is not part of them. |
| Excludes.BlankPartDropped | internal/engine/config.go:172-177 | Blank parts of a list count for nothing. |
| Excludes.PrintMeans | internal/engine/config.go:1101-1108 | A list prints as its patterns with a comma between any two, the empty list as `none`, an unset one as the given word. |
| Excludes.ExcludesRoundTrip | internal/engine/config.go:1101-1108 | The printed setting reads back as itself if and only if it is unset or a list of trimmed, non-empty, comma-free patterns other than one pattern spelling a keyword. |
| Excludes.ParsedIsPrintable | internal/engine/config.go:161-179 | Whatever was read can be printed and read again, unless it is one keyword that was read with a comma beside it. |
| SaveBracket.Session.RunRcon | internal/engine/rcon.go:25-48 | The log gains failed attempts and then a success if one came, each as the outside world answers it, never more than `retries`; it gives up exactly after all of them or after the first failure with a cancelled context. |
| SaveBracket.Session.CopyHot | internal/engine/backup.go:251-276 | The steps' outcomes are the outside world's answers and the result is that of the first essential step that failed; success means the planned steps in order; a failed copy or rename is followed by a clean-up. |
| SaveBracket.Session.BackupServer | internal/engine/backup.go:173-281 | Every run is save-off, flush, copying and save-on in proper phases, with the outside world's answers and the result those phases imply. Each RCON command is given up only after five failures or a cancellation; success means exactly the planned steps, one error names a failed step, and it succeeds if every attempt works. |
| SaveBracket.AttemptsAreBounded | internal/engine/rcon.go:27 | No RCON command is attempted more often than the retry limit. |
| SaveBracket.SaveOnComesLast | internal/engine/backup.go:196-209 | Once save-off has worked, the last RCON attempt is save-on in a context of its own, and a nil error means it worked. |
| SaveBracket.CopyInsideBracket | internal/engine/backup.go:190-218 | Online, data is copied only after save-off and the flush worked, and before save-on is first tried. |
| SaveBracket.SaveOnNeverMasks | internal/engine/backup.go:200-208 | A failure of the backup is reported whether or not save-on fails too, and a nil error means every essential step worked. |

## Left out

- HotSafety.LinkBaseStays: says nothing of a run in which a pruning pass by age has its cutoff after the last capture's time and so may remove it.
- Guarantees.RecordedHotOnlyGrows: excludes a start, which takes the record from the file and the directories.
- Daemon.Daemon.RunOffloadWorker: drains a queue while the cycle is idle; concurrent runs are the step relation's.
- LastBackup.StateFile.WriteLastSnapshotAt: alone it is a read-modify-write without lock, so the file may lose an entry when both processes write; equality of file and memory is not claimed, recovery at the start is.
- Progress.StreamRsyncProgress: takes the text as single-byte characters, and end of file and read errors as reads of their own; a reader that keeps returning nothing is not modelled.
- Progress.TotalIsExact: negative counts and percentages, which rsync does not print, are not covered.
- ConfigStore.ConfigDir.SaveSplit: takes `stat` as accurate and the backup names as unused; power loss between two operations is the trace's intermediate states.
- ConfigStore.ConfigDir.SetConfigValue: the parsing of a field's value is part of the given update, and its errors count as a rejection.
- Tracker.JobTracker.Snapshot: entries are values, so that the copies do not share storage is not a statement here.
- Daemon.Daemon.MakeHotDir: removing a stale private directory, and making the parent and the new one, is one step, and the removal is taken to work.
- Daemon.Daemon.MakeColdDir: likewise.
- A removal under way: removing a snapshot is one event with one of three ends, so that a half-removed directory is still being removed is not a state of its own.
- Direct targets in the pipeline: they copy straight into the final name and are not atomic; `SaveBracket` has their order of steps.
- The NAS cold tier, its pruning and its listing: shell pipelines and modification times. Its command builders are in `Shell`.
- Plain files among the entries: `Prune` tells them from directories, the pipeline's directories hold none.
- Hard-link sharing by `--link-dest`: completed snapshots are immutable values.
- Live changes of the configuration during a run, daylight-saving zones, clock steps backward.
- Docker discovery, uptime waits, the player count, file watching, HTTP handlers, the dashboard, self-update, logging: external or without deep state.
- Field getters and setters and `Validate`: each is settled by reading one case.
