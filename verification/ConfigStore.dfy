/**
 * Saving the configuration: both files are written beside the old ones, put in place step by step, and put
 * back if a step fails. Which step fails, what the rollback restores and what every moment leaves on disk
 * are functions of which file operations work.
 */
module ConfigStore {
  import opened Text
  import opened ConfigFiles

  // ---- Keeping the old content -----------------------------------------------------------------------

  function BackupOf(p: Path): Path {
    if p == Main then MainBackup else AutoBackup
  }

  /** The old content of a file that existed is at its path or at its backup's. */
  predicate OldKept(p: Path, fs: Files, before: Files) {
    p in before ==>
      || (p in fs && fs[p] == before[p])
      || (BackupOf(p) in fs && fs[BackupOf(p)] == before[p])
  }

  predicate BothKept(fs: Files, before: Files) {
    OldKept(Main, fs, before) && OldKept(Auto, fs, before)
  }

  /** Only the given paths may have changed. */
  ghost predicate SameExcept(fs: Files, before: Files, paths: set<Path>) {
    forall p | p !in paths :: SameAt(p, fs, before)
  }

  /** Changing other paths loses nothing. */
  lemma FrameKeeps(p: Path, fs: Files, earlier: Files, paths: set<Path>, before: Files)
    requires SameExcept(fs, earlier, paths) && p !in paths && BackupOf(p) !in paths
    requires OldKept(p, earlier, before)
    ensures OldKept(p, fs, before)
  {
    assert SameAt(p, fs, earlier) && SameAt(BackupOf(p), fs, earlier);
  }

  lemma FrameKeepsAll(p: Path, states: seq<Files>, start: nat, earlier: Files, paths: set<Path>, before: Files)
    requires p !in paths && BackupOf(p) !in paths
    requires OldKept(p, earlier, before)
    requires forall i | start <= i < |states| :: SameExcept(states[i], earlier, paths)
    ensures forall i | start <= i < |states| :: OldKept(p, states[i], before)
  {
    forall i | start <= i < |states|
      ensures OldKept(p, states[i], before)
    {
      FrameKeeps(p, states[i], earlier, paths, before);
    }
  }

  lemma FrameReplaced(states: seq<Files>, start: nat, earlier: Files, paths: set<Path>, main: File, auto: Option<File>)
    requires Replaced(earlier, main, auto) && Main !in paths && Auto !in paths
    requires forall i | start <= i < |states| :: SameExcept(states[i], earlier, paths)
    ensures forall i | start <= i < |states| :: Replaced(states[i], main, auto)
  {
    forall i | start <= i < |states|
      ensures Replaced(states[i], main, auto)
    {
      assert SameAt(Main, states[i], earlier) && SameAt(Auto, states[i], earlier);
    }
  }

  lemma FrameThen(c: Files, b: Files, a: Files, second: set<Path>, first: set<Path>, all: set<Path>)
    requires SameExcept(c, b, second) && SameExcept(b, a, first) && first + second <= all
    ensures SameExcept(c, a, all)
  {
    forall p | p !in all
      ensures SameAt(p, c, a)
    {
      assert SameAt(p, c, b) && SameAt(p, b, a);
    }
  }

  predicate NoTemps(fs: Files) {
    MainTemp !in fs && AutoTemp !in fs
  }

  predicate NoBackups(fs: Files) {
    MainBackup !in fs && AutoBackup !in fs
  }

  /** None of a save's temporary files and backups is there. */
  predicate Clean(fs: Files) {
    NoTemps(fs) && NoBackups(fs)
  }

  /** Of those, the temporary files still to be put in place are. */
  predicate Staged(fs: Files, wantAuto: bool) {
    NoBackups(fs) && (AutoTemp in fs ==> wantAuto)
  }

  lemma WorksLater(works: nat -> bool, start: nat, later: nat)
    requires start <= later
    ensures WorksFrom(works, start) ==> WorksFrom(works, later)
  {
  }

  ghost predicate WorksFrom(works: nat -> bool, start: nat) {
    forall i | i >= start :: works(i)
  }

  /** The paths a save works with. */
  const INVOLVED: set<Path> := {Main, MainTemp, MainBackup, Auto, AutoTemp, AutoBackup}

  // ---- Which operation fails -------------------------------------------------------------------------

  datatype Stage =
    WriteMain | WriteAuto | BackUpMain | ReplaceMain | BackUpAuto | ReplaceAuto | ChmodAuto | RemoveAuto

  /** What a save finds and has to do. */
  datatype Shape = Shape(mainExisted: bool, autoExisted: bool, wantAuto: bool)

  /**
   * Creating each temporary file, then making it private, syncing and closing it. Filling the main file is part
   * of that; a failure to fill the sidecar goes unnoticed and is no operation of the plan.
   */
  function TempPlan(wantAuto: bool): seq<Stage> {
    [WriteMain, WriteMain] + (if wantAuto then [WriteAuto, WriteAuto] else [])
  }

  function PutPlan(existed: bool, stages: (Stage, Stage)): seq<Stage> {
    (if existed then [stages.0] else []) + [stages.1]
  }

  function AutoPlan(shape: Shape): seq<Stage> {
    if shape.wantAuto then PutPlan(shape.autoExisted, (BackUpAuto, ReplaceAuto)) + [ChmodAuto]
    else if shape.autoExisted then [RemoveAuto] else []
  }

  function PlacePlan(shape: Shape): seq<Stage> {
    PutPlan(shape.mainExisted, (BackUpMain, ReplaceMain)) + AutoPlan(shape)
  }

  /** The operations that must work, in order; operation i of the save belongs to stage SavePlan(shape)[i]. */
  function SavePlan(shape: Shape): seq<Stage> {
    TempPlan(shape.wantAuto) + PlacePlan(shape)
  }

  predicate AllWork(works: nat -> bool, start: nat, count: nat) {
    forall i | start <= i < start + count :: works(i)
  }

  /** Of a plan carried out from operation `start`, the `at`-th operation is the first that does not work. */
  predicate FailsAt(works: nat -> bool, start: nat, plan: seq<Stage>, at: nat) {
    at < |plan| && AllWork(works, start, at) && !works(start + at)
  }

  /** What the sidecar's temporary file holds after filling it, in full or cut short. */
  function Filled(auto: Option<File>, cut: Option<Content>): (held: Option<File>)
    ensures held.Some? <==> auto.Some?
    ensures held.Some? ==> held.value.mode == auto.value.mode
  {
    if auto.Some? && cut.Some? then Some(auto.value.(content := cut.value)) else auto
  }

  // ---- What is left of a failed save -----------------------------------------------------------------

  /** At the failure of a stage, the rollback still to come. */
  predicate MainAt(fs: Files, before: Files, stage: Stage, main: File) {
    match stage
    case WriteMain => SameAt(Main, fs, before)
    case WriteAuto => SameAt(Main, fs, before)
    case BackUpMain => SameAt(Main, fs, before)
    case ReplaceMain => Main !in fs
    case _ => Main in fs && fs[Main] == main
  }

  predicate AutoAt(fs: Files, before: Files, stage: Stage, auto: Option<File>) {
    match stage
    case ReplaceAuto => Auto !in fs
    case ChmodAuto => auto.Some? && Auto in fs && fs[Auto] == auto.value
    case _ => SameAt(Auto, fs, before)
  }

  predicate MainBacked(stage: Stage, shape: Shape) {
    shape.mainExisted && !stage.WriteMain? && !stage.WriteAuto? && !stage.BackUpMain?
  }

  predicate AutoBacked(stage: Stage, shape: Shape) {
    shape.autoExisted && (stage.ReplaceAuto? || stage.ChmodAuto?)
  }

  /** There are no backups but those the rollback, or the clean-up of a complete save, deals with. */
  predicate OnlyNeeded(fs: Files, failure: Option<Stage>, shape: Shape) {
    && (MainBackup in fs ==> if failure.Some? then MainBacked(failure.value, shape) else shape.mainExisted)
    && (AutoBackup in fs ==> if failure.Some? then AutoBacked(failure.value, shape) else shape.autoExisted)
  }

  predicate BackupThere(p: Path, fs: Files, before: Files) {
    p in before && BackupOf(p) in fs && fs[BackupOf(p)] == before[p]
  }

  predicate HalfDone(fs: Files, before: Files, stage: Stage, shape: Shape, main: File, auto: Option<File>) {
    && MainAt(fs, before, stage, main) && AutoAt(fs, before, stage, auto)
    && (MainBacked(stage, shape) ==> BackupThere(Main, fs, before))
    && (AutoBacked(stage, shape) ==> BackupThere(Auto, fs, before))
  }

  /** Whether the sidecar gets an operation of the rollback: a new or moved one does. */
  predicate AutoUndone(stage: Stage, shape: Shape) {
    stage.ReplaceAuto? || stage.ChmodAuto? || (stage.ReplaceMain? && shape.wantAuto && !shape.autoExisted)
  }

  /** Operation `fault` failed at the given stage: the operations after it that put each file back work. */
  predicate AutoRestored(works: nat -> bool, fault: nat, stage: Stage, shape: Shape) {
    match stage
    case ReplaceAuto => shape.autoExisted ==> works(fault + 1)
    case ChmodAuto => works(fault + 1)
    case _ => true
  }

  predicate MainRestored(works: nat -> bool, fault: nat, stage: Stage, shape: Shape) {
    var undo := fault + 1 + if AutoUndone(stage, shape) then 1 else 0;
    match stage
    case WriteMain => true
    case WriteAuto => true
    case BackUpMain => true
    case ReplaceMain => shape.mainExisted ==> works(undo)
    case _ => works(undo)
  }

  /** After the rollback: each file is as before if it could be restored, else as at the failure, with its backup. */
  predicate LeftAs(fs: Files, before: Files, fault: nat, stage: Stage, shape: Shape, works: nat -> bool,
                   main: File, auto: Option<File>)
  {
    && (if MainRestored(works, fault, stage, shape) then SameAt(Main, fs, before)
        else MainAt(fs, before, stage, main) && (Main in before ==> BackupThere(Main, fs, before)))
    && (if AutoRestored(works, fault, stage, shape) then SameAt(Auto, fs, before)
        else AutoAt(fs, before, stage, auto) && (Auto in before ==> BackupThere(Auto, fs, before)))
  }

  /** The paths the error reports: those that existed and could not be restored. */
  function Unrestored(works: nat -> bool, fault: nat, stage: Stage, shape: Shape): set<Path> {
    (if shape.mainExisted && !MainRestored(works, fault, stage, shape) then {Main} else {})
    + (if shape.autoExisted && !AutoRestored(works, fault, stage, shape) then {Auto} else {})
  }

  /** If the two operations after the first failing one work, everything is as before. */
  lemma RollbackRestores(fs: Files, before: Files, fault: nat, stage: Stage, shape: Shape, works: nat -> bool,
                         main: File, auto: Option<File>)
    requires LeftAs(fs, before, fault, stage, shape, works, main, auto) && works(fault + 1) && works(fault + 2)
    ensures SameAt(Main, fs, before) && SameAt(Auto, fs, before) && Unrestored(works, fault, stage, shape) == {}
  {
  }

  /** Where the save would change a file, that file is as before exactly if its operation of the rollback worked. */
  lemma RestoredExactly(fs: Files, before: Files, fault: nat, stage: Stage, shape: Shape, works: nat -> bool,
                        main: File, auto: Option<File>)
    requires LeftAs(fs, before, fault, stage, shape, works, main, auto)
    requires shape.mainExisted == (Main in before) && shape.autoExisted == (Auto in before)
    requires Main in before ==> before[Main] != main
    requires Auto in before && auto.Some? ==> before[Auto] != auto.value
    ensures SameAt(Main, fs, before) <==> MainRestored(works, fault, stage, shape)
    ensures SameAt(Auto, fs, before) <==> AutoRestored(works, fault, stage, shape)
  {
  }

  lemma LeftIsKept(fs: Files, before: Files, fault: nat, stage: Stage, shape: Shape, works: nat -> bool,
                   main: File, auto: Option<File>)
    requires LeftAs(fs, before, fault, stage, shape, works, main, auto)
    ensures BothKept(fs, before)
  {
  }

  // ---- Plans, one after the other --------------------------------------------------------------------

  /** The stages that can occur for a shape. */
  predicate Occurs(stage: Stage, shape: Shape) {
    match stage
    case WriteMain => true
    case WriteAuto => shape.wantAuto
    case BackUpMain => shape.mainExisted
    case ReplaceMain => true
    case BackUpAuto => shape.wantAuto && shape.autoExisted
    case ReplaceAuto => shape.wantAuto
    case ChmodAuto => shape.wantAuto
    case RemoveAuto => !shape.wantAuto && shape.autoExisted
  }

  /** The operations of a save, shape by shape. */
  lemma SavePlans()
    ensures SavePlan(Shape(false, false, false)) == [WriteMain, WriteMain, ReplaceMain]
    ensures SavePlan(Shape(true, false, false)) == [WriteMain, WriteMain, BackUpMain, ReplaceMain]
    ensures SavePlan(Shape(false, true, false)) == [WriteMain, WriteMain, ReplaceMain, RemoveAuto]
    ensures SavePlan(Shape(true, true, false)) == [WriteMain, WriteMain, BackUpMain, ReplaceMain, RemoveAuto]
    ensures SavePlan(Shape(false, false, true)) ==
            [WriteMain, WriteMain, WriteAuto, WriteAuto, ReplaceMain, ReplaceAuto, ChmodAuto]
    ensures SavePlan(Shape(true, false, true)) ==
            [WriteMain, WriteMain, WriteAuto, WriteAuto, BackUpMain, ReplaceMain, ReplaceAuto, ChmodAuto]
    ensures SavePlan(Shape(false, true, true)) ==
            [WriteMain, WriteMain, WriteAuto, WriteAuto, ReplaceMain, BackUpAuto, ReplaceAuto, ChmodAuto]
    ensures SavePlan(Shape(true, true, true)) ==
            [WriteMain, WriteMain, WriteAuto, WriteAuto, BackUpMain, ReplaceMain, BackUpAuto, ReplaceAuto, ChmodAuto]
  {
  }

  lemma PlansFit(shape: Shape)
    ensures forall i | 0 <= i < |SavePlan(shape)| :: Occurs(SavePlan(shape)[i], shape)
    ensures forall i | 0 <= i < |PlacePlan(shape)| :: Occurs(PlacePlan(shape)[i], shape)
  {
  }

  lemma FailsInFirst(works: nat -> bool, start: nat, a: seq<Stage>, b: seq<Stage>, at: nat)
    requires FailsAt(works, start, a, at)
    ensures FailsAt(works, start, a + b, at) && (a + b)[at] == a[at]
    ensures !AllWork(works, start, |a + b|)
  {
    assert !works(start + at);
  }

  lemma FailsInSecond(works: nat -> bool, start: nat, a: seq<Stage>, b: seq<Stage>, at: nat)
    requires AllWork(works, start, |a|) && FailsAt(works, start + |a|, b, at)
    ensures FailsAt(works, start, a + b, |a| + at) && (a + b)[|a| + at] == b[at]
    ensures !AllWork(works, start, |a + b|)
  {
    assert !works(start + |a| + at);
  }

  lemma BothWork(works: nat -> bool, start: nat, a: seq<Stage>, b: seq<Stage>)
    requires AllWork(works, start, |a|) && AllWork(works, start + |a|, |b|)
    ensures AllWork(works, start, |a + b|)
  {
  }

  /** A failure before anything is put in place leaves both files as they were. */
  lemma UntouchedIsLeft(fs: Files, before: Files, fault: nat, stage: Stage, shape: Shape, works: nat -> bool,
                        main: File, auto: Option<File>)
    requires stage.WriteMain? || stage.WriteAuto? || stage.BackUpMain?
    requires SameAt(Main, fs, before) && SameAt(Auto, fs, before)
    ensures LeftAs(fs, before, fault, stage, shape, works, main, auto) && Unrestored(works, fault, stage, shape) == {}
  {
  }

  /** Changing temporary files and nothing else does not matter to what a failed save leaves. */
  lemma LeftStays(fs: Files, earlier: Files, before: Files, fault: nat, stage: Stage, shape: Shape, works: nat -> bool,
                  main: File, auto: Option<File>)
    requires LeftAs(earlier, before, fault, stage, shape, works, main, auto)
    requires SameExcept(fs, earlier, {MainTemp, AutoTemp})
    ensures LeftAs(fs, before, fault, stage, shape, works, main, auto)
  {
    assert SameAt(Main, fs, earlier) && SameAt(Auto, fs, earlier);
    assert SameAt(MainBackup, fs, earlier) && SameAt(AutoBackup, fs, earlier);
  }

  function ShapeOf(before: Files, cfg: Config): Shape {
    Shape(Main in before, Auto in before, NewAuto(before, cfg).Some?)
  }

  // ---- Saving --------------------------------------------------------------------------------------

  /** An error carries the paths whose rollback rename failed too. */
  datatype SaveResult = Saved | Failed(stage: Stage, unrestored: set<Path>)

  /** The operations from here on decide what is cleaned up. */
  function AfterFault(start: nat, r: SaveResult, at: nat): nat {
    if r.Saved? then start else start + at + 1
  }

  class ConfigDir {
    var fs: Files
    var ops: nat
    /** Whether the n-th file operation is allowed to work. */
    const works: nat -> bool
    /** Whether filling the sidecar before operation n + 1 is cut short, and what the file holds then. */
    const cuts: nat -> Option<Content>
    /** Every state of the directory since the current save began. */
    ghost var trace: seq<Files>

    constructor (fs: Files, works: nat -> bool, cuts: nat -> Option<Content>)
      ensures this.fs == fs && this.works == works && this.cuts == cuts && ops == 0
    {
      this.fs, this.works, this.cuts, ops, trace := fs, works, cuts, 0, [];
    }

    method Rename(src: Path, dst: Path) returns (ok: bool)
      requires src != dst
      modifies this
      ensures ok == (works(old(ops)) && src in old(fs)) && ops == old(ops) + 1
      ensures fs == if ok then (old(fs) - {src})[dst := old(fs)[src]] else old(fs)
      ensures trace == old(trace) + [fs]
    {
      ok := works(ops) && src in fs;
      ops := ops + 1;
      if ok {
        fs := (fs - {src})[dst := fs[src]];
      }
      trace := trace + [fs];
    }

    method Remove(p: Path) returns (ok: bool)
      modifies this
      ensures ok == (works(old(ops)) && p in old(fs)) && ops == old(ops) + 1
      ensures fs == if ok then old(fs) - {p} else old(fs)
      ensures trace == old(trace) + [fs]
    {
      ok := works(ops) && p in fs;
      ops := ops + 1;
      if ok {
        fs := fs - {p};
      }
      trace := trace + [fs];
    }

    method Chmod(p: Path, mode: nat) returns (ok: bool)
      modifies this
      ensures ok == (works(old(ops)) && p in old(fs)) && ops == old(ops) + 1
      ensures fs == if ok then old(fs)[p := old(fs)[p].(mode := mode)] else old(fs)
      ensures trace == old(trace) + [fs]
    {
      ok := works(ops) && p in fs;
      ops := ops + 1;
      if ok {
        fs := fs[p := fs[p].(mode := mode)];
      }
      trace := trace + [fs];
    }

    /** `writeAutoServersTo`: the errors of its writes are dropped. */
    method FillAuto(content: Content) returns (held: Content)
      ensures held == if cuts(ops).Some? then cuts(ops).value else content
    {
      held := content;
      if cuts(ops).Some? {
        held := cuts(ops).value;
      }
    }

    /** Creating a temporary file, then setting its mode, encoding, syncing and closing. */
    method WriteTemp(p: Path, content: Content, mode: nat) returns (created: bool, ok: bool)
      modifies this
      ensures created == works(old(ops)) && ok == (created && works(old(ops) + 1)) && ops == old(ops) + 2
      ensures fs == if ok then old(fs)[p := File(content, mode)]
                    else if created then old(fs)[p := File(Garbage, mode)] else old(fs)
      ensures trace == old(trace) + [fs]
    {
      created := works(ops);
      ok := created && works(ops + 1);
      ops := ops + 2;
      if ok {
        fs := fs[p := File(content, mode)];
      } else if created {
        fs := fs[p := File(Garbage, mode)];
      }
      trace := trace + [fs];
    }

    /** Moves the servers of the sidecar out of a copy of the configuration. */
    method Split(cfg: Config, names: set<string>) returns (main: Config, auto: Servers)
      ensures main == MainPart(cfg, names) && auto == AutoPart(cfg, names)
    {
      main, auto := cfg, map[];
      var left := names;
      while left != {}
        invariant left <= names
        invariant main == MainPart(cfg, names - left) && auto == AutoPart(cfg, names - left)
      {
        var n :| n in left;
        if n in main.servers {
          auto := auto[n := main.servers[n]];
          main := main.(servers := main.servers - {n});
        }
        left := left - {n};
      }
      assert names - left == names;
    }

    /** Puts one old file back, or removes a new one; only a failed rename is reported. */
    method Restore(p: Path, backed: bool, isNew: bool, ghost before: Files) returns (failed: bool)
      requires p == Main || p == Auto
      requires backed ==> BackupThere(p, fs, before)
      requires isNew ==> !backed && p !in before
      requires !backed && !isNew ==> SameAt(p, fs, before)
      modifies this
      ensures ops == old(ops) + if backed || isNew then 1 else 0
      ensures failed <==> backed && !works(old(ops))
      ensures if !(backed || isNew) || works(old(ops)) || (isNew && p !in old(fs)) then SameAt(p, fs, before)
              else SameAt(p, fs, old(fs)) && (p in before ==> BackupThere(p, fs, before))
      ensures OldKept(p, fs, before)
      ensures SameExcept(fs, old(fs), {p, BackupOf(p)})
      ensures BackupOf(p) in fs ==> BackupOf(p) in old(fs) && (backed ==> failed)
      ensures trace == old(trace) + if backed || isNew then [fs] else []
    {
      failed := false;
      if backed {
        var ok := Rename(BackupOf(p), p);
        failed := !ok;
      } else if isNew {
        var ok := Remove(p);
      }
    }

    /** A step of replacing one file: none of them loses the old content. */
    method PutInPlace(p: Path, temp: Path, existed: bool, stages: (Stage, Stage), ghost before: Files)
      returns (failure: Option<Stage>)
      requires (p == Main && temp == MainTemp) || (p == Auto && temp == AutoTemp)
      requires existed == (p in before) && SameAt(p, fs, before) && temp in fs && stages.0 != stages.1
      modifies this
      ensures failure.None? ==> p in fs && fs[p] == old(fs)[temp] && ops == old(ops) + |PutPlan(existed, stages)|
                                && AllWork(works, old(ops), |PutPlan(existed, stages)|)
      ensures failure.Some? ==> old(ops) < ops && FailsAt(works, old(ops), PutPlan(existed, stages), ops - old(ops) - 1)
                                && failure.value == PutPlan(existed, stages)[ops - old(ops) - 1]
      ensures failure == Some(stages.0) ==> SameAt(p, fs, before)
      ensures failure == Some(stages.1) ==> p !in fs
      ensures existed && failure != Some(stages.0) ==> BackupThere(p, fs, before)
      ensures BackupOf(p) in fs ==> BackupOf(p) in old(fs) || (existed && failure != Some(stages.0))
      ensures SameExcept(fs, old(fs), {p, temp, BackupOf(p)})
      ensures old(trace) <= trace
      ensures forall i | |old(trace)| <= i < |trace| ::
        OldKept(p, trace[i], before) && SameExcept(trace[i], old(fs), {p, temp, BackupOf(p)})
    {
      if existed {
        var ok := Rename(p, BackupOf(p));
        if !ok {
          return Some(stages.0);
        }
      }
      var ok := Rename(temp, p);
      return if ok then None else Some(stages.1);
    }

    /** The sidecar's turn: replaced if any server is left for it, moved away if none is. */
    method PutAuto(shape: Shape, ghost before: Files) returns (failure: Option<Stage>)
      requires shape.autoExisted == (Auto in before) && SameAt(Auto, fs, before)
      requires shape.wantAuto ==> AutoTemp in fs && fs[AutoTemp].mode == PRIVATE
      modifies this
      ensures failure.None? ==> ops == old(ops) + |AutoPlan(shape)| && AllWork(works, old(ops), |AutoPlan(shape)|)
      ensures failure.None? ==> if shape.wantAuto then Auto in fs && fs[Auto] == old(fs)[AutoTemp] else Auto !in fs
      ensures failure.Some? ==> old(ops) < ops && FailsAt(works, old(ops), AutoPlan(shape), ops - old(ops) - 1)
                                && failure.value == AutoPlan(shape)[ops - old(ops) - 1]
      ensures failure.Some? ==>
        AutoAt(fs, before, failure.value, if shape.wantAuto then Some(old(fs)[AutoTemp]) else None)
      ensures shape.autoExisted && (failure.Some? ==> AutoBacked(failure.value, shape)) ==>
                BackupThere(Auto, fs, before)
      ensures AutoTemp in fs ==> AutoTemp in old(fs)
      ensures AutoBackup in fs ==>
                AutoBackup in old(fs) || (shape.autoExisted && (failure.Some? ==> AutoBacked(failure.value, shape)))
      ensures SameExcept(fs, old(fs), {Auto, AutoTemp, AutoBackup})
      ensures old(trace) <= trace
      ensures forall i | |old(trace)| <= i < |trace| ::
        OldKept(Auto, trace[i], before) && SameExcept(trace[i], old(fs), {Auto, AutoTemp, AutoBackup})
    {
      if shape.wantAuto {
        failure := PutInPlace(Auto, AutoTemp, shape.autoExisted, (BackUpAuto, ReplaceAuto), before);
        if failure.None? {
          var ok := Chmod(Auto, PRIVATE);
          if !ok {
            return Some(ChmodAuto);
          }
        }
        return failure;
      }
      if shape.autoExisted {
        var ok := Rename(Auto, AutoBackup);
        if !ok {
          return Some(RemoveAuto);
        }
      }
      return None;
    }

    /** Both files in their turn, until a step fails. */
    method PutBoth(shape: Shape, ghost before: Files) returns (failure: Option<Stage>)
      requires shape.mainExisted == (Main in before) && shape.autoExisted == (Auto in before)
      requires SameAt(Main, fs, before) && SameAt(Auto, fs, before) && MainTemp in fs
      requires shape.wantAuto ==> AutoTemp in fs && fs[AutoTemp].mode == PRIVATE
      modifies this
      ensures failure.None? ==> ops == old(ops) + |PlacePlan(shape)| && AllWork(works, old(ops), |PlacePlan(shape)|)
      ensures failure.None? ==>
        && Replaced(fs, old(fs)[MainTemp], if shape.wantAuto then Some(old(fs)[AutoTemp]) else None)
      ensures failure.Some? ==> old(ops) < ops && FailsAt(works, old(ops), PlacePlan(shape), ops - old(ops) - 1)
                                && failure.value == PlacePlan(shape)[ops - old(ops) - 1]
                                && !AllWork(works, old(ops), |PlacePlan(shape)|)
      ensures failure.Some? ==> HalfDone(fs, before, failure.value, shape, old(fs)[MainTemp],
                                         if shape.wantAuto then Some(old(fs)[AutoTemp]) else None)
      ensures AutoTemp in fs ==> AutoTemp in old(fs)
      ensures NoBackups(old(fs)) ==> OnlyNeeded(fs, failure, shape)
      ensures SameExcept(fs, old(fs), INVOLVED)
      ensures old(trace) <= trace && forall i | |old(trace)| <= i < |trace| :: BothKept(trace[i], before)
    {
      hide FailsAt, AllWork, SameExcept, OldKept, HalfDone, PutPlan, AutoPlan, OnlyNeeded, AutoAt, MainAt;
      NothingLost(fs);
      ghost var s0, n0 := fs, ops;
      ghost var a, b := PutPlan(shape.mainExisted, (BackUpMain, ReplaceMain)), AutoPlan(shape);
      failure := PutInPlace(Main, MainTemp, shape.mainExisted, (BackUpMain, ReplaceMain), before);
      ghost var s1, t1 := fs, |trace|;
      FrameKeepsAll(Auto, trace, |old(trace)|, s0, {Main, MainTemp, MainBackup}, before);
      FrameAt(s1, s0, {Main, MainTemp, MainBackup});
      FrameThen(s1, s0, s0, {Main, MainTemp, MainBackup}, {}, INVOLVED);
      if failure.Some? {
        FailsInFirst(works, n0, a, b, ops - n0 - 1);
        MainHalfDone(fs, before, failure.value, shape, ops - n0 - 1, s0[MainTemp],
                     if shape.wantAuto then Some(s0[AutoTemp]) else None);
        assert SameAt(AutoTemp, s1, s0);
        if NoBackups(s0) {
          assert SameAt(AutoBackup, s1, s0);
          MainNeeded(fs, failure.value, shape, ops - n0 - 1);
        }
        return;
      }
      assert SameAt(AutoTemp, s1, s0);
      failure := PutAuto(shape, before);
      FrameKeepsAll(Main, trace, t1, s1, {Auto, AutoTemp, AutoBackup}, before);
      FrameAt(fs, s1, {Auto, AutoTemp, AutoBackup});
      FrameThen(fs, s1, s0, {Auto, AutoTemp, AutoBackup}, {Main, MainTemp, MainBackup}, INVOLVED);
      if NoBackups(s0) {
        assert SameAt(MainBackup, fs, s1) && SameAt(AutoBackup, s1, s0);
        AutoNeeded(fs, failure, shape, works, n0 + |a|, ops - n0 - |a| - 1);
      }
      if failure.Some? {
        FailsInSecond(works, n0, a, b, ops - n0 - |a| - 1);
        AutoHalfDone(fs, before, failure.value, shape, ops - n0 - |a| - 1, s0[MainTemp],
                     if shape.wantAuto then Some(s0[AutoTemp]) else None, works, n0 + |a|);
      } else {
        BothWork(works, n0, a, b);
      }
    }

    /** Undoes a save that failed part way: its last operation was the one that failed. */
    method Rollback(mainBacked: bool, mainExisted: bool, autoBacked: bool, autoIsNew: bool, ghost before: Files,
                    ghost stage: Stage, ghost shape: Shape, ghost main: File, ghost auto: Option<File>)
      returns (unrestored: set<Path>)
      requires ops > 0 && HalfDone(fs, before, stage, shape, main, auto) && Occurs(stage, shape)
      requires shape.mainExisted == (Main in before) && shape.autoExisted == (Auto in before)
      requires !stage.WriteMain? && !stage.WriteAuto? && !stage.BackUpMain?
      requires mainBacked == mainExisted == shape.mainExisted && autoBacked == AutoBacked(stage, shape)
      requires autoIsNew == (shape.wantAuto && !shape.autoExisted)
      modifies this
      ensures LeftAs(fs, before, old(ops) - 1, stage, shape, works, main, auto)
      ensures unrestored == Unrestored(works, old(ops) - 1, stage, shape)
      ensures OnlyNeeded(old(fs), Some(stage), shape) && WorksFrom(works, old(ops)) ==> NoBackups(fs)
      ensures ops >= old(ops) && (AutoTemp in fs ==> AutoTemp in old(fs))
      ensures SameExcept(fs, old(fs), INVOLVED)
      ensures old(trace) <= trace && forall i | |old(trace)| <= i < |trace| :: BothKept(trace[i], before)
    {
      ghost var s0 := fs;
      var autoFailed := Restore(Auto, autoBacked, autoIsNew, before);
      ghost var s1 := fs;
      FrameKeeps(Main, s1, s0, {Auto, AutoBackup}, before);
      FrameAt(s1, s0, {Auto, AutoBackup});
      var mainFailed := Restore(Main, mainBacked, !mainExisted, before);
      FrameKeeps(Auto, fs, s1, {Main, MainBackup}, before);
      FrameAt(fs, s1, {Main, MainBackup});
      FrameThen(fs, s1, s0, {Main, MainBackup}, {Auto, AutoBackup}, INVOLVED);
      assert SameAt(AutoTemp, fs, s1) && SameAt(AutoTemp, s1, s0);
      unrestored := (if autoFailed then {Auto} else {}) + (if mainFailed then {Main} else {});
    }

    /** Deferred: the backups go only once nothing can fail any more. */
    method DropBackups(mainBacked: bool, autoBacked: bool)
      modifies this
      ensures SameExcept(fs, old(fs), {MainBackup, AutoBackup}) && ops >= old(ops)
      ensures old(trace) <= trace
      ensures forall i | |old(trace)| <= i < |trace| :: SameExcept(trace[i], old(fs), {MainBackup, AutoBackup})
      ensures WorksFrom(works, old(ops)) ==>
                && (MainBackup in fs ==> MainBackup in old(fs) && !mainBacked)
                && (AutoBackup in fs ==> AutoBackup in old(fs) && !autoBacked)
    {
      if mainBacked {
        var ok := Remove(MainBackup);
      }
      if autoBacked {
        var ok := Remove(AutoBackup);
      }
    }

    /** Replaces the files by the temporary ones; undone as far as possible if any step fails. */
    method Replace(shape: Shape, ghost before: Files) returns (r: SaveResult, ghost at: nat)
      requires shape.mainExisted == (Main in before) && shape.autoExisted == (Auto in before)
      requires SameAt(Main, fs, before) && SameAt(Auto, fs, before) && MainTemp in fs
      requires shape.wantAuto ==> AutoTemp in fs && fs[AutoTemp].mode == PRIVATE
      modifies this
      ensures r.Saved? <==> AllWork(works, old(ops), |PlacePlan(shape)|)
      ensures r.Saved? ==> Replaced(fs, old(fs)[MainTemp], if shape.wantAuto then Some(old(fs)[AutoTemp]) else None)
      ensures r.Failed? ==>
        && FailsAt(works, old(ops), PlacePlan(shape), at) && r.stage == PlacePlan(shape)[at]
        && r.unrestored == Unrestored(works, old(ops) + at, r.stage, shape)
        && LeftAs(fs, before, old(ops) + at, r.stage, shape, works, old(fs)[MainTemp],
                  if shape.wantAuto then Some(old(fs)[AutoTemp]) else None)
      ensures NoBackups(old(fs)) && WorksFrom(works, AfterFault(old(ops), r, at)) ==> NoBackups(fs)
      ensures ops >= AfterFault(old(ops), r, at) && (AutoTemp in fs ==> AutoTemp in old(fs))
      ensures SameExcept(fs, old(fs), INVOLVED)
      ensures old(trace) <= trace
      ensures forall i | |old(trace)| <= i < |trace| ::
        || BothKept(trace[i], before)
        || (r.Saved? && Replaced(trace[i], old(fs)[MainTemp], if shape.wantAuto then Some(old(fs)[AutoTemp]) else None))
    {
      hide FailsAt, AllWork, SameExcept, BothKept, LeftAs, Unrestored, HalfDone, PlacePlan, Replaced;
      ghost var s0, n0, main := fs, ops, fs[MainTemp];
      ghost var auto := if shape.wantAuto then Some(fs[AutoTemp]) else None;
      var failure := PutBoth(shape, before);
      ghost var s1, t1 := fs, |trace|;
      at := 0;
      if failure.None? {
        DropBackups(shape.mainExisted, shape.autoExisted);
        FrameAt(fs, s1, {MainBackup, AutoBackup});
        assert SameAt(AutoTemp, fs, s1);
        FrameReplaced(trace, t1, s1, {MainBackup, AutoBackup}, main, auto);
        FrameReplacedNow(fs, s1, {MainBackup, AutoBackup}, main, auto);
        FrameThen(fs, s1, s0, {MainBackup, AutoBackup}, INVOLVED, INVOLVED);
        return Saved, 0;
      }
      at := ops - n0 - 1;
      PlansFit(shape);
      NotWriting(shape, works, n0, at);
      if failure.value == BackUpMain {
        BackUpFailed(fs, before, n0 + at, shape, works, main, auto);
        return Failed(BackUpMain, {}), at;
      }
      var unrestored := Rollback(shape.mainExisted, shape.mainExisted, AutoBacked(failure.value, shape),
                                 shape.wantAuto && !shape.autoExisted, before, failure.value, shape, main, auto);
      FrameThen(fs, s1, s0, INVOLVED, INVOLVED, INVOLVED);
      return Failed(failure.value, unrestored), at;
    }

    /** The deferred removal of the temporary files, last created first. */
    method DropTemps(autoToo: bool)
      modifies this
      ensures SameExcept(fs, old(fs), {MainTemp, AutoTemp})
      ensures old(trace) <= trace
      ensures forall i | |old(trace)| <= i < |trace| :: SameExcept(trace[i], old(fs), {MainTemp, AutoTemp})
      ensures WorksFrom(works, old(ops)) ==>
                MainTemp !in fs && (AutoTemp in fs ==> AutoTemp in old(fs) && !autoToo)
    {
      if autoToo {
        var ok := Remove(AutoTemp);
      }
      var ok := Remove(MainTemp);
    }

    /** Both temporary files, complete, or an error with nothing else touched. */
    method WriteTemps(main: File, auto: Option<File>) returns (failure: Option<Stage>, ghost at: nat)
      modifies this
      ensures failure.None? ==> MainTemp in fs && fs[MainTemp] == main && ops == old(ops) + |TempPlan(auto.Some?)|
                                && AllWork(works, old(ops), |TempPlan(auto.Some?)|)
      ensures failure.None? && auto.Some? ==>
                AutoTemp in fs && Some(fs[AutoTemp]) == Filled(auto, cuts(old(ops) + 2))
      ensures failure.Some? ==> FailsAt(works, old(ops), TempPlan(auto.Some?), at)
                                && failure.value == TempPlan(auto.Some?)[at]
      ensures Clean(old(fs)) && failure.Some? && WorksFrom(works, old(ops) + at + 1) ==> Clean(fs)
      ensures Clean(old(fs)) && failure.None? ==> Staged(fs, auto.Some?)
      ensures SameExcept(fs, old(fs), {MainTemp, AutoTemp})
      ensures old(trace) <= trace
      ensures forall i | |old(trace)| <= i < |trace| :: SameExcept(trace[i], old(fs), {MainTemp, AutoTemp})
    {
      at := 0;
      ghost var n0 := ops;
      var created, ok := WriteTemp(MainTemp, main.content, main.mode);
      if !ok {
        at := if created then 1 else 0;
        if created {
          ok := Remove(MainTemp);
        }
        return Some(WriteMain), at;
      }
      if auto.Some? {
        var held := FillAuto(auto.value.content);
        created, ok := WriteTemp(AutoTemp, held, auto.value.mode);
        if !ok {
          at := if created then 3 else 2;
          ghost var full := fs;
          DropTemps(created);
          BackupsStay(fs, full);
          return Some(WriteAuto), at;
        }
      }
      return None, 0;
    }

    method ReplaceAndClean(shape: Shape, ghost before: Files) returns (r: SaveResult, ghost at: nat)
      requires shape.mainExisted == (Main in before) && shape.autoExisted == (Auto in before)
      requires SameAt(Main, fs, before) && SameAt(Auto, fs, before) && MainTemp in fs
      requires shape.wantAuto ==> AutoTemp in fs && fs[AutoTemp].mode == PRIVATE
      modifies this
      ensures r.Saved? <==> AllWork(works, old(ops), |PlacePlan(shape)|)
      ensures r.Saved? ==> Replaced(fs, old(fs)[MainTemp], if shape.wantAuto then Some(old(fs)[AutoTemp]) else None)
      ensures r.Failed? ==>
        && FailsAt(works, old(ops), PlacePlan(shape), at) && r.stage == PlacePlan(shape)[at]
        && r.unrestored == Unrestored(works, old(ops) + at, r.stage, shape)
        && LeftAs(fs, before, old(ops) + at, r.stage, shape, works, old(fs)[MainTemp],
                  if shape.wantAuto then Some(old(fs)[AutoTemp]) else None)
      ensures Staged(old(fs), shape.wantAuto) && WorksFrom(works, AfterFault(old(ops), r, at)) ==> Clean(fs)
      ensures SameExcept(fs, old(fs), INVOLVED)
      ensures old(trace) <= trace
      ensures forall i | |old(trace)| <= i < |trace| ::
        || BothKept(trace[i], before)
        || (r.Saved? && Replaced(trace[i], old(fs)[MainTemp], if shape.wantAuto then Some(old(fs)[AutoTemp]) else None))
    {
      hide FailsAt, AllWork, SameExcept, OldKept, LeftAs, Unrestored, PlacePlan, Replaced;
      ghost var s0, main := fs, fs[MainTemp];
      ghost var auto := if shape.wantAuto then Some(fs[AutoTemp]) else None;
      r, at := Replace(shape, before);
      ghost var s1, t1 := fs, |trace|;
      DropTemps(shape.wantAuto);
      FrameAt(fs, s1, {MainTemp, AutoTemp});
      assert SameAt(MainBackup, fs, s1) && SameAt(AutoBackup, fs, s1);
      FrameThen(fs, s1, s0, {MainTemp, AutoTemp}, INVOLVED, INVOLVED);
      if r.Saved? {
        FrameReplaced(trace, t1, s1, {MainTemp, AutoTemp}, main, auto);
        FrameReplacedNow(fs, s1, {MainTemp, AutoTemp}, main, auto);
      } else {
        ghost var fault := old(ops) + at;
        LeftIsKept(s1, before, fault, r.stage, shape, works, main, auto);
        LeftStays(fs, s1, before, fault, r.stage, shape, works, main, auto);
        FrameKeepsAll(Main, trace, t1, s1, {MainTemp, AutoTemp}, before);
        FrameKeepsAll(Auto, trace, t1, s1, {MainTemp, AutoTemp}, before);
      }
    }

    /**
     * The whole save succeeds exactly if all operations of its plan work; then both files are the new ones
     * exactly if filling the sidecar was not cut short. The first that does not decides the
     * stage of the error, and the next two decide what is restored. Whatever works, every old content is at
     * its path or its backup's at every moment, unless the save is complete.
     */
    method SaveSplit(cfg: Config) returns (r: SaveResult, ghost at: nat)
      modifies this
      ensures var auto := Filled(NewAuto(old(fs), cfg), cuts(old(ops) + 2));
              && (r.Saved? <==> AllWork(works, old(ops), |SavePlan(ShapeOf(old(fs), cfg))|))
              && (r.Saved? ==> Replaced(fs, NewMain(old(fs), cfg), auto))
              && (r.Saved? ==> (Replaced(fs, NewMain(old(fs), cfg), NewAuto(old(fs), cfg))
                                <==> auto == NewAuto(old(fs), cfg)))
      ensures var shape := ShapeOf(old(fs), cfg);
              var auto := Filled(NewAuto(old(fs), cfg), cuts(old(ops) + 2));
              r.Failed? ==>
                && FailsAt(works, old(ops), SavePlan(shape), at) && r.stage == SavePlan(shape)[at]
                && r.unrestored == Unrestored(works, old(ops) + at, r.stage, shape)
                && LeftAs(fs, old(fs), old(ops) + at, r.stage, shape, works,
                          NewMain(old(fs), cfg), auto)
      ensures r.Failed? && works(old(ops) + at + 1) && works(old(ops) + at + 2) ==>
                r.unrestored == {} && SameAt(Main, fs, old(fs)) && SameAt(Auto, fs, old(fs))
      ensures Clean(old(fs)) && WorksFrom(works, AfterFault(old(ops), r, at)) ==> Clean(fs)
      ensures SameExcept(fs, old(fs), INVOLVED)
      ensures var auto := Filled(NewAuto(old(fs), cfg), cuts(old(ops) + 2));
              forall i | 0 <= i < |trace| ::
                || BothKept(trace[i], old(fs))
                || (r.Saved? && Replaced(trace[i], NewMain(old(fs), cfg), auto))
    {
      hide FailsAt, AllWork, SameExcept, OldKept, LeftAs, Unrestored, PlacePlan, TempPlan, Replaced;
      hide MainPart, AutoPart, AutoWritten, Filled, Clean, Staged, WorksFrom;
      hide NewMain, NewAuto, ShapeOf, AutoNames, MainMode;
      ghost var s0, n0 := fs, ops;
      trace := [];
      var names := AutoNames(fs);
      var main, auto := Split(cfg, names);
      var mainMode := MainMode(fs);
      var autoFile := if auto == map[] then None else Some(File(AutoToml(AutoWritten(auto)), PRIVATE));
      var shape := Shape(Main in fs, Auto in fs, autoFile.Some?);
      ghost var newMain := File(MainToml(main), mainMode);
      ghost var newAuto := Filled(autoFile, cuts(n0 + 2));
      NewFiles(s0, cfg, main, auto);
      ghost var a, b := TempPlan(shape.wantAuto), PlacePlan(shape);
      var failure;
      failure, at := WriteTemps(File(MainToml(main), mainMode), autoFile);
      ghost var s1, t1 := fs, |trace|;
      NothingLost(s0);
      FrameKeepsAll(Main, trace, 0, s0, {MainTemp, AutoTemp}, s0);
      FrameKeepsAll(Auto, trace, 0, s0, {MainTemp, AutoTemp}, s0);
      FrameAt(s1, s0, {MainTemp, AutoTemp});
      FrameThen(s1, s0, s0, {MainTemp, AutoTemp}, {}, INVOLVED);
      if failure.Some? {
        FailsInFirst(works, n0, a, b, at);
        TempStage(shape.wantAuto, at);
        UntouchedIsLeft(s1, s0, n0 + at, failure.value, shape, works, newMain, newAuto);
        return Failed(failure.value, {}), at;
      }
      ghost var late;
      r, late := ReplaceAndClean(shape, s0);
      FrameThen(fs, s1, s0, INVOLVED, INVOLVED, INVOLVED);
      at := |a| + late;
      WorksLater(works, n0, n0 + |a|);
      if r.Failed? {
        FailsInSecond(works, n0, a, b, late);
        AfterRollback(fs, s0, n0 + at, r.stage, shape, works, newMain, newAuto);
      } else {
        BothWork(works, n0, a, b);
        ReplacedOnce(fs, newMain, newAuto, autoFile);
      }
    }

    method LoadConfigFile() returns (cfg: Option<Config>)
      ensures cfg == Load(fs)
    {
      var merged := map[];
      if Auto in fs {
        if !fs[Auto].content.AutoToml? {
          return None;
        }
        merged := fs[Auto].content.servers;
      }
      if Main !in fs || !fs[Main].content.MainToml? {
        return None;
      }
      var main := fs[Main].content.cfg;
      merged := merged + main.servers;
      var names, normalized, left := AutoNames(fs), map[], merged.Keys;
      while left != {}
        invariant left <= merged.Keys
        invariant normalized == map n | n in merged && n !in left :: DefaultsFor(merged, names)[n]
      {
        var n :| n in left;
        var s := merged[n];
        if n in names {
          if s.target == "" {
            s := s.(target := "nas");
          }
          if s.containerName == "" {
            s := s.(containerName := n + "-mc-1");
          }
        }
        normalized := normalized[n := s];
        left := left - {n};
      }
      assert normalized == DefaultsFor(merged, names);
      return Some(main.(servers := normalized));
    }

    /** `config set`: load, change, validate, save. `valid` is the verdict of the validation. */
    method SetConfigValue(u: Update, valid: Config -> bool) returns (o: Outcome, ghost at: nat)
      modifies this
      ensures CallStep(old(fs), u, o, cuts(old(ops) + 2), fs)
      ensures o == Tried(Saved) && (Auto !in old(fs) || cuts(old(ops) + 2).None?) ==> SetsOne(old(fs), u, fs)
      ensures o.Rejected? <==> Load(old(fs)).None? || !valid(Apply(Load(old(fs)).value, u))
      ensures o.Tried? ==>
                var cfg := Apply(Load(old(fs)).value, u);
                var plan := SavePlan(ShapeOf(old(fs), cfg));
                && (o.result.Saved? <==> AllWork(works, old(ops), |plan|))
                && (o.result.Failed? ==>
                      && FailsAt(works, old(ops), plan, at) && o.result.stage == plan[at]
                      && o.result.unrestored == Unrestored(works, old(ops) + at, plan[at], ShapeOf(old(fs), cfg))
                      && (works(old(ops) + at + 1) && works(old(ops) + at + 2) ==>
                            SameAt(Main, fs, old(fs)) && SameAt(Auto, fs, old(fs))))
      ensures o.Tried? && Clean(old(fs)) && WorksFrom(works, AfterFault(old(ops), o.result, at)) ==>
                if o.result.Saved? then SameExcept(fs, old(fs), {Main, Auto}) else fs == old(fs)
    {
      hide FailsAt, AllWork, SavePlan, LeftAs, SameExcept, Unrestored, Filled, NewAuto, NewMain, FailedStep, Replaced;
      hide Apply, ShapeOf, Clean;
      at := 0;
      var loaded := LoadConfigFile();
      if loaded.None? {
        return Rejected, 0;
      }
      var cfg := Apply(loaded.value, u);
      if !valid(cfg) {
        return Rejected, 0;
      }
      ghost var s0, n0 := fs, ops;
      var r;
      r, at := SaveSplit(cfg);
      if r.Failed? {
        LeftIsFailedStep(fs, s0, cfg, n0, at, works, cuts(n0 + 2));
      } else {
        SavedSetsOne(s0, u, cuts(n0 + 2), fs);
      }
      if Clean(s0) && WorksFrom(works, AfterFault(n0, r, at)) {
        OnlyTheFiles(fs, s0);
        if r.Failed? {
          NothingLeft(fs, s0);
        }
      }
      return Tried(r), at;
    }
  }

  // ---- Pieces of the proofs ----------------------------------------------------------------------------

  lemma MainHalfDone(fs: Files, before: Files, stage: Stage, shape: Shape, at: nat, main: File, auto: Option<File>)
    requires 0 <= at < |PutPlan(shape.mainExisted, (BackUpMain, ReplaceMain))|
    requires stage == PutPlan(shape.mainExisted, (BackUpMain, ReplaceMain))[at]
    requires stage.BackUpMain? ==> SameAt(Main, fs, before)
    requires stage.ReplaceMain? ==> Main !in fs && (shape.mainExisted ==> BackupThere(Main, fs, before))
    requires SameAt(Auto, fs, before)
    ensures HalfDone(fs, before, stage, shape, main, auto)
  {
  }

  lemma MainNeeded(fs: Files, stage: Stage, shape: Shape, at: nat)
    requires at < |PutPlan(shape.mainExisted, (BackUpMain, ReplaceMain))|
    requires stage == PutPlan(shape.mainExisted, (BackUpMain, ReplaceMain))[at]
    requires MainBackup in fs ==> shape.mainExisted && stage != BackUpMain
    requires AutoBackup !in fs
    ensures OnlyNeeded(fs, Some(stage), shape)
  {
  }

  lemma AutoNeeded(fs: Files, failure: Option<Stage>, shape: Shape, works: nat -> bool, start: nat, at: int)
    requires failure.Some? ==> at >= 0 && FailsAt(works, start, AutoPlan(shape), at)
                               && failure.value == AutoPlan(shape)[at]
    requires MainBackup in fs ==> shape.mainExisted
    requires AutoBackup in fs ==> shape.autoExisted && (failure.Some? ==> AutoBacked(failure.value, shape))
    ensures OnlyNeeded(fs, failure, shape)
  {
  }

  lemma AutoHalfDone(fs: Files, before: Files, stage: Stage, shape: Shape, at: nat, main: File, auto: Option<File>,
                     works: nat -> bool, start: nat)
    requires FailsAt(works, start, AutoPlan(shape), at) && stage == AutoPlan(shape)[at]
    requires Main in fs && fs[Main] == main && (shape.mainExisted ==> BackupThere(Main, fs, before))
    requires AutoAt(fs, before, stage, auto) && (AutoBacked(stage, shape) ==> BackupThere(Auto, fs, before))
    ensures HalfDone(fs, before, stage, shape, main, auto)
  {
  }

  /** A directory holds one pair of new files only. */
  lemma ReplacedOnce(fs: Files, main: File, auto: Option<File>, other: Option<File>)
    requires Replaced(fs, main, auto)
    ensures Replaced(fs, main, other) <==> other == auto
  {
  }

  lemma BackupsStay(fs: Files, earlier: Files)
    requires SameExcept(fs, earlier, {MainTemp, AutoTemp})
    ensures NoBackups(earlier) ==> NoBackups(fs)
  {
    assert SameAt(MainBackup, fs, earlier) && SameAt(AutoBackup, fs, earlier);
  }

  lemma NewFiles(before: Files, cfg: Config, main: Config, auto: Servers)
    requires main == MainPart(cfg, AutoNames(before)) && auto == AutoPart(cfg, AutoNames(before))
    ensures var file := if auto == map[] then None else Some(File(AutoToml(AutoWritten(auto)), PRIVATE));
            && NewMain(before, cfg) == File(MainToml(main), MainMode(before))
            && NewAuto(before, cfg) == file
            && ShapeOf(before, cfg) == Shape(Main in before, Auto in before, file.Some?)
  {
  }

  lemma OnlyTheFiles(fs: Files, before: Files)
    requires SameExcept(fs, before, INVOLVED)
    requires Clean(before) && Clean(fs)
    ensures SameExcept(fs, before, {Main, Auto})
  {
    forall p | p !in {Main, Auto}
      ensures SameAt(p, fs, before)
    {
      assert p in INVOLVED || SameAt(p, fs, before);
    }
  }

  lemma NothingLeft(fs: Files, before: Files)
    requires SameExcept(fs, before, INVOLVED) && SameAt(Main, fs, before) && SameAt(Auto, fs, before)
    requires Clean(before) && Clean(fs)
    ensures fs == before
  {
    OnlyTheFiles(fs, before);
    forall p
      ensures p in fs <==> p in before
      ensures p in fs ==> fs[p] == before[p]
    {
      assert p in {Main, Auto} || SameAt(p, fs, before);
    }
  }

  lemma FrameAt(fs: Files, earlier: Files, paths: set<Path>)
    requires SameExcept(fs, earlier, paths)
    ensures forall p | p !in paths :: SameAt(p, fs, earlier)
  {
  }

  lemma FrameReplacedNow(fs: Files, earlier: Files, paths: set<Path>, main: File, auto: Option<File>)
    requires Replaced(earlier, main, auto) && Main !in paths && Auto !in paths && SameExcept(fs, earlier, paths)
    ensures Replaced(fs, main, auto)
  {
    FrameAt(fs, earlier, paths);
  }

  lemma BackUpFailed(fs: Files, before: Files, fault: nat, shape: Shape, works: nat -> bool,
                     main: File, auto: Option<File>)
    requires HalfDone(fs, before, BackUpMain, shape, main, auto)
    ensures LeftAs(fs, before, fault, BackUpMain, shape, works, main, auto)
    ensures Unrestored(works, fault, BackUpMain, shape) == {}
  {
    UntouchedIsLeft(fs, before, fault, BackUpMain, shape, works, main, auto);
  }

  lemma NotWriting(shape: Shape, works: nat -> bool, start: nat, at: nat)
    requires FailsAt(works, start, PlacePlan(shape), at)
    ensures at < |PlacePlan(shape)|
    ensures !PlacePlan(shape)[at].WriteMain? && !PlacePlan(shape)[at].WriteAuto?
  {
  }

  lemma TempStage(wantAuto: bool, at: nat)
    requires at < |TempPlan(wantAuto)|
    ensures TempPlan(wantAuto)[at].WriteMain? || TempPlan(wantAuto)[at].WriteAuto?
  {
  }

  lemma NothingLost(fs: Files)
    ensures OldKept(Main, fs, fs) && OldKept(Auto, fs, fs) && SameExcept(fs, fs, {})
  {
  }

  lemma AfterRollback(fs: Files, before: Files, fault: nat, stage: Stage, shape: Shape, works: nat -> bool,
                      main: File, auto: Option<File>)
    requires LeftAs(fs, before, fault, stage, shape, works, main, auto)
    ensures works(fault + 1) && works(fault + 2) ==>
              && SameAt(Main, fs, before) && SameAt(Auto, fs, before)
              && Unrestored(works, fault, stage, shape) == {}
  {
    if works(fault + 1) && works(fault + 2) {
      RollbackRestores(fs, before, fault, stage, shape, works, main, auto);
    }
  }

  // ---- One call, whatever comes of it ------------------------------------------------------------------

  datatype Outcome = Rejected | Tried(result: SaveResult)

  /**
   * A failed save of a loaded configuration: each file is as before unless it is reported, and then it is as
   * the failing stage left it.
   */
  ghost predicate FailedStep(fs: Files, cfg: Config, stage: Stage, unrestored: set<Path>, cut: Option<Content>,
                             fs': Files)
  {
    && Occurs(stage, ShapeOf(fs, cfg))
    && (if Main in unrestored then MainAt(fs', fs, stage, NewMain(fs, cfg)) else SameAt(Main, fs', fs))
    && (if Auto in unrestored then AutoAt(fs', fs, stage, Filled(NewAuto(fs, cfg), cut)) else SameAt(Auto, fs', fs))
  }

  /** A save that succeeded, with whatever came of filling the sidecar. */
  ghost predicate SavedStep(fs: Files, cfg: Config, cut: Option<Content>, fs': Files) {
    Replaced(fs', NewMain(fs, cfg), Filled(NewAuto(fs, cfg), cut))
  }

  ghost predicate CallStep(fs: Files, u: Update, o: Outcome, cut: Option<Content>, fs': Files) {
    if o.Rejected? then fs' == fs
    else
      && Load(fs).Some?
      && var cfg := Apply(Load(fs).value, u);
         match o.result
         case Saved => SavedStep(fs, cfg, cut, fs')
         case Failed(stage, unrestored) => FailedStep(fs, cfg, stage, unrestored, cut, fs')
  }

  lemma SavedSetsOne(fs: Files, u: Update, cut: Option<Content>, fs': Files)
    requires Load(fs).Some? && SavedStep(fs, Apply(Load(fs).value, u), cut, fs')
    ensures Auto !in fs || cut.None? ==> SetsOne(fs, u, fs')
  {
    hide Load, Apply, SetsOne;
    if Auto !in fs || cut.None? {
      SetChangesOne(fs, u, fs');
    }
  }

  lemma LeftIsFailedStep(fs: Files, before: Files, cfg: Config, start: nat, at: nat, works: nat -> bool,
                         cut: Option<Content>)
    requires Main in before
    requires var shape := ShapeOf(before, cfg);
             && FailsAt(works, start, SavePlan(shape), at)
             && LeftAs(fs, before, start + at, SavePlan(shape)[at], shape, works,
                       NewMain(before, cfg), Filled(NewAuto(before, cfg), cut))
    ensures var shape := ShapeOf(before, cfg);
            var stage := SavePlan(shape)[at];
            FailedStep(before, cfg, stage, Unrestored(works, start + at, stage, shape), cut, fs)
  {
    hide SavePlan, MainPart, AutoWritten;
    PlansFit(ShapeOf(before, cfg));
  }
}
