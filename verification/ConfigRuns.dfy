/** Sequences of `config set` calls, whatever comes of each, and single calls that go wrong. */
module ConfigRuns {
  import opened Text
  import opened ConfigFiles
  import opened ConfigStore

  /** Calls one after the other, each done, rejected or failed at any stage with any rollback and any cut. */
  ghost predicate CallRun(states: seq<Files>, us: seq<Update>, os: seq<Outcome>, cuts: seq<Option<Content>>) {
    && |states| == |us| + 1 && |os| == |us| == |cuts|
    && forall i | 0 <= i < |us| :: CallStep(states[i], us[i], os[i], cuts[i], states[i + 1])
  }

  /** The sidecar was moved away, its replacement did not come and it could not be moved back. */
  predicate MovedAway(o: Outcome) {
    o.Tried? && o.result.Failed? && o.result.stage.ReplaceAuto? && Auto in o.result.unrestored
  }

  /** The new sidecar is in place: the call is done, or failed after that and could not put the old one back. */
  predicate InPlace(o: Outcome) {
    o.Tried? && (o.result.Failed? ==> o.result.stage.ChmodAuto? && Auto in o.result.unrestored)
  }

  function NamesIn(content: Content): set<string> {
    if content.AutoToml? then content.servers.Keys else {}
  }

  /** Filling the new sidecar was cut short, so that it does not decode to the servers of the old one. */
  predicate Garbled(fs: Files, o: Outcome, cut: Option<Content>) {
    InPlace(o) && AutoNames(fs) != {} && cut.Some? && NamesIn(cut.value) != AutoNames(fs)
  }

  predicate LosesSidecar(fs: Files, o: Outcome, cut: Option<Content>) {
    MovedAway(o) || Garbled(fs, o, cut)
  }

  // ---- Where the servers stay --------------------------------------------------------------------------

  /** The sidecar holds the same servers, and none of them has entered the main file. */
  predicate Stayed(before: Files, fs: Files) {
    && AutoNames(fs) == AutoNames(before)
    && forall n | n in AutoNames(before) && n in MainServers(fs) :: n in MainServers(before)
  }

  lemma NewAutoNames(fs: Files, u: Update)
    requires Load(fs).Some?
    ensures var cfg := Apply(Load(fs).value, u);
            && (NewAuto(fs, cfg).Some? <==> AutoNames(fs) != {})
            && (NewAuto(fs, cfg).Some? ==>
                  && NewAuto(fs, cfg).value.content.AutoToml?
                  && NamesIn(NewAuto(fs, cfg).value.content) == AutoNames(fs))
  {
    LoadedHasDefaults(fs);
    var cfg := Apply(Load(fs).value, u);
    assert AutoPart(cfg, AutoNames(fs)).Keys == AutoNames(fs);
  }

  /** What a new sidecar decodes to. */
  lemma FilledNames(fs: Files, u: Update, cut: Option<Content>)
    requires Load(fs).Some?
    ensures var auto := Filled(NewAuto(fs, Apply(Load(fs).value, u)), cut);
            && (auto.Some? <==> AutoNames(fs) != {})
            && (auto.Some? ==>
                  NamesIn(auto.value.content) == if cut.Some? then NamesIn(cut.value) else AutoNames(fs))
  {
    hide NewAuto, Apply, Load, AutoNames;
    NewAutoNames(fs, u);
  }

  lemma FailedCall(fs: Files, u: Update, stage: Stage, unrestored: set<Path>, cut: Option<Content>, fs': Files)
    requires CallStep(fs, u, Tried(Failed(stage, unrestored)), cut, fs')
    ensures !LosesSidecar(fs, Tried(Failed(stage, unrestored)), cut) ==> Stayed(fs, fs')
    ensures LosesSidecar(fs, Tried(Failed(stage, unrestored)), cut) ==> AutoNames(fs') != AutoNames(fs)
  {
    hide Load, MainAt, AutoAt, AutoNames, MainServers, NewAuto, NewMain, Apply, NamesIn, Filled;
    var cfg := Apply(Load(fs).value, u);
    FilledNames(fs, u, cut);
    AutoAfter(fs, stage, Filled(NewAuto(fs, cfg), cut), fs');
    MainStays(fs, cfg, stage, fs');
    SameFiles(fs, fs');
  }

  lemma SavedCall(fs: Files, u: Update, cut: Option<Content>, fs': Files)
    requires CallStep(fs, u, Tried(Saved), cut, fs')
    ensures !LosesSidecar(fs, Tried(Saved), cut) ==> Stayed(fs, fs')
    ensures LosesSidecar(fs, Tried(Saved), cut) ==> AutoNames(fs') != AutoNames(fs)
  {
    hide Load, NewAuto, Apply, Filled, NewMain, MainServers;
    var cfg := Apply(Load(fs).value, u);
    FilledNames(fs, u, cut);
    MainStays(fs, cfg, BackUpAuto, fs');
  }

  lemma SameFiles(fs: Files, fs': Files)
    ensures SameAt(Auto, fs', fs) ==> AutoNames(fs') == AutoNames(fs)
    ensures SameAt(Main, fs', fs) ==> MainServers(fs') == MainServers(fs)
  {
  }

  lemma AutoAfter(fs: Files, stage: Stage, auto: Option<File>, fs': Files)
    ensures AutoAt(fs', fs, stage, auto) ==>
              AutoNames(fs') ==
              if stage.ReplaceAuto? then {} else if stage.ChmodAuto? then NamesIn(auto.value.content) else AutoNames(fs)
  {
  }

  /** Neither the new main file nor a missing one has a server of the sidecar. */
  lemma MainStays(fs: Files, cfg: Config, stage: Stage, fs': Files)
    ensures MainAt(fs', fs, stage, NewMain(fs, cfg)) ==>
              forall n | n in AutoNames(fs) && n in MainServers(fs') :: n in MainServers(fs)
  {
    hide AutoNames;
  }

  lemma OneCall(fs: Files, u: Update, o: Outcome, cut: Option<Content>, fs': Files)
    requires CallStep(fs, u, o, cut, fs')
    ensures !LosesSidecar(fs, o, cut) ==> Stayed(fs, fs')
    ensures LosesSidecar(fs, o, cut) ==> AutoNames(fs') != AutoNames(fs)
  {
    match o
    case Rejected =>
    case Tried(Saved) => SavedCall(fs, u, cut, fs');
    case Tried(Failed(stage, unrestored)) => FailedCall(fs, u, stage, unrestored, cut, fs');
  }

  /**
   * Over any sequence of sets, done, rejected or failed, the auto-provisioned servers stay the same ones and
   * none of them enters the main file, if and only if no set loses the sidecar: none moves it away for good,
   * and none puts one in place that was cut short of its servers.
   */
  lemma {:induction false} AutoServersStay(states: seq<Files>, us: seq<Update>, os: seq<Outcome>,
                                           cuts: seq<Option<Content>>)
    requires CallRun(states, us, os, cuts)
    ensures (forall i | 0 <= i < |states| :: Stayed(states[0], states[i]))
       <==> (forall i | 0 <= i < |os| :: !LosesSidecar(states[i], os[i], cuts[i]))
  {
    hide CallStep, LosesSidecar, Stayed, AutoNames;
    StaysPut(states[0]);
    if us != [] {
      var n := |us| - 1;
      var before, earlier, ends := states[..n + 1], os[..n], cuts[..n];
      AutoServersStay(before, us[..n], earlier, ends);
      assert forall i | 0 <= i < |before| :: before[i] == states[i];
      assert forall i | 0 <= i < |earlier| :: earlier[i] == os[i] && ends[i] == cuts[i];
      assert CallStep(states[n], us[n], os[n], cuts[n], states[n + 1]);
      OneCall(states[n], us[n], os[n], cuts[n], states[n + 1]);
      if LosesSidecar(states[n], os[n], cuts[n]) {
        LostIsGone(states[0], states[n], states[n + 1]);
      } else {
        StaysOn(states[0], states[n], states[n + 1]);
      }
    }
  }

  lemma StaysPut(fs: Files)
    ensures Stayed(fs, fs)
  {
  }

  lemma StaysOn(first: Files, fs: Files, fs': Files)
    requires Stayed(fs, fs')
    ensures Stayed(first, fs) ==> Stayed(first, fs')
  {
  }

  lemma LostIsGone(first: Files, fs: Files, fs': Files)
    requires AutoNames(fs') != AutoNames(fs)
    ensures !(Stayed(first, fs) && Stayed(first, fs'))
  {
  }

  // ---- What the calls add up to ------------------------------------------------------------------------

  /** The configuration after the updates of the calls that were done. */
  function UpdatedBy(cfg: Config, us: seq<Update>, os: seq<Outcome>, auto: set<string>): Config
    requires |us| == |os|
  {
    if us == [] then cfg
    else
      var n := |us| - 1;
      var before := UpdatedBy(cfg, us[..n], os[..n], auto);
      if os[n] == Tried(Saved) then Updated(before, us[n], auto) else before
  }

  /** A failed call reported nothing unrestored, and a done one filled the sidecar in full if it wrote one. */
  predicate Sound(fs: Files, o: Outcome, cut: Option<Content>) {
    o.Tried? ==>
      if o.result.Failed? then o.result.unrestored == {} else AutoNames(fs) == {} || cut.None?
  }

  lemma RestoredLoads(fs: Files, u: Update, o: Outcome, cut: Option<Content>, fs': Files)
    requires CallStep(fs, u, o, cut, fs') && Sound(fs, o, cut) && o != Tried(Saved)
    ensures Load(fs') == Load(fs) && AutoNames(fs') == AutoNames(fs)
  {
  }

  /** While failed calls restore the files and done ones fill them, loading gives the composed updates. */
  lemma {:induction false} SetsCompose(states: seq<Files>, us: seq<Update>, os: seq<Outcome>,
                                       cuts: seq<Option<Content>>)
    requires CallRun(states, us, os, cuts) && Load(states[0]).Some?
    requires forall i | 0 <= i < |os| :: Sound(states[i], os[i], cuts[i])
    ensures Load(states[|us|]) == Some(UpdatedBy(Load(states[0]).value, us, os, AutoNames(states[0])))
    ensures AutoNames(states[|us|]) == AutoNames(states[0])
  {
    hide CallStep, Sound, Load, AutoNames, Updated;
    if us != [] {
      var n := |us| - 1;
      SetsCompose(states[..n + 1], us[..n], os[..n], cuts[..n]);
      assert CallStep(states[n], us[n], os[n], cuts[n], states[n + 1]);
      assert Sound(states[n], os[n], cuts[n]);
      if os[n] == Tried(Saved) {
        DoneLoads(states[n], us[n], cuts[n], states[n + 1]);
      } else {
        RestoredLoads(states[n], us[n], os[n], cuts[n], states[n + 1]);
      }
    }
  }

  lemma DoneLoads(fs: Files, u: Update, cut: Option<Content>, fs': Files)
    requires CallStep(fs, u, Tried(Saved), cut, fs') && Sound(fs, Tried(Saved), cut)
    ensures Load(fs).Some? && Load(fs') == Some(Updated(Load(fs).value, u, AutoNames(fs)))
    ensures AutoNames(fs') == AutoNames(fs)
  {
    hide Load, NewAuto, NewMain, AutoNames, Apply, Updated;
    NewAutoNames(fs, u);
    SetStepEffect(fs, u, fs');
  }

  // ---- Calls that go wrong -----------------------------------------------------------------------------

  /**
   * There is no main file. The sidecar's replacement fails and is undone; removing the new main file fails
   * too, and the error reports nothing of it.
   */
  method NewFileStays() returns (d: ConfigDir, r: SaveResult)
    ensures r == Failed(ReplaceAuto, {}) && Main in d.fs
  {
    hide SavePlan, ShapeOf, NewAuto, NewMain;
    PlanWithoutMain();
    d := new ConfigDir(ONLY_AUTO, n => n != 6 && n != 8, _ => None);
    ghost var at;
    r, at := d.SaveSplit(ONLY_CFG);
    assert !d.works(6);
    assert at == 6;
  }

  const ONLY_AUTO: Files := map[Auto := File(AutoToml(map["a" := UNSET]), PRIVATE)]
  const ONLY_CFG := Config("", map["a" := UNSET])

  lemma PlanWithoutMain()
    ensures ShapeOf(ONLY_AUTO, ONLY_CFG) == Shape(false, true, true)
    ensures SavePlan(Shape(false, true, true)) ==
            [WriteMain, WriteMain, WriteAuto, WriteAuto, ReplaceMain, BackUpAuto, ReplaceAuto, ChmodAuto]
  {
    assert AutoNames(ONLY_AUTO) == {"a"} && AutoPart(ONLY_CFG, {"a"}) == map["a" := UNSET];
  }

  const ONE_EACH: Files := map[Main := File(MainToml(Config("", map["b" := UNSET])), PRIVATE),
                               Auto := File(AutoToml(map["a" := UNSET]), PRIVATE)]

  const ENABLE: Server -> Server := (s: Server) => s.(enabled := true)

  lemma OneEach()
    ensures Load(ONE_EACH).Some? && AutoNames(ONE_EACH) == {"a"} && MainServers(ONE_EACH).Keys == {"b"}
    ensures var cfg := Apply(Load(ONE_EACH).value, SetServer("b", ENABLE));
            SavePlan(ShapeOf(ONE_EACH, cfg)) ==
            [WriteMain, WriteMain, WriteAuto, WriteAuto, BackUpMain, ReplaceMain, BackUpAuto, ReplaceAuto, ChmodAuto]
  {
    assert AutoNames(ONE_EACH) == {"a"};
    NewAutoNames(ONE_EACH, SetServer("b", ENABLE));
    PlanOfAll();
  }

  lemma PlanOfAll()
    ensures SavePlan(Shape(true, true, true)) ==
            [WriteMain, WriteMain, WriteAuto, WriteAuto, BackUpMain, ReplaceMain, BackUpAuto, ReplaceAuto, ChmodAuto]
  {
  }

  /** The sidecar is moved away, its replacement fails and so does moving it back. */
  method LoseSidecar() returns (d: ConfigDir, o: Outcome)
    ensures MovedAway(o) && CallStep(ONE_EACH, SetServer("b", ENABLE), o, None, d.fs)
    ensures Main !in o.result.unrestored
  {
    hide Load, AutoNames, Apply, CallStep, SavePlan, ShapeOf;
    OneEach();
    d := new ConfigDir(ONE_EACH, n => n != 7 && n != 8, _ => None);
    ghost var at;
    o, at := d.SetConfigValue(SetServer("b", ENABLE), _ => true);
    assert !d.works(7);
    assert at == 7 && o.result.stage == ReplaceAuto;
    PlanShape(ShapeOf(ONE_EACH, Apply(Load(ONE_EACH).value, SetServer("b", ENABLE))));
  }

  lemma PlanShape(shape: Shape)
    requires SavePlan(shape) ==
             [WriteMain, WriteMain, WriteAuto, WriteAuto, BackUpMain, ReplaceMain, BackUpAuto, ReplaceAuto, ChmodAuto]
    ensures shape == Shape(true, true, true)
  {
    assert |SavePlan(shape)| == 9;
  }

  /**
   * The next set, in a process of its own in which everything works, then writes the auto-provisioned
   * server into the main file.
   */
  method SidecarIsLost() returns (before: Files, d: ConfigDir)
    ensures Load(before).Some? && AutoNames(before) == {"a"} && "a" !in MainServers(before)
    ensures "a" in MainServers(d.fs)
  {
    OneEach();
    before := ONE_EACH;
    var o;
    d, o := LoseSidecar();
    var left := d.fs;
    LostLoads(left, o);
    d := new ConfigDir(left, _ => true, _ => None);
    ghost var at;
    o, at := d.SetConfigValue(SetServer("a", ENABLE), _ => true);
    assert o == Tried(Saved);
    EntersMain(left, d.fs);
  }

  lemma LostLoads(left: Files, o: Outcome)
    requires CallStep(ONE_EACH, SetServer("b", ENABLE), o, None, left) && MovedAway(o)
    requires Main !in o.result.unrestored
    ensures Load(left).Some? && AutoNames(left) == {}
  {
  }

  /** Without a sidecar every server set is the main file's. */
  lemma EntersMain(fs: Files, fs': Files)
    requires SetStep(fs, SetServer("a", ENABLE), fs') && AutoNames(fs) == {}
    ensures "a" in MainServers(fs')
  {
    PartsAfterSave(fs, Apply(Load(fs).value, SetServer("a", ENABLE)), fs');
  }

  /**
   * The disk is full while the new sidecar is written. The set is done, the old sidecar is gone with its
   * backup, and its server is in neither file.
   */
  method SidecarIsCutShort() returns (before: Files, d: ConfigDir, o: Outcome)
    ensures Load(before).Some? && "a" in Load(before).value.servers && AutoNames(before) == {"a"}
    ensures o == Tried(Saved) && Load(d.fs).Some? && "a" !in Load(d.fs).value.servers
  {
    OneEach();
    before := ONE_EACH;
    d := new ConfigDir(before, _ => true, _ => Some(AutoToml(map[])));
    ghost var at;
    o, at := d.SetConfigValue(SetServer("b", ENABLE), _ => true);
    assert o == Tried(Saved);
    CutLoads(d.fs);
  }

  lemma CutLoads(left: Files)
    requires CallStep(ONE_EACH, SetServer("b", ENABLE), Tried(Saved), Some(AutoToml(map[])), left)
    ensures Load(left).Some? && "a" !in Load(left).value.servers
  {
    assert AutoNames(ONE_EACH) == {"a"};
    NewAutoNames(ONE_EACH, SetServer("b", ENABLE));
    var cfg := Apply(Load(ONE_EACH).value, SetServer("b", ENABLE));
    assert left[Main].content == MainToml(MainPart(cfg, {"a"})) && left[Auto].content == AutoToml(map[]);
  }
}
