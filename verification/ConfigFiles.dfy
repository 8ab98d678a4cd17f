/** The main configuration file and its auto-provisioned sidecar: what loading and splitting make of them. */
module ConfigFiles {
  import opened Text

  // ---- Files ---------------------------------------------------------------------------------------

  datatype Server = Server(enabled: bool, target: string, containerName: string, rconPassword: string,
                           dataDir: string, pauseIfNoPlayers: bool, excludes: Option<seq<string>>)

  type Servers = map<string, Server>

  /** Everything but the servers is kept as one value: saving and loading carry it along unchanged. */
  datatype Config = Config(settings: string, servers: Servers)

  /** What a file decodes to. TOML encoding and decoding are taken as inverse to each other. */
  datatype Content = MainToml(cfg: Config) | AutoToml(servers: Servers) | Garbage

  datatype File = File(content: Content, mode: nat)

  datatype Path = Main | Auto | MainTemp | AutoTemp | MainBackup | AutoBackup | Elsewhere(name: string)

  type Files = map<Path, File>

  // ---- Loading and splitting -----------------------------------------------------------------------

  /** `loadAutoServerNames`: none if the sidecar is missing or unreadable. */
  function AutoNames(fs: Files): set<string> {
    if Auto in fs && fs[Auto].content.AutoToml? then fs[Auto].content.servers.Keys else {}
  }

  function WithDefaults(name: string, s: Server): Server {
    s.(target := if s.target == "" then "nas" else s.target,
       containerName := if s.containerName == "" then name + "-mc-1" else s.containerName)
  }

  function DefaultsFor(servers: Servers, names: set<string>): Servers {
    map n | n in servers :: if n in names then WithDefaults(n, servers[n]) else servers[n]
  }

  function AutoServers(fs: Files): Servers {
    if Auto in fs && fs[Auto].content.AutoToml? then fs[Auto].content.servers else map[]
  }

  function MainServers(fs: Files): Servers {
    if Main in fs && fs[Main].content.MainToml? then fs[Main].content.cfg.servers else map[]
  }

  /** The sidecar is decoded first, the main file over it; either being malformed is an error. */
  function Load(fs: Files): Option<Config> {
    if Auto in fs && !fs[Auto].content.AutoToml? then None
    else if Main !in fs || !fs[Main].content.MainToml? then None
    else
      var main := fs[Main].content.cfg;
      Some(main.(servers := DefaultsFor(AutoServers(fs) + main.servers, AutoNames(fs))))
  }

  function MainPart(cfg: Config, names: set<string>): Config {
    cfg.(servers := map n | n in cfg.servers && n !in names :: cfg.servers[n])
  }

  function AutoPart(cfg: Config, names: set<string>): Servers {
    map n | n in cfg.servers && n in names :: cfg.servers[n]
  }

  /** What `writeAutoServersTo` writes. */
  function AutoWritten(auto: Servers): Servers {
    map n | n in auto :: WithDefaults(n, auto[n])
  }

  const PRIVATE: nat := 0x180 // 0600

  function MainMode(fs: Files): nat {
    if Main in fs then fs[Main].mode else PRIVATE
  }

  function NewMain(before: Files, cfg: Config): File {
    File(MainToml(MainPart(cfg, AutoNames(before))), MainMode(before))
  }

  /** None: no server is left for the sidecar. */
  function NewAuto(before: Files, cfg: Config): Option<File> {
    var auto := AutoPart(cfg, AutoNames(before));
    if auto == map[] then None else Some(File(AutoToml(AutoWritten(auto)), PRIVATE))
  }

  /** Both files are the new ones; the sidecar is gone if nothing is left for it. */
  predicate Replaced(fs: Files, main: File, auto: Option<File>) {
    && Main in fs && fs[Main] == main
    && (if auto.Some? then Auto in fs && fs[Auto] == auto.value else Auto !in fs)
  }

  predicate SameAt(p: Path, fs: Files, before: Files) {
    (p in fs <==> p in before) && (p in fs ==> fs[p] == before[p])
  }

  /** The main file wins over the sidecar; only the sidecar's servers get defaults, in two fields. */
  lemma LoadMeans(fs: Files)
    ensures Load(fs).Some? <==>
              && Main in fs && fs[Main].content.MainToml?
              && (Auto in fs ==> fs[Auto].content.AutoToml?)
    ensures Load(fs).Some? ==> Load(fs).value.settings == fs[Main].content.cfg.settings
    ensures Load(fs).Some? ==>
              var main, cfg := fs[Main].content.cfg.servers, Load(fs).value.servers;
              var auto := if Auto in fs then fs[Auto].content.servers else map[];
              && cfg.Keys == main.Keys + auto.Keys
              && (forall n | n in main && n !in auto :: cfg[n] == main[n])
              && forall n | n in auto ::
                   var s := if n in main then main[n] else auto[n];
                   cfg[n] == Server(s.enabled, if s.target == "" then "nas" else s.target,
                                    if s.containerName == "" then n + "-mc-1" else s.containerName,
                                    s.rconPassword, s.dataDir, s.pauseIfNoPlayers, s.excludes)
  {
  }

  // ---- Split and merge -------------------------------------------------------------------------------

  lemma PartsAfterSave(before: Files, cfg: Config, after: Files)
    requires Replaced(after, NewMain(before, cfg), NewAuto(before, cfg))
    ensures AutoServers(after) == AutoWritten(AutoPart(cfg, AutoNames(before)))
    ensures AutoNames(after) == AutoNames(before) * cfg.servers.Keys
    ensures MainServers(after).Keys == cfg.servers.Keys - AutoNames(before)
  {
    var auto := AutoPart(cfg, AutoNames(before));
    assert AutoWritten(auto).Keys == auto.Keys;
    assert AutoNames(after) == auto.Keys;
  }

  /** The main file keeps its mode; both are private if new. */
  lemma SavedModes(before: Files, cfg: Config, auto: Option<File>, after: Files)
    requires Replaced(after, NewMain(before, cfg), auto)
    requires auto.Some? ==> NewAuto(before, cfg).Some? && auto.value.mode == NewAuto(before, cfg).value.mode
    ensures Main in after && after[Main].mode == if Main in before then before[Main].mode else 0x180
    ensures Auto in after ==> after[Auto].mode == 0x180
  {
  }

  /** Writing the defaults out and applying them on loading is applying them once. */
  lemma MergedParts(cfg: Config, names: set<string>)
    ensures DefaultsFor(AutoWritten(AutoPart(cfg, names)) + MainPart(cfg, names).servers, names * cfg.servers.Keys)
         == DefaultsFor(cfg.servers, names)
  {
  }

  /** After a successful save, loading gives back the saved servers, up to the sidecar's defaults. */
  lemma LoadAfterSave(before: Files, cfg: Config, after: Files)
    requires Replaced(after, NewMain(before, cfg), NewAuto(before, cfg))
    ensures Load(after) == Some(cfg.(servers := DefaultsFor(cfg.servers, AutoNames(before))))
  {
    PartsAfterSave(before, cfg, after);
    MergedParts(cfg, AutoNames(before));
  }

  /** Defaults are already in what was loaded, so saving it unchanged and loading it gives it back. */
  lemma LoadedHasDefaults(fs: Files)
    requires Load(fs).Some?
    ensures DefaultsFor(Load(fs).value.servers, AutoNames(fs)) == Load(fs).value.servers
    ensures AutoNames(fs) <= Load(fs).value.servers.Keys
  {
  }

  lemma SaveLoadedRoundTrip(before: Files, after: Files)
    requires Load(before).Some?
    requires Replaced(after, NewMain(before, Load(before).value), NewAuto(before, Load(before).value))
    ensures Load(after) == Load(before)
    ensures AutoNames(after) == AutoNames(before)
  {
    LoadedHasDefaults(before);
    LoadAfterSave(before, Load(before).value, after);
    PartsAfterSave(before, Load(before).value, after);
    assert AutoNames(before) * Load(before).value.servers.Keys == AutoNames(before);
  }

  // ---- Setting one value -----------------------------------------------------------------------------

  /** `config set`: one field of one server, or a value outside the servers. */
  datatype Update = SetServer(name: string, change: Server -> Server) | SetSettings(edit: string -> string)

  const UNSET: Server := Server(false, "", "", "", "", false, None)

  function Apply(cfg: Config, u: Update): Config {
    match u
    case SetServer(name, change) =>
      var s := if name in cfg.servers then cfg.servers[name] else UNSET;
      cfg.(servers := cfg.servers[name := change(s)])
    case SetSettings(edit) => cfg.(settings := edit(cfg.settings))
  }

  function Updated(cfg: Config, u: Update, auto: set<string>): Config {
    Apply(cfg, u).(servers := DefaultsFor(Apply(cfg, u).servers, auto))
  }

  /** One successful `config set`. */
  ghost predicate SetStep(fs: Files, u: Update, fs': Files) {
    && Load(fs).Some?
    && Replaced(fs', NewMain(fs, Apply(Load(fs).value, u)), NewAuto(fs, Apply(Load(fs).value, u)))
  }

  lemma SetStepEffect(fs: Files, u: Update, fs': Files)
    requires SetStep(fs, u, fs')
    ensures Load(fs') == Some(Updated(Load(fs).value, u, AutoNames(fs)))
    ensures AutoNames(fs') == AutoNames(fs)
    ensures MainServers(fs').Keys !! AutoNames(fs)
  {
    LoadedHasDefaults(fs);
    LoadAfterSave(fs, Apply(Load(fs).value, u), fs');
    PartsAfterSave(fs, Apply(Load(fs).value, u), fs');
    assert AutoNames(fs) * Apply(Load(fs).value, u).servers.Keys == AutoNames(fs);
  }

  /**
   * What loading gives after a set, from what it gave before: a set outside the servers leaves them all, and
   * a set of one server starts from that server's own fields and leaves everything else.
   */
  ghost predicate SetsOne(fs: Files, u: Update, fs': Files) {
    && Load(fs).Some? && Load(fs').Some?
    && var was, cfg := Load(fs).value, Load(fs').value;
       match u
       case SetSettings(edit) => cfg.settings == edit(was.settings) && cfg.servers == was.servers
       case SetServer(n, change) =>
         && cfg.settings == was.settings
         && cfg.servers.Keys == was.servers.Keys + {n}
         && (forall m | m in was.servers && m != n :: cfg.servers[m] == was.servers[m])
         && var s := change(if n in was.servers then was.servers[n] else Server(false, "", "", "", "", false, None));
            cfg.servers[n] ==
            if Auto in fs && n in fs[Auto].content.servers
            then Server(s.enabled, if s.target == "" then "nas" else s.target,
                        if s.containerName == "" then n + "-mc-1" else s.containerName,
                        s.rconPassword, s.dataDir, s.pauseIfNoPlayers, s.excludes)
            else s
  }

  lemma UpdatedMeans(cfg: Config, u: Update, auto: set<string>)
    requires DefaultsFor(cfg.servers, auto) == cfg.servers
    ensures u.SetSettings? ==> Updated(cfg, u, auto) == Config(u.edit(cfg.settings), cfg.servers)
    ensures u.SetServer? ==>
              var servers := Updated(cfg, u, auto).servers;
              var s := u.change(if u.name in cfg.servers then cfg.servers[u.name] else UNSET);
              && Updated(cfg, u, auto).settings == cfg.settings
              && servers.Keys == cfg.servers.Keys + {u.name}
              && (forall m | m in cfg.servers && m != u.name :: servers[m] == cfg.servers[m])
              && servers[u.name] == if u.name in auto then WithDefaults(u.name, s) else s
  {
    if u.SetServer? {
      var servers := Updated(cfg, u, auto).servers;
      forall m | m in cfg.servers && m != u.name
        ensures servers[m] == cfg.servers[m]
      {
        assert DefaultsFor(cfg.servers, auto)[m] == cfg.servers[m];
      }
    }
  }

  lemma SetChangesOne(fs: Files, u: Update, fs': Files)
    requires SetStep(fs, u, fs')
    ensures SetsOne(fs, u, fs')
  {
    hide Load, NewMain, NewAuto, Replaced, DefaultsFor, Updated, Apply;
    LoadMeans(fs);
    LoadedHasDefaults(fs);
    UpdatedMeans(Load(fs).value, u, AutoNames(fs));
    SetStepEffect(fs, u, fs');
  }
}
