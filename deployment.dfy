/**
 * `main` and the steps it runs, as the sequence of effects one invocation
 * performs. Everything the deployer observes (the stored configuration, the
 * user's answers, the files that exist, the output and exit status of each
 * external command) is a field of `World`; each step returns the effects
 * it performed. The `...Trace` functions say what each step does; the
 * methods, which follow the source step by step, are proved to do exactly
 * that.
 */
module Deployment {
  import opened Values
  import opened Completeness
  import opened Prompting
  import opened UnitFile
  import opened Commands

  /** The tag `build_image` looks for and builds; the unit runs `container.image_name` instead. */
  const ImageTag := "localhost/jupyter-lab:latest"

  /** The templates `copy_jupyter_config` copies one by one, in this order. */
  const TemplateFiles: seq<string> := ["jupyter_lab_config.py", "ipython_kernel_config.py"]

  function ConfigDir(home: string): string { home + "/.config/jupyter-lab" }
  function CacheDir(home: string): string { home + "/.local/share/jupyter-lab/.uv-cache" }
  function ServiceFile(home: string): string { home + "/.config/systemd/user/jupyter-lab.service" }
  function TemplateDir(scriptDir: string): string { scriptDir + "/jupyter_config_template" }

  /** The command-line flags --rebuild, --reconfigure, --status and --stop. */
  datatype Flags = Flags(rebuild: bool, reconfigure: bool, statusOnly: bool, stop: bool)

  /** What `load_config` finds: no file (an empty configuration), a parsed file, or one TOML cannot parse. */
  datatype Stored = NoFile | Parsed(config: Config) | Unparseable

  /**
   * Everything one invocation observes. `probeInMain` answers the
   * `is-active` query `main` makes before deciding to deploy,
   * `probeInShowStatus` the one `show_status` makes; `imagesOutput` is what
   * `podman images -q` prints; the exit codes are those of `podman build`,
   * `daemon-reload`, `stop`, `start` and `enable`; `existing` holds the
   * paths that exist when the templates are copied.
   */
  datatype World = World(
    home: string, scriptDir: string, stored: Stored, answers: Answers, existing: set<string>,
    probeInMain: Probe, probeInShowStatus: Probe, imagesOutput: string,
    buildExit: int, reloadExit: int, stopExit: int, startExit: int, enableExit: int)

  /** An effect of the deployer on the system, in the order it happens. */
  datatype Action =
    | StopUnit                               // systemctl --user stop jupyter-lab.service
    | Prompt(seed: Config)                   // the configuration prompts, offering defaults from `seed`
    | ExitFailure                            // sys.exit(1) after an empty API key
    | Save(config: Config)                   // save_config
    | QueryActive                            // systemctl --user is-active jupyter-lab.service
    | ListImage(tag: string)                 // podman images -q <tag>
    | Build(tag: string, context: string)    // podman build -t <tag> <context>
    | MakeDir(path: string)                  // mkdir -p
    | CopyFile(src: string, dest: string)    // shutil.copy2
    | CopyTree(src: string, dest: string)    // shutil.copytree(..., dirs_exist_ok=True)
    | WriteUnit(path: string, unit: UnitSettings)  // write UnitText(unit) to the unit file, creating its directory
    | DaemonReload                           // systemctl --user daemon-reload
    | StartUnit                              // systemctl --user start jupyter-lab.service
    | EnableUnit                             // systemctl --user enable jupyter-lab.service
    | ShowLogs                               // journalctl --user -u jupyter-lab.service -n 10
    | Crash(fault: Fault)                    // an exception nothing catches ends the run

  predicate Crashed(t: seq<Action>)
  {
    t != [] && t[|t| - 1].Crash?
  }

  /** `a` followed by `b`, unless `a` ended in an uncaught exception. */
  function Then(a: seq<Action>, b: seq<Action>): seq<Action>
  {
    if Crashed(a) then a else a + b
  }

  /**
   * `load_config`: the stored configuration as TOML parsed it, with no
   * defaults filled in; a missing file is the empty configuration, and a
   * file TOML cannot parse raises.
   */
  function LoadConfig(s: Stored): (r: Result<Config, Fault>)
    ensures r.Err? <==> s.Unparseable?
    ensures r.Err? ==> r.error == ConfigUnreadable
    ensures r.Ok? ==> r.value == if s.Parsed? then s.config else map[]
  {
    match s
    case NoFile => Ok(map[])
    case Parsed(c) => Ok(c)
    case Unparseable => Err(ConfigUnreadable)
  }

  /** `stop_service`: one stop command; true when it exited with status 0. */
  function StopTrace(w: World): (bool, seq<Action>)
  {
    (w.stopExit == 0, [StopUnit])
  }

  /**
   * `build_image(force)`: unless forced, looks the image up and returns true
   * without building when it is listed; otherwise builds it and returns
   * whether the build exited with status 0.
   */
  function BuildTrace(force: bool, w: World): (bool, seq<Action>)
  {
    if !force && ImageListed(w.imagesOutput) then (true, [ListImage(ImageTag)])
    else (w.buildExit == 0, (if force then [] else [ListImage(ImageTag)]) + [Build(ImageTag, w.scriptDir)])
  }

  /**
   * The list `create_directories` builds before creating anything:
   * `Path(config["paths"]["notebooks_dir"])` raises on a missing key or a
   * value that is not a string.
   */
  function DirectoryTargets(home: string, c: Config): Result<seq<string>, Fault>
  {
    match Lookup(c, "paths", "notebooks_dir")
    case None => Err(MissingKey("paths", "notebooks_dir"))
    case Some(v) => if v.Str? then Ok([ConfigDir(home), CacheDir(home), v.s]) else Err(NotAPath(v))
  }

  function MakeDirs(dirs: seq<string>): (r: seq<Action>)
    ensures |r| == |dirs|
    ensures forall k :: 0 <= k < |r| ==> r[k] == MakeDir(dirs[k])
  {
    if dirs == [] then [] else [MakeDir(dirs[0])] + MakeDirs(dirs[1..])
  }

  /** `create_directories`: one mkdir per directory (a failing mkdir is reported and skipped). */
  function DirectoriesTrace(home: string, c: Config): seq<Action>
  {
    match DirectoryTargets(home, c)
    case Ok(dirs) => MakeDirs(dirs)
    case Err(fault) => [Crash(fault)]
  }

  /** One template of `copy_jupyter_config`: copied only when the destination is absent and the source exists. */
  function CopyStep(name: string, w: World): seq<Action>
  {
    var dest := ConfigDir(w.home) + "/" + name;
    var src := TemplateDir(w.scriptDir) + "/" + name;
    if dest !in w.existing && src in w.existing then [CopyFile(src, dest)] else []
  }

  /**
   * The template copies: never onto an existing file, never from a missing
   * one, and every template whose destination is absent and whose source
   * exists is copied.
   */
  function TemplateCopies(names: seq<string>, w: World): (r: seq<Action>)
    ensures forall a :: a in r ==> a.CopyFile? && a.dest !in w.existing && a.src in w.existing
    ensures forall n :: n in names && ConfigDir(w.home) + "/" + n !in w.existing &&
                        TemplateDir(w.scriptDir) + "/" + n in w.existing ==>
                          CopyFile(TemplateDir(w.scriptDir) + "/" + n, ConfigDir(w.home) + "/" + n) in r
  {
    if names == [] then []
    else
      assert forall n :: n in names ==> n == names[0] || n in names[1..];
      CopyStep(names[0], w) + TemplateCopies(names[1..], w)
  }

  /** `copy_jupyter_config`: the two templates, then the IPython tree whenever its source exists. */
  function CopyTrace(w: World): seq<Action>
  {
    var ipython := TemplateDir(w.scriptDir) + "/ipython";
    TemplateCopies(TemplateFiles, w) +
    (if ipython in w.existing then [CopyTree(ipython, ConfigDir(w.home) + "/ipython")] else [])
  }

  /** `install_systemd_service`: renders the unit, writes it, reloads systemd (whatever the reload's status). */
  function InstallTrace(home: string, c: Config): seq<Action>
  {
    match SettingsFrom(c)
    case Ok(u) => [WriteUnit(ServiceFile(home), u), DaemonReload]
    case Err(fault) => [Crash(fault)]
  }

  /** `start_service`: start, and enable only after a successful start; true when the start succeeded. */
  function StartTrace(w: World): (bool, seq<Action>)
  {
    if w.startExit == 0 then (true, [StartUnit, EnableUnit]) else (false, [StartUnit])
  }

  /**
   * `show_status`: queries the service; when it is running, formats the
   * port and the notebooks directory (a missing key raises) and shows the logs.
   */
  function StatusTrace(c: Config, probe: Probe): seq<Action>
  {
    [QueryActive] +
    if !Running(probe) then []
    else if Lookup(c, "container", "port").None? then [Crash(MissingKey("container", "port"))]
    else if Lookup(c, "paths", "notebooks_dir").None? then [Crash(MissingKey("paths", "notebooks_dir"))]
    else [ShowLogs]
  }

  /** The end of a full deployment: stop when it was running, start, and show the status after a successful start. */
  function RestartTrace(w: World, c: Config, running: bool): seq<Action>
  {
    (if running then StopTrace(w).1 else []) + StartTrace(w).1 +
    (if StartTrace(w).0 then StatusTrace(c, w.probeInShowStatus) else [])
  }

  /** The full deployment of `main` (lines after "Full deployment"). */
  function DeployTrace(f: Flags, w: World, c: Config, running: bool): seq<Action>
  {
    BuildTrace(f.rebuild, w).1 +
    Then(DirectoriesTrace(w.home, c),
         CopyTrace(w) + Then(InstallTrace(w.home, c), RestartTrace(w, c, running)))
  }

  /** What `main` does once the configuration is settled. */
  function AfterConfig(f: Flags, w: World, c: Config): seq<Action>
  {
    if f.statusOnly then StatusTrace(c, w.probeInShowStatus)
    else
      var running := Running(w.probeInMain);
      [QueryActive] +
      if running && !f.rebuild then StatusTrace(c, w.probeInShowStatus) else DeployTrace(f, w, c, running)
  }

  /** Loading the configuration and prompting for it: the run either halts or continues with a configuration. */
  datatype Settled = Halted(trace: seq<Action>) | Ready(trace: seq<Action>, config: Config)

  function Settle(f: Flags, w: World): Settled
  {
    match LoadConfig(w.stored)
    case Err(fault) => Halted([Crash(fault)])
    case Ok(loaded) =>
      if f.reconfigure || !Complete(loaded) then
        var seed := if f.reconfigure then loaded else map[];
        match PromptConfig(seed, w.answers, w.home)
        case None => Halted([Prompt(seed), ExitFailure])
        case Some(c) => Ready([Prompt(seed), Save(c)], c)
      else Ready([], loaded)
  }

  /** The effects of one invocation of `main`. */
  function Plan(f: Flags, w: World): seq<Action>
  {
    if f.stop then StopTrace(w).1
    else
      match Settle(f, w)
      case Halted(t) => t
      case Ready(t, c) => t + AfterConfig(f, w, c)
  }

  lemma {:induction false} MakeDirsAppend(dirs: seq<string>, d: string)
    ensures MakeDirs(dirs + [d]) == MakeDirs(dirs) + [MakeDir(d)]
  {
    if dirs != [] {
      assert (dirs + [d])[1..] == dirs[1..] + [d];
      MakeDirsAppend(dirs[1..], d);
    }
  }

  lemma {:induction false} TemplateCopiesAppend(names: seq<string>, name: string, w: World)
    ensures TemplateCopies(names + [name], w) == TemplateCopies(names, w) + CopyStep(name, w)
  {
    if names != [] {
      assert (names + [name])[1..] == names[1..] + [name];
      TemplateCopiesAppend(names[1..], name, w);
    } else {
      assert TemplateCopies([name], w) == CopyStep(name, w) + TemplateCopies([], w);
    }
  }

  /** `stop_service`. */
  method StopService(w: World) returns (ok: bool, acts: seq<Action>)
    ensures (ok, acts) == StopTrace(w)
  {
    acts := [StopUnit];
    var r := RunCommand(w.stopExit, "Failed to stop service", true);
    ok := r.Ok? && r.value;
  }

  /** `build_image`. */
  method BuildImage(force: bool, w: World) returns (ok: bool, acts: seq<Action>)
    ensures (ok, acts) == BuildTrace(force, w)
  {
    acts := [];
    if !force {
      acts := [ListImage(ImageTag)];
      if ImageListed(w.imagesOutput) {
        return true, acts;
      }
    }
    acts := acts + [Build(ImageTag, w.scriptDir)];
    var r := RunCommand(w.buildExit, "Failed to build image", true);
    ok := r.Ok? && r.value;
  }

  /** `create_directories`. */
  method CreateDirectories(home: string, c: Config) returns (acts: seq<Action>)
    ensures acts == DirectoriesTrace(home, c)
  {
    var targets := DirectoryTargets(home, c);
    if targets.Err? {
      return [Crash(targets.error)];
    }
    var dirs := targets.value;
    acts := [];
    for i := 0 to |dirs|
      invariant acts == MakeDirs(dirs[..i])
    {
      MakeDirsAppend(dirs[..i], dirs[i]);
      assert dirs[..i + 1] == dirs[..i] + [dirs[i]];
      acts := acts + [MakeDir(dirs[i])];
    }
    assert dirs[..|dirs|] == dirs;
  }

  /** `copy_jupyter_config`. */
  method CopyJupyterConfig(w: World) returns (acts: seq<Action>)
    ensures acts == CopyTrace(w)
  {
    acts := [];
    for i := 0 to |TemplateFiles|
      invariant acts == TemplateCopies(TemplateFiles[..i], w)
    {
      var name := TemplateFiles[i];
      var dest := ConfigDir(w.home) + "/" + name;
      var src := TemplateDir(w.scriptDir) + "/" + name;
      TemplateCopiesAppend(TemplateFiles[..i], name, w);
      assert TemplateFiles[..i + 1] == TemplateFiles[..i] + [name];
      if dest !in w.existing && src in w.existing {
        acts := acts + [CopyFile(src, dest)];
      }
    }
    assert TemplateFiles[..|TemplateFiles|] == TemplateFiles;
    var ipython := TemplateDir(w.scriptDir) + "/ipython";
    if ipython in w.existing {
      acts := acts + [CopyTree(ipython, ConfigDir(w.home) + "/ipython")];
    }
  }

  /** `install_systemd_service`. */
  method InstallSystemdService(c: Config, w: World) returns (acts: seq<Action>)
    ensures acts == InstallTrace(w.home, c)
  {
    var settings := SettingsFrom(c);
    if settings.Err? {
      return [Crash(settings.error)];
    }
    acts := [WriteUnit(ServiceFile(w.home), settings.value)];
    var reloaded := RunCommand(w.reloadExit, "Failed to reload systemd", true);
    acts := acts + [DaemonReload];
  }

  /** `start_service`. */
  method StartService(w: World) returns (ok: bool, acts: seq<Action>)
    ensures (ok, acts) == StartTrace(w)
  {
    var started := RunCommand(w.startExit, "Failed to start service", true);
    if started.Ok? && started.value {
      var enabled := RunCommand(w.enableExit, "Failed to enable service", true);
      return true, [StartUnit, EnableUnit];
    }
    return false, [StartUnit];
  }

  /** `show_status`. */
  method ShowStatus(c: Config, probe: Probe) returns (acts: seq<Action>)
    ensures acts == StatusTrace(c, probe)
  {
    acts := [QueryActive];
    var status := ServiceStatus(probe);
    if status.0 {
      if Lookup(c, "container", "port").None? {
        return acts + [Crash(MissingKey("container", "port"))];
      }
      if Lookup(c, "paths", "notebooks_dir").None? {
        return acts + [Crash(MissingKey("paths", "notebooks_dir"))];
      }
      acts := acts + [ShowLogs];
    }
  }

  /** The "Full deployment" part of `main`, after the running check. */
  method FullDeployment(f: Flags, w: World, config: Config, running: bool) returns (acts: seq<Action>)
    ensures acts == DeployTrace(f, w, config, running)
  {
    var built, buildActs := BuildImage(f.rebuild, w);
    var dirActs := CreateDirectories(w.home, config);
    if Crashed(dirActs) {
      return buildActs + dirActs;
    }
    var copyActs := CopyJupyterConfig(w);
    var unitActs := InstallSystemdService(config, w);
    if Crashed(unitActs) {
      return buildActs + (dirActs + (copyActs + unitActs));
    }
    var tail := RestartService(w, config, running);
    acts := buildActs + (dirActs + (copyActs + (unitActs + tail)));
  }

  /** The end of `main`: stop the running service, start it, and show the status after a successful start. */
  method RestartService(w: World, config: Config, running: bool) returns (acts: seq<Action>)
    ensures acts == RestartTrace(w, config, running)
  {
    acts := [];
    if running {
      var stopped, stopActs := StopService(w);
      acts := stopActs;
    }
    var started, startActs := StartService(w);
    acts := acts + startActs;
    if started {
      var statusActs := ShowStatus(config, w.probeInShowStatus);
      acts := acts + statusActs;
    }
  }

  /** The start of `main`: load the configuration and prompt for it when --reconfigure is given or it is incomplete. */
  method Configure(f: Flags, w: World) returns (ready: bool, trace: seq<Action>, config: Config)
    ensures ready ==> Settle(f, w) == Ready(trace, config)
    ensures !ready ==> Settle(f, w) == Halted(trace)
  {
    var loaded := LoadConfig(w.stored);
    if loaded.Err? {
      return false, [Crash(loaded.error)], map[];
    }
    config := loaded.value;
    var complete, missing := IsConfigComplete(config);
    if f.reconfigure || !complete {
      var seed := if f.reconfigure then config else map[];
      var answered := PromptConfig(seed, w.answers, w.home);
      if answered.None? {
        return false, [Prompt(seed), ExitFailure], config;
      }
      config := answered.value;
      return true, [Prompt(seed), Save(config)], config;
    }
    return true, [], config;
  }

  /** The rest of `main`, once the configuration is settled. */
  method Proceed(f: Flags, w: World, config: Config) returns (acts: seq<Action>)
    ensures acts == AfterConfig(f, w, config)
  {
    if f.statusOnly {
      acts := ShowStatus(config, w.probeInShowStatus);
      return;
    }
    var running := ServiceStatus(w.probeInMain).0;
    if running && !f.rebuild {
      acts := ShowStatus(config, w.probeInShowStatus);
    } else {
      acts := FullDeployment(f, w, config, running);
    }
    acts := [QueryActive] + acts;
  }

  /** `main`: the effects of one invocation with flags `f` in world `w`. */
  method Deploy(f: Flags, w: World) returns (trace: seq<Action>)
    ensures trace == Plan(f, w)
  {
    if f.stop {
      var stopped, acts := StopService(w);
      return acts;
    }
    var ready, config;
    ready, trace, config := Configure(f, w);
    if ready {
      var rest := Proceed(f, w, config);
      trace := trace + rest;
    }
  }
}
