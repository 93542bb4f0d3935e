/**
 * What `main` promises about the effects of one invocation, stated about
 * `Plan`, the specification the `Deploy` method is proved to follow.
 */
module DeploymentFacts {
  import opened Values
  import opened Completeness
  import opened Prompting
  import opened UnitFile
  import opened Commands
  import opened Deployment

  /** Effects that change the image, the directories, the unit or the service. */
  predicate IsDeployStep(a: Action)
  {
    a.ListImage? || a.Build? || a.MakeDir? || a.CopyFile? || a.CopyTree? || a.WriteUnit? ||
    a.DaemonReload? || a.StopUnit? || a.StartUnit? || a.EnableUnit?
  }

  /** Effects of the configuration step: prompting, giving up on an empty key, saving. */
  predicate Configures(a: Action)
  {
    a.Prompt? || a.ExitFailure? || a.Save?
  }

  predicate NoDeploySteps(t: seq<Action>)
  {
    forall a :: a in t ==> !IsDeployStep(a)
  }

  /** Every template copy reads an existing source and writes a destination that did not exist. */
  predicate CopiesAreFresh(t: seq<Action>, w: World)
  {
    forall a :: a in t && a.CopyFile? ==> a.dest !in w.existing && a.src in w.existing
  }

  /**
   * What every effect after the configuration step respects: it does not
   * configure, a template copy never overwrites, and the service is enabled
   * only when its start succeeded.
   */
  predicate Clean(t: seq<Action>, w: World)
  {
    forall a :: a in t ==>
      !Configures(a) &&
      (a.CopyFile? ==> a.dest !in w.existing && a.src in w.existing) &&
      (a.EnableUnit? ==> w.startExit == 0)
  }

  /** The image steps of a full deployment: the lookup unless forced, the build unless the image was listed. */
  function ImageSteps(f: Flags, w: World): seq<Action>
  {
    (if f.rebuild then [] else [ListImage(ImageTag)]) +
    (if f.rebuild || !ImageListed(w.imagesOutput) then [Build(ImageTag, w.scriptDir)] else [])
  }

  /** The invocation reaches the "Full deployment" part of `main`. */
  predicate Deploys(f: Flags, w: World)
  {
    !f.stop && !f.statusOnly && Settle(f, w).Ready? && !(Running(w.probeInMain) && !f.rebuild)
  }

  lemma CleanConcat(a: seq<Action>, b: seq<Action>, w: World)
    requires Clean(a, w) && Clean(b, w)
    ensures Clean(a + b, w)
  {
  }

  lemma CleanThen(a: seq<Action>, b: seq<Action>, w: World)
    requires Clean(a, w) && Clean(b, w)
    ensures Clean(Then(a, b), w)
  {
    if !Crashed(a) {
      CleanConcat(a, b, w);
    }
  }

  lemma NoDeployConcat(a: seq<Action>, b: seq<Action>)
    requires NoDeploySteps(a) && NoDeploySteps(b)
    ensures NoDeploySteps(a + b)
  {
  }

  /** The configuration step never deploys anything. */
  lemma SettleDeploysNothing(f: Flags, w: World)
    ensures forall a :: a in Settle(f, w).trace ==> Configures(a) || a.Crash?
    ensures NoDeploySteps(Settle(f, w).trace)
  {
  }

  /** Showing the status queries the service and shows its logs, and nothing else. */
  lemma StatusReportsOnly(c: Config, probe: Probe)
    ensures forall a :: a in StatusTrace(c, probe) ==> a.QueryActive? || a.ShowLogs? || a.Crash?
    ensures NoDeploySteps(StatusTrace(c, probe))
  {
  }

  lemma StatusClean(c: Config, w: World)
    ensures Clean(StatusTrace(c, w.probeInShowStatus), w)
  {
    StatusReportsOnly(c, w.probeInShowStatus);
  }

  lemma BuildKinds(force: bool, w: World)
    ensures forall a :: a in BuildTrace(force, w).1 ==> a.ListImage? || a.Build?
  {
  }

  lemma CopyKinds(w: World)
    ensures forall a :: a in CopyTrace(w) ==> a.CopyFile? || a.CopyTree?
  {
  }

  lemma BuildClean(force: bool, w: World)
    ensures Clean(BuildTrace(force, w).1, w)
  {
  }

  /** The directory step creates directories and nothing else, and raises exactly when the notebooks path is unusable. */
  lemma DirectoriesClean(home: string, c: Config, w: World)
    ensures forall a :: a in DirectoriesTrace(home, c) ==> a.MakeDir? || a.Crash?
    ensures Crashed(DirectoriesTrace(home, c)) <==> DirectoryTargets(home, c).Err?
    ensures Clean(DirectoriesTrace(home, c), w)
  {
  }

  lemma CopyClean(w: World)
    ensures Clean(CopyTrace(w), w)
  {
  }

  /** The unit step writes the unit and reloads systemd, and raises exactly when a setting is missing. */
  lemma InstallClean(home: string, c: Config, w: World)
    ensures forall a :: a in InstallTrace(home, c) ==> a.WriteUnit? || a.DaemonReload? || a.Crash?
    ensures Crashed(InstallTrace(home, c)) <==> SettingsFrom(c).Err?
    ensures Clean(InstallTrace(home, c), w)
  {
  }

  /**
   * The restart always starts the service, stops it first exactly when it
   * was running, and enables it exactly when the start succeeded; a failed
   * start is its last effect.
   */
  lemma RestartGates(w: World, c: Config, running: bool)
    ensures var r := RestartTrace(w, c, running);
            StartUnit in r && (StopUnit in r <==> running) && (EnableUnit in r <==> w.startExit == 0)
    ensures var r := RestartTrace(w, c, running);
            |r| > 0 && (r[|r| - 1] == StartUnit <==> w.startExit != 0)
    ensures Clean(RestartTrace(w, c, running), w)
  {
    StatusReportsOnly(c, w.probeInShowStatus);
    var r := RestartTrace(w, c, running);
    var stop := if running then [StopUnit] else [];
    var status := if w.startExit == 0 then StatusTrace(c, w.probeInShowStatus) else [];
    if w.startExit == 0 {
      assert r == stop + [StartUnit, EnableUnit] + status;
      if status != [] {
        assert r[|r| - 1] == status[|status| - 1];
        assert status[|status| - 1] in status;
      }
    } else {
      assert r == stop + [StartUnit];
    }
  }

  /** The full deployment respects `Clean`. */
  lemma DeployTraceClean(f: Flags, w: World, c: Config, running: bool)
    ensures Clean(DeployTrace(f, w, c, running), w)
  {
    var build := BuildTrace(f.rebuild, w).1;
    var dirs := DirectoriesTrace(w.home, c);
    var copies := CopyTrace(w);
    var install := InstallTrace(w.home, c);
    var restart := RestartTrace(w, c, running);
    BuildClean(f.rebuild, w);
    DirectoriesClean(w.home, c, w);
    CopyClean(w);
    InstallClean(w.home, c, w);
    RestartGates(w, c, running);
    CleanThen(install, restart, w);
    CleanConcat(copies, Then(install, restart), w);
    CleanThen(dirs, copies + Then(install, restart), w);
    CleanConcat(build, Then(dirs, copies + Then(install, restart)), w);
  }

  /** Everything after the configuration step respects `Clean`. */
  lemma AfterConfigClean(f: Flags, w: World, c: Config)
    ensures Clean(AfterConfig(f, w, c), w)
  {
    StatusClean(c, w);
    var running := Running(w.probeInMain);
    if !f.statusOnly {
      if running && !f.rebuild {
        CleanConcat([QueryActive], StatusTrace(c, w.probeInShowStatus), w);
      } else {
        DeployTraceClean(f, w, c, running);
        CleanConcat([QueryActive], DeployTrace(f, w, c, running), w);
      }
    }
  }

  /** Past --stop and a readable configuration, the run is the configuration step followed by what `main` does next. */
  lemma PlanAfterSettle(f: Flags, w: World)
    requires !f.stop && Settle(f, w).Ready?
    ensures Plan(f, w) == Settle(f, w).trace + AfterConfig(f, w, Settle(f, w).config)
  {
  }

  /** With --stop the only effect is one stop command, whatever the other flags and the stored configuration. */
  lemma StopOnlyStops(f: Flags, w: World)
    requires f.stop
    ensures Plan(f, w) == [StopUnit]
  {
  }

  /** A configuration file TOML cannot parse ends the run before anything else happens (unless --stop). */
  lemma UnreadableConfigEndsRun(f: Flags, w: World)
    requires !f.stop && w.stored == Unparseable
    ensures Plan(f, w) == [Crash(ConfigUnreadable)]
  {
  }

  /**
   * The configuration is prompted for and saved exactly when --reconfigure
   * is given or the stored configuration is incomplete; the prompts are
   * seeded with the stored configuration only under --reconfigure; an empty
   * API key ends the run, any other answer is saved.
   */
  lemma PromptOnlyWhenNeeded(f: Flags, w: World)
    requires !f.stop && LoadConfig(w.stored).Ok?
    ensures var loaded := LoadConfig(w.stored).value;
            (forall a :: a in Plan(f, w) ==> !Configures(a)) <==> !f.reconfigure && Complete(loaded)
    ensures var loaded := LoadConfig(w.stored).value;
            var seed := if f.reconfigure then loaded else map[];
            f.reconfigure || !Complete(loaded) ==>
              |Plan(f, w)| >= 2 && Plan(f, w)[0] == Prompt(seed) &&
              (if KeyAnswer(seed, w.answers) == "" then Plan(f, w) == [Prompt(seed), ExitFailure]
               else Plan(f, w)[1] == Save(PromptConfig(seed, w.answers, w.home).value))
  {
    var loaded := LoadConfig(w.stored).value;
    var s := Settle(f, w);
    if s.Ready? {
      AfterConfigClean(f, w, s.config);
      PlanAfterSettle(f, w);
      if f.reconfigure || !Complete(loaded) {
        assert Plan(f, w)[0] == s.trace[0];
        assert Prompt(s.trace[0].seed) in Plan(f, w);
      } else {
        assert Plan(f, w) == AfterConfig(f, w, s.config);
      }
    } else {
      assert Plan(f, w)[0] in Plan(f, w);
    }
  }

  /** With --status (and no --stop) the run, after any prompting, only shows the status: nothing is deployed. */
  lemma StatusOnlyShowsStatus(f: Flags, w: World)
    requires !f.stop && f.statusOnly && Settle(f, w).Ready?
    ensures Plan(f, w) == Settle(f, w).trace + StatusTrace(Settle(f, w).config, w.probeInShowStatus)
    ensures NoDeploySteps(Plan(f, w))
  {
    var c := Settle(f, w).config;
    PlanAfterSettle(f, w);
    assert AfterConfig(f, w, c) == StatusTrace(c, w.probeInShowStatus);
    SettleDeploysNothing(f, w);
    StatusReportsOnly(c, w.probeInShowStatus);
    NoDeployConcat(Settle(f, w).trace, StatusTrace(c, w.probeInShowStatus));
  }

  /** A running service without --rebuild is only reported on: no build, unit write, stop or start. */
  lemma RunningWithoutRebuildOnlyReports(f: Flags, w: World)
    requires !f.stop && !f.statusOnly && !f.rebuild && Settle(f, w).Ready? && Running(w.probeInMain)
    ensures Plan(f, w) == Settle(f, w).trace + ([QueryActive] + StatusTrace(Settle(f, w).config, w.probeInShowStatus))
    ensures NoDeploySteps(Plan(f, w))
  {
    var c := Settle(f, w).config;
    var report := [QueryActive] + StatusTrace(c, w.probeInShowStatus);
    PlanAfterSettle(f, w);
    assert AfterConfig(f, w, c) == report;
    SettleDeploysNothing(f, w);
    StatusReportsOnly(c, w.probeInShowStatus);
    NoDeployConcat([QueryActive], StatusTrace(c, w.probeInShowStatus));
    NoDeployConcat(Settle(f, w).trace, report);
  }

  /**
   * The steps of a full deployment in which neither the directory step nor
   * the unit step raises: the image steps, the three directories, the
   * template copies, the unit write and the daemon reload, then the restart.
   */
  function Unfaulted(f: Flags, w: World, c: Config, running: bool): seq<Action>
    requires DirectoryTargets(w.home, c).Ok? && SettingsFrom(c).Ok?
  {
    ImageSteps(f, w) +
    ([MakeDir(ConfigDir(w.home)), MakeDir(CacheDir(w.home)), MakeDir(Lookup(c, "paths", "notebooks_dir").value.s)] +
     (CopyTrace(w) +
      ([WriteUnit(ServiceFile(w.home), SettingsFrom(c).value), DaemonReload] +
       RestartTrace(w, c, running))))
  }

  lemma DeployTraceUnfaulted(f: Flags, w: World, c: Config, running: bool)
    requires DirectoryTargets(w.home, c).Ok? && SettingsFrom(c).Ok?
    ensures DeployTrace(f, w, c, running) == Unfaulted(f, w, c, running)
  {
    var dirs := DirectoryTargets(w.home, c).value;
    assert DirectoriesTrace(w.home, c) == [MakeDir(dirs[0]), MakeDir(dirs[1]), MakeDir(dirs[2])];
    assert !Crashed(DirectoriesTrace(w.home, c));
    assert !Crashed(InstallTrace(w.home, c));
    assert BuildTrace(f.rebuild, w).1 == ImageSteps(f, w);
  }

  /**
   * A full deployment that raises nothing performs, in this order: the image
   * lookup (unless --rebuild) and the build (forced by --rebuild, skipped
   * when the image is listed), the three directories, the template copies,
   * the unit write and the daemon reload, and the restart (see
   * `RestartGates`: stop only when the service was running, start, and the
   * enable and status report only after a successful start).
   */
  lemma FullDeploymentSteps(f: Flags, w: World)
    requires Deploys(f, w)
    requires DirectoryTargets(w.home, Settle(f, w).config).Ok?
    requires SettingsFrom(Settle(f, w).config).Ok?
    ensures Plan(f, w) == Settle(f, w).trace + ([QueryActive] + Unfaulted(f, w, Settle(f, w).config, Running(w.probeInMain)))
  {
    PlanAfterSettle(f, w);
    DeployTraceUnfaulted(f, w, Settle(f, w).config, Running(w.probeInMain));
  }

  /** A crash at the end of `b` ends `a + b` too, and adds no start to it. */
  lemma FaultAppended(a: seq<Action>, b: seq<Action>)
    requires StartUnit !in a && Crashed(b) && StartUnit !in b
    ensures Crashed(a + b) && StartUnit !in a + b
  {
    assert (a + b)[|a + b| - 1] == b[|b| - 1];
  }

  lemma DirectoryFault(f: Flags, w: World, c: Config, running: bool)
    requires DirectoryTargets(w.home, c).Err?
    ensures Crashed(DeployTrace(f, w, c, running))
    ensures StartUnit !in DeployTrace(f, w, c, running)
  {
    var build := BuildTrace(f.rebuild, w).1;
    var dirs := DirectoriesTrace(w.home, c);
    BuildClean(f.rebuild, w);
    BuildKinds(f.rebuild, w);
    DirectoriesClean(w.home, c, w);
    assert Then(dirs, CopyTrace(w) + Then(InstallTrace(w.home, c), RestartTrace(w, c, running))) == dirs;
    FaultAppended(build, dirs);
  }

  lemma UnitFault(f: Flags, w: World, c: Config, running: bool)
    requires DirectoryTargets(w.home, c).Ok? && SettingsFrom(c).Err?
    ensures Crashed(DeployTrace(f, w, c, running))
    ensures StartUnit !in DeployTrace(f, w, c, running)
  {
    var build := BuildTrace(f.rebuild, w).1;
    var dirs := DirectoriesTrace(w.home, c);
    var copies := CopyTrace(w);
    var install := InstallTrace(w.home, c);
    BuildKinds(f.rebuild, w);
    DirectoriesClean(w.home, c, w);
    CopyKinds(w);
    InstallClean(w.home, c, w);
    assert Then(install, RestartTrace(w, c, running)) == install;
    FaultAppended(copies, install);
    assert Then(dirs, copies + install) == dirs + (copies + install);
    FaultAppended(dirs, copies + install);
    FaultAppended(build, dirs + (copies + install));
  }

  lemma DeployTraceFault(f: Flags, w: World, c: Config, running: bool)
    requires DirectoryTargets(w.home, c).Err? || SettingsFrom(c).Err?
    ensures Crashed(DeployTrace(f, w, c, running))
    ensures StartUnit !in DeployTrace(f, w, c, running)
  {
    if DirectoryTargets(w.home, c).Err? {
      DirectoryFault(f, w, c, running);
    } else {
      UnitFault(f, w, c, running);
    }
  }

  /** A directory or unit step that raises ends the run: nothing is started. */
  lemma FaultEndsDeployment(f: Flags, w: World)
    requires Deploys(f, w)
    requires DirectoryTargets(w.home, Settle(f, w).config).Err? || SettingsFrom(Settle(f, w).config).Err?
    ensures Crashed(Plan(f, w))
    ensures StartUnit !in Plan(f, w)
  {
    var c := Settle(f, w).config;
    var deploy := DeployTrace(f, w, c, Running(w.probeInMain));
    DeployTraceFault(f, w, c, Running(w.probeInMain));
    SettleDeploysNothing(f, w);
    PlanAfterSettle(f, w);
    assert AfterConfig(f, w, c) == [QueryActive] + deploy;
    var p := Settle(f, w).trace + ([QueryActive] + deploy);
    assert p[|p| - 1] == deploy[|deploy| - 1];
  }

  lemma {:induction false} TemplateCopiesSameFiles(names: seq<string>, v: World, w: World)
    requires v.home == w.home && v.scriptDir == w.scriptDir && v.existing == w.existing
    ensures TemplateCopies(names, v) == TemplateCopies(names, w)
  {
    if names != [] {
      TemplateCopiesSameFiles(names[1..], v, w);
    }
  }

  /** Whether the build succeeds makes no difference to what follows it. */
  lemma BuildOutcomeDoesNotMatter(f: Flags, w: World, buildExit: int)
    ensures Plan(f, w.(buildExit := buildExit)) == Plan(f, w)
  {
    var v := w.(buildExit := buildExit);
    assert Settle(f, v) == Settle(f, w);
    if !f.stop && Settle(f, w).Ready? {
      var c := Settle(f, w).config;
      TemplateCopiesSameFiles(TemplateFiles, v, w);
      assert CopyTrace(v) == CopyTrace(w);
      assert BuildTrace(f.rebuild, v).1 == BuildTrace(f.rebuild, w).1;
      assert DeployTrace(f, v, c, Running(w.probeInMain)) == DeployTrace(f, w, c, Running(w.probeInMain));
      assert AfterConfig(f, v, c) == AfterConfig(f, w, c);
      PlanAfterSettle(f, v);
      PlanAfterSettle(f, w);
    }
  }

  /** In every run, the service is enabled only after a successful start. */
  lemma EnableNeedsStart(f: Flags, w: World)
    ensures EnableUnit in Plan(f, w) ==> w.startExit == 0
  {
    if !f.stop && Settle(f, w).Ready? {
      SettleDeploysNothing(f, w);
      AfterConfigClean(f, w, Settle(f, w).config);
      PlanAfterSettle(f, w);
    }
  }

  /** In every run, a template file is copied only from an existing source onto a destination that does not exist. */
  lemma CopiesNeverOverwrite(f: Flags, w: World)
    ensures CopiesAreFresh(Plan(f, w), w)
  {
    if !f.stop && Settle(f, w).Ready? {
      SettleDeploysNothing(f, w);
      AfterConfigClean(f, w, Settle(f, w).config);
      PlanAfterSettle(f, w);
    }
  }
}
