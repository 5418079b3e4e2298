/**
 * The driver of build.py: `build(platform, configuration)` configures with
 * cmake and compiles with ninja in `build/<platform>/<configuration>`, and
 * only when both exit with status 0 assembles `sdk/<platform>/<configuration>`;
 * `main` creates `build/` and `sdk/`, selects the pairs to build and builds
 * each in turn, whatever the earlier builds returned, until one raises.
 *
 * The platform table is a parameter `t`; the script's own table is
 * `BuildMatrix.Platforms`, whose platform names occur once each.
 */
module BuildDriver {
  import opened Wrappers
  import opened Text
  import opened FsModel
  import opened SdkAssembly
  import opened ConfigOptions
  import opened BuildMatrix
  import opened Commands
  import opened BuildStep

  function BuildDir(platform: string, configuration: string): Path {
    BuildPath + [platform, configuration]
  }

  function SdkDir(platform: string, configuration: string): Path {
    SdkPath + [platform, configuration]
  }

  /** The cmake command line of `build(platform, configuration)`. */
  function CMakeLine(t: Table, source: string, platform: string, configuration: string): string
    requires Declared(t, platform, configuration)
  {
    CMakeCommand(platform, OptionsText(OverridesOf(ConfigsOf(t, platform), configuration)), source)
  }

  /** What `build(platform, configuration)` builds, and where. */
  function BuildJob(t: Table, source: string, platform: string, configuration: string): (job: Job)
    requires Declared(t, platform, configuration)
    ensures Separate(job)
    ensures job.dir == ["build", platform, configuration] && job.sdk == ["sdk", platform, configuration]
  {
    assert SdkDir(platform, configuration)[0] == "sdk" && BuildDir(platform, configuration)[0] == "build";
    Job(BuildDir(platform, configuration), SdkDir(platform, configuration), CMakeLine(t, source, platform, configuration))
  }

  /**
   * The command `build` runs first splits into `cmake`, `-GNinja`,
   * `-DKernelPlatform=<platform>`, the configuration's overrides in
   * ascending name order, and the source directory.
   */
  lemma BuildCommandWords(t: Table, source: string, platform: string, configuration: string)
    requires Declared(t, platform, configuration)
    requires IsWord(platform) && IsWord(source)
    requires Plain(OverridesOf(ConfigsOf(t, platform), configuration))
    ensures var m := OverridesOf(ConfigsOf(t, platform), configuration);
      Words(BuildJob(t, source, platform, configuration).configure)
        == ["cmake", "-GNinja", "-DKernelPlatform=" + platform] + Defines(SortedKeys(m.Keys), m) + [source]
  {
    CMakeCommandWords(platform, OverridesOf(ConfigsOf(t, platform), configuration), source);
  }

  /** `build(platform, configuration)`. */
  method Build(fs: FileSystem, sh: Shell, t: Table, source: string, platform: string, configuration: string)
    returns (ending: Ending, ran: seq<Command>)
    requires fs.Valid() && Confined(sh) && Declared(t, platform, configuration)
    modifies fs
    ensures fs.Valid()
    ensures Run(ending, ran, fs.nodes) == BuildRun(old(fs.nodes), sh, true, BuildJob(t, source, platform, configuration))
  {
    var buildDir := BuildPath + [platform, configuration];
    var made := fs.Mkdir(buildDir, true, true);
    if made.Fail? {
      return Raised(FsFailed(made.error)), [];
    }
    var configArgs := OverridesOf(ConfigsOf(t, platform), configuration);
    var configStr := RenderOptions(configArgs);
    var cmd := CMakeCommand(platform, configStr, source);
    var job := Job(buildDir, SdkPath + [platform, configuration], cmd);
    var compiled;
    compiled, ran := CompileIn(fs, sh, job);
    ending := FinishBuild(fs, sh, true, job, compiled, ran);
  }

  /** The builds of the selected pairs, in their order. */
  function Jobs(t: Table, source: string, targets: seq<(string, string)>): seq<Job>
    requires forall i :: 0 <= i < |targets| ==> Declared(t, targets[i].0, targets[i].1)
  {
    seq(|targets|, i requires 0 <= i < |targets| => BuildJob(t, source, targets[i].0, targets[i].1))
  }

  /** `for platform, configuration in builds: build(platform, configuration)`. */
  method BuildAll(fs: FileSystem, sh: Shell, t: Table, source: string, targets: seq<(string, string)>)
    returns (endings: seq<Ending>, ran: seq<Command>)
    requires fs.Valid() && Confined(sh)
    requires forall i :: 0 <= i < |targets| ==> Declared(t, targets[i].0, targets[i].1)
    modifies fs
    ensures fs.Valid()
    ensures Progress(endings, ran, fs.nodes) == RunJobs(old(fs.nodes), sh, true, Jobs(t, source, targets))
  {
    ghost var n0 := fs.nodes;
    ghost var jobs := Jobs(t, source, targets);
    endings, ran := [], [];
    for i := 0 to |targets|
      invariant fs.Valid()
      invariant Progress(endings, ran, fs.nodes) == RunJobs(n0, sh, true, jobs[..i])
      invariant !Stopped(endings)
    {
      var ending, ranHere := Build(fs, sh, t, source, targets[i].0, targets[i].1);
      RunJobsNext(n0, sh, true, jobs, i, Run(ending, ranHere, fs.nodes));
      endings, ran := endings + [ending], ran + ranHere;
      if ending.Raised? {
        RunJobsStop(n0, sh, true, jobs, i + 1);
        return;
      }
    }
    assert jobs[..|targets|] == jobs;
  }

  // ---------------------------------------------------------------------
  // `main`

  /** How `main` ends: it returns `None`, `parser.error` exits, or an exception escapes. */
  datatype Exit = Finished | UsageError(usage: SelectionError) | Crashed(error: AssemblyError)

  /** The process's exit status under `sys.exit(main())`: 0 for `None`, 2 from `parser.error`, 1 for an exception. */
  function ExitStatus(e: Exit): int {
    match e
    case Finished => 0
    case UsageError(_) => 2
    case Crashed(_) => 1
  }

  /** A loop that ends normally lets `main` return `None`; an exception escapes it. */
  function ExitOf(v: Outcome<AssemblyError>): Exit {
    if v.Pass? then Finished else Crashed(v.error)
  }

  /** `main()`, with the command line already parsed into `args`. */
  function MainRun(t: Table, n: Nodes, sh: Shell, source: string, args: Args): (Exit, Progress)
    requires KeysOnce(t)
  {
    var roots := MakeRoots(n);
    if roots.outcome.Fail? then (Crashed(FsFailed(roots.outcome.error)), Progress([], [], roots.nodes))
    else
      SelectionSound(t, args);
      match Selection(t, args)
      case Err(e) => (UsageError(e), Progress([], [], roots.nodes))
      case Ok(targets) =>
        var p := RunJobs(roots.nodes, sh, true, Jobs(t, source, targets));
        (ExitOf(Verdict(p)), p)
  }

  method RunMain(fs: FileSystem, sh: Shell, t: Table, source: string, args: Args)
    returns (exit: Exit, endings: seq<Ending>, ran: seq<Command>)
    requires fs.Valid() && Confined(sh) && KeysOnce(t)
    modifies fs
    ensures fs.Valid()
    ensures (exit, Progress(endings, ran, fs.nodes)) == MainRun(t, old(fs.nodes), sh, source, args)
  {
    endings, ran := [], [];
    var roots := MakeRootDirs(fs);
    if roots.Fail? {
      return Crashed(FsFailed(roots.error)), endings, ran;
    }
    var builds := SelectTargets(t, args);
    if builds.Err? {
      return UsageError(builds.error), endings, ran;
    }
    SelectionSound(t, args);
    endings, ran := BuildAll(fs, sh, t, source, builds.value);
    if Stopped(endings) {
      exit := Crashed(endings[|endings| - 1].error);
    } else {
      exit := Finished;
    }
    assert exit == ExitOf(Verdict(Progress(endings, ran, fs.nodes)));
  }

  /**
   * `main` creates `build/` and `sdk/` before it parses its arguments: a
   * usage error comes exactly when both were made and the selection was
   * refused, and leaves both directories and no build.
   */
  lemma UsageErrorAfterDirs(t: Table, n: Nodes, sh: Shell, source: string, args: Args)
    requires WellFormed(n) && KeysOnce(t)
    ensures var (exit, p) := MainRun(t, n, sh, source, args);
      && (exit.UsageError? <==> MakeRoots(n).outcome.Pass? && Selection(t, args).Err?)
      && (exit.UsageError? ==>
           exit.usage == Selection(t, args).error
           && IsDir(p.nodes, BuildPath) && IsDir(p.nodes, SdkPath) && p.endings == [] && p.ran == [])
  {
    RootsMade(n);
  }

  /**
   * A `--platform` or `--configuration` outside its `choices` makes argparse
   * exit with status 2, after both directories were made and before any build.
   */
  lemma InvalidChoiceAfterDirs(t: Table, n: Nodes, sh: Shell, source: string, args: Args)
    requires WellFormed(n) && KeysOnce(t) && MakeRoots(n).outcome.Pass? && !Admitted(t, args)
    ensures var (exit, p) := MainRun(t, n, sh, source, args);
      && exit == UsageError(NotAChoice) && ExitStatus(exit) == 2
      && IsDir(p.nodes, BuildPath) && IsDir(p.nodes, SdkPath) && p.endings == [] && p.ran == []
  {
    UsageErrorAfterDirs(t, n, sh, source, args);
    SelectionErrors(t, args);
  }

  /** Once the directories are made and the selection accepted, `main` ends as its loop does. */
  lemma MainRunsLoop(t: Table, n: Nodes, sh: Shell, source: string, args: Args, targets: seq<(string, string)>)
    requires KeysOnce(t)
    requires MakeRoots(n).outcome.Pass? && Selection(t, args) == Ok(targets)
    requires forall i :: 0 <= i < |targets| ==> Declared(t, targets[i].0, targets[i].1)
    ensures var p := RunJobs(MakeRoots(n).nodes, sh, true, Jobs(t, source, targets));
      MainRun(t, n, sh, source, args) == (ExitOf(Verdict(p)), p)
  {
  }

  /**
   * `main` returns normally, exit status 0, exactly when the directories were
   * made, the selection was accepted and no build raised, even if some of them
   * returned 1; every selected pair was then built.
   */
  lemma MainIgnoresReturnedCodes(t: Table, n: Nodes, sh: Shell, source: string, args: Args)
    requires KeysOnce(t)
    ensures var (exit, p) := MainRun(t, n, sh, source, args);
      && (exit == Finished <==>
           MakeRoots(n).outcome.Pass? && Selection(t, args).Ok? && forall i :: 0 <= i < |p.endings| ==> p.endings[i].Returned?)
      && (exit == Finished ==> |p.endings| == |Selection(t, args).value|)
  {
    if MakeRoots(n).outcome.Pass? && Selection(t, args).Ok? {
      SelectionSound(t, args);
      var jobs := Jobs(t, source, Selection(t, args).value);
      MainRunsLoop(t, n, sh, source, args, Selection(t, args).value);
      VerdictOfJobs(MakeRoots(n).nodes, sh, true, jobs);
    }
  }

  /**
   * An exception stops `main` at the build that raised it: exit status 1,
   * with the builds before it all returned.
   */
  lemma CrashStopsMain(t: Table, n: Nodes, sh: Shell, source: string, args: Args)
    requires KeysOnce(t)
    ensures var (exit, p) := MainRun(t, n, sh, source, args);
      exit.Crashed? && |p.endings| > 0 ==>
        && ExitStatus(exit) == 1 && p.endings[|p.endings| - 1] == Raised(exit.error)
        && forall i :: 0 <= i < |p.endings| - 1 ==> p.endings[i].Returned?
  {
    if MakeRoots(n).outcome.Pass? && Selection(t, args).Ok? {
      SelectionSound(t, args);
      var jobs := Jobs(t, source, Selection(t, args).value);
      MainRunsLoop(t, n, sh, source, args, Selection(t, args).value);
      VerdictOfJobs(MakeRoots(n).nodes, sh, true, jobs);
    }
  }
}
