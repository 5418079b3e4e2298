/**
 * The driver of build_all.py: `build_one(platform)` runs `setup-build.sh
 * -DKernelPlatform=<platform>` and ninja in `build/<platform>` and, when both
 * exit with status 0, assembles `sdk/<platform>`; `main` creates `build/` and
 * `sdk/` and calls `build_one` for every platform of its list in order,
 * whatever the earlier calls returned, until one raises.
 *
 * Unlike build.py, both directories of a build are made without `parents`,
 * so a build relies on `build/` and `sdk/` existing when it starts.
 */
module BuildAllDriver {
  import opened Wrappers
  import opened Text
  import opened FsModel
  import opened SdkAssembly
  import opened Commands
  import opened ConfigOptions
  import opened BuildStep

  /** `PLATFORMS`, in list order (the commented-out RISC-V platforms are not part of it). */
  const PlatformList: seq<string> := [
    "allwinnerA20", "am335x", "apq8064", "bcm2837", "exynos4", "exynos5", "hikey",
    "imx31", "imx6", "imx7", "omap3", "tk1", "zynq7000", "fvp", "imx8mm-evk",
    "imx8mq-evk", "odroidc2", "rockpro64", "tx1", "tx2", "zynqmp", "pc99"
  ]

  /** `f"{build_script} -DKernelPlatform={platform}"`. */
  function SetupLine(script: string, platform: string): string {
    script + " -DKernelPlatform=" + platform
  }

  /** What `build_one(platform)` builds, and where. */
  function OneJob(script: string, platform: string): (job: Job)
    ensures Separate(job)
    ensures job.dir == ["build", platform] && job.sdk == ["sdk", platform]
  {
    var sdk := SdkPath + [platform];
    var dir := BuildPath + [platform];
    assert sdk[0] == "sdk" && dir[0] == "build";
    Job(dir, sdk, SetupLine(script, platform))
  }

  /** The setup command splits into the script and `-DKernelPlatform=<platform>`. */
  lemma SetupCommandWords(script: string, platform: string)
    requires IsWord(script) && IsWord(platform)
    ensures Words(OneJob(script, platform).configure) == [script, "-DKernelPlatform=" + platform]
  {
    var flag := "-DKernelPlatform=" + platform;
    SetupLineShape(script, platform);
    FlagIsWord(platform);
    WordThen(script, flag);
    WordsOfWord(flag);
  }

  lemma SetupLineShape(script: string, platform: string)
    ensures SetupLine(script, platform) == script + [' '] + ("-DKernelPlatform=" + platform)
  {
    assert " -DKernelPlatform=" == [' '] + "-DKernelPlatform=";
    assert script + ([' '] + "-DKernelPlatform=") + platform == script + [' '] + ("-DKernelPlatform=" + platform);
  }

  /** `build_one(platform)`, with `build_script` already resolved to `script`. */
  method BuildOne(fs: FileSystem, sh: Shell, script: string, platform: string)
    returns (ending: Ending, ran: seq<Command>)
    requires fs.Valid() && Confined(sh)
    modifies fs
    ensures fs.Valid()
    ensures Run(ending, ran, fs.nodes) == BuildRun(old(fs.nodes), sh, false, OneJob(script, platform))
  {
    var buildDir := BuildPath + [platform];
    var made := fs.Mkdir(buildDir, false, true);
    if made.Fail? {
      return Raised(FsFailed(made.error)), [];
    }
    var cmd := script + " -DKernelPlatform=" + platform;
    var job := Job(buildDir, SdkPath + [platform], cmd);
    var compiled;
    compiled, ran := CompileIn(fs, sh, job);
    ending := FinishBuild(fs, sh, false, job, compiled, ran);
  }

  /**
   * With no `sdk/<platform>` yet, the plain `sdk_dir.mkdir()` of the
   * assembly succeeds exactly when `sdk/` is a directory.
   */
  lemma SdkDirNeedsSdkRoot(n: Nodes, platform: string)
    requires WellFormed(n) && SdkPath + [platform] !in n
    ensures Reset(n, SdkPath + [platform], false).outcome.Pass? <==> IsDir(n, SdkPath)
  {
    var sdk := SdkPath + [platform];
    assert Parent(sdk) == SdkPath;
    OsMkdirPasses(n, sdk);
  }

  /**
   * A `build_one` that returns keeps `build/` and `sdk/`: everything outside
   * its own two directories is left as it was.
   */
  lemma BuildOneKeepsRoots(n: Nodes, sh: Shell, script: string, platform: string)
    requires WellFormed(n) && Confined(sh) && IsDir(n, BuildPath) && IsDir(n, SdkPath)
    ensures var r := BuildRun(n, sh, false, OneJob(script, platform));
      r.ending.Returned? ==> IsDir(r.nodes, BuildPath) && IsDir(r.nodes, SdkPath)
  {
    var job := OneJob(script, platform);
    BuildKeepsRest(n, sh, false, job);
    assert !(job.dir <= BuildPath) && !(job.sdk <= BuildPath) && !(job.dir <= SdkPath) && !(job.sdk <= SdkPath);
  }

  /** The tree a build starts from has `build/` and `sdk/`. */
  ghost predicate StartsWithRoots(before: Progress) {
    IsDir(before.nodes, BuildPath) && IsDir(before.nodes, SdkPath)
  }

  /** The builds of the listed platforms, in list order. */
  function PlatformJobs(script: string, platforms: seq<string>): seq<Job> {
    seq(|platforms|, i requires 0 <= i < |platforms| => OneJob(script, platforms[i]))
  }

  /**
   * `for platform in PLATFORMS: build_one(platform)`. When the loop starts
   * with `build/` and `sdk/`, every call starts with them too.
   */
  method BuildEach(fs: FileSystem, sh: Shell, script: string, platforms: seq<string>)
    returns (endings: seq<Ending>, ran: seq<Command>)
    requires fs.Valid() && Confined(sh)
    modifies fs
    ensures fs.Valid()
    ensures Progress(endings, ran, fs.nodes) == RunJobs(old(fs.nodes), sh, false, PlatformJobs(script, platforms))
    ensures |endings| <= |platforms|
    ensures IsDir(old(fs.nodes), BuildPath) && IsDir(old(fs.nodes), SdkPath) ==>
      forall i :: 0 <= i < |endings| ==> StartsWithRoots(RunJobs(old(fs.nodes), sh, false, PlatformJobs(script, platforms)[..i]))
  {
    ghost var n0 := fs.nodes;
    ghost var jobs := PlatformJobs(script, platforms);
    ghost var roots := IsDir(n0, BuildPath) && IsDir(n0, SdkPath);
    endings, ran := [], [];
    for i := 0 to |platforms|
      invariant fs.Valid()
      invariant Progress(endings, ran, fs.nodes) == RunJobs(n0, sh, false, jobs[..i])
      invariant !Stopped(endings) && |endings| == i
      invariant roots ==> forall j :: 0 <= j <= i ==> StartsWithRoots(RunJobs(n0, sh, false, jobs[..j]))
    {
      ghost var before := fs.nodes;
      assert WellFormed(before);
      var ending, ranHere := BuildOne(fs, sh, script, platforms[i]);
      RunJobsNext(n0, sh, false, jobs, i, Run(ending, ranHere, fs.nodes));
      if roots && ending.Returned? {
        RootsNext(n0, sh, script, platforms, i);
        assert forall j :: 0 <= j <= i + 1 ==> StartsWithRoots(RunJobs(n0, sh, false, jobs[..j])) by {
          forall j | 0 <= j <= i + 1
            ensures StartsWithRoots(RunJobs(n0, sh, false, jobs[..j]))
          {
            if j <= i {
              assert StartsWithRoots(RunJobs(n0, sh, false, jobs[..j]));
            }
          }
        }
      }
      endings, ran := endings + [ending], ran + ranHere;
      if ending.Raised? {
        RunJobsStop(n0, sh, false, jobs, i + 1);
        return;
      }
    }
    assert jobs[..|platforms|] == jobs;
  }

  /** A build that returns hands `build/` and `sdk/` on to the next. */
  lemma RootsNext(n0: Nodes, sh: Shell, script: string, platforms: seq<string>, i: nat)
    requires Confined(sh) && i < |platforms|
    requires var before := RunJobs(n0, sh, false, PlatformJobs(script, platforms)[..i]);
      WellFormed(before.nodes) && !Stopped(before.endings) && StartsWithRoots(before)
    requires !Stopped(RunJobs(n0, sh, false, PlatformJobs(script, platforms)[..i + 1]).endings)
    ensures StartsWithRoots(RunJobs(n0, sh, false, PlatformJobs(script, platforms)[..i + 1]))
  {
    var jobs := PlatformJobs(script, platforms);
    var before := RunJobs(n0, sh, false, jobs[..i]);
    var r := BuildRun(before.nodes, sh, false, jobs[i]);
    RunJobsNext(n0, sh, false, jobs, i, r);
    BuildOneKeepsRoots(before.nodes, sh, script, platforms[i]);
  }

  // ---------------------------------------------------------------------
  // `main`

  /** `main()`: how it ends (`Pass` for returning `None`), and the builds it made. */
  function MainRun(n: Nodes, sh: Shell, script: string): (Outcome<AssemblyError>, Progress) {
    var roots := MakeRoots(n);
    if roots.outcome.Fail? then (Fail(FsFailed(roots.outcome.error)), Progress([], [], roots.nodes))
    else
      var p := RunJobs(roots.nodes, sh, false, PlatformJobs(script, PlatformList));
      (Verdict(p), p)
  }

  /** The process's exit status under `sys.exit(main())`. */
  function ExitStatus(o: Outcome<AssemblyError>): int {
    if o.Pass? then 0 else 1
  }

  method RunMain(fs: FileSystem, sh: Shell, script: string)
    returns (outcome: Outcome<AssemblyError>, endings: seq<Ending>, ran: seq<Command>)
    requires fs.Valid() && Confined(sh)
    modifies fs
    ensures fs.Valid()
    ensures (outcome, Progress(endings, ran, fs.nodes)) == MainRun(old(fs.nodes), sh, script)
  {
    endings, ran := [], [];
    var roots := MakeRootDirs(fs);
    if roots.Fail? {
      return Fail(FsFailed(roots.error)), endings, ran;
    }
    endings, ran := BuildEach(fs, sh, script, PlatformList);
    if Stopped(endings) {
      outcome := Fail(endings[|endings| - 1].error);
    } else {
      outcome := Pass;
    }
  }

  /**
   * `main` calls `build_one` for the platforms in list order and returns
   * normally, exit status 0, exactly when none of them raised, whatever they
   * returned; every platform was then built.
   */
  lemma MainBuildsEveryPlatform(n: Nodes, sh: Shell, script: string)
    ensures var (outcome, p) := MainRun(n, sh, script);
      && (outcome.Pass? <==> MakeRoots(n).outcome.Pass? && forall i :: 0 <= i < |p.endings| ==> p.endings[i].Returned?)
      && (outcome.Pass? ==> |p.endings| == |PlatformList| && ExitStatus(outcome) == 0)
      && (outcome.Fail? ==> ExitStatus(outcome) == 1)
  {
    var roots := MakeRoots(n);
    if roots.outcome.Pass? {
      VerdictOfJobs(roots.nodes, sh, false, PlatformJobs(script, PlatformList));
    }
  }

  /** The `i`-th build of `main` is `build_one` of the `i`-th listed platform. */
  lemma MainBuildsInListOrder(n: Nodes, sh: Shell, script: string, i: nat)
    requires MakeRoots(n).outcome.Pass?
    requires i < |PlatformList| && i < |MainRun(n, sh, script).1.endings|
    ensures var jobs := PlatformJobs(script, PlatformList);
      var p := MainRun(n, sh, script).1;
      var before := RunJobs(MakeRoots(n).nodes, sh, false, jobs[..i]);
      && jobs[i] == OneJob(script, PlatformList[i])
      && before.endings + [BuildRun(before.nodes, sh, false, jobs[i]).ending] <= p.endings
  {
    var jobs := PlatformJobs(script, PlatformList);
    RunJobsContinue(MakeRoots(n).nodes, sh, false, jobs);
    RunJobsInOrder(MakeRoots(n).nodes, sh, false, jobs, i);
  }
}
