/**
 * What `build` in build.py and `build_one` in build_all.py have in common:
 * create the build directory, run a configure command and then ninja inside
 * it, and only when both exit with status 0 assemble the SDK directory; and
 * what the two `main`s have in common: create `build/` and `sdk/`, then make
 * one build after another, whatever the earlier ones returned, until one
 * raises.
 */
module BuildStep {
  import opened Wrappers
  import opened FsModel
  import opened SdkAssembly
  import opened SdkGenerator
  import opened Commands

  /** `BUILD_PATH` and `SDK_PATH`, relative to the directory the scripts run in. */
  const BuildPath: Path := ["build"]
  const SdkPath: Path := ["sdk"]

  /** How a call ends: the value it returns (`None` when it falls off the end), or the exception it raises. */
  datatype Ending = Returned(code: Option<int>) | Raised(error: AssemblyError)

  /** A call's ending, the commands it ran, and the tree it leaves. */
  datatype Run = Run(ending: Ending, ran: seq<Command>, nodes: Nodes)

  /** One build: its build directory, its SDK directory, and the command line that configures it. */
  datatype Job = Job(dir: Path, sdk: Path, configure: string)

  function ConfigureCall(job: Job): Command {
    Command(job.dir, job.configure)
  }

  function NinjaCall(job: Job): Command {
    Command(job.dir, NinjaLine)
  }

  /**
   * The `with cwd(build_dir)` block: the configure command, then ninja if it
   * exited with 0; `return 1` after the first that does not, otherwise the
   * block is left normally (`None`).
   */
  function Compile(m: Nodes, sh: Shell, job: Job): Run {
    var configure := ConfigureCall(job);
    var configured := sh.effect(configure, m);
    if sh.status(configure, m) != 0 then Run(Returned(Some(1)), [configure], configured)
    else
      var ninja := NinjaCall(job);
      var code := if sh.status(ninja, configured) != 0 then Some(1) else None;
      Run(Returned(code), [configure, ninja], sh.effect(ninja, configured))
  }

  /**
   * One build: `build_dir.mkdir(exist_ok=True)` (with `parents` in build.py),
   * the commands, and `generate_sdk_directory(build_dir, sdk_dir)` after both
   * succeeded. Its exceptions propagate; otherwise it returns 1 or `None`.
   */
  function BuildRun(n: Nodes, sh: Shell, parents: bool, job: Job): Run {
    var made := MkdirStep(n, job.dir, parents, true);
    if made.outcome.Fail? then Run(Raised(FsFailed(made.outcome.error)), [], made.nodes)
    else
      var c := Compile(made.nodes, sh, job);
      if c.ending != Returned(None) then c
      else
        var a := Assemble(c.nodes, job.dir, job.sdk, parents);
        Run(if a.outcome.Fail? then Raised(a.outcome.error) else Returned(None), c.ran, a.nodes)
  }

  method CompileIn(fs: FileSystem, sh: Shell, job: Job) returns (ending: Ending, ran: seq<Command>)
    requires fs.Valid() && Confined(sh)
    modifies fs
    ensures fs.Valid()
    ensures Run(ending, ran, fs.nodes) == Compile(old(fs.nodes), sh, job)
  {
    var cmd := Command(job.dir, job.configure);
    var r := System(fs, sh, cmd);
    ran := [cmd];
    if r != 0 {
      return Returned(Some(1)), ran;
    }
    var ninja := Command(job.dir, NinjaLine);
    r := System(fs, sh, ninja);
    ran := ran + [ninja];
    if r != 0 {
      return Returned(Some(1)), ran;
    }
    ending := Returned(None);
  }

  /** What follows the commands: nothing if one failed, otherwise the assembly. */
  method FinishBuild(fs: FileSystem, sh: Shell, parents: bool, job: Job, compiled: Ending, ran: seq<Command>)
    returns (ending: Ending)
    requires fs.Valid() && |job.sdk| > 0
    modifies fs
    ensures fs.Valid()
    ensures compiled != Returned(None) ==> ending == compiled && fs.nodes == old(fs.nodes)
    ensures compiled == Returned(None) ==>
      var a := Assemble(old(fs.nodes), job.dir, job.sdk, parents);
      ending == (if a.outcome.Fail? then Raised(a.outcome.error) else Returned(None)) && fs.nodes == a.nodes
  {
    if compiled != Returned(None) {
      return compiled;
    }
    var generated := GenerateSdkDirectory(fs, job.dir, job.sdk, parents);
    if generated.Fail? {
      return Raised(generated.error);
    }
    ending := Returned(None);
  }

  // ---------------------------------------------------------------------
  // What one build does

  /** The SDK directory is a proper path apart from the build directory and from the library sources. */
  predicate Separate(job: Job) {
    |job.sdk| > 0 && Apart(job.sdk, job.dir) && Apart(job.sdk, SourceLib)
  }

  /**
   * The commands return 1 exactly when one of them exited with a non-zero
   * status, and ninja runs only after the configure command exited with 0.
   */
  lemma CompileEndings(m: Nodes, sh: Shell, job: Job)
    ensures var c := Compile(m, sh, job);
      var configured := sh.effect(ConfigureCall(job), m);
      && c.ending.Returned?
      && (c.ending.code == None <==> sh.status(ConfigureCall(job), m) == 0 && sh.status(NinjaCall(job), configured) == 0)
      && (c.ending.code != None ==> c.ending.code == Some(1))
      && (c.ran == [ConfigureCall(job), NinjaCall(job)] <==> sh.status(ConfigureCall(job), m) == 0)
      && (c.ran == [ConfigureCall(job)] <==> sh.status(ConfigureCall(job), m) != 0)
  {
  }

  /** Keeping what lies outside `dir`, and adding only directories above it, compose. */
  lemma KeptTrans(n1: Nodes, n2: Nodes, n3: Nodes, dir: Path)
    requires KeptOutside(n1, n2, dir) && AddedAbove(n1, n2, dir)
    requires KeptOutside(n2, n3, dir) && AddedAbove(n2, n3, dir)
    ensures KeptOutside(n1, n3, dir) && AddedAbove(n1, n3, dir)
  {
  }

  /** Confined commands run in the build directory keep everything outside it. */
  lemma CompileConfined(m: Nodes, sh: Shell, job: Job)
    requires WellFormed(m) && Confined(sh)
    ensures var c := Compile(m, sh, job).nodes;
      WellFormed(c) && KeptOutside(m, c, job.dir) && AddedAbove(m, c, job.dir)
  {
    var configured := sh.effect(ConfigureCall(job), m);
    ConfinedKeeps(sh, ConfigureCall(job), m);
    ConfinedKeeps(sh, NinjaCall(job), configured);
    KeptTrans(m, configured, sh.effect(NinjaCall(job), configured), job.dir);
  }

  /** Creating the build directory adds only it and its ancestors. */
  lemma MkdirKept(n: Nodes, dir: Path, parents: bool, existOk: bool)
    ensures var m := MkdirStep(n, dir, parents, existOk).nodes;
      KeptOutside(n, m, dir) && AddedAbove(n, m, dir)
  {
    MkdirOnlyAdds(n, dir, parents, existOk);
  }

  /** The tree the commands leave, as `BuildRun` goes through them. */
  function Compiled(n: Nodes, sh: Shell, parents: bool, job: Job): Nodes {
    Compile(MkdirStep(n, job.dir, parents, true).nodes, sh, job).nodes
  }

  /** Up to the assembly, a build keeps everything outside its build directory. */
  lemma CompiledKept(n: Nodes, sh: Shell, parents: bool, job: Job)
    requires WellFormed(n) && Confined(sh)
    ensures var c := Compiled(n, sh, parents, job);
      WellFormed(c) && KeptOutside(n, c, job.dir) && AddedAbove(n, c, job.dir)
  {
    var made := MkdirStep(n, job.dir, parents, true).nodes;
    MkdirKept(n, job.dir, parents, true);
    MkdirKeepsWellFormed(n, job.dir, parents, true);
    CompileConfined(made, sh, job);
    KeptTrans(n, made, Compiled(n, sh, parents, job), job.dir);
  }

  /**
   * How a build ends: 1 exactly when the build directory was made and one of
   * the commands failed; `None` only when both succeeded and the assembly
   * did too; an exception from `mkdir` before any command, or else from the
   * assembly after both commands.
   */
  lemma BuildEndings(n: Nodes, sh: Shell, parents: bool, job: Job)
    ensures var r := BuildRun(n, sh, parents, job);
      var made := MkdirStep(n, job.dir, parents, true);
      var c := Compile(made.nodes, sh, job);
      && (r.ending == Returned(Some(1)) <==> made.outcome.Pass? && c.ending == Returned(Some(1)))
      && (r.ending == Returned(None) ==>
           made.outcome.Pass? && c.ending == Returned(None)
           && Assemble(c.nodes, job.dir, job.sdk, parents).outcome.Pass?)
      && (r.ending.Raised? ==>
           (made.outcome.Fail? && r.ran == []) || (c.ending == Returned(None) && r.ran == c.ran))
      && (r.ran == [] <==> made.outcome.Fail?)
  {
    CompileEndings(MkdirStep(n, job.dir, parents, true).nodes, sh, job);
  }

  /**
   * A build in which a command failed keeps everything outside its build
   * directory, and adds nothing there but directories above it.
   */
  lemma FailedBuildKeepsRest(n: Nodes, sh: Shell, parents: bool, job: Job)
    requires WellFormed(n) && Confined(sh)
    ensures var r := BuildRun(n, sh, parents, job);
      r.ending == Returned(Some(1)) ==> KeptOutside(n, r.nodes, job.dir) && AddedAbove(n, r.nodes, job.dir)
  {
    CompiledKept(n, sh, parents, job);
  }

  /**
   * A build that returns keeps everything outside its build directory and its
   * SDK directory, and adds nothing else but directories above them.
   */
  lemma BuildKeepsRest(n: Nodes, sh: Shell, parents: bool, job: Job)
    requires WellFormed(n) && Confined(sh) && Separate(job)
    ensures var r := BuildRun(n, sh, parents, job);
      r.ending.Returned? ==>
        && (forall k :: k in n && !(job.dir <= k) && !(job.sdk <= k) ==> k in r.nodes && r.nodes[k] == n[k])
        && (forall k :: k in r.nodes && k !in n && !(job.dir <= k) && !(job.sdk <= k) ==>
              (k < job.dir || k < job.sdk) && r.nodes[k] == Dir)
  {
    var r := BuildRun(n, sh, parents, job);
    CompiledKept(n, sh, parents, job);
    if r.ending == Returned(None) {
      AssembledKept(n, sh, parents, job);
    }
  }

  lemma AssembledKept(n: Nodes, sh: Shell, parents: bool, job: Job)
    requires WellFormed(n) && Confined(sh) && Separate(job)
    requires BuildRun(n, sh, parents, job).ending == Returned(None)
    ensures var r := BuildRun(n, sh, parents, job);
      && (forall k :: k in n && !(job.dir <= k) && !(job.sdk <= k) ==> k in r.nodes && r.nodes[k] == n[k])
      && (forall k :: k in r.nodes && k !in n && !(job.dir <= k) && !(job.sdk <= k) ==>
            (k < job.dir || k < job.sdk) && r.nodes[k] == Dir)
  {
    var compiled := Compiled(n, sh, parents, job);
    CompiledKept(n, sh, parents, job);
    AssemblyKeepsOutside(compiled, job.dir, job.sdk, parents);
    assert BuildRun(n, sh, parents, job).nodes == Assemble(compiled, job.dir, job.sdk, parents).nodes;
  }

  /**
   * A build that returns `None` leaves the kernel image, the library and
   * every header of the SDK as the tree the commands left had them.
   */
  lemma BuiltSdkHasFiles(n: Nodes, sh: Shell, parents: bool, job: Job)
    requires WellFormed(n) && Confined(sh) && Separate(job)
    ensures var r := BuildRun(n, sh, parents, job);
      var compiled := Compiled(n, sh, parents, job);
      r.ending == Returned(None) ==>
        && ReadCache(compiled, job.dir).Ok?
        && forall e :: e in SdkFiles(ReadCache(compiled, job.dir).value, job.dir, job.sdk) ==>
             IsFile(compiled, e.1) && e.0 in r.nodes && r.nodes[e.0] == FileAt(compiled, e.1)
  {
    var compiled := Compiled(n, sh, parents, job);
    CompiledKept(n, sh, parents, job);
    AssembledFiles(compiled, job.dir, job.sdk, parents);
  }

  // ---------------------------------------------------------------------
  // The loop of `main`

  /** The loop has stopped: the last build raised, and the exception leaves `main`. */
  predicate Stopped(endings: seq<Ending>) {
    |endings| > 0 && endings[|endings| - 1].Raised?
  }

  /** The endings of the builds made so far, the commands run, and the tree. */
  datatype Progress = Progress(endings: seq<Ending>, ran: seq<Command>, nodes: Nodes)

  /** `for ... in ...: build(...)`, the return values discarded. */
  function RunJobs(n: Nodes, sh: Shell, parents: bool, jobs: seq<Job>): Progress
    decreases |jobs|
  {
    if |jobs| == 0 then Progress([], [], n)
    else
      var before := RunJobs(n, sh, parents, jobs[..|jobs| - 1]);
      if Stopped(before.endings) then before
      else
        var r := BuildRun(before.nodes, sh, parents, jobs[|jobs| - 1]);
        Progress(before.endings + [r.ending], before.ran + r.ran, r.nodes)
  }

  /**
   * The loop goes on past builds that return 1 and stops only at one that
   * raises: at most one ending per build, only the last may be an exception,
   * and without one every build was made.
   */
  lemma {:induction false} RunJobsContinue(n: Nodes, sh: Shell, parents: bool, jobs: seq<Job>)
    ensures var p := RunJobs(n, sh, parents, jobs);
      && |p.endings| <= |jobs|
      && (forall i :: 0 <= i < |p.endings| - 1 ==> p.endings[i].Returned?)
      && (!Stopped(p.endings) ==> |p.endings| == |jobs|)
    decreases |jobs|
  {
    if |jobs| > 0 {
      RunJobsContinue(n, sh, parents, jobs[..|jobs| - 1]);
    }
  }

  /**
   * The builds are made in list order: the `i`-th starts from the tree the
   * ones before it left, and its ending and commands follow theirs.
   */
  lemma {:induction false} RunJobsInOrder(n: Nodes, sh: Shell, parents: bool, jobs: seq<Job>, i: nat)
    requires i < |jobs| && i < |RunJobs(n, sh, parents, jobs).endings|
    ensures var before := RunJobs(n, sh, parents, jobs[..i]);
      var r := BuildRun(before.nodes, sh, parents, jobs[i]);
      && !Stopped(before.endings) && |before.endings| == i
      && before.endings + [r.ending] <= RunJobs(n, sh, parents, jobs).endings
      && before.ran + r.ran <= RunJobs(n, sh, parents, jobs).ran
    decreases |jobs|
  {
    var init := jobs[..|jobs| - 1];
    var q := RunJobs(n, sh, parents, init);
    RunJobsContinue(n, sh, parents, init);
    RunJobsPrefix(n, sh, parents, jobs);
    if i < |q.endings| {
      RunJobsInOrder(n, sh, parents, init, i);
      assert init[..i] == jobs[..i] && init[i] == jobs[i];
    } else {
      assert init == jobs[..i];
    }
  }

  /** One more build only extends what the loop has recorded so far. */
  lemma RunJobsPrefix(n: Nodes, sh: Shell, parents: bool, jobs: seq<Job>)
    requires |jobs| > 0
    ensures var p := RunJobs(n, sh, parents, jobs);
      var q := RunJobs(n, sh, parents, jobs[..|jobs| - 1]);
      q.endings <= p.endings && q.ran <= p.ran
  {
  }

  /** The loop's next build, made as long as none has raised. */
  lemma RunJobsNext(n: Nodes, sh: Shell, parents: bool, jobs: seq<Job>, i: nat, r: Run)
    requires i < |jobs| && !Stopped(RunJobs(n, sh, parents, jobs[..i]).endings)
    requires r == BuildRun(RunJobs(n, sh, parents, jobs[..i]).nodes, sh, parents, jobs[i])
    ensures var before := RunJobs(n, sh, parents, jobs[..i]);
      RunJobs(n, sh, parents, jobs[..i + 1]) == Progress(before.endings + [r.ending], before.ran + r.ran, r.nodes)
  {
    assert jobs[..i + 1][..i] == jobs[..i];
  }

  /** Once stopped, the remaining builds are not made. */
  lemma {:induction false} RunJobsStop(n: Nodes, sh: Shell, parents: bool, jobs: seq<Job>, j: nat)
    requires j <= |jobs| && Stopped(RunJobs(n, sh, parents, jobs[..j]).endings)
    ensures RunJobs(n, sh, parents, jobs) == RunJobs(n, sh, parents, jobs[..j])
    decreases |jobs|
  {
    if j == |jobs| {
      assert jobs[..j] == jobs;
    } else {
      var init := jobs[..|jobs| - 1];
      assert init[..j] == jobs[..j];
      RunJobsStop(n, sh, parents, init, j);
    }
  }

  /** How the loop leaves `main`: normally, or with the exception of the build that raised it. */
  function Verdict(p: Progress): Outcome<AssemblyError> {
    if Stopped(p.endings) then Fail(p.endings[|p.endings| - 1].error) else Pass
  }

  /**
   * The loop ends normally exactly when no build raised, and then every build
   * was made; otherwise it ends with the exception of its last build, every
   * earlier one having returned.
   */
  lemma VerdictOfJobs(n: Nodes, sh: Shell, parents: bool, jobs: seq<Job>)
    ensures var p := RunJobs(n, sh, parents, jobs);
      && (Verdict(p).Pass? <==> forall i :: 0 <= i < |p.endings| ==> p.endings[i].Returned?)
      && (Verdict(p).Pass? ==> |p.endings| == |jobs|)
      && (Verdict(p).Fail? ==>
           && |p.endings| > 0 && p.endings[|p.endings| - 1] == Raised(Verdict(p).error)
           && forall i :: 0 <= i < |p.endings| - 1 ==> p.endings[i].Returned?)
  {
    RunJobsContinue(n, sh, parents, jobs);
  }

  /** `BUILD_PATH.mkdir(exist_ok=True)` and then `SDK_PATH.mkdir(exist_ok=True)`. */
  function MakeRoots(n: Nodes): Step {
    var b := MkdirStep(n, BuildPath, false, true);
    if b.outcome.Fail? then b else MkdirStep(b.nodes, SdkPath, false, true)
  }

  method MakeRootDirs(fs: FileSystem) returns (outcome: Outcome<FsError>)
    requires fs.Valid()
    modifies fs
    ensures fs.Valid()
    ensures Step(outcome, fs.nodes) == MakeRoots(old(fs.nodes))
  {
    outcome := fs.Mkdir(BuildPath, false, true);
    if outcome.Fail? {
      return;
    }
    outcome := fs.Mkdir(SdkPath, false, true);
  }

  /** After the two calls, `build/` and `sdk/` are directories, and nothing else changed. */
  lemma RootsMade(n: Nodes)
    requires WellFormed(n)
    ensures var s := MakeRoots(n);
      && WellFormed(s.nodes)
      && (s.outcome.Pass? ==> IsDir(s.nodes, BuildPath) && IsDir(s.nodes, SdkPath))
      && (forall k :: k in n ==> k in s.nodes && s.nodes[k] == n[k])
      && (forall k :: k in s.nodes && k !in n ==> k == BuildPath || k == SdkPath)
  {
    var b := MkdirStep(n, BuildPath, false, true);
    MkdirMakesDir(n, BuildPath, false, true);
    MkdirOnlyAdds(n, BuildPath, false, true);
    MkdirKeepsWellFormed(n, BuildPath, false, true);
    MkdirMakesDir(b.nodes, SdkPath, false, true);
    MkdirOnlyAdds(b.nodes, SdkPath, false, true);
    MkdirKeepsWellFormed(b.nodes, SdkPath, false, true);
    forall k | k in MakeRoots(n).nodes && k !in n
      ensures k == BuildPath || k == SdkPath
    {
      assert k != [];
      assert k <= BuildPath || k <= SdkPath;
    }
  }
}
