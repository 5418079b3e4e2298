/**
 * `generate_sdk_directory(build_dir, sdk_dir)` as the scripts run it: the
 * filesystem calls made one after the other on the mutable filesystem,
 * stopping at the first one that raises. Each method is proved to leave what
 * the function of `SdkAssembly` for the same stage describes, and every
 * `shutil.copy` is proved to go into a directory that exists at that point.
 */
module SdkGenerator {
  import opened Wrappers
  import opened Text
  import opened CMakeCache
  import opened FsModel
  import opened SdkAssembly

  /** One filesystem call, its OSError turned into the assembly's error. */
  method Call(fs: FileSystem, op: Op) returns (outcome: Outcome<AssemblyError>)
    requires fs.Valid()
    requires op.RmtreeOp? ==> op.path != []
    requires op.CopyOp? ==> IsDir(fs.nodes, op.dst)
    modifies fs
    ensures fs.Valid()
    ensures Assembled(outcome, fs.nodes) == Lift(Apply(old(fs.nodes), op))
  {
    var o: Outcome<FsError>;
    match op {
      case RmtreeOp(p) => o := fs.Rmtree(p);
      case MkdirOp(p, parents, existOk) => o := fs.Mkdir(p, parents, existOk);
      case CopyOp(src, dst) => o := fs.Copy(src, dst);
      case CopytreeOp(src, dst) => o := fs.Copytree(src, dst);
    }
    outcome := Lift(Step(o, fs.nodes)).outcome;
  }

  /** `parse_cmake_cache(build_dir / "CMakeCache.txt")`. */
  method ReadCacheFile(fs: FileSystem, build: Path) returns (r: Result<Cache, AssemblyError>)
    ensures r == ReadCache(fs.nodes, build)
  {
    var text := fs.ReadText(CacheFile(build));
    if text.Err? {
      return Err(Unreadable(text.error));
    }
    var parsed := ParseCMakeCache(Lines(text.value));
    if parsed.Err? {
      return Err(Malformed(parsed.error));
    }
    r := Ok(parsed.value);
  }

  /** `if sdk_dir.exists(): rmtree(sdk_dir)`, then `sdk_dir.mkdir(...)`. */
  method ResetSdk(fs: FileSystem, sdk: Path, parents: bool) returns (outcome: Outcome<AssemblyError>)
    requires fs.Valid() && |sdk| > 0
    modifies fs
    ensures fs.Valid()
    ensures Assembled(outcome, fs.nodes) == Reset(old(fs.nodes), sdk, parents)
  {
    var present := fs.Exists(sdk);
    if present {
      outcome := Call(fs, RmtreeOp(sdk));
      if outcome.Fail? {
        return;
      }
    }
    outcome := Call(fs, MkdirOp(sdk, parents, false));
  }

  /** A new directory, and one file copied into it. */
  method MkdirAndCopy(fs: FileSystem, dir: Path, src: Path) returns (outcome: Outcome<AssemblyError>)
    requires fs.Valid()
    modifies fs
    ensures fs.Valid()
    ensures Assembled(outcome, fs.nodes) == Do(Do(Assembled(Pass, old(fs.nodes)), MkdirOp(dir, false, false)), CopyOp(src, dir))
  {
    ghost var before := fs.nodes;
    outcome := Call(fs, MkdirOp(dir, false, false));
    if outcome.Fail? {
      return;
    }
    MkdirMakesDir(before, dir, false, false);
    outcome := Call(fs, CopyOp(src, dir));
  }

  /** The `bin`, `lib` and `include` directories, up to the copy of the public headers. */
  method MakeSkeleton(fs: FileSystem, build: Path, sdk: Path) returns (outcome: Outcome<AssemblyError>)
    requires fs.Valid()
    modifies fs
    ensures fs.Valid()
    ensures Assembled(outcome, fs.nodes) == Skeleton(Assembled(Pass, old(fs.nodes)), build, sdk)
    ensures outcome.Pass? ==> HasDir(fs.nodes, Include(sdk)) && HasDir(fs.nodes, IncludeSel4(sdk))
  {
    outcome := MkdirAndCopy(fs, Bin(sdk), KernelImage(build));
    if outcome.Fail? {
      return;
    }
    outcome := MkdirAndCopy(fs, Lib(sdk), Library(build));
    if outcome.Fail? {
      return;
    }
    ghost var before := fs.nodes;
    outcome := Call(fs, MkdirOp(Include(sdk), false, false));
    if outcome.Fail? {
      return;
    }
    MkdirMakesDir(before, Include(sdk), false, false);
    ghost var made := fs.nodes;
    outcome := Call(fs, CopytreeOp(BaseInclude, IncludeSel4(sdk)));
    if outcome.Pass? {
      CopytreeMakesDir(made, BaseInclude, IncludeSel4(sdk));
      assert |IncludeSel4(sdk)| > |Include(sdk)|;
      CopytreeKeepsOthers(made, BaseInclude, IncludeSel4(sdk), Include(sdk));
    }
  }

  /** Which axes come after `arch` and after `sel4_arch`. */
  lemma AxisLeaves()
    ensures Axes[0].leaf == "arch" && Axes[1].leaf == "sel4_arch"
    ensures forall i :: 0 < i < |Axes| ==> Axes[i].leaf != "arch"
    ensures forall i :: 1 < i < |Axes| ==> Axes[i].leaf != "sel4_arch"
  {
  }

  /** One more round of the loop over the axes, once its variant has been looked up. */
  lemma AxisTreesNext(a: Assembled, vars: Cache, sdk: Path, i: nat)
    requires i < |Axes| && PathPart(vars, Axes[i].key).Ok?
    ensures AxisTrees(a, vars, sdk, Axes[..i + 1])
      == Do(AxisTrees(a, vars, sdk, Axes[..i]), CopytreeOp(AxisSource(Axes[i], PathPart(vars, Axes[i].key).value), AxisTarget(sdk, Axes[i])))
  {
    assert Axes[..i + 1][..i] == Axes[..i];
  }

  /** `copytree(base / variant / "sel4" / leaf, sdk / "include" / "sel4" / leaf)` for axis `i`. */
  method CopyAxisTree(fs: FileSystem, sdk: Path, i: nat, part: string) returns (outcome: Outcome<AssemblyError>)
    requires fs.Valid() && i < |Axes|
    requires HasDir(fs.nodes, Include(sdk)) && HasDir(fs.nodes, IncludeSel4(sdk))
    requires i > 0 ==> HasDir(fs.nodes, ArchDir(sdk))
    requires i > 1 ==> HasDir(fs.nodes, Sel4ArchDir(sdk))
    modifies fs
    ensures fs.Valid()
    ensures Assembled(outcome, fs.nodes) == Do(Assembled(Pass, old(fs.nodes)), CopytreeOp(AxisSource(Axes[i], part), AxisTarget(sdk, Axes[i])))
    ensures outcome.Pass? ==> HasDir(fs.nodes, Include(sdk)) && HasDir(fs.nodes, IncludeSel4(sdk))
    ensures outcome.Pass? ==> HasDir(fs.nodes, ArchDir(sdk)) && (i > 0 ==> HasDir(fs.nodes, Sel4ArchDir(sdk)))
  {
    ghost var before := fs.nodes;
    var src := AxisSource(Axes[i], part);
    var dst := AxisTarget(sdk, Axes[i]);
    outcome := Call(fs, CopytreeOp(src, dst));
    if outcome.Pass? {
      AxisLeaves();
      CopytreeMakesDir(before, src, dst);
      assert |dst| > |IncludeSel4(sdk)| > |Include(sdk)|;
      CopytreeKeepsOthers(before, src, dst, Include(sdk));
      CopytreeKeepsOthers(before, src, dst, IncludeSel4(sdk));
      if i > 0 {
        SiblingsApart(IncludeSel4(sdk), Axes[i].leaf, "arch");
        CopytreeKeepsOthers(before, src, dst, ArchDir(sdk));
      }
      if i > 1 {
        SiblingsApart(IncludeSel4(sdk), Axes[i].leaf, "sel4_arch");
        CopytreeKeepsOthers(before, src, dst, Sel4ArchDir(sdk));
      }
    }
  }

  /** The `for cmake_var, base_dir, leaf_dir in [...]` loop: look the variant up, then copy its tree. */
  method CopyAxisTrees(fs: FileSystem, vars: Cache, sdk: Path) returns (outcome: Outcome<AssemblyError>)
    requires fs.Valid() && HasDir(fs.nodes, Include(sdk)) && HasDir(fs.nodes, IncludeSel4(sdk))
    modifies fs
    ensures fs.Valid()
    ensures Assembled(outcome, fs.nodes) == AxisTrees(Assembled(Pass, old(fs.nodes)), vars, sdk, Axes)
    ensures outcome.Pass? ==> HeaderDirs(fs.nodes, sdk)
  {
    ghost var a0 := Assembled(Pass, fs.nodes);
    for i := 0 to |Axes|
      invariant fs.Valid()
      invariant Assembled(Pass, fs.nodes) == AxisTrees(a0, vars, sdk, Axes[..i])
      invariant HasDir(fs.nodes, Include(sdk)) && HasDir(fs.nodes, IncludeSel4(sdk))
      invariant i > 0 ==> HasDir(fs.nodes, ArchDir(sdk))
      invariant i > 1 ==> HasDir(fs.nodes, Sel4ArchDir(sdk))
    {
      var part := PathPart(vars, Axes[i].key);
      if part.Err? {
        outcome := Fail(part.error);
        AxisTreesStop(a0, vars, sdk, Axes, i);
        return;
      }
      outcome := CopyAxisTree(fs, sdk, i, part.value);
      AxisTreesNext(a0, vars, sdk, i);
      if outcome.Fail? {
        AxisTreesFailureSticks(a0, vars, sdk, Axes, i + 1);
        return;
      }
    }
    outcome := Pass;
    assert Axes[..|Axes|] == Axes;
  }

  /** `copy_file(src, dir)` of a generated header into one of the header directories, which all stay. */
  method CopyHeaderInto(fs: FileSystem, sdk: Path, src: Path, dir: Path) returns (outcome: Outcome<AssemblyError>)
    requires fs.Valid() && HeaderDirs(fs.nodes, sdk)
    requires dir == Include(sdk) || dir == IncludeSel4(sdk) || dir == ArchDir(sdk) || dir == Sel4ArchDir(sdk)
    requires Basename(src) != "sel4" && Basename(src) != "arch" && Basename(src) != "sel4_arch"
    modifies fs
    ensures fs.Valid()
    ensures Assembled(outcome, fs.nodes) == Do(Assembled(Pass, old(fs.nodes)), CopyOp(src, dir))
    ensures outcome.Pass? ==> HeaderDirs(fs.nodes, sdk)
  {
    ghost var before := fs.nodes;
    outcome := Call(fs, CopyOp(src, dir));
    if outcome.Pass? {
      var t := dir + [Basename(src)];
      assert CopyTarget(before, src, dir) == t;
      assert |Include(sdk)| == |sdk| + 1 && |IncludeSel4(sdk)| == |sdk| + 2;
      assert |ArchDir(sdk)| == |sdk| + 3 && |Sel4ArchDir(sdk)| == |sdk| + 3;
      if dir == Include(sdk) {
        DifferAt(t, IncludeSel4(sdk), |sdk| + 1);
      } else if dir == IncludeSel4(sdk) {
        DifferAt(t, ArchDir(sdk), |sdk| + 2);
        DifferAt(t, Sel4ArchDir(sdk), |sdk| + 2);
      }
      CopyKeepsOthers(before, src, dir, Include(sdk));
      CopyKeepsOthers(before, src, dir, IncludeSel4(sdk));
      CopyKeepsOthers(before, src, dir, ArchDir(sdk));
      CopyKeepsOthers(before, src, dir, Sel4ArchDir(sdk));
    }
  }

  /** The five generated headers of `include` and `include/sel4`. */
  method CopyGeneratedHeaders(fs: FileSystem, build: Path, sdk: Path) returns (outcome: Outcome<AssemblyError>)
    requires fs.Valid() && HeaderDirs(fs.nodes, sdk)
    modifies fs
    ensures fs.Valid()
    ensures Assembled(outcome, fs.nodes) == GeneratedHeaders(Assembled(Pass, old(fs.nodes)), build, sdk)
    ensures outcome.Pass? ==> HeaderDirs(fs.nodes, sdk)
  {
    outcome := CopyHeaderInto(fs, sdk, AutoconfHeader(build), Include(sdk));
    if outcome.Fail? {
      return;
    }
    outcome := CopyHeaderInto(fs, sdk, GenHeader(build, "syscall.h"), IncludeSel4(sdk));
    if outcome.Fail? {
      return;
    }
    outcome := CopyHeaderInto(fs, sdk, GenHeader(build, "shared_types_gen.h"), IncludeSel4(sdk));
    if outcome.Fail? {
      return;
    }
    outcome := CopyHeaderInto(fs, sdk, GenHeader(build, "invocation.h"), IncludeSel4(sdk));
    if outcome.Fail? {
      return;
    }
    outcome := CopyHeaderInto(fs, sdk, Sel4GenConfig(build), IncludeSel4(sdk));
  }

  /** The generated headers, and the `interfaces` and `kernel` directories. */
  method CopyHeaders(fs: FileSystem, vars: Cache, build: Path, sdk: Path) returns (outcome: Outcome<AssemblyError>)
    requires fs.Valid() && HeaderDirs(fs.nodes, sdk)
    modifies fs
    ensures fs.Valid()
    ensures Assembled(outcome, fs.nodes) == Headers(Assembled(Pass, old(fs.nodes)), vars, build, sdk)
  {
    outcome := CopyGeneratedHeaders(fs, build, sdk);
    if outcome.Fail? {
      return;
    }
    var arch := PathPart(vars, "KernelArch");
    if arch.Err? {
      return Fail(arch.error);
    }
    outcome := CopyHeaderInto(fs, sdk, ArchHeader(build, arch.value, "invocation.h"), ArchDir(sdk));
    if outcome.Fail? {
      return;
    }
    var sel4Arch := PathPart(vars, "KernelSel4Arch");
    if sel4Arch.Err? {
      return Fail(sel4Arch.error);
    }
    outcome := CopyHeaderInto(fs, sdk, Sel4ArchHeader(build, sel4Arch.value, "types_gen.h"), Sel4ArchDir(sdk));
    if outcome.Fail? {
      return;
    }
    outcome := CopyHeaderInto(fs, sdk, Sel4ArchHeader(build, sel4Arch.value, "invocation.h"), Sel4ArchDir(sdk));
    if outcome.Fail? {
      return;
    }
    outcome := MkdirAndCopy(fs, IncludeInterfaces(sdk), ClientHeader(build));
    if outcome.Fail? {
      return;
    }
    outcome := MkdirAndCopy(fs, IncludeKernel(sdk), KernelGenConfig(build));
  }

  /**
   * `generate_sdk_directory(build_dir, sdk_dir)`: it makes exactly the calls
   * `Assemble` describes, so `AssembledLayout` and the lemmas beside it hold
   * of the filesystem it leaves.
   */
  method GenerateSdkDirectory(fs: FileSystem, build: Path, sdk: Path, parents: bool) returns (outcome: Outcome<AssemblyError>)
    requires fs.Valid() && |sdk| > 0
    modifies fs
    ensures fs.Valid()
    ensures Assembled(outcome, fs.nodes) == Assemble(old(fs.nodes), build, sdk, parents)
  {
    var cache := ReadCacheFile(fs, build);
    if cache.Err? {
      return Fail(cache.error);
    }
    var vars := cache.value;
    outcome := ResetSdk(fs, sdk, parents);
    ghost var reset := Assembled(outcome, fs.nodes);
    if outcome.Fail? {
      AxisTreesAfterFailure(Skeleton(reset, build, sdk), vars, sdk, Axes);
      HeadersAfterFailure(Skeleton(reset, build, sdk), vars, build, sdk);
      return;
    }
    outcome := MakeSkeleton(fs, build, sdk);
    ghost var skeleton := Assembled(outcome, fs.nodes);
    if outcome.Fail? {
      AxisTreesAfterFailure(skeleton, vars, sdk, Axes);
      HeadersAfterFailure(skeleton, vars, build, sdk);
      return;
    }
    outcome := CopyAxisTrees(fs, vars, sdk);
    if outcome.Fail? {
      HeadersAfterFailure(Assembled(outcome, fs.nodes), vars, build, sdk);
      return;
    }
    outcome := CopyHeaders(fs, vars, build, sdk);
  }
}
