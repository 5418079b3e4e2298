/**
 * `generate_sdk_directory(build_dir, sdk_dir)`: reads the build's
 * `CMakeCache.txt`, replaces any earlier SDK directory by a new empty one and
 * fills it with the kernel image, the library, the source tree's public
 * headers, the four configuration-dependent header trees selected by cache
 * values, and the headers the build generated.
 *
 * Paths are components from the source root (the directory the scripts run
 * in). `parents` is the one difference between the two scripts: build.py
 * creates the SDK directory with `mkdir(parents=True)`, build_all.py with a
 * plain `mkdir()`.
 */
module SdkAssembly {
  import opened Wrappers
  import opened Text
  import opened CMakeCache
  import opened FsModel

  /** What `generate_sdk_directory` raises. */
  datatype AssemblyError =
    | Unreadable(cause: FsError)      // opening CMakeCache.txt
    | Malformed(problem: CacheError)    // raised by parse_cmake_cache
    | MissingKey(key: string)         // KeyError from cmake_vars[...]
    | NotAPathPart(key: string)       // TypeError: a BOOL value joined to a path
    | FsFailed(cause: FsError)        // an OSError from pathlib or shutil

  /** How the assembly ended, and the filesystem it left. */
  datatype Assembled = Assembled(outcome: Outcome<AssemblyError>, nodes: Nodes)

  function Lift(s: Step): Assembled {
    Assembled(if s.outcome.Pass? then Pass else Fail(FsFailed(s.outcome.error)), s.nodes)
  }

  /** The next filesystem call, made only if nothing has been raised so far. */
  function Do(a: Assembled, op: Op): Assembled {
    if a.outcome.Fail? then a else Lift(Apply(a.nodes, op))
  }

  // ---------------------------------------------------------------------
  // The places involved

  function CacheFile(build: Path): Path { build + ["CMakeCache.txt"] }
  function KernelImage(build: Path): Path { build + ["kernel", "kernel.elf"] }
  function Library(build: Path): Path { build + ["libsel4", "libsel4.a"] }

  /** The public headers in the source tree. */
  const BaseInclude: Path := ["libsel4", "include", "sel4"]

  function Bin(sdk: Path): Path { sdk + ["bin"] }
  function Lib(sdk: Path): Path { sdk + ["lib"] }
  function Include(sdk: Path): Path { sdk + ["include"] }
  function IncludeSel4(sdk: Path): Path { sdk + ["include", "sel4"] }
  function IncludeInterfaces(sdk: Path): Path { sdk + ["include", "interfaces"] }
  function IncludeKernel(sdk: Path): Path { sdk + ["include", "kernel"] }
  function ArchDir(sdk: Path): Path { IncludeSel4(sdk) + ["arch"] }
  function Sel4ArchDir(sdk: Path): Path { IncludeSel4(sdk) + ["sel4_arch"] }

  // The headers the build generates.
  function AutoconfHeader(build: Path): Path { build + ["libsel4", "autoconf", "autoconf.h"] }
  function GenHeader(build: Path, name: string): Path { build + ["libsel4", "include", "sel4", name] }
  function Sel4GenConfig(build: Path): Path { build + ["libsel4", "gen_config", "sel4", "gen_config.h"] }
  function ArchHeader(build: Path, arch: string, name: string): Path {
    build + ["libsel4", "arch_include", arch, "sel4", "arch", name]
  }
  function Sel4ArchHeader(build: Path, sel4Arch: string, name: string): Path {
    build + ["libsel4", "sel4_arch_include", sel4Arch, "sel4", "sel4_arch", name]
  }
  function ClientHeader(build: Path): Path { build + ["libsel4", "include", "interfaces", "sel4_client.h"] }
  function KernelGenConfig(build: Path): Path { build + ["kernel", "gen_config", "kernel", "gen_config.h"] }

  /** One configuration axis: the cache key naming its variant, and the directories below libsel4. */
  datatype Axis = Axis(key: string, baseDir: string, leaf: string)

  const Axes: seq<Axis> := [
    Axis("KernelArch", "arch_include", "arch"),
    Axis("KernelSel4Arch", "sel4_arch_include", "sel4_arch"),
    Axis("KernelPlatform", "sel4_plat_include", "plat"),
    Axis("KernelWordSize", "mode_include", "mode")
  ]

  /** `SOURCE_PATH / "libsel4" / base_dir / <variant> / "sel4" / leaf_dir`. */
  function AxisSource(axis: Axis, part: string): Path {
    ["libsel4", axis.baseDir, part, "sel4", axis.leaf]
  }

  function AxisTarget(sdk: Path, axis: Axis): Path {
    IncludeSel4(sdk) + [axis.leaf]
  }

  /** A cache value used as a path component: strings and paths are, booleans raise. */
  function PathPart(vars: Cache, key: string): Result<string, AssemblyError> {
    if key !in vars then Err(MissingKey(key))
    else match vars[key]
      case Str(s) => Ok(s)
      case PathV(p) => Ok(p)
      case Bool(_) => Err(NotAPathPart(key))
  }

  /** `parse_cmake_cache(build_dir / "CMakeCache.txt")`. */
  function ReadCache(n: Nodes, build: Path): Result<Cache, AssemblyError> {
    match ReadResult(n, CacheFile(build))
    case Err(e) => Err(Unreadable(e))
    case Ok(text) =>
      match CacheOf(Lines(text))
      case Err(e) => Err(Malformed(e))
      case Ok(vars) => Ok(vars)
  }

  // ---------------------------------------------------------------------
  // The assembly, step by step

  /** `if sdk_dir.exists(): rmtree(sdk_dir)`, then `sdk_dir.mkdir(...)`. */
  function Reset(n: Nodes, sdk: Path, parents: bool): Assembled {
    var cleared := if sdk in n then Lift(RmtreeStep(n, sdk)) else Assembled(Pass, n);
    Do(cleared, MkdirOp(sdk, parents, false))
  }

  /** The `bin`, `lib` and `include` directories, up to the copy of the public headers. */
  function Skeleton(a: Assembled, build: Path, sdk: Path): Assembled {
    var a1 := Do(a, MkdirOp(Bin(sdk), false, false));
    var a2 := Do(a1, CopyOp(KernelImage(build), Bin(sdk)));
    var a3 := Do(a2, MkdirOp(Lib(sdk), false, false));
    var a4 := Do(a3, CopyOp(Library(build), Lib(sdk)));
    var a5 := Do(a4, MkdirOp(Include(sdk), false, false));
    Do(a5, CopytreeOp(BaseInclude, IncludeSel4(sdk)))
  }

  /** The loop over the first `|axes|` axes: look the variant up, then copy its tree. */
  function AxisTrees(a: Assembled, vars: Cache, sdk: Path, axes: seq<Axis>): Assembled
    decreases |axes|
  {
    if |axes| == 0 then a
    else
      var before := AxisTrees(a, vars, sdk, axes[..|axes| - 1]);
      var axis := axes[|axes| - 1];
      if before.outcome.Fail? then before
      else match PathPart(vars, axis.key)
        case Err(e) => Assembled(Fail(e), before.nodes)
        case Ok(part) => Do(before, CopytreeOp(AxisSource(axis, part), AxisTarget(sdk, axis)))
  }

  /** The headers the build generated, and the `interfaces` and `kernel` directories. */
  function Headers(a: Assembled, vars: Cache, build: Path, sdk: Path): Assembled {
    var h5 := GeneratedHeaders(a, build, sdk);
    if h5.outcome.Fail? then h5
    else match PathPart(vars, "KernelArch")
      case Err(e) => Assembled(Fail(e), h5.nodes)
      case Ok(arch) =>
        var h6 := Do(h5, CopyOp(ArchHeader(build, arch, "invocation.h"), ArchDir(sdk)));
        if h6.outcome.Fail? then h6
        else match PathPart(vars, "KernelSel4Arch")
          case Err(e) => Assembled(Fail(e), h6.nodes)
          case Ok(sel4Arch) => Interfaces(Sel4ArchHeaders(h6, build, sdk, sel4Arch), build, sdk)
  }

  /** The five generated headers of `include` and `include/sel4`. */
  function GeneratedHeaders(a: Assembled, build: Path, sdk: Path): Assembled {
    var h1 := Do(a, CopyOp(AutoconfHeader(build), Include(sdk)));
    var h2 := Do(h1, CopyOp(GenHeader(build, "syscall.h"), IncludeSel4(sdk)));
    var h3 := Do(h2, CopyOp(GenHeader(build, "shared_types_gen.h"), IncludeSel4(sdk)));
    var h4 := Do(h3, CopyOp(GenHeader(build, "invocation.h"), IncludeSel4(sdk)));
    Do(h4, CopyOp(Sel4GenConfig(build), IncludeSel4(sdk)))
  }

  /** The two generated headers of the `sel4_arch` tree. */
  function Sel4ArchHeaders(a: Assembled, build: Path, sdk: Path, sel4Arch: string): Assembled {
    var h7 := Do(a, CopyOp(Sel4ArchHeader(build, sel4Arch, "types_gen.h"), Sel4ArchDir(sdk)));
    Do(h7, CopyOp(Sel4ArchHeader(build, sel4Arch, "invocation.h"), Sel4ArchDir(sdk)))
  }

  /** The `interfaces` and `kernel` directories and the header in each. */
  function Interfaces(a: Assembled, build: Path, sdk: Path): Assembled {
    var h9 := Do(a, MkdirOp(IncludeInterfaces(sdk), false, false));
    var h10 := Do(h9, CopyOp(ClientHeader(build), IncludeInterfaces(sdk)));
    var h11 := Do(h10, MkdirOp(IncludeKernel(sdk), false, false));
    Do(h11, CopyOp(KernelGenConfig(build), IncludeKernel(sdk)))
  }

  /** `generate_sdk_directory(build_dir, sdk_dir)` on the filesystem `n`. */
  function Assemble(n: Nodes, build: Path, sdk: Path, parents: bool): Assembled {
    match ReadCache(n, build)
    case Err(e) => Assembled(Fail(e), n)
    case Ok(vars) =>
      var skeleton := Skeleton(Reset(n, sdk, parents), build, sdk);
      Headers(AxisTrees(skeleton, vars, sdk, Axes), vars, build, sdk)
  }

  // ---------------------------------------------------------------------
  // The state a successful reset leaves

  /**
   * `r` holds what `n` holds outside `sdk`, possibly new directories above
   * `sdk`, and at `sdk` an empty directory.
   */
  ghost predicate ResetOf(n: Nodes, r: Nodes, sdk: Path) {
    && WellFormed(r) && IsDir(r, sdk)
    && (forall k :: k in r && sdk <= k ==> k == sdk)
    && (forall k :: k in n && !(sdk <= k) ==> k in r && r[k] == n[k])
    && (forall k :: k in r && k !in n ==> k <= sdk && r[k] == Dir)
  }

  lemma ResetShape(n: Nodes, sdk: Path, parents: bool)
    requires WellFormed(n) && |sdk| > 0
    ensures var a := Reset(n, sdk, parents);
      a.outcome.Pass? ==> ResetOf(n, a.nodes, sdk)
  {
    var cleared := if sdk in n then Lift(RmtreeStep(n, sdk)) else Assembled(Pass, n);
    if cleared.outcome.Pass? {
      var c := cleared.nodes;
      if sdk in n {
        RmtreeKeepsWellFormed(n, sdk);
        assert c == Prune(n, sdk);
        forall k | k in c
          ensures !(sdk <= k) && k in n && c[k] == n[k]
        {
          PruneKeeps(n, sdk, k);
        }
      } else {
        NoDescendants(n, sdk);
        assert c == n;
        forall k | k in c
          ensures !(sdk <= k)
        {
          assert k != sdk;
        }
      }
      assert forall k :: k in c && sdk <= k ==> false;
      assert forall k :: k in n && !(sdk <= k) ==> k in c && c[k] == n[k];
      assert forall k :: k in c ==> k in n;
      if MkdirStep(c, sdk, parents, false).outcome.Pass? {
        MkdirMadeFresh(c, sdk, parents);
        MkdirOnlyAdds(c, sdk, parents, false);
      }
    }
  }

  /** Entries apart from `sdk` read the same after the reset and any writes below `sdk`. */
  lemma ReadApart(n: Nodes, r: Nodes, l: Nodes, sdk: Path, p: Path)
    requires ResetOf(n, r, sdk) && Below(l, sdk) && Apart(sdk, p)
    ensures p in r + l <==> p in n
    ensures p in n ==> (r + l)[p] == n[p]
  {
  }

  /** Every entry of `l` lies below `sdk` (inclusive). */
  ghost predicate Below(l: Nodes, sdk: Path) {
    forall k :: k in l ==> sdk <= k
  }

  /** A tree apart from `sdk` is copied as it was before the assembly began. */
  lemma GraftApart(n: Nodes, r: Nodes, l: Nodes, sdk: Path, src: Path, dst: Path)
    requires ResetOf(n, r, sdk) && Below(l, sdk) && Apart(sdk, src)
    ensures Graft(r + l, src, dst) == Graft(n, src, dst)
  {
    var m := r + l;
    forall q | src <= q
      ensures (q in m <==> q in n) && (q in n ==> m[q] == n[q])
    {
      ApartBelow(sdk, src, q);
      ReadApart(n, r, l, sdk, q);
    }
    GraftSameBelow(m, n, src, dst);
  }

  /** The SDK tree `l` after `copytree(src, dst)` of a directory. */
  function Copied(l: Nodes, n: Nodes, src: Path, dst: Path): Nodes {
    (l + Graft(n, src, dst))[dst := Dir]
  }

  /** The contents a copy of the regular file `p` receives. */
  function FileAt(n: Nodes, p: Path): Node {
    if IsFile(n, p) then n[p] else File("")
  }

  /** The SDK after `Skeleton`: the directories, the two binaries and the public headers. */
  function SkeletonTree(n: Nodes, build: Path, sdk: Path): Nodes {
    Copied(map[
      sdk := Dir,
      Bin(sdk) := Dir,
      Bin(sdk) + ["kernel.elf"] := FileAt(n, KernelImage(build)),
      Lib(sdk) := Dir,
      Lib(sdk) + ["libsel4.a"] := FileAt(n, Library(build)),
      Include(sdk) := Dir
    ], n, BaseInclude, IncludeSel4(sdk))
  }

  /** A successful assembly so far: the reset state with the SDK tree `l` written over it. */
  ghost predicate Grows(r: Nodes, sdk: Path, l: Nodes, a: Assembled) {
    a.outcome.Pass? && a.nodes == r + l && Below(l, sdk)
  }

  /** A new directory inside the SDK. */
  lemma MkdirGrows(r: Nodes, sdk: Path, l: Nodes, a: Assembled, p: Path)
    requires Grows(r, sdk, l, a) && sdk <= p
    ensures var b := Do(a, MkdirOp(p, false, false));
      b.outcome.Pass? ==> Grows(r, sdk, l[p := Dir], b)
  {
  }

  /** A copy of a file from outside the SDK into one of its directories. */
  lemma CopyGrows(n: Nodes, r: Nodes, sdk: Path, l: Nodes, a: Assembled, src: Path, dir: Path)
    requires ResetOf(n, r, sdk) && Grows(r, sdk, l, a) && dir in l && l[dir] == Dir && Apart(sdk, src)
    ensures var b := Do(a, CopyOp(src, dir));
      b.outcome.Pass? ==> IsFile(n, src) && Grows(r, sdk, l[dir + [Basename(src)] := FileAt(n, src)], b)
  {
    var b := Do(a, CopyOp(src, dir));
    if b.outcome.Pass? {
      ReadApart(n, r, l, sdk, src);
      assert IsDir(a.nodes, dir);
      CopyIntoDirResult(a.nodes, src, dir);
      var t := dir + [Basename(src)];
      assert b.nodes == (r + l)[t := n[src]];
      UpdateUnion(r, l, t, n[src]);
      assert sdk <= dir <= t;
      BelowUpdate(l, sdk, t, FileAt(n, src));
    }
  }

  lemma UpdateUnion(r: Nodes, l: Nodes, t: Path, v: Node)
    ensures (r + l)[t := v] == r + l[t := v]
  {
  }

  lemma BelowUpdate(l: Nodes, sdk: Path, t: Path, v: Node)
    requires Below(l, sdk) && sdk <= t
    ensures Below(l[t := v], sdk)
  {
  }

  /** A copy of a tree from outside the SDK to a new directory inside it. */
  lemma CopytreeGrows(n: Nodes, r: Nodes, sdk: Path, l: Nodes, a: Assembled, src: Path, dst: Path)
    requires ResetOf(n, r, sdk) && Grows(r, sdk, l, a) && |dst| > 0 && Parent(dst) in l && sdk <= Parent(dst) && Apart(sdk, src)
    ensures var b := Do(a, CopytreeOp(src, dst));
      b.outcome.Pass? ==> IsDir(n, src) && Grows(r, sdk, Copied(l, n, src, dst), b)
  {
    var b := Do(a, CopytreeOp(src, dst));
    if b.outcome.Pass? {
      CopytreeOnto(r, l, src, dst);
      GraftApart(n, r, l, sdk, src, dst);
      ReadApart(n, r, l, sdk, src);
      GraftBelow(n, src, dst, sdk, l[dst := Dir]);
      CopiedOverDir(l, n, src, dst);
    }
  }

  /** A successful copytree onto the state `r + l`, written as a change to `l`. */
  lemma CopytreeOnto(r: Nodes, l: Nodes, src: Path, dst: Path)
    requires |dst| > 0 && Parent(dst) in l && CopytreeStep(r + l, src, dst).outcome.Pass?
    ensures IsDir(r + l, src)
    ensures CopytreeStep(r + l, src, dst).nodes == r + (l[dst := Dir] + Graft(r + l, src, dst))
  {
    CopytreeBelowExisting(r + l, src, dst);
  }

  /** A tree grafted below `sdk` keeps the SDK tree `l` below `sdk`. */
  lemma GraftBelow(n: Nodes, src: Path, dst: Path, sdk: Path, l: Nodes)
    requires sdk <= dst && Below(l, sdk)
    ensures Below(l + Graft(n, src, dst), sdk)
  {
    var g := Graft(n, src, dst);
    forall k | k in l + g
      ensures sdk <= k
    {
      if k in g {
        GraftKeys(n, src, dst, k);
      }
    }
  }

  /** `bin` and the kernel image in it. */
  lemma BinGrows(n: Nodes, r: Nodes, build: Path, sdk: Path, l: Nodes, a: Assembled)
    requires ResetOf(n, r, sdk) && Grows(r, sdk, l, a) && Apart(sdk, build)
    ensures var b := Do(Do(a, MkdirOp(Bin(sdk), false, false)), CopyOp(KernelImage(build), Bin(sdk)));
      b.outcome.Pass? ==> Grows(r, sdk, l[Bin(sdk) := Dir][Bin(sdk) + ["kernel.elf"] := FileAt(n, KernelImage(build))], b)
    ensures var b := Do(Do(a, MkdirOp(Bin(sdk), false, false)), CopyOp(KernelImage(build), Bin(sdk)));
      b.outcome.Pass? ==> IsFile(n, KernelImage(build))
  {
    var a1 := Do(a, MkdirOp(Bin(sdk), false, false));
    MkdirGrows(r, sdk, l, a, Bin(sdk));
    if a1.outcome.Pass? {
      ApartBelow(sdk, build, KernelImage(build));
      CopyGrows(n, r, sdk, l[Bin(sdk) := Dir], a1, KernelImage(build), Bin(sdk));
    }
  }

  /** `lib` and the library in it. */
  lemma LibGrows(n: Nodes, r: Nodes, build: Path, sdk: Path, l: Nodes, a: Assembled)
    requires ResetOf(n, r, sdk) && Grows(r, sdk, l, a) && Apart(sdk, build)
    ensures var b := Do(Do(a, MkdirOp(Lib(sdk), false, false)), CopyOp(Library(build), Lib(sdk)));
      b.outcome.Pass? ==> Grows(r, sdk, l[Lib(sdk) := Dir][Lib(sdk) + ["libsel4.a"] := FileAt(n, Library(build))], b)
    ensures var b := Do(Do(a, MkdirOp(Lib(sdk), false, false)), CopyOp(Library(build), Lib(sdk)));
      b.outcome.Pass? ==> IsFile(n, Library(build))
  {
    var a1 := Do(a, MkdirOp(Lib(sdk), false, false));
    MkdirGrows(r, sdk, l, a, Lib(sdk));
    if a1.outcome.Pass? {
      ApartBelow(sdk, build, Library(build));
      CopyGrows(n, r, sdk, l[Lib(sdk) := Dir], a1, Library(build), Lib(sdk));
    }
  }

  /** `include` and the public headers below it. */
  lemma IncludeGrows(n: Nodes, r: Nodes, sdk: Path, l: Nodes, a: Assembled)
    requires ResetOf(n, r, sdk) && Grows(r, sdk, l, a) && Apart(sdk, BaseInclude)
    ensures var b := Do(Do(a, MkdirOp(Include(sdk), false, false)), CopytreeOp(BaseInclude, IncludeSel4(sdk)));
      b.outcome.Pass? ==> Grows(r, sdk, Copied(l[Include(sdk) := Dir], n, BaseInclude, IncludeSel4(sdk)), b)
  {
    var a1 := Do(a, MkdirOp(Include(sdk), false, false));
    MkdirGrows(r, sdk, l, a, Include(sdk));
    if a1.outcome.Pass? {
      assert Parent(IncludeSel4(sdk)) == Include(sdk);
      CopytreeGrows(n, r, sdk, l[Include(sdk) := Dir], a1, BaseInclude, IncludeSel4(sdk));
    }
  }

  lemma SkeletonShape(n: Nodes, r: Nodes, build: Path, sdk: Path)
    requires ResetOf(n, r, sdk) && Apart(sdk, build) && Apart(sdk, BaseInclude)
    ensures var a := Skeleton(Assembled(Pass, r), build, sdk);
      a.outcome.Pass? ==> Grows(r, sdk, SkeletonTree(n, build, sdk), a)
    ensures Skeleton(Assembled(Pass, r), build, sdk).outcome.Pass? ==> IsFile(n, KernelImage(build)) && IsFile(n, Library(build))
  {
    var a0 := Assembled(Pass, r);
    var l0 := map[sdk := Dir];
    assert Grows(r, sdk, l0, a0) by {
      assert r == r + l0;
    }
    BinGrows(n, r, build, sdk, l0, a0);
    var a2 := Do(Do(a0, MkdirOp(Bin(sdk), false, false)), CopyOp(KernelImage(build), Bin(sdk)));
    var l2 := l0[Bin(sdk) := Dir][Bin(sdk) + ["kernel.elf"] := FileAt(n, KernelImage(build))];
    var a4 := Do(Do(a2, MkdirOp(Lib(sdk), false, false)), CopyOp(Library(build), Lib(sdk)));
    var l4 := l2[Lib(sdk) := Dir][Lib(sdk) + ["libsel4.a"] := FileAt(n, Library(build))];
    if a2.outcome.Pass? {
      LibGrows(n, r, build, sdk, l2, a2);
      if a4.outcome.Pass? {
        IncludeGrows(n, r, sdk, l4, a4);
      }
    }
  }

  // ---------------------------------------------------------------------
  // The four configuration-dependent trees

  /** The source tree's libsel4 directory, which holds every tree the SDK copies. */
  const SourceLib: Path := ["libsel4"]

  /** The variant a successful lookup gives (the empty name stands for a failed one). */
  function Part(vars: Cache, key: string): string {
    match PathPart(vars, key)
    case Ok(s) => s
    case Err(_) => ""
  }

  /** The SDK tree `l` after the trees of `axes` have been copied into `include/sel4`. */
  function AxisLayout(n: Nodes, vars: Cache, sdk: Path, l: Nodes, axes: seq<Axis>): Nodes
    decreases |axes|
  {
    if |axes| == 0 then l
    else
      var axis := axes[|axes| - 1];
      var dst := AxisTarget(sdk, axis);
      Copied(AxisLayout(n, vars, sdk, l, axes[..|axes| - 1]), n, AxisSource(axis, Part(vars, axis.key)), dst)
  }

  /** Every tree copied for `axes` comes from below libsel4, apart from the SDK. */
  lemma AxisSourceApart(sdk: Path, axis: Axis, part: string)
    requires Apart(sdk, SourceLib)
    ensures Apart(sdk, AxisSource(axis, part))
  {
    ApartBelow(sdk, SourceLib, AxisSource(axis, part));
  }

  lemma {:induction false} AxisTreesGrows(n: Nodes, r: Nodes, sdk: Path, l: Nodes, a: Assembled, vars: Cache, axes: seq<Axis>)
    requires ResetOf(n, r, sdk) && Grows(r, sdk, l, a) && IncludeSel4(sdk) in l && Apart(sdk, SourceLib)
    ensures var b := AxisTrees(a, vars, sdk, axes);
      b.outcome.Pass? ==> Grows(r, sdk, AxisLayout(n, vars, sdk, l, axes), b) && IncludeSel4(sdk) in AxisLayout(n, vars, sdk, l, axes)
    decreases |axes|
  {
    if |axes| > 0 {
      var init := axes[..|axes| - 1];
      var axis := axes[|axes| - 1];
      var before := AxisTrees(a, vars, sdk, init);
      AxisTreesGrows(n, r, sdk, l, a, vars, init);
      if before.outcome.Pass? && PathPart(vars, axis.key).Ok? {
        var part := PathPart(vars, axis.key).value;
        var dst := AxisTarget(sdk, axis);
        var prev := AxisLayout(n, vars, sdk, l, init);
        assert Parent(dst) == IncludeSel4(sdk);
        AxisSourceApart(sdk, axis, part);
        CopytreeGrows(n, r, sdk, prev, before, AxisSource(axis, part), dst);
      }
    }
  }

  // ---------------------------------------------------------------------
  // The generated headers

  /** The SDK tree `l` with the five headers generated for `include` and `include/sel4`. */
  function GeneratedTree(n: Nodes, build: Path, sdk: Path, l: Nodes): Nodes {
    l[Include(sdk) + ["autoconf.h"] := FileAt(n, AutoconfHeader(build))]
     [IncludeSel4(sdk) + ["syscall.h"] := FileAt(n, GenHeader(build, "syscall.h"))]
     [IncludeSel4(sdk) + ["shared_types_gen.h"] := FileAt(n, GenHeader(build, "shared_types_gen.h"))]
     [IncludeSel4(sdk) + ["invocation.h"] := FileAt(n, GenHeader(build, "invocation.h"))]
     [IncludeSel4(sdk) + ["gen_config.h"] := FileAt(n, Sel4GenConfig(build))]
  }

  /** The SDK tree `l` with the three headers generated for the architecture trees. */
  function ArchTree(n: Nodes, build: Path, sdk: Path, arch: string, sel4Arch: string, l: Nodes): Nodes {
    l[ArchDir(sdk) + ["invocation.h"] := FileAt(n, ArchHeader(build, arch, "invocation.h"))]
     [Sel4ArchDir(sdk) + ["types_gen.h"] := FileAt(n, Sel4ArchHeader(build, sel4Arch, "types_gen.h"))]
     [Sel4ArchDir(sdk) + ["invocation.h"] := FileAt(n, Sel4ArchHeader(build, sel4Arch, "invocation.h"))]
  }

  /** The SDK tree `l` with `include/interfaces` and `include/kernel` and their headers. */
  function InterfacesTree(n: Nodes, build: Path, sdk: Path, l: Nodes): Nodes {
    l[IncludeInterfaces(sdk) := Dir]
     [IncludeInterfaces(sdk) + ["sel4_client.h"] := FileAt(n, ClientHeader(build))]
     [IncludeKernel(sdk) := Dir]
     [IncludeKernel(sdk) + ["gen_config.h"] := FileAt(n, KernelGenConfig(build))]
  }

  function HeaderTree(n: Nodes, vars: Cache, build: Path, sdk: Path, l: Nodes): Nodes {
    var arch := Part(vars, "KernelArch");
    var sel4Arch := Part(vars, "KernelSel4Arch");
    InterfacesTree(n, build, sdk, ArchTree(n, build, sdk, arch, sel4Arch, GeneratedTree(n, build, sdk, l)))
  }

  /** The directories the generated headers are copied into. */
  ghost predicate HasDir(l: Nodes, p: Path) {
    p in l && l[p] == Dir
  }

  /** One `copy_file(src, dir)` of a generated header into a directory that stays one. */
  lemma HeaderGrows(n: Nodes, r: Nodes, build: Path, sdk: Path, l: Nodes, a: Assembled, src: Path, dir: Path)
    requires ResetOf(n, r, sdk) && Grows(r, sdk, l, a) && Apart(sdk, build) && build <= src && HasDir(l, dir)
    ensures var b := Do(a, CopyOp(src, dir));
      b.outcome.Pass? ==> Grows(r, sdk, l[dir + [Basename(src)] := FileAt(n, src)], b)
    ensures Do(a, CopyOp(src, dir)).outcome.Pass? ==> IsFile(n, src)
  {
    ApartBelow(sdk, build, src);
    CopyGrows(n, r, sdk, l, a, src, dir);
  }

  lemma GeneratedGrows(n: Nodes, r: Nodes, build: Path, sdk: Path, l: Nodes, a: Assembled)
    requires ResetOf(n, r, sdk) && Grows(r, sdk, l, a) && Apart(sdk, build)
    requires HasDir(l, Include(sdk)) && HasDir(l, IncludeSel4(sdk))
    ensures var h5 := GeneratedHeaders(a, build, sdk);
      h5.outcome.Pass? ==> Grows(r, sdk, GeneratedTree(n, build, sdk, l), h5)
    ensures GeneratedHeaders(a, build, sdk).outcome.Pass? ==>
      && IsFile(n, AutoconfHeader(build)) && IsFile(n, GenHeader(build, "syscall.h"))
      && IsFile(n, GenHeader(build, "shared_types_gen.h")) && IsFile(n, GenHeader(build, "invocation.h"))
      && IsFile(n, Sel4GenConfig(build))
  {
    var h1 := Do(a, CopyOp(AutoconfHeader(build), Include(sdk)));
    HeaderGrows(n, r, build, sdk, l, a, AutoconfHeader(build), Include(sdk));
    var l1 := l[Include(sdk) + ["autoconf.h"] := FileAt(n, AutoconfHeader(build))];
    if h1.outcome.Pass? {
      SiblingsApart(Include(sdk), "sel4", "autoconf.h");
      assert IncludeSel4(sdk) == Include(sdk) + ["sel4"];
      assert HasDir(l1, IncludeSel4(sdk));
      Sel4HeadersGrow(n, r, build, sdk, l1, h1);
    }
  }

  /** The four generated headers of `include/sel4`. */
  lemma Sel4HeadersGrow(n: Nodes, r: Nodes, build: Path, sdk: Path, l: Nodes, a: Assembled)
    requires ResetOf(n, r, sdk) && Grows(r, sdk, l, a) && Apart(sdk, build) && HasDir(l, IncludeSel4(sdk))
    ensures var h2 := Do(a, CopyOp(GenHeader(build, "syscall.h"), IncludeSel4(sdk)));
      var h3 := Do(h2, CopyOp(GenHeader(build, "shared_types_gen.h"), IncludeSel4(sdk)));
      var h4 := Do(h3, CopyOp(GenHeader(build, "invocation.h"), IncludeSel4(sdk)));
      var h5 := Do(h4, CopyOp(Sel4GenConfig(build), IncludeSel4(sdk)));
      h5.outcome.Pass? ==>
        Grows(r, sdk, l[IncludeSel4(sdk) + ["syscall.h"] := FileAt(n, GenHeader(build, "syscall.h"))]
                       [IncludeSel4(sdk) + ["shared_types_gen.h"] := FileAt(n, GenHeader(build, "shared_types_gen.h"))]
                       [IncludeSel4(sdk) + ["invocation.h"] := FileAt(n, GenHeader(build, "invocation.h"))]
                       [IncludeSel4(sdk) + ["gen_config.h"] := FileAt(n, Sel4GenConfig(build))], h5)
    ensures var h2 := Do(a, CopyOp(GenHeader(build, "syscall.h"), IncludeSel4(sdk)));
      var h3 := Do(h2, CopyOp(GenHeader(build, "shared_types_gen.h"), IncludeSel4(sdk)));
      var h4 := Do(h3, CopyOp(GenHeader(build, "invocation.h"), IncludeSel4(sdk)));
      var h5 := Do(h4, CopyOp(Sel4GenConfig(build), IncludeSel4(sdk)));
      h5.outcome.Pass? ==>
        && IsFile(n, GenHeader(build, "syscall.h")) && IsFile(n, GenHeader(build, "shared_types_gen.h"))
        && IsFile(n, GenHeader(build, "invocation.h")) && IsFile(n, Sel4GenConfig(build))
  {
    var d := IncludeSel4(sdk);
    var h2 := Do(a, CopyOp(GenHeader(build, "syscall.h"), d));
    HeaderGrows(n, r, build, sdk, l, a, GenHeader(build, "syscall.h"), d);
    var l2 := l[d + ["syscall.h"] := FileAt(n, GenHeader(build, "syscall.h"))];
    if h2.outcome.Pass? {
      assert HasDir(l2, d);
      var h3 := Do(h2, CopyOp(GenHeader(build, "shared_types_gen.h"), d));
      HeaderGrows(n, r, build, sdk, l2, h2, GenHeader(build, "shared_types_gen.h"), d);
      var l3 := l2[d + ["shared_types_gen.h"] := FileAt(n, GenHeader(build, "shared_types_gen.h"))];
      if h3.outcome.Pass? {
        assert HasDir(l3, d);
        LastTwoIntoDir(n, r, build, sdk, l3, h3, GenHeader(build, "invocation.h"), Sel4GenConfig(build), d);
      }
    }
  }

  /** Two generated headers copied one after the other into the same directory. */
  lemma LastTwoIntoDir(n: Nodes, r: Nodes, build: Path, sdk: Path, l: Nodes, a: Assembled, src1: Path, src2: Path, dir: Path)
    requires ResetOf(n, r, sdk) && Grows(r, sdk, l, a) && Apart(sdk, build) && HasDir(l, dir)
    requires build <= src1 && build <= src2 && |src1| > 0
    ensures var b1 := Do(a, CopyOp(src1, dir));
      var b2 := Do(b1, CopyOp(src2, dir));
      b2.outcome.Pass? ==> Grows(r, sdk, l[dir + [Basename(src1)] := FileAt(n, src1)][dir + [Basename(src2)] := FileAt(n, src2)], b2)
    ensures Do(Do(a, CopyOp(src1, dir)), CopyOp(src2, dir)).outcome.Pass? ==> IsFile(n, src1) && IsFile(n, src2)
  {
    var b1 := Do(a, CopyOp(src1, dir));
    HeaderGrows(n, r, build, sdk, l, a, src1, dir);
    var l1 := l[dir + [Basename(src1)] := FileAt(n, src1)];
    if b1.outcome.Pass? {
      assert |dir + [Basename(src1)]| != |dir|;
      assert HasDir(l1, dir);
      HeaderGrows(n, r, build, sdk, l1, b1, src2, dir);
    }
  }

  /** A new directory inside the SDK and one generated header copied into it. */
  lemma DirWithHeaderGrows(n: Nodes, r: Nodes, build: Path, sdk: Path, l: Nodes, a: Assembled, dir: Path, src: Path)
    requires ResetOf(n, r, sdk) && Grows(r, sdk, l, a) && Apart(sdk, build) && sdk <= dir && build <= src
    ensures var b1 := Do(a, MkdirOp(dir, false, false));
      var b2 := Do(b1, CopyOp(src, dir));
      b2.outcome.Pass? ==> Grows(r, sdk, l[dir := Dir][dir + [Basename(src)] := FileAt(n, src)], b2)
    ensures Do(Do(a, MkdirOp(dir, false, false)), CopyOp(src, dir)).outcome.Pass? ==> IsFile(n, src)
  {
    var b1 := Do(a, MkdirOp(dir, false, false));
    MkdirGrows(r, sdk, l, a, dir);
    if b1.outcome.Pass? {
      HeaderGrows(n, r, build, sdk, l[dir := Dir], b1, src, dir);
    }
  }

  lemma InterfacesGrows(n: Nodes, r: Nodes, build: Path, sdk: Path, l: Nodes, a: Assembled)
    requires ResetOf(n, r, sdk) && Grows(r, sdk, l, a) && Apart(sdk, build)
    ensures var b := Interfaces(a, build, sdk);
      b.outcome.Pass? ==> Grows(r, sdk, InterfacesTree(n, build, sdk, l), b)
    ensures Interfaces(a, build, sdk).outcome.Pass? ==> IsFile(n, ClientHeader(build)) && IsFile(n, KernelGenConfig(build))
  {
    var b2 := Do(Do(a, MkdirOp(IncludeInterfaces(sdk), false, false)), CopyOp(ClientHeader(build), IncludeInterfaces(sdk)));
    DirWithHeaderGrows(n, r, build, sdk, l, a, IncludeInterfaces(sdk), ClientHeader(build));
    if b2.outcome.Pass? {
      var l2 := l[IncludeInterfaces(sdk) := Dir][IncludeInterfaces(sdk) + ["sel4_client.h"] := FileAt(n, ClientHeader(build))];
      DirWithHeaderGrows(n, r, build, sdk, l2, b2, IncludeKernel(sdk), KernelGenConfig(build));
    }
  }

  /** The architecture headers, once both variants have been looked up. */
  lemma ArchHeadersGrow(n: Nodes, r: Nodes, build: Path, sdk: Path, l: Nodes, a: Assembled, arch: string, sel4Arch: string)
    requires ResetOf(n, r, sdk) && Grows(r, sdk, l, a) && Apart(sdk, build)
    requires HasDir(l, ArchDir(sdk)) && HasDir(l, Sel4ArchDir(sdk))
    ensures var h6 := Do(a, CopyOp(ArchHeader(build, arch, "invocation.h"), ArchDir(sdk)));
      var h8 := Sel4ArchHeaders(h6, build, sdk, sel4Arch);
      h8.outcome.Pass? ==> Grows(r, sdk, ArchTree(n, build, sdk, arch, sel4Arch, l), h8)
    ensures var h6 := Do(a, CopyOp(ArchHeader(build, arch, "invocation.h"), ArchDir(sdk)));
      Sel4ArchHeaders(h6, build, sdk, sel4Arch).outcome.Pass? ==>
        && IsFile(n, ArchHeader(build, arch, "invocation.h"))
        && IsFile(n, Sel4ArchHeader(build, sel4Arch, "types_gen.h")) && IsFile(n, Sel4ArchHeader(build, sel4Arch, "invocation.h"))
  {
    var h6 := Do(a, CopyOp(ArchHeader(build, arch, "invocation.h"), ArchDir(sdk)));
    HeaderGrows(n, r, build, sdk, l, a, ArchHeader(build, arch, "invocation.h"), ArchDir(sdk));
    if h6.outcome.Pass? {
      var l6 := l[ArchDir(sdk) + ["invocation.h"] := FileAt(n, ArchHeader(build, arch, "invocation.h"))];
      assert HasDir(l6, Sel4ArchDir(sdk));
      LastTwoIntoDir(n, r, build, sdk, l6, h6, Sel4ArchHeader(build, sel4Arch, "types_gen.h"),
        Sel4ArchHeader(build, sel4Arch, "invocation.h"), Sel4ArchDir(sdk));
    }
  }

  // ---------------------------------------------------------------------
  // The directories the generated headers go into

  /** Over a directory, a copied tree's own root entry is a directory again. */
  lemma CopiedOverDir(l: Nodes, n: Nodes, src: Path, dst: Path)
    requires IsDir(n, src)
    ensures l[dst := Dir] + Graft(n, src, dst) == Copied(l, n, src, dst)
  {
    GraftAt(n, src, dst, src);
    assert dst + src[|src|..] == dst;
  }

  /** A copied tree changes nothing outside its destination. */
  lemma CopiedKeeps(l: Nodes, n: Nodes, src: Path, dst: Path, k: Path)
    requires k in l && !(dst <= k)
    ensures var m := Copied(l, n, src, dst);
      k in m && m[k] == l[k]
  {
    if k in Graft(n, src, dst) {
      GraftKeys(n, src, dst, k);
    }
  }

  /** Sibling directories are not below one another. */
  lemma SiblingsApart(t: Path, x: string, y: string)
    requires x != y
    ensures !(t + [x] <= t + [y])
  {
    assert (t + [x])[|t|] == x && (t + [y])[|t|] == y;
  }

  /** One more tree of the loop over the axes. */
  lemma AxisLayoutStep(n: Nodes, vars: Cache, sdk: Path, l: Nodes, i: nat)
    requires i < |Axes|
    ensures AxisLayout(n, vars, sdk, l, Axes[..i + 1]) ==
      Copied(AxisLayout(n, vars, sdk, l, Axes[..i]), n, AxisSource(Axes[i], Part(vars, Axes[i].key)), IncludeSel4(sdk) + [Axes[i].leaf])
  {
    assert Axes[..i + 1][..i] == Axes[..i];
  }

  /** The directories the generated headers go into, all present in `m`. */
  ghost predicate HeaderDirs(m: Nodes, sdk: Path) {
    HasDir(m, Include(sdk)) && HasDir(m, IncludeSel4(sdk)) && HasDir(m, ArchDir(sdk)) && HasDir(m, Sel4ArchDir(sdk))
  }

  /** A copied axis tree other than `arch` and `sel4_arch` keeps those directories. */
  lemma LaterAxisKeepsDirs(m: Nodes, n: Nodes, src: Path, sdk: Path, leaf: string)
    requires HeaderDirs(m, sdk) && leaf != "arch" && leaf != "sel4_arch"
    ensures HeaderDirs(Copied(m, n, src, IncludeSel4(sdk) + [leaf]), sdk)
  {
    var t := IncludeSel4(sdk);
    SiblingsApart(t, leaf, "arch");
    SiblingsApart(t, leaf, "sel4_arch");
    CopiedKeeps(m, n, src, t + [leaf], Include(sdk));
    CopiedKeeps(m, n, src, t + [leaf], t);
    CopiedKeeps(m, n, src, t + [leaf], ArchDir(sdk));
    CopiedKeeps(m, n, src, t + [leaf], Sel4ArchDir(sdk));
  }

  /** The first two axis trees make `arch` and `sel4_arch`. */
  lemma FirstAxesMakeDirs(m0: Nodes, n: Nodes, src0: Path, src1: Path, sdk: Path)
    requires HasDir(m0, Include(sdk)) && HasDir(m0, IncludeSel4(sdk))
    ensures HeaderDirs(Copied(Copied(m0, n, src0, ArchDir(sdk)), n, src1, Sel4ArchDir(sdk)), sdk)
  {
    var t := IncludeSel4(sdk);
    var m1 := Copied(m0, n, src0, ArchDir(sdk));
    CopiedKeeps(m0, n, src0, ArchDir(sdk), Include(sdk));
    CopiedKeeps(m0, n, src0, ArchDir(sdk), t);
    SiblingsApart(t, "sel4_arch", "arch");
    CopiedKeeps(m1, n, src1, Sel4ArchDir(sdk), Include(sdk));
    CopiedKeeps(m1, n, src1, Sel4ArchDir(sdk), t);
    CopiedKeeps(m1, n, src1, Sel4ArchDir(sdk), ArchDir(sdk));
  }

  /** After the four trees, `include`, `include/sel4`, `arch` and `sel4_arch` are directories. */
  lemma AxisDirs(n: Nodes, vars: Cache, sdk: Path, l: Nodes)
    requires HasDir(l, Include(sdk)) && HasDir(l, IncludeSel4(sdk))
    ensures HeaderDirs(AxisLayout(n, vars, sdk, l, Axes), sdk)
  {
    AxisDirsAfterTwo(n, vars, sdk, l);
    LaterLeaves();
    AxisStepKeepsDirs(n, vars, sdk, l, 2);
    AxisStepKeepsDirs(n, vars, sdk, l, 3);
  }

  /** The last two axes are copied beside `arch` and `sel4_arch`, and there are four. */
  lemma LaterLeaves()
    ensures Axes[2].leaf != "arch" && Axes[2].leaf != "sel4_arch"
    ensures Axes[3].leaf != "arch" && Axes[3].leaf != "sel4_arch"
    ensures Axes[..4] == Axes
  {
    assert Axes[2].leaf == "plat" && Axes[3].leaf == "mode";
  }

  /** A later axis tree, one whose leaf is neither `arch` nor `sel4_arch`, keeps the header directories. */
  lemma AxisStepKeepsDirs(n: Nodes, vars: Cache, sdk: Path, l: Nodes, i: nat)
    requires i < |Axes| && Axes[i].leaf != "arch" && Axes[i].leaf != "sel4_arch"
    requires HeaderDirs(AxisLayout(n, vars, sdk, l, Axes[..i]), sdk)
    ensures HeaderDirs(AxisLayout(n, vars, sdk, l, Axes[..i + 1]), sdk)
  {
    AxisLayoutStep(n, vars, sdk, l, i);
    LaterAxisKeepsDirs(AxisLayout(n, vars, sdk, l, Axes[..i]), n, AxisSource(Axes[i], Part(vars, Axes[i].key)), sdk, Axes[i].leaf);
  }

  lemma AxisDirsAfterTwo(n: Nodes, vars: Cache, sdk: Path, l: Nodes)
    requires HasDir(l, Include(sdk)) && HasDir(l, IncludeSel4(sdk))
    ensures HeaderDirs(AxisLayout(n, vars, sdk, l, Axes[..2]), sdk)
  {
    assert AxisLayout(n, vars, sdk, l, Axes[..0]) == l;
    AxisLayoutStep(n, vars, sdk, l, 0);
    AxisLayoutStep(n, vars, sdk, l, 1);
    FirstAxesMakeDirs(l, n, AxisSource(Axes[0], Part(vars, Axes[0].key)), AxisSource(Axes[1], Part(vars, Axes[1].key)), sdk);
  }

  /** The generated headers are files beside the directories, not in place of them. */
  lemma GeneratedKeepsDirs(n: Nodes, build: Path, sdk: Path, l: Nodes)
    requires HeaderDirs(l, sdk)
    ensures HeaderDirs(GeneratedTree(n, build, sdk, l), sdk)
  {
    var t := IncludeSel4(sdk);
    assert Include(sdk) + ["autoconf.h"] != t by {
      assert (Include(sdk) + ["autoconf.h"])[|sdk| + 1] == "autoconf.h";
    }
    assert t + ["syscall.h"] != ArchDir(sdk) && t + ["syscall.h"] != Sel4ArchDir(sdk) by {
      SiblingsApart(t, "syscall.h", "arch");
      SiblingsApart(t, "syscall.h", "sel4_arch");
    }
    assert t + ["shared_types_gen.h"] != ArchDir(sdk) && t + ["shared_types_gen.h"] != Sel4ArchDir(sdk) by {
      SiblingsApart(t, "shared_types_gen.h", "arch");
      SiblingsApart(t, "shared_types_gen.h", "sel4_arch");
    }
    assert t + ["invocation.h"] != ArchDir(sdk) && t + ["invocation.h"] != Sel4ArchDir(sdk) by {
      SiblingsApart(t, "invocation.h", "arch");
      SiblingsApart(t, "invocation.h", "sel4_arch");
    }
    assert t + ["gen_config.h"] != ArchDir(sdk) && t + ["gen_config.h"] != Sel4ArchDir(sdk) by {
      SiblingsApart(t, "gen_config.h", "arch");
      SiblingsApart(t, "gen_config.h", "sel4_arch");
    }
  }

  lemma HeadersGrow(n: Nodes, r: Nodes, vars: Cache, build: Path, sdk: Path, l: Nodes, a: Assembled)
    requires ResetOf(n, r, sdk) && Grows(r, sdk, l, a) && Apart(sdk, build) && HeaderDirs(l, sdk)
    ensures var b := Headers(a, vars, build, sdk);
      b.outcome.Pass? ==> Grows(r, sdk, HeaderTree(n, vars, build, sdk, l), b)
    ensures Headers(a, vars, build, sdk).outcome.Pass? ==> SourcesPresent(n, HeaderFiles(vars, build, sdk))
  {
    var h5 := GeneratedHeaders(a, build, sdk);
    if h5.outcome.Pass? && PathPart(vars, "KernelArch").Ok? && PathPart(vars, "KernelSel4Arch").Ok? {
      GeneratedGrows(n, r, build, sdk, l, a);
      var arch := PathPart(vars, "KernelArch").value;
      var sel4Arch := PathPart(vars, "KernelSel4Arch").value;
      var g := GeneratedTree(n, build, sdk, l);
      GeneratedKeepsDirs(n, build, sdk, l);
      var h6 := Do(h5, CopyOp(ArchHeader(build, arch, "invocation.h"), ArchDir(sdk)));
      ArchHeadersGrow(n, r, build, sdk, g, h5, arch, sel4Arch);
      var h8 := Sel4ArchHeaders(h6, build, sdk, sel4Arch);
      if h8.outcome.Pass? {
        HeadersOf(n, a, vars, build, sdk, l, arch, sel4Arch);
        InterfacesGrows(n, r, build, sdk, ArchTree(n, build, sdk, arch, sel4Arch, g), h8);
        if Headers(a, vars, build, sdk).outcome.Pass? {
          HeaderSourcesPresent(n, vars, build, sdk);
        }
      }
    }
  }

  /** `Headers` and `HeaderTree` once both variants have been looked up. */
  lemma HeadersOf(n: Nodes, a: Assembled, vars: Cache, build: Path, sdk: Path, l: Nodes, arch: string, sel4Arch: string)
    requires PathPart(vars, "KernelArch") == Ok(arch) && PathPart(vars, "KernelSel4Arch") == Ok(sel4Arch)
    ensures var h5 := GeneratedHeaders(a, build, sdk);
      var h6 := Do(h5, CopyOp(ArchHeader(build, arch, "invocation.h"), ArchDir(sdk)));
      h6.outcome.Pass? ==> Headers(a, vars, build, sdk) == Interfaces(Sel4ArchHeaders(h6, build, sdk, sel4Arch), build, sdk)
    ensures HeaderTree(n, vars, build, sdk, l) ==
      InterfacesTree(n, build, sdk, ArchTree(n, build, sdk, arch, sel4Arch, GeneratedTree(n, build, sdk, l)))
  {
  }

  // ---------------------------------------------------------------------
  // The whole assembly

  /** The SDK directory a successful assembly leaves, entry by entry. */
  function Layout(n: Nodes, vars: Cache, build: Path, sdk: Path): Nodes {
    HeaderTree(n, vars, build, sdk, AxisLayout(n, vars, sdk, SkeletonTree(n, build, sdk), Axes))
  }

  /** Once a call has raised, the loop over the axes makes no further call. */
  lemma {:induction false} AxisTreesAfterFailure(a: Assembled, vars: Cache, sdk: Path, axes: seq<Axis>)
    requires a.outcome.Fail?
    ensures AxisTrees(a, vars, sdk, axes) == a
    decreases |axes|
  {
    if |axes| > 0 {
      AxisTreesAfterFailure(a, vars, sdk, axes[..|axes| - 1]);
    }
  }

  /** The skeleton provides the two directories the generated headers start from. */
  lemma SkeletonDirs(n: Nodes, build: Path, sdk: Path)
    ensures HasDir(SkeletonTree(n, build, sdk), Include(sdk)) && HasDir(SkeletonTree(n, build, sdk), IncludeSel4(sdk))
  {
    var d := map[sdk := Dir, Bin(sdk) := Dir, Bin(sdk) + ["kernel.elf"] := FileAt(n, KernelImage(build)),
      Lib(sdk) := Dir, Lib(sdk) + ["libsel4.a"] := FileAt(n, Library(build)), Include(sdk) := Dir];
    CopiedKeeps(d, n, BaseInclude, IncludeSel4(sdk), Include(sdk));
  }

  /**
   * A successful `generate_sdk_directory` leaves the filesystem the reset left,
   * with exactly the SDK tree `Layout` written below the SDK directory.
   */
  lemma AssembledLayout(n: Nodes, build: Path, sdk: Path, parents: bool)
    requires WellFormed(n) && |sdk| > 0 && Apart(sdk, build) && Apart(sdk, SourceLib)
    ensures var a := Assemble(n, build, sdk, parents);
      var reset := Reset(n, sdk, parents);
      a.outcome.Pass? ==>
        && ReadCache(n, build).Ok? && reset.outcome.Pass? && ResetOf(n, reset.nodes, sdk)
        && a.nodes == reset.nodes + Layout(n, ReadCache(n, build).value, build, sdk)
        && Below(Layout(n, ReadCache(n, build).value, build, sdk), sdk)
        && SourcesPresent(n, SdkFiles(ReadCache(n, build).value, build, sdk))
  {
    var a := Assemble(n, build, sdk, parents);
    if a.outcome.Pass? && ReadCache(n, build).Ok? {
      var vars := ReadCache(n, build).value;
      var reset := Reset(n, sdk, parents);
      var skel := Skeleton(reset, build, sdk);
      var axes := AxisTrees(skel, vars, sdk, Axes);
      assert a == Headers(axes, vars, build, sdk);
      if reset.outcome.Fail? || skel.outcome.Fail? {
        AxisTreesAfterFailure(skel, vars, sdk, Axes);
      } else if axes.outcome.Pass? {
        var r := reset.nodes;
        ResetShape(n, sdk, parents);
        ApartBelow(sdk, SourceLib, BaseInclude);
        SkeletonShape(n, r, build, sdk);
        var st := SkeletonTree(n, build, sdk);
        SkeletonDirs(n, build, sdk);
        AxisTreesGrows(n, r, sdk, st, skel, vars, Axes);
        AxisDirs(n, vars, sdk, st);
        HeadersGrow(n, r, vars, build, sdk, AxisLayout(n, vars, sdk, st, Axes), axes);
        SdkSourcesPresent(n, vars, build, sdk);
      }
    }
  }

  // ---------------------------------------------------------------------
  // What a successful assembly guarantees

  /**
   * A cache that cannot be read or parsed stops the assembly before anything
   * changes; a successful assembly changes nothing outside the SDK directory
   * except for creating missing parents of it.
   */
  lemma AssemblyKeepsOutside(n: Nodes, build: Path, sdk: Path, parents: bool)
    requires WellFormed(n) && |sdk| > 0 && Apart(sdk, build) && Apart(sdk, SourceLib)
    ensures var a := Assemble(n, build, sdk, parents);
      && (ReadCache(n, build).Err? ==> a == Assembled(Fail(ReadCache(n, build).error), n))
      && (a.outcome.Pass? ==>
        && (forall k :: k in n && !(sdk <= k) ==> k in a.nodes && a.nodes[k] == n[k])
        && (forall k :: k in a.nodes && !(sdk <= k) && k !in n ==> k < sdk && a.nodes[k] == Dir))
  {
    var a := Assemble(n, build, sdk, parents);
    AssembledLayout(n, build, sdk, parents);
    if a.outcome.Pass? {
      ResetWritesBelow(n, Reset(n, sdk, parents).nodes, Layout(n, ReadCache(n, build).value, build, sdk), sdk);
    }
  }

  /** Writing only below `sdk` onto the reset state keeps what lies outside `sdk`. */
  lemma ResetWritesBelow(n: Nodes, r: Nodes, l: Nodes, sdk: Path)
    requires ResetOf(n, r, sdk) && Below(l, sdk)
    ensures forall k :: k in n && !(sdk <= k) ==> k in r + l && (r + l)[k] == n[k]
    ensures forall k :: k in r + l && !(sdk <= k) && k !in n ==> k < sdk && (r + l)[k] == Dir
  {
  }

  /** The SDK's regular files, each paired with the file of the build it is a copy of. */
  /** Every source a list of copies reads from is a regular file. */
  ghost predicate SourcesPresent(n: Nodes, files: seq<(Path, Path)>) {
    forall e :: e in files ==> IsFile(n, e.1)
  }

  /** The ten generated headers, each found as a regular file. */
  lemma HeaderSourcesPresent(n: Nodes, vars: Cache, build: Path, sdk: Path)
    requires IsFile(n, AutoconfHeader(build)) && IsFile(n, GenHeader(build, "syscall.h"))
    requires IsFile(n, GenHeader(build, "shared_types_gen.h")) && IsFile(n, GenHeader(build, "invocation.h"))
    requires IsFile(n, Sel4GenConfig(build))
    requires IsFile(n, ArchHeader(build, Part(vars, "KernelArch"), "invocation.h"))
    requires IsFile(n, Sel4ArchHeader(build, Part(vars, "KernelSel4Arch"), "types_gen.h"))
    requires IsFile(n, Sel4ArchHeader(build, Part(vars, "KernelSel4Arch"), "invocation.h"))
    requires IsFile(n, ClientHeader(build)) && IsFile(n, KernelGenConfig(build))
    ensures SourcesPresent(n, HeaderFiles(vars, build, sdk))
  {
    var h := HeaderFiles(vars, build, sdk);
    forall i | 0 <= i < |h|
      ensures IsFile(n, h[i].1)
    {
      HeaderSource(n, vars, build, sdk, i);
    }
  }

  lemma HeaderSource(n: Nodes, vars: Cache, build: Path, sdk: Path, i: nat)
    requires i < |HeaderFiles(vars, build, sdk)|
    requires IsFile(n, AutoconfHeader(build)) && IsFile(n, GenHeader(build, "syscall.h"))
    requires IsFile(n, GenHeader(build, "shared_types_gen.h")) && IsFile(n, GenHeader(build, "invocation.h"))
    requires IsFile(n, Sel4GenConfig(build))
    requires IsFile(n, ArchHeader(build, Part(vars, "KernelArch"), "invocation.h"))
    requires IsFile(n, Sel4ArchHeader(build, Part(vars, "KernelSel4Arch"), "types_gen.h"))
    requires IsFile(n, Sel4ArchHeader(build, Part(vars, "KernelSel4Arch"), "invocation.h"))
    requires IsFile(n, ClientHeader(build)) && IsFile(n, KernelGenConfig(build))
    ensures IsFile(n, HeaderFiles(vars, build, sdk)[i].1)
  {
  }

  /** The two binaries and the ten generated headers, each found as a regular file. */
  lemma SdkSourcesPresent(n: Nodes, vars: Cache, build: Path, sdk: Path)
    requires IsFile(n, KernelImage(build)) && IsFile(n, Library(build))
    requires SourcesPresent(n, HeaderFiles(vars, build, sdk))
    ensures SourcesPresent(n, SdkFiles(vars, build, sdk))
  {
    var h := HeaderFiles(vars, build, sdk);
    forall e | e in SdkFiles(vars, build, sdk)
      ensures IsFile(n, e.1)
    {
      if e !in h {
        assert e == (Bin(sdk) + ["kernel.elf"], KernelImage(build)) || e == (Lib(sdk) + ["libsel4.a"], Library(build));
      }
    }
  }

  function SdkFiles(vars: Cache, build: Path, sdk: Path): seq<(Path, Path)> {
    [ (Bin(sdk) + ["kernel.elf"], KernelImage(build)),
      (Lib(sdk) + ["libsel4.a"], Library(build))
    ] + HeaderFiles(vars, build, sdk)
  }

  /** The generated headers of the SDK, each paired with the file of the build it is a copy of. */
  function HeaderFiles(vars: Cache, build: Path, sdk: Path): seq<(Path, Path)> {
    var arch := Part(vars, "KernelArch");
    var sel4Arch := Part(vars, "KernelSel4Arch");
    [ (Include(sdk) + ["autoconf.h"], AutoconfHeader(build)),
      (IncludeSel4(sdk) + ["syscall.h"], GenHeader(build, "syscall.h")),
      (IncludeSel4(sdk) + ["shared_types_gen.h"], GenHeader(build, "shared_types_gen.h")),
      (IncludeSel4(sdk) + ["invocation.h"], GenHeader(build, "invocation.h")),
      (IncludeSel4(sdk) + ["gen_config.h"], Sel4GenConfig(build)),
      (ArchDir(sdk) + ["invocation.h"], ArchHeader(build, arch, "invocation.h")),
      (Sel4ArchDir(sdk) + ["types_gen.h"], Sel4ArchHeader(build, sel4Arch, "types_gen.h")),
      (Sel4ArchDir(sdk) + ["invocation.h"], Sel4ArchHeader(build, sel4Arch, "invocation.h")),
      (IncludeInterfaces(sdk) + ["sel4_client.h"], ClientHeader(build)),
      (IncludeKernel(sdk) + ["gen_config.h"], KernelGenConfig(build))
    ]
  }

  /** Paths that differ in one component are apart. */
  lemma DifferAt(p: Path, q: Path, i: nat)
    requires i < |p| && i < |q| && p[i] != q[i]
    ensures Apart(p, q)
  {
  }

  /** The five headers of `GeneratedTree` with the contents they were copied from. */
  lemma GeneratedTreeFiles(n: Nodes, build: Path, sdk: Path, l: Nodes)
    ensures var t := GeneratedTree(n, build, sdk, l);
      && Include(sdk) + ["autoconf.h"] in t && t[Include(sdk) + ["autoconf.h"]] == FileAt(n, AutoconfHeader(build))
      && IncludeSel4(sdk) + ["syscall.h"] in t && t[IncludeSel4(sdk) + ["syscall.h"]] == FileAt(n, GenHeader(build, "syscall.h"))
      && IncludeSel4(sdk) + ["shared_types_gen.h"] in t
      && t[IncludeSel4(sdk) + ["shared_types_gen.h"]] == FileAt(n, GenHeader(build, "shared_types_gen.h"))
      && IncludeSel4(sdk) + ["invocation.h"] in t && t[IncludeSel4(sdk) + ["invocation.h"]] == FileAt(n, GenHeader(build, "invocation.h"))
      && IncludeSel4(sdk) + ["gen_config.h"] in t && t[IncludeSel4(sdk) + ["gen_config.h"]] == FileAt(n, Sel4GenConfig(build))
  {
    var d := IncludeSel4(sdk);
    SiblingsApart(d, "syscall.h", "shared_types_gen.h");
    SiblingsApart(d, "syscall.h", "invocation.h");
    SiblingsApart(d, "syscall.h", "gen_config.h");
    SiblingsApart(d, "shared_types_gen.h", "invocation.h");
    SiblingsApart(d, "shared_types_gen.h", "gen_config.h");
    SiblingsApart(d, "invocation.h", "gen_config.h");
  }

  /** The three headers of `ArchTree`, written over `l` without touching what lies outside `arch` and `sel4_arch`. */
  lemma ArchTreeFiles(n: Nodes, build: Path, sdk: Path, arch: string, sel4Arch: string, l: Nodes)
    ensures var t := ArchTree(n, build, sdk, arch, sel4Arch, l);
      && ArchDir(sdk) + ["invocation.h"] in t && t[ArchDir(sdk) + ["invocation.h"]] == FileAt(n, ArchHeader(build, arch, "invocation.h"))
      && Sel4ArchDir(sdk) + ["types_gen.h"] in t
      && t[Sel4ArchDir(sdk) + ["types_gen.h"]] == FileAt(n, Sel4ArchHeader(build, sel4Arch, "types_gen.h"))
      && Sel4ArchDir(sdk) + ["invocation.h"] in t
      && t[Sel4ArchDir(sdk) + ["invocation.h"]] == FileAt(n, Sel4ArchHeader(build, sel4Arch, "invocation.h"))
      && forall k :: k in l && !(ArchDir(sdk) <= k) && !(Sel4ArchDir(sdk) <= k) ==> k in t && t[k] == l[k]
  {
    SiblingsApart(Sel4ArchDir(sdk), "invocation.h", "types_gen.h");
    SiblingsApart(IncludeSel4(sdk), "arch", "sel4_arch");
    assert ArchDir(sdk) <= ArchDir(sdk) + ["invocation.h"];
    assert Sel4ArchDir(sdk) <= Sel4ArchDir(sdk) + ["types_gen.h"];
    assert Sel4ArchDir(sdk) <= Sel4ArchDir(sdk) + ["invocation.h"];
  }

  /** The two headers of `InterfacesTree`, written over `l` without touching what lies outside their directories. */
  lemma InterfacesTreeFiles(n: Nodes, build: Path, sdk: Path, l: Nodes)
    ensures var t := InterfacesTree(n, build, sdk, l);
      && IncludeInterfaces(sdk) + ["sel4_client.h"] in t && t[IncludeInterfaces(sdk) + ["sel4_client.h"]] == FileAt(n, ClientHeader(build))
      && IncludeKernel(sdk) + ["gen_config.h"] in t && t[IncludeKernel(sdk) + ["gen_config.h"]] == FileAt(n, KernelGenConfig(build))
      && forall k :: k in l && !(IncludeInterfaces(sdk) <= k) && !(IncludeKernel(sdk) <= k) ==> k in t && t[k] == l[k]
  {
    DifferAt(IncludeInterfaces(sdk) + ["sel4_client.h"], IncludeKernel(sdk), |sdk| + 1);
    DifferAt(IncludeInterfaces(sdk) + ["sel4_client.h"], IncludeKernel(sdk) + ["gen_config.h"], |sdk| + 1);
    assert IncludeInterfaces(sdk) <= IncludeInterfaces(sdk) + ["sel4_client.h"];
    assert IncludeKernel(sdk) <= IncludeKernel(sdk) + ["gen_config.h"];
  }

  /** The ten generated headers sit in the header tree with the contents they were copied from. */
  lemma HeaderTreeFiles(n: Nodes, vars: Cache, build: Path, sdk: Path, l: Nodes)
    ensures var t := HeaderTree(n, vars, build, sdk, l);
      forall e :: e in HeaderFiles(vars, build, sdk) ==> e.0 in t && t[e.0] == FileAt(n, e.1)
  {
    GeneratedInHeaderTree(n, vars, build, sdk, l);
    ArchInHeaderTree(n, vars, build, sdk, l);
    ListedHeaders(n, vars, build, sdk, HeaderTree(n, vars, build, sdk, l));
  }

  /** The five headers of `GeneratedTree` survive the later copies. */
  lemma GeneratedInHeaderTree(n: Nodes, vars: Cache, build: Path, sdk: Path, l: Nodes)
    ensures var t := HeaderTree(n, vars, build, sdk, l);
      && Include(sdk) + ["autoconf.h"] in t && t[Include(sdk) + ["autoconf.h"]] == FileAt(n, AutoconfHeader(build))
      && IncludeSel4(sdk) + ["syscall.h"] in t && t[IncludeSel4(sdk) + ["syscall.h"]] == FileAt(n, GenHeader(build, "syscall.h"))
      && IncludeSel4(sdk) + ["shared_types_gen.h"] in t
      && t[IncludeSel4(sdk) + ["shared_types_gen.h"]] == FileAt(n, GenHeader(build, "shared_types_gen.h"))
      && IncludeSel4(sdk) + ["invocation.h"] in t && t[IncludeSel4(sdk) + ["invocation.h"]] == FileAt(n, GenHeader(build, "invocation.h"))
      && IncludeSel4(sdk) + ["gen_config.h"] in t && t[IncludeSel4(sdk) + ["gen_config.h"]] == FileAt(n, Sel4GenConfig(build))
  {
    var arch := Part(vars, "KernelArch");
    var sel4Arch := Part(vars, "KernelSel4Arch");
    var g := GeneratedTree(n, build, sdk, l);
    GeneratedTreeFiles(n, build, sdk, l);
    DifferAt(ArchDir(sdk), Include(sdk) + ["autoconf.h"], |sdk| + 1);
    DifferAt(Sel4ArchDir(sdk), Include(sdk) + ["autoconf.h"], |sdk| + 1);
    OutsideInterfaces(sdk, Include(sdk) + ["autoconf.h"]);
    GeneratedHeaderKept(n, build, sdk, arch, sel4Arch, g, Include(sdk) + ["autoconf.h"]);
    Sel4HeaderKept(n, build, sdk, arch, sel4Arch, g, "syscall.h");
    Sel4HeaderKept(n, build, sdk, arch, sel4Arch, g, "shared_types_gen.h");
    Sel4HeaderKept(n, build, sdk, arch, sel4Arch, g, "invocation.h");
    Sel4HeaderKept(n, build, sdk, arch, sel4Arch, g, "gen_config.h");
  }

  /** The three architecture headers and the two of `interfaces` and `kernel`. */
  lemma ArchInHeaderTree(n: Nodes, vars: Cache, build: Path, sdk: Path, l: Nodes)
    ensures var arch := Part(vars, "KernelArch");
      var sel4Arch := Part(vars, "KernelSel4Arch");
      var t := HeaderTree(n, vars, build, sdk, l);
      && ArchDir(sdk) + ["invocation.h"] in t && t[ArchDir(sdk) + ["invocation.h"]] == FileAt(n, ArchHeader(build, arch, "invocation.h"))
      && Sel4ArchDir(sdk) + ["types_gen.h"] in t
      && t[Sel4ArchDir(sdk) + ["types_gen.h"]] == FileAt(n, Sel4ArchHeader(build, sel4Arch, "types_gen.h"))
      && Sel4ArchDir(sdk) + ["invocation.h"] in t
      && t[Sel4ArchDir(sdk) + ["invocation.h"]] == FileAt(n, Sel4ArchHeader(build, sel4Arch, "invocation.h"))
      && IncludeInterfaces(sdk) + ["sel4_client.h"] in t && t[IncludeInterfaces(sdk) + ["sel4_client.h"]] == FileAt(n, ClientHeader(build))
      && IncludeKernel(sdk) + ["gen_config.h"] in t && t[IncludeKernel(sdk) + ["gen_config.h"]] == FileAt(n, KernelGenConfig(build))
  {
    var arch := Part(vars, "KernelArch");
    var sel4Arch := Part(vars, "KernelSel4Arch");
    var at := ArchTree(n, build, sdk, arch, sel4Arch, GeneratedTree(n, build, sdk, l));
    ArchTreeFiles(n, build, sdk, arch, sel4Arch, GeneratedTree(n, build, sdk, l));
    InterfacesTreeFiles(n, build, sdk, at);
    OutsideInterfaces(sdk, ArchDir(sdk) + ["invocation.h"]);
    OutsideInterfaces(sdk, Sel4ArchDir(sdk) + ["types_gen.h"]);
    OutsideInterfaces(sdk, Sel4ArchDir(sdk) + ["invocation.h"]);
  }

  /** `HeaderFiles`, entry by entry. */
  lemma ListedHeaders(n: Nodes, vars: Cache, build: Path, sdk: Path, t: Nodes)
    requires var arch := Part(vars, "KernelArch");
      var sel4Arch := Part(vars, "KernelSel4Arch");
      && Include(sdk) + ["autoconf.h"] in t && t[Include(sdk) + ["autoconf.h"]] == FileAt(n, AutoconfHeader(build))
      && IncludeSel4(sdk) + ["syscall.h"] in t && t[IncludeSel4(sdk) + ["syscall.h"]] == FileAt(n, GenHeader(build, "syscall.h"))
      && IncludeSel4(sdk) + ["shared_types_gen.h"] in t
      && t[IncludeSel4(sdk) + ["shared_types_gen.h"]] == FileAt(n, GenHeader(build, "shared_types_gen.h"))
      && IncludeSel4(sdk) + ["invocation.h"] in t && t[IncludeSel4(sdk) + ["invocation.h"]] == FileAt(n, GenHeader(build, "invocation.h"))
      && IncludeSel4(sdk) + ["gen_config.h"] in t && t[IncludeSel4(sdk) + ["gen_config.h"]] == FileAt(n, Sel4GenConfig(build))
      && ArchDir(sdk) + ["invocation.h"] in t && t[ArchDir(sdk) + ["invocation.h"]] == FileAt(n, ArchHeader(build, arch, "invocation.h"))
      && Sel4ArchDir(sdk) + ["types_gen.h"] in t
      && t[Sel4ArchDir(sdk) + ["types_gen.h"]] == FileAt(n, Sel4ArchHeader(build, sel4Arch, "types_gen.h"))
      && Sel4ArchDir(sdk) + ["invocation.h"] in t
      && t[Sel4ArchDir(sdk) + ["invocation.h"]] == FileAt(n, Sel4ArchHeader(build, sel4Arch, "invocation.h"))
      && IncludeInterfaces(sdk) + ["sel4_client.h"] in t && t[IncludeInterfaces(sdk) + ["sel4_client.h"]] == FileAt(n, ClientHeader(build))
      && IncludeKernel(sdk) + ["gen_config.h"] in t && t[IncludeKernel(sdk) + ["gen_config.h"]] == FileAt(n, KernelGenConfig(build))
    ensures forall e :: e in HeaderFiles(vars, build, sdk) ==> e.0 in t && t[e.0] == FileAt(n, e.1)
  {
  }

  /** An entry of `include` below `sel4`, or `autoconf.h`, is outside `interfaces` and `kernel`. */
  lemma OutsideInterfaces(sdk: Path, k: Path)
    requires |k| > |sdk| + 1 && (k[|sdk| + 1] == "sel4" || k[|sdk| + 1] == "autoconf.h")
    ensures !(IncludeInterfaces(sdk) <= k) && !(IncludeKernel(sdk) <= k)
  {
    DifferAt(IncludeInterfaces(sdk), k, |sdk| + 1);
    DifferAt(IncludeKernel(sdk), k, |sdk| + 1);
  }

  /** A header copied into `include/sel4` itself is not overwritten later. */
  lemma Sel4HeaderKept(n: Nodes, build: Path, sdk: Path, arch: string, sel4Arch: string, g: Nodes, name: string)
    requires IncludeSel4(sdk) + [name] in g && name != "arch" && name != "sel4_arch"
    ensures var t := InterfacesTree(n, build, sdk, ArchTree(n, build, sdk, arch, sel4Arch, g));
      IncludeSel4(sdk) + [name] in t && t[IncludeSel4(sdk) + [name]] == g[IncludeSel4(sdk) + [name]]
  {
    var k := IncludeSel4(sdk) + [name];
    SiblingsApart(IncludeSel4(sdk), "arch", name);
    SiblingsApart(IncludeSel4(sdk), "sel4_arch", name);
    OutsideInterfaces(sdk, k);
    GeneratedHeaderKept(n, build, sdk, arch, sel4Arch, g, k);
  }

  /** An entry outside `arch`, `sel4_arch`, `interfaces` and `kernel` is not overwritten by the later copies. */
  lemma GeneratedHeaderKept(n: Nodes, build: Path, sdk: Path, arch: string, sel4Arch: string, g: Nodes, k: Path)
    requires k in g && !(ArchDir(sdk) <= k) && !(Sel4ArchDir(sdk) <= k)
    requires !(IncludeInterfaces(sdk) <= k) && !(IncludeKernel(sdk) <= k)
    ensures var t := InterfacesTree(n, build, sdk, ArchTree(n, build, sdk, arch, sel4Arch, g));
      k in t && t[k] == g[k]
  {
    ArchTreeFiles(n, build, sdk, arch, sel4Arch, g);
    InterfacesTreeFiles(n, build, sdk, ArchTree(n, build, sdk, arch, sel4Arch, g));
  }

  /** The header tree leaves what lies outside `include` as it was. */
  lemma HeaderTreeKeeps(n: Nodes, vars: Cache, build: Path, sdk: Path, l: Nodes)
    ensures var t := HeaderTree(n, vars, build, sdk, l);
      forall k :: k in l && !(Include(sdk) <= k) ==> k in t && t[k] == l[k]
  {
    forall k | k in l && !(Include(sdk) <= k)
      ensures var t := HeaderTree(n, vars, build, sdk, l); k in t && t[k] == l[k]
    {
      HeaderTreeKeepsAt(n, vars, build, sdk, l, k);
    }
  }

  /** The generated headers all lie below `include`. */
  lemma GeneratedTreeKeeps(n: Nodes, build: Path, sdk: Path, l: Nodes, k: Path)
    requires k in l && !(Include(sdk) <= k)
    ensures var g := GeneratedTree(n, build, sdk, l); k in g && g[k] == l[k]
  {
    var d := IncludeSel4(sdk);
    assert Include(sdk) <= Include(sdk) + ["autoconf.h"];
    assert Include(sdk) <= d + ["syscall.h"] && Include(sdk) <= d + ["shared_types_gen.h"];
    assert Include(sdk) <= d + ["invocation.h"] && Include(sdk) <= d + ["gen_config.h"];
  }

  /** The trees copied into `include/sel4` leave what lies outside it as it was. */
  lemma {:induction false} AxisLayoutKeeps(n: Nodes, vars: Cache, sdk: Path, l: Nodes, axes: seq<Axis>, k: Path)
    requires k in l && !(IncludeSel4(sdk) <= k)
    ensures var m := AxisLayout(n, vars, sdk, l, axes);
      k in m && m[k] == l[k]
    decreases |axes|
  {
    if |axes| > 0 {
      var axis := axes[|axes| - 1];
      AxisLayoutKeeps(n, vars, sdk, l, axes[..|axes| - 1], k);
      assert IncludeSel4(sdk) <= AxisTarget(sdk, axis);
      CopiedKeeps(AxisLayout(n, vars, sdk, l, axes[..|axes| - 1]), n, AxisSource(axis, Part(vars, axis.key)), AxisTarget(sdk, axis), k);
    }
  }

  /** The kernel image and the library in the skeleton. */
  lemma SkeletonBinaries(n: Nodes, build: Path, sdk: Path)
    ensures var t := SkeletonTree(n, build, sdk);
      && Bin(sdk) + ["kernel.elf"] in t && t[Bin(sdk) + ["kernel.elf"]] == FileAt(n, KernelImage(build))
      && Lib(sdk) + ["libsel4.a"] in t && t[Lib(sdk) + ["libsel4.a"]] == FileAt(n, Library(build))
  {
    var d := map[sdk := Dir, Bin(sdk) := Dir, Bin(sdk) + ["kernel.elf"] := FileAt(n, KernelImage(build)),
      Lib(sdk) := Dir, Lib(sdk) + ["libsel4.a"] := FileAt(n, Library(build)), Include(sdk) := Dir];
    DifferAt(IncludeSel4(sdk), Bin(sdk) + ["kernel.elf"], |sdk|);
    DifferAt(IncludeSel4(sdk), Lib(sdk) + ["libsel4.a"], |sdk|);
    CopiedKeeps(d, n, BaseInclude, IncludeSel4(sdk), Bin(sdk) + ["kernel.elf"]);
    CopiedKeeps(d, n, BaseInclude, IncludeSel4(sdk), Lib(sdk) + ["libsel4.a"]);
  }

  /** Every regular file of the SDK tree holds what its source held. */
  lemma LayoutFiles(n: Nodes, vars: Cache, build: Path, sdk: Path)
    ensures var t := Layout(n, vars, build, sdk);
      forall e :: e in SdkFiles(vars, build, sdk) ==> e.0 in t && t[e.0] == FileAt(n, e.1)
  {
    var st := SkeletonTree(n, build, sdk);
    var al := AxisLayout(n, vars, sdk, st, Axes);
    SkeletonBinaries(n, build, sdk);
    DifferAt(IncludeSel4(sdk), Bin(sdk) + ["kernel.elf"], |sdk|);
    DifferAt(IncludeSel4(sdk), Lib(sdk) + ["libsel4.a"], |sdk|);
    AxisLayoutKeeps(n, vars, sdk, st, Axes, Bin(sdk) + ["kernel.elf"]);
    AxisLayoutKeeps(n, vars, sdk, st, Axes, Lib(sdk) + ["libsel4.a"]);
    DifferAt(Include(sdk), Bin(sdk) + ["kernel.elf"], |sdk|);
    DifferAt(Include(sdk), Lib(sdk) + ["libsel4.a"], |sdk|);
    HeaderTreeKeeps(n, vars, build, sdk, al);
    HeaderTreeFiles(n, vars, build, sdk, al);
    ListedFiles(n, vars, build, sdk, HeaderTree(n, vars, build, sdk, al));
  }

  /** `SdkFiles`: the two binaries, then `HeaderFiles`. */
  lemma ListedFiles(n: Nodes, vars: Cache, build: Path, sdk: Path, t: Nodes)
    requires Bin(sdk) + ["kernel.elf"] in t && t[Bin(sdk) + ["kernel.elf"]] == FileAt(n, KernelImage(build))
    requires Lib(sdk) + ["libsel4.a"] in t && t[Lib(sdk) + ["libsel4.a"]] == FileAt(n, Library(build))
    requires forall e :: e in HeaderFiles(vars, build, sdk) ==> e.0 in t && t[e.0] == FileAt(n, e.1)
    ensures forall e :: e in SdkFiles(vars, build, sdk) ==> e.0 in t && t[e.0] == FileAt(n, e.1)
  {
  }

  /**
   * After a successful `generate_sdk_directory` the kernel image, the library
   * and every generated header are in the SDK with the contents of the files
   * they were copied from.
   */
  lemma AssembledFiles(n: Nodes, build: Path, sdk: Path, parents: bool)
    requires WellFormed(n) && |sdk| > 0 && Apart(sdk, build) && Apart(sdk, SourceLib)
    ensures var a := Assemble(n, build, sdk, parents);
      a.outcome.Pass? ==>
        && ReadCache(n, build).Ok?
        && forall e :: e in SdkFiles(ReadCache(n, build).value, build, sdk) ==>
             IsFile(n, e.1) && e.0 in a.nodes && a.nodes[e.0] == FileAt(n, e.1)
  {
    var a := Assemble(n, build, sdk, parents);
    AssembledLayout(n, build, sdk, parents);
    if a.outcome.Pass? {
      LayoutFiles(n, ReadCache(n, build).value, build, sdk);
    }
  }

  // ---------------------------------------------------------------------
  // Independence of an earlier SDK directory

  /** With no SDK directory, or a directory there, the reset starts from the tree without it. */
  lemma ResetFromPruned(n: Nodes, sdk: Path, parents: bool)
    requires (WellFormed(n) && sdk !in n) || IsDir(n, sdk)
    ensures Reset(n, sdk, parents) == Do(Assembled(Pass, Prune(n, sdk)), MkdirOp(sdk, parents, false))
  {
    if sdk !in n {
      NoDescendants(n, sdk);
      forall k | k in n
        ensures k in Prune(n, sdk)
      {
        assert k != sdk;
        PruneKeeps(n, sdk, k);
      }
      assert n == Prune(n, sdk);
    }
  }

  /** What an earlier SDK directory held does not matter to the reset. */
  lemma ResetForgetsOldSdk(n1: Nodes, n2: Nodes, sdk: Path, parents: bool)
    requires (WellFormed(n1) && sdk !in n1) || IsDir(n1, sdk)
    requires (WellFormed(n2) && sdk !in n2) || IsDir(n2, sdk)
    requires SameOutside(n1, n2, sdk)
    ensures Reset(n1, sdk, parents) == Reset(n2, sdk, parents)
  {
    ResetFromPruned(n1, sdk, parents);
    ResetFromPruned(n2, sdk, parents);
    assert Prune(n1, sdk) == Prune(n2, sdk);
  }

  /**
   * `generate_sdk_directory` removes an earlier SDK directory first: whatever
   * it held, the assembly ends the same way and, once the cache has been
   * read, leaves the same filesystem.
   */
  lemma IgnoresOldSdk(n1: Nodes, n2: Nodes, build: Path, sdk: Path, parents: bool)
    requires WellFormed(n1) && WellFormed(n2) && Apart(sdk, build)
    requires sdk !in n1 || IsDir(n1, sdk)
    requires sdk !in n2 || IsDir(n2, sdk)
    requires SameOutside(n1, n2, sdk)
    ensures ReadCache(n1, build) == ReadCache(n2, build)
    ensures Assemble(n1, build, sdk, parents).outcome == Assemble(n2, build, sdk, parents).outcome
    ensures ReadCache(n1, build).Ok? ==> Assemble(n1, build, sdk, parents) == Assemble(n2, build, sdk, parents)
  {
    ApartBelow(sdk, build, CacheFile(build));
    assert ReadResult(n1, CacheFile(build)) == ReadResult(n2, CacheFile(build));
    ResetForgetsOldSdk(n1, n2, sdk, parents);
  }

  /** The SDK tree has the SDK directory itself as a directory. */
  lemma LayoutRoot(n: Nodes, vars: Cache, build: Path, sdk: Path)
    ensures HasDir(Layout(n, vars, build, sdk), sdk)
  {
    var st := SkeletonTree(n, build, sdk);
    var al := AxisLayout(n, vars, sdk, st, Axes);
    SkeletonRoot(n, build, sdk);
    LayoutKeepsSkeleton(n, vars, build, sdk, sdk);
  }

  /** What the skeleton holds outside `include` stays in the SDK tree. */
  lemma LayoutKeepsSkeleton(n: Nodes, vars: Cache, build: Path, sdk: Path, k: Path)
    requires k in SkeletonTree(n, build, sdk) && !(Include(sdk) <= k)
    ensures k in Layout(n, vars, build, sdk) && Layout(n, vars, build, sdk)[k] == SkeletonTree(n, build, sdk)[k]
  {
    var st := SkeletonTree(n, build, sdk);
    var al := AxisLayout(n, vars, sdk, st, Axes);
    IncludePrefixes(sdk);
    AxisLayoutKeeps(n, vars, sdk, st, Axes, k);
    HeaderTreeKeepsAt(n, vars, build, sdk, al, k);
  }

  /** `include` holds the other header directories. */
  lemma IncludePrefixes(sdk: Path)
    ensures Include(sdk) <= IncludeSel4(sdk) && Include(sdk) <= IncludeInterfaces(sdk) && Include(sdk) <= IncludeKernel(sdk)
    ensures Include(sdk) <= ArchDir(sdk) && Include(sdk) <= Sel4ArchDir(sdk)
  {
  }

  lemma HeaderTreeKeepsAt(n: Nodes, vars: Cache, build: Path, sdk: Path, l: Nodes, k: Path)
    requires k in l && !(Include(sdk) <= k)
    ensures var t := HeaderTree(n, vars, build, sdk, l);
      k in t && t[k] == l[k]
  {
    var g := GeneratedTree(n, build, sdk, l);
    GeneratedTreeKeeps(n, build, sdk, l, k);
    assert Include(sdk) <= IncludeInterfaces(sdk) && Include(sdk) <= IncludeKernel(sdk);
    assert Include(sdk) <= ArchDir(sdk) && Include(sdk) <= Sel4ArchDir(sdk);
    GeneratedHeaderKept(n, build, sdk, Part(vars, "KernelArch"), Part(vars, "KernelSel4Arch"), g, k);
  }

  lemma SkeletonRoot(n: Nodes, build: Path, sdk: Path)
    ensures HasDir(SkeletonTree(n, build, sdk), sdk)
  {
    var d := map[sdk := Dir, Bin(sdk) := Dir, Bin(sdk) + ["kernel.elf"] := FileAt(n, KernelImage(build)),
      Lib(sdk) := Dir, Lib(sdk) + ["libsel4.a"] := FileAt(n, Library(build)), Include(sdk) := Dir];
    assert |Bin(sdk) + ["kernel.elf"]| == |sdk| + 2 && |Lib(sdk) + ["libsel4.a"]| == |sdk| + 2;
    CopiedKeeps(d, n, BaseInclude, IncludeSel4(sdk), sdk);
  }

  /** Resetting again what a reset and writes below the SDK directory left gives the reset state back. */
  lemma ResetAgain(n: Nodes, r: Nodes, l: Nodes, sdk: Path, parents: bool)
    requires |sdk| > 0 && ResetOf(n, r, sdk) && Below(l, sdk) && HasDir(l, sdk)
    ensures Reset(r + l, sdk, parents) == Assembled(Pass, r)
  {
    ResetFromPruned(r + l, sdk, parents);
    PrunedUnion(r, l, sdk);
    PrunedReset(n, r, sdk, parents);
  }

  lemma PrunedUnion(r: Nodes, l: Nodes, sdk: Path)
    requires Below(l, sdk)
    ensures Prune(r + l, sdk) == Prune(r, sdk)
  {
  }

  /** Making the SDK directory again where a reset left it pruned away gives the reset state back. */
  lemma PrunedReset(n: Nodes, r: Nodes, sdk: Path, parents: bool)
    requires |sdk| > 0 && ResetOf(n, r, sdk)
    ensures Do(Assembled(Pass, Prune(r, sdk)), MkdirOp(sdk, parents, false)) == Assembled(Pass, r)
  {
    var q := Prune(r, sdk);
    PrunedParent(n, r, sdk);
    RemadeRoot(n, r, sdk);
    OsMkdirPasses(q, sdk);
    MkdirBelowExisting(q, sdk, parents, false);
  }

  lemma PrunedParent(n: Nodes, r: Nodes, sdk: Path)
    requires |sdk| > 0 && ResetOf(n, r, sdk)
    ensures var q := Prune(r, sdk); WellFormed(q) && IsDir(q, Parent(sdk)) && sdk !in q
  {
    RmtreeKeepsWellFormed(r, sdk);
    assert RmtreeStep(r, sdk).nodes == Prune(r, sdk);
    assert !(sdk <= Parent(sdk));
  }

  /** A reset leaves nothing below the SDK directory, so pruning it and making it again gives the reset state. */
  lemma RemadeRoot(n: Nodes, r: Nodes, sdk: Path)
    requires ResetOf(n, r, sdk)
    ensures Prune(r, sdk)[sdk := Dir] == r
  {
  }

  /**
   * Running `generate_sdk_directory` again on what a successful run left
   * gives the same result.
   */
  lemma AssembleAgain(n: Nodes, build: Path, sdk: Path, parents: bool)
    requires WellFormed(n) && |sdk| > 0 && Apart(sdk, build) && Apart(sdk, SourceLib)
    ensures var a := Assemble(n, build, sdk, parents);
      a.outcome.Pass? ==> Assemble(a.nodes, build, sdk, parents) == a
  {
    var a := Assemble(n, build, sdk, parents);
    AssembledLayout(n, build, sdk, parents);
    if a.outcome.Pass? {
      var vars := ReadCache(n, build).value;
      var r := Reset(n, sdk, parents).nodes;
      var l := Layout(n, vars, build, sdk);
      LayoutRoot(n, vars, build, sdk);
      ResetAgain(n, r, l, sdk, parents);
      ApartBelow(sdk, build, CacheFile(build));
      ReadApart(n, r, l, sdk, CacheFile(build));
      assert ReadCache(a.nodes, build) == ReadCache(n, build);
    }
  }

  // ---------------------------------------------------------------------
  // The variants looked up in the cache

  /** Once a call has raised, the remaining stages make no further call. */
  lemma HeadersAfterFailure(a: Assembled, vars: Cache, build: Path, sdk: Path)
    requires a.outcome.Fail?
    ensures Headers(a, vars, build, sdk) == a
  {
  }

  /** A failure in the first `j` axes is the failure of the whole loop. */
  lemma {:induction false} AxisTreesFailureSticks(a: Assembled, vars: Cache, sdk: Path, axes: seq<Axis>, j: nat)
    requires j <= |axes| && AxisTrees(a, vars, sdk, axes[..j]).outcome.Fail?
    ensures AxisTrees(a, vars, sdk, axes) == AxisTrees(a, vars, sdk, axes[..j])
    decreases |axes|
  {
    if j == |axes| {
      assert axes[..j] == axes;
    } else {
      var init := axes[..|axes| - 1];
      assert init[..j] == axes[..j];
      AxisTreesFailureSticks(a, vars, sdk, init, j);
    }
  }

  /** The loop over the axes gets through only if every variant is in the cache as a string or a path. */
  lemma {:induction false} AxisTreesNeedValues(a: Assembled, vars: Cache, sdk: Path, axes: seq<Axis>)
    ensures AxisTrees(a, vars, sdk, axes).outcome.Pass? ==> forall i :: 0 <= i < |axes| ==> PathPart(vars, axes[i].key).Ok?
    decreases |axes|
  {
    if |axes| > 0 {
      var init := axes[..|axes| - 1];
      AxisTreesNeedValues(a, vars, sdk, init);
      if AxisTrees(a, vars, sdk, axes).outcome.Pass? {
        forall i | 0 <= i < |axes| - 1
          ensures axes[i] == init[i]
        {
        }
      }
    }
  }

  /**
   * A successful assembly found all four variants in the cache, each a string
   * or a path (a missing key raises KeyError, a boolean cannot be joined to a
   * path).
   */
  lemma AssemblyNeedsVariants(n: Nodes, build: Path, sdk: Path, parents: bool)
    ensures var a := Assemble(n, build, sdk, parents);
      a.outcome.Pass? ==>
        && ReadCache(n, build).Ok?
        && forall i :: 0 <= i < |Axes| ==> PathPart(ReadCache(n, build).value, Axes[i].key).Ok?
  {
    if ReadCache(n, build).Ok? {
      var vars := ReadCache(n, build).value;
      var looped := AxisTrees(Skeleton(Reset(n, sdk, parents), build, sdk), vars, sdk, Axes);
      AxisTreesNeedValues(Skeleton(Reset(n, sdk, parents), build, sdk), vars, sdk, Axes);
      if looped.outcome.Fail? {
        HeadersAfterFailure(looped, vars, build, sdk);
      }
    }
  }

  /**
   * The first variant the cache does not provide ends the assembly with that
   * lookup's error, leaving the filesystem as the earlier steps left it.
   */
  lemma MissingVariantIsAnError(n: Nodes, build: Path, sdk: Path, parents: bool, i: nat)
    requires i < |Axes| && ReadCache(n, build).Ok?
    requires var skeleton := Skeleton(Reset(n, sdk, parents), build, sdk);
      AxisTrees(skeleton, ReadCache(n, build).value, sdk, Axes[..i]).outcome.Pass?
    requires PathPart(ReadCache(n, build).value, Axes[i].key).Err?
    ensures var skeleton := Skeleton(Reset(n, sdk, parents), build, sdk);
      var vars := ReadCache(n, build).value;
      Assemble(n, build, sdk, parents) ==
        Assembled(Fail(PathPart(vars, Axes[i].key).error), AxisTrees(skeleton, vars, sdk, Axes[..i]).nodes)
  {
    var skeleton := Skeleton(Reset(n, sdk, parents), build, sdk);
    var vars := ReadCache(n, build).value;
    AxisTreesStop(skeleton, vars, sdk, Axes, i);
    HeadersAfterFailure(AxisTrees(skeleton, vars, sdk, Axes), vars, build, sdk);
  }

  /** A failed lookup ends the loop over the axes. */
  lemma AxisTreesStop(a: Assembled, vars: Cache, sdk: Path, axes: seq<Axis>, i: nat)
    requires i < |axes| && AxisTrees(a, vars, sdk, axes[..i]).outcome.Pass? && PathPart(vars, axes[i].key).Err?
    ensures AxisTrees(a, vars, sdk, axes) == Assembled(Fail(PathPart(vars, axes[i].key).error), AxisTrees(a, vars, sdk, axes[..i]).nodes)
  {
    assert axes[..i + 1][..i] == axes[..i];
    AxisTreesFailureSticks(a, vars, sdk, axes, i + 1);
  }
}
