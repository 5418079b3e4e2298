/**
 * The part of the filesystem the build scripts touch: a finite map from paths
 * (sequences of components) to nodes, and the pathlib / shutil / os operations
 * they call (`Path.exists`, `Path.mkdir`, `Path.open` for reading, `rmtree`,
 * `copy` and `copytree`). Each operation is a total function that returns how
 * it ended and the new map; a raised exception is a `Fail` outcome, and the
 * map a failure leaves behind is the map before the call. `FileSystem` is the
 * mutable filesystem the scripts act on.
 */
module FsModel {
  import opened Wrappers

  /** Components from the directory the scripts run in; [] is that directory. */
  type Path = seq<string>

  /** A regular file (its contents as text) or a directory. */
  datatype Node = File(data: string) | Dir

  type Nodes = map<Path, Node>

  /** The OSError subclasses the operations raise. */
  datatype FsError =
    | NotFound(path: Path)        // FileNotFoundError
    | NotADirectory(path: Path)   // NotADirectoryError
    | IsADirectory(path: Path)    // IsADirectoryError
    | AlreadyExists(path: Path)   // FileExistsError
    | SameFile(path: Path)        // shutil.SameFileError

  /** How an operation ended, and the filesystem it left. */
  datatype Step = Step(outcome: Outcome<FsError>, nodes: Nodes)

  function Parent(p: Path): Path
    requires |p| > 0
  {
    p[..|p| - 1]
  }

  function Basename(p: Path): string {
    if |p| == 0 then "" else p[|p| - 1]
  }

  predicate IsDir(n: Nodes, p: Path) {
    p in n && n[p].Dir?
  }

  predicate IsFile(n: Nodes, p: Path) {
    p in n && n[p].File?
  }

  /** A directory tree: the root is a directory and every other entry sits in a directory. */
  predicate WellFormed(n: Nodes) {
    && IsDir(n, [])
    && forall p {:trigger Parent(p)} :: p in n && p != [] ==> IsDir(n, Parent(p))
  }

  /** Some proper ancestor of `p` is a regular file. */
  predicate FileAbove(n: Nodes, p: Path)
    decreases |p|
  {
    |p| > 0 && (IsFile(n, Parent(p)) || FileAbove(n, Parent(p)))
  }

  /** Neither path lies below the other. */
  predicate Apart(a: Path, b: Path) {
    !(a <= b) && !(b <= a)
  }

  /** Two trees that agree on every path outside `dir`. */
  ghost predicate SameOutside(n1: Nodes, n2: Nodes, dir: Path) {
    forall k :: !(dir <= k) ==> (k in n1 <==> k in n2) && (k in n1 ==> n1[k] == n2[k])
  }

  /** Every entry of `n1` outside `dir` is still in `n2`, unchanged. */
  ghost predicate KeptOutside(n1: Nodes, n2: Nodes, dir: Path) {
    forall k :: k in n1 && !(dir <= k) ==> k in n2 && n2[k] == n1[k]
  }

  /** Every entry `n2` has beyond `n1` outside `dir` is a directory above `dir`. */
  ghost predicate AddedAbove(n1: Nodes, n2: Nodes, dir: Path) {
    forall k :: k in n2 && k !in n1 && !(dir <= k) ==> k < dir && n2[k] == Dir
  }

  /** Everything below a path apart from `a` is apart from `a`. */
  lemma ApartBelow(a: Path, b: Path, q: Path)
    requires Apart(a, b) && b <= q
    ensures Apart(a, q)
  {
  }

  // ---------------------------------------------------------------------
  // Facts about well-formed trees

  /** Every ancestor of an entry is a directory of the tree. */
  lemma {:induction false} AncestorsAreDirs(n: Nodes, p: Path, q: Path)
    requires WellFormed(n) && p in n && q < p
    ensures IsDir(n, q)
    decreases |p|
  {
    assert IsDir(n, Parent(p));
    if q != Parent(p) {
      assert q < Parent(p);
      AncestorsAreDirs(n, Parent(p), q);
    }
  }

  /** A path that is absent, or a file, has no descendants in the tree. */
  lemma NoDescendants(n: Nodes, p: Path)
    requires WellFormed(n) && !IsDir(n, p)
    ensures forall q :: q in n && p < q ==> false
  {
    forall q | q in n && p < q
      ensures false
    {
      AncestorsAreDirs(n, q, p);
    }
  }

  /** In a tree no file lies above an entry. */
  lemma {:induction false} NoFileAboveEntry(n: Nodes, p: Path)
    requires WellFormed(n) && p in n
    ensures !FileAbove(n, p)
    decreases |p|
  {
    if |p| > 0 {
      AncestorsAreDirs(n, p, Parent(p));
      NoFileAboveEntry(n, Parent(p));
    }
  }

  // ---------------------------------------------------------------------
  // The operations

  /** What `Path.open()` for reading yields: the text of a regular file. */
  function ReadResult(n: Nodes, p: Path): Result<string, FsError> {
    if p !in n then Err(NotFound(p))
    else if n[p].Dir? then Err(IsADirectory(p))
    else Ok(n[p].data)
  }

  /** The tree without `p` and everything below it. */
  function Prune(n: Nodes, p: Path): Nodes {
    map q | q in n && !(p <= q) :: n[q]
  }

  lemma PruneKeeps(n: Nodes, p: Path, k: Path)
    ensures k in Prune(n, p) <==> k in n && !(p <= k)
    ensures k in Prune(n, p) ==> Prune(n, p)[k] == n[k]
  {
  }

  /** `shutil.rmtree(p)`. */
  function RmtreeStep(n: Nodes, p: Path): Step {
    if p !in n then Step(Fail(NotFound(p)), n)
    else if n[p].File? then Step(Fail(NotADirectory(p)), n)
    else Step(Pass, Prune(n, p))
  }

  /** `os.mkdir(p)`: creates one directory whose parent is a directory. */
  function OsMkdir(n: Nodes, p: Path): Outcome<FsError> {
    if p in n then Fail(AlreadyExists(p))
    else if |p| == 0 then Fail(NotFound(p))
    else if FileAbove(n, p) then Fail(NotADirectory(p))
    else if Parent(p) !in n then Fail(NotFound(p))
    else Pass
  }

  /**
   * `Path.mkdir(parents, exist_ok)`: `os.mkdir`; on FileNotFoundError and
   * with `parents`, the parent with `parents=True, exist_ok=True` and then the
   * path itself again; any other OSError is ignored only with `exist_ok` when
   * the path is a directory.
   */
  function MkdirStep(n: Nodes, p: Path, parents: bool, existOk: bool): Step
    decreases |p|, if parents then 1 else 0
  {
    match OsMkdir(n, p)
    case Pass => Step(Pass, n[p := Dir])
    case Fail(e) =>
      if e.NotFound? then
        if !parents || |p| == 0 then Step(Fail(e), n)
        else
          var up := MkdirStep(n, Parent(p), true, true);
          if up.outcome.Fail? then up else MkdirStep(up.nodes, p, false, existOk)
      else if existOk && IsDir(n, p) then Step(Pass, n)
      else Step(Fail(e), n)
  }

  /** Where `shutil.copy(src, dst)` writes: into `dst` when it is a directory. */
  function CopyTarget(n: Nodes, src: Path, dst: Path): Path {
    if IsDir(n, dst) then dst + [Basename(src)] else dst
  }

  /**
   * `shutil.copy(src, dst)`: the contents of the regular file `src` written to
   * `CopyTarget`, replacing a file already there.
   */
  function CopyStep(n: Nodes, src: Path, dst: Path): Step {
    var t := CopyTarget(n, src, dst);
    if src in n && src == t then Step(Fail(SameFile(src)), n)
    else if src !in n then Step(Fail(NotFound(src)), n)
    else if n[src].Dir? then Step(Fail(IsADirectory(src)), n)
    else if IsDir(n, t) then Step(Fail(IsADirectory(t)), n)
    else if |t| == 0 then Step(Fail(NotFound(t)), n)
    else if FileAbove(n, t) then Step(Fail(NotADirectory(t)), n)
    else if Parent(t) !in n then Step(Fail(NotFound(t)), n)
    else Step(Pass, n[t := File(n[src].data)])
  }

  /** The places `shutil.copytree(src, dst)` writes to: one per entry below `src`. */
  function GraftKeySet(n: Nodes, src: Path, dst: Path): set<Path> {
    set q | q in n && src <= q :: dst + q[|src|..]
  }

  /** The tree below `src` (inclusive) moved to below `dst`. */
  function Graft(n: Nodes, src: Path, dst: Path): Nodes {
    assert forall k | k in GraftKeySet(n, src, dst) :: dst <= k && src + k[|dst|..] in n by {
      forall k | k in GraftKeySet(n, src, dst)
        ensures dst <= k && src + k[|dst|..] in n
      {
        var q :| q in n && src <= q && k == dst + q[|src|..];
        assert k[|dst|..] == q[|src|..];
        assert q == src + q[|src|..];
      }
    }
    map k | k in GraftKeySet(n, src, dst) :: n[src + k[|dst|..]]
  }

  /**
   * `shutil.copytree(src, dst)`: lists the directory `src`, creates `dst`
   * with its missing parents (`os.makedirs`, FileExistsError when it
   * exists), then copies every entry below `src` to the same place below `dst`.
   */
  function CopytreeStep(n: Nodes, src: Path, dst: Path): Step {
    if src !in n then Step(Fail(NotFound(src)), n)
    else if n[src].File? then Step(Fail(NotADirectory(src)), n)
    else
      var made := MkdirStep(n, dst, true, false);
      if made.outcome.Fail? then made
      else Step(Pass, made.nodes + Graft(n, src, dst))
  }

  // ---------------------------------------------------------------------
  // What the operations do to a tree

  /** `os.mkdir` succeeds exactly when the path is new and its parent a directory. */
  lemma OsMkdirPasses(n: Nodes, p: Path)
    requires WellFormed(n)
    ensures OsMkdir(n, p).Pass? <==> p !in n && |p| > 0 && IsDir(n, Parent(p))
  {
    if p !in n && |p| > 0 && IsDir(n, Parent(p)) {
      NoFileAboveEntry(n, Parent(p));
      assert !FileAbove(n, p);
    }
  }

  /**
   * `mkdir` only adds directories, all of them the path or its ancestors;
   * every entry already present stays as it was, and a failure changes nothing.
   */
  lemma {:induction false} MkdirOnlyAdds(n: Nodes, p: Path, parents: bool, existOk: bool)
    ensures var r := MkdirStep(n, p, parents, existOk);
      && (forall q :: q in n ==> q in r.nodes && r.nodes[q] == n[q])
      && (forall q :: q in r.nodes && q !in n ==> q <= p && r.nodes[q] == Dir)
    decreases |p|, if parents then 1 else 0
  {
    match OsMkdir(n, p)
    case Pass =>
    case Fail(e) =>
      if e.NotFound? && parents && |p| > 0 {
        MkdirOnlyAdds(n, Parent(p), true, true);
        var up := MkdirStep(n, Parent(p), true, true);
        if up.outcome.Pass? {
          MkdirOnlyAdds(up.nodes, p, false, existOk);
        }
      }
  }

  /** A `mkdir` that succeeds leaves a directory at the path. */
  lemma {:induction false} MkdirMakesDir(n: Nodes, p: Path, parents: bool, existOk: bool)
    ensures var r := MkdirStep(n, p, parents, existOk);
      r.outcome.Pass? ==> IsDir(r.nodes, p)
    decreases |p|, if parents then 1 else 0
  {
    match OsMkdir(n, p)
    case Pass =>
    case Fail(e) =>
      if e.NotFound? && parents && |p| > 0 {
        var up := MkdirStep(n, Parent(p), true, true);
        if up.outcome.Pass? {
          MkdirMakesDir(up.nodes, p, false, existOk);
        }
      }
  }

  lemma {:induction false} MkdirKeepsWellFormed(n: Nodes, p: Path, parents: bool, existOk: bool)
    requires WellFormed(n)
    ensures WellFormed(MkdirStep(n, p, parents, existOk).nodes)
    decreases |p|, if parents then 1 else 0
  {
    match OsMkdir(n, p)
    case Pass =>
      assert IsDir(n, Parent(p));
    case Fail(e) =>
      if e.NotFound? && parents && |p| > 0 {
        MkdirKeepsWellFormed(n, Parent(p), true, true);
        var up := MkdirStep(n, Parent(p), true, true);
        if up.outcome.Pass? {
          MkdirKeepsWellFormed(up.nodes, p, false, existOk);
        }
      }
  }

  /** A `mkdir` that fails leaves the tree as it was. */
  lemma {:induction false} MkdirFailureChangesNothing(n: Nodes, p: Path, parents: bool, existOk: bool)
    requires WellFormed(n)
    ensures var r := MkdirStep(n, p, parents, existOk);
      r.outcome.Fail? ==> r.nodes == n
    decreases |p|, if parents then 1 else 0
  {
    match OsMkdir(n, p)
    case Pass =>
    case Fail(e) =>
      if e.NotFound? && parents && |p| > 0 {
        MkdirFailureChangesNothing(n, Parent(p), true, true);
        var up := MkdirStep(n, Parent(p), true, true);
        if up.outcome.Pass? {
          MkdirOnlyAdds(n, Parent(p), true, true);
          MkdirMakesDir(n, Parent(p), true, true);
          MkdirKeepsWellFormed(n, Parent(p), true, true);
          assert p !in up.nodes;
          OsMkdirPasses(up.nodes, p);
        }
      }
  }

  lemma RmtreeKeepsWellFormed(n: Nodes, p: Path)
    requires WellFormed(n) && p != []
    ensures WellFormed(RmtreeStep(n, p).nodes)
  {
    var r := RmtreeStep(n, p).nodes;
    forall k | k in r && k != []
      ensures IsDir(r, Parent(k))
    {
      if p <= Parent(k) {
        assert p <= k;
      }
    }
  }

  /**
   * `shutil.copy` into an existing directory succeeds exactly when the source
   * is a regular file, it is not the file it would replace, and no directory
   * sits where the copy goes.
   */
  lemma CopyIntoDirPasses(n: Nodes, src: Path, dst: Path)
    requires WellFormed(n) && IsDir(n, dst)
    ensures var t := dst + [Basename(src)];
      && CopyTarget(n, src, dst) == t
      && (CopyStep(n, src, dst).outcome.Pass? <==> IsFile(n, src) && src != t && !IsDir(n, t))
  {
    var t := dst + [Basename(src)];
    assert Parent(t) == dst;
    NoFileAboveEntry(n, dst);
  }

  /** What a successful `shutil.copy` into a directory leaves. */
  lemma CopyIntoDirResult(n: Nodes, src: Path, dir: Path)
    requires IsDir(n, dir) && CopyStep(n, src, dir).outcome.Pass?
    ensures IsFile(n, src)
    ensures CopyStep(n, src, dir).nodes == n[dir + [Basename(src)] := n[src]]
  {
  }

  lemma CopyKeepsWellFormed(n: Nodes, src: Path, dst: Path)
    requires WellFormed(n)
    ensures WellFormed(CopyStep(n, src, dst).nodes)
  {
    var s := CopyStep(n, src, dst);
    if s.outcome.Pass? {
      var t := CopyTarget(n, src, dst);
      NoDescendants(n, t);
      forall k | k in s.nodes && k != []
        ensures IsDir(s.nodes, Parent(k))
      {
        if k != t {
          assert IsDir(n, Parent(k));
        }
      }
    }
  }

  /** `mkdir` of a path whose parent exists either fails or adds just that directory. */
  lemma MkdirBelowExisting(n: Nodes, p: Path, parents: bool, existOk: bool)
    requires |p| > 0 && Parent(p) in n && p !in n
    ensures var r := MkdirStep(n, p, parents, existOk);
      r.outcome.Pass? ==> r.nodes == n[p := Dir]
  {
  }

  /**
   * `shutil.copytree` to a new directory whose parent exists: the directory,
   * then the copy of the tree.
   */
  lemma CopytreeBelowExisting(n: Nodes, src: Path, dst: Path)
    requires |dst| > 0 && Parent(dst) in n && CopytreeStep(n, src, dst).outcome.Pass?
    ensures dst !in n && IsDir(n, src)
    ensures CopytreeStep(n, src, dst).nodes == n[dst := Dir] + Graft(n, src, dst)
  {
    MkdirBelowExisting(n, dst, true, false);
  }

  /** Where `shutil.copytree` puts an entry below `src`. */
  lemma GraftAt(n: Nodes, src: Path, dst: Path, q: Path)
    requires q in n && src <= q
    ensures dst + q[|src|..] in Graft(n, src, dst)
    ensures Graft(n, src, dst)[dst + q[|src|..]] == n[q]
  {
    var k := dst + q[|src|..];
    assert k in GraftKeySet(n, src, dst);
    assert k[|dst|..] == q[|src|..];
    assert q == src + q[|src|..];
  }

  /** Every entry `shutil.copytree` writes lies below `dst` and mirrors one below `src`. */
  lemma GraftKeys(n: Nodes, src: Path, dst: Path, k: Path)
    requires k in Graft(n, src, dst)
    ensures dst <= k
    ensures src + k[|dst|..] in n && Graft(n, src, dst)[k] == n[src + k[|dst|..]]
  {
    var q :| q in n && src <= q && k == dst + q[|src|..];
    assert k[|dst|..] == q[|src|..];
    assert q == src + q[|src|..];
  }

  /** `copytree` reads only the tree below `src`. */
  lemma GraftSameBelow(m: Nodes, n: Nodes, src: Path, dst: Path)
    requires forall q :: src <= q ==> (q in m <==> q in n) && (q in n ==> m[q] == n[q])
    ensures Graft(m, src, dst) == Graft(n, src, dst)
  {
    var gm, gn := Graft(m, src, dst), Graft(n, src, dst);
    forall k | k in gm
      ensures k in gn && gm[k] == gn[k]
    {
      GraftKeys(m, src, dst, k);
      assert src <= src + k[|dst|..];
      GraftMirror(m, n, src, dst, k);
    }
    forall k | k in gn
      ensures k in gm
    {
      GraftKeys(n, src, dst, k);
      assert src <= src + k[|dst|..];
      GraftMirror(n, m, src, dst, k);
    }
  }

  lemma GraftMirror(m: Nodes, n: Nodes, src: Path, dst: Path, k: Path)
    requires k in Graft(m, src, dst) && src + k[|dst|..] in m
    requires var q := src + k[|dst|..]; q in n && n[q] == m[q]
    ensures k in Graft(n, src, dst) && Graft(n, src, dst)[k] == Graft(m, src, dst)[k]
  {
    GraftKeys(m, src, dst, k);
    var q := src + k[|dst|..];
    GraftAt(n, src, dst, q);
    assert q[|src|..] == k[|dst|..];
    assert dst + k[|dst|..] == k;
  }

  /** The parent of an entry strictly below a path. */
  lemma ParentBelow(dst: Path, rel: Path)
    requires |rel| > 0
    ensures Parent(dst + rel) == dst + Parent(rel)
  {
  }

  /** A `mkdir` without `exist_ok` that succeeds made a new, empty directory. */
  lemma MkdirMadeFresh(n: Nodes, p: Path, parents: bool)
    requires WellFormed(n) && MkdirStep(n, p, parents, false).outcome.Pass?
    ensures var made := MkdirStep(n, p, parents, false).nodes;
      && p !in n && WellFormed(made) && IsDir(made, p)
      && forall k :: k in made && p <= k ==> k == p
  {
    var made := MkdirStep(n, p, parents, false).nodes;
    MkdirKeepsWellFormed(n, p, parents, false);
    MkdirOnlyAdds(n, p, parents, false);
    MkdirMakesDir(n, p, parents, false);
    assert p !in n;
    NoDescendants(n, p);
    forall k | k in made && p <= k
      ensures k == p
    {
      if k !in n {
        assert k <= p;
      }
    }
  }

  /** A copy of a directory tree put on a new, empty directory leaves a tree. */
  lemma GraftKeepsWellFormed(m: Nodes, n: Nodes, src: Path, dst: Path)
    requires WellFormed(m) && WellFormed(n) && IsDir(m, dst) && IsDir(n, src)
    requires forall k :: k in m && dst <= k ==> k == dst
    ensures WellFormed(m + Graft(n, src, dst))
  {
    var g := Graft(n, src, dst);
    var r := m + g;
    GraftAt(n, src, dst, src);
    assert src[|src|..] == [] && dst + [] == dst;
    forall k | k in r && k != []
      ensures IsDir(r, Parent(k))
    {
      if k in g && k != dst {
        GraftInsideParent(n, src, dst, k);
      } else {
        assert IsDir(m, Parent(k));
        assert Parent(k) !in g by {
          if Parent(k) in g {
            GraftKeys(n, src, dst, Parent(k));
          }
        }
      }
    }
    if [] in g {
      GraftKeys(n, src, dst, []);
    }
  }

  /** The parent of an entry `copytree` writes, other than `dst` itself, is a directory it writes. */
  lemma GraftInsideParent(n: Nodes, src: Path, dst: Path, k: Path)
    requires WellFormed(n) && k in Graft(n, src, dst) && k != dst
    ensures IsDir(Graft(n, src, dst), Parent(k))
  {
    GraftKeys(n, src, dst, k);
    var rel := k[|dst|..];
    assert k == dst + rel;
    assert rel != [];
    ParentBelow(dst, rel);
    ParentBelow(src, rel);
    var q := src + rel;
    assert IsDir(n, Parent(q));
    assert src <= Parent(q);
    GraftAt(n, src, dst, Parent(q));
    assert Parent(q)[|src|..] == Parent(rel);
  }

  lemma CopytreeKeepsWellFormed(n: Nodes, src: Path, dst: Path)
    requires WellFormed(n)
    ensures WellFormed(CopytreeStep(n, src, dst).nodes)
  {
    if src in n && n[src].Dir? && MkdirStep(n, dst, true, false).outcome.Pass? {
      MkdirMadeFresh(n, dst, true);
      GraftKeepsWellFormed(MkdirStep(n, dst, true, false).nodes, n, src, dst);
    } else if src in n && n[src].Dir? {
      MkdirKeepsWellFormed(n, dst, true, false);
    }
  }

  /** `shutil.copy` changes nothing but the file it writes. */
  lemma CopyKeepsOthers(n: Nodes, src: Path, dst: Path, k: Path)
    requires k in n && k != CopyTarget(n, src, dst)
    ensures var r := CopyStep(n, src, dst).nodes;
      k in r && r[k] == n[k]
  {
  }

  /** `shutil.copytree` changes nothing outside its destination. */
  lemma CopytreeKeepsOthers(n: Nodes, src: Path, dst: Path, k: Path)
    requires k in n && !(dst <= k)
    ensures var r := CopytreeStep(n, src, dst).nodes;
      k in r && r[k] == n[k]
  {
    MkdirOnlyAdds(n, dst, true, false);
    if k in Graft(n, src, dst) {
      GraftKeys(n, src, dst, k);
    }
  }

  /** A `shutil.copytree` that succeeds leaves a directory at its destination. */
  lemma CopytreeMakesDir(n: Nodes, src: Path, dst: Path)
    requires CopytreeStep(n, src, dst).outcome.Pass?
    ensures IsDir(CopytreeStep(n, src, dst).nodes, dst)
  {
    GraftAt(n, src, dst, src);
    assert dst + src[|src|..] == dst;
  }

  // ---------------------------------------------------------------------
  // The mutable filesystem

  /** One filesystem call, as the scripts issue them. */
  datatype Op =
    | RmtreeOp(path: Path)
    | MkdirOp(path: Path, parents: bool, existOk: bool)
    | CopyOp(src: Path, dst: Path)
    | CopytreeOp(src: Path, dst: Path)

  function Apply(n: Nodes, op: Op): Step {
    match op
    case RmtreeOp(p) => RmtreeStep(n, p)
    case MkdirOp(p, parents, existOk) => MkdirStep(n, p, parents, existOk)
    case CopyOp(src, dst) => CopyStep(n, src, dst)
    case CopytreeOp(src, dst) => CopytreeStep(n, src, dst)
  }

  /** The filesystem the scripts change in place, always a well-formed tree. */
  class FileSystem {
    var nodes: Nodes

    ghost predicate Valid()
      reads this
    {
      WellFormed(nodes)
    }

    constructor (init: Nodes)
      requires WellFormed(init)
      ensures Valid() && nodes == init
    {
      nodes := init;
    }

    /** `Path.exists()`. */
    method Exists(p: Path) returns (b: bool)
      ensures b <==> p in nodes
    {
      b := p in nodes;
    }

    /** `Path.open()` and reading the whole text. */
    method ReadText(p: Path) returns (r: Result<string, FsError>)
      ensures r == ReadResult(nodes, p)
    {
      if p !in nodes {
        r := Err(NotFound(p));
      } else if nodes[p].Dir? {
        r := Err(IsADirectory(p));
      } else {
        r := Ok(nodes[p].data);
      }
    }

    method Rmtree(p: Path) returns (outcome: Outcome<FsError>)
      requires Valid() && p != []
      modifies this
      ensures Valid()
      ensures Step(outcome, nodes) == RmtreeStep(old(nodes), p)
    {
      RmtreeKeepsWellFormed(nodes, p);
      var s := RmtreeStep(nodes, p);
      outcome, nodes := s.outcome, s.nodes;
    }

    method Mkdir(p: Path, parents: bool, existOk: bool) returns (outcome: Outcome<FsError>)
      requires Valid()
      modifies this
      ensures Valid()
      ensures Step(outcome, nodes) == MkdirStep(old(nodes), p, parents, existOk)
    {
      MkdirKeepsWellFormed(nodes, p, parents, existOk);
      var s := MkdirStep(nodes, p, parents, existOk);
      outcome, nodes := s.outcome, s.nodes;
    }

    /** `shutil.copy` into a directory that exists. */
    method Copy(src: Path, dst: Path) returns (outcome: Outcome<FsError>)
      requires Valid() && IsDir(nodes, dst)
      modifies this
      ensures Valid()
      ensures Step(outcome, nodes) == CopyStep(old(nodes), src, dst)
    {
      CopyKeepsWellFormed(nodes, src, dst);
      var s := CopyStep(nodes, src, dst);
      outcome, nodes := s.outcome, s.nodes;
    }

    /** `shutil.copytree`; a destination that exists already raises FileExistsError. */
    method Copytree(src: Path, dst: Path) returns (outcome: Outcome<FsError>)
      requires Valid()
      modifies this
      ensures Valid()
      ensures Step(outcome, nodes) == CopytreeStep(old(nodes), src, dst)
    {
      CopytreeKeepsWellFormed(nodes, src, dst);
      var s := CopytreeStep(nodes, src, dst);
      outcome, nodes := s.outcome, s.nodes;
    }
  }
}
