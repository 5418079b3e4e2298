/**
 * The external commands both scripts start with `os.system` (cmake, ninja,
 * `setup-build.sh`). What they do inside is not modelled: a `Shell` gives,
 * for a command line run in a directory on a given tree, its exit status and
 * the tree it leaves behind.
 */
module Commands {
  import opened FsModel

  /** A command line handed to `os.system`, and the working directory it runs in. */
  datatype Command = Command(cwd: Path, line: string)

  /** The exit status of each command, and the tree it leaves. */
  datatype Shell = Shell(status: (Command, Nodes) -> int, effect: (Command, Nodes) -> Nodes)

  /** `ninja kernel.elf libsel4.a`, the second step of every build. */
  const NinjaLine: string := "ninja kernel.elf libsel4.a"

  /**
   * The commands behave as build tools: they leave a well-formed tree and
   * change nothing outside the directory they run in.
   */
  ghost predicate Confined(sh: Shell) {
    forall c: Command, n: Nodes :: WellFormed(n) ==> WellFormed(sh.effect(c, n)) && SameOutside(n, sh.effect(c, n), c.cwd)
  }

  /** `os.system(cmd)` inside `with cwd(dir)`. */
  method System(fs: FileSystem, sh: Shell, c: Command) returns (status: int)
    requires fs.Valid() && Confined(sh)
    modifies fs
    ensures fs.Valid()
    ensures status == sh.status(c, old(fs.nodes)) && fs.nodes == sh.effect(c, old(fs.nodes))
  {
    status := sh.status(c, fs.nodes);
    fs.nodes := sh.effect(c, fs.nodes);
  }

  /** A confined command keeps every entry outside the directory it runs in, and adds none there. */
  lemma ConfinedKeeps(sh: Shell, c: Command, n: Nodes)
    requires Confined(sh) && WellFormed(n)
    ensures WellFormed(sh.effect(c, n)) && KeptOutside(n, sh.effect(c, n), c.cwd) && AddedAbove(n, sh.effect(c, n), c.cwd)
  {
  }
}
