# seL4 SDK build drivers in Dafny

This project models the two scripts that build the seL4 kernel SDK. It also
proves properties of that model.

- `build.py` builds one or more (platform, configuration) pairs. The
  platform table gives each platform its configurations, and each
  configuration is a set of CMake overrides. They are passed to cmake as
  `-D<name>=<value>` options, in ascending name order. For each pair the
  script configures with `cmake -GNinja` and compiles with
  `ninja kernel.elf libsel4.a`, both in `build/<platform>/<configuration>`.
  When both commands exit with 0, it assembles
  `sdk/<platform>/<configuration>`.
- `build_all.py` does the same for a fixed list of platforms: one build per
  platform in `build/<platform>`, configured by `setup-build.sh`. The
  assembly goes to `sdk/<platform>`.
- The assembly, `generate_sdk_directory`, has these steps:
  - It parses the build's `CMakeCache.txt`.
  - It replaces any earlier SDK directory with an empty one.
  - It copies in the kernel image, the library and the public headers.
  - It copies four header trees, chosen by the cache values `KernelArch`,
    `KernelSel4Arch`, `KernelPlatform` and `KernelWordSize`.
  - It copies the ten headers the build generated.

The model's modules:

- `Text`: the string operations the scripts rely on.
  - `strip`, `split(c, 1)`, `readlines`, `sorted` and `" ".join`.
  - Splitting a command line into words at spaces, which is how the shell
    splits it when no word holds a character the shell treats specially.
- `CMakeCache`: `parse_cmake_cache`.
  - The loop as a method, proved equal to a fold over the lines.
  - Every error it raises.
- `FsModel`: the filesystem as a map from paths to nodes.
  - `mkdir`, `rmtree`, `shutil.copy` and `shutil.copytree` as total
    functions. Each one either fails with the `OSError` Python raises or
    gives the new tree.
  - A `FileSystem` class whose methods update its `nodes` field in place.
- `Commands`: `os.system` inside `with cwd(dir)`. An external command is an
  exit status and an effect on the tree. `Confined` assumes a command
  changes nothing outside the directory it runs in.
- `SdkAssembly`: `generate_sdk_directory` as a function over the tree. It
  comes with the layout it produces and the properties of that layout.
- `SdkGenerator`: the method that makes the same calls in place, proved
  equal to the function.
- `ConfigOptions`: the option loop of `build` and the cmake command line.
- `BuildMatrix`: the `PLATFORMS` table of build.py, the argparse choices,
  and the selection of pairs in `main`.
- `BuildStep`: one build (mkdir, configure, ninja, assembly) and how the
  loop of builds runs. Both scripts use it. They pass it their own build and
  SDK directories and configure command, and build.py passes `parents=True`
  to both of its `mkdir` calls, where build_all.py passes it to neither.
- `BuildDriver`: `build` and `main` of build.py.
- `BuildAllDriver` (file `BuildAll.dfy`): `build_one` and `main` of
  build_all.py.

Points where the scripts behave in ways worth knowing:

- `generate_sdk_directory` runs in `build` without a `try`. When it raises,
  the exception leaves `main`, the remaining targets are not built, and the
  exit status is 1. `BuildStep.RunJobsContinue` and
  `BuildDriver.CrashStopsMain` state this.
- When a cache file defines a name twice, the last definition wins
  (`CMakeCache.LastDefinitionWins`). Nothing rejects the duplicate.
- `main` creates `build/` and `sdk/` before it parses its arguments. A usage
  error therefore still leaves both directories. This holds for a value
  argparse refuses as outside its `choices`, which exits with status 2
  (`BuildDriver.UsageErrorAfterDirs`, `BuildDriver.InvalidChoiceAfterDirs`).
- `main` tests `--platform` by truth value, so an empty platform name counts
  as no platform (`BuildMatrix.SelectionErrors`).
- `main` discards what `build` returns. A build whose command failed does
  not change the exit status (`BuildDriver.MainIgnoresReturnedCodes`).

## Model

| member | source | states |
|---|---|---|
| Text.StripIsTrimmed | build.py:77 | What `strip` keeps has no white space at either end. |
| Text.StripIsInfix | build.py:77 | What `strip` keeps is a contiguous part of the line, with only white space cut off before and after it. |
| Text.StripIgnoresSurroundingSpace | build.py:76-77 | White space around a line, including its terminator, never changes what `strip` keeps. |
| Text.SplitOnce | build.py:84-85 | `split(c, 1)` gives no result exactly when `c` does not occur. Otherwise the text is the first part, `c`, then the rest, and the first part holds no `c`. |
| Text.SplitOnceJoin | build.py:84-85 | Splitting `a + c + b` at the first `c` gives back `a` and `b` whenever `a` holds no `c`. |
| Text.Lines | build.py:75-76 | No line `readlines` yields, terminator dropped, contains a line break. |
| Text.LinesOfLine | build.py:75-76 | Text without a terminator reads as that one line, or as no line when it is empty. |
| Text.LinesAfterBreak | build.py:75-76 | A line then "\n", "\r\n" or a lone "\r" reads as that line followed by the lines of the rest. |
| Text.LinesOfTerminated | build.py:75-76 | Lines written each followed by "\n" read back as exactly those lines (round trip). |
| Text.SortedKeys | build.py:191 | `sorted` gives the keys in strictly ascending order: each key exactly once, and nothing else. |
| Text.IncreasingUnique | build.py:191 | Only one ascending order of a set of keys exists, so the option order is fully determined. |
| Text.WordsOfJoin | build.py:198 | Joining words free of the shell's special characters with single spaces and splitting them again gives back the same words. |
| CMakeCache.ParseCMakeCache | build.py:72-108 | The line loop, with its skips, splits, type dispatch and errors, returns exactly the fold of the lines: a dictionary or the first error. |
| CMakeCache.SkippedLinesAddNothing | build.py:77-83 | A blank line, a `#` comment or a `//` comment, with any surrounding white space, defines nothing. |
| CMakeCache.NoColonIsAnError | build.py:84 | A kept line with no `:` fails to unpack into a name and a value, an error. |
| CMakeCache.NoEqualsIsAnError | build.py:85 | A kept line whose text after its first `:` holds no `=` is an error, whatever the name and the rest, each of which may be empty. |
| CMakeCache.NameOnlyIsAnError | build.py:84-85 | `NAME:`, with nothing after the colon, is an error. |
| CMakeCache.NoNameIsAnError | build.py:84-85 | `:x`, with no name before the colon, is an error. |
| CMakeCache.UnknownTypeIsAnError | build.py:104-105 | A type other than STRING, STATIC, INTERNAL, FILEPATH, PATH or BOOL raises "Invalid value type" with the type and the line number. |
| CMakeCache.UnknownBoolTokensAreErrors | build.py:96-103 | A BOOL value other than ON, OFF, NO, FALSE or the empty text is an error (the dictionary lookup raises). |
| CMakeCache.ParseEntryLine | build.py:84-107 | A `name:TYPE=value` line is decided by its name, type and value alone. |
| CMakeCache.ParseFormatEntry | build.py:77-107 | Formatting an entry and parsing it back gives the same name and value, whatever white space surrounds it (round trip). |
| CMakeCache.DecodeEncodeValue | build.py:86-103 | Every value is encoded with a type the parser maps back to that same value. |
| CMakeCache.DecodeKeepsText | build.py:86-103 | STRING, STATIC and INTERNAL give a string, FILEPATH and PATH a path, and BOOL a boolean. Encoding the result gives back the raw text, except NO and FALSE, which both read as false. |
| CMakeCache.CacheOkIffEveryLineParses | build.py:76-107 | The parse succeeds if and only if every line parses. |
| CMakeCache.CacheErrorIsFirstBadLine | build.py:76-105 | A failing parse reports the error of its first bad line, whatever follows it. |
| CMakeCache.CacheErrorSticks | build.py:76-105 | Once a prefix of the lines fails, more lines do not change the result. |
| CMakeCache.LastDefinitionWins | build.py:107 | A name holds the value of its last definition. |
| CMakeCache.UndefinedNamesAbsent | build.py:74-108 | A name no line defines is not a key of the result. |
| ConfigOptions.Defines | build.py:191-197 | One option per name, in the given order, each the `-D<name>=<value>` of that name's override. |
| ConfigOptions.RenderOptions | build.py:190-198 | The loop over the sorted overrides builds exactly the options of the overrides in ascending name order, joined by spaces. |
| ConfigOptions.OptionWords | build.py:191-198 | For any ascending enumeration of the override names, the shell splits the option text into exactly the options for those names, in that order. |
| ConfigOptions.EveryOverrideRendered | build.py:189-198 | Every override has its option on the command line, and every word of the option text is the option of some override. |
| ConfigOptions.DefinesAreWords | build.py:196 | An option whose name and value hold none of the shell's special characters is a single shell word. |
| ConfigOptions.CMakeCommandWords | build.py:199 | The command splits into `cmake`, `-GNinja`, `-DKernelPlatform=<platform>`, the override options in ascending name order, and the source directory. |
| ConfigOptions.RenderedBoolIsCacheBool | build.py:192-193 | A boolean override rendered as ON or OFF reads back from the cache as the same BOOL. |
| BuildMatrix.ConfigsOf | build.py:189 | `PLATFORMS[p]` is the configuration list of some entry of the table named `p`. |
| BuildMatrix.OverridesOf | build.py:189 | `PLATFORMS[p][c]` is the overrides of some entry named `c`. |
| BuildMatrix.PlatformTargets | build.py:234-235 | One pair per configuration of the platform, in declaration order. |
| BuildMatrix.AllTargetsMembers | build.py:229-231 | With `--all`, a pair is selected if and only if some entry of the table has that platform and configuration. |
| BuildMatrix.AllTargetsDeclared | build.py:229-231 | With `--all`, a pair is selected if and only if the table declares that configuration for that platform. |
| BuildMatrix.AllTargetsOnce | build.py:229-231 | With `--all`, no pair is selected twice. |
| BuildMatrix.AllTargetsSound | build.py:229-231 | Every pair `--all` selects is declared, and each is selected once. |
| BuildMatrix.PlatformTargetsSound | build.py:232-235 | Every pair `--platform p` selects is declared for `p`, and each is selected once. |
| BuildMatrix.PlatformsKeysOnce | build.py:8-63 | The table names no platform twice and no configuration twice within a platform. |
| BuildMatrix.PlatformNamesOnce | build.py:8-63 | The 24 platform names of the table are pairwise distinct. |
| BuildMatrix.AppendConfigs | build.py:230-231 | The inner `append` loop adds, after what was there, one pair per configuration of the platform, in order. |
| BuildMatrix.AppendAll | build.py:229-231 | The nested loops over `PLATFORMS.items()` build the list of every pair of the table, in table order. |
| BuildMatrix.SelectionErrors | build.py:219-241 | Each usage error happens exactly when its condition holds: a value outside the `choices` (argparse); then `--platform` with `--all`; `--configuration` with `--all`; a configuration the platform lacks; neither `--all` nor a non-empty `--platform`. |
| BuildMatrix.SelectionSound | build.py:223-239 | Every selected pair is declared in the table, and no pair is selected twice. |
| BuildMatrix.SelectTargets | build.py:219-241 | The argument check and the selection in `main`, with its loops and `parser.error` calls, return exactly the selection function's result. |
| BuildMatrix.ConfigurationChoicesOfPlatforms | build.py:65-66 | The configuration choices argparse offers are `debug` and `default`. |
| BuildMatrix.Pc99HasNoDefault | build.py:10-16 | argparse admits `--platform pc99 --configuration default`, but pc99 declares no `default`. Main reports "not valid for platform". |
| FsModel.OsMkdirPasses | build_all.py:98 | A plain `mkdir` succeeds exactly when the path is new and its parent is a directory. |
| FsModel.MkdirOnlyAdds | build.py:187 | `mkdir` only adds directories, all of them the path or its ancestors. Every existing entry stays as it was. |
| FsModel.MkdirMakesDir | build.py:129 | A successful `mkdir` leaves a directory at the path. |
| FsModel.MkdirFailureChangesNothing | build.py:215-216 | A failed `mkdir` leaves the tree unchanged. |
| FsModel.CopyIntoDirPasses | build.py:138 | Copying into an existing directory writes `dir/<basename>`. It succeeds exactly when the source is a regular file, is not the target itself, and the target is not a directory. |
| FsModel.CopyKeepsOthers | build.py:138-142 | `shutil.copy` changes no entry but the file it writes. |
| FsModel.CopytreeKeepsOthers | build.py:153 | `shutil.copytree` changes nothing outside its destination. |
| FsModel.CopytreeMakesDir | build.py:153 | A successful `copytree` leaves a directory at its destination. |
| FsModel.GraftKeys | build.py:161-162 | Every entry `copytree` writes lies below the destination, and mirrors an entry below the source with the same contents. |
| FsModel.GraftSameBelow | build.py:161-162 | What `copytree` writes depends only on the tree below its source. |
| FsModel.GraftKeepsWellFormed | build.py:153 | A copied tree, put on a new empty directory, leaves a well-formed tree. |
| FsModel.FileSystem.Exists | build.py:127 | `Path.exists()` is true exactly when the path is in the tree. |
| FsModel.FileSystem.ReadText | build.py:75 | Opening and reading a path gives its text. It fails for a missing path and for a directory. |
| FsModel.FileSystem.Rmtree | build.py:128 | The in-place `rmtree` leaves the state the `rmtree` function describes, and keeps the tree well formed. |
| FsModel.FileSystem.Mkdir | build.py:129 | The in-place `mkdir` leaves the state the `mkdir` function describes, and keeps the tree well formed. |
| FsModel.FileSystem.Copy | build.py:138 | The in-place `shutil.copy` leaves the state the copy function describes, and keeps the tree well formed. |
| FsModel.FileSystem.Copytree | build.py:153 | The in-place `shutil.copytree` leaves the state the copytree function describes, and keeps the tree well formed. |
| Commands.System | build.py:201 | `os.system` returns the command's exit status and leaves the tree the command leaves. |
| Commands.ConfinedKeeps | build.py:188-208 | A command run in `dir` keeps every entry outside `dir`. Outside `dir` it adds nothing but directories above it. |
| SdkAssembly.AssembledLayout | build.py:122-182 | A successful assembly read the cache. The reset succeeded. The result is the reset state with exactly the SDK tree `Layout` written below the SDK directory. |
| SdkAssembly.AssemblyKeepsOutside | build.py:124-129 | A cache that cannot be read or parsed stops the assembly with nothing changed. A successful assembly keeps every entry outside the SDK directory, and adds nothing there but directories above it. |
| SdkAssembly.AssembledFiles | build.py:135-182 | A successful assembly found each of its twelve sources as a regular file, and leaves each file with its source's contents: the kernel image, the library and the ten generated headers. |
| SdkAssembly.LayoutFiles | build.py:135-182 | The SDK tree holds all twelve files, each with its source's contents. |
| SdkAssembly.HeaderTreeFiles | build.py:164-182 | The ten generated headers survive every later copy, each with the contents of the file it was copied from. |
| SdkAssembly.IgnoresOldSdk | build.py:127-129 | What an earlier SDK directory held makes no difference. Once the cache is read, the assembly gives the same tree whatever the old SDK tree was. |
| SdkAssembly.AssembleAgain | build.py:122-182 | Assembling again from what a successful assembly left gives the same result (idempotence). |
| SdkAssembly.AssemblyNeedsVariants | build.py:155-162 | A successful assembly found all four variants in the cache, each a string or a path. |
| SdkAssembly.MissingVariantIsAnError | build.py:161 | The first variant the cache lacks, or holds as a BOOL, ends the assembly with that lookup's error. The tree is left as the earlier copies made it. |
| SdkAssembly.AxisTreesStop | build.py:155-162 | A failed lookup ends the loop over the axes. No later tree is copied. |
| SdkAssembly.AxisTreesNeedValues | build.py:155-162 | The loop over the axes gets through only if every variant it looks up is a string or a path. |
| SdkGenerator.ReadCacheFile | build.py:124-125 | Reading and parsing `CMakeCache.txt` gives the parsed cache, or the read or parse error. |
| SdkGenerator.ResetSdk | build.py:127-129 | Removing the old SDK directory and making a new one leaves exactly the reset the assembly function describes. |
| SdkGenerator.MakeSkeleton | build.py:131-153 | `bin`, `lib`, `include` and the public headers are made through the calls of the skeleton function. After a success `include` and `include/sel4` are directories. |
| SdkGenerator.CopyAxisTrees | build.py:155-162 | The loop over the axes makes exactly the function's calls. After a success the four header directories are present. |
| SdkGenerator.CopyGeneratedHeaders | build.py:165-171 | The five copies into `include` and `include/sel4` are the function's, and keep the header directories. |
| SdkGenerator.CopyHeaders | build.py:164-182 | The generated, `interfaces` and `kernel` headers are copied with the calls the function describes. |
| SdkGenerator.GenerateSdkDirectory | build.py:122-182 | The in-place `generate_sdk_directory` ends exactly as the assembly function does: same outcome, same tree. |
| BuildStep.CompileIn | build.py:188-208 | The in-place configure and ninja calls leave exactly the ending and tree of the compile function. |
| BuildStep.FinishBuild | build.py:204-211 | After a failed command nothing more happens. After two successes the SDK is assembled, and an assembly error becomes the build's exception. |
| BuildStep.CompileEndings | build.py:201-208 | The commands give 1 exactly when one of them exited non-zero. ninja runs exactly when the configure command exited 0. |
| BuildStep.BuildEndings | build.py:185-211 | A build returns 1 exactly when its build directory was made and a command failed. It returns `None` only when both commands and the assembly succeeded. An exception comes from mkdir, with no command run, or from the assembly. |
| BuildStep.FailedBuildKeepsRest | build.py:187-208 | A build whose command failed keeps everything outside its build directory. Outside it, it adds nothing but directories above it. |
| BuildStep.BuildKeepsRest | build.py:185-211 | A build that returns keeps everything outside its build and SDK directories. Outside them it adds only directories above them. |
| BuildStep.AssembledKept | build.py:210-211 | The same, for a build that went as far as a successful assembly. |
| BuildStep.BuiltSdkHasFiles | build.py:210-211 | A build that returns `None` found every SDK file's source as a regular file, and leaves the SDK file as the commands left that source. |
| BuildStep.RunJobsContinue | build.py:243-244 | The loop goes past builds that return 1 and stops only at one that raises. There is at most one ending per build, only the last can be an exception, and without one every build was made. |
| BuildStep.RunJobsInOrder | build.py:243-244 | The builds run in list order. The `i`-th starts from the tree the earlier ones left, and its ending and commands follow theirs. |
| BuildStep.RunJobsStop | build.py:243-244 | Once a build raises, the remaining builds are not made. |
| BuildStep.VerdictOfJobs | build.py:243-244 | The loop ends normally exactly when no build raised, and then every build was made. Otherwise it ends with its last build's exception. |
| BuildStep.MakeRootDirs | build.py:215-216 | The two `mkdir(exist_ok=True)` calls, made in place, leave exactly the state the function describes. |
| BuildStep.RootsMade | build.py:215-216 | After the two calls `build/` and `sdk/` are directories, no entry changed, and nothing else was added. |
| BuildDriver.BuildJob | build.py:186-210 | A build of `(p, c)` works in `build/p/c` and assembles into `sdk/p/c`. The SDK directory lies apart from the build directory and from the sources. |
| BuildDriver.BuildCommandWords | build.py:189-199 | The first command of `build(p, c)` splits into `cmake`, `-GNinja`, `-DKernelPlatform=p`, the overrides of `c` in ascending name order, and the source directory. |
| BuildDriver.Build | build.py:185-211 | The in-place `build` ends exactly as the build function does: same ending, same commands, same tree. |
| BuildDriver.BuildAll | build.py:243-244 | The in-place loop over the selected pairs gives exactly the endings, commands and tree of the loop function. |
| BuildDriver.RunMain | build.py:214-244 | The in-place `main` ends exactly as the main function does. |
| BuildDriver.UsageErrorAfterDirs | build.py:215-241 | A usage error happens exactly when both directories were made and the selection was refused. It reports that refusal and leaves both directories, with no build. |
| BuildDriver.InvalidChoiceAfterDirs | build.py:214-222 | A `--platform` or `--configuration` outside its `choices` ends `main` with exit status 2, with `build/` and `sdk/` made and no build run. |
| BuildDriver.MainRunsLoop | build.py:243-244 | Once the directories exist and the selection is accepted, `main` ends as its loop does. |
| BuildDriver.MainIgnoresReturnedCodes | build.py:214-247 | `main` exits with 0 exactly when the directories were made, the selection was accepted and no build raised, even if some builds returned 1. Every selected pair was then built. |
| BuildDriver.CrashStopsMain | build.py:243-247 | An exception stops `main` at the build that raised it, with exit status 1. Every earlier build returned. |
| BuildAllDriver.OneJob | build_all.py:158-172 | `build_one(p)` works in `build/p` and assembles into `sdk/p`, apart from the build directory and the sources. |
| BuildAllDriver.SetupCommandWords | build_all.py:161 | The setup command splits into the script and `-DKernelPlatform=<platform>`. |
| BuildAllDriver.BuildOne | build_all.py:155-173 | The in-place `build_one` ends exactly as the shared build function does, with a plain SDK `mkdir`. |
| BuildAllDriver.SdkDirNeedsSdkRoot | build_all.py:96-98 | Without `parents`, making a new `sdk/<p>` succeeds exactly when `sdk/` is a directory. |
| BuildAllDriver.BuildOneKeepsRoots | build_all.py:155-173 | A `build_one` that returns keeps `build/` and `sdk/` as directories. |
| BuildAllDriver.BuildEach | build_all.py:180-181 | The loop over the platforms gives exactly the loop function's result. When `build/` and `sdk/` exist at the start, every build starts with them too. |
| BuildAllDriver.RunMain | build_all.py:176-184 | The in-place `main` ends exactly as the main function does. |
| BuildAllDriver.MainBuildsEveryPlatform | build_all.py:176-184 | `main` exits with 0 exactly when both directories were made and no `build_one` raised, and then every platform was built. Otherwise it exits with 1. |
| BuildAllDriver.MainBuildsInListOrder | build_all.py:7-35 | The `i`-th build of `main` is `build_one` of the `i`-th listed platform, started from what the earlier builds left. |

## Left out

- `os.system` is abstract. A `Shell` gives each command an exit status and
  an effect on the tree. The drivers assume `Confined`: a command changes
  nothing outside the directory it runs in. What cmake, ninja and
  `setup-build.sh` actually do is not part of this model.
- The `cwd` context manager is modelled only through the working directory
  attached to each command. `chdir`, and the restoring of the previous
  directory on exit, are not modelled.
- `print` output and argparse's own usage and help text are left out. Of
  argparse's own checks only `choices` is modelled, as the usage error
  `NotAChoice`. Unknown options and a missing option value are not.
- The shell's quoting, expansions and operators are not modelled. Words are
  split at spaces only, and the lemmas about command lines require words free
  of the characters the shell treats specially (`Text.ShellSpecial`).
- The line number in `MissingColon`, `MissingEquals` and `InvalidBool` is the
  model's own. Python's `ValueError` at build.py:84-85 and `KeyError` at
  build.py:97-103 carry none. Only "Invalid value type" names the line.
- `SdkAssembly.PathPart` appends a cache value as one path component.
  pathlib's `/` would split a value holding `/`, let an absolute value replace
  the prefix, and drop an empty value. None of these is modelled.
- File contents are texts, not bytes. Files are compared by their contents.
  Permissions, metadata, symbolic links and `Path.resolve()` are not
  modelled. The source root and the `setup-build.sh` path are parameters.
- The Python exception types are kept as error values. Their messages, such
  as the text of "Invalid value type", are not.
- The files the build generates and the headers in the source tree, such as
  `constants.h`, are entries of an abstract tree. Their contents are not
  part of this model.
- The drivers take the platform table as a parameter. `BuildMatrix.Platforms`
  and `BuildAllDriver.PlatformList` are the scripts' own tables, and the
  lemmas about those tables speak of them directly.
- BuildAllDriver.BuildEach: states that `build/` and `sdk/` survive, as a
  postcondition of the loop. A lemma that the loop function preserves a
  well-formed tree is not stated; well-formedness reaches the loop through
  the in-place methods.
- FsModel.FileSystem.Copy: requires an existing destination directory,
  which is how every call in the scripts uses `shutil.copy`. The `CopyStep`
  function also covers a destination that is not a directory.
- Nothing rejects a duplicate key, reports a missing build artifact by name,
  or rolls back a half-written SDK directory, because the scripts do none of
  these.
