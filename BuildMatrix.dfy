/**
 * The `PLATFORMS` table of build.py and the choice of what to build from the
 * command-line arguments in `main`: every (platform, configuration) pair of
 * the table with `--all`, the configurations of one platform with
 * `--platform`, or one pair with `--platform` and `--configuration`.
 */
module BuildMatrix {
  import opened Wrappers
  import opened Text
  import opened ConfigOptions

  /** A platform's configurations, in declaration order, each with its overrides. */
  type Configurations = seq<(string, Overrides)>

  /** Platforms in declaration order, each with its configurations. */
  type Table = seq<(string, Configurations)>

  /** The overrides of every `debug` configuration. */
  const DebugOverrides: Overrides := map[
    "KernelDebugBuild" := BoolOpt(true),
    "KernelPrinting" := BoolOpt(true),
    "KernelVerificationBuild" := BoolOpt(false)]

  const DefaultOnly: Configurations := [("default", map[])]

  const DefaultAndDebug: Configurations := [("default", map[]), ("debug", DebugOverrides)]

  /** `PLATFORMS`, in the order of its entries. */
  const Platforms: Table := [
    ("pc99", [("debug", DebugOverrides)]),
    ("allwinnerA20", DefaultOnly),
    ("am335x", DefaultOnly),
    ("apq8064", DefaultOnly),
    ("bcm2837", DefaultOnly),
    ("exynos4", DefaultOnly),
    ("exynos5", DefaultOnly),
    ("hikey", DefaultOnly),
    ("imx31", DefaultOnly),
    ("imx6", DefaultOnly),
    ("imx7", DefaultOnly),
    ("omap3", DefaultOnly),
    ("tk1", DefaultOnly),
    ("zynq7000", DefaultOnly),
    ("fvp", DefaultOnly),
    ("imx8mm-evk", DefaultOnly),
    ("imx8mq-evk", DefaultOnly),
    ("odroidc2", DefaultOnly),
    ("rockpro64", DefaultOnly),
    ("tx1", DefaultOnly),
    ("tx2", DefaultOnly),
    ("zynqmp", DefaultOnly),
    ("tqma8xqp", DefaultAndDebug),
    ("ipq8074", DefaultAndDebug)]

  // ---------------------------------------------------------------------
  // Reading the table as the nested dictionaries it is

  function PlatformNames(t: Table): set<string> {
    set i | 0 <= i < |t| :: t[i].0
  }

  function ConfigNames(cs: Configurations): set<string> {
    set j | 0 <= j < |cs| :: cs[j].0
  }

  /** A dictionary literal holds each key once. */
  ghost predicate KeysOnce(t: Table) {
    && (forall i, j :: 0 <= i < j < |t| ==> t[i].0 != t[j].0)
    && (forall i, j, k :: 0 <= i < |t| && 0 <= j < k < |t[i].1| ==> t[i].1[j].0 != t[i].1[k].0)
  }

  /** `PLATFORMS[p]`. */
  function ConfigsOf(t: Table, p: string): (cs: Configurations)
    requires p in PlatformNames(t)
    ensures exists i :: 0 <= i < |t| && t[i] == (p, cs)
  {
    if t[0].0 == p then t[0].1
    else
      assert p in PlatformNames(t[1..]) by {
        var i :| 0 <= i < |t| && t[i].0 == p;
        assert t[1..][i - 1].0 == p;
      }
      ConfigsOf(t[1..], p)
  }

  /** `c in PLATFORMS[p]`. */
  predicate Declared(t: Table, p: string, c: string) {
    p in PlatformNames(t) && c in ConfigNames(ConfigsOf(t, p))
  }

  /** `PLATFORMS[platform][configuration]`. */
  function OverridesOf(cs: Configurations, c: string): (m: Overrides)
    requires c in ConfigNames(cs)
    ensures exists j :: 0 <= j < |cs| && cs[j] == (c, m)
  {
    if cs[0].0 == c then cs[0].1
    else
      assert c in ConfigNames(cs[1..]) by {
        var j :| 0 <= j < |cs| && cs[j].0 == c;
        assert cs[1..][j - 1].0 == c;
      }
      OverridesOf(cs[1..], c)
  }

  /** `PLATFORM_CHOICES`. */
  function PlatformChoices(t: Table): seq<string> {
    SortedKeys(PlatformNames(t))
  }

  /** `CONFIGURATION_CHOICES`: every configuration name of any platform, sorted. */
  function ConfigurationChoices(t: Table): seq<string> {
    SortedKeys(set i, j | 0 <= i < |t| && 0 <= j < |t[i].1| :: t[i].1[j].0)
  }

  // ---------------------------------------------------------------------
  // The pairs to build

  /** `(platform, config)` for each of the platform's configurations, in declaration order. */
  function PlatformTargets(p: string, cs: Configurations): (r: seq<(string, string)>)
    ensures |r| == |cs| && forall j :: 0 <= j < |cs| ==> r[j] == (p, cs[j].0)
  {
    if |cs| == 0 then [] else PlatformTargets(p, cs[..|cs| - 1]) + [(p, cs[|cs| - 1].0)]
  }

  /** Every pair of the table: platforms in table order, each one's configurations in declaration order. */
  function AllTargets(t: Table): seq<(string, string)> {
    if |t| == 0 then []
    else AllTargets(t[..|t| - 1]) + PlatformTargets(t[|t| - 1].0, t[|t| - 1].1)
  }

  /** The pairs of a table that is two tables one after the other: the first one's, then the second one's. */
  lemma {:induction false} AllTargetsAppend(a: Table, b: Table)
    ensures AllTargets(a + b) == AllTargets(a) + AllTargets(b)
    decreases |b|
  {
    if |b| > 0 {
      assert (a + b)[..|a + b| - 1] == a + b[..|b| - 1];
      AllTargetsAppend(a, b[..|b| - 1]);
    } else {
      assert a + b == a;
    }
  }

  /** With `--all`, a pair is yielded iff it is in the table. */
  lemma {:induction false} AllTargetsMembers(t: Table, p: string, c: string)
    ensures (p, c) in AllTargets(t) <==> exists i, j :: 0 <= i < |t| && 0 <= j < |t[i].1| && t[i].0 == p && t[i].1[j].0 == c
    decreases |t|
  {
    if |t| > 0 {
      var init, last := t[..|t| - 1], t[|t| - 1];
      AllTargetsMembers(init, p, c);
      var here := PlatformTargets(last.0, last.1);
      if (p, c) in here {
        var j :| 0 <= j < |here| && here[j] == (p, c);
        assert t[|t| - 1].1[j].0 == c;
      }
      if exists i, j :: 0 <= i < |t| && 0 <= j < |t[i].1| && t[i].0 == p && t[i].1[j].0 == c {
        var i, j :| 0 <= i < |t| && 0 <= j < |t[i].1| && t[i].0 == p && t[i].1[j].0 == c;
        if i < |t| - 1 {
          assert init[i] == t[i];
        } else {
          assert here[j] == (p, c);
        }
      }
    }
  }

  /** In a table with no repeated key, a platform's entry is the one `PLATFORMS[p]` finds. */
  lemma {:induction false} ConfigsOfEntry(t: Table, i: nat)
    requires KeysOnce(t) && i < |t|
    ensures ConfigsOf(t, t[i].0) == t[i].1
    decreases i
  {
    if i > 0 {
      assert t[1..][i - 1] == t[i];
      ConfigsOfEntry(t[1..], i - 1);
    }
  }

  /** With `--all`, a pair is yielded iff the table declares that configuration for that platform. */
  lemma AllTargetsDeclared(t: Table, p: string, c: string)
    requires KeysOnce(t)
    ensures (p, c) in AllTargets(t) <==> Declared(t, p, c)
  {
    AllTargetsMembers(t, p, c);
    if p in PlatformNames(t) {
      var i :| 0 <= i < |t| && t[i].0 == p;
      ConfigsOfEntry(t, i);
      assert forall i' :: 0 <= i' < |t| && t[i'].0 == p ==> i' == i;
    }
  }

  /** With `--all`, no pair is yielded twice. */
  lemma {:induction false} AllTargetsOnce(t: Table)
    requires KeysOnce(t)
    ensures forall a, b :: 0 <= a < b < |AllTargets(t)| ==> AllTargets(t)[a] != AllTargets(t)[b]
    decreases |t|
  {
    if |t| > 0 {
      var init, last := t[..|t| - 1], t[|t| - 1];
      assert KeysOnce(init) by {
        forall i | 0 <= i < |init|
          ensures init[i] == t[i]
        {
        }
      }
      AllTargetsOnce(init);
      var before, here := AllTargets(init), PlatformTargets(last.0, last.1);
      forall a, b | 0 <= a < b < |before + here|
        ensures (before + here)[a] != (before + here)[b]
      {
        if a >= |before| {
          assert (before + here)[a] == here[a - |before|] && (before + here)[b] == here[b - |before|];
        } else if b >= |before| {
          var x := before[a];
          AllTargetsMembers(init, x.0, x.1);
          var i, j :| 0 <= i < |init| && 0 <= j < |init[i].1| && init[i].0 == x.0 && init[i].1[j].0 == x.1;
          assert init[i] == t[i];
          assert (before + here)[b] == here[b - |before|];
        }
      }
    }
  }

  /** Every pair `--all` yields is declared, and none is yielded twice. */
  lemma AllTargetsSound(t: Table)
    requires KeysOnce(t)
    ensures forall i :: 0 <= i < |AllTargets(t)| ==> Declared(t, AllTargets(t)[i].0, AllTargets(t)[i].1)
    ensures forall a, b :: 0 <= a < b < |AllTargets(t)| ==> AllTargets(t)[a] != AllTargets(t)[b]
  {
    AllTargetsOnce(t);
    forall i | 0 <= i < |AllTargets(t)|
      ensures Declared(t, AllTargets(t)[i].0, AllTargets(t)[i].1)
    {
      AllTargetsDeclared(t, AllTargets(t)[i].0, AllTargets(t)[i].1);
    }
  }

  /** Every pair `--platform p` yields is declared, and none is yielded twice. */
  lemma PlatformTargetsSound(t: Table, p: string)
    requires KeysOnce(t) && p in PlatformNames(t)
    ensures var ts := PlatformTargets(p, ConfigsOf(t, p));
      && (forall i :: 0 <= i < |ts| ==> Declared(t, ts[i].0, ts[i].1))
      && (forall a, b :: 0 <= a < b < |ts| ==> ts[a] != ts[b])
  {
    var configs := ConfigsOf(t, p);
    var e :| 0 <= e < |t| && t[e] == (p, configs);
    assert forall a, b :: 0 <= a < b < |configs| ==> t[e].1[a].0 != t[e].1[b].0;
  }

  // ---------------------------------------------------------------------
  // `main`'s choice of builds

  /** The parsed command line: `--all`, `--platform` and `--configuration`. */
  datatype Args = Args(all: bool, platform: Option<string>, configuration: Option<string>)

  /** argparse's refusal of a value outside the `choices`, and the `parser.error` calls of `main`. */
  datatype SelectionError =
    | NotAChoice                                               // argparse: "invalid choice"
    | PlatformWithAll                                          // "--platform must not be passed if --all is passed"
    | ConfigurationWithAll                                     // "--configuration must not be passed if --all is passed"
    | NotDeclared(configuration: string, platform: string)     // "configuration ... not valid for platform ..."
    | NoTarget                                                 // "Either --all or --platform must be specified"

  /** What argparse lets through: `--platform` and `--configuration` among their `choices`. */
  predicate Admitted(t: Table, args: Args) {
    && (args.platform.Some? ==> args.platform.value in PlatformChoices(t))
    && (args.configuration.Some? ==> args.configuration.value in ConfigurationChoices(t))
  }

  lemma PlatformsKeysOnce()
    ensures KeysOnce(Platforms)
  {
    PlatformNamesOnce();
    assert forall i, j, k :: 0 <= i < |Platforms| && 0 <= j < k < |Platforms[i].1| ==> Platforms[i].1[j].0 != Platforms[i].1[k].0;
  }

  /**
   * The platform names, compared a few rows at a time: row `i` against every
   * later row, for `i` in each block of rows.
   */
  lemma PlatformNamesOnce()
    ensures forall i, j :: 0 <= i < j < |Platforms| ==> Platforms[i].0 != Platforms[j].0
  {
    NamesOnceRows0To3();
    NamesOnceRows3To6();
    NamesOnceRows6To9();
    NamesOnceRows9To13();
    NamesOnceRows13To24();
  }

  lemma NamesOnceRows0To3()
    ensures forall i, j :: 0 <= i < 3 && i < j < |Platforms| ==> Platforms[i].0 != Platforms[j].0
  {
    forall i, j | 0 <= i < 3 && i < j < |Platforms|
      ensures Platforms[i].0 != Platforms[j].0
    {
    }
  }

  lemma NamesOnceRows3To6()
    ensures forall i, j :: 3 <= i < 6 && i < j < |Platforms| ==> Platforms[i].0 != Platforms[j].0
  {
    forall i, j | 3 <= i < 6 && i < j < |Platforms|
      ensures Platforms[i].0 != Platforms[j].0
    {
    }
  }

  lemma NamesOnceRows6To9()
    ensures forall i, j :: 6 <= i < 9 && i < j < |Platforms| ==> Platforms[i].0 != Platforms[j].0
  {
    forall i, j | 6 <= i < 9 && i < j < |Platforms|
      ensures Platforms[i].0 != Platforms[j].0
    {
    }
  }

  lemma NamesOnceRows9To13()
    ensures forall i, j :: 9 <= i < 13 && i < j < |Platforms| ==> Platforms[i].0 != Platforms[j].0
  {
    forall i, j | 9 <= i < 13 && i < j < |Platforms|
      ensures Platforms[i].0 != Platforms[j].0
    {
    }
  }

  lemma NamesOnceRows13To24()
    ensures forall i, j :: 13 <= i < j < |Platforms| ==> Platforms[i].0 != Platforms[j].0
  {
    forall i, j | 13 <= i < j < |Platforms|
      ensures Platforms[i].0 != Platforms[j].0
    {
    }
  }

  /** `for config in configs.keys(): builds.append((platform, config))`. */
  method AppendConfigs(builds: seq<(string, string)>, platform: string, configs: Configurations)
    returns (r: seq<(string, string)>)
    ensures r == builds + PlatformTargets(platform, configs)
  {
    r := builds;
    for j := 0 to |configs|
      invariant r == builds + PlatformTargets(platform, configs[..j])
    {
      r := r + [(platform, configs[j].0)];
      assert configs[..j + 1][..j] == configs[..j];
    }
    assert configs[..|configs|] == configs;
  }

  /** `for platform, configs in PLATFORMS.items(): ...`: every pair of the table. */
  method AppendAll(t: Table) returns (builds: seq<(string, string)>)
    ensures builds == AllTargets(t)
  {
    builds := [];
    for i := 0 to |t|
      invariant builds == AllTargets(t[..i])
    {
      builds := AppendConfigs(builds, t[i].0, t[i].1);
      assert t[..i + 1][..i] == t[..i];
    }
    assert t[..|t|] == t;
  }

  /**
   * The `builds` list of `main`, or the usage error argparse reports: a
   * `--platform` or `--configuration` outside its `choices` first; then every
   * pair of the table with `--all` alone; the platform's configurations with
   * `--platform` alone; the one pair with both, if the table declares it. An
   * empty platform name counts as none, as Python's truth test has it.
   */
  function Selection(t: Table, args: Args): Result<seq<(string, string)>, SelectionError> {
    if !Admitted(t, args) then Err(NotAChoice)
    else if args.all then
      if args.platform.Some? then Err(PlatformWithAll)
      else if args.configuration.Some? then Err(ConfigurationWithAll)
      else Ok(AllTargets(t))
    else if args.platform.None? || args.platform.value == "" then Err(NoTarget)
    else
      var p := args.platform.value;
      if args.configuration.None? then Ok(PlatformTargets(p, ConfigsOf(t, p)))
      else if Declared(t, p, args.configuration.value) then Ok([(p, args.configuration.value)])
      else Err(NotDeclared(args.configuration.value, p))
  }

  /** Each of the usage errors, and exactly when it is reported. */
  lemma SelectionErrors(t: Table, args: Args)
    ensures Selection(t, args) == Err(NotAChoice) <==> !Admitted(t, args)
    ensures Selection(t, args) == Err(PlatformWithAll) <==> Admitted(t, args) && args.all && args.platform.Some?
    ensures Selection(t, args) == Err(ConfigurationWithAll)
      <==> Admitted(t, args) && args.all && args.platform.None? && args.configuration.Some?
    ensures Selection(t, args) == Err(NoTarget)
      <==> Admitted(t, args) && !args.all && (args.platform.None? || args.platform.value == "")
    ensures Selection(t, args).Err? && Selection(t, args).error.NotDeclared?
      <==> Admitted(t, args) && !args.all && args.platform.Some? && args.platform.value != "" && args.configuration.Some?
           && !Declared(t, args.platform.value, args.configuration.value)
  {
  }

  /** Every selected pair is declared in the table, and none is selected twice. */
  lemma SelectionSound(t: Table, args: Args)
    requires KeysOnce(t)
    ensures var r := Selection(t, args);
      r.Ok? ==> && (forall i :: 0 <= i < |r.value| ==> Declared(t, r.value[i].0, r.value[i].1))
                && (forall a, b :: 0 <= a < b < |r.value| ==> r.value[a] != r.value[b])
  {
    if Admitted(t, args) && args.all {
      AllTargetsSound(t);
    } else if Admitted(t, args) && args.platform.Some? && args.configuration.None? {
      PlatformTargetsSound(t, args.platform.value);
    }
  }

  /** The selection of `main`, made with the loops and the `parser.error` calls it has. */
  method SelectTargets(t: Table, args: Args) returns (r: Result<seq<(string, string)>, SelectionError>)
    ensures r == Selection(t, args)
  {
    var builds: seq<(string, string)> := [];
    if !Admitted(t, args) {
      return Err(NotAChoice);
    }
    if args.all {
      if args.platform.Some? {
        return Err(PlatformWithAll);
      }
      if args.configuration.Some? {
        return Err(ConfigurationWithAll);
      }
      builds := AppendAll(t);
    } else if args.platform.Some? && args.platform.value != "" {
      var platform := args.platform.value;
      var configs := ConfigsOf(t, platform);
      if args.configuration.None? {
        builds := AppendConfigs(builds, platform, configs);
        assert builds == PlatformTargets(platform, configs);
      } else if args.configuration.value !in ConfigNames(configs) {
        return Err(NotDeclared(args.configuration.value, platform));
      } else {
        builds := [(platform, args.configuration.value)];
      }
    } else {
      return Err(NoTarget);
    }
    return Ok(builds);
  }

  /** `CONFIGURATION_CHOICES` is `["debug", "default"]`. */
  lemma ConfigurationChoicesOfPlatforms()
    ensures ConfigurationChoices(Platforms) == ["debug", "default"]
  {
    var names := set i, j | 0 <= i < |Platforms| && 0 <= j < |Platforms[i].1| :: Platforms[i].1[j].0;
    assert Platforms[0].1[0].0 == "debug" && Platforms[1].1[0].0 == "default";
    assert forall i, j :: 0 <= i < |Platforms| && 0 <= j < |Platforms[i].1| ==> Platforms[i].1[j].0 in ["debug", "default"];
    assert Less("debug", "default");
    IncreasingUnique(["debug", "default"], SortedKeys(names));
  }

  /** pc99 has only a `debug` configuration, so `--platform pc99 --configuration default` is refused. */
  lemma Pc99HasNoDefault()
    ensures Admitted(Platforms, Args(false, Some("pc99"), Some("default")))
    ensures !Declared(Platforms, "pc99", "default")
    ensures Selection(Platforms, Args(false, Some("pc99"), Some("default"))) == Err(NotDeclared("default", "pc99"))
  {
    assert Platforms[0].0 == "pc99";
    assert Platforms[1].1[0].0 == "default";
  }
}
