/**
 * The configure step of `build`: a platform configuration's override table
 * becomes `-D<name>=<value>` options, in ascending name order, booleans
 * written `ON`/`OFF`, joined by single spaces; the cmake command line puts
 * `-DKernelPlatform=<platform>` before them and the source directory after.
 */
module ConfigOptions {
  import opened Wrappers
  import opened Text
  import opened CMakeCache

  /** A value of an override table: a boolean, or any other value by its `str()`. */
  datatype OptValue = BoolOpt(flag: bool) | TextOpt(text: string)

  type Overrides = map<string, OptValue>

  /** `"ON" if val else "OFF"` for a boolean, `str(val)` otherwise. */
  function Render(v: OptValue): string {
    match v
    case BoolOpt(b) => if b then "ON" else "OFF"
    case TextOpt(s) => s
  }

  /** `f"-D{arg}={str_val}"`. */
  function Define(name: string, v: OptValue): string {
    "-D" + name + "=" + Render(v)
  }

  /** The options for `names`, in that order. */
  function Defines(names: seq<string>, m: Overrides): (ds: seq<string>)
    requires forall k :: k in names ==> k in m
    ensures |ds| == |names|
    ensures forall i :: 0 <= i < |names| ==> ds[i] == Define(names[i], m[names[i]])
  {
    if |names| == 0 then []
    else
      var last := names[|names| - 1];
      Defines(names[..|names| - 1], m) + [Define(last, m[last])]
  }

  lemma DefinesNext(names: seq<string>, m: Overrides, i: int)
    requires forall k :: k in names ==> k in m
    requires 0 <= i < |names|
    ensures Defines(names[..i + 1], m) == Defines(names[..i], m) + [Define(names[i], m[names[i]])]
  {
    assert names[..i + 1][..i] == names[..i];
  }

  /** `config_str`: the options of every override, in ascending name order. */
  function OptionsText(m: Overrides): string {
    Join(Defines(SortedKeys(m.Keys), m), " ")
  }

  /** The loop over `sorted(config_args.items())` that builds `config_str`. */
  method RenderOptions(m: Overrides) returns (configStr: string)
    ensures configStr == OptionsText(m)
  {
    var names := SortedKeys(m.Keys);
    var configStrs: seq<string> := [];
    for i := 0 to |names|
      invariant configStrs == Defines(names[..i], m)
    {
      var arg := names[i];
      var val := m[arg];
      var strVal: string;
      if val.BoolOpt? {
        strVal := if val.flag then "ON" else "OFF";
      } else {
        strVal := val.text;
      }
      assert strVal == Render(val);
      DefinesNext(names, m, i);
      configStrs := configStrs + ["-D" + arg + "=" + strVal];
    }
    assert names[..|names|] == names;
    configStr := Join(configStrs, " ");
  }

  /** `f"cmake -GNinja -DKernelPlatform={platform} {config_str} {SOURCE_PATH.absolute()}"`. */
  function CMakeCommand(platform: string, configStr: string, source: string): string {
    "cmake -GNinja -DKernelPlatform=" + platform + " " + configStr + " " + source
  }

  /** Names and rendered values the shell reads as they are: each option stays one word on the shell's command line. */
  predicate Plain(m: Overrides) {
    forall k :: k in m ==> Literal(k) && Literal(Render(m[k]))
  }

  lemma DefineIsWord(name: string, v: OptValue)
    requires Literal(name) && Literal(Render(v))
    ensures IsWord(Define(name, v))
  {
    assert Literal("-D") && Literal("=");
    LiteralAppend("-D", name);
    LiteralAppend("-D" + name, "=");
    LiteralAppend("-D" + name + "=", Render(v));
  }

  lemma DefinesAreWords(names: seq<string>, m: Overrides)
    requires Plain(m) && forall k :: k in names ==> k in m
    ensures forall i :: 0 <= i < |names| ==> IsWord(Defines(names, m)[i])
  {
    forall i | 0 <= i < |names|
      ensures IsWord(Defines(names, m)[i])
    {
      DefineIsWord(names[i], m[names[i]]);
    }
  }

  /**
   * For any enumeration of the override names in ascending order, the shell
   * sees `config_str` as exactly the options for those names, in that order.
   */
  lemma OptionWords(m: Overrides, names: seq<string>)
    requires Plain(m)
    requires Increasing(names) && forall k :: k in names <==> k in m
    ensures Words(OptionsText(m)) == Defines(names, m)
  {
    IncreasingUnique(names, SortedKeys(m.Keys));
    DefinesAreWords(names, m);
    WordsOfJoin(Defines(names, m));
  }

  /** Every override has its option in `config_str`, and every word of `config_str` is one of them. */
  lemma EveryOverrideRendered(m: Overrides)
    requires Plain(m)
    ensures forall k :: k in m ==> Define(k, m[k]) in Words(OptionsText(m))
    ensures forall w :: w in Words(OptionsText(m)) ==> exists k :: k in m && w == Define(k, m[k])
  {
    var names := SortedKeys(m.Keys);
    OptionWords(m, names);
    var ds := Defines(names, m);
    forall k | k in m
      ensures Define(k, m[k]) in ds
    {
      var i :| 0 <= i < |names| && names[i] == k;
      assert ds[i] == Define(k, m[k]);
    }
    forall w | w in ds
      ensures exists k :: k in m && w == Define(k, m[k])
    {
      var i :| 0 <= i < |ds| && ds[i] == w;
      assert names[i] in m && w == Define(names[i], m[names[i]]);
    }
  }

  lemma WordThen(w: string, rest: string)
    requires IsWord(w)
    ensures Words(w + [' '] + rest) == [w] + Words(rest)
  {
    WordsAppend(w, rest);
    WordsOfWord(w);
  }

  lemma ThreeWordsThen(a: string, b: string, c: string, rest: string)
    requires IsWord(a) && IsWord(b) && IsWord(c)
    ensures Words(a + [' '] + (b + [' '] + (c + [' '] + rest))) == [a, b, c] + Words(rest)
  {
    WordThen(c, rest);
    WordThen(b, c + [' '] + rest);
    WordThen(a, b + [' '] + (c + [' '] + rest));
  }

  lemma CommandShape(platform: string, opts: string, source: string)
    ensures CMakeCommand(platform, opts, source)
         == "cmake" + [' '] + ("-GNinja" + [' '] + (("-DKernelPlatform=" + platform) + [' '] + (opts + [' '] + source)))
  {
  }

  /** `-DKernelPlatform=<platform>` is one word when the platform is. */
  lemma FlagIsWord(platform: string)
    requires IsWord(platform)
    ensures IsWord("-DKernelPlatform=" + platform)
  {
    assert Literal("-DKernelPlatform=");
    LiteralAppend("-DKernelPlatform=", platform);
  }

  lemma CMakeIsWord()
    ensures IsWord("cmake") && IsWord("-GNinja")
  {
  }

  /** The words of the cmake command line around whatever `config_str` is. */
  lemma CommandWords(platform: string, opts: string, source: string)
    requires IsWord(platform) && IsWord(source)
    ensures Words(CMakeCommand(platform, opts, source))
         == ["cmake", "-GNinja", "-DKernelPlatform=" + platform] + Words(opts) + [source]
  {
    CommandShape(platform, opts, source);
    FlagIsWord(platform);
    CMakeIsWord();
    ThreeWordsThen("cmake", "-GNinja", "-DKernelPlatform=" + platform, opts + [' '] + source);
    WordsAppend(opts, source);
    WordsOfWord(source);
  }

  /**
   * The cmake command line splits into `cmake`, `-GNinja`,
   * `-DKernelPlatform=<platform>`, the override options in ascending name
   * order, and the source directory, in that order.
   */
  lemma CMakeCommandWords(platform: string, m: Overrides, source: string)
    requires IsWord(platform) && IsWord(source) && Plain(m)
    ensures Words(CMakeCommand(platform, OptionsText(m), source))
         == ["cmake", "-GNinja", "-DKernelPlatform=" + platform] + Defines(SortedKeys(m.Keys), m) + [source]
  {
    CommandWords(platform, OptionsText(m), source);
    OptionWords(m, SortedKeys(m.Keys));
  }

  /** A boolean override reads back from the CMake cache as the same `BOOL`. */
  lemma RenderedBoolIsCacheBool(b: bool, lineNo: nat)
    ensures DecodeValue("BOOL", Render(BoolOpt(b)), lineNo) == Ok(Bool(Some(b)))
  {
  }
}
