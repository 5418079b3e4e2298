/**
 * The reader of CMake's `CMakeCache.txt` (`parse_cmake_cache`, identical in
 * build.py and build_all.py). Every line is stripped; blank lines and lines
 * starting with `#` or `//` are skipped; any other line has the shape
 * `NAME:TYPE=VALUE`, split at the first `:` and then at the first `=`, and the
 * value is decoded by its type tag. A later line for the same name replaces
 * an earlier one.
 */
module CMakeCache {
  import opened Wrappers
  import opened Text

  /** A decoded cache value: a string, a path, or a tri-state boolean. */
  datatype Value = Str(str: string) | PathV(path: string) | Bool(flag: Option<bool>)

  /** What Python raises while reading a cache file; `lineNo` counts from 1. */
  datatype CacheError =
    | MissingColon(lineNo: nat)                         // unpacking `l.split(":", 1)`
    | MissingEquals(lineNo: nat)                        // unpacking `raw_value.split("=", 1)`
    | InvalidValueType(valueType: string, lineNo: nat)  // "Invalid value type"
    | InvalidBool(raw: string, lineNo: nat)             // KeyError in the BOOL table

  type Cache = map<string, Value>

  /** A stripped line that adds no entry. */
  predicate Skipped(l: string) {
    |l| == 0 || StartsWith(l, "#") || StartsWith(l, "//")
  }

  /** The BOOL table: exact, case-sensitive tokens; None for any other token. */
  function DecodeBool(raw: string): Option<Option<bool>> {
    if raw == "ON" then Some(Some(true))
    else if raw == "OFF" || raw == "NO" || raw == "FALSE" then Some(Some(false))
    else if raw == "" then Some(None)
    else None
  }

  /** Decodes the text after `=` according to the type tag before it. */
  function DecodeValue(valueType: string, raw: string, lineNo: nat): Result<Value, CacheError> {
    if valueType == "STRING" || valueType == "STATIC" || valueType == "INTERNAL" then Ok(Str(raw))
    else if valueType == "FILEPATH" || valueType == "PATH" then Ok(PathV(raw))
    else if valueType == "BOOL" then
      match DecodeBool(raw)
      case Some(b) => Ok(Bool(b))
      case None => Err(InvalidBool(raw, lineNo))
    else Err(InvalidValueType(valueType, lineNo))
  }

  /** One line of the file: no entry, one (name, value) entry, or the error it raises. */
  function ParseLine(line: string, lineNo: nat): Result<Option<(string, Value)>, CacheError> {
    ParseStripped(Strip(line), lineNo)
  }

  /** A line after `strip`. */
  function ParseStripped(l: string, lineNo: nat): Result<Option<(string, Value)>, CacheError> {
    if Skipped(l) then Ok(None)
    else match SplitOnce(l, ':')
      case None => Err(MissingColon(lineNo))
      case Some((name, rawValue)) =>
        match SplitOnce(rawValue, '=')
        case None => Err(MissingEquals(lineNo))
        case Some((valueType, valRaw)) => EntryOf(name, valueType, valRaw, lineNo)
  }

  /** The entry of a line split into its name, its type tag and its raw value. */
  function EntryOf(name: string, valueType: string, raw: string, lineNo: nat): Result<Option<(string, Value)>, CacheError> {
    match DecodeValue(valueType, raw, lineNo)
    case Err(e) => Err(e)
    case Ok(v) => Ok(Some((name, v)))
  }

  /** What reading one line yields: no entry, one entry, or an error. */
  type Parsed = Result<Option<(string, Value)>, CacheError>

  /** Each line parsed on its own, numbered from 1. */
  function ParsedLines(lines: seq<string>): (es: seq<Parsed>)
    ensures |es| == |lines|
    ensures forall i :: 0 <= i < |lines| ==> es[i] == ParseLine(lines[i], i + 1)
  {
    seq(|lines|, i requires 0 <= i < |lines| => ParseLine(lines[i], i + 1))
  }

  /** The cache after one more parsed line. */
  function AddParsed(vals: Cache, e: Parsed): Result<Cache, CacheError> {
    match e
    case Err(err) => Err(err)
    case Ok(None) => Ok(vals)
    case Ok(Some((name, v))) => Ok(vals[name := v])
  }

  /** The parsed lines folded into a dictionary, stopping at the first error. */
  function Fold(es: seq<Parsed>): Result<Cache, CacheError> {
    if |es| == 0 then Ok(map[])
    else match Fold(es[..|es| - 1])
      case Err(e) => Err(e)
      case Ok(vals) => AddParsed(vals, es[|es| - 1])
  }

  /** The dictionary `parse_cmake_cache` returns for these lines, or the error it raises. */
  function CacheOf(lines: seq<string>): Result<Cache, CacheError> {
    Fold(ParsedLines(lines))
  }

  /** `parse_cmake_cache` over the lines of the file, filling `vals` line by line. */
  method ParseCMakeCache(lines: seq<string>) returns (r: Result<Cache, CacheError>)
    ensures r == CacheOf(lines)
  {
    var vals: Cache := map[];
    var lineIdx := 0;
    while lineIdx < |lines|
      invariant 0 <= lineIdx <= |lines|
      invariant CacheOf(lines[..lineIdx]) == Ok(vals)
    {
      CacheOfPrefix(lines, lineIdx);
      var l := Strip(lines[lineIdx]);
      lineIdx := lineIdx + 1;
      if |l| == 0 { continue; }
      if StartsWith(l, "#") { continue; }
      if StartsWith(l, "//") { continue; }
      var split := SplitOnce(l, ':');
      if split.None? {
        CacheErrorSticks(lines, lineIdx);
        return Err(MissingColon(lineIdx));
      }
      var (name, rawValue) := split.value;
      var split2 := SplitOnce(rawValue, '=');
      if split2.None? {
        CacheErrorSticks(lines, lineIdx);
        return Err(MissingEquals(lineIdx));
      }
      var (valueType, valRaw) := split2.value;
      var val: Value;
      if valueType == "STRING" {
        val := Str(valRaw);
      } else if valueType == "STATIC" {
        val := Str(valRaw);
      } else if valueType == "INTERNAL" {
        val := Str(valRaw);
      } else if valueType == "FILEPATH" {
        val := PathV(valRaw);
      } else if valueType == "PATH" {
        val := PathV(valRaw);
      } else if valueType == "BOOL" {
        var b := DecodeBool(valRaw);
        if b.None? {
          CacheErrorSticks(lines, lineIdx);
          return Err(InvalidBool(valRaw, lineIdx));
        }
        val := Bool(b.value);
      } else {
        CacheErrorSticks(lines, lineIdx);
        return Err(InvalidValueType(valueType, lineIdx));
      }
      vals := vals[name := val];
    }
    assert lines[..lineIdx] == lines;
    return Ok(vals);
  }

  // ---------------------------------------------------------------------
  // Writing an entry back: the partner of ParseLine

  /** The type tag and text a value is written with: booleans as ON, OFF or empty. */
  function EncodeValue(v: Value): (string, string) {
    match v
    case Str(s) => ("STRING", s)
    case PathV(p) => ("PATH", p)
    case Bool(Some(true)) => ("BOOL", "ON")
    case Bool(Some(false)) => ("BOOL", "OFF")
    case Bool(None) => ("BOOL", "")
  }

  function FormatEntry(name: string, v: Value): string {
    name + ":" + (EncodeValue(v).0 + "=" + EncodeValue(v).1)
  }

  /** A name that survives a round trip: it does not look like a comment and holds no `:`. */
  predicate WritableName(name: string) {
    |name| > 0 && !IsSpace(name[0]) && ':' !in name && !StartsWith(name, "#") && !StartsWith(name, "//")
  }

  /** A value that survives a round trip: `strip` would not eat its last character. */
  predicate WritableValue(v: Value) {
    var raw := EncodeValue(v).1;
    |raw| == 0 || !IsSpace(raw[|raw| - 1])
  }

  /** A line whose fields are split off at the first `:` and at the first `=` after it. */
  lemma ParseSplitLine(line: string, name: string, rest: string, valueType: string, raw: string, lineNo: nat)
    requires Strip(line) == line && !Skipped(line)
    requires SplitOnce(line, ':') == Some((name, rest))
    requires SplitOnce(rest, '=') == Some((valueType, raw))
    ensures ParseLine(line, lineNo) == EntryOf(name, valueType, raw, lineNo)
  {
  }

  lemma EntryLineKept(name: string, rest: string)
    requires WritableName(name)
    requires |rest| > 0 && !IsSpace(rest[|rest| - 1])
    ensures Strip(name + ":" + rest) == name + ":" + rest
    ensures !Skipped(name + ":" + rest)
  {
    var line := name + ":" + rest;
    assert line[0] == name[0];
    assert line[|line| - 1] == rest[|rest| - 1];
    StripTrimmed(line);
    assert line[..1] == name[..1];
    assert |name| >= 2 ==> line[..2] == name[..2];
    assert |name| < 2 ==> line[1] == ':';
  }

  /** Reads one `NAME:TYPE=VALUE` line whose name holds no `:` and whose type holds no `=`. */
  lemma ParseEntryLine(name: string, valueType: string, raw: string, lineNo: nat)
    requires WritableName(name) && '=' !in valueType
    requires |raw| == 0 || !IsSpace(raw[|raw| - 1])
    ensures ParseLine(name + ":" + (valueType + "=" + raw), lineNo) == EntryOf(name, valueType, raw, lineNo)
  {
    var rest := valueType + "=" + raw;
    assert rest[|rest| - 1] == if |raw| > 0 then raw[|raw| - 1] else '=';
    EntryLineKept(name, rest);
    assert name + ":" + rest == name + [':'] + rest;
    SplitOnceJoin(name, ':', rest);
    assert rest == valueType + ['='] + raw;
    SplitOnceJoin(valueType, '=', raw);
    ParseSplitLine(name + ":" + rest, name, rest, valueType, raw, lineNo);
  }

  /**
   * Reading back a written entry gives the same name and value, whatever white
   * space (a line terminator, indentation) surrounds it; the value may hold
   * `:` and `=` and is kept verbatim.
   */
  lemma ParseFormatEntry(ws1: string, name: string, v: Value, ws2: string, lineNo: nat)
    requires AllSpace(ws1) && AllSpace(ws2)
    requires WritableName(name) && WritableValue(v)
    ensures ParseLine(ws1 + FormatEntry(name, v) + ws2, lineNo) == Ok(Some((name, v)))
  {
    StripIgnoresSurroundingSpace(ws1, FormatEntry(name, v), ws2);
    assert ParseLine(ws1 + FormatEntry(name, v) + ws2, lineNo) == ParseLine(FormatEntry(name, v), lineNo);
    DecodeEncodeValue(v, lineNo);
    ParseEntryLine(name, EncodeValue(v).0, EncodeValue(v).1, lineNo);
  }

  /** Decoding undoes encoding, for every value. */
  lemma DecodeEncodeValue(v: Value, lineNo: nat)
    ensures '=' !in EncodeValue(v).0
    ensures DecodeValue(EncodeValue(v).0, EncodeValue(v).1, lineNo) == Ok(v)
  {
  }

  /** Every decoded value is written back as the text it came from, except the BOOL aliases of OFF. */
  lemma DecodeKeepsText(valueType: string, raw: string, lineNo: nat)
    requires DecodeValue(valueType, raw, lineNo).Ok?
    ensures var v := DecodeValue(valueType, raw, lineNo).value;
      && (v.Str? <==> valueType in {"STRING", "STATIC", "INTERNAL"})
      && (v.PathV? <==> valueType in {"FILEPATH", "PATH"})
      && (v.Bool? <==> valueType == "BOOL")
      && (EncodeValue(v).1 == raw || (v == Bool(Some(false)) && raw in {"NO", "FALSE"}))
  {
  }

  /** Blank lines, `#` lines and `//` lines add no entry, however they are indented. */
  lemma SkippedLinesAddNothing(ws1: string, body: string, ws2: string, lineNo: nat)
    requires AllSpace(ws1) && AllSpace(ws2)
    requires body == [] || StartsWith(body, "#") || StartsWith(body, "//")
    ensures ParseLine(ws1 + body + ws2, lineNo) == Ok(None)
  {
    StripIgnoresSurroundingSpace(ws1, body, ws2);
    if body != [] {
      assert Strip(body) == TrimEnd(body);
      TrimEndFacts(body);
      var k := if StartsWith(body, "//") then 1 else 0;
      assert body[k] == '#' || body[k] == '/';
      TrimEndKeeps(body, k);
      assert Strip(body)[..k + 1] == body[..k + 1];
    }
  }

  // ---------------------------------------------------------------------
  // The examples of malformed lines

  /** A line that is kept but holds no `:` raises. */
  lemma NoColonIsAnError(line: string, lineNo: nat)
    requires Strip(line) == line && !Skipped(line) && ':' !in line
    ensures ParseLine(line, lineNo) == Err(MissingColon(lineNo))
  {
  }

  /**
   * A kept line whose text after its first `:` holds no `=` raises; the name
   * before the `:` and the text after it may each be empty.
   */
  lemma NoEqualsIsAnError(name: string, rest: string, lineNo: nat)
    requires ':' !in name && '=' !in rest
    requires Strip(name + ":" + rest) == name + ":" + rest && !Skipped(name + ":" + rest)
    ensures ParseLine(name + ":" + rest, lineNo) == Err(MissingEquals(lineNo))
  {
    assert name + ":" + rest == name + [':'] + rest;
    SplitOnceJoin(name, ':', rest);
  }

  /** `NAME:`, with nothing after the colon, raises. */
  lemma NameOnlyIsAnError(name: string, lineNo: nat)
    requires WritableName(name)
    ensures ParseLine(name + ":", lineNo) == Err(MissingEquals(lineNo))
  {
    var line := name + ":";
    assert line == name + ":" + "";
    assert line[0] == name[0] && line[|line| - 1] == ':';
    StripTrimmed(line);
    assert line[..1] == name[..1];
    assert |name| >= 2 ==> line[..2] == name[..2];
    assert |name| < 2 ==> line[1] == ':';
    NoEqualsIsAnError(name, "", lineNo);
  }

  /** `:x`, a line with no name before its colon, raises too. */
  lemma NoNameIsAnError(lineNo: nat)
    ensures ParseLine(":x", lineNo) == Err(MissingEquals(lineNo))
  {
    assert ":x" == "" + ":" + "x";
    StripTrimmed(":x");
    NoEqualsIsAnError("", "x", lineNo);
  }

  /** A type tag outside the six known ones is an error, whatever the value. */
  lemma UnknownTypeIsAnError(name: string, valueType: string, raw: string, lineNo: nat)
    requires WritableName(name) && '=' !in valueType
    requires valueType !in {"STRING", "STATIC", "INTERNAL", "FILEPATH", "PATH", "BOOL"}
    requires |raw| == 0 || !IsSpace(raw[|raw| - 1])
    ensures ParseLine(name + ":" + (valueType + "=" + raw), lineNo) == Err(InvalidValueType(valueType, lineNo))
  {
    ParseEntryLine(name, valueType, raw, lineNo);
  }

  /**
   * BOOL tokens are exact and case-sensitive: any token but ON, OFF, NO, FALSE
   * and the empty one, `on` and `MAYBE` among them, is an error.
   */
  lemma UnknownBoolTokensAreErrors(name: string, raw: string, lineNo: nat)
    requires WritableName(name) && raw !in {"ON", "OFF", "NO", "FALSE", ""}
    requires !IsSpace(raw[|raw| - 1])
    ensures ParseLine(name + ":" + ("BOOL" + "=" + raw), lineNo) == Err(InvalidBool(raw, lineNo))
  {
    ParseEntryLine(name, "BOOL", raw, lineNo);
  }

  // ---------------------------------------------------------------------
  // The whole file

  /** A parsed line that gives `name` a value. */
  predicate Sets(e: Parsed, name: string) {
    e.Ok? && e.value.Some? && e.value.value.0 == name
  }

  /** Line `i` (0-based, so numbered `i + 1`) defines `name`. */
  predicate Defines(lines: seq<string>, i: int, name: string) {
    0 <= i < |lines| && Sets(ParseLine(lines[i], i + 1), name)
  }

  lemma CacheOfPrefix(lines: seq<string>, n: nat)
    requires n < |lines|
    ensures CacheOf(lines[..n + 1]) ==
      match CacheOf(lines[..n])
      case Err(e) => Err(e)
      case Ok(vals) => AddParsed(vals, ParseLine(lines[n], n + 1))
  {
    var es := ParsedLines(lines[..n + 1]);
    assert es[..n] == ParsedLines(lines[..n]);
  }

  /** Once a prefix of the file raises, the whole file raises the same error. */
  lemma {:induction false} FoldErrorSticks(es: seq<Parsed>, n: nat)
    requires n <= |es| && Fold(es[..n]).Err?
    ensures Fold(es) == Fold(es[..n])
    decreases |es| - n
  {
    if n < |es| {
      assert es[..n + 1][..n] == es[..n];
      FoldErrorSticks(es, n + 1);
    } else {
      assert es[..n] == es;
    }
  }

  lemma CacheErrorSticks(lines: seq<string>, n: nat)
    requires n <= |lines| && CacheOf(lines[..n]).Err?
    ensures CacheOf(lines) == CacheOf(lines[..n])
  {
    var es := ParsedLines(lines);
    assert es[..n] == ParsedLines(lines[..n]);
    FoldErrorSticks(es, n);
  }

  lemma {:induction false} FoldOkIffAllOk(es: seq<Parsed>)
    ensures Fold(es).Ok? <==> forall i :: 0 <= i < |es| ==> es[i].Ok?
  {
    if |es| > 0 {
      var p := es[..|es| - 1];
      FoldOkIffAllOk(p);
      assert forall i :: 0 <= i < |p| ==> p[i] == es[i];
    }
  }

  /** The file is read without error exactly when every one of its lines is. */
  lemma CacheOkIffEveryLineParses(lines: seq<string>)
    ensures CacheOf(lines).Ok? <==> forall i :: 0 <= i < |lines| ==> ParseLine(lines[i], i + 1).Ok?
  {
    FoldOkIffAllOk(ParsedLines(lines));
  }

  lemma {:induction false} FoldFirstError(es: seq<Parsed>, i: nat)
    requires i < |es| && es[i].Err?
    requires forall j :: 0 <= j < i ==> es[j].Ok?
    ensures Fold(es) == Err(es[i].error)
  {
    var p := es[..|es| - 1];
    assert forall j :: 0 <= j < |p| ==> p[j] == es[j];
    if i < |es| - 1 {
      FoldFirstError(p, i);
    } else {
      FoldOkIffAllOk(p);
    }
  }

  /** The error raised is the one of the first line that does not parse. */
  lemma CacheErrorIsFirstBadLine(lines: seq<string>, i: nat)
    requires i < |lines| && ParseLine(lines[i], i + 1).Err?
    requires forall j :: 0 <= j < i ==> ParseLine(lines[j], j + 1).Ok?
    ensures CacheOf(lines) == Err(ParseLine(lines[i], i + 1).error)
  {
    FoldFirstError(ParsedLines(lines), i);
  }

  lemma {:induction false} FoldLastWins(es: seq<Parsed>, m: Cache, i: nat, name: string, v: Value)
    requires Fold(es) == Ok(m)
    requires i < |es| && es[i] == Ok(Some((name, v)))
    requires forall j :: i < j < |es| ==> !Sets(es[j], name)
    ensures name in m && m[name] == v
  {
    var n := |es| - 1;
    var p := es[..n];
    match Fold(p)
    case Ok(vals) =>
      if i < n {
        assert p[i] == es[i];
        assert forall j :: i < j < |p| ==> p[j] == es[j];
        FoldLastWins(p, vals, i, name, v);
        assert !Sets(es[n], name);
      }
  }

  /** A name's value is the one given by the last line that defines it. */
  lemma LastDefinitionWins(lines: seq<string>, m: Cache, i: nat, name: string, v: Value)
    requires CacheOf(lines) == Ok(m)
    requires i < |lines| && ParseLine(lines[i], i + 1) == Ok(Some((name, v)))
    requires forall j :: i < j < |lines| ==> !Defines(lines, j, name)
    ensures name in m && m[name] == v
  {
    var es := ParsedLines(lines);
    assert forall j :: i < j < |es| ==> !Sets(es[j], name) by {
      forall j | i < j < |es|
        ensures !Sets(es[j], name)
      {
        assert !Defines(lines, j, name);
      }
    }
    FoldLastWins(es, m, i, name, v);
  }

  lemma {:induction false} FoldUndefined(es: seq<Parsed>, m: Cache, name: string)
    requires Fold(es) == Ok(m)
    requires forall i :: 0 <= i < |es| ==> !Sets(es[i], name)
    ensures name !in m
  {
    if |es| > 0 {
      var n := |es| - 1;
      var p := es[..n];
      match Fold(p)
      case Ok(vals) =>
        assert forall j :: 0 <= j < |p| ==> p[j] == es[j];
        FoldUndefined(p, vals, name);
        assert !Sets(es[n], name);
    }
  }

  /** A name no line defines is not in the cache. */
  lemma UndefinedNamesAbsent(lines: seq<string>, m: Cache, name: string)
    requires CacheOf(lines) == Ok(m)
    requires forall i :: 0 <= i < |lines| ==> !Defines(lines, i, name)
    ensures name !in m
  {
    var es := ParsedLines(lines);
    assert forall j :: 0 <= j < |es| ==> !Sets(es[j], name) by {
      forall j | 0 <= j < |es|
        ensures !Sets(es[j], name)
      {
        assert !Defines(lines, j, name);
      }
    }
    FoldUndefined(es, m, name);
  }
}
