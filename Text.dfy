/**
 * The pieces of Python's string handling that the build scripts rely on:
 * `str.strip()`, `str.startswith`, `str.split(sep, 1)`, `" ".join`,
 * the code-point order used by `sorted`, the line splitting of a text-mode
 * `readlines()`, and the splitting of a command line into words at spaces.
 */
module Text {
  import opened Wrappers

  // ---------------------------------------------------------------------
  // strip()

  /** Python's `str.isspace()` for a single character. */
  predicate IsSpace(c: char) {
    || c == ' '
    || ('\t' <= c <= '\r')
    || ('\U{1C}' <= c <= '\U{1F}')
    || c == '\U{85}' || c == '\U{A0}' || c == '\U{1680}'
    || ('\U{2000}' <= c <= '\U{200A}')
    || c == '\U{2028}' || c == '\U{2029}' || c == '\U{202F}'
    || c == '\U{205F}' || c == '\U{3000}'
  }

  predicate AllSpace(s: string) {
    forall i :: 0 <= i < |s| ==> IsSpace(s[i])
  }

  /** Neither the first nor the last character is white space. */
  predicate Trimmed(s: string) {
    |s| == 0 || (!IsSpace(s[0]) && !IsSpace(s[|s| - 1]))
  }

  function TrimStart(s: string): string {
    if |s| > 0 && IsSpace(s[0]) then TrimStart(s[1..]) else s
  }

  function TrimEnd(s: string): string {
    if |s| > 0 && IsSpace(s[|s| - 1]) then TrimEnd(s[..|s| - 1]) else s
  }

  /** `s.strip()`: `s` with its leading and trailing white space removed. */
  function Strip(s: string): string {
    TrimEnd(TrimStart(s))
  }

  lemma {:induction false} TrimStartFacts(s: string)
    ensures var r := TrimStart(s);
      && |r| <= |s| && r == s[|s| - |r|..]
      && AllSpace(s[..|s| - |r|])
      && (|r| == 0 || !IsSpace(r[0]))
  {
    if |s| > 0 && IsSpace(s[0]) {
      TrimStartFacts(s[1..]);
      var r := TrimStart(s);
      assert s[..|s| - |r|] == [s[0]] + s[1..][..|s| - 1 - |r|];
    }
  }

  lemma {:induction false} TrimEndFacts(s: string)
    ensures var r := TrimEnd(s);
      && |r| <= |s| && r == s[..|r|]
      && AllSpace(s[|r|..])
      && (|r| == 0 || !IsSpace(r[|r| - 1]))
  {
    if |s| > 0 && IsSpace(s[|s| - 1]) {
      TrimEndFacts(s[..|s| - 1]);
      var r := TrimEnd(s);
      assert s[|r|..] == s[..|s| - 1][|r|..] + [s[|s| - 1]];
    }
  }

  /** `rstrip` keeps every character up to the last one that is not white space. */
  lemma {:induction false} TrimEndKeeps(s: string, k: nat)
    requires k < |s| && !IsSpace(s[k])
    ensures k < |TrimEnd(s)| && TrimEnd(s)[..k + 1] == s[..k + 1]
  {
    if IsSpace(s[|s| - 1]) {
      TrimEndKeeps(s[..|s| - 1], k);
    }
  }

  /** What `strip` keeps has white space at neither end. */
  lemma StripIsTrimmed(s: string)
    ensures Trimmed(Strip(s))
  {
    var t := TrimStart(s);
    TrimStartFacts(s);
    TrimEndFacts(t);
  }

  /** What `strip` keeps is the infix `s[i..j]`, with only white space outside it. */
  lemma StripIsInfix(s: string)
    ensures exists i, j :: 0 <= i <= j <= |s| && Strip(s) == s[i..j] && AllSpace(s[..i]) && AllSpace(s[j..])
  {
    var t := TrimStart(s);
    var r := TrimEnd(t);
    TrimStartFacts(s);
    TrimEndFacts(t);
    var i, j := |s| - |t|, |s| - |t| + |r|;
    assert r == s[i..j];
    assert s[j..] == t[|r|..];
    assert 0 <= i <= j <= |s| && r == s[i..j] && AllSpace(s[..i]) && AllSpace(s[j..]);
  }

  lemma {:induction false} TrimStartAfterSpace(ws: string, s: string)
    requires AllSpace(ws)
    ensures TrimStart(ws + s) == TrimStart(s)
  {
    if ws != [] {
      assert (ws + s)[1..] == ws[1..] + s;
      TrimStartAfterSpace(ws[1..], s);
    } else {
      assert ws + s == s;
    }
  }

  lemma {:induction false} TrimEndBeforeSpace(s: string, ws: string)
    requires AllSpace(ws)
    ensures TrimEnd(s + ws) == TrimEnd(s)
  {
    if ws != [] {
      assert (s + ws)[..|s + ws| - 1] == s + ws[..|ws| - 1];
      TrimEndBeforeSpace(s, ws[..|ws| - 1]);
    } else {
      assert s + ws == s;
    }
  }

  lemma {:induction false} TrimStartAppend(s: string, t: string)
    ensures TrimStart(s) != [] ==> TrimStart(s + t) == TrimStart(s) + t
    ensures TrimStart(s) == [] ==> TrimStart(s + t) == TrimStart(t)
  {
    if s == [] {
      assert s + t == t;
    } else if IsSpace(s[0]) {
      assert (s + t)[1..] == s[1..] + t;
      TrimStartAppend(s[1..], t);
    }
  }

  /** Surrounding white space, including a line terminator, never changes what `strip` keeps. */
  lemma StripIgnoresSurroundingSpace(ws1: string, s: string, ws2: string)
    requires AllSpace(ws1) && AllSpace(ws2)
    ensures Strip(ws1 + s + ws2) == Strip(s)
  {
    assert ws1 + s + ws2 == ws1 + (s + ws2);
    TrimStartAfterSpace(ws1, s + ws2);
    TrimStartAppend(s, ws2);
    if TrimStart(s) != [] {
      TrimEndBeforeSpace(TrimStart(s), ws2);
    } else {
      TrimStartAfterSpace(ws2, []);
      assert ws2 + [] == ws2;
    }
  }

  lemma StripTrimmed(s: string)
    requires Trimmed(s)
    ensures Strip(s) == s
  {
  }

  predicate StartsWith(s: string, prefix: string) {
    prefix <= s
  }

  // ---------------------------------------------------------------------
  // split(sep, 1)

  /** The index of the first occurrence of `c` in `s`, if any. */
  function IndexOf(s: string, c: char): (r: Option<nat>)
    ensures r.None? <==> c !in s
    ensures r.Some? ==> r.value < |s| && s[r.value] == c && c !in s[..r.value]
  {
    if |s| == 0 then None
    else if s[0] == c then Some(0)
    else match IndexOf(s[1..], c)
      case None => None
      case Some(k) => assert s[..k + 1] == [s[0]] + s[1..][..k]; Some(k + 1)
  }

  /**
   * `s.split(c, 1)` unpacked into two names: the text before the first `c`
   * and everything after it, or None when `s` holds no `c` (where Python's
   * unpacking raises ValueError).
   */
  function SplitOnce(s: string, c: char): (r: Option<(string, string)>)
    ensures r.None? <==> c !in s
    ensures r.Some? ==> s == r.value.0 + [c] + r.value.1 && c !in r.value.0
  {
    match IndexOf(s, c)
    case None => None
    case Some(k) =>
      assert s == s[..k] + [c] + s[k + 1..];
      Some((s[..k], s[k + 1..]))
  }

  /** Splitting at the first `c` undoes gluing two parts with `c` when the first part holds none. */
  lemma SplitOnceJoin(a: string, c: char, b: string)
    requires c !in a
    ensures SplitOnce(a + [c] + b, c) == Some((a, b))
  {
    var s := a + [c] + b;
    assert s[|a|] == c;
    var r := SplitOnce(s, c);
    var k := |r.value.0|;
    assert r.value.0 == s[..k] == a;
    assert r.value.1 == s[k + 1..] == b;
  }

  // ---------------------------------------------------------------------
  // " ".join

  function Join(parts: seq<string>, sep: string): (r: string)
  {
    if |parts| == 0 then []
    else if |parts| == 1 then parts[0]
    else parts[0] + sep + Join(parts[1..], sep)
  }

  // ---------------------------------------------------------------------
  // Code-point order of Python's string comparison

  /** `a < b` on Python strings: lexicographic by code point, a proper prefix first. */
  predicate Less(a: string, b: string)
    decreases |a|
  {
    |b| > 0 && (|a| == 0 || a[0] < b[0] || (a[0] == b[0] && Less(a[1..], b[1..])))
  }

  lemma {:induction false} LessIrreflexive(a: string)
    ensures !Less(a, a)
    decreases |a|
  {
    if |a| > 0 { LessIrreflexive(a[1..]); }
  }

  lemma {:induction false} LessTransitive(a: string, b: string, c: string)
    requires Less(a, b) && Less(b, c)
    ensures Less(a, c)
    decreases |a|
  {
    if |a| > 0 && a[0] == b[0] && b[0] == c[0] {
      LessTransitive(a[1..], b[1..], c[1..]);
    }
  }

  lemma {:induction false} LessTotal(a: string, b: string)
    ensures a == b || Less(a, b) || Less(b, a)
    decreases |a|
  {
    if |a| > 0 && |b| > 0 && a[0] == b[0] {
      LessTotal(a[1..], b[1..]);
      if a[1..] == b[1..] {
        assert a == [a[0]] + a[1..] && b == [b[0]] + b[1..];
      }
    }
  }

  lemma LessAsymmetric()
    ensures forall a, b :: Less(a, b) ==> !Less(b, a)
  {
    forall a, b | Less(a, b)
      ensures !Less(b, a)
    {
      if Less(b, a) {
        LessTransitive(a, b, a);
        LessIrreflexive(a);
      }
    }
  }

  // ---------------------------------------------------------------------
  // sorted() of a set of strings

  /** Every element comes before the ones after it, so no element is repeated. */
  predicate Increasing(ks: seq<string>) {
    forall i, j :: 0 <= i < j < |ks| ==> Less(ks[i], ks[j])
  }

  /** `k` is the smallest element of `keys`. */
  predicate Least(k: string, keys: set<string>) {
    k in keys && forall j :: j in keys && j != k ==> Less(k, j)
  }

  lemma {:induction false} LeastExists(keys: set<string>)
    requires keys != {}
    ensures exists k :: Least(k, keys)
    decreases |keys|
  {
    var x :| x in keys;
    var rest := keys - {x};
    if rest == {} {
      assert forall j :: j in keys ==> j in rest || j == x;
      assert keys == {x};
      assert Least(x, keys);
    } else {
      LeastExists(rest);
      var y :| Least(y, rest);
      LessTotal(x, y);
      if Less(x, y) {
        forall j | j in keys && j != x
          ensures Less(x, j)
        {
          if j != y {
            LessTransitive(x, y, j);
          }
        }
        assert Least(x, keys);
      } else {
        assert Least(y, keys);
      }
    }
  }

  /** `sorted(keys)`: the elements of `keys`, each once, in ascending order. */
  function SortedKeys(keys: set<string>): (ks: seq<string>)
    ensures Increasing(ks)
    ensures forall k :: k in ks <==> k in keys
    decreases |keys|
  {
    if keys == {} then []
    else
      LeastExists(keys);
      LessAsymmetric();
      var k :| Least(k, keys);
      var rest := SortedKeys(keys - {k});
      ConsIncreasing(k, rest);
      [k] + rest
  }

  lemma ConsIncreasing(k: string, rest: seq<string>)
    requires Increasing(rest) && forall x :: x in rest ==> Less(k, x)
    ensures Increasing([k] + rest)
  {
    var ks := [k] + rest;
    forall i, j | 0 <= i < j < |ks|
      ensures Less(ks[i], ks[j])
    {
      assert ks[j] == rest[j - 1];
      if i > 0 {
        assert ks[i] == rest[i - 1];
      }
    }
  }

  lemma FirstIsLeast(ks: seq<string>)
    requires Increasing(ks) && |ks| > 0
    ensures forall k :: k in ks && k != ks[0] ==> Less(ks[0], k)
  {
  }

  lemma SameTail(a: seq<string>, b: seq<string>, k: string)
    requires Increasing(a) && Increasing(b) && |a| > 0 && |b| > 0 && a[0] == b[0]
    requires forall x :: x in a <==> x in b
    requires k in a[1..]
    ensures k in b[1..]
  {
    var i :| 0 <= i < |a[1..]| && a[1..][i] == k;
    assert Less(a[0], a[i + 1]);
    LessIrreflexive(a[0]);
    assert k in b;
    var j :| 0 <= j < |b| && b[j] == k;
    assert j != 0;
    assert b[1..][j - 1] == k;
  }

  /** Two increasing sequences with the same elements are the same sequence. */
  lemma {:induction false} IncreasingUnique(a: seq<string>, b: seq<string>)
    requires Increasing(a) && Increasing(b)
    requires forall k :: k in a <==> k in b
    ensures a == b
    decreases |a|
  {
    if |a| > 0 || |b| > 0 {
      if |a| > 0 {
        assert a[0] in b;
      }
      if |b| > 0 {
        assert b[0] in a;
      }
      FirstIsLeast(a);
      FirstIsLeast(b);
      LessAsymmetric();
      assert a[0] in b && b[0] in a;
      assert a[0] == b[0];
      forall k
        ensures k in a[1..] <==> k in b[1..]
      {
        if k in a[1..] {
          SameTail(a, b, k);
        }
        if k in b[1..] {
          SameTail(b, a, k);
        }
      }
      IncreasingUnique(a[1..], b[1..]);
      assert a == [a[0]] + a[1..] && b == [b[0]] + b[1..];
    }
  }

  // ---------------------------------------------------------------------
  // readlines() in text mode

  /** Is `c` a line terminator for Python's universal-newline reading? */
  predicate IsLineBreak(c: char) {
    c == '\n' || c == '\r'
  }

  /** The length of the first line of `s`, without its terminator. */
  function LineLength(s: string): (k: nat)
    ensures k <= |s|
    ensures forall i :: 0 <= i < k ==> !IsLineBreak(s[i])
    ensures k < |s| ==> IsLineBreak(s[k])
  {
    if |s| == 0 || IsLineBreak(s[0]) then 0 else 1 + LineLength(s[1..])
  }

  /** The length of the line terminator at the start of `s` ("\r\n" counts as one). */
  function BreakLength(s: string): (k: nat)
    requires |s| > 0 && IsLineBreak(s[0])
    ensures 1 <= k <= |s|
  {
    if s[0] == '\r' && |s| > 1 && s[1] == '\n' then 2 else 1
  }

  /**
   * The lines `readlines()` returns, each without its terminator: "\n",
   * "\r" and "\r\n" all end a line. None of the lines holds a terminator.
   */
  function Lines(s: string): (ls: seq<string>)
    ensures forall i, j :: 0 <= i < |ls| && 0 <= j < |ls[i]| ==> !IsLineBreak(ls[i][j])
    decreases |s|
  {
    if |s| == 0 then []
    else
      var k := LineLength(s);
      if k == |s| then [s]
      else [s[..k]] + Lines(s[k + BreakLength(s[k..])..])
  }

  /** Text without a line terminator in it. */
  predicate NoBreak(a: string) {
    forall i :: 0 <= i < |a| ==> !IsLineBreak(a[i])
  }

  /** Text without a terminator is one line, or none when it is empty. */
  lemma LinesOfLine(a: string)
    requires NoBreak(a)
    ensures Lines(a) == if |a| == 0 then [] else [a]
  {
    if |a| > 0 {
      assert LineLength(a) == |a|;
    }
  }

  /**
   * A line followed by "\n", "\r\n" or a lone "\r" is the first line,
   * and the lines of the rest follow it.
   */
  lemma LinesAfterBreak(a: string, br: string, b: string)
    requires NoBreak(a)
    requires br == "\n" || br == "\r\n" || (br == "\r" && (|b| == 0 || b[0] != '\n'))
    ensures Lines(a + br + b) == [a] + Lines(b)
  {
    var s := a + br + b;
    assert s[|a|] == br[0];
    var k := LineLength(s);
    assert k == |a|;
    assert s[..k] == a;
    assert s[k..] == br + b;
    if br == "\r" && |b| > 0 {
      assert (br + b)[1] == b[0];
    }
    assert BreakLength(br + b) == |br|;
    assert s[k + |br|..] == b;
  }

  /** Lines each ended by "\n", as a file written line by line holds them. */
  function Terminated(ls: seq<string>): string {
    if |ls| == 0 then "" else ls[0] + "\n" + Terminated(ls[1..])
  }

  /** Reading back lines written with "\n" after each gives those lines. */
  lemma {:induction false} LinesOfTerminated(ls: seq<string>)
    requires forall i :: 0 <= i < |ls| ==> NoBreak(ls[i])
    ensures Lines(Terminated(ls)) == ls
  {
    if |ls| > 0 {
      LinesAfterBreak(ls[0], "\n", Terminated(ls[1..]));
      LinesOfTerminated(ls[1..]);
    }
  }

  // ---------------------------------------------------------------------
  // Splitting a command line into words, for words the shell takes literally

  function WordLength(s: string): (k: nat)
    ensures k <= |s|
    ensures forall i :: 0 <= i < k ==> s[i] != ' '
    ensures k < |s| ==> s[k] == ' '
  {
    if |s| == 0 || s[0] == ' ' then 0 else 1 + WordLength(s[1..])
  }

  /**
   * The words of a command line, split at spaces. The shell `os.system` runs
   * splits the same way a line whose words are all `Literal`.
   */
  function Words(s: string): (ws: seq<string>)
    decreases |s|
  {
    if |s| == 0 then []
    else if s[0] == ' ' then Words(s[1..])
    else var k := WordLength(s); [s[..k]] + Words(s[k..])
  }

  /**
   * The characters the shell does not take literally inside a word: blanks
   * and newlines split words; the others quote, redirect, separate commands,
   * expand or glob.
   */
  predicate ShellSpecial(c: char) {
    c in " \t\n|&;<>()$`\\\"'*?[#~"
  }

  /** Text the shell reads as it is. */
  predicate Literal(s: string) {
    forall i :: 0 <= i < |s| ==> !ShellSpecial(s[i])
  }

  lemma LiteralAppend(a: string, b: string)
    requires Literal(a) && Literal(b)
    ensures Literal(a + b)
  {
    forall i | 0 <= i < |a + b|
      ensures !ShellSpecial((a + b)[i])
    {
      if i >= |a| {
        assert (a + b)[i] == b[i - |a|];
      }
    }
  }

  /** A word: not empty, and read by the shell as it is. */
  predicate IsWord(w: string) {
    |w| > 0 && Literal(w)
  }

  lemma {:induction false} WordLengthAppend(a: string, b: string)
    ensures WordLength(a + [' '] + b) == WordLength(a) || WordLength(a) < |a|
    ensures WordLength(a) == |a| ==> WordLength(a + [' '] + b) == |a|
    ensures WordLength(a) < |a| ==> WordLength(a + [' '] + b) == WordLength(a)
  {
    if |a| > 0 && a[0] != ' ' {
      assert (a + [' '] + b)[1..] == a[1..] + [' '] + b;
      WordLengthAppend(a[1..], b);
    }
  }

  /** Separating two texts by a space splits into the words of each. */
  lemma {:induction false} WordsAppend(a: string, b: string)
    ensures Words(a + [' '] + b) == Words(a) + Words(b)
    decreases |a|
  {
    var s := a + [' '] + b;
    if |a| == 0 {
      assert s[1..] == b;
    } else if a[0] == ' ' {
      assert s[1..] == a[1..] + [' '] + b;
      WordsAppend(a[1..], b);
    } else {
      WordLengthAppend(a, b);
      var k := WordLength(a);
      assert s[..k] == a[..k];
      if k == |a| {
        assert s[k..] == [' '] + b;
        assert ([' '] + b)[1..] == b;
        assert a[k..] == [];
      } else {
        assert s[k..] == a[k..] + [' '] + b;
        WordsAppend(a[k..], b);
      }
    }
  }

  lemma WordsOfWord(w: string)
    requires IsWord(w)
    ensures Words(w) == [w]
  {
    assert WordLength(w) == |w|;
    assert w[..|w|] == w && w[|w|..] == [];
  }

  /** Joining words with single spaces and splitting again gives the same words. */
  lemma {:induction false} WordsOfJoin(ws: seq<string>)
    requires forall i :: 0 <= i < |ws| ==> IsWord(ws[i])
    ensures Words(Join(ws, " ")) == ws
  {
    if |ws| == 1 {
      WordsOfWord(ws[0]);
    } else if |ws| > 1 {
      WordsAppend(ws[0], Join(ws[1..], " "));
      WordsOfWord(ws[0]);
      WordsOfJoin(ws[1..]);
    }
  }
}
