/** The three ActiveSupport inflections the key and route formatters use:
    `underscore`, `dasherize` and `camelize(:lower)`, on ASCII text.

    `underscore` (no acronyms registered) rewrites `A1Bc` style boundaries with
    two regular expressions, `([A-Z\d]+)([A-Z][a-z])` and `([a-z\d])([A-Z])`, both
    replaced by `\1_\2`, then turns `-` into `_` and downcases. Read character by
    character, an upper-case letter gets a `_` in front of it exactly when the
    character before it is a lower-case letter or a digit, or is an upper-case
    letter while the character after it is lower-case.

    `camelize(:lower)` downcases the first character, then replaces every `_`
    and the run of letters and digits after it by that run capitalised (first
    character up, the rest down). */
module Inflector {

  predicate IsLower(c: char) { 'a' <= c <= 'z' }
  predicate IsUpper(c: char) { 'A' <= c <= 'Z' }
  predicate IsDigit(c: char) { '0' <= c <= '9' }
  predicate IsAlnum(c: char) { IsLower(c) || IsUpper(c) || IsDigit(c) }
  predicate IsLowerOrDigit(c: char) { IsLower(c) || IsDigit(c) }

  function Downcase(c: char): (r: char)
    ensures !IsUpper(r)
    ensures IsUpper(c) ==> IsLower(r) && Upcase(r) == c
    ensures !IsUpper(c) ==> r == c
  {
    if IsUpper(c) then (c as int - 'A' as int + 'a' as int) as char else c
  }

  function Upcase(c: char): (r: char)
    ensures IsLower(c) ==> IsUpper(r)
    ensures !IsLower(c) ==> r == c
  {
    if IsLower(c) then (c as int - 'a' as int + 'A' as int) as char else c
  }

  lemma DowncaseUpcase(c: char)
    requires IsLower(c)
    ensures Downcase(Upcase(c)) == c
  {
  }

  // ---------------------------------------------------------------- underscore

  /** Does the first character of `s` get a `_` in front of it, given the
      character before it (`prev`, empty at the start of the text)? */
  predicate BreakBefore(prev: string, s: string)
    requires |s| > 0
  {
    && |prev| == 1
    && IsUpper(s[0])
    && (IsLowerOrDigit(prev[0]) || (IsUpper(prev[0]) && |s| > 1 && IsLower(s[1])))
  }

  function UnderscoreChar(c: char): char {
    if c == '-' then '_' else Downcase(c)
  }

  function UnderscoreAfter(prev: string, s: string): string
    decreases |s|
  {
    if s == [] then []
    else
      (if BreakBefore(prev, s) then "_" else "") + [UnderscoreChar(s[0])] + UnderscoreAfter([s[0]], s[1..])
  }

  /** ActiveSupport's `String#underscore`. */
  function Underscore(s: string): string {
    UnderscoreAfter([], s)
  }

  /** ActiveSupport's `String#dasherize`: every `_` becomes `-`. */
  function Dasherize(s: string): (r: string)
    ensures |r| == |s|
    ensures forall i :: 0 <= i < |s| ==> r[i] == if s[i] == '_' then '-' else s[i]
  {
    seq(|s|, i requires 0 <= i < |s| => if s[i] == '_' then '-' else s[i])
  }

  /** Text the underscore rewrite leaves alone. */
  predicate NoUpperNoDash(s: string) {
    forall i :: 0 <= i < |s| ==> !IsUpper(s[i]) && s[i] != '-'
  }

  function DashToUnderscore(s: string): (r: string)
    ensures |r| == |s|
    ensures forall i :: 0 <= i < |s| ==> r[i] == if s[i] == '-' then '_' else s[i]
  {
    seq(|s|, i requires 0 <= i < |s| => if s[i] == '-' then '_' else s[i])
  }

  /** Without upper-case letters no `_` is inserted: underscore only turns `-` into `_`. */
  lemma {:induction false} UnderscoreWithoutUpper(prev: string, s: string)
    requires forall i :: 0 <= i < |s| ==> !IsUpper(s[i])
    ensures UnderscoreAfter(prev, s) == DashToUnderscore(s)
    decreases |s|
  {
    if s != [] {
      UnderscoreWithoutUpper([s[0]], s[1..]);
      assert DashToUnderscore(s) == [UnderscoreChar(s[0])] + DashToUnderscore(s[1..]);
    }
  }

  /** The result of underscore has neither upper-case letters nor dashes. */
  lemma {:induction false} UnderscoreIsClean(prev: string, s: string)
    ensures NoUpperNoDash(UnderscoreAfter(prev, s))
    decreases |s|
  {
    if s != [] {
      UnderscoreIsClean([s[0]], s[1..]);
    }
  }

  lemma UnderscoreFixesClean(s: string)
    requires NoUpperNoDash(s)
    ensures Underscore(s) == s
  {
    UnderscoreWithoutUpper([], s);
  }

  /** Underscore is idempotent, and undoes dasherize on its own output. */
  lemma DasherizeUnderscore(s: string)
    ensures Underscore(Dasherize(Underscore(s))) == Underscore(s)
    ensures Underscore(Underscore(s)) == Underscore(s)
  {
    var u := Underscore(s);
    UnderscoreIsClean([], s);
    UnderscoreWithoutUpper([], Dasherize(u));
    UnderscoreFixesClean(u);
  }

  // ---------------------------------------------------------------- camelize

  /** Where the scan of `camelize` stands: outside a `_word` match, right after a
      `_` (the next letter or digit is upcased) or inside the word (downcased). */
  datatype CamelMode = Outside | WordStart | InWord

  function CamelScan(mode: CamelMode, s: string): string
    decreases |s|
  {
    if s == [] then []
    else if s[0] == '_' then CamelScan(WordStart, s[1..])
    else if IsAlnum(s[0]) then
      (match mode
       case Outside => [s[0]]
       case WordStart => [Upcase(s[0])]
       case InWord => [Downcase(s[0])])
      + CamelScan(if mode == Outside then Outside else InWord, s[1..])
    else [s[0]] + CamelScan(Outside, s[1..])
  }

  /** ActiveSupport's `String#camelize(:lower)`. */
  function CamelizeLower(s: string): string {
    if s == [] then [] else CamelScan(Outside, [Downcase(s[0])] + s[1..])
  }

  // ------------------------------------------- snake_case keys and their round trip

  predicate LowerDigits(s: string) {
    forall i :: 0 <= i < |s| ==> IsLowerOrDigit(s[i])
  }

  /** One `_`-separated segment after the first: it starts with a letter. */
  predicate WordSegment(g: string) {
    |g| > 0 && IsLower(g[0]) && LowerDigits(g)
  }

  function SnakeTail(segments: seq<string>): string {
    if segments == [] then "" else "_" + segments[0] + SnakeTail(segments[1..])
  }

  /** The snake_case key `first_seg1_seg2...`. */
  function SnakeKey(first: string, segments: seq<string>): string {
    first + SnakeTail(segments)
  }

  function Capitalized(g: string): string
    requires |g| > 0
  {
    [Upcase(g[0])] + g[1..]
  }

  predicate AllWords(segments: seq<string>) {
    forall k :: 0 <= k < |segments| ==> WordSegment(segments[k])
  }

  function CamelTail(segments: seq<string>): string
    requires AllWords(segments)
  {
    if segments == [] then "" else Capitalized(segments[0]) + CamelTail(segments[1..])
  }

  /** A segment of one letter followed by another segment must see that segment's
      second character be a lower-case letter: otherwise the two capitals end up
      adjacent in camel case and underscore does not separate them again. */
  predicate SingleLettersSeparable(segments: seq<string>) {
    forall k :: 0 <= k < |segments| - 1 && |segments[k]| == 1 ==>
      |segments[k + 1]| >= 2 && IsLower(segments[k + 1][1])
  }

  /** The keys for which camelize(:lower) followed by underscore gives the key back. */
  predicate CamelSafe(first: string, segments: seq<string>) {
    && |first| > 0
    && LowerDigits(first)
    && AllWords(segments)
    && SingleLettersSeparable(segments)
  }

  lemma {:induction false} CamelScanKeepsLowerRun(mode: CamelMode, w: string, z: string)
    requires mode != WordStart && LowerDigits(w)
    ensures CamelScan(mode, w + z) == w + CamelScan(mode, z)
    decreases |w|
  {
    if w != [] {
      assert (w + z)[0] == w[0] && (w + z)[1..] == w[1..] + z;
      assert IsAlnum(w[0]) && Downcase(w[0]) == w[0];
      assert CamelScan(mode, w + z) == [w[0]] + CamelScan(mode, w[1..] + z);
      assert LowerDigits(w[1..]) by {
        forall i | 0 <= i < |w[1..]| ensures IsLowerOrDigit(w[1..][i]) { assert w[1..][i] == w[i + 1]; }
      }
      CamelScanKeepsLowerRun(mode, w[1..], z);
      calc {
        CamelScan(mode, w + z);
        [w[0]] + (w[1..] + CamelScan(mode, z));
        { assert w == [w[0]] + w[1..]; }
        w + CamelScan(mode, z);
      }
    } else {
      assert w + z == z;
    }
  }

  lemma {:induction false} CamelScanSnakeTail(mode: CamelMode, segments: seq<string>)
    requires AllWords(segments)
    ensures CamelScan(mode, SnakeTail(segments)) == CamelTail(segments)
    decreases |segments|
  {
    if segments != [] {
      var g := segments[0];
      var rest := SnakeTail(segments[1..]);
      var s := SnakeTail(segments);
      assert s == "_" + (g + rest);
      assert s[0] == '_' && s[1..] == g + rest;
      assert (g + rest)[0] == g[0] && (g + rest)[1..] == g[1..] + rest;
      assert CamelScan(WordStart, g + rest) == [Upcase(g[0])] + CamelScan(InWord, g[1..] + rest);
      assert LowerDigits(g[1..]) by {
        forall i | 0 <= i < |g[1..]| ensures IsLowerOrDigit(g[1..][i]) { assert g[1..][i] == g[i + 1]; }
      }
      CamelScanKeepsLowerRun(InWord, g[1..], rest);
      CamelScanSnakeTail(InWord, segments[1..]);
      if segments[1..] != [] {
        assert rest[0] == '_';
        assert CamelScan(InWord, rest) == CamelScan(Outside, rest);
      }
    }
  }

  lemma CamelizeSnakeKey(first: string, segments: seq<string>)
    requires CamelSafe(first, segments)
    ensures CamelizeLower(SnakeKey(first, segments)) == first + CamelTail(segments)
  {
    var k := SnakeKey(first, segments);
    assert k[0] == first[0];
    assert Downcase(k[0]) == k[0];
    assert [Downcase(k[0])] + k[1..] == k;
    CamelScanKeepsLowerRun(Outside, first, SnakeTail(segments));
    CamelScanSnakeTail(Outside, segments);
  }

  lemma {:induction false} UnderscoreKeepsLowerRun(prev: string, w: string, z: string)
    requires |w| > 0 && LowerDigits(w)
    ensures UnderscoreAfter(prev, w + z) == w + UnderscoreAfter([w[|w| - 1]], z)
    decreases |w|
  {
    var s := w + z;
    assert s[0] == w[0] && s[1..] == w[1..] + z;
    assert !BreakBefore(prev, s);
    if |w| == 1 {
      assert s[1..] == z;
    } else {
      UnderscoreKeepsLowerRun([w[0]], w[1..], z);
      assert w[1..][|w[1..]| - 1] == w[|w| - 1];
      assert w == [w[0]] + w[1..];
    }
  }

  lemma {:induction false} UnderscoreCamelTail(q: char, segments: seq<string>)
    requires AllWords(segments)
    requires SingleLettersSeparable(segments)
    requires IsLowerOrDigit(q) || (IsUpper(q) && (|segments| > 0 ==> |segments[0]| >= 2 && IsLower(segments[0][1])))
    ensures UnderscoreAfter([q], CamelTail(segments)) == SnakeTail(segments)
    decreases |segments|
  {
    if segments != [] {
      var g := segments[0];
      var tail := segments[1..];
      assert AllWords(tail) by {
        forall k | 0 <= k < |tail| ensures WordSegment(tail[k]) { assert tail[k] == segments[k + 1]; }
      }
      assert SingleLettersSeparable(tail) by {
        forall k | 0 <= k < |tail| - 1 && |tail[k]| == 1
          ensures |tail[k + 1]| >= 2 && IsLower(tail[k + 1][1])
        {
          assert tail[k] == segments[k + 1] && tail[k + 1] == segments[k + 2];
        }
      }
      var rest := CamelTail(tail);
      var s := CamelTail(segments);
      assert s == [Upcase(g[0])] + (g[1..] + rest);
      assert s[0] == Upcase(g[0]) && s[1..] == g[1..] + rest;
      assert IsUpper(s[0]);
      assert |g| >= 2 ==> s[1] == g[1];
      assert BreakBefore([q], s);
      assert UnderscoreChar(s[0]) == g[0];
      assert UnderscoreAfter([q], s) == "_" + [g[0]] + UnderscoreAfter([s[0]], g[1..] + rest);
      if |g| == 1 {
        assert g[1..] + rest == rest;
        assert |tail| > 0 ==> |tail[0]| >= 2 && IsLower(tail[0][1]);
        UnderscoreCamelTail(s[0], tail);
        assert [g[0]] == g;
        assert UnderscoreAfter([s[0]], g[1..] + rest) == SnakeTail(tail);
      } else {
        assert LowerDigits(g[1..]) by {
          forall i | 0 <= i < |g[1..]| ensures IsLowerOrDigit(g[1..][i]) { assert g[1..][i] == g[i + 1]; }
        }
        UnderscoreKeepsLowerRun([s[0]], g[1..], rest);
        UnderscoreCamelTail(g[|g| - 1], tail);
        assert g[1..][|g[1..]| - 1] == g[|g| - 1];
        assert UnderscoreAfter([s[0]], g[1..] + rest) == g[1..] + SnakeTail(tail);
        assert [g[0]] + g[1..] == g;
      }
      assert SnakeTail(segments) == "_" + g + SnakeTail(tail);
    }
  }

  /** camelize(:lower) then underscore gives back every CamelSafe snake_case key. */
  lemma CamelizeRoundTrip(first: string, segments: seq<string>)
    requires CamelSafe(first, segments)
    ensures Underscore(CamelizeLower(SnakeKey(first, segments))) == SnakeKey(first, segments)
  {
    CamelizeSnakeKey(first, segments);
    UnderscoreKeepsLowerRun([], first, CamelTail(segments));
    UnderscoreCamelTail(first[|first| - 1], segments);
  }

  /** ...and no more: `a_b_c` camelizes to `aBC`, which underscores to `a_bc`. */
  lemma CamelizeRoundTripFailsOnAdjacentCapitals()
    ensures !CamelSafe("a", ["b", "c"])
    ensures CamelizeLower("a_b_c") == "aBC"
    ensures Underscore("aBC") == "a_bc"
  {
    assert SnakeKey("a", ["b", "c"]) == "a_b_c";
    var s := "aBC";
    assert s[1..] == "BC" && s[1..][1..] == "C" && s[1..][1..][1..] == [];
    assert UnderscoreAfter(['B'], "C") == "c";
    assert UnderscoreAfter(['a'], "BC") == "_bc";
    var k := "a_b_c";
    assert k[1..] == "_b_c" && k[2..] == "b_c" && k[3..] == "_c" && k[4..] == "c";
    assert CamelScan(WordStart, "c") == "C";
    assert CamelScan(InWord, "_c") == "C";
    assert CamelScan(WordStart, "b_c") == "BC";
    assert CamelScan(Outside, "_b_c") == "BC";
    assert [Downcase(k[0])] + k[1..] == k;
  }
}
