/** The string splitting the parser relies on: a plain split on one separator
    (what `CSV.parse_line` does to text without quotes), Ruby's `String#split`
    (which drops trailing empty pieces) and `String#partition`. */
module Strings {

  /** Every piece between separators, empty ones included; never empty. */
  function SplitOn<T(==)>(s: seq<T>, sep: T): (r: seq<seq<T>>)
    ensures |r| >= 1
    decreases |s|
  {
    if s == [] then [[]]
    else if s[0] == sep then [[]] + SplitOn(s[1..], sep)
    else
      var rest := SplitOn(s[1..], sep);
      [[s[0]] + rest[0]] + rest[1..]
  }

  function Join(parts: seq<string>, sep: char): string
    requires |parts| >= 1
  {
    if |parts| == 1 then parts[0] else parts[0] + [sep] + Join(parts[1..], sep)
  }

  predicate NoSep(parts: seq<string>, sep: char) {
    forall i :: 0 <= i < |parts| ==> sep !in parts[i]
  }

  /** Splitting loses nothing: joining the pieces gives the text back, and no
      piece contains the separator. */
  lemma {:induction false} JoinSplit(s: string, sep: char)
    ensures Join(SplitOn(s, sep), sep) == s
    ensures NoSep(SplitOn(s, sep), sep)
  {
    if s != [] {
      JoinSplit(s[1..], sep);
      var rest := SplitOn(s[1..], sep);
      if s[0] == sep {
        assert SplitOn(s, sep) == [""] + rest;
        assert (([""] + rest)[1..]) == rest;
      } else {
        var r := SplitOn(s, sep);
        assert r == [[s[0]] + rest[0]] + rest[1..];
        if |rest| == 1 {
          assert s == [s[0]] + s[1..];
        } else {
          assert r[1..] == rest[1..];
          assert Join(r, sep) == [s[0]] + (rest[0] + [sep] + Join(rest[1..], sep));
        }
        forall i | 0 <= i < |r| ensures sep !in r[i] {
          if i > 0 { assert r[i] == rest[i]; }
        }
      }
    }
  }

  /** The converse: pieces without the separator come back from a split of their join. */
  lemma {:induction false} SplitJoin(parts: seq<string>, sep: char)
    requires |parts| >= 1 && NoSep(parts, sep)
    ensures SplitOn(Join(parts, sep), sep) == parts
    decreases |parts|, |parts[0]|
  {
    var p := parts[0];
    if p == [] {
      if |parts| > 1 {
        SplitJoin(parts[1..], sep);
        var j := Join(parts, sep);
        assert j == [sep] + Join(parts[1..], sep);
        assert j[1..] == Join(parts[1..], sep);
        assert [""] + parts[1..] == parts;
      }
    } else {
      var tail := [p[1..]] + parts[1..];
      assert sep !in p[1..] by {
        forall k | 0 <= k < |p[1..]| ensures p[1..][k] != sep { assert p[1..][k] == p[k + 1]; }
      }
      assert NoSep(tail, sep) by {
        forall i | 0 <= i < |tail| ensures sep !in tail[i] {
          if i > 0 { assert tail[i] == parts[i]; }
        }
      }
      SplitJoin(tail, sep);
      var j := Join(parts, sep);
      assert tail[1..] == parts[1..];
      if |parts| == 1 {
        assert j == p && j[1..] == Join(tail, sep);
      } else {
        assert j == [p[0]] + (p[1..] + [sep] + Join(parts[1..], sep));
        assert j[1..] == Join(tail, sep);
      }
      assert j[0] == p[0] && p[0] != sep;
      assert [p[0]] + p[1..] == p;
      assert [p] + parts[1..] == parts;
    }
  }

  /** Drop the empty pieces at the end, as Ruby's `split` does. */
  function DropTrailingEmpty(parts: seq<string>): (r: seq<string>)
    ensures |r| <= |parts| && r == parts[..|r|]
    ensures |r| > 0 ==> r[|r| - 1] != ""
    ensures forall i :: |r| <= i < |parts| ==> parts[i] == ""
  {
    if parts == [] then []
    else if parts[|parts| - 1] == "" then DropTrailingEmpty(parts[..|parts| - 1])
    else parts
  }

  /** Ruby's `String#split` with a one-character separator. */
  function RubySplit(s: string, sep: char): seq<string> {
    DropTrailingEmpty(SplitOn(s, sep))
  }

  /** Ruby's `String#partition`: the text before the first separator and the text
      after it; without a separator, the whole text and "". */
  function Partition(s: string, sep: char): (r: (string, string))
    ensures sep !in r.0
    ensures sep in s ==> s == r.0 + [sep] + r.1
    ensures sep !in s ==> r == (s, "")
    ensures |r.1| < |s| || s == []
  {
    if s == [] then ("", "")
    else if s[0] == sep then ("", s[1..])
    else
      var rest := Partition(s[1..], sep);
      assert sep in s[1..] ==> s == [s[0]] + rest.0 + [sep] + rest.1 by {
        assert s == [s[0]] + s[1..];
      }
      assert sep !in s[1..] ==> sep !in s by {
        if sep in s { var k :| 0 <= k < |s| && s[k] == sep; assert s[1..][k - 1] == sep; }
      }
      ([s[0]] + rest.0, rest.1)
  }

  /** Partitioning at the first separator peels off the first piece of the split. */
  lemma {:induction false} SplitAtFirst(s: string, sep: char)
    ensures sep in s ==> SplitOn(s, sep) == [Partition(s, sep).0] + SplitOn(Partition(s, sep).1, sep)
    ensures sep !in s ==> SplitOn(s, sep) == [s]
    decreases |s|
  {
    if s != [] && s[0] != sep {
      SplitAtFirst(s[1..], sep);
      assert sep in s <==> sep in s[1..] by {
        if sep in s { var k :| 0 <= k < |s| && s[k] == sep; assert s[1..][k - 1] == sep; }
      }
      assert s == [s[0]] + s[1..];
    }
  }
}
