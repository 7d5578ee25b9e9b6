/**
 * Python's `str.split(sep)` for a one-character separator, its inverse
 * `sep.join(parts)`, and the last segment `s.split(sep)[-1]`.
 */
module Text {

  /**
   * `s.split(sep)`: the maximal runs between separators, empty runs included.
   * The result is never empty (`"".split("/") == [""]`).
   */
  function Split(s: string, sep: char): (parts: seq<string>)
    ensures |parts| >= 1
    ensures forall i :: 0 <= i < |parts| ==> sep !in parts[i]
    ensures sep !in s ==> parts == [s]
    ensures sep in s ==> |parts| >= 2
    decreases |s|
  {
    if s == [] then [""]
    else
      var rest := Split(s[1..], sep);
      assert s[0] != sep && sep in s ==> sep in s[1..];
      assert s == [s[0]] + s[1..];
      if s[0] == sep then [""] + rest
      else [[s[0]] + rest[0]] + rest[1..]
  }

  /** `sep.join(parts)`: the parts with one separator between neighbours. */
  function Join(parts: seq<string>, sep: char): string
    requires |parts| >= 1
    decreases |parts|
  {
    if |parts| == 1 then parts[0]
    else parts[0] + [sep] + Join(parts[1..], sep)
  }

  /** Joining the pieces of a split gives back the original string. */
  lemma {:induction false} JoinSplit(s: string, sep: char)
    ensures Join(Split(s, sep), sep) == s
    decreases |s|
  {
    if s != [] {
      var rest := Split(s[1..], sep);
      JoinSplit(s[1..], sep);
      if s[0] == sep {
        assert ([""] + rest)[1..] == rest;
        assert s == [sep] + s[1..];
      } else if |rest| == 1 {
        assert s == [s[0]] + s[1..];
      } else {
        var parts := [[s[0]] + rest[0]] + rest[1..];
        assert parts[1..] == rest[1..];
        assert Join(rest, sep) == rest[0] + [sep] + Join(rest[1..], sep);
        assert s == [s[0]] + s[1..];
      }
    }
  }

  /** A separator-free prefix glues onto the first piece of the split. */
  lemma {:induction false} SplitPrepend(p: string, t: string, sep: char)
    requires sep !in p
    ensures Split(p + t, sep) == [p + Split(t, sep)[0]] + Split(t, sep)[1..]
    decreases |p|
  {
    var st := Split(t, sep);
    if p == [] {
      assert p + t == t && p + st[0] == st[0];
      assert st == [st[0]] + st[1..];
    } else {
      SplitPrepend(p[1..], t, sep);
      assert (p + t)[0] == p[0];
      assert (p + t)[1..] == p[1..] + t;
      var r := Split(p[1..] + t, sep);
      assert r[0] == p[1..] + st[0];
      assert [p[0]] + r[0] == p + st[0];
    }
  }

  /** Splitting a join of separator-free parts gives back those parts. */
  lemma {:induction false} SplitJoin(parts: seq<string>, sep: char)
    requires |parts| >= 1
    requires forall i :: 0 <= i < |parts| ==> sep !in parts[i]
    ensures Split(Join(parts, sep), sep) == parts
    decreases |parts|
  {
    if |parts| > 1 {
      var tail := Join(parts[1..], sep);
      SplitJoin(parts[1..], sep);
      var glued := [sep] + tail;
      assert glued[0] == sep && glued[1..] == tail;
      assert Split(glued, sep) == [""] + parts[1..];
      assert parts[0] + [sep] + tail == parts[0] + glued;
      SplitPrepend(parts[0], glued, sep);
      assert Join(parts, sep) == parts[0] + glued;
      assert Split(glued, sep)[0] == "" && Split(glued, sep)[1..] == parts[1..];
      assert parts[0] + "" == parts[0];
      assert parts == [parts[0]] + parts[1..];
    }
  }

  /**
   * The last piece of a split is a suffix of the string that is either the
   * whole string or directly preceded by a separator.
   */
  lemma {:induction false} LastPieceIsSuffix(s: string, sep: char)
    ensures var parts := Split(s, sep);
            var last := parts[|parts| - 1];
            |last| <= |s| && s[|s| - |last|..] == last &&
            (|last| == |s| || s[|s| - |last| - 1] == sep)
    decreases |s|
  {
    if s != [] {
      LastPieceIsSuffix(s[1..], sep);
      var rest := Split(s[1..], sep);
      var last := rest[|rest| - 1];
      assert s[1..][|s[1..]| - |last|..] == s[|s| - |last|..];
      if s[0] != sep && |rest| == 1 {
        assert Split(s, sep) == [s];
      } else {
        assert Split(s, sep)[|Split(s, sep)| - 1] == last;
        if |last| < |s| - 1 {
          assert s[|s| - |last| - 1] == s[1..][|s[1..]| - |last| - 1];
        }
      }
    }
  }

  /**
   * `s.split(sep)[-1]`: the part of `s` after its last separator, or all of
   * `s` when it holds none.
   */
  function LastSegment(s: string, sep: char): (segment: string)
    ensures sep !in segment
    ensures |segment| <= |s| && s[|s| - |segment|..] == segment
    ensures |segment| == |s| || s[|s| - |segment| - 1] == sep
  {
    LastPieceIsSuffix(s, sep);
    var parts := Split(s, sep);
    parts[|parts| - 1]
  }

  /**
   * The three properties of LastSegment pin it down: any separator-free
   * suffix that starts the string or follows a separator is the last segment.
   */
  lemma LastSegmentUnique(s: string, sep: char, segment: string)
    requires sep !in segment
    requires |segment| <= |s| && s[|s| - |segment|..] == segment
    requires |segment| == |s| || s[|s| - |segment| - 1] == sep
    ensures segment == LastSegment(s, sep)
  {
  }
}
