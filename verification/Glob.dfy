/** Subscription patterns: `*` is one path segment, `**` any number of them. */
module Glob {
  /** `str::split('/')`: always at least one segment. */
  function Split(s: string): (segments: seq<string>)
    ensures |segments| > 0
    decreases |s|
  {
    if s == "" then [""]
    else
      var rest := Split(s[1..]);
      if s[0] == '/' then [""] + rest else [[s[0]] + rest[0]] + rest[1..]
  }

  /** The plain meaning of a pattern. */
  predicate Matches(pattern: seq<string>, path: seq<string>)
    decreases |pattern|, |path|
  {
    if pattern == [] then path == []
    else if pattern[0] == "**" then
      Matches(pattern[1..], path) || (path != [] && Matches(pattern, path[1..]))
    else
      path != [] && (pattern[0] == "*" || pattern[0] == path[0]) && Matches(pattern[1..], path[1..])
  }

  /** The same, peeling segments off the end. */
  predicate MatchesBack(pattern: seq<string>, path: seq<string>)
    decreases |pattern|, |path|
  {
    if pattern == [] then path == []
    else
      var p := pattern[|pattern| - 1];
      var init := pattern[..|pattern| - 1];
      if p == "**" then MatchesBack(init, path) || (path != [] && MatchesBack(pattern, path[..|path| - 1]))
      else
        path != [] && (p == "*" || p == path[|path| - 1]) && MatchesBack(init, path[..|path| - 1])
  }

  // ---------------------------------------------------------------- both readings agree

  /** A pattern matches by splitting the path between its two halves. */
  ghost predicate SplitsBetween(p: seq<string>, q: seq<string>, path: seq<string>) {
    exists k :: 0 <= k <= |path| && Matches(p, path[..k]) && Matches(q, path[k..])
  }

  lemma {:induction false} MatchesConcat(p: seq<string>, q: seq<string>, path: seq<string>)
    ensures Matches(p + q, path) <==> SplitsBetween(p, q, path)
    decreases |p|, |path|
  {
    if p == [] {
      assert p + q == q;
      assert path[0..] == path && path[..0] == [];
      if Matches(q, path) { assert Matches(p, path[..0]); }
      if SplitsBetween(p, q, path) {
        var k :| 0 <= k <= |path| && Matches(p, path[..k]) && Matches(q, path[k..]);
        assert k == 0;
      }
    } else {
      assert (p + q)[0] == p[0] && (p + q)[1..] == p[1..] + q;
      if path != [] {
        MatchesConcat(p[1..], q, path[1..]);
      }
      if p[0] == "**" {
        MatchesConcat(p[1..], q, path);
        if path != [] { MatchesConcat(p, q, path[1..]); }
      }
      ConcatForward(p, q, path);
      ConcatBackward(p, q, path);
    }
  }

  lemma ConcatForward(p: seq<string>, q: seq<string>, path: seq<string>)
    requires p != []
    requires path != [] ==> (Matches(p[1..] + q, path[1..]) ==> SplitsBetween(p[1..], q, path[1..]))
    requires p[0] == "**" ==> (Matches(p[1..] + q, path) ==> SplitsBetween(p[1..], q, path))
    requires p[0] == "**" && path != [] ==> (Matches(p + q, path[1..]) ==> SplitsBetween(p, q, path[1..]))
    ensures Matches(p + q, path) ==> SplitsBetween(p, q, path)
  {
    assert (p + q)[1..] == p[1..] + q;
    if Matches(p + q, path) {
      if p[0] == "**" && Matches(p[1..] + q, path) {
        var k :| 0 <= k <= |path| && Matches(p[1..], path[..k]) && Matches(q, path[k..]);
        assert Matches(p, path[..k]);
      } else {
        var r := if p[0] == "**" then p else p[1..];
        var k :| 0 <= k <= |path[1..]| && Matches(r, path[1..][..k]) && Matches(q, path[1..][k..]);
        assert path[..k + 1][1..] == path[1..][..k] && path[k + 1..] == path[1..][k..];
        assert Matches(p, path[..k + 1]);
      }
    }
  }

  lemma ConcatBackward(p: seq<string>, q: seq<string>, path: seq<string>)
    requires p != []
    requires path != [] ==> (SplitsBetween(p[1..], q, path[1..]) ==> Matches(p[1..] + q, path[1..]))
    requires p[0] == "**" ==> (SplitsBetween(p[1..], q, path) ==> Matches(p[1..] + q, path))
    requires p[0] == "**" && path != [] ==> (SplitsBetween(p, q, path[1..]) ==> Matches(p + q, path[1..]))
    ensures SplitsBetween(p, q, path) ==> Matches(p + q, path)
  {
    assert (p + q)[1..] == p[1..] + q;
    if SplitsBetween(p, q, path) {
      var k :| 0 <= k <= |path| && Matches(p, path[..k]) && Matches(q, path[k..]);
      if p[0] == "**" && Matches(p[1..], path[..k]) {
        assert SplitsBetween(p[1..], q, path);
      } else {
        assert k > 0 && path[..k][1..] == path[1..][..k - 1] && path[1..][k - 1..] == path[k..];
        assert SplitsBetween(if p[0] == "**" then p else p[1..], q, path[1..]);
      }
    }
  }

  lemma {:induction false} DoubleStarTakesAll(path: seq<string>)
    ensures Matches(["**"], path)
    decreases |path|
  {
    if path != [] {
      DoubleStarTakesAll(path[1..]);
    } else {
      assert ["**"][1..] == [];
    }
  }

  /** Matching one segment. */
  lemma SingleMatches(s: string, path: seq<string>)
    requires s != "**"
    ensures Matches([s], path) <==> |path| == 1 && (s == "*" || s == path[0])
  {
    assert [s][1..] == [];
  }

  lemma {:induction false} BackIsForward(pattern: seq<string>, path: seq<string>)
    ensures MatchesBack(pattern, path) <==> Matches(pattern, path)
    decreases |pattern|, |path|
  {
    if pattern != [] {
      var init, p := pattern[..|pattern| - 1], pattern[|pattern| - 1];
      assert pattern == init + [p];
      MatchesConcat(init, [p], path);
      if p == "**" {
        BackIsForward(init, path);
        if path != [] {
          BackIsForward(pattern, path[..|path| - 1]);
        }
        StarAtEnd(init, path);
      } else {
        if path != [] {
          BackIsForward(init, path[..|path| - 1]);
        }
        SegmentAtEnd(init, p, path);
      }
    }
  }

  lemma SegmentAtEnd(init: seq<string>, p: string, path: seq<string>)
    requires p != "**"
    ensures SplitsBetween(init, [p], path)
       <==> path != [] && (p == "*" || p == path[|path| - 1]) && Matches(init, path[..|path| - 1])
  {
    forall k | 0 <= k <= |path| { SingleMatches(p, path[k..]); }
    if path != [] {
      assert path[|path| - 1..] == [path[|path| - 1]];
    }
  }

  /** A trailing `**` absorbs any suffix. */
  lemma StarAbsorbs(init: seq<string>, path: seq<string>)
    ensures SplitsBetween(init, ["**"], path) <==> exists k :: 0 <= k <= |path| && Matches(init, path[..k])
  {
    forall k | 0 <= k <= |path| ensures Matches(["**"], path[k..]) { DoubleStarTakesAll(path[k..]); }
  }

  lemma StarAtEnd(init: seq<string>, path: seq<string>)
    ensures SplitsBetween(init, ["**"], path)
       <==> Matches(init, path) || (path != [] && Matches(init + ["**"], path[..|path| - 1]))
  {
    hide Matches, SplitsBetween;
    StarAbsorbs(init, path);
    assert path[..|path|] == path;
    if path != [] {
      var short := path[..|path| - 1];
      StarAbsorbs(init, short);
      MatchesConcat(init, ["**"], short);
      forall k | 0 <= k <= |short| ensures short[..k] == path[..k] { }
    }
  }

  // ---------------------------------------------------------------- the in-place matcher

  /** `row[i]` says whether the pattern so far matches the first `i` segments. */
  ghost predicate RowFor(row: seq<bool>, pattern: seq<string>, parts: seq<string>) {
    |row| == |parts| + 1 && forall i :: 0 <= i <= |parts| ==> row[i] == MatchesBack(pattern, parts[..i])
  }

  /** Absorb a `**`: sweep the row upwards. */
  method StarRow(row: array<bool>, ghost done: seq<string>, parts: seq<string>)
    requires RowFor(row[..], done, parts)
    modifies row
    ensures RowFor(row[..], done + ["**"], parts)
  {
    ghost var next := done + ["**"];
    assert next[..|next| - 1] == done;
    for i := 1 to |parts| + 1
      invariant forall j :: 0 <= j < i ==> row[j] == MatchesBack(next, parts[..j])
      invariant forall j :: i <= j <= |parts| ==> row[j] == MatchesBack(done, parts[..j])
    {
      assert parts[..i][..i - 1] == parts[..i - 1];
      row[i] := row[i] || row[i - 1];
    }
  }

  /** Absorb a literal or `*`: sweep the row downwards. */
  method SegmentRow(row: array<bool>, segment: string, ghost done: seq<string>, parts: seq<string>)
    requires RowFor(row[..], done, parts) && segment != "**"
    modifies row
    ensures RowFor(row[..], done + [segment], parts)
  {
    ghost var next := done + [segment];
    assert next[..|next| - 1] == done;
    var i := |parts|;
    while i > 0
      invariant 0 <= i <= |parts|
      invariant forall j :: 0 <= j <= i ==> row[j] == MatchesBack(done, parts[..j])
      invariant forall j :: i < j <= |parts| ==> row[j] == MatchesBack(next, parts[..j])
    {
      assert parts[..i][..i - 1] == parts[..i - 1];
      row[i] := row[i - 1] && (segment == "*" || segment == parts[i - 1]);
      i := i - 1;
    }
    row[0] := false;
  }

  /** The matcher keeps one row of booleans and updates it in place per pattern segment. */
  method GlobMatches(pattern: string, path: string) returns (r: bool)
    ensures r == Matches(Split(pattern), Split(path))
  {
    var segments, parts := Split(pattern), Split(path);
    var row := new bool[|parts| + 1](_ => false);
    row[0] := true;
    for s := 0 to |segments|
      invariant RowFor(row[..], segments[..s], parts)
    {
      assert segments[..s + 1] == segments[..s] + [segments[s]];
      if segments[s] == "**" {
        StarRow(row, segments[..s], parts);
      } else {
        SegmentRow(row, segments[s], segments[..s], parts);
      }
    }
    assert segments[..|segments|] == segments && parts[..|parts|] == parts;
    r := row[|parts|];
    BackIsForward(segments, parts);
  }
}
