/** Which paths a subscription may name: exactly the joins of good segments. */
module PathNames {
  import opened Subscriptions
  import Glob

  function Joined(segments: seq<string>): (path: string)
    requires segments != []
    decreases |segments|
  {
    if |segments| == 1 then segments[0] else segments[0] + "/" + Joined(segments[1..])
  }

  predicate GoodSegment(s: string) { s != "" && s != "." && s != ".." && '/' !in s }

  /** One to sixty-four good segments outside the reserved root, without control characters, 1024 bytes in all. */
  ghost predicate Names(segments: seq<string>, path: string) {
    && 1 <= |segments| <= 64 && path == Joined(segments) && segments[0] != "__ds"
    && (forall i :: 0 <= i < |segments| ==> GoodSegment(segments[i]))
    && ByteLength(path) <= 1024 && forall c :: c in path ==> !IsControl(c)
  }

  lemma {:induction false} JoinOfSplit(path: string)
    ensures Joined(Glob.Split(path)) == path && forall i :: 0 <= i < |Glob.Split(path)| ==> '/' !in Glob.Split(path)[i]
    decreases |path|
  {
    if path != "" {
      JoinOfSplit(path[1..]);
      var rest := Glob.Split(path[1..]);
      var segments := Glob.Split(path);
      assert path == [path[0]] + path[1..];
      if path[0] == '/' {
        assert segments[1..] == rest;
      } else {
        assert segments[1..] == rest[1..];
        if |rest| > 1 { assert [path[0]] + (rest[0] + "/" + Joined(rest[1..])) == segments[0] + "/" + Joined(segments[1..]); }
      }
    }
  }

  lemma {:induction false} SplitStep(s: string, rest: string)
    requires '/' !in s
    ensures Glob.Split(s + "/" + rest) == [s] + Glob.Split(rest)
    decreases |s|
  {
    var whole := s + "/" + rest;
    if s == "" {
      assert whole[1..] == rest;
    } else {
      assert whole[1..] == s[1..] + "/" + rest;
      SplitStep(s[1..], rest);
      assert [s[0]] + s[1..] == s;
    }
  }

  lemma {:induction false} SplitWhole(s: string)
    requires '/' !in s
    ensures Glob.Split(s) == [s]
    decreases |s|
  {
    if s != "" {
      SplitWhole(s[1..]);
      assert [s[0]] + s[1..] == s;
    }
  }

  lemma {:induction false} SplitOfJoin(segments: seq<string>)
    requires segments != [] && forall i :: 0 <= i < |segments| ==> '/' !in segments[i]
    ensures Glob.Split(Joined(segments)) == segments
    decreases |segments|
  {
    if |segments| == 1 {
      SplitWhole(segments[0]);
    } else {
      SplitStep(segments[0], Joined(segments[1..]));
      SplitOfJoin(segments[1..]);
    }
  }

  lemma ValidPathIff(path: string)
    ensures ValidPath(path) <==> exists segments :: Names(segments, path)
  {
    hide ByteLength, IsControl, Joined;
    if ValidPath(path) {
      JoinOfSplit(path);
      var segments := Glob.Split(path);
      forall i | 0 <= i < |segments| ensures GoodSegment(segments[i]) { assert !InvalidSegment(segments[i]); }
      assert Names(segments, path);
    }
    if segments :| Names(segments, path) {
      SplitOfJoin(segments);
      NotEmpty(segments);
    }
  }

  lemma NotEmpty(segments: seq<string>)
    requires segments != [] && segments[0] != ""
    ensures Joined(segments) != ""
  {
  }
}
