/**
 What replay makes of any file at all, whoever wrote it: the longest run of whole batches
 it begins with, and the exact exception to that.
 */
module JournalReplay {
  import opened Wrappers
  import opened Utf8
  import opened Journal

  // ---------------------------------------------------------------- whole batches

  /** The records from `i` on belong to one batch, so far in order, each at its place in the journal. */
  predicate InBatch(rs: seq<Record>, i: nat, j: nat, batchLen: nat) {
    && i < j <= |rs|
    && forall k :: i <= k < j ==>
         rs[k].localSeq == k && rs[k].batchSeq == rs[i].batchSeq && rs[k].batchIndex == k - i
         && rs[k].batchLen == batchLen && rs[k].nextOffset == rs[i].nextOffset
  }

  /** The records from `i` to `n` are a batch of their own. */
  predicate IsBatch(rs: seq<Record>, i: nat, n: nat) {
    i < n && InBatch(rs, i, n, n - i) && (i > 0 ==> rs[i - 1].batchSeq != rs[i].batchSeq)
  }

  /** The first `n` records are whole batches, one after the other. */
  predicate Whole(rs: seq<Record>, n: nat)
    decreases n
  {
    n == 0 || exists i :: 0 <= i < n && IsBatch(rs, i, n) && Whole(rs, i)
  }

  ghost predicate Longest(rs: seq<Record>, n: nat) {
    n <= |rs| && Whole(rs, n) && forall m: nat :: n < m <= |rs| ==> !Whole(rs, m)
  }

  /** The batch that ends at `n` is followed by a record that continues it past its own length. */
  predicate Overruns(rs: seq<Record>, n: nat) {
    && 0 < n < |rs|
    && var last, r := rs[n - 1], rs[n];
    && r.localSeq == n && r.batchSeq == last.batchSeq && r.batchIndex == last.batchLen == r.batchLen
    && r.nextOffset == last.nextOffset
  }

  /** The offset of the last record that has one. */
  function LatestOffset(rs: seq<Record>, n: nat): (o: Option<string>)
    requires n <= |rs|
    decreases n
  {
    if n == 0 then None else if rs[n - 1].nextOffset.Some? then rs[n - 1].nextOffset else LatestOffset(rs, n - 1)
  }

  // ---------------------------------------------------------------- the scan

  /** The scan after `k` records: what it committed, and what it collects. */
  ghost predicate Scanned(rs: seq<Record>, k: nat, s: Scan) {
    var d, p := |s.done.records|, |s.pending|;
    && k <= |rs| && d + p <= k && (!s.stopped ==> d + p == k && (p == 0 ==> d == 0))
    && CommittedTo(rs, d, s.done)
    && (p > 0 ==>
          && s.pending == rs[d..d + p] && InBatch(rs, d, d + p, s.batchLen)
          && s.batchSeq == rs[d].batchSeq && s.nextOffset == rs[d].nextOffset
          && (d > 0 ==> rs[d - 1].batchSeq != rs[d].batchSeq))
  }

  /** Everything the first `d` records determine. */
  ghost predicate CommittedTo(rs: seq<Record>, d: nat, done: Replayed) {
    && d <= |rs| && Whole(rs, d) && done.records == rs[..d] && done.nextLocalSeq == d
    && done.nextBatchSeq == (if d == 0 then 0 else rs[d - 1].batchSeq + 1)
    && done.resumeOffset == LatestOffset(rs, d)
  }

  lemma {:induction false} LatestOfBatch(rs: seq<Record>, i: nat, j: nat, batchLen: nat)
    requires InBatch(rs, i, j, batchLen)
    ensures LatestOffset(rs, j) == if rs[i].nextOffset.Some? then rs[i].nextOffset else LatestOffset(rs, i)
    decreases j
  {
    if rs[i].nextOffset.None? && j > i + 1 { LatestOfBatch(rs, i, j - 1, batchLen); }
  }

  lemma BatchIsWhole(rs: seq<Record>, i: nat, n: nat)
    requires IsBatch(rs, i, n) && Whole(rs, i)
    ensures Whole(rs, n)
  {
  }

  lemma CommitKeeps(rs: seq<Record>, k: nat, s: Scan)
    requires Scanned(rs, k, s) && s.pending != [] && |s.pending| == s.batchLen
    ensures CommittedTo(rs, |s.done.records| + |s.pending|, Commit(s.done, s.pending, s.batchSeq, s.nextOffset))
  {
    var d, n := |s.done.records|, |s.done.records| + |s.pending|;
    BatchIsWhole(rs, d, n);
    hide Whole;
    LatestOfBatch(rs, d, n, s.batchLen);
    assert rs[..d] + rs[d..n] == rs[..n];
  }

  lemma OpenKeeps(rs: seq<Record>, k: nat, done: Replayed, s: Scan)
    requires k < |rs| && CommittedTo(rs, k, done) && rs[k].localSeq == k && (k > 0 ==> rs[k - 1].batchSeq != rs[k].batchSeq)
    requires !s.stopped
    ensures Scanned(rs, k + 1, Opened(s.(done := done, pending := []), rs[k]))
  {
    hide Whole, LatestOffset;
    assert rs[k..k + 1] == [rs[k]];
  }

  lemma LastOfBatch(rs: seq<Record>, k: nat, s: Scan)
    requires k <= |rs| && Scanned(rs, k, s) && !s.stopped && s.pending != []
    ensures k > 0 && rs[k - 1].batchSeq == s.batchSeq
  {
    hide CommittedTo;
    assert rs[k - 1] == s.pending[|s.pending| - 1];
  }

  lemma TakeKeeps(rs: seq<Record>, k: nat, s: Scan)
    requires k < |rs| && Scanned(rs, k, s)
    ensures Scanned(rs, k + 1, Take(s, rs[k]))
  {
    hide CommittedTo, Opened, Commit, InBatch;
    var r, d, p := rs[k], |s.done.records|, |s.pending|;
    if !s.stopped && r.localSeq == d + p {
      if s.pending == [] {
        OpenKeeps(rs, k, s.done, s);
      } else if r.batchSeq != s.batchSeq {
        if p == s.batchLen {
          CommitKeeps(rs, k, s);
          LastOfBatch(rs, k, s);
          OpenKeeps(rs, k, Commit(s.done, s.pending, s.batchSeq, s.nextOffset), s.(nextOffset := None));
        }
      } else {
        MoreKeeps(rs, k, s);
      }
    }
  }

  /** One more record of the batch being collected. */
  lemma MoreKeeps(rs: seq<Record>, k: nat, s: Scan)
    requires k < |rs| && Scanned(rs, k, s) && !s.stopped && s.pending != []
    requires rs[k].localSeq == k && rs[k].batchSeq == s.batchSeq
    ensures Scanned(rs, k + 1, Take(s, rs[k]))
  {
    hide CommittedTo, Opened, Commit;
    var d, p := |s.done.records|, |s.pending|;
    assert rs[d..d + p] + [rs[k]] == rs[d..d + p + 1];
  }

  lemma {:induction false} ScanKeeps(rs: seq<Record>, k: nat)
    requires k <= |rs|
    ensures Scanned(rs, k, TakeAll(rs[..k]))
    decreases k
  {
    hide Take, Commit;
    if k == 0 {
      TakeNothing();
    } else {
      ScanKeeps(rs, k - 1);
      TakeOneMore(rs, k - 1);
      TakeKeeps(rs, k - 1, TakeAll(rs[..k - 1]));
    }
  }

  /** Replay restores whole batches only, and its counters are theirs. */
  lemma ReplayIsWhole(rs: seq<Record>)
    ensures var f := Finish(TakeAll(rs)); |f.records| <= |rs| && CommittedTo(rs, |f.records|, f)
  {
    ScanKeeps(rs, |rs|);
    assert rs[..|rs|] == rs;
    var s := TakeAll(rs);
    hide TakeAll, Whole, LatestOffset, InBatch, Commit;
    if s.pending != [] && |s.pending| == s.batchLen {
      CommitKeeps(rs, |rs|, s);
      assert |Commit(s.done, s.pending, s.batchSeq, s.nextOffset).records| == |s.done.records| + |s.pending| by {
        assert s.done.records + s.pending == Commit(s.done, s.pending, s.batchSeq, s.nextOffset).records;
      }
    }
  }

  // ---------------------------------------------------------------- the longest run of batches

  /** The scan has collected, not yet committed, the batch that ends at `n`. */
  ghost predicate Full(rs: seq<Record>, n: nat, s: Scan) {
    && 0 < n <= |rs| && Scanned(rs, n, s) && !s.stopped && s.pending != [] && |s.pending| == s.batchLen
  }

  /** The scan has collected the records of the batch from `i` up to `j`. */
  ghost predicate Collected(s: Scan, i: nat, j: nat, batchLen: nat) {
    i < j && !s.stopped && |s.done.records| == i && |s.pending| == j - i && s.batchLen == batchLen
  }

  lemma TakesNext(rs: seq<Record>, i: nat, j: nat, batchLen: nat, s: Scan)
    requires InBatch(rs, i, j + 1, batchLen) && Scanned(rs, j, s) && Collected(s, i, j, batchLen)
    ensures Collected(Take(s, rs[j]), i, j + 1, batchLen)
  {
    hide Whole, LatestOffset, Commit;
  }

  lemma TakesFirst(rs: seq<Record>, i: nat, batchLen: nat, s: Scan)
    requires InBatch(rs, i, i + 1, batchLen)
    requires if i == 0 then s == START else rs[i - 1].batchSeq != rs[i].batchSeq && Full(rs, i, s)
    ensures Collected(Take(s, rs[i]), i, i + 1, batchLen)
  {
    if i > 0 {
      assert rs[i - 1] == s.pending[i - 1 - |s.done.records|];
      hide Whole, LatestOffset;
    }
  }

  lemma BatchPart(rs: seq<Record>, i: nat, j: nat, batchLen: nat)
    requires InBatch(rs, i, j, batchLen)
    ensures i < j <= |rs| && (j > i + 1 ==> InBatch(rs, i, j - 1, batchLen))
  {
  }

  lemma Nothing(rs: seq<Record>)
    ensures TakeAll(rs[..0]) == START
  {
    TakeNothing();
  }

  lemma {:induction false} BatchTaken(rs: seq<Record>, i: nat, j: nat, batchLen: nat)
    requires InBatch(rs, i, j, batchLen)
    requires i > 0 ==> rs[i - 1].batchSeq != rs[i].batchSeq && Full(rs, i, TakeAll(rs[..i]))
    ensures Collected(TakeAll(rs[..j]), i, j, batchLen)
    decreases j
  {
    hide Take, TakeAll, Full, Scanned, Collected, InBatch;
    BatchPart(rs, i, j, batchLen);
    TakeOneMore(rs, j - 1);
    if j > i + 1 {
      ScanKeeps(rs, j - 1);
      BatchTaken(rs, i, j - 1, batchLen);
      TakesNext(rs, i, j - 1, batchLen, TakeAll(rs[..j - 1]));
    } else {
      if i == 0 { Nothing(rs); }
      TakesFirst(rs, i, batchLen, TakeAll(rs[..i]));
    }
  }

  lemma {:induction false} WholeTaken(rs: seq<Record>, n: nat)
    requires 0 < n <= |rs| && Whole(rs, n)
    ensures Full(rs, n, TakeAll(rs[..n]))
    decreases n
  {
    var i :| 0 <= i < n && IsBatch(rs, i, n) && Whole(rs, i);
    hide Whole, Scanned, TakeAll;
    if i > 0 { WholeTaken(rs, i); }
    BatchTaken(rs, i, n, n - i);
    ScanKeeps(rs, n);
  }

  /** What one more record does to a batch that is complete, or that has run past its length. */
  lemma NextAfterFull(rs: seq<Record>, n: nat, s: Scan)
    requires n < |rs| && Full(rs, n, s)
    ensures var t := Take(s, rs[n]);
      if Overruns(rs, n) then t.done == s.done && |t.pending| > t.batchLen
      else t == s.(stopped := true) || |t.done.records| >= n
  {
    hide Whole, LatestOffset;
    var d := |s.done.records|;
    assert rs[n - 1] == s.pending[n - 1 - d];
  }

  lemma {:induction false} AfterFull(rs: seq<Record>, n: nat, k: nat)
    requires 0 < n < k <= |rs| && Full(rs, n, TakeAll(rs[..n]))
    ensures var s, t := TakeAll(rs[..n]), TakeAll(rs[..k]);
      if Overruns(rs, n) then t.done == s.done && |t.pending| > t.batchLen
      else t == s.(stopped := true) || |t.done.records| >= n
    decreases k
  {
    hide Full, TakeAll;
    TakeOneMore(rs, k - 1);
    if k == n + 1 {
      NextAfterFull(rs, n, TakeAll(rs[..n]));
    } else {
      AfterFull(rs, n, k - 1);
    }
  }

  /**
   Whatever the file holds, replay restores the longest run of whole batches it begins
   with, unless the next record continues the last of them past its own length; then
   that batch is lost too.
   */
  lemma ReplayIsLongestIff(rs: seq<Record>, n: nat)
    requires Longest(rs, n)
    ensures Finish(TakeAll(rs)).records == rs[..n] <==> !Overruns(rs, n)
    ensures Overruns(rs, n) ==> |Finish(TakeAll(rs)).records| == n - rs[n - 1].batchLen
    ensures !Overruns(rs, n) ==> CommittedTo(rs, n, Finish(TakeAll(rs)))
  {
    ReplayIsWhole(rs);
    var f := Finish(TakeAll(rs));
    if n > 0 { FinishAfter(rs, n); }
    hide TakeAll, Commit, Finish;
    assert Whole(rs, |f.records|);
    hide Whole, LatestOffset;
  }

  lemma FinishAfter(rs: seq<Record>, n: nat)
    requires 0 < n <= |rs| && Whole(rs, n)
    ensures var f := |Finish(TakeAll(rs)).records|;
      && rs[n - 1].batchLen > 0
      && if Overruns(rs, n) then f == n - rs[n - 1].batchLen else f >= n
  {
    hide Full, TakeAll, Overruns, Whole;
    WholeTaken(rs, n);
    var s, t := TakeAll(rs[..n]), TakeAll(rs);
    FullSays(rs, n, s);
    OverrunsInside(rs, n);
    if n < |rs| {
      assert rs[..|rs|] == rs;
      AfterFull(rs, n, |rs|);
    } else {
      assert rs[..n] == rs;
    }
    CommitLength(t);
  }

  lemma CommitLength(s: Scan)
    ensures |Commit(s.done, s.pending, s.batchSeq, s.nextOffset).records| == |s.done.records| + |s.pending|
  {
  }

  lemma OverrunsInside(rs: seq<Record>, n: nat)
    ensures Overruns(rs, n) ==> n < |rs|
  {
  }

  lemma FullSays(rs: seq<Record>, n: nat, s: Scan)
    requires Full(rs, n, s)
    ensures |s.done.records| + |s.pending| == n && 0 < s.batchLen == |s.pending| == rs[n - 1].batchLen
  {
    hide CommittedTo;
    assert rs[n - 1] == s.pending[|s.pending| - 1];
  }

  lemma ThreeAreWhole(rs: seq<Record>)
    requires |rs| >= 3
    requires forall k :: 0 <= k < 3 ==> rs[k].localSeq == rs[k].batchIndex == k && rs[k].batchSeq == 0 && rs[k].batchLen == 3
    requires rs[0].nextOffset == rs[1].nextOffset == rs[2].nextOffset
    ensures Whole(rs, 3)
  {
    assert InBatch(rs, 0, 3, 3);
    assert IsBatch(rs, 0, 3);
    BatchIsWhole(rs, 0, 3);
  }

  lemma FourAreNot(rs: seq<Record>)
    requires |rs| == 4 && rs[3].batchLen == 3 && rs[3].batchIndex == 3
    ensures !Whole(rs, 4)
  {
    forall i | 0 <= i < 4 ensures !IsBatch(rs, i, 4) {
      var last := rs[3];
    }
  }

  /** A fourth record that says it is the fourth of three. */
  lemma OverrunLosesBatch(stream: Identity)
    ensures var b := Batch(Outbound, ["a", "b", "c"], None, None, 0);
      var rs := BatchRecords(stream, b, 0, 0);
      var more := rs + [rs[2].(localSeq := 3, batchIndex := 3)];
      Finish(TakeAll(rs)).records == rs && Finish(TakeAll(more)).records == []
  {
    var b := Batch(Outbound, ["a", "b", "c"], None, None, 0);
    var rs := BatchRecords(stream, b, 0, 0);
    var more := rs + [rs[2].(localSeq := 3, batchIndex := 3)];
    hide TakeAll, Finish, CommittedTo;
    assert |rs| == 3 && forall k :: 0 <= k < 3 ==> rs[k] == RecordAt(stream, b, 0, 0, k) == more[k];
    ThreeAreWhole(rs);
    ThreeAreWhole(more);
    FourAreNot(more);
    assert Overruns(more, 3);
    assert rs[..3] == rs;
    hide BatchRecords, RecordAt, Whole, IsBatch, InBatch;
    ReplayIsLongestIff(rs, 3);
    ReplayIsLongestIff(more, 3);
  }

  // ---------------------------------------------------------------- from bytes to records

  /** The file is cut behind its last newline. */
  lemma {:induction false} CutIsComplete(bytes: seq<Byte>)
    ensures var n := CompleteLen(bytes);
      && (n > 0 ==> bytes[n - 1] == NEWLINE)
      && forall i :: n <= i < |bytes| ==> bytes[i] != NEWLINE
    decreases |bytes|
  {
    if bytes != [] && bytes[|bytes| - 1] != NEWLINE { CutIsComplete(bytes[..|bytes| - 1]); }
  }

  function Joined(lines: seq<seq<Byte>>): (bytes: seq<Byte>)
    requires lines != []
    decreases |lines|
  {
    if |lines| == 1 then lines[0] else Joined(lines[..|lines| - 1]) + [NEWLINE] + lines[|lines| - 1]
  }

  /** The lines are what stands between the newlines. */
  lemma {:induction false} LinesJoin(bytes: seq<Byte>)
    ensures var lines := SplitLines(bytes);
      Joined(lines) == bytes && forall i :: 0 <= i < |lines| ==> NEWLINE !in lines[i]
    decreases |bytes|
  {
    if bytes != [] {
      var init, b := bytes[..|bytes| - 1], bytes[|bytes| - 1];
      LinesJoin(init);
      var front := SplitLines(init);
      var lines := SplitLines(bytes);
      if b == NEWLINE {
        assert lines[..|lines| - 1] == front && init + [NEWLINE] + [] == bytes;
      } else {
        var last := front[|front| - 1];
        assert lines[..|lines| - 1] == front[..|front| - 1];
        if |front| > 1 {
          assert Joined(front[..|front| - 1]) + [NEWLINE] + (last + [b]) == Joined(front) + [b];
        }
        assert init + [b] == bytes;
      }
    }
  }

  predicate AllSpace(bytes: seq<Byte>) {
    forall i :: 0 <= i < |bytes| ==> Space(bytes[i])
  }

  /** The line without the white space around it. */
  function Trimmed(line: seq<Byte>): (t: seq<Byte>) { TrimEnd(TrimStart(line)) }

  lemma {:induction false} StartIs(line: seq<Byte>) returns (before: seq<Byte>)
    ensures AllSpace(before) && line == before + TrimStart(line)
    ensures TrimStart(line) != [] ==> !Space(TrimStart(line)[0])
    decreases |line|
  {
    before := [];
    if line != [] && Space(line[0]) {
      before := StartIs(line[1..]);
      before := [line[0]] + before;
    }
  }

  lemma {:induction false} EndIs(line: seq<Byte>) returns (after: seq<Byte>)
    ensures AllSpace(after) && line == TrimEnd(line) + after
    ensures TrimEnd(line) != [] ==> !Space(TrimEnd(line)[|TrimEnd(line)| - 1])
    decreases |line|
  {
    after := [];
    if line != [] && Space(line[|line| - 1]) {
      after := EndIs(line[..|line| - 1]);
      after := after + [line[|line| - 1]];
    }
  }

  /** Only white space is taken off, and all of it. */
  lemma TrimmedIs(line: seq<Byte>) returns (before: seq<Byte>, after: seq<Byte>)
    ensures var t := Trimmed(line);
      && AllSpace(before) && AllSpace(after) && line == before + t + after
      && (t != [] ==> !Space(t[0]) && !Space(t[|t| - 1]))
  {
    before := StartIs(line);
    after := EndIs(TrimStart(line));
    var t := Trimmed(line);
    assert t != [] ==> t[0] == TrimStart(line)[0];
    assert line == before + (t + after) == before + t + after;
  }

  /** A blank line, or a record of this version and stream. */
  predicate Good(c: Codec, stream: Identity, line: seq<Byte>) {
    Trimmed(line) == [] || (c.decode(Trimmed(line)).Some? && !Foreign(stream, c.decode(Trimmed(line)).value))
  }

  predicate Foreign(stream: Identity, r: Record) { r.version != 1 || r.stream != stream }

  function Records(c: Codec, lines: seq<seq<Byte>>): (rs: seq<Record>)
    decreases |lines|
  {
    if lines == [] then []
    else
      var r := c.decode(Trimmed(lines[0]));
      (if Trimmed(lines[0]) == [] || r.None? then [] else [r.value]) + Records(c, lines[1..])
  }

  lemma NoRecords(c: Codec)
    ensures Records(c, []) == []
  {
  }

  lemma RecordsFirst(c: Codec, lines: seq<seq<Byte>>)
    requires lines != []
    ensures var r := c.decode(Trimmed(lines[0]));
      Records(c, lines) == (if Trimmed(lines[0]) == [] || r.None? then [] else [r.value]) + Records(c, lines[1..])
  {
  }

  lemma {:induction false} ParseAnswers(c: Codec, stream: Identity, lines: seq<seq<Byte>>, n: nat)
    requires n <= |lines| && (forall i :: 0 <= i < n ==> Good(c, stream, lines[i]))
    requires n < |lines| ==> !Good(c, stream, lines[n])
    ensures Parse(c, stream, lines) ==
      if n < |lines| && c.decode(Trimmed(lines[n])).Some? then
        var r := c.decode(Trimmed(lines[n])).value;
        Err(if r.version != 1 then UnsupportedVersion(r.version) else StreamMismatch(r.stream))
      else Ok(Records(c, lines[..n]))
    decreases |lines|
  {
    hide TrimStart, TrimEnd, Records;
    if n == 0 {
      assert lines[..0] == [];
      NoRecords(c);
    } else {
      assert Good(c, stream, lines[0]);
      assert forall i :: 0 <= i < |lines| - 1 ==> lines[1..][i] == lines[i + 1];
      ParseAnswers(c, stream, lines[1..], n - 1);
      assert lines[..n][1..] == lines[1..][..n - 1] && lines[..n][0] == lines[0];
      RecordsFirst(c, lines[..n]);
      assert [] + Records(c, lines[1..][..n - 1]) == Records(c, lines[1..][..n - 1]);
    }
  }

  /**
   Any file: `n` lines are good and the next, if any, is not, `m` of their records are
   whole batches. A foreign record there fails the replay; otherwise it restores those
   batches, but for an overrun, and the file is kept up to its last newline.
   */
  lemma AnyFileReplays(c: Codec, stream: Identity, bytes: seq<Byte>, n: nat, m: nat)
    requires var lines := SplitLines(bytes[..CompleteLen(bytes)]);
      && n <= |lines| && (forall i :: 0 <= i < n ==> Good(c, stream, lines[i]))
      && (n < |lines| ==> !Good(c, stream, lines[n])) && Longest(Records(c, lines[..n]), m)
    ensures var lines, r := SplitLines(bytes[..CompleteLen(bytes)]), Replay(c, stream, bytes);
      var rs := Records(c, lines[..n]);
      && (r.Err? <==> n < |lines| && c.decode(Trimmed(lines[n])).Some?)
      && (r.Err? ==>
            var found := c.decode(Trimmed(lines[n])).value;
            r.error == if found.version != 1 then UnsupportedVersion(found.version) else StreamMismatch(found.stream))
      && (r.Ok? ==>
            && r.value.validBytes == CompleteLen(bytes)
            && (r.value.records == rs[..m] <==> !Overruns(rs, m))
            && (!Overruns(rs, m) ==> CommittedTo(rs, m, r.value)))
  {
    var lines := SplitLines(bytes[..CompleteLen(bytes)]);
    hide SplitLines, CompleteLen, Overruns, Good, Whole, LatestOffset, Trimmed;
    ParseAnswers(c, stream, lines, n);
    hide Parse, TakeAll, Finish, Records;
    ReplayIsLongestIff(Records(c, lines[..n]), m);
  }
}
