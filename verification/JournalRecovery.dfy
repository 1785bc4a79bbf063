/** Crash recovery of the journal: what replay restores from any byte prefix. */
module JournalRecovery {
  import opened Wrappers
  import opened Utf8
  import opened Journal

  lemma {:induction false} TextIsLong(c: Codec, records: seq<Record>)
    ensures |records| <= |Text(c, records)|
    decreases |records|
  {
    if records != [] { TextIsLong(c, records[..|records| - 1]); }
  }

  lemma TextGrows(c: Codec, records: seq<Record>, p: nat, q: nat)
    requires p <= q <= |records|
    ensures |Text(c, records[..p])| + (q - p) <= |Text(c, records[..q])|
  {
    assert records[..q] == records[..p] + records[p..q];
    TextConcat(c, records[..p], records[p..q]);
    TextIsLong(c, records[p..q]);
  }

  lemma {:induction false} WholeLinesFit(c: Codec, records: seq<Record>, n: nat)
    requires n <= |Text(c, records)|
    ensures var m := WholeLines(c, records, n);
      |Text(c, records[..m])| <= n && (m < |records| ==> n < |Text(c, records[..m + 1])|)
    decreases |records|
  {
    if records == [] || n >= |Text(c, records)| {
      assert records[..|records|] == records;
    } else {
      var front := records[..|records| - 1];
      var m := WholeLines(c, front, n);
      assert records[..|records|] == records;
      if n <= |Text(c, front)| {
        WholeLinesFit(c, front, n);
        assert records[..m] == front[..m] && (m < |front| ==> records[..m + 1] == front[..m + 1]);
      } else {
        assert front[..|front|] == front;
      }
    }
  }

  lemma {:induction false} FlatPrefix(stream: Identity, batches: seq<Batch>, k: nat)
    requires k <= |batches|
    ensures Count(batches[..k]) <= Count(batches)
    ensures Flat(stream, batches)[..Count(batches[..k])] == Flat(stream, batches[..k])
    decreases |batches|
  {
    if k == |batches| {
      assert batches[..k] == batches;
    } else {
      var front := batches[..|batches| - 1];
      assert front[..k] == batches[..k];
      FlatPrefix(stream, front, k);
    }
  }

  function FileOf(c: Codec, stream: Identity, batches: seq<Batch>): (bytes: seq<Byte>) {
    Text(c, Flat(stream, batches))
  }

  /** Batches `0..k` lie wholly inside the first `n` bytes and the next one does not. */
  predicate Inside(c: Codec, stream: Identity, batches: seq<Batch>, k: nat, n: nat) {
    && k <= |batches| && |FileOf(c, stream, batches[..k])| <= n
    && (k < |batches| ==> n < |FileOf(c, stream, batches[..k + 1])|)
  }

  lemma EmptyFile(c: Codec, stream: Identity)
    ensures FileOf(c, stream, []) == []
  {
  }

  lemma {:induction false} SomeInside(c: Codec, stream: Identity, batches: seq<Batch>, n: nat) returns (k: nat)
    ensures Inside(c, stream, batches, k, n)
    decreases |batches|
  {
    EmptyFile(c, stream);
    hide FileOf;
    assert batches[..|batches|] == batches;
    if batches == [] || n >= |FileOf(c, stream, batches)| {
      k := |batches|;
    } else {
      var front := batches[..|batches| - 1];
      k := SomeInside(c, stream, front, n);
      assert front[..k] == batches[..k] && (k < |front| ==> front[..k + 1] == batches[..k + 1]);
    }
  }

  lemma FlatNext(stream: Identity, batches: seq<Batch>, k: nat)
    requires k < |batches|
    ensures Flat(stream, batches[..k + 1])
         == Flat(stream, batches[..k]) + BatchRecords(stream, batches[k], Count(batches[..k]), k)
    ensures Count(batches[..k + 1]) == Count(batches[..k]) + |batches[k].values|
  {
    assert batches[..k + 1][..k] == batches[..k];
  }

  /** A part of the records that ends inside batch `k`. */
  lemma CutInside(stream: Identity, batches: seq<Batch>, k: nat, m: nat)
    requires k < |batches| && Count(batches[..k]) <= m < Count(batches[..k + 1]) && m <= |Flat(stream, batches)|
    ensures m - Count(batches[..k]) < |batches[k].values|
    ensures Flat(stream, batches)[..m] == Upto(stream, batches[..k], batches[k], m - Count(batches[..k]))
  {
    FlatPrefix(stream, batches, k + 1);
    FlatNext(stream, batches, k);
    hide Flat, Count;
    var recs, q := Flat(stream, batches), Count(batches[..k + 1]);
    var front, batch := Flat(stream, batches[..k]), BatchRecords(stream, batches[k], Count(batches[..k]), k);
    assert recs[..m] == recs[..q][..m];
    assert (front + batch)[..m] == front + batch[..m - |front|];
  }

  /** The whole lines in the prefix are batches `0..k` and a proper part of batch `k`. */
  lemma LinesInside(c: Codec, stream: Identity, batches: seq<Batch>, k: nat, n: nat)
    requires n <= |FileOf(c, stream, batches)| && Inside(c, stream, batches, k, n)
    ensures var recs, m, p := Flat(stream, batches), WholeLines(c, Flat(stream, batches), n), Count(batches[..k]);
      && p <= m
      && (k < |batches| ==> m - p < |batches[k].values| && recs[..m] == Upto(stream, batches[..k], batches[k], m - p))
      && (k == |batches| ==> recs[..m] == recs && m == p)
  {
    hide Text, WholeLines, Count;
    var recs, m, p := Flat(stream, batches), WholeLines(c, Flat(stream, batches), n), Count(batches[..k]);
    WholeLinesFit(c, recs, n);
    FlatPrefix(stream, batches, k);
    hide Flat;
    if m < p { TextGrows(c, recs, m + 1, p); }
    if k < |batches| {
      FlatPrefix(stream, batches, k + 1);
      var q := Count(batches[..k + 1]);
      if q <= m { TextGrows(c, recs, q, m); }
      CutInside(stream, batches, k, m);
    } else {
      assert batches[..k] == batches && recs[..|recs|] == recs;
    }
  }

  /**
   A crash that leaves any byte prefix of the file loses exactly the batches not wholly
   inside it: records, local sequence numbers, counters and resume offset are those of
   a fresh journal holding the surviving batches.
   */
  lemma ReplayRestoresWholeBatches(c: Codec, stream: Identity, batches: seq<Batch>, n: nat, k: nat)
    requires Faithful(c) && NonEmpty(batches) && n <= |FileOf(c, stream, batches)|
    requires Inside(c, stream, batches, k, n)
    ensures var bytes := FileOf(c, stream, batches)[..n];
      Replay(c, stream, bytes) == Ok(Done(stream, batches[..k]).(validBytes := CompleteLen(bytes)))
    ensures forall i :: 0 <= i < Count(batches[..k]) ==> Flat(stream, batches[..k])[i].localSeq == i
  {
    hide TakeAll, Flat, WholeLines;
    var recs := Flat(stream, batches);
    var m := WholeLines(c, recs, n);
    LinesInside(c, stream, batches, k, n);
    forall i | 0 <= i < |recs| ensures recs[i].version == VERSION && recs[i].stream == stream {
      FlatIsContiguous(stream, batches, i);
    }
    var partial := CutText(c, recs, n);
    ReplayText(c, stream, recs[..m], partial);
    CompleteText(c, recs[..m], partial);
    if k < |batches| {
      FinishPartial(stream, batches[..k], batches[k], m - Count(batches[..k]));
    } else {
      assert batches[..k] == batches;
      FinishBatches(stream, batches);
    }
    forall i | 0 <= i < Count(batches[..k]) ensures Flat(stream, batches[..k])[i].localSeq == i {
      FlatIsContiguous(stream, batches[..k], i);
    }
  }

  // ---------------------------------------------------------------- appending after a crash

  /** The records of batches appended by a journal that stands at these counters. */
  function FlatFrom(stream: Identity, more: seq<Batch>, localSeq: nat, batchSeq: nat): (s: seq<Record>)
    decreases |more|
  {
    if more == [] then []
    else
      var front := more[..|more| - 1];
      FlatFrom(stream, front, localSeq, batchSeq)
      + BatchRecords(stream, more[|more| - 1], localSeq + Count(front), batchSeq + |front|)
  }

  lemma {:induction false} FlatContinues(stream: Identity, base: seq<Batch>, more: seq<Batch>)
    ensures Flat(stream, base + more) == Flat(stream, base) + FlatFrom(stream, more, Count(base), |base|)
    ensures Count(base + more) == Count(base) + Count(more)
    decreases |more|
  {
    if more == [] {
      assert base + more == base;
    } else {
      var front := more[..|more| - 1];
      assert (base + more)[..|base + more| - 1] == base + front;
      FlatContinues(stream, base, front);
    }
  }

  lemma {:induction false} FlatFromStarts(stream: Identity, more: seq<Batch>, localSeq: nat, batchSeq: nat)
    requires NonEmpty(more)
    ensures var s := FlatFrom(stream, more, localSeq, batchSeq);
      && (if more == [] then s == [] else s != [] && s[0].localSeq == localSeq)
      && (forall i :: 0 <= i < |s| ==> s[i].version == VERSION && s[i].stream == stream)
    decreases |more|
  {
    if more != [] { FlatFromStarts(stream, more[..|more| - 1], localSeq, batchSeq); }
  }

  /** The file after a crash at byte `n`, a reopen that truncates it, and any further batches. */
  function Reappended(c: Codec, stream: Identity, batches: seq<Batch>, n: nat, k: nat, more: seq<Batch>): (bytes: seq<Byte>)
    requires n <= |FileOf(c, stream, batches)| && k <= |batches|
  {
    var crashed := FileOf(c, stream, batches)[..n];
    crashed[..CompleteLen(crashed)] + Text(c, FlatFrom(stream, more, Count(batches[..k]), k))
  }

  /** The crash left no complete line of the unfinished batch. */
  predicate CleanCut(c: Codec, stream: Identity, batches: seq<Batch>, n: nat, k: nat)
    requires n <= |FileOf(c, stream, batches)| && k <= |batches|
  {
    CompleteLen(FileOf(c, stream, batches)[..n]) == |FileOf(c, stream, batches[..k])|
  }

  /** Records that begin again at the committed count. */
  predicate Restarts(later: seq<Record>, front: seq<Batch>) {
    later == [] || later[0].localSeq == Count(front)
  }

  /** After stale lines the first record of a later batch has the wrong sequence number, and hides all that follows. */
  lemma {:induction false} StaleLinesStop(
    stream: Identity, front: seq<Batch>, stale: Batch, j: nat, later: seq<Record>)
    requires NonEmpty(front) && 0 < j < |stale.values| && Restarts(later, front)
    ensures Finish(TakeAll(Upto(stream, front, stale, j) + later)) == Done(stream, front)
  {
    hide TakeAll, Upto, Within, Done, Finish, Take, Flat, Count;
    TakeBatch(stream, front, stale, j);
    StalePart(stream, front, stale, j);
    var kept := Upto(stream, front, stale, j);
    if later == [] {
      assert kept + later == kept;
    } else {
      StaleStops(stream, front, stale, j, later[0]);
      hide NonEmpty;
      StopAfter(kept, later);
    }
  }

  /** Once the scan stops, nothing that follows matters. */
  lemma StopAfter(kept: seq<Record>, later: seq<Record>)
    requires later != [] && Take(TakeAll(kept), later[0]).stopped
    ensures TakeAll(kept + later) == Take(TakeAll(kept), later[0])
  {
    hide TakeAll, Take;
    var all := kept + later;
    assert all[..|kept|] == kept && all[|kept|] == later[0];
    TakeOneMore(all, |kept|);
    StoppedStays(all, |kept| + 1);
  }

  /** A proper part of a batch commits nothing. */
  lemma StalePart(stream: Identity, front: seq<Batch>, stale: Batch, j: nat)
    requires 0 < j < |stale.values|
    ensures Finish(Within(stream, front, stale, j)) == Done(stream, front)
    ensures Finish(Within(stream, front, stale, j).(stopped := true)) == Done(stream, front)
  {
    BatchLength(stream, stale, Count(front), |front|);
    hide BatchRecords, Flat, Count, Resume;
  }

  lemma StaleStops(stream: Identity, front: seq<Batch>, stale: Batch, j: nat, r: Record)
    requires 0 < j < |stale.values| && r.localSeq == Count(front)
    ensures Take(Within(stream, front, stale, j), r) == Within(stream, front, stale, j).(stopped := true)
  {
    FlatLength(stream, front);
    BatchLength(stream, stale, Count(front), |front|);
    hide BatchRecords, Flat, Count, Resume;
  }

  lemma CutHere(c: Codec, records: seq<Record>, n: nat)
    requires Faithful(c) && n <= |Text(c, records)|
    ensures var bytes := Text(c, records)[..n];
      var kept := Text(c, records[..WholeLines(c, records, n)]);
      CompleteLen(bytes) == |kept| && bytes[..CompleteLen(bytes)] == kept
  {
    var partial := CutText(c, records, n);
    CompleteText(c, records[..WholeLines(c, records, n)], partial);
  }

  lemma FlatIsOfStream(stream: Identity, batches: seq<Batch>)
    ensures forall i :: 0 <= i < |Flat(stream, batches)| ==>
      Flat(stream, batches)[i].version == VERSION && Flat(stream, batches)[i].stream == stream
  {
    forall i | 0 <= i < |Flat(stream, batches)|
      ensures Flat(stream, batches)[i].version == VERSION && Flat(stream, batches)[i].stream == stream
    {
      FlatIsContiguous(stream, batches, i);
    }
  }

  /**
   However many batches are appended after a crash and reopen: all of them survive a
   later replay if the crash was a clean cut, and none of them otherwise, because the
   lines of the unfinished batch, kept by the reopen, hide everything written after.
   */
  lemma AppendAfterCrashIff(c: Codec, stream: Identity, batches: seq<Batch>, n: nat, k: nat, more: seq<Batch>)
    requires Faithful(c) && NonEmpty(batches) && n <= |FileOf(c, stream, batches)|
    requires NonEmpty(more) && more != [] && Inside(c, stream, batches, k, n)
    ensures var r := Replay(c, stream, Reappended(c, stream, batches, n, k, more));
      && r.Ok?
      && (CleanCut(c, stream, batches, n, k) <==> r.value.records == Flat(stream, batches[..k] + more))
      && (CleanCut(c, stream, batches, n, k) ==>
            Reappended(c, stream, batches, n, k, more) == FileOf(c, stream, batches[..k] + more))
      && (!CleanCut(c, stream, batches, n, k) ==>
            r.value.records == Flat(stream, batches[..k]) && r.value.nextBatchSeq == k)
  {
    hide TakeAll, Flat, FlatFrom, WholeLines, Text, CompleteLen, Count;
    var recs, p := Flat(stream, batches), Count(batches[..k]);
    var m := WholeLines(c, recs, n);
    var later := FlatFrom(stream, more, p, k);
    LinesInside(c, stream, batches, k, n);
    CutHere(c, recs, n);
    FlatPrefix(stream, batches, k);
    TextConcat(c, recs[..m], later);
    FlatContinues(stream, batches[..k], more);
    FlatFromStarts(stream, more, p, k);
    FlatIsOfStream(stream, batches);
    ReplayText(c, stream, recs[..m] + later, []);
    assert Reappended(c, stream, batches, n, k, more) == Text(c, recs[..m] + later) + [];
    if m == p {
      FinishBatches(stream, batches[..k] + more);
    } else {
      TextGrows(c, recs, p, m);
      StaleLinesStop(stream, batches[..k], batches[k], m - p, later);
    }
  }

  /** A concrete loss: one line of a two-value batch survives a crash, and the next batch is gone on replay. */
  lemma StaleLineLosesNextBatch(c: Codec, stream: Identity)
    requires Faithful(c)
    ensures var two := Batch(Inbound, ["1", "2"], Some("a"), None, 0);
      var next := Batch(Inbound, ["3"], Some("b"), None, 1);
      var n := |Text(c, Flat(stream, [two])[..1])|;
      && n <= |FileOf(c, stream, [two])|
      && Replay(c, stream, Reappended(c, stream, [two], n, 0, [next])).Ok?
      && Replay(c, stream, Reappended(c, stream, [two], n, 0, [next])).value.records == []
  {
    var two := Batch(Inbound, ["1", "2"], Some("a"), None, 0);
    var next := Batch(Inbound, ["3"], Some("b"), None, 1);
    assert [two][..0] == [] && [two][..1] == [two];
    assert Count([two]) == 2;
    var recs := Flat(stream, [two]);
    assert recs[..2] == recs;
    TextGrows(c, recs, 0, 1);
    TextGrows(c, recs, 1, 2);
    var n := |Text(c, recs[..1])|;
    assert Inside(c, stream, [two], 0, n);
    CutHere(c, recs, n);
    WholeLinesFit(c, recs, n);
    var m := WholeLines(c, recs, n);
    TextGrows(c, recs, 1, m);
    assert !CleanCut(c, stream, [two], n, 0);
    AppendAfterCrashIff(c, stream, [two], n, 0, [next]);
  }
}
