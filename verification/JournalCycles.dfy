/** Any number of cycles of appending, crashing and reopening the journal. */
module JournalCycles {
  import opened Wrappers
  import opened Utf8
  import opened Journal
  import opened JournalRecovery

  /** Append these batches, then crash leaving the first `cut` bytes of the file, then reopen. */
  datatype Cycle = Cycle(more: seq<Batch>, cut: nat)

  /** What the file holds at the crash: the records found at the last open, then those appended. */
  function Written(stream: Identity, records: seq<Record>, cycle: Cycle): (all: seq<Record>) {
    var found := Finish(TakeAll(records));
    records + FlatFrom(stream, cycle.more, found.nextLocalSeq, found.nextBatchSeq)
  }

  /** The complete lines the reopen keeps. */
  function Reopened(c: Codec, stream: Identity, records: seq<Record>, cycle: Cycle): (kept: seq<Record>) {
    var all := Written(stream, records, cycle);
    all[..WholeLines(c, all, cycle.cut)]
  }

  predicate OfStream(stream: Identity, records: seq<Record>) {
    forall i :: 0 <= i < |records| ==> records[i].version == VERSION && records[i].stream == stream
  }

  /** One cycle on bytes: the crashed file replays to the kept records and is truncated to their text. */
  lemma CycleOnBytes(c: Codec, stream: Identity, records: seq<Record>, cycle: Cycle)
    requires Faithful(c) && OfStream(stream, records) && NonEmpty(cycle.more)
    requires cycle.cut <= |Text(c, Written(stream, records, cycle))|
    ensures var bytes := Text(c, Written(stream, records, cycle))[..cycle.cut];
      var kept := Reopened(c, stream, records, cycle);
      && OfStream(stream, kept)
      && bytes[..CompleteLen(bytes)] == Text(c, kept)
      && Replay(c, stream, bytes) == Ok(Finish(TakeAll(kept)).(validBytes := |Text(c, kept)|))
  {
    hide TakeAll, FlatFrom, WholeLines, Text, CompleteLen;
    var found := Finish(TakeAll(records));
    var all := Written(stream, records, cycle);
    FlatFromStarts(stream, cycle.more, found.nextLocalSeq, found.nextBatchSeq);
    CutHere(c, all, cycle.cut);
    var partial := CutText(c, all, cycle.cut);
    ReplayText(c, stream, Reopened(c, stream, records, cycle), partial);
  }

  function AfterCycles(c: Codec, stream: Identity, records: seq<Record>, cycles: seq<Cycle>): (r: seq<Record>)
    decreases |cycles|
  {
    if cycles == [] then records
    else AfterCycles(c, stream, Reopened(c, stream, records, cycles[0]), cycles[1..])
  }

  // ---------------------------------------------------------------- clean cuts

  /** The crash of this cycle leaves whole batches `0..k` and no complete line more. */
  predicate CleanAt(c: Codec, stream: Identity, batches: seq<Batch>, cycle: Cycle, k: nat) {
    var all := batches + cycle.more;
    && cycle.cut <= |FileOf(c, stream, all)| && Inside(c, stream, all, k, cycle.cut)
    && CleanCut(c, stream, all, cycle.cut, k)
  }

  /** Every crash of the run is clean; `ks` counts the batches each one leaves. */
  predicate AllClean(c: Codec, stream: Identity, batches: seq<Batch>, cycles: seq<Cycle>, ks: seq<nat>)
    requires |ks| == |cycles|
    decreases |cycles|
  {
    cycles == [] ||
    (&& NonEmpty(cycles[0].more) && CleanAt(c, stream, batches, cycles[0], ks[0])
     && AllClean(c, stream, (batches + cycles[0].more)[..ks[0]], cycles[1..], ks[1..]))
  }

  function Survivors(batches: seq<Batch>, cycles: seq<Cycle>, ks: seq<nat>): (b: seq<Batch>)
    requires |ks| == |cycles|
    decreases |cycles|
  {
    if cycles == [] then batches
    else
      var all := batches + cycles[0].more;
      Survivors(if ks[0] <= |all| then all[..ks[0]] else all, cycles[1..], ks[1..])
  }

  lemma CleanCycle(c: Codec, stream: Identity, batches: seq<Batch>, cycle: Cycle, k: nat)
    requires Faithful(c) && NonEmpty(batches) && NonEmpty(cycle.more) && CleanAt(c, stream, batches, cycle, k)
    ensures Reopened(c, stream, Flat(stream, batches), cycle) == Flat(stream, (batches + cycle.more)[..k])
    ensures NonEmpty((batches + cycle.more)[..k])
  {
    hide TakeAll, Flat, FlatFrom, WholeLines, Text, CompleteLen, Count;
    var all := batches + cycle.more;
    FinishBatches(stream, batches);
    FlatContinues(stream, batches, cycle.more);
    assert Written(stream, Flat(stream, batches), cycle) == Flat(stream, all);
    var recs := Flat(stream, all);
    var m, p := WholeLines(c, recs, cycle.cut), Count(all[..k]);
    LinesInside(c, stream, all, k, cycle.cut);
    CutHere(c, recs, cycle.cut);
    FlatPrefix(stream, all, k);
    TextGrows(c, recs, p, m);
  }

  /** After any number of clean crashes the journal is that of the surviving batches, and replays to them. */
  lemma {:induction false} CleanCyclesRecover(
    c: Codec, stream: Identity, batches: seq<Batch>, cycles: seq<Cycle>, ks: seq<nat>)
    requires Faithful(c) && NonEmpty(batches) && |ks| == |cycles| && AllClean(c, stream, batches, cycles, ks)
    ensures var left := Survivors(batches, cycles, ks);
      && AfterCycles(c, stream, Flat(stream, batches), cycles) == Flat(stream, left)
      && Finish(TakeAll(Flat(stream, left))) == Done(stream, left)
    decreases |cycles|
  {
    hide TakeAll, Flat, Reopened, CleanAt, NonEmpty, Done;
    if cycles == [] {
      FinishBatches(stream, batches);
    } else {
      CleanCycle(c, stream, batches, cycles[0], ks[0]);
      CleanFits(c, stream, batches, cycles[0], ks[0]);
      CleanCyclesRecover(c, stream, (batches + cycles[0].more)[..ks[0]], cycles[1..], ks[1..]);
    }
  }

  lemma CleanFits(c: Codec, stream: Identity, batches: seq<Batch>, cycle: Cycle, k: nat)
    requires CleanAt(c, stream, batches, cycle, k)
    ensures k <= |batches + cycle.more|
  {
  }

  // ---------------------------------------------------------------- one cut that is not clean

  /** Whole batches, a proper part of another, and whatever was appended after a reopen. */
  ghost predicate Stuck(stream: Identity, front: seq<Batch>, records: seq<Record>) {
    && NonEmpty(front)
    && exists stale: Batch, j: nat, later :: StuckBy(stream, front, records, stale, j, later)
  }

  predicate StuckBy(stream: Identity, front: seq<Batch>, records: seq<Record>, stale: Batch, j: nat, later: seq<Record>) {
    0 < j < |stale.values| && records == Upto(stream, front, stale, j) + later && Restarts(later, front)
  }

  /** Every crash leaves at least what the reopen before it had found. */
  predicate KeepsOpened(c: Codec, stream: Identity, records: seq<Record>, cycles: seq<Cycle>)
    decreases |cycles|
  {
    cycles == [] ||
    (&& NonEmpty(cycles[0].more) && |Text(c, records)| <= cycles[0].cut <= |Text(c, Written(stream, records, cycles[0]))|
     && KeepsOpened(c, stream, Reopened(c, stream, records, cycles[0]), cycles[1..]))
  }

  lemma StuckReplay(stream: Identity, front: seq<Batch>, records: seq<Record>)
    requires Stuck(stream, front, records)
    ensures Finish(TakeAll(records)) == Done(stream, front)
  {
    var stale: Batch, j: nat, later :| StuckBy(stream, front, records, stale, j, later);
    StaleLinesStop(stream, front, stale, j, later);
  }

  lemma StuckStays(c: Codec, stream: Identity, front: seq<Batch>, records: seq<Record>, cycle: Cycle)
    requires Stuck(stream, front, records) && NonEmpty(cycle.more)
    requires |Text(c, records)| <= cycle.cut <= |Text(c, Written(stream, records, cycle))|
    ensures Stuck(stream, front, Reopened(c, stream, records, cycle))
  {
    hide TakeAll, Flat, FlatFrom, WholeLines, Text, Count, Upto;
    StuckReplay(stream, front, records);
    var stale: Batch, j: nat, later :| StuckBy(stream, front, records, stale, j, later);
    var all := Written(stream, records, cycle);
    var m := WholeLines(c, all, cycle.cut);
    var more := FlatFrom(stream, cycle.more, Count(front), |front|);
    assert all == records + more;
    FlatFromStarts(stream, cycle.more, Count(front), |front|);
    WholeLinesFit(c, all, cycle.cut);
    assert all[..|records|] == records;
    if m < |records| { TextGrows(c, all, m + 1, |records|); }
    var head := Upto(stream, front, stale, j);
    var later' := (later + more)[..m - |head|];
    assert all[..m] == head + later';
    assert StuckBy(stream, front, all[..m], stale, j, later');
  }

  /**
   Once a crash that was not clean has been reopened, nothing appended in any number of
   later cycles is ever recovered: replay keeps giving the batches before it.
   */
  lemma {:induction false} StuckForever(c: Codec, stream: Identity, front: seq<Batch>, records: seq<Record>, cycles: seq<Cycle>)
    requires Stuck(stream, front, records) && KeepsOpened(c, stream, records, cycles)
    ensures Finish(TakeAll(AfterCycles(c, stream, records, cycles))) == Done(stream, front)
    decreases |cycles|
  {
    hide Stuck, Reopened, Written;
    if cycles == [] {
      StuckReplay(stream, front, records);
    } else {
      StuckStays(c, stream, front, records, cycles[0]);
      StuckForever(c, stream, front, Reopened(c, stream, records, cycles[0]), cycles[1..]);
    }
  }

  lemma StaleLeft(c: Codec, stream: Identity, all: seq<Batch>, n: nat, k: nat)
    requires Faithful(c) && n <= |FileOf(c, stream, all)| && Inside(c, stream, all, k, n) && !CleanCut(c, stream, all, n, k)
    ensures WholeLines(c, Flat(stream, all), n) != Count(all[..k])
  {
    hide Flat, WholeLines, Text, CompleteLen, Count;
    CutHere(c, Flat(stream, all), n);
    FlatPrefix(stream, all, k);
  }

  lemma UncleanCut(c: Codec, stream: Identity, all: seq<Batch>, n: nat, k: nat)
    requires Faithful(c) && NonEmpty(all)
    requires n <= |FileOf(c, stream, all)| && Inside(c, stream, all, k, n) && !CleanCut(c, stream, all, n, k)
    ensures Stuck(stream, all[..k], Flat(stream, all)[..WholeLines(c, Flat(stream, all), n)])
  {
    hide Flat, WholeLines, Count, Upto, Stuck, FileOf, CleanCut;
    StaleLeft(c, stream, all, n, k);
    LinesInside(c, stream, all, k, n);
    StuckAfter(stream, all[..k], all[k], WholeLines(c, Flat(stream, all), n) - Count(all[..k]));
  }

  /** A crash that is not clean leaves the journal stuck at the batches wholly inside. */
  lemma UncleanIsStuck(c: Codec, stream: Identity, batches: seq<Batch>, cycle: Cycle, k: nat)
    requires Faithful(c) && NonEmpty(batches) && NonEmpty(cycle.more)
    requires var all := batches + cycle.more;
      && cycle.cut <= |FileOf(c, stream, all)| && Inside(c, stream, all, k, cycle.cut)
      && !CleanCut(c, stream, all, cycle.cut, k)
    ensures Stuck(stream, (batches + cycle.more)[..k], Reopened(c, stream, Flat(stream, batches), cycle))
  {
    hide TakeAll, Flat, FlatFrom, WholeLines, Count, Stuck, FileOf, CleanCut, Inside;
    FinishBatches(stream, batches);
    FlatContinues(stream, batches, cycle.more);
    UncleanCut(c, stream, batches + cycle.more, cycle.cut, k);
  }

  lemma StuckAfter(stream: Identity, front: seq<Batch>, stale: Batch, j: nat)
    requires NonEmpty(front) && 0 < j < |stale.values|
    ensures Stuck(stream, front, Upto(stream, front, stale, j))
  {
    hide Upto;
    var kept := Upto(stream, front, stale, j);
    assert kept == kept + [];
    assert StuckBy(stream, front, kept, stale, j, []);
  }

  // ---------------------------------------------------------------- the file itself

  /** One cycle on the file: reopen and truncate, append, crash. */
  function CycleFile(c: Codec, stream: Identity, file: seq<Byte>, cycle: Cycle): (crashed: seq<Byte>) {
    var r := Replay(c, stream, file);
    if r.Err? || r.value.validBytes > |file| then file
    else
      var written := file[..r.value.validBytes]
        + Text(c, FlatFrom(stream, cycle.more, r.value.nextLocalSeq, r.value.nextBatchSeq));
      if cycle.cut <= |written| then written[..cycle.cut] else written
  }

  function FileAfter(c: Codec, stream: Identity, file: seq<Byte>, cycles: seq<Cycle>): (f: seq<Byte>)
    decreases |cycles|
  {
    if cycles == [] then file else FileAfter(c, stream, CycleFile(c, stream, file, cycles[0]), cycles[1..])
  }

  /** The complete lines of the file are these records. */
  ghost predicate Holds(c: Codec, stream: Identity, file: seq<Byte>, records: seq<Record>) {
    OfStream(stream, records) && exists partial :: Ends(c, file, records, partial)
  }

  predicate Ends(c: Codec, file: seq<Byte>, records: seq<Record>, partial: seq<Byte>) {
    NEWLINE !in partial && file == Text(c, records) + partial
  }

  lemma HeldReplays(c: Codec, stream: Identity, file: seq<Byte>, records: seq<Record>)
    requires Faithful(c) && Holds(c, stream, file, records)
    ensures Replay(c, stream, file) == Ok(Finish(TakeAll(records)).(validBytes := |Text(c, records)|))
    ensures |Text(c, records)| <= |file| && file[..|Text(c, records)|] == Text(c, records)
  {
    hide TakeAll, Text;
    var partial :| Ends(c, file, records, partial);
    ReplayText(c, stream, records, partial);
  }

  /** A cycle on the file is a cycle on its records. */
  lemma CycleHolds(c: Codec, stream: Identity, file: seq<Byte>, records: seq<Record>, cycle: Cycle)
    requires Faithful(c) && Holds(c, stream, file, records) && NonEmpty(cycle.more)
    ensures Holds(c, stream, CycleFile(c, stream, file, cycle), Reopened(c, stream, records, cycle))
  {
    hide TakeAll, FlatFrom, WholeLines, Text;
    var found := Finish(TakeAll(records));
    HeldReplays(c, stream, file, records);
    var more := FlatFrom(stream, cycle.more, found.nextLocalSeq, found.nextBatchSeq);
    FlatFromStarts(stream, cycle.more, found.nextLocalSeq, found.nextBatchSeq);
    TextConcat(c, records, more);
    var all := Written(stream, records, cycle);
    var crashed := CycleFile(c, stream, file, cycle);
    if cycle.cut <= |Text(c, all)| {
      var partial := CutText(c, all, cycle.cut);
      assert Ends(c, crashed, Reopened(c, stream, records, cycle), partial);
    } else {
      WholeFile(c, all, cycle.cut);
      assert all[..|all|] == all;
      assert Text(c, all) + [] == Text(c, all);
      assert Ends(c, crashed, Reopened(c, stream, records, cycle), []);
    }
  }

  lemma WholeFile(c: Codec, all: seq<Record>, n: nat)
    requires n >= |Text(c, all)|
    ensures WholeLines(c, all, n) == |all|
  {
  }

  lemma {:induction false} CyclesHold(c: Codec, stream: Identity, file: seq<Byte>, records: seq<Record>, cycles: seq<Cycle>)
    requires Faithful(c) && Holds(c, stream, file, records) && forall i :: 0 <= i < |cycles| ==> NonEmpty(cycles[i].more)
    ensures Holds(c, stream, FileAfter(c, stream, file, cycles), AfterCycles(c, stream, records, cycles))
    decreases |cycles|
  {
    hide Holds, CycleFile, Reopened, NonEmpty;
    if cycles != [] {
      CycleHolds(c, stream, file, records, cycles[0]);
      CyclesHold(c, stream, CycleFile(c, stream, file, cycles[0]), Reopened(c, stream, records, cycles[0]), cycles[1..]);
    }
  }

  lemma FileHolds(c: Codec, stream: Identity, batches: seq<Batch>)
    ensures Holds(c, stream, FileOf(c, stream, batches), Flat(stream, batches))
  {
    hide Text, Flat;
    FlatIsOfStream(stream, batches);
    assert FileOf(c, stream, batches) == Text(c, Flat(stream, batches)) + [];
    assert Ends(c, FileOf(c, stream, batches), Flat(stream, batches), []);
  }

  lemma {:induction false} CleanIsNonEmpty(c: Codec, stream: Identity, batches: seq<Batch>, cycles: seq<Cycle>, ks: seq<nat>)
    requires |ks| == |cycles| && AllClean(c, stream, batches, cycles, ks)
    ensures forall i :: 0 <= i < |cycles| ==> NonEmpty(cycles[i].more)
    decreases |cycles|
  {
    hide CleanAt, NonEmpty;
    if cycles != [] {
      CleanFits(c, stream, batches, cycles[0], ks[0]);
      CleanIsNonEmpty(c, stream, (batches + cycles[0].more)[..ks[0]], cycles[1..], ks[1..]);
      forall i | 0 <= i < |cycles| ensures NonEmpty(cycles[i].more) {
        if i > 0 { assert cycles[i] == cycles[1..][i - 1]; }
      }
    }
  }

  /** Replaying the file after any number of clean crashes restores exactly the surviving batches. */
  lemma CleanCyclesReplay(c: Codec, stream: Identity, batches: seq<Batch>, cycles: seq<Cycle>, ks: seq<nat>)
    requires Faithful(c) && NonEmpty(batches) && |ks| == |cycles| && AllClean(c, stream, batches, cycles, ks)
    ensures var r := Replay(c, stream, FileAfter(c, stream, FileOf(c, stream, batches), cycles));
      r.Ok? && r.value.(validBytes := 0) == Done(stream, Survivors(batches, cycles, ks))
  {
    hide AllClean, AfterCycles, FileAfter, Holds, TakeAll, Flat, Text, FileOf, NonEmpty, Survivors;
    CleanIsNonEmpty(c, stream, batches, cycles, ks);
    FileHolds(c, stream, batches);
    CyclesHold(c, stream, FileOf(c, stream, batches), Flat(stream, batches), cycles);
    CleanCyclesRecover(c, stream, batches, cycles, ks);
    HeldReplays(c, stream, FileAfter(c, stream, FileOf(c, stream, batches), cycles),
                AfterCycles(c, stream, Flat(stream, batches), cycles));
  }

  lemma {:induction false} KeepingIsNonEmpty(c: Codec, stream: Identity, records: seq<Record>, cycles: seq<Cycle>)
    requires KeepsOpened(c, stream, records, cycles)
    ensures forall i :: 0 <= i < |cycles| ==> NonEmpty(cycles[i].more)
    decreases |cycles|
  {
    hide Reopened, Written, NonEmpty;
    if cycles != [] {
      KeepingIsNonEmpty(c, stream, Reopened(c, stream, records, cycles[0]), cycles[1..]);
      forall i | 0 <= i < |cycles| ensures NonEmpty(cycles[i].more) {
        if i > 0 { assert cycles[i] == cycles[1..][i - 1]; }
      }
    }
  }

  /** Replaying the file of a stuck journal after any number of further cycles gives the batches before the bad crash. */
  lemma StuckFileReplays(
    c: Codec, stream: Identity, front: seq<Batch>, file: seq<Byte>, records: seq<Record>, cycles: seq<Cycle>)
    requires Faithful(c) && Holds(c, stream, file, records)
    requires Stuck(stream, front, records) && KeepsOpened(c, stream, records, cycles)
    ensures var r := Replay(c, stream, FileAfter(c, stream, file, cycles));
      r.Ok? && r.value.(validBytes := 0) == Done(stream, front)
  {
    hide AfterCycles, FileAfter, Holds, TakeAll, Text, NonEmpty, Stuck, KeepsOpened;
    KeepingIsNonEmpty(c, stream, records, cycles);
    CyclesHold(c, stream, file, records, cycles);
    StuckForever(c, stream, front, records, cycles);
    HeldReplays(c, stream, FileAfter(c, stream, file, cycles), AfterCycles(c, stream, records, cycles));
  }
}
