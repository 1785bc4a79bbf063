/** The client's append-only JSONL journal: batches of lines, replayed after a crash. */
module Journal {
  import opened Wrappers
  import opened Utf8

  const VERSION: nat := 1
  const U32: nat := 0x1_0000_0000

  datatype Direction = Inbound | Outbound

  datatype Identity = Identity(path: string, contentType: string)

  datatype Progress = Progress(
    producerId: string, epoch: int, nextSeq: int, ackedOffset: Option<string>, ackedLocalSeq: Option<nat>)

  datatype Record = Record(
    version: nat,
    stream: Identity,
    direction: Direction,
    localSeq: nat,
    batchSeq: nat,
    batchIndex: nat,
    batchLen: nat,
    payload: string,
    nextOffset: Option<string>,
    observedAt: int,
    persistedAt: int,
    producer: Option<Progress>)

  datatype Error = TooLarge | UnsupportedVersion(version: nat) | StreamMismatch(found: Identity)

  /** One call that appends values. */
  datatype Batch = Batch(
    direction: Direction, values: seq<string>, nextOffset: Option<string>, producer: Option<Progress>, now: int)

  /** The JSON library: how a record becomes the bytes of a line and back. */
  datatype Codec = Codec(encode: Record -> seq<Byte>, decode: seq<Byte> -> Option<Record>)

  predicate Space(b: Byte) {
    b == 9 || b == 10 || b == 12 || b == 13 || b == 32
  }

  /** Lossless, one line per record, nothing to trim. */
  ghost predicate Faithful(c: Codec) {
    forall r :: LineOk(c, r)
  }

  ghost predicate LineOk(c: Codec, r: Record) {
    var line := c.encode(r);
    c.decode(line) == Some(r) && NEWLINE !in line && line != [] && !Space(line[0]) && !Space(line[|line| - 1])
  }

  // ---------------------------------------------------------------- writing

  function RecordAt(stream: Identity, b: Batch, localSeq: nat, batchSeq: nat, i: nat): (r: Record)
    requires i < |b.values|
  {
    Record(VERSION, stream, b.direction, localSeq + i, batchSeq, i, |b.values|, b.values[i],
           b.nextOffset, b.now, b.now, b.producer)
  }

  function BatchRecords(stream: Identity, b: Batch, localSeq: nat, batchSeq: nat): (s: seq<Record>) {
    seq(|b.values|, i requires 0 <= i < |b.values| => RecordAt(stream, b, localSeq, batchSeq, i))
  }

  function Count(batches: seq<Batch>): (n: nat)
    decreases |batches|
  {
    if batches == [] then 0 else Count(batches[..|batches| - 1]) + |batches[|batches| - 1].values|
  }

  /** The records of a fresh journal after these batches. */
  function Flat(stream: Identity, batches: seq<Batch>): (s: seq<Record>)
    ensures |s| == Count(batches)
    decreases |batches|
  {
    if batches == [] then []
    else
      var front := batches[..|batches| - 1];
      Flat(stream, front) + BatchRecords(stream, batches[|batches| - 1], Count(front), |front|)
  }

  function Text(c: Codec, records: seq<Record>): (bytes: seq<Byte>)
    decreases |records|
  {
    if records == [] then []
    else Text(c, records[..|records| - 1]) + c.encode(records[|records| - 1]) + [NEWLINE]
  }

  function Resume(batches: seq<Batch>): (o: Option<string>)
    decreases |batches|
  {
    if batches == [] then None
    else if batches[|batches| - 1].nextOffset.Some? then batches[|batches| - 1].nextOffset
    else Resume(batches[..|batches| - 1])
  }

  // ---------------------------------------------------------------- reading

  datatype Replayed = Replayed(
    records: seq<Record>, resumeOffset: Option<string>, nextLocalSeq: nat, nextBatchSeq: nat, validBytes: nat)

  const FRESH: Replayed := Replayed([], None, 0, 0, 0)

  /** Up to and including the last newline. */
  function CompleteLen(bytes: seq<Byte>): (n: nat)
    ensures n <= |bytes|
    decreases |bytes|
  {
    if bytes == [] then 0
    else if bytes[|bytes| - 1] == NEWLINE then |bytes|
    else CompleteLen(bytes[..|bytes| - 1])
  }

  function SplitLines(bytes: seq<Byte>): (lines: seq<seq<Byte>>)
    ensures |lines| > 0
    decreases |bytes|
  {
    if bytes == [] then [[]]
    else
      var front := SplitLines(bytes[..|bytes| - 1]);
      var b := bytes[|bytes| - 1];
      if b == NEWLINE then front + [[]] else front[..|front| - 1] + [front[|front| - 1] + [b]]
  }

  function TrimStart(bytes: seq<Byte>): (t: seq<Byte>)
    decreases |bytes|
  {
    if bytes != [] && Space(bytes[0]) then TrimStart(bytes[1..]) else bytes
  }

  function TrimEnd(bytes: seq<Byte>): (t: seq<Byte>)
    decreases |bytes|
  {
    if bytes != [] && Space(bytes[|bytes| - 1]) then TrimEnd(bytes[..|bytes| - 1]) else bytes
  }

  /** Records up to the first line that is not one; a foreign version or stream fails the whole file. */
  function Parse(c: Codec, stream: Identity, lines: seq<seq<Byte>>): (r: Result<seq<Record>, Error>)
    decreases |lines|
  {
    if lines == [] then Ok([])
    else
      var line := TrimEnd(TrimStart(lines[0]));
      if line == [] then Parse(c, stream, lines[1..])
      else
        var d := c.decode(line);
        if d.None? then Ok([])
        else if d.value.version != VERSION then Err(UnsupportedVersion(d.value.version))
        else if d.value.stream != stream then Err(StreamMismatch(d.value.stream))
        else
          var rest := Parse(c, stream, lines[1..]);
          if rest.Err? then rest else Ok([d.value] + rest.value)
  }

  /** The loop state of the replay: what is committed and the batch being collected. */
  datatype Scan = Scan(
    done: Replayed, pending: seq<Record>, batchSeq: nat, batchLen: nat, nextOffset: Option<string>, stopped: bool)

  function Commit(done: Replayed, pending: seq<Record>, batchSeq: nat, nextOffset: Option<string>): (s: Replayed) {
    Replayed(done.records + pending,
             if nextOffset.Some? then nextOffset else done.resumeOffset,
             done.nextLocalSeq + |pending|,
             batchSeq + 1,
             done.validBytes)
  }

  /** Begin a batch with its first record. */
  function Opened(s: Scan, r: Record): (s': Scan) {
    if r.batchIndex != 0 then s.(stopped := true)
    else s.(pending := [r], batchSeq := r.batchSeq, batchLen := r.batchLen, nextOffset := r.nextOffset)
  }

  function Take(s: Scan, r: Record): (s': Scan) {
    if s.stopped then s
    else if r.localSeq != |s.done.records| + |s.pending| then s.(stopped := true)
    else if s.pending == [] then Opened(s, r)
    else if r.batchSeq != s.batchSeq then
      if |s.pending| != s.batchLen then s.(stopped := true)
      else Opened(s.(done := Commit(s.done, s.pending, s.batchSeq, s.nextOffset), pending := [], nextOffset := None), r)
    else if r.batchIndex != |s.pending| || r.batchLen != s.batchLen || r.nextOffset != s.nextOffset then
      s.(stopped := true)
    else s.(pending := s.pending + [r])
  }

  const START: Scan := Scan(FRESH, [], 0, 0, None, false)

  function TakeAll(records: seq<Record>): (s: Scan)
    decreases |records|
  {
    if records == [] then START else Take(TakeAll(records[..|records| - 1]), records[|records| - 1])
  }

  function Finish(s: Scan): (r: Replayed) {
    if s.pending != [] && |s.pending| == s.batchLen then Commit(s.done, s.pending, s.batchSeq, s.nextOffset) else s.done
  }

  function Replay(c: Codec, stream: Identity, bytes: seq<Byte>): (r: Result<Replayed, Error>) {
    var n := CompleteLen(bytes);
    var parsed := Parse(c, stream, SplitLines(bytes[..n]));
    if parsed.Err? then Err(parsed.error) else Ok(Finish(TakeAll(parsed.value)).(validBytes := n))
  }

  // ---------------------------------------------------------------- the code

  method CommitValidPrefix(records: seq<Record>) returns (state: Replayed)
    ensures state == Finish(TakeAll(records))
  {
    hide Commit, TakeAll;
    TakeNothing();
    state := FRESH;
    var pending: seq<Record> := [];
    var batchSeq, batchLen, nextOffset := 0, 0, None;
    ghost var stopped := false;
    ghost var i := 0;
    for k := 0 to |records|
      invariant !stopped && TakeAll(records[..k]) == Scan(state, pending, batchSeq, batchLen, nextOffset, false)
    {
      TakeOneMore(records, k);
      var record := records[k];
      if record.localSeq != |state.records| + |pending| {
        stopped, i := true, k + 1;
        break;
      }
      if pending == [] {
        if record.batchIndex != 0 {
          stopped, i := true, k + 1;
          break;
        }
        batchSeq, batchLen, nextOffset := record.batchSeq, record.batchLen, record.nextOffset;
      } else if record.batchSeq != batchSeq {
        if |pending| != batchLen {
          stopped, i := true, k + 1;
          break;
        }
        state := Commit(state, pending, batchSeq, nextOffset);
        pending, nextOffset := [], None;
        if record.batchIndex != 0 {
          stopped, i := true, k + 1;
          break;
        }
        batchSeq, batchLen, nextOffset := record.batchSeq, record.batchLen, record.nextOffset;
      } else if record.batchIndex != |pending| || record.batchLen != batchLen || nextOffset != record.nextOffset {
        stopped, i := true, k + 1;
        break;
      }
      pending := pending + [record];
    }
    if stopped {
      StoppedStays(records, i);
    } else {
      assert records[..|records|] == records;
    }
    if pending != [] && |pending| == batchLen {
      state := Commit(state, pending, batchSeq, nextOffset);
    }
  }

  lemma TakeNothing()
    ensures TakeAll([]) == START
  {
  }

  lemma TakeOneMore(records: seq<Record>, k: nat)
    requires k < |records|
    ensures TakeAll(records[..k + 1]) == Take(TakeAll(records[..k]), records[k])
  {
    assert records[..k + 1][..k] == records[..k];
  }

  lemma {:induction false} StoppedStays(records: seq<Record>, i: nat)
    requires i <= |records| && TakeAll(records[..i]).stopped
    ensures TakeAll(records) == TakeAll(records[..i])
    decreases |records|
  {
    if i < |records| {
      assert records[..|records| - 1][..i] == records[..i];
      StoppedStays(records[..|records| - 1], i);
    } else {
      assert records[..i] == records;
    }
  }

  /** Replay the whole file: cut at the last newline, parse line by line, commit whole batches. */
  method ReplayJournal(c: Codec, stream: Identity, bytes: seq<Byte>) returns (r: Result<Replayed, Error>)
    ensures r == Replay(c, stream, bytes)
  {
    hide CompleteLen, SplitLines, TakeAll, TrimEnd, TrimStart;
    var complete := CompleteLen(bytes);
    var lines := SplitLines(bytes[..complete]);
    var parsed: seq<Record> := [];
    ghost var all := Parse(c, stream, lines);
    var i := 0;
    assert lines[0..] == lines && (all.Ok? ==> parsed + all.value == all.value);
    while i < |lines|
      invariant 0 <= i <= |lines|
      invariant var rest := Parse(c, stream, lines[i..]); all == if rest.Err? then rest else Ok(parsed + rest.value)
    {
      assert lines[i..][1..] == lines[i + 1..] && lines[i..][0] == lines[i];
      var line := TrimEnd(TrimStart(lines[i]));
      i := i + 1;
      if line != [] {
        var d := c.decode(line);
        if d.None? {
          assert parsed + [] == parsed;
          break;
        }
        if d.value.version != VERSION { return Err(UnsupportedVersion(d.value.version)); }
        if d.value.stream != stream { return Err(StreamMismatch(d.value.stream)); }
        ghost var rest := Parse(c, stream, lines[i..]);
        assert rest.Ok? ==> parsed + ([d.value] + rest.value) == (parsed + [d.value]) + rest.value;
        parsed := parsed + [d.value];
      }
    }
    assert i == |lines| ==> lines[i..] == [] && parsed + [] == parsed;
    var state := CommitValidPrefix(parsed);
    r := Ok(state.(validBytes := complete));
  }

  class JsonJournal {
    const codec: Codec
    const stream: Identity
    var file: seq<Byte>
    var records: seq<Record>
    var resumeOffset: Option<string>
    var nextLocalSeq: nat
    var nextBatchSeq: nat

    /** The journal a fresh file becomes after these batches. */
    ghost predicate Holds(batches: seq<Batch>) reads this {
      && file == Text(codec, Flat(stream, batches)) && records == Flat(stream, batches)
      && resumeOffset == Resume(batches) && nextLocalSeq == Count(batches) && nextBatchSeq == |batches|
    }

    constructor Open(c: Codec, s: Identity, bytes: seq<Byte>, replay: Replayed)
      requires Replay(c, s, bytes) == Ok(replay)
      ensures codec == c && stream == s && file == bytes[..replay.validBytes] && records == replay.records
      ensures resumeOffset == replay.resumeOffset
      ensures nextLocalSeq == replay.nextLocalSeq && nextBatchSeq == replay.nextBatchSeq
    {
      codec, stream, file, records := c, s, bytes[..replay.validBytes], replay.records;
      resumeOffset, nextLocalSeq, nextBatchSeq := replay.resumeOffset, replay.nextLocalSeq, replay.nextBatchSeq;
    }

    /** Write one line per value. */
    method WriteLines(b: Batch) returns (appended: seq<Record>)
      modifies this`file
      ensures appended == BatchRecords(stream, b, nextLocalSeq, nextBatchSeq)
      ensures file == old(file) + Text(codec, appended)
    {
      hide BatchRecords, RecordAt, Text;
      appended := [];
      BatchLength(stream, b, nextLocalSeq, nextBatchSeq);
      TextNothing(codec);
      for i := 0 to |b.values|
        invariant appended == BatchRecords(stream, b, nextLocalSeq, nextBatchSeq)[..i]
        invariant file == old(file) + Text(codec, appended)
      {
        var record := RecordAt(stream, b, nextLocalSeq, nextBatchSeq, i);
        BatchPrefix(stream, b, nextLocalSeq, nextBatchSeq, i);
        TextSnoc(codec, appended, record);
        file := file + codec.encode(record) + [NEWLINE];
        appended := appended + [record];
      }
    }

    /** Write one line per value, then advance the counters; an empty call only moves the resume offset. */
    method AppendValues(b: Batch) returns (r: Result<seq<Record>, Error>)
      modifies this
      ensures b.values == [] ==> r == Ok([]) && file == old(file) && records == old(records)
                                 && nextLocalSeq == old(nextLocalSeq) && nextBatchSeq == old(nextBatchSeq)
      ensures r.Err? <==> |b.values| >= U32
      ensures r.Err? ==> file == old(file) && records == old(records) && resumeOffset == old(resumeOffset)
                         && nextLocalSeq == old(nextLocalSeq) && nextBatchSeq == old(nextBatchSeq)
      ensures r.Ok? ==> resumeOffset == if b.nextOffset.Some? then b.nextOffset else old(resumeOffset)
      ensures r.Ok? && b.values != [] ==>
        && r.value == BatchRecords(stream, b, old(nextLocalSeq), old(nextBatchSeq))
        && file == old(file) + Text(codec, r.value) && records == old(records) + r.value
        && nextLocalSeq == old(nextLocalSeq) + |b.values| && nextBatchSeq == old(nextBatchSeq) + 1
      ensures forall batches :: old(Holds(batches)) && r.Ok? && b.values != [] ==> Holds(batches + [b])
    {
      hide Flat, Resume, Count, Text, BatchRecords;
      if b.values == [] {
        if b.nextOffset.Some? { resumeOffset := b.nextOffset; }
        return Ok([]);
      }
      if |b.values| >= U32 {
        return Err(TooLarge);
      }
      var appended := WriteLines(b);
      nextLocalSeq := nextLocalSeq + |appended|;
      nextBatchSeq := nextBatchSeq + 1;
      if b.nextOffset.Some? { resumeOffset := b.nextOffset; }
      records := records + appended;
      BatchLength(stream, b, old(nextLocalSeq), old(nextBatchSeq));
      forall batches | old(Holds(batches)) ensures Holds(batches + [b]) {
        HistoryGrows(codec, stream, batches, b);
      }
      r := Ok(appended);
    }
  }

  lemma TextNothing(c: Codec)
    ensures Text(c, []) == []
  {
  }

  lemma TextSnoc(c: Codec, records: seq<Record>, r: Record)
    ensures Text(c, records + [r]) == Text(c, records) + (c.encode(r) + [NEWLINE])
  {
    assert (records + [r])[..|records|] == records;
  }

  lemma BatchLength(stream: Identity, b: Batch, localSeq: nat, batchSeq: nat)
    ensures |BatchRecords(stream, b, localSeq, batchSeq)| == |b.values|
  {
  }

  lemma HistoryGrows(c: Codec, stream: Identity, batches: seq<Batch>, b: Batch)
    ensures var more := BatchRecords(stream, b, Count(batches), |batches|);
      && Flat(stream, batches + [b]) == Flat(stream, batches) + more
      && Text(c, Flat(stream, batches + [b])) == Text(c, Flat(stream, batches)) + Text(c, more)
      && Count(batches + [b]) == Count(batches) + |b.values|
      && Resume(batches + [b]) == if b.nextOffset.Some? then b.nextOffset else Resume(batches)
  {
    assert (batches + [b])[..|batches|] == batches;
    TextConcat(c, Flat(stream, batches), BatchRecords(stream, b, Count(batches), |batches|));
  }

  lemma {:induction false} TextConcat(c: Codec, xs: seq<Record>, ys: seq<Record>)
    ensures Text(c, xs + ys) == Text(c, xs) + Text(c, ys)
    decreases |ys|
  {
    if ys == [] {
      assert xs + ys == xs;
    } else {
      var front := ys[..|ys| - 1];
      assert (xs + ys)[..|xs + ys| - 1] == xs + front;
      TextConcat(c, xs, front);
    }
  }

  // ---------------------------------------------------------------- the text of records

  lemma {:induction false} SplitLine(bytes: seq<Byte>, line: seq<Byte>)
    requires NEWLINE !in line
    ensures var front := SplitLines(bytes);
      SplitLines(bytes + line) == front[..|front| - 1] + [front[|front| - 1] + line]
    decreases |line|
  {
    if line == [] {
      assert bytes + line == bytes;
      var front := SplitLines(bytes);
      assert front[|front| - 1] + line == front[|front| - 1];
    } else {
      var init := line[..|line| - 1];
      assert (bytes + line)[..|bytes + line| - 1] == bytes + init;
      SplitLine(bytes, init);
      var front := SplitLines(bytes);
      var x, b := front[|front| - 1], line[|line| - 1];
      assert SplitLines(bytes + init) == front[..|front| - 1] + [x + init];
      assert (x + init) + [b] == x + line;
    }
  }

  function EncodeAll(c: Codec, records: seq<Record>): (lines: seq<seq<Byte>>) {
    seq(|records|, i requires 0 <= i < |records| => c.encode(records[i]))
  }

  lemma {:induction false} SplitText(c: Codec, records: seq<Record>)
    requires Faithful(c)
    ensures SplitLines(Text(c, records)) == EncodeAll(c, records) + [[]]
    decreases |records|
  {
    if records != [] {
      var front, last := records[..|records| - 1], records[|records| - 1];
      assert LineOk(c, last);
      SplitText(c, front);
      SplitLine(Text(c, front), c.encode(last));
      var text := Text(c, front) + c.encode(last);
      assert Text(c, records)[..|Text(c, records)| - 1] == text;
      hide SplitLines, Text;
      var lines := EncodeAll(c, front) + [[]];
      assert lines[..|lines| - 1] == EncodeAll(c, front) && [] + c.encode(last) == c.encode(last);
      assert SplitLines(text) == EncodeAll(c, front) + [c.encode(last)];
      assert EncodeAll(c, records) == EncodeAll(c, front) + [c.encode(last)];
    }
  }

  lemma {:induction false} ParseText(c: Codec, stream: Identity, records: seq<Record>)
    requires Faithful(c) && forall i :: 0 <= i < |records| ==> records[i].version == VERSION && records[i].stream == stream
    ensures Parse(c, stream, EncodeAll(c, records) + [[]]) == Ok(records)
    decreases |records|
  {
    var lines := EncodeAll(c, records) + [[]];
    if records != [] {
      assert LineOk(c, records[0]);
      assert lines[0] == c.encode(records[0]);
      assert lines[1..] == EncodeAll(c, records[1..]) + [[]];
      ParseText(c, stream, records[1..]);
      assert [records[0]] + records[1..] == records;
    } else {
      assert Parse(c, stream, lines[1..]) == Ok([]);
    }
  }

  lemma {:induction false} CompleteText(c: Codec, records: seq<Record>, partial: seq<Byte>)
    requires NEWLINE !in partial
    ensures CompleteLen(Text(c, records) + partial) == |Text(c, records)|
    decreases |partial|
  {
    var bytes := Text(c, records) + partial;
    if partial != [] {
      assert bytes[..|bytes| - 1] == Text(c, records) + partial[..|partial| - 1];
      CompleteText(c, records, partial[..|partial| - 1]);
    }
  }

  /** The whole lines among the first `n` bytes. */
  function WholeLines(c: Codec, records: seq<Record>, n: nat): (m: nat)
    ensures m <= |records|
    decreases |records|
  {
    if records == [] || n >= |Text(c, records)| then |records| else WholeLines(c, records[..|records| - 1], n)
  }

  /** Any byte prefix is a number of whole lines and part of the next. */
  lemma {:induction false} CutText(c: Codec, records: seq<Record>, n: nat)
    returns (partial: seq<Byte>)
    requires Faithful(c) && n <= |Text(c, records)|
    ensures NEWLINE !in partial
    ensures Text(c, records)[..n] == Text(c, records[..WholeLines(c, records, n)]) + partial
    decreases |records|
  {
    var text := Text(c, records);
    if records == [] || n >= |text| {
      assert records[..|records|] == records && text[..n] == text;
      partial := [];
    } else {
      var front, last := records[..|records| - 1], records[|records| - 1];
      assert LineOk(c, last);
      var m := WholeLines(c, front, n);
      assert records[..m] == front[..m];
      if n <= |Text(c, front)| {
        partial := CutText(c, front, n);
        assert text[..n] == Text(c, front)[..n];
      } else {
        assert front[..m] == front;
        partial := c.encode(last)[..n - |Text(c, front)|];
      }
    }
  }

  lemma ReplayText(c: Codec, stream: Identity, records: seq<Record>, partial: seq<Byte>)
    requires Faithful(c) && NEWLINE !in partial
    requires forall i :: 0 <= i < |records| ==> records[i].version == VERSION && records[i].stream == stream
    ensures Replay(c, stream, Text(c, records) + partial)
         == Ok(Finish(TakeAll(records)).(validBytes := |Text(c, records)|))
  {
    CompleteText(c, records, partial);
    assert (Text(c, records) + partial)[..|Text(c, records)|] == Text(c, records);
    SplitText(c, records);
    ParseText(c, stream, records);
  }

  // ---------------------------------------------------------------- committing whole batches

  /** What a replay of exactly these batches yields. */
  function Done(stream: Identity, batches: seq<Batch>): (s: Replayed) {
    Replayed(Flat(stream, batches), Resume(batches), Count(batches), |batches|, 0)
  }

  predicate NonEmpty(batches: seq<Batch>) {
    forall i :: 0 <= i < |batches| ==> batches[i].values != []
  }

  /** The scan in the middle, or at the end, of batch `b` after `front`. */
  function Within(stream: Identity, front: seq<Batch>, b: Batch, j: nat): (s: Scan)
    requires j <= |b.values|
  {
    Scan(Done(stream, front), BatchRecords(stream, b, Count(front), |front|)[..j], |front|, |b.values|, b.nextOffset, false)
  }

  function Upto(stream: Identity, front: seq<Batch>, b: Batch, j: nat): (s: seq<Record>)
    requires j <= |b.values|
  {
    Flat(stream, front) + BatchRecords(stream, b, Count(front), |front|)[..j]
  }

  lemma FlatLength(stream: Identity, batches: seq<Batch>)
    ensures |Flat(stream, batches)| == Count(batches)
  {
  }

  lemma BatchPrefix(stream: Identity, b: Batch, localSeq: nat, batchSeq: nat, j: nat)
    requires j < |b.values|
    ensures var batch := BatchRecords(stream, b, localSeq, batchSeq);
      batch[..j] + [RecordAt(stream, b, localSeq, batchSeq, j)] == batch[..j + 1]
  {
  }

  lemma TakeMore(s: Scan, r: Record)
    requires !s.stopped && s.pending != [] && r.localSeq == |s.done.records| + |s.pending| && r.batchSeq == s.batchSeq
    requires r.batchIndex == |s.pending| && r.batchLen == s.batchLen && r.nextOffset == s.nextOffset
    ensures Take(s, r) == s.(pending := s.pending + [r])
  {
  }

  lemma TakeNext(stream: Identity, front: seq<Batch>, b: Batch, j: nat)
    requires 1 <= j < |b.values|
    ensures Take(Within(stream, front, b, j), RecordAt(stream, b, Count(front), |front|, j)) == Within(stream, front, b, j + 1)
  {
    hide Take, Resume, Count, Flat, BatchRecords;
    FlatLength(stream, front);
    BatchLength(stream, b, Count(front), |front|);
    BatchPrefix(stream, b, Count(front), |front|, j);
    TakeMore(Within(stream, front, b, j), RecordAt(stream, b, Count(front), |front|, j));
  }

  lemma TakeFirst(stream: Identity, front: seq<Batch>, b: Batch)
    requires NonEmpty(front) && b.values != []
    requires front != [] ==>
      var last := front[|front| - 1];
      TakeAll(Flat(stream, front)) == Within(stream, front[..|front| - 1], last, |last.values|)
    ensures Take(TakeAll(Flat(stream, front)), RecordAt(stream, b, Count(front), |front|, 0)) == Within(stream, front, b, 1)
  {
    hide TakeAll;
    var batch := BatchRecords(stream, b, Count(front), |front|);
    assert batch[..1] == [batch[0]];
    if front == [] {
      StartsEmpty(stream);
    } else {
      CommitLast(stream, front);
      hide Flat, Resume, Count, Commit;
    }
  }

  lemma StartsEmpty(stream: Identity)
    ensures TakeAll(Flat(stream, [])) == START && Done(stream, []) == FRESH
  {
  }

  lemma CommitLast(stream: Identity, front: seq<Batch>)
    requires front != [] && front[|front| - 1].values != []
    ensures var before, last := front[..|front| - 1], front[|front| - 1];
      var w := Within(stream, before, last, |last.values|);
      && Commit(w.done, w.pending, w.batchSeq, w.nextOffset) == Done(stream, front)
      && |w.done.records| + |w.pending| == Count(front) && w.pending != [] && |w.pending| == w.batchLen
  {
    var before, last := front[..|front| - 1], front[|front| - 1];
    var batch := BatchRecords(stream, last, Count(before), |before|);
    assert batch[..|last.values|] == batch;
  }

  lemma {:induction false} TakeBatch(stream: Identity, front: seq<Batch>, b: Batch, j: nat)
    requires NonEmpty(front) && 1 <= j <= |b.values|
    ensures TakeAll(Upto(stream, front, b, j)) == Within(stream, front, b, j)
    decreases |front|, j
  {
    hide Take, Within;
    var records := Upto(stream, front, b, j);
    var r := RecordAt(stream, b, Count(front), |front|, j - 1);
    assert records[|records| - 1] == r && records[..|records| - 1] == Upto(stream, front, b, j - 1);
    if j > 1 {
      TakeBatch(stream, front, b, j - 1);
      TakeNext(stream, front, b, j - 1);
    } else {
      assert Upto(stream, front, b, 0) == Flat(stream, front);
      if front != [] {
        var before, last := front[..|front| - 1], front[|front| - 1];
        TakeBatch(stream, before, last, |last.values|);
        assert Upto(stream, before, last, |last.values|) == Flat(stream, front);
      }
      TakeFirst(stream, front, b);
    }
  }

  lemma FinishBatches(stream: Identity, front: seq<Batch>)
    requires NonEmpty(front)
    ensures Finish(TakeAll(Flat(stream, front))) == Done(stream, front)
  {
    if front != [] {
      var before, last := front[..|front| - 1], front[|front| - 1];
      TakeBatch(stream, before, last, |last.values|);
      assert Upto(stream, before, last, |last.values|) == Flat(stream, front);
    }
  }

  lemma FinishPartial(stream: Identity, front: seq<Batch>, b: Batch, j: nat)
    requires NonEmpty(front) && j < |b.values|
    ensures Finish(TakeAll(Upto(stream, front, b, j))) == Done(stream, front)
  {
    if j == 0 {
      assert Upto(stream, front, b, 0) == Flat(stream, front);
      FinishBatches(stream, front);
    } else {
      TakeBatch(stream, front, b, j);
    }
  }

  /** Contiguous local sequence numbers, and every record names its stream. */
  lemma {:induction false} FlatIsContiguous(stream: Identity, batches: seq<Batch>, i: nat)
    requires i < |Flat(stream, batches)|
    ensures var r := Flat(stream, batches)[i]; r.localSeq == i && r.version == VERSION && r.stream == stream
    decreases |batches|
  {
    var front := batches[..|batches| - 1];
    if i < |Flat(stream, front)| { FlatIsContiguous(stream, front, i); }
  }
}
