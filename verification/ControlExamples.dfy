/** Forks the server accepts away from a record boundary, and what their control offsets do. */
module ControlExamples {
  import opened Wrappers
  import opened Offsets
  import opened Streams
  import opened Lineage
  import opened Stores
  import opened StoreInvariant
  import opened StoreRuns
  import opened Contiguity
  import opened ControlOffsets

  const PLAIN: Config := Config("text/plain", None, None, false)
  const OPTIONS: Options := Options("text/plain", Never, false)

  function Source(records: seq<Bytes>): (e: Entry) {
    Push(NewEntry(PLAIN), records).(notices := 1)
  }

  /** The source with one empty fork at the anchor. */
  function Forked(records: seq<Bytes>, anchor: Offset): (s: Store) {
    Store(map["source" := Source(records).(refCount := 1), "fork" := ForkEntry(PLAIN, Fork("source", anchor, 0))],
          PayloadBytes(records), 1000, 1000)
  }

  function Creation(records: seq<Bytes>): (op: Op) { CreateRootOp("source", OPTIONS, records, false) }

  function Forking(anchor: Offset): (op: Op) {
    CreateForkOp("fork", "source", Some(anchor), OPTIONS, ForkOptions(0, true, Some([])))
  }

  lemma SourceCreated(records: seq<Bytes>)
    requires records != [] && PayloadBytes(records) <= 1000
    ensures CreateRoot(EmptyStore(1000, 1000), "source", OPTIONS, records, false, 0).store
         == Unforked(records)
  {
    hide Push;
    assert map["source" := Source(records)] == (map[])["source" := Source(records)];
    PushKeepsFlags(NewEntry(PLAIN), records);
  }

  lemma PushKeepsFlags(e: Entry, records: seq<Bytes>)
    ensures var p := Push(e, records);
      p.closed == e.closed && p.notices == e.notices && p.config == e.config && p.state == e.state
      && p.refCount == e.refCount && p.fork == e.fork && p.nextSeq == e.nextSeq + |records|
  {
  }

  function Unforked(records: seq<Bytes>): (s: Store) {
    Store(map["source" := Source(records)], PayloadBytes(records), 1000, 1000)
  }

  lemma ForkSpecified(records: seq<Bytes>, anchor: Offset)
    requires !Less(Source(records).Tail(), anchor)
    ensures PrepareForkSpec("source", Source(records), Some(anchor), PLAIN, 0, 0) == Ok(ForkSpec(Fork("source", anchor, 0), PLAIN))
  {
    hide Push, Less;
    PushKeepsFlags(NewEntry(PLAIN), records);
  }

  lemma NoInitialRecords()
    ensures InitialForkMessages(PLAIN, ForkOptions(0, true, Some([])), []) == Ok([])
  {
    var none: seq<Bytes> := [];
    assert none + none == none;
  }

  lemma ForkPlaced(records: seq<Bytes>, anchor: Offset)
    requires !Less(Source(records).Tail(), anchor)
    ensures CreateFork(Unforked(records), "fork", "source", Some(anchor), OPTIONS, ForkOptions(0, true, Some([])), 0).store
         == Forked(records, anchor)
  {
    hide Push, Less, PayloadBytes, PrepareForkSpec, InitialForkMessages, Select;
    PushKeepsFlags(NewEntry(PLAIN), records);
    var spec := ForkSpec(Fork("source", anchor, 0), PLAIN);
    assert "source" != "fork";
    ForkSpecified(records, anchor);
    NoInitialRecords();
    assert Resolve(OPTIONS, 0) == Ok(PLAIN);
    ForkInserted(records, anchor);
    hide PlaceFork;
  }

  lemma ForkInserted(records: seq<Bytes>, anchor: Offset)
    ensures PlaceFork(Unforked(records), "fork", ForkSpec(Fork("source", anchor, 0), PLAIN), [], 0).store == Forked(records, anchor)
  {
    hide Push, PayloadBytes;
    PushKeepsFlags(NewEntry(PLAIN), records);
    assert "source" != "fork";
    assert PlaceFork(Unforked(records), "fork", ForkSpec(Fork("source", anchor, 0), PLAIN), [], 0).store.streams
        == Forked(records, anchor).streams;
  }

  /** Creating the source and forking it at any accepted anchor is a run from the empty store. */
  lemma ForkedIsReachable(records: seq<Bytes>, anchor: Offset)
    requires records != [] && PayloadBytes(records) <= 1000 && !Less(Source(records).Tail(), anchor)
    ensures var events := [Event(Creation(records), 0), Event(Forking(anchor), 0)];
      && Timely(EmptyStore(1000, 1000), 0, events)
      && Run(EmptyStore(1000, 1000), events) == Forked(records, anchor)
    ensures Inv(Forked(records, anchor), 0)
  {
    var s0, s2 := EmptyStore(1000, 1000), Forked(records, anchor);
    var s1 := Unforked(records);
    var create, fork := Event(Creation(records), 0), Event(Forking(anchor), 0);
    SourceCreated(records);
    ForkPlaced(records, anchor);
    hide CreateRoot, CreateFork, Holds;
    RunOne(s1, 0, fork, s2, [], s2);
    RunOne(s0, 0, create, s1, [fork] + [], s2);
    assert [create] + ([fork] + []) == [create, fork];
    ReachableStores(1000, 1000, 0, [create, fork]);
  }

  /** An accepted anchor past every record of the source. */
  predicate Past(records: seq<Bytes>, anchor: Offset) {
    && records != [] && PayloadBytes(records) <= 1000 && !Less(Source(records).Tail(), anchor)
    && anchor.Concrete? && anchor.byteOffset < U64
    && forall i :: 0 <= i < |Source(records).messages| ==> Less(Source(records).messages[i].offset, anchor)
  }

  lemma ForkedInherits(records: seq<Bytes>, anchor: Offset)
    requires Past(records, anchor) && Linked(Forked(records, anchor).streams)
    ensures var c := Forked(records, anchor).streams; Inherited(c, c["fork"].fork) == Source(records).messages
  {
    hide Push, PayloadBytes;
    var c, ms := Forked(records, anchor).streams, Source(records).messages;
    PushKeepsFlags(NewEntry(PLAIN), records);
    assert c["source"].fork.None? && c["source"].messages == ms;
    assert View(c, "source") == [] + ms == ms;
    SelectAll(ms, Start, Some(anchor));
    assert c["fork"].fork == Some(Fork("source", anchor, 0));
    assert Inherited(c, Some(Fork("source", anchor, 0))) == Select(View(c, "source"), Start, Some(anchor));
  }

  /** Such a fork meets the hypotheses of the exact conditions. */
  lemma ForkedIsOverContiguous(records: seq<Bytes>, anchor: Offset)
    requires Past(records, anchor)
    ensures OverContiguous(Forked(records, anchor).streams, "fork", Source(records).Tail())
  {
    hide Past, Push, PayloadBytes;
    PastIsAccepted(records, anchor);
    PushKeepsFlags(NewEntry(PLAIN), records);
    var s := Forked(records, anchor);
    ForkedIsReachable(records, anchor);
    StampedEntry(s, 0, "fork");
    RebornRootContiguous(s, 0, "source");
    InvIsLinked(s, 0);
    hide WellStamped, Contiguous, Holds, Linked, View;
    NoRecords();
    assert Data(s.streams["fork"].messages) == [];
    assert s.streams["fork"].fork == Some(Fork("source", anchor, 0));
    assert s.streams["source"].Tail() == Source(records).Tail();
    assert Contiguous(View(s.streams, "source"), Source(records).Tail());
  }

  lemma PastIsAccepted(records: seq<Bytes>, anchor: Offset)
    requires Past(records, anchor)
    ensures records != [] && PayloadBytes(records) <= 1000 && !Less(Source(records).Tail(), anchor)
    ensures anchor.Concrete? && anchor.byteOffset < U64
  {
  }

  lemma NoRecords()
    ensures PayloadBytes([]) == 0
  {
  }

  lemma DataOfSource(records: seq<Bytes>)
    ensures Data(Source(records).messages) == records
  {
    DataOfStamp(0, 0, records);
    assert Source(records).messages == [] + Stamp(0, 0, records);
  }

  /** The exact conditions, read off the records and the anchor. */
  lemma ForkedConditions(records: seq<Bytes>, anchor: Offset)
    requires Past(records, anchor)
    ensures var c, ms := Forked(records, anchor).streams, Source(records).messages;
      && Inv(Forked(records, anchor), 0)
      && (NeverUnderflows(c, "fork") <==> PayloadBytes(records[1..]) <= anchor.byteOffset)
      && (AlwaysResumes(c, "fork") <==> Resumable(ms, anchor.readSeq, anchor.byteOffset))
      && (AlwaysResumesCleanly(c, "fork") <==> CleanlyResumable(ms, anchor.readSeq, anchor.byteOffset))
  {
    PastIsAccepted(records, anchor);
    hide Past, Push, PayloadBytes, Less, NeverUnderflows, AlwaysResumes, AlwaysResumesCleanly, Resumable, CleanlyResumable;
    var s, tail := Forked(records, anchor), Source(records).Tail();
    ForkedIsReachable(records, anchor);
    InvIsLinked(s, 0);
    ForkedInherits(records, anchor);
    ForkedIsOverContiguous(records, anchor);
    DataOfSource(records);
    assert s.streams["fork"].fork == Some(Fork("source", anchor, 0));
    hide OverContiguous, Inherited, Holds, Linked, Source;
    NeverUnderflowsIff(s.streams, "fork", tail);
    AlwaysResumesIff(s.streams, "fork", tail);
    AlwaysResumesCleanlyIff(s.streams, "fork", tail);
  }

  const LONG_SHORT: seq<Bytes> := [[1, 2, 3], [4, 5]]
  const SHORT_LONG: seq<Bytes> := [[1], [2, 3, 4]]

  lemma LongShortStamped()
    ensures Source(LONG_SHORT).messages == [Message(Concrete(0, 0), [1, 2, 3]), Message(Concrete(1, 3), [4, 5])]
    ensures Source(LONG_SHORT).Tail() == Concrete(2, 5) && PayloadBytes(LONG_SHORT) == 5 && PayloadBytes(LONG_SHORT[1..]) == 2
  {
    assert LONG_SHORT[1..] == [[4, 5]] && LONG_SHORT[1..][1..] == [];
  }

  lemma ShortLongStamped()
    ensures Source(SHORT_LONG).messages == [Message(Concrete(0, 0), [1]), Message(Concrete(1, 1), [2, 3, 4])]
    ensures Source(SHORT_LONG).Tail() == Concrete(2, 4) && PayloadBytes(SHORT_LONG) == 4 && PayloadBytes(SHORT_LONG[1..]) == 3
  {
    assert SHORT_LONG[1..] == [[2, 3, 4]] && SHORT_LONG[1..][1..] == [];
  }

  /** Anchored at the count but short of the bytes: a control offset underflows, and resuming is not exact. */
  lemma MisanchoredForkUnderflows()
    ensures var c := Forked(LONG_SHORT, Concrete(2, 0)).streams;
      Inv(Forked(LONG_SHORT, Concrete(2, 0)), 0) && !NeverUnderflows(c, "fork") && !AlwaysResumes(c, "fork")
  {
    LongShortStamped();
    DataOfSource(LONG_SHORT);
    hide Source, PayloadBytes, NeverUnderflows, AlwaysResumes, Inv;
    ForkedConditions(LONG_SHORT, Concrete(2, 0));
  }

  /** Anchored one record back and far to the right: no boundary, no underflow, and every offset resumes. */
  lemma MisanchoredForkResumes()
    ensures var c := Forked(LONG_SHORT, Concrete(1, 100)).streams;
      && Inv(Forked(LONG_SHORT, Concrete(1, 100)), 0)
      && !Boundary(Source(LONG_SHORT).messages, Concrete(1, 100)) && AlwaysResumesCleanly(c, "fork")
  {
    LongShortStamped();
    DataOfSource(LONG_SHORT);
    hide Source, PayloadBytes, AlwaysResumesCleanly, Inv;
    ForkedConditions(LONG_SHORT, Concrete(1, 100));
    var ms := Source(LONG_SHORT).messages;
    forall k | 0 <= k <= 2 ensures Contiguity.At(ms, k) != Concrete(1, 100) {
      PayloadMonotone(LONG_SHORT, k, 2);
      assert LONG_SHORT[..2] == LONG_SHORT;
    }
  }

  /** Anchored one record back and too far left: the first offset wraps around, and still every offset resumes. */
  lemma WrappedOffsetResumes()
    ensures var c := Forked(SHORT_LONG, Concrete(1, 2)).streams;
      && Inv(Forked(SHORT_LONG, Concrete(1, 2)), 0)
      && !NeverUnderflows(c, "fork") && !AlwaysResumesCleanly(c, "fork") && AlwaysResumes(c, "fork")
  {
    ShortLongStamped();
    DataOfSource(SHORT_LONG);
    hide Source, PayloadBytes, NeverUnderflows, AlwaysResumes, AlwaysResumesCleanly, Inv;
    ForkedConditions(SHORT_LONG, Concrete(1, 2));
    var ms := Source(SHORT_LONG).messages;
    assert Rest(ms, 1) == 3 && ms[0].data == [1];
  }
}
