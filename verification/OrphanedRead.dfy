/**
 A read of a fork that was captured before the fork itself is deleted. The rest of it is
 read from whatever is left of the lineage then.
 */
module OrphanedRead {
  import opened Wrappers
  import opened Offsets
  import opened Streams
  import opened Lineage
  import opened Stores
  import opened StoreInvariant
  import opened StoreRuns
  import opened ForkStability
  import ControlExamples

  /** Finishing a captured read of a fork: what the catalog then gives below the fork point, then the captured records. */
  lemma FinishSplits(c: Catalog, e: Entry, from: Offset)
    requires Linked(c) && e.fork.Some? && !from.Now? && forall n :: n in c ==> Ordered(c[n].messages)
    ensures FinishRead(c, from, PrepareRead(e, from))
         == ReadResult(Data(Select(Inherited(c, e.fork), from, None)) + Data(Select(e.messages, from, None)),
                       e.Tail(), true, e.closed)
  {
    hide Select, Capped, PlanRead, Plan;
    var f := e.fork.value;
    if from.Start? || Less(from, f.offset) {
      CappedPlan(c, f.source, None, f.offset);
      PlanReadsView(c, f.source, from, Some(f.offset));
      SelectTwice(View(c, f.source), f.offset, from, None);
    } else {
      NothingInheritedAfterCut(c, f, from);
    }
  }

  lemma ReadSplits(c: Catalog, n: string, from: Offset)
    requires Linked(c) && n in c && c[n].fork.Some? && !from.Now?
    ensures ReadView(c, n, from).messages == Data(Select(Inherited(c, c[n].fork), from, None)) + Data(Select(c[n].messages, from, None))
  {
    hide Select, Inherited;
    SelectConcat(Inherited(c, c[n].fork), c[n].messages, from, None);
    DataConcat(Select(Inherited(c, c[n].fork), from, None), Select(c[n].messages, from, None));
  }

  /** Whatever happens in between, the reply is the captured view exactly when the requested inherited records are the same. */
  lemma FinishedIff(c: Catalog, c': Catalog, n: string, from: Offset)
    requires Linked(c) && Linked(c') && n in c && c[n].fork.Some? && !from.Now?
    requires forall m :: m in c' ==> Ordered(c'[m].messages)
    ensures FinishRead(c', from, PrepareRead(c[n], from)) == ReadView(c, n, from) <==>
      Data(Select(Inherited(c', c[n].fork), from, None)) == Data(Select(Inherited(c, c[n].fork), from, None))
  {
    hide Select, Inherited, FinishRead, PrepareRead;
    FinishSplits(c', c[n], from);
    ReadSplits(c, n, from);
    var x, y, z := Data(Select(Inherited(c', c[n].fork), from, None)),
      Data(Select(Inherited(c, c[n].fork), from, None)), Data(Select(c[n].messages, from, None));
    assert (x + z)[..|x|] == x && (y + z)[..|y|] == y;
    assert x + z == y + z ==> |x| == |y|;
  }

  /** While a stream stays, what it shows below a position it has passed does not change. */
  lemma {:induction false} BelowStays(s: Store, t: int, events: seq<Event>, src: string, o: Offset)
    requires Inv(s, t) && Timely(s, t, events) && Undisturbed(s, events, src) && !Less(s.streams[src].Tail(), o)
    ensures var c, c' := s.streams, Run(s, events).streams;
      && Linked(c) && Linked(c') && src in c'
      && Select(View(c', src), Start, Some(o)) == Select(View(c, src), Start, Some(o))
    decreases |events|
  {
    hide WellStamped, Step, Select, View, Counted, Settled, Accounted;
    if events != [] {
      var e := events[0];
      var s1 := Step(s, e.op, e.now).store;
      StepKeeps(s, e.op, t, e.now);
      StepBelow(s, e.op, t, e.now, src, o);
      BelowStays(s1, e.now, events[1..], src, o);
    }
  }

  lemma StepBelow(s: Store, op: Op, t: int, now: int, src: string, o: Offset)
    requires Inv(s, t) && t <= now && Admissible(s, op, now) && src in s.streams && !Less(s.streams[src].Tail(), o)
    requires var r := Step(s, op, now); src in r.store.streams && !(Reborn(op, r) && Touched(op) == Some(src))
    ensures var c, c' := s.streams, Step(s, op, now).store.streams;
      && Linked(c) && Linked(c') && !Less(c'[src].Tail(), o)
      && Select(View(c', src), Start, Some(o)) == Select(View(c, src), Start, Some(o))
  {
    hide WellStamped, Step, Select, Counted, Settled, Accounted;
    var r := Step(s, op, now);
    var c, c' := s.streams, r.store.streams;
    StepKeeps(s, op, t, now);
    AllOrdered(r.store, now);
    ViewContinues(c, c', Touched(op), Reborn(op, r), src);
    assert Continues(c[src], c'[src], Touched(op) == Some(src));
    hide View, Evolves, Anchored;
    NeverBackwards();
    var late := c'[src].messages[|c[src].messages|..];
    LateRecordsInvisible(View(c, src), late, c[src].Tail(), o);
  }

  /**
   A captured read is finished after any run, the fork deleted or not. If the source stayed
   all along, the reply is the view at capture. If the source is gone, it is so exactly
   when nothing inherited was asked for; otherwise the inherited records are missing
   from a reply that reports success.
   */
  lemma CapturedReadIff(s: Store, t: int, events: seq<Event>, f: string, from: Offset)
    requires Inv(s, t) && Timely(s, t, events) && f in s.streams && s.streams[f].fork.Some? && !from.Now?
    requires var src := s.streams[f].fork.value.source;
      Undisturbed(s, events, src) || src !in Run(s, events).streams
    ensures var c, c' := s.streams, Run(s, events).streams;
      && Linked(c) && Linked(c')
      && (FinishRead(c', from, PrepareRead(c[f], from)) == ReadView(c, f, from) <==>
          c[f].fork.value.source in c' || Select(Inherited(c, c[f].fork), from, None) == [])
  {
    hide WellStamped, Step, Select, FinishRead, PrepareRead, ReadView, Counted, Settled, Accounted;
    var c, s' := s.streams, Run(s, events);
    var info := c[f].fork.value;
    RunKeeps(s, t, events);
    AllOrdered(s', EndTime(t, events));
    FinishedIff(c, s'.streams, f, from);
    if info.source in s'.streams {
      assert AnchorHolds(c, f);
      BelowStays(s, t, events, info.source, info.offset);
      assert Inherited(s'.streams, c[f].fork) == Inherited(c, c[f].fork);
    } else {
      SelectEmpty(Start, Some(info.offset));
      SelectEmpty(from, None);
      assert Inherited(s'.streams, c[f].fork) == [];
    }
  }

  // ---------------------------------------------------------------- a reachable truncated reply

  const RECORDS: seq<Bytes> := [[1]]
  const ANCHOR: Offset := Concrete(1, 1)

  /** The fork still stands on its deleted source. */
  function Tombed(): (s: Store) {
    var s := ControlExamples.Forked(RECORDS, ANCHOR);
    s.(streams := s.streams["source" := s.streams["source"].(state := Tombstone)])
  }

  lemma SourceStamped()
    ensures ControlExamples.Source(RECORDS).messages == [Message(Concrete(0, 0), [1])]
    ensures ControlExamples.Source(RECORDS).Tail() == Concrete(1, 1) && PayloadBytes(RECORDS) == 1
  {
    assert RECORDS[1..] == [];
  }

  lemma SourceBuried()
    ensures Delete(ControlExamples.Forked(RECORDS, ANCHOR), "source").store == Tombed()
  {
    hide Push;
  }

  lemma BothCollected()
    ensures Delete(Tombed(), "fork").store.streams == map[]
  {
    hide Push;
    assert "source" != "fork";
    var s := Tombed();
    var s1 := s.(streams := s.streams - {"fork"}, total := SatSub(s.total, s.streams["fork"].totalBytes));
    assert s1.streams.Keys == {"source"};
    assert Cascade(s1, "source").streams == s1.streams - {"source"};
    assert (s1.streams - {"source"}).Keys == {};
  }

  lemma TombedHolds()
    ensures Inv(Tombed(), 0)
  {
    SourceStamped();
    assert !Less(ControlExamples.Source(RECORDS).Tail(), ANCHOR);
    hide ControlExamples.Source, Holds, Delete, PayloadBytes, Less;
    ControlExamples.ForkedIsReachable(RECORDS, ANCHOR);
    SourceBuried();
    StepKeeps(ControlExamples.Forked(RECORDS, ANCHOR), DeleteOp("source"), 0, 0);
  }

  lemma EmptyIsLinked(c: Catalog)
    requires c == map[]
    ensures Linked(c)
  {
    var rank: map<string, nat> := map[];
    assert Ranked(c, rank);
  }

  lemma DropStep(s: Store)
    ensures Step(s, DeleteOp("fork"), 0).store == Delete(s, "fork").store && Admissible(s, DeleteOp("fork"), 0)
  {
  }

  /** From the empty store: fork, delete the source, capture, delete the fork: the reply has lost its only record. */
  lemma TruncatedReplyIsReachable()
    ensures Inv(Tombed(), 0) && "fork" in Tombed().streams
    ensures var events := [Event(DeleteOp("fork"), 0)];
      var c := Run(Tombed(), events).streams;
      && Timely(Tombed(), 0, events) && Linked(c)
      && ReadView(Tombed().streams, "fork", Start).messages == [[1]]
      && FinishRead(c, Start, PrepareRead(Tombed().streams["fork"], Start)).messages == []
  {
    TombedHolds();
    TombedView();
    BothCollected();
    var s1, s2 := Tombed(), Delete(Tombed(), "fork").store;
    var e, drop := s1.streams["fork"], Event(DeleteOp("fork"), 0);
    assert e.fork.Some? && e.messages == [];
    DropStep(s1);
    hide Tombed, Delete, Inv, ReadView, FinishRead, PrepareRead, Linked, Step;
    EmptyIsLinked(s2.streams);
    RunOne(s1, 0, drop, s2, [], s2);
    assert [drop] + [] == [drop];
    NothingLeft(e, s2.streams);
  }

  lemma TombedView()
    requires Inv(Tombed(), 0)
    ensures Linked(Tombed().streams) && ReadView(Tombed().streams, "fork", Start).messages == [[1]]
  {
    SourceStamped();
    hide Push, Holds, ControlExamples.Source, Linked;
    var c := Tombed().streams;
    var ms := ControlExamples.Source(RECORDS).messages;
    TombedLinked();
    assert c["source"].messages == ms && c["source"].fork.None?;
    assert View(c, "source") == [] + ms == ms;
    SelectAll(ms, Start, Some(ANCHOR));
    assert c["fork"].fork == Some(Fork("source", ANCHOR, 0)) && c["fork"].messages == [];
    assert Inherited(c, c["fork"].fork) == ms;
    assert View(c, "fork") == ms + [] == ms;
    SelectAll(ms, Start, None);
  }

  lemma TombedLinked()
    requires Inv(Tombed(), 0)
    ensures Linked(Tombed().streams)
    ensures Tombed().streams["source"].fork.None?
    ensures Tombed().streams["source"].messages == ControlExamples.Source(RECORDS).messages
  {
    hide Counted, Settled, Anchored, Accounted, Linked;
  }

  lemma NothingLeft(e: Entry, c: Catalog)
    requires c == map[] && e.fork.Some? && e.messages == [] && Linked(c)
    ensures FinishRead(c, Start, PrepareRead(e, Start)).messages == []
  {
    FinishSplits(c, e, Start);
    SelectEmpty(Start, Some(e.fork.value.offset));
    SelectEmpty(Start, None);
    assert Inherited(c, e.fork) == [];
  }
}
