/**
 A live reader over one stream, interleaved with any other operations. The reader
 subscribes, reads, then alternates between waiting on the notification channel
 and reading again from its last tail.
 */
module LiveRead {
  import opened Wrappers
  import opened Offsets
  import opened Streams
  import opened Lineage
  import opened Stores
  import opened StoreInvariant
  import opened StoreRuns
  import opened ForkStability
  import ProducerRuns

  /** `seen` counts the notifications the receiver has consumed or was subscribed after. */
  datatype Reader =
    | Unsubscribed
    | Subscribed(seen: nat)
    | Waiting(seen: nat, start: Offset, tail: Offset, emitted: seq<Bytes>)
    | Woken(seen: nat, start: Offset, tail: Offset, emitted: seq<Bytes>)
    | Finished(seen: nat, start: Offset, tail: Offset, emitted: seq<Bytes>)
    | Ended

  datatype Live = Live(store: Store, clock: int, reader: Reader)

  datatype Action =
    | Other(op: Op, now: int)
    | Subscribe
    | FirstRead(from: Offset, now: int)
    | Receive(upTo: nat)
    | Reread(now: int)
    | GiveUp

  /** Positions past the tail, and `now`, resolve to the tail of the first read. */
  function StartOf(from: Offset, tail: Offset): (o: Offset) {
    if from.Now? || Less(tail, from) then tail else from
  }

  function AfterRead(seen: nat, start: Offset, emitted: seq<Bytes>, r: ReadResult): (rd: Reader) {
    if r.closed && r.atTail then Finished(seen, start, r.next, emitted + r.messages)
    else Waiting(seen, start, r.next, emitted + r.messages)
  }

  /** One transition. A lagging receiver may skip notifications, never data. */
  ghost predicate Next(l: Live, a: Action, l': Live, f: string) {
    match a
    case Other(op, now) =>
      && l.clock <= now && Admissible(l.store, op, now)
      && var o := Step(l.store, op, now);
         f in o.store.streams && !(Reborn(op, o) && Touched(op) == Some(f))
         && l' == Live(o.store, now, l.reader)
    case Subscribe =>
      l.reader.Unsubscribed? && f in l.store.streams
      && l' == l.(reader := Subscribed(l.store.streams[f].notices))
    case FirstRead(from, now) =>
      && l.reader.Subscribed? && l.clock <= now
      && var o := Step(l.store, ReadOp(f, from), now);
         l'.store == o.store && l'.clock == now
         && l'.reader == if o.reply.Err? then Ended
                         else AfterRead(l.reader.seen, StartOf(from, o.reply.value.result.next), [], o.reply.value.result)
    case Receive(upTo) =>
      && l.reader.Waiting? && f in l.store.streams
      && l.reader.seen < upTo <= l.store.streams[f].notices
      && l' == l.(reader := Woken(upTo, l.reader.start, l.reader.tail, l.reader.emitted))
    case Reread(now) =>
      && l.reader.Woken? && l.clock <= now
      && var o := Step(l.store, ReadOp(f, l.reader.tail), now);
         l'.store == o.store && l'.clock == now
         && l'.reader == if o.reply.Err? then Ended
                         else AfterRead(l.reader.seen, l.reader.start, l.reader.emitted, o.reply.value.result)
    case GiveUp =>
      l' == l.(reader := Ended)
  }

  // ---------------------------------------------------------------- the reader's invariant

  ghost predicate Emitting(r: Reader) { r.Waiting? || r.Woken? || r.Finished? }

  /** What has been emitted, then what is still unread, is the stream from the start position. */
  ghost predicate Gapless(c: Catalog, f: string, r: Reader)
    requires Linked(c) && f in c && Emitting(r)
  {
    && r.tail.Concrete? && !Less(c[f].Tail(), r.tail) && !Less(c[f].Tail(), r.start)
    && Data(Select(View(c, f), r.start, None)) == r.emitted + Data(Select(View(c, f), r.tail, None))
  }

  ghost predicate LiveInv(l: Live, f: string) {
    && Inv(l.store, l.clock)
    && f in l.store.streams
    && var e := l.store.streams[f];
    && (l.reader.Subscribed? ==> l.reader.seen <= e.notices)
    && (Emitting(l.reader) ==> l.reader.seen <= e.notices && Gapless(l.store.streams, f, l.reader))
    && (l.reader.Waiting? ==> l.reader.tail == e.Tail() || l.reader.seen < e.notices)
    && (l.reader.Finished? ==> l.reader.tail == e.Tail() && e.closed)
  }

  // ---------------------------------------------------------------- positions in a view

  lemma TailPastAnchor(e: Entry)
    requires WellStamped(e) && e.fork.Some? && e.fork.value.offset.Concrete?
    ensures !Less(e.Tail(), e.fork.value.offset)
  {
  }

  /** Every record of a view lies before the stream's tail. */
  lemma ViewBelowTail(s: Store, t: int, f: string)
    requires Inv(s, t) && f in s.streams
    ensures Select(View(s.streams, f), s.streams[f].Tail(), None) == []
  {
    var e := s.streams[f];
    var inherited := Inherited(s.streams, e.fork);
    SelectConcat(inherited, e.messages, e.Tail(), None);
    forall i | 0 <= i < |e.messages| ensures Less(e.messages[i].offset, e.Tail()) {
      StampAt(BaseSeq(e), BaseByte(e), Data(e.messages), i);
    }
    SelectNone(e.messages, e.Tail(), None);
    if e.fork.Some? {
      var src := View(s.streams, e.fork.value.source);
      AllOrdered(s, t);
      ViewConcrete(s.streams, e.fork.value.source);
      SelectMembers(src, Start, Some(e.fork.value.offset));
      forall i | 0 <= i < |inherited| ensures Less(inherited[i].offset, e.Tail()) {
        assert inherited[i] in src && Less(inherited[i].offset, e.fork.value.offset);
        if e.fork.value.offset.Concrete? {
          TailPastAnchor(e);
        } else {
          assert AnchorHolds(s.streams, f);
        }
      }
      SelectNone(inherited, e.Tail(), None);
    }
  }

  /** Records at or past the tail extend every selection from an earlier position. */
  lemma LateRecordsFollow(ms: seq<Message>, late: seq<Message>, p: Offset, tail: Offset)
    requires tail.Concrete? && !Less(tail, p)
    requires forall i :: 0 <= i < |late| ==> late[i].offset.Concrete? && !Less(late[i].offset, tail)
    ensures Data(Select(ms + late, p, None)) == Data(Select(ms, p, None)) + Data(late)
  {
    SelectConcat(ms, late, p, None);
    SelectAll(late, p, None);
    DataConcat(Select(ms, p, None), late);
  }

  // ---------------------------------------------------------------- steps keep the invariant

  lemma TailStays(a: Entry, b: Entry, r: Reader)
    requires Emitting(r) && Extends(a, b) && !Less(a.Tail(), r.tail) && !Less(a.Tail(), r.start)
    ensures !Less(b.Tail(), r.tail) && !Less(b.Tail(), r.start)
  {
  }

  lemma OtherKeepsGapless(s: Store, s': Store, t: int, now: int, touched: Option<string>, reborn: bool, f: string, r: Reader)
    requires Inv(s, t) && Inv(s', now) && Evolves(s.streams, s'.streams, touched, reborn)
    requires f in s.streams && f in s'.streams && !(reborn && touched == Some(f))
    requires Emitting(r) && Gapless(s.streams, f, r)
    ensures Gapless(s'.streams, f, r)
  {
    hide WellStamped, Counted, Settled, SumBytes, Select, Accounted, View, Linked, Inherited;
    var a, b := s.streams[f], s'.streams[f];
    AllOrdered(s', now);
    ViewContinues(s.streams, s'.streams, touched, reborn, f);
    assert Continues(a, b, touched == Some(f));
    var late := b.messages[|a.messages|..];
    TailStays(a, b, r);
    hide Evolves, Anchored;
    GaplessExtends(View(s.streams, f), late, r.start, r.tail, r.emitted, a.Tail());
  }

  lemma GaplessExtends(
    ms: seq<Message>, late: seq<Message>, start: Offset, at: Offset, emitted: seq<Bytes>, tail: Offset)
    requires tail.Concrete? && !Less(tail, start) && !Less(tail, at)
    requires forall i :: 0 <= i < |late| ==> late[i].offset.Concrete? && !Less(late[i].offset, tail)
    requires Data(Select(ms, start, None)) == emitted + Data(Select(ms, at, None))
    ensures Data(Select(ms + late, start, None)) == emitted + Data(Select(ms + late, at, None))
  {
    hide Select;
    LateRecordsFollow(ms, late, start, tail);
    LateRecordsFollow(ms, late, at, tail);
  }

  lemma OtherKeeps(l: Live, op: Op, now: int, l': Live, f: string)
    requires LiveInv(l, f) && Next(l, Other(op, now), l', f)
    ensures LiveInv(l', f)
  {
    hide WellStamped, Step, Gapless;
    StepKeeps(l.store, op, l.clock, now);
    var o := Step(l.store, op, now);
    var a, b := l.store.streams[f], l'.store.streams[f];
    assert Continues(a, b, Touched(op) == Some(f));
    if Emitting(l.reader) {
      OtherKeepsGapless(l.store, l'.store, l.clock, now, Touched(op), Reborn(op, o), f, l.reader);
    }
    if a.notices == b.notices {
      StepContinues(l.store, op, l.clock, now, f);
      TailMovesWithRecords(l.store, l'.store, l.clock, now, f);
    }
  }

  /** Without new records the tail stays where it was. */
  lemma TailMovesWithRecords(s: Store, s': Store, t: int, now: int, f: string)
    requires Inv(s, t) && Inv(s', now) && f in s.streams && f in s'.streams
    requires s'.streams[f].fork == s.streams[f].fork && Extends(s.streams[f], s'.streams[f])
    requires |s'.streams[f].messages| == |s.streams[f].messages|
    ensures s'.streams[f].Tail() == s.streams[f].Tail()
  {
    assert s'.streams[f].messages == s.streams[f].messages;
  }

  /** A read never changes records, tails or notification counts. */
  lemma ReadEffect(s: Store, t: int, now: int, f: string, from: Offset)
    requires Inv(s, t) && t <= now && f in s.streams
    ensures var o := Step(s, ReadOp(f, from), now);
      && Inv(o.store, now) && f in o.store.streams && Linked(s.streams)
      && o.store.streams[f] == s.streams[f].(config := o.store.streams[f].config)
      && View(o.store.streams, f) == View(s.streams, f)
      && (o.reply.Ok? ==> o.reply.value == ReadBack(ReadView(s.streams, f, from)))
  {
    ReadReply(s, now, f, from);
    hide WellStamped, Step, Counted, Settled, SumBytes;
    var op := ReadOp(f, from);
    var o := Step(s, op, now);
    StepKeeps(s, op, t, now);
    AllOrdered(o.store, now);
    ViewContinues(s.streams, o.store.streams, None, Reborn(op, o), f);
    assert o.store.streams[f].messages[|s.streams[f].messages|..] == [];
  }

  lemma ReadReply(s: Store, now: int, f: string, from: Offset)
    requires f in s.streams
    ensures var o := Step(s, ReadOp(f, from), now);
      && f in o.store.streams
      && o.store.streams[f] == s.streams[f].(config := o.store.streams[f].config)
      && (o.reply.Ok? ==> o.reply.value == ReadBack(ReadView(s.streams, f, from)))
  {
  }

  lemma FirstReadKeeps(l: Live, from: Offset, now: int, l': Live, f: string)
    requires LiveInv(l, f) && Next(l, FirstRead(from, now), l', f)
    ensures LiveInv(l', f)
  {
    hide WellStamped, Step, Counted, Settled, Anchored, Accounted, View, Select, Linked, StartOf;
    ReadEffect(l.store, l.clock, now, f, from);
    if Emitting(l'.reader) {
      ViewBelowTail(l.store, l.clock, f);
      StartsGapless(View(l.store.streams, f), l.store.streams[f].Tail(), from);
    }
  }

  /** What the first read returns is everything from the start position to the tail. */
  lemma StartsGapless(ms: seq<Message>, tail: Offset, from: Offset)
    requires tail.Concrete? && Select(ms, tail, None) == []
    ensures !Less(tail, StartOf(from, tail))
    ensures Data(Select(ms, StartOf(from, tail), None)) == (if from.Now? then [] else Data(Select(ms, from, None))) + []
  {
    if !from.Now? && Less(tail, from) { NothingPastTail(ms, tail, from); }
    hide Select;
  }

  lemma {:induction false} NothingPastTail(ms: seq<Message>, tail: Offset, from: Offset)
    requires tail.Concrete? && Less(tail, from) && Select(ms, tail, None) == []
    ensures Select(ms, from, None) == []
    decreases |ms|
  {
    if ms != [] {
      NothingPastTail(ms[1..], tail, from);
    }
  }

  lemma RereadKeeps(l: Live, now: int, l': Live, f: string)
    requires LiveInv(l, f) && Next(l, Reread(now), l', f)
    ensures LiveInv(l', f)
  {
    hide WellStamped, Step;
    ReadEffect(l.store, l.clock, now, f, l.reader.tail);
    ViewBelowTail(l.store, l.clock, f);
  }

  lemma NextKeeps(l: Live, a: Action, l': Live, f: string)
    requires LiveInv(l, f) && Next(l, a, l', f)
    ensures LiveInv(l', f)
  {
    hide Step, Holds;
    match a
    case Other(op, now) => OtherKeeps(l, op, now, l', f);
    case Subscribe =>
    case FirstRead(from, now) => FirstReadKeeps(l, from, now, l', f);
    case Receive(upTo) =>
    case Reread(now) => RereadKeeps(l, now, l', f);
    case GiveUp =>
  }

  // ---------------------------------------------------------------- whole interleavings

  ghost predicate Interleaving(states: seq<Live>, actions: seq<Action>, f: string) {
    && |states| == |actions| + 1
    && (forall i :: 0 <= i < |actions| ==> Next(states[i], actions[i], states[i + 1], f))
  }

  lemma {:induction false} InterleavingKeeps(states: seq<Live>, actions: seq<Action>, f: string, k: nat)
    requires Interleaving(states, actions, f) && LiveInv(states[0], f) && k < |states|
    ensures LiveInv(states[k], f)
    decreases k
  {
    hide Next, LiveInv;
    if k > 0 {
      InterleavingKeeps(states, actions, f, k - 1);
      NextKeeps(states[k - 1], actions[k - 1], states[k], f);
    }
  }

  /**
   At every point of every interleaving the emitted records are a prefix, without gap
   or duplicate, of the stream from its start position; a reader blocked with no
   pending notification, or finished because the stream closed, has emitted all of it.
   */
  lemma LiveReadsAreGapless(states: seq<Live>, actions: seq<Action>, f: string, k: nat)
    requires Interleaving(states, actions, f) && k < |states|
    requires Inv(states[0].store, states[0].clock) && f in states[0].store.streams && states[0].reader.Unsubscribed?
    requires Emitting(states[k].reader)
    ensures f in states[k].store.streams && Linked(states[k].store.streams)
    ensures var r := states[k].reader;
      var all := Data(Select(View(states[k].store.streams, f), r.start, None));
      && |r.emitted| <= |all| && r.emitted == all[..|r.emitted|]
      && (r.Waiting? && r.seen == states[k].store.streams[f].notices ==> r.emitted == all)
      && (r.Finished? ==> r.emitted == all)
  {
    hide Next;
    InterleavingKeeps(states, actions, f, k);
    var l := states[k];
    ViewBelowTail(l.store, l.clock, f);
  }

  // ---------------------------------------------------------------- which closes wake readers

  /** A producer's close-only append marks the stream closed without a notification. */
  predicate SilentClose(op: Op, f: string) {
    op.ProducerOp? && op.name == f && op.records == [] && op.close
  }

  /** The step that closes a stream notifies its readers exactly when it is not such an append. */
  lemma CloseNotifiesIff(s: Store, op: Op, t: int, now: int, f: string)
    requires Inv(s, t) && t <= now && Admissible(s, op, now) && f in s.streams && !s.streams[f].closed
    requires var o := Step(s, op, now);
      f in o.store.streams && !(Reborn(op, o) && Touched(op) == Some(f)) && o.store.streams[f].closed
    ensures s.streams[f].notices < Step(s, op, now).store.streams[f].notices <==> !SilentClose(op, f)
  {
    hide Holds;
    if Touched(op) != Some(f) {
      OthersDoNotClose(s, op, t, now, f);
    } else if !op.AppendOp? && !op.ProducerOp? {
      ProducerRuns.QuietCreate(s, op, t, now);
    }
  }

  lemma OthersDoNotClose(s: Store, op: Op, t: int, now: int, f: string)
    requires Inv(s, t) && t <= now && Admissible(s, op, now) && Touched(op) != Some(f)
    requires f in Step(s, op, now).store.streams
    ensures f in s.streams && Step(s, op, now).store.streams[f].closed == s.streams[f].closed
  {
    hide Step, Holds;
    StepKeeps(s, op, t, now);
  }
}
