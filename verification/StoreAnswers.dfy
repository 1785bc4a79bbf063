/**
 What the storage operations answer and what they leave behind, stated on the stored
 entries, the views and the replies alone.
 */
module StoreAnswers {
  import opened Wrappers
  import opened Offsets
  import opened Streams
  import opened Lineage
  import opened Stores
  import opened StoreInvariant
  import opened StoreRuns
  import opened ForkStability
  import opened LiveRead
  import Lex

  // ---------------------------------------------------------------- the access gate

  /** The deadline of the stream has passed. */
  predicate Over(e: Entry, now: int) {
    e.config.expiresAt.Some? && e.config.expiresAt.value <= now
  }

  /** The operations that need an accessible stream. */
  predicate Gated(op: Op) {
    op.ReadOp? || op.ProducerOp? || (op.AppendOp? && (op.records != [] || op.close))
  }

  /** A tombstone is gone, an expired stream is expired, and a refusal for either reason changes nothing. */
  lemma GateRefuses(s: Store, op: Op, now: int)
    requires Gated(op) && op.name in s.streams
    ensures var e, o := s.streams[op.name], Step(s, op, now);
      && (o.reply == Err(StreamGone) <==> e.state.Tombstone?)
      && (o.reply == Err(StreamExpired) <==> e.state.Active? && Over(e, now))
      && (e.state.Tombstone? || Over(e, now) ==> o.store == s)
  {
    hide SameContentType, PruneStale, Stamp, EndByte, PayloadBytes, ReadView, CheckProducer;
    if op.ProducerOp? { SequenceAnswers(s, op, now); }
  }

  /** The sequence check never answers about access. */
  lemma SequenceAnswers(s: Store, op: Op, now: int)
    requires op.ProducerOp? && op.name in s.streams
    ensures var e := s.streams[op.name];
      var v := CheckProducer(ProducerOf(PruneStale(e.producers, now), op.producer.id), op.producer, e.closed);
      v.Reject? ==> v.error != StreamGone && v.error != StreamExpired && v.error != EmptyBatch && v.error != NotFound
  {
  }

  /** An empty batch that does not close is refused first; a missing stream is not found. */
  lemma MissingRefused(s: Store, op: Op, now: int)
    requires op.ReadOp? || op.ProducerOp? || op.AppendOp? || op.DeleteOp?
    ensures var o := Step(s, op, now);
      && (o.reply == Err(EmptyBatch) <==> op.AppendOp? && op.records == [] && !op.close)
      && (o.reply == Err(NotFound) <==> op.name !in s.streams && !(op.AppendOp? && op.records == [] && !op.close))
      && (op.name !in s.streams ==> o.store == s)
  {
    hide SameContentType, PruneStale, Stamp, EndByte, PayloadBytes, ReadView, CheckProducer, Remove;
    if op.ProducerOp? && op.name in s.streams { SequenceAnswers(s, op, now); }
  }

  // ---------------------------------------------------------------- deadlines

  /** The deadline after the stream was used: moved by a sliding TTL, left alone otherwise. */
  predicate Used(a: Config, b: Config, now: int) {
    && b.contentType == a.contentType && b.ttl == a.ttl && b.createdClosed == a.createdClosed
    && b.expiresAt == if a.ttl.Some? then Some(now + a.ttl.value) else a.expiresAt
  }

  /** A successful read returns the view and moves a sliding deadline, nothing else. */
  lemma ReadAnswers(s: Store, name: string, from: Offset, now: int)
    ensures var o := Step(s, ReadOp(name, from), now);
      && (o.reply == Err(NotFound) <==> name !in s.streams)
      && (o.reply.Err? ==> o.store == s)
      && (o.reply.Ok? ==>
            && o.reply == Ok(ReadBack(ReadView(s.streams, name, from)))
            && Used(s.streams[name].config, o.store.streams[name].config, now)
            && o.store == s.(streams := s.streams[name := s.streams[name].(config := o.store.streams[name].config)]))
  {
    hide ReadView;
  }

  // ---------------------------------------------------------------- appends

  /** Letters compare without case, everything else exactly. */
  predicate SameLetter(a: char, b: char) {
    || a == b
    || ('A' <= a <= 'Z' && 'a' <= b <= 'z' && b as int == a as int + 32)
    || ('A' <= b <= 'Z' && 'a' <= a <= 'z' && a as int == b as int + 32)
  }

  predicate SameType(a: string, b: string) {
    |a| == |b| && forall i :: 0 <= i < |a| ==> SameLetter(a[i], b[i])
  }

  lemma SameTypeIff(a: string, b: string)
    ensures SameContentType(a, b) <==> SameType(a, b)
  {
    if SameContentType(a, b) {
      assert |Lower(a)| == |Lower(b)|;
      forall i | 0 <= i < |a| ensures SameLetter(a[i], b[i]) {
        assert Lower(a)[i] == Lower(b)[i];
      }
    }
    if SameType(a, b) {
      assert forall i :: 0 <= i < |a| ==> LowerChar(a[i]) == LowerChar(b[i]);
      assert Lower(a) == Lower(b);
    }
  }

  /** The writer's sequence label does not move past the stored one. */
  predicate Regresses(e: Entry, sequence: Option<string>) {
    sequence.Some? && e.lastSeq.Some? && !Lex.Less(e.lastSeq.value, sequence.value)
  }

  lemma RegressesIff(e: Entry, sequence: Option<string>)
    ensures ValidateSeq(e.lastSeq, sequence) == if Regresses(e, sequence) then Err(SeqOrderingViolation) else Ok(sequence)
  {
    if sequence.Some? && e.lastSeq.Some? {
      Lex.LessIsTotal(e.lastSeq.value, sequence.value);
      Lex.LessIsIrreflexive(sequence.value);
      if Lex.Less(e.lastSeq.value, sequence.value) && Lex.Less(sequence.value, e.lastSeq.value) {
        Lex.LessIsTransitive(sequence.value, e.lastSeq.value, sequence.value);
      }
    }
  }

  predicate CannotRenew(e: Entry, now: int) { e.config.ttl.Some? && now + e.config.ttl.value > MAX_UTC }

  predicate StoreFull(s: Store, records: seq<Bytes>) { records != [] && s.total + PayloadBytes(records) > s.maxTotal }

  predicate StreamFull(s: Store, e: Entry, records: seq<Bytes>) {
    records != [] && e.totalBytes + PayloadBytes(records) > s.maxStream
  }

  /** An accessible stream takes a batch unless one of these stands in the way; the first one is the answer. */
  lemma AppendRefusals(s: Store, op: Op, now: int)
    requires op.AppendOp? && (op.records != [] || op.close) && op.name in s.streams
    requires s.streams[op.name].state.Active? && !Over(s.streams[op.name], now)
    ensures var e, reply := s.streams[op.name], Step(s, op, now).reply;
      var closed, foreign := op.records != [] && e.closed, op.records != [] && !SameType(e.config.contentType, op.contentType);
      && (reply == Err(StreamClosed) <==> closed)
      && (reply == Err(ContentTypeMismatch) <==> !closed && foreign)
      && (reply == Err(SeqOrderingViolation) <==> !closed && !foreign && Regresses(e, op.sequence))
      && (reply == Err(InvalidTtl) <==> !closed && !foreign && !Regresses(e, op.sequence) && CannotRenew(e, now))
      && (reply == Err(MemoryLimitExceeded) <==>
            !closed && !foreign && !Regresses(e, op.sequence) && !CannotRenew(e, now) && StoreFull(s, op.records))
      && (reply == Err(StreamSizeLimitExceeded) <==>
            !closed && !foreign && !Regresses(e, op.sequence) && !CannotRenew(e, now)
            && !StoreFull(s, op.records) && StreamFull(s, e, op.records))
      && (reply.Ok? <==>
            !closed && !foreign && !Regresses(e, op.sequence) && !CannotRenew(e, now)
            && !StoreFull(s, op.records) && !StreamFull(s, e, op.records))
  {
    var e := s.streams[op.name];
    SameTypeIff(e.config.contentType, op.contentType);
    RegressesIff(e, op.sequence);
    hide SameContentType, SameType, ValidateSeq, Regresses, Push, PayloadBytes;
  }

  /** The entry grew by these records at its tail. */
  predicate Grew(a: Entry, b: Entry, records: seq<Bytes>) {
    && Data(b.messages) == Data(a.messages) + records
    && b.fork == a.fork && b.refCount == a.refCount && b.state == a.state
    && b.totalBytes == a.totalBytes + PayloadBytes(records) && b.nextSeq == a.nextSeq + |records|
  }

  /** On success the answer names the tail before, the tail after and the flag after; only this stream changed, as said. */
  lemma AppendAnswers(s: Store, op: Op, now: int)
    requires op.AppendOp? && Step(s, op, now).reply.Ok?
    ensures op.name in s.streams && op.name in Step(s, op, now).store.streams
    ensures var s' := Step(s, op, now).store;
      var a, b := s.streams[op.name], s'.streams[op.name];
      && Step(s, op, now).reply == Ok(Appended(a.Tail(), b.Tail(), b.closed))
      && b.closed == (a.closed || op.close) && Grew(a, b, op.records) && Used(a.config, b.config, now)
      && b.lastSeq == (if op.sequence.Some? then op.sequence else a.lastSeq) && b.producers == a.producers
      && b.notices > a.notices
      && s' == s.(streams := s.streams[op.name := b], total := s.total + PayloadBytes(op.records))
  {
    hide PrecheckBatch, SameContentType;
    PrecheckAccepts(s.streams[op.name], op.records != [], op.contentType, op.sequence, now);
    GrowsByPush(s.streams[op.name], op.records);
    if op.records == [] { NoPayload(); }
    hide Push;
  }

  lemma PrecheckAccepts(e: Entry, hasData: bool, contentType: string, sequence: Option<string>, now: int)
    ensures var r := PrecheckBatch(e, hasData, contentType, sequence, now); r.Ok? ==> r.value == sequence
  {
    hide SameContentType;
  }

  lemma NoPayload()
    ensures PayloadBytes([]) == 0
  {
  }

  lemma GrowsByPush(e: Entry, records: seq<Bytes>)
    ensures var p := Push(e, records);
      && Grew(e, p, records) && p.closed == e.closed && p.config == e.config && p.lastSeq == e.lastSeq
      && p.producers == e.producers && p.notices == e.notices
    ensures Grew(e, e, []) && PayloadBytes([]) == 0
  {
    DataOfStamp(e.nextSeq, e.nextByte, records);
    DataConcat(e.messages, Stamp(e.nextSeq, e.nextByte, records));
    assert Data(e.messages) + [] == Data(e.messages);
  }

  // ---------------------------------------------------------------- reading what was written

  /** From the tail before, a read returns exactly the new records; from the tail after, nothing. */
  lemma NewRecordsReadBack(s: Store, op: Op, t: int, now: int)
    requires Inv(s, t) && t <= now && (op.AppendOp? || op.ProducerOp?) && op.name in s.streams
    requires op.name in Step(s, op, now).store.streams
    requires Grew(s.streams[op.name], Step(s, op, now).store.streams[op.name], op.records)
    ensures var a, c' := s.streams[op.name], Step(s, op, now).store.streams;
      && ReadView(c', op.name, a.Tail()).messages == op.records
      && ReadView(c', op.name, c'[op.name].Tail()).messages == []
  {
    hide WellStamped, SumBytes, Counted, Settled, PayloadBytes;
    var s' := Step(s, op, now).store;
    StepKeeps(s, op, t, now);
    NotReborn(s, op, now);
    hide Step;
    AllOrdered(s', now);
    ViewContinues(s.streams, s'.streams, Touched(op), Reborn(op, Step(s, op, now)), op.name);
    var a, b := s.streams[op.name], s'.streams[op.name];
    assert Continues(a, b, true);
    var late := b.messages[|a.messages|..];
    LateData(a, b, op.records);
    ViewBelowTail(s, t, op.name);
    ViewBelowTail(s', now, op.name);
    hide View, Select, Step, Holds, Evolves, Linked;
    LateRecordsFollow(View(s.streams, op.name), late, a.Tail(), a.Tail());
  }

  lemma NotReborn(s: Store, op: Op, now: int)
    requires op.AppendOp? || op.ProducerOp?
    ensures !Reborn(op, Step(s, op, now))
  {
  }

  lemma LateData(a: Entry, b: Entry, records: seq<Bytes>)
    requires a.messages <= b.messages && Data(b.messages) == Data(a.messages) + records
    ensures Data(b.messages[|a.messages|..]) == records
  {
    assert Data(b.messages)[|a.messages|..] == records;
    assert Data(b.messages[|a.messages|..]) == Data(b.messages)[|a.messages|..];
  }

  /** A client that resumes from the answer of an append reads nothing it has written, and nothing else is missing. */
  lemma AppendReadsBack(s: Store, op: Op, t: int, now: int)
    requires Inv(s, t) && t <= now && op.AppendOp? && Step(s, op, now).reply.Ok?
    ensures var o := Step(s, op, now); var answer := o.reply.value;
      && answer.Appended? && op.name in o.store.streams
      && ReadView(o.store.streams, op.name, answer.start).messages == op.records
      && ReadView(o.store.streams, op.name, answer.next).messages == []
  {
    AppendAnswers(s, op, now);
    hide Step, Holds, ReadView, Grew;
    NewRecordsReadBack(s, op, t, now);
  }

  // ---------------------------------------------------------------- producer appends

  /** The producer's record, unless it is seven days old. */
  function Remembered(e: Entry, id: string, now: int): (st: Option<Producer>) {
    if id in e.producers && e.producers[id].updatedAt > now - 604_800 then Some(e.producers[id]) else None
  }

  lemma RememberedIs(e: Entry, id: string, now: int)
    ensures ProducerOf(PruneStale(e.producers, now), id) == Remembered(e, id, now)
  {
  }

  predicate Fenced(st: Option<Producer>, p: ProducerHeaders) { st.Some? && p.epoch < st.value.epoch }

  predicate Repeated(st: Option<Producer>, p: ProducerHeaders) {
    st.Some? && p.epoch == st.value.epoch && p.sequence <= st.value.lastSeq
  }

  /** The next sequence expected in the request's epoch. */
  function Expected(st: Option<Producer>, p: ProducerHeaders): (q: nat) {
    if st.Some? && p.epoch == st.value.epoch then st.value.lastSeq + 1 else 0
  }

  /** How an accessible stream answers a producer whose content type fits, before anything is stored. */
  lemma SequenceCheck(s: Store, op: Op, now: int)
    requires op.ProducerOp? && op.name in s.streams
    requires s.streams[op.name].state.Active? && !Over(s.streams[op.name], now)
    requires op.records == [] || SameType(s.streams[op.name].config.contentType, op.contentType)
    ensures var e, reply, p := s.streams[op.name], Step(s, op, now).reply, op.producer;
      var st := Remembered(e, p.id, now);
      && (Fenced(st, p) ==> reply == Err(EpochFenced(st.value.epoch, p.epoch)))
      && (Repeated(st, p) ==> reply == Ok(DuplicateOf(st.value.epoch, st.value.lastSeq, e.Tail(), e.closed)))
      && (!Fenced(st, p) && !Repeated(st, p) && e.closed ==> reply == Err(StreamClosed))
      && (!Fenced(st, p) && !Repeated(st, p) && !e.closed && p.sequence != Expected(st, p) ==>
            reply == if st.Some? && p.epoch > st.value.epoch then Err(InvalidProducerState)
                     else Err(SequenceGap(Expected(st, p), p.sequence)))
      && (reply.Ok? && reply.value.Accepted? ==>
            !Fenced(st, p) && !Repeated(st, p) && !e.closed && p.sequence == Expected(st, p))
  {
    SameTypeIff(s.streams[op.name].config.contentType, op.contentType);
    RememberedIs(s.streams[op.name], op.producer.id, now);
    hide SameContentType, SameType, PruneStale, Push, PayloadBytes, Remembered, ValidateSeq;
  }

  /** A request in sequence is accepted unless one of these stands in the way; the first one is the answer. */
  lemma ProducerRefusals(s: Store, op: Op, now: int)
    requires op.ProducerOp? && op.name in s.streams
    requires s.streams[op.name].state.Active? && !Over(s.streams[op.name], now)
    ensures var e, reply, p := s.streams[op.name], Step(s, op, now).reply, op.producer;
      var st, foreign := Remembered(e, p.id, now), op.records != [] && !SameType(e.config.contentType, op.contentType);
      var inSequence := !foreign && !Fenced(st, p) && !Repeated(st, p) && !e.closed && p.sequence == Expected(st, p);
      && (reply == Err(ContentTypeMismatch) <==> foreign)
      && (reply == Err(SeqOrderingViolation) <==> inSequence && Regresses(e, op.sequence))
      && (reply == Err(InvalidTtl) <==> inSequence && !Regresses(e, op.sequence) && CannotRenew(e, now))
      && (reply == Err(MemoryLimitExceeded) <==>
            inSequence && !Regresses(e, op.sequence) && !CannotRenew(e, now) && StoreFull(s, op.records))
      && (reply == Err(StreamSizeLimitExceeded) <==>
            inSequence && !Regresses(e, op.sequence) && !CannotRenew(e, now)
            && !StoreFull(s, op.records) && StreamFull(s, e, op.records))
      && (reply.Ok? && reply.value.Accepted? <==>
            inSequence && !Regresses(e, op.sequence) && !CannotRenew(e, now)
            && !StoreFull(s, op.records) && !StreamFull(s, e, op.records))
  {
    var e := s.streams[op.name];
    SameTypeIff(e.config.contentType, op.contentType);
    RegressesIff(e, op.sequence);
    RememberedIs(e, op.producer.id, now);
    hide SameContentType, SameType, ValidateSeq, Regresses, PruneStale, Push, PayloadBytes, Remembered;
  }

  /** The mutation half of a producer append. */
  lemma AcceptAnswers(
    s: Store, name: string, e: Entry, records: seq<Bytes>, p: ProducerHeaders, close: bool, sequence: Option<string>, now: int)
    requires AcceptFromProducer(s, name, e, records, p, close, sequence, now).reply.Ok?
    ensures var o := AcceptFromProducer(s, name, e, records, p, close, sequence, now);
      && name in o.store.streams
      && var b := o.store.streams[name];
      && o.reply == Ok(Accepted(p.epoch, p.sequence, b.Tail(), b.closed))
      && b.closed == (e.closed || close) && Grew(e, b, records) && Used(e.config, b.config, now)
      && b.lastSeq == (if sequence.Some? then sequence else e.lastSeq)
      && b.producers == e.producers[p.id := Producer(p.epoch, p.sequence, now)]
      && o.store == s.(streams := s.streams[name := b], total := s.total + PayloadBytes(records))
  {
    RegressesIff(e, sequence);
    GrowsByPush(e, records);
    hide Push, ValidateSeq, Regresses;
  }

  /** An accepted request: the answer, the stored work and the producer's new record. */
  lemma ProducerAnswers(s: Store, op: Op, now: int)
    requires op.ProducerOp? && Step(s, op, now).reply.Ok? && Step(s, op, now).reply.value.Accepted?
    ensures op.name in s.streams && op.name in Step(s, op, now).store.streams
    ensures var s', p := Step(s, op, now).store, op.producer;
      var a, b := s.streams[op.name], s'.streams[op.name];
      && Step(s, op, now).reply == Ok(Accepted(p.epoch, p.sequence, b.Tail(), b.closed))
      && b.closed == (a.closed || op.close) && Grew(a, b, op.records) && Used(a.config, b.config, now)
      && b.lastSeq == (if op.sequence.Some? then op.sequence else a.lastSeq)
      && (forall id :: id in b.producers <==> id == p.id || Remembered(a, id, now).Some?)
      && (forall id :: id in b.producers ==>
            Some(b.producers[id]) == if id == p.id then Some(Producer(p.epoch, p.sequence, now)) else Remembered(a, id, now))
      && s' == s.(streams := s.streams[op.name := b], total := s.total + PayloadBytes(op.records))
  {
    hide CheckProducer, SameContentType, CheckAccess, AcceptFromProducer, Used, PayloadBytes, Data;
    var a, p := s.streams[op.name], op.producer;
    var e := a.(producers := PruneStale(a.producers, now));
    var s1 := Put(s, op.name, e, s.total);
    assert Step(s, op, now) == AcceptFromProducer(s1, op.name, e, op.records, p, op.close, op.sequence, now);
    AcceptAnswers(s1, op.name, e, op.records, p, op.close, op.sequence, now);
  }

  /** The answer of an accepted append is a position to resume from. */
  lemma ProducerReadsBack(s: Store, op: Op, t: int, now: int)
    requires Inv(s, t) && t <= now
    requires op.ProducerOp? && Step(s, op, now).reply.Ok? && Step(s, op, now).reply.value.Accepted?
    ensures var o := Step(s, op, now);
      && op.name in s.streams && op.name in o.store.streams
      && ReadView(o.store.streams, op.name, s.streams[op.name].Tail()).messages == op.records
      && ReadView(o.store.streams, op.name, o.reply.value.next).messages == []
  {
    ProducerAnswers(s, op, now);
    hide Step, Holds, ReadView, Grew;
    NewRecordsReadBack(s, op, t, now);
  }
}
