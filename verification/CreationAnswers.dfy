/**
 What creating, forking, replacing and deleting answer and leave behind, stated on the
 stored entries, the views and the replies alone.
 */
module CreationAnswers {
  import opened Wrappers
  import opened Offsets
  import opened Streams
  import opened Lineage
  import opened Stores
  import opened StoreInvariant
  import opened StoreRuns
  import opened ForkStability
  import opened LiveRead
  import opened Tombstones
  import opened StoreAnswers

  // ---------------------------------------------------------------- what a request asks for

  predicate TooFar(o: Options, now: int) { o.expiry.Sliding? && now + o.expiry.seconds > MAX_UTC }

  predicate Malformed(o: Options, now: int) { o.contentType == "" || TooFar(o, now) }

  /** The configuration the request asks for at this time. */
  function Asked(o: Options, now: int): (c: Config) {
    match o.expiry
    case Never => Config(o.contentType, None, None, o.createdClosed)
    case At(d) => Config(o.contentType, None, Some(d), o.createdClosed)
    case Sliding(s) => Config(o.contentType, Some(s), Some(now + s), o.createdClosed)
  }

  lemma AskedIs(o: Options, now: int)
    ensures Resolve(o, now) ==
      if o.contentType == "" then Err(InvalidContentType) else if TooFar(o, now) then Err(InvalidTtl) else Ok(Asked(o, now))
  {
  }

  /** Equal but for where a sliding deadline happens to stand. */
  predicate Agrees(a: Config, b: Config) {
    a == b || (a.ttl.Some? && a == b.(expiresAt := a.expiresAt))
  }

  lemma AgreesIff(a: Config, b: Config)
    ensures SameConfig(a, b) <==> Agrees(a, b)
  {
  }

  /** The path is taken for good: by an expired stream with forks, or by a tombstone still in time. */
  predicate Blocked(e: Entry, now: int) {
    if Over(e, now) then e.refCount > 0 else e.state.Tombstone?
  }

  /** Nothing is stored at the path, or an expired stream nothing hangs off. */
  predicate Free(s: Store, n: string, now: int) {
    n in s.streams ==> Over(s.streams[n], now) && s.streams[n].refCount == 0
  }

  /** A live stream stands at the path. */
  predicate Taken(s: Store, n: string, now: int) {
    n in s.streams && !Over(s.streams[n], now) && s.streams[n].state.Active?
  }

  // ---------------------------------------------------------------- creation

  lemma CreateRefusals(s: Store, op: Op, now: int)
    requires op.CreateRootOp?
    ensures var o, sound := Step(s, op, now), !Malformed(op.options, now);
      var cleared, blank := Remove(s, op.name), NewEntry(Asked(op.options, now));
      && (o.reply == Err(InvalidContentType) <==> op.options.contentType == "")
      && (o.reply == Err(InvalidTtl) <==> op.options.contentType != "" && TooFar(op.options, now))
      && (o.reply == Err(StreamPathBlocked) <==> sound && op.name in s.streams && Blocked(s.streams[op.name], now))
      && (o.reply == Err(ConfigMismatch) <==>
            sound && Taken(s, op.name, now) && !Agrees(s.streams[op.name].config, Asked(op.options, now)))
      && (o.reply == Err(MemoryLimitExceeded) <==> sound && Free(s, op.name, now) && StoreFull(cleared, op.records))
      && (o.reply == Err(StreamSizeLimitExceeded) <==>
            sound && Free(s, op.name, now) && !StoreFull(cleared, op.records) && StreamFull(cleared, blank, op.records))
      && (o.reply.Ok? && o.reply.value.Existing? <==>
            sound && Taken(s, op.name, now) && Agrees(s.streams[op.name].config, Asked(op.options, now)))
      && (o.reply.Ok? && o.reply.value.Created? <==>
            sound && Free(s, op.name, now) && !StoreFull(cleared, op.records) && !StreamFull(cleared, blank, op.records))
      && (!Free(s, op.name, now) || !sound ==> o.store == s)
  {
    AskedIs(op.options, now);
    if op.name in s.streams { AgreesIff(s.streams[op.name].config, Asked(op.options, now)); }
    hide Resolve, SameConfig, Agrees, Remove, Push, PayloadBytes, Asked;
  }

  /** Nothing of an older life: no producers, no label, no forks. */
  predicate Newborn(e: Entry) {
    e.producers == map[] && e.lastSeq == None && e.refCount == 0 && e.state.Active?
  }

  lemma CreateAnswers(s: Store, op: Op, now: int)
    requires op.CreateRootOp? && Step(s, op, now).reply.Ok? && Step(s, op, now).reply.value.Created?
    ensures op.name in Step(s, op, now).store.streams
    ensures var o := Step(s, op, now); var b := o.store.streams[op.name]; var cleared := Remove(s, op.name);
      && o.reply == Ok(Created(b.Tail(), b.closed))
      && Newborn(b) && b.fork.None? && b.config == Asked(op.options, now) && Data(b.messages) == op.records
      && b.closed == (op.close || op.options.createdClosed)
      && o.store == cleared.(streams := cleared.streams[op.name := b], total := cleared.total + PayloadBytes(op.records))
  {
    AskedIs(op.options, now);
    GrowsByPush(NewEntry(Asked(op.options, now)), op.records);
    NewIsNewborn(Asked(op.options, now), op.records);
    hide Resolve, EvaluateRootCreate, Remove, Push, PayloadBytes;
  }

  lemma NewIsNewborn(config: Config, records: seq<Bytes>)
    ensures var e := Push(NewEntry(config), records);
      Newborn(e) && e.fork.None? && e.config == config && Data(e.messages) == records && !e.closed
    ensures Newborn(NewEntry(config)) && Data(NewEntry(config).messages) == [] && PayloadBytes([]) == 0
  {
    GrowsByPush(NewEntry(config), records);
    var none: seq<Bytes> := [];
    assert Data(NewEntry(config).messages) == none && none + records == records;
  }

  /** Everything read from the start is what the stream was created with. */
  lemma RootReadsBack(s: Store, now: int, n: string)
    requires Inv(s, now) && n in s.streams && s.streams[n].fork.None?
    ensures ReadView(s.streams, n, Start).messages == Data(s.streams[n].messages)
    ensures ReadView(s.streams, n, Concrete(0, 0)).messages == Data(s.streams[n].messages)
    ensures ReadView(s.streams, n, s.streams[n].Tail()).messages == []
  {
    hide WellStamped, SumBytes, Counted, Settled, Anchored, Accounted, Select;
    var e := s.streams[n];
    ViewBelowTail(s, now, n);
    AllOrdered(s, now);
    assert View(s.streams, n) == [] + e.messages == e.messages;
    hide View, Linked, Ordered;
    AllFromStart(e.messages);
    NothingIsEmpty();
  }

  lemma AllFromStart(ms: seq<Message>)
    requires Ordered(ms)
    ensures Select(ms, Start, None) == ms && Select(ms, Concrete(0, 0), None) == ms
  {
    SelectAll(ms, Start, None);
    SelectAll(ms, Concrete(0, 0), None);
  }

  lemma NothingIsEmpty()
    ensures Data([]) == []
  {
  }

  lemma CreateReadsBack(s: Store, op: Op, t: int, now: int)
    requires Inv(s, t) && t <= now
    requires op.CreateRootOp? && Step(s, op, now).reply.Ok? && Step(s, op, now).reply.value.Created?
    ensures var o := Step(s, op, now);
      && op.name in o.store.streams
      && ReadView(o.store.streams, op.name, Start).messages == op.records
      && ReadView(o.store.streams, op.name, o.reply.value.next).messages == []
  {
    CreateAnswers(s, op, now);
    hide Step, Holds, ReadView, Remove;
    StepKeeps(s, op, t, now);
    RootReadsBack(Step(s, op, now).store, now, op.name);
  }

  /** Asking for what is there changes nothing and reports where it stands. */
  lemma ExistingAnswers(s: Store, op: Op, now: int)
    requires op.CreateRootOp? || op.CreateForkOp?
    requires Step(s, op, now).reply.Ok? && Step(s, op, now).reply.value.Existing?
    ensures var o := Step(s, op, now);
      && op.name in s.streams && o.store == s
      && o.reply == Ok(Existing(s.streams[op.name].Tail(), s.streams[op.name].closed))
  {
    hide Resolve, EvaluateRootCreate, EvaluateForkCreate, PrepareForkSpec, InitialForkMessages, Remove, Push, PayloadBytes, Select;
  }

  // ---------------------------------------------------------------- replacement

  lemma ReplaceRefusals(s: Store, op: Op, now: int)
    requires op.ReplaceOp?
    ensures var o, sound := Step(s, op, now), !Malformed(op.options, now);
      var plain := op.name in s.streams && s.streams[op.name].refCount == 0 && s.streams[op.name].fork.None?;
      var blank := NewEntry(Asked(op.options, now));
      && (o.reply == Err(InvalidContentType) <==> op.options.contentType == "")
      && (o.reply == Err(InvalidTtl) <==> op.options.contentType != "" && TooFar(op.options, now))
      && (o.reply == Err(NotFound) <==> sound && op.name !in s.streams)
      && (o.reply == Err(ReplacementHasForks) <==> sound && op.name in s.streams && !plain)
      && (o.reply == Err(MemoryLimitExceeded) <==> sound && plain && StoreFull(s, op.records))
      && (o.reply == Err(StreamSizeLimitExceeded) <==>
            sound && plain && !StoreFull(s, op.records) && StreamFull(s, blank, op.records))
      && (o.reply.Ok? <==> sound && plain && !StoreFull(s, op.records) && !StreamFull(s, blank, op.records))
  {
    AskedIs(op.options, now);
    hide Resolve, Push, PayloadBytes, Asked;
  }

  lemma ReplaceAnswers(s: Store, op: Op, t: int, now: int)
    requires Inv(s, t) && t <= now && op.ReplaceOp? && Step(s, op, now).reply.Ok?
    ensures var o := Step(s, op, now);
      && op.name in s.streams && op.name in o.store.streams
      && var a, b := s.streams[op.name], o.store.streams[op.name];
      && o.reply == Ok(Appended(Concrete(0, 0), b.Tail(), b.closed))
      && Newborn(b) && b.fork.None? && b.config == Asked(op.options, now) && Data(b.messages) == op.records
      && b.closed == (op.close || op.options.createdClosed) && b.notices > a.notices
      && o.store.streams == s.streams[op.name := b]
      && o.store.total + a.totalBytes == s.total + PayloadBytes(op.records)
    ensures var o := Step(s, op, now);
      && ReadView(o.store.streams, op.name, o.reply.value.start).messages == op.records
      && ReadView(o.store.streams, op.name, o.reply.value.next).messages == []
  {
    ReplacedEntry(s, op, t, now);
    hide Step, Holds, ReadView;
    StepKeeps(s, op, t, now);
    RootReadsBack(Step(s, op, now).store, now, op.name);
  }

  lemma ReplacedEntry(s: Store, op: Op, t: int, now: int)
    requires Inv(s, t) && t <= now && op.ReplaceOp? && Step(s, op, now).reply.Ok?
    ensures var o := Step(s, op, now);
      && op.name in s.streams && op.name in o.store.streams
      && var a, b := s.streams[op.name], o.store.streams[op.name];
      && o.reply == Ok(Appended(Concrete(0, 0), b.Tail(), b.closed))
      && Newborn(b) && b.fork.None? && b.config == Asked(op.options, now) && Data(b.messages) == op.records
      && b.closed == (op.close || op.options.createdClosed) && b.notices > a.notices
      && o.store.streams == s.streams[op.name := b]
      && o.store.total + a.totalBytes == s.total + PayloadBytes(op.records)
  {
    AskedIs(op.options, now);
    GrowsByPush(NewEntry(Asked(op.options, now)), op.records);
    NewIsNewborn(Asked(op.options, now), op.records);
    if op.name in s.streams { ReleasedWasCounted(s, t, None, op.name); }
    hide Resolve, Push, PayloadBytes, Holds, SumBytes;
  }

  // ---------------------------------------------------------------- deletion

  /** A referenced stream becomes a tombstone and keeps everything else; an unreferenced one goes, with what only it kept. */
  lemma DeleteAnswers(s: Store, op: Op, t: int, now: int)
    requires Inv(s, t) && t <= now && op.DeleteOp?
    ensures var o, n := Step(s, op, now), op.name;
      && (o.reply == Err(NotFound) <==> n !in s.streams)
      && (o.reply == Err(StreamGone) <==> n in s.streams && s.streams[n].state.Tombstone?)
      && (o.reply.Err? ==> o.store == s)
      && (o.reply.Ok? ==> o.reply == Ok(Deleted))
      && (o.reply.Ok? && s.streams[n].refCount > 0 ==>
            o.store == s.(streams := s.streams[n := s.streams[n].(state := Tombstone)]))
      && (o.reply.Ok? && s.streams[n].refCount == 0 ==>
            && n !in o.store.streams
            && (forall x :: x in s.streams && x != n ==> (x !in o.store.streams <==> Collected(s, o.store, x)))
            && (forall x :: x in o.store.streams ==> x in s.streams && o.store.streams[x].state == s.streams[x].state
                                                     && Kept(s.streams[x], o.store.streams[x])))
  {
    hide WellStamped, SumBytes, Cascade, Linked, Collected;
    SameKeeps(s, t, now, None);
    var n := op.name;
    if n in s.streams && s.streams[n].state.Active? && s.streams[n].refCount == 0 {
      RemoveKeeps(s, n, now);
      forall x | x in s.streams && x != n
        ensures var s' := Remove(s, n);
          (x !in s'.streams <==> Collected(s, s', x)) && (x in s'.streams ==> s'.streams[x].state == s.streams[x].state)
      {
        RemoveExact(s, n, now, x);
      }
    }
    hide Remove, Holds;
  }
}
