/**
 What forking a stream answers and what the fork starts with, stated on the view of the
 source, the stored entries and the replies alone.
 */
module ForkAnswers {
  import opened Wrappers
  import opened Offsets
  import opened Streams
  import opened Lineage
  import opened Stores
  import opened StoreInvariant
  import opened StoreRuns
  import opened ForkStability
  import opened LiveRead
  import opened StoreAnswers
  import opened CreationAnswers

  /** The requested anchor, or the tail of the source. */
  function AnchorOf(source: Entry, at: Option<Offset>): (o: Offset) {
    if at.Some? then at.value else source.Tail()
  }

  /** The content type the request is held to. */
  function TypeAsked(source: Entry, op: Op): (ct: string)
    requires op.CreateForkOp?
  {
    if op.extra.inheritContentType then source.config.contentType else op.options.contentType
  }

  /** The deadline: the one asked for, else the sliding one of the source from now on, else its fixed one. */
  function ForkAsked(source: Entry, o: Options, now: int): (c: Config) {
    var base := Config(source.config.contentType, None, None, o.createdClosed);
    match o.expiry
    case Sliding(s) => base.(ttl := Some(s), expiresAt := Some(now + s))
    case At(d) => base.(expiresAt := Some(d))
    case Never =>
      if source.config.ttl.Some? then base.(ttl := source.config.ttl, expiresAt := Some(now + source.config.ttl.value))
      else base.(expiresAt := source.config.expiresAt)
  }

  /** The sliding deadline of the source would be inherited and lies too far. */
  predicate InheritsTooFar(source: Entry, o: Options, now: int) {
    o.expiry.Never? && CannotRenew(source, now)
  }

  /** What the source holds at or past the anchor. */
  ghost function After(s: Store, source: string, anchor: Offset): (rest: seq<Bytes>) {
    Data(Select(Seen(s.streams, source), anchor, None))
  }

  /** The sub-offset reaches past what the source offers: records of a JSON stream, bytes of the first record otherwise. */
  predicate Overreaches(json: bool, n: nat, rest: seq<Bytes>) {
    n > 0 && if json then n > |rest| else rest == [] || n > |rest[0]|
  }

  /** The records a sub-offset takes over: the first `n` records, or one record with the first `n` bytes of the first. */
  predicate Prefix(json: bool, n: nat, rest: seq<Bytes>, p: seq<Bytes>) {
    if n == 0 then p == []
    else if json then |p| == n && p <= rest
    else rest != [] && |p| == 1 && |p[0]| == n && p[0] <= rest[0]
  }

  /** One and only one. */
  lemma PrefixIsUnique(json: bool, n: nat, rest: seq<Bytes>, p: seq<Bytes>, q: seq<Bytes>)
    requires Prefix(json, n, rest, p) && Prefix(json, n, rest, q)
    ensures p == q
  {
    if n > 0 && !json { assert p[0] == rest[0][..n] == q[0]; }
  }

  predicate Json(ct: string) { ct == "application/json" }

  lemma InitialIs(config: Config, extra: ForkOptions, rest: seq<Bytes>) returns (p: seq<Bytes>)
    ensures var json, r := Json(config.contentType), InitialForkMessages(config, extra, rest);
      && (r == Err(InvalidSubOffset) <==> Overreaches(json, extra.subOffset, rest))
      && (r == Err(InvalidBody) <==> !Overreaches(json, extra.subOffset, rest) && extra.body.None?)
      && (r.Ok? <==> !Overreaches(json, extra.subOffset, rest) && extra.body.Some?)
      && (r.Ok? ==> Prefix(json, extra.subOffset, rest, p) && r.value == p + extra.body.value)
  {
    var n := extra.subOffset;
    p := if n == 0 || Overreaches(Json(config.contentType), n, rest) then []
         else if Json(config.contentType) then rest[..n] else [rest[0][..n]];
  }

  // ---------------------------------------------------------------- refusals before the path is looked at

  /** A source that can be forked there by this request. */
  predicate Forkable(s: Store, op: Op, now: int)
    requires op.CreateForkOp?
  {
    && !Malformed(op.options, now) && op.source in s.streams
    && var source := s.streams[op.source];
    && source.state.Active? && !Over(source, now) && !Less(source.Tail(), AnchorOf(source, op.at))
    && SameType(source.config.contentType, TypeAsked(source, op)) && !InheritsTooFar(source, op.options, now)
  }

  lemma SpecIs(name: string, source: Entry, op: Op, now: int)
    requires op.CreateForkOp? && !Malformed(op.options, now)
    ensures var config := Asked(op.options, now).(contentType := TypeAsked(source, op));
      var r, anchor := PrepareForkSpec(name, source, op.at, config, op.extra.subOffset, now), AnchorOf(source, op.at);
      var foreign := !SameType(source.config.contentType, TypeAsked(source, op));
      r == if source.state.Tombstone? then Err(ForkFromTombstone)
           else if Over(source, now) then Err(StreamExpired)
           else if Less(source.Tail(), anchor) then Err(ForkOffsetBeyondTail)
           else if foreign then Err(ContentTypeMismatch)
           else if InheritsTooFar(source, op.options, now) then Err(InvalidTtl)
           else Ok(ForkSpec(Fork(name, anchor, op.extra.subOffset), ForkAsked(source, op.options, now)))
  {
    SameTypeIff(source.config.contentType, TypeAsked(source, op));
    hide SameContentType, SameType, Less;
  }

  lemma ForkRefusals(s: Store, op: Op, now: int)
    requires op.CreateForkOp?
    ensures var reply, o := Step(s, op, now).reply, op.options;
      && (reply == Err(InvalidContentType) <==> o.contentType == "")
      && (o.contentType != "" && TooFar(o, now) ==> reply == Err(InvalidTtl))
      && (reply == Err(NotFound) <==> !Malformed(o, now) && op.source !in s.streams)
      && (!Malformed(o, now) && op.source in s.streams ==>
            var source := s.streams[op.source];
            && (reply == Err(ForkFromTombstone) <==> source.state.Tombstone?)
            && (reply == Err(StreamExpired) <==> source.state.Active? && Over(source, now))
            && (reply == Err(ForkOffsetBeyondTail) <==>
                  source.state.Active? && !Over(source, now) && Less(source.Tail(), AnchorOf(source, op.at)))
            && (reply == Err(ContentTypeMismatch) <==>
                  source.state.Active? && !Over(source, now) && !Less(source.Tail(), AnchorOf(source, op.at))
                  && !SameType(source.config.contentType, TypeAsked(source, op)))
            && (reply == Err(InvalidTtl) <==>
                  source.state.Active? && !Over(source, now) && !Less(source.Tail(), AnchorOf(source, op.at))
                  && SameType(source.config.contentType, TypeAsked(source, op)) && InheritsTooFar(source, o, now)))
      && (!Forkable(s, op, now) ==> Step(s, op, now).store == s)
  {
    AskedIs(op.options, now);
    ForkProceeds(s, op, now);
  }

  /** What the body and the sub-offset decide, then the path. */
  lemma ForkProceeds(s: Store, op: Op, now: int)
    requires op.CreateForkOp?
    ensures var o := Step(s, op, now); var reply := o.reply;
      if op.options.contentType == "" then o == Failed(s, InvalidContentType)
      else if TooFar(op.options, now) then o == Failed(s, InvalidTtl)
      else if op.source !in s.streams then o == Failed(s, NotFound)
      else
        var source := s.streams[op.source];
        var spec := ForkSpec(Fork(op.source, AnchorOf(source, op.at), op.extra.subOffset), ForkAsked(source, op.options, now));
        var rest := if op.extra.subOffset == 0 then [] else After(s, op.source, AnchorOf(source, op.at));
        var initial := InitialForkMessages(spec.config, op.extra, rest);
        if source.state.Tombstone? then o == Failed(s, ForkFromTombstone)
        else if Over(source, now) then o == Failed(s, StreamExpired)
        else if Less(source.Tail(), AnchorOf(source, op.at)) then o == Failed(s, ForkOffsetBeyondTail)
        else if !SameType(source.config.contentType, TypeAsked(source, op)) then o == Failed(s, ContentTypeMismatch)
        else if InheritsTooFar(source, op.options, now) then o == Failed(s, InvalidTtl)
        else if initial.Err? then o == Failed(s, initial.error)
        else o == PlaceFork(s, op.name, spec, initial.value, now)
    ensures Forkable(s, op, now) ==>
      var reply := Step(s, op, now).reply;
      reply.Err? ==> reply.error in {InvalidSubOffset, InvalidBody, StreamPathBlocked, ConfigMismatch, MemoryLimitExceeded, StreamSizeLimitExceeded}
  {
    AskedIs(op.options, now);
    if !Malformed(op.options, now) && op.source in s.streams { SpecIs(op.source, s.streams[op.source], op, now); }
    hide Resolve, PrepareForkSpec, SameType, Select, Less, ForkAsked;
    hide Remove, Push, PayloadBytes, EvaluateForkCreate;
  }

  /** A forkable source: what else can stand in the way, and what is answered for a path already taken. */
  lemma ForkDecides(s: Store, op: Op, now: int) returns (p: seq<Bytes>)
    requires op.CreateForkOp? && Forkable(s, op, now)
    ensures var o, source := Step(s, op, now), s.streams[op.source];
      var anchor, target := AnchorOf(source, op.at), ForkAsked(source, op.options, now);
      var json, rest, n := Json(source.config.contentType), After(s, op.source, anchor), op.extra.subOffset;
      var good := !Overreaches(json, n, rest) && op.extra.body.Some?;
      var same := Taken(s, op.name, now) && Agrees(s.streams[op.name].config, target)
                  && s.streams[op.name].fork == Some(Fork(op.source, anchor, n));
      var cleared := Remove(s, op.name);
      && (o.reply == Err(InvalidSubOffset) <==> Overreaches(json, n, rest))
      && (o.reply == Err(InvalidBody) <==> !Overreaches(json, n, rest) && op.extra.body.None?)
      && (o.reply == Err(StreamPathBlocked) <==> good && op.name in s.streams && Blocked(s.streams[op.name], now))
      && (o.reply == Err(ConfigMismatch) <==> good && Taken(s, op.name, now) && !same)
      && (o.reply.Ok? && o.reply.value.Existing? <==> good && same)
      && (good ==> Prefix(json, n, rest, p))
      && (good && Free(s, op.name, now) ==>
            && (o.reply == Err(MemoryLimitExceeded) <==> StoreFull(cleared, p + op.extra.body.value))
            && (o.reply == Err(StreamSizeLimitExceeded) <==>
                  !StoreFull(cleared, p + op.extra.body.value)
                  && StreamFull(cleared, NewEntry(target), p + op.extra.body.value))
            && (o.reply.Ok? <==>
                  !StoreFull(cleared, p + op.extra.body.value)
                  && !StreamFull(cleared, NewEntry(target), p + op.extra.body.value)))
      && (!good || !Free(s, op.name, now) ==> o.store == s)
  {
    var source := s.streams[op.source];
    var anchor, target := AnchorOf(source, op.at), ForkAsked(source, op.options, now);
    var rest := After(s, op.source, anchor);
    ForkProceeds(s, op, now);
    p := InitialIs(target, op.extra, rest);
    if op.extra.subOffset == 0 { var q := InitialIs(target, op.extra, []); }
    var spec := ForkSpec(Fork(op.source, anchor, op.extra.subOffset), target);
    if !Overreaches(Json(source.config.contentType), op.extra.subOffset, rest) && op.extra.body.Some? {
      PlaceDecides(s, op.name, spec, p + op.extra.body.value, now);
    }
    hide Step, InitialForkMessages, PlaceFork, Remove, PayloadBytes, Select, SameType, Less, Agrees, Blocked;
  }

  lemma PlaceDecides(s: Store, name: string, spec: ForkSpec, initial: seq<Bytes>, now: int)
    ensures var o, cleared := PlaceFork(s, name, spec, initial, now), Remove(s, name);
      var same := Taken(s, name, now) && Agrees(s.streams[name].config, spec.config) && s.streams[name].fork == Some(spec.fork);
      && (o.reply == Err(StreamPathBlocked) <==> name in s.streams && Blocked(s.streams[name], now))
      && (o.reply == Err(ConfigMismatch) <==> Taken(s, name, now) && !same)
      && (o.reply.Ok? && o.reply.value.Existing? <==> same)
      && (o.reply == Err(MemoryLimitExceeded) <==> Free(s, name, now) && StoreFull(cleared, initial))
      && (o.reply == Err(StreamSizeLimitExceeded) <==>
            Free(s, name, now) && !StoreFull(cleared, initial) && StreamFull(cleared, NewEntry(spec.config), initial))
      && (o.reply.Ok? && o.reply.value.Created? <==>
            Free(s, name, now) && !StoreFull(cleared, initial) && !StreamFull(cleared, NewEntry(spec.config), initial))
      && (o.reply.Err? ==> o.reply.error in {StreamPathBlocked, ConfigMismatch, MemoryLimitExceeded, StreamSizeLimitExceeded})
      && (o.reply.Ok? ==> o.reply.value.Existing? || o.reply.value.Created?)
      && (!Free(s, name, now) ==> o.store == s)
  {
    if name in s.streams { AgreesIff(s.streams[name].config, spec.config); }
    hide SameConfig, Agrees, Remove, Push, PayloadBytes, AddReference;
  }

  // ---------------------------------------------------------------- the created fork

  /** The entry, the answer, and the reference on the source. */
  lemma ForkAnswersWith(s: Store, op: Op, now: int) returns (p: seq<Bytes>)
    requires op.CreateForkOp? && Step(s, op, now).reply.Ok? && Step(s, op, now).reply.value.Created?
    ensures Forkable(s, op, now) && op.extra.body.Some? && op.name in Step(s, op, now).store.streams
    ensures var o, source, cleared := Step(s, op, now), s.streams[op.source], Remove(s, op.name);
      var b, anchor := o.store.streams[op.name], AnchorOf(source, op.at);
      && Prefix(Json(source.config.contentType), op.extra.subOffset, After(s, op.source, anchor), p)
      && Data(b.messages) == p + op.extra.body.value
      && o.reply == Ok(Created(b.Tail(), b.closed)) && b.closed == op.options.createdClosed
      && b.producers == map[] && b.lastSeq == None && b.state.Active?
      && b.fork == Some(Fork(op.source, anchor, op.extra.subOffset)) && b.config == ForkAsked(source, op.options, now)
      && o.store.total == cleared.total + PayloadBytes(p + op.extra.body.value)
      && (op.source != op.name ==>
            && b.refCount == 0
            && (op.source in cleared.streams ==>
                  o.store.streams == cleared.streams[op.name := b][op.source :=
                    cleared.streams[op.source].(refCount := cleared.streams[op.source].refCount + 1)]))
  {
    p := ForkPlaces(s, op, now);
    ForkableStored(s, op, now);
    hide Step, PlaceFork, Remove, PayloadBytes, After, Forkable, Prefix, AnchorOf, ForkAsked;
    var source := s.streams[op.source];
    var spec := ForkSpec(Fork(op.source, AnchorOf(source, op.at), op.extra.subOffset), ForkAsked(source, op.options, now));
    PlaceAnswers(s, op.name, spec, p + op.extra.body.value, now);
  }

  lemma ForkableStored(s: Store, op: Op, now: int)
    requires op.CreateForkOp? && Forkable(s, op, now)
    ensures op.source in s.streams
    ensures ForkAsked(s.streams[op.source], op.options, now).createdClosed == op.options.createdClosed
  {
  }

  lemma ForkPlaces(s: Store, op: Op, now: int) returns (p: seq<Bytes>)
    requires op.CreateForkOp? && Step(s, op, now).reply.Ok? && Step(s, op, now).reply.value.Created?
    ensures Forkable(s, op, now) && op.extra.body.Some?
    ensures var source := s.streams[op.source]; var anchor := AnchorOf(source, op.at);
      && Prefix(Json(source.config.contentType), op.extra.subOffset, After(s, op.source, anchor), p)
      && Step(s, op, now)
         == PlaceFork(s, op.name, ForkSpec(Fork(op.source, anchor, op.extra.subOffset), ForkAsked(source, op.options, now)),
                      p + op.extra.body.value, now)
  {
    ForkProceeds(s, op, now);
    hide Step, InitialForkMessages, PlaceFork, Select, SameType, Less;
    var source := s.streams[op.source];
    var anchor, target := AnchorOf(source, op.at), ForkAsked(source, op.options, now);
    p := InitialIs(target, op.extra, After(s, op.source, anchor));
    if op.extra.subOffset == 0 { var q := InitialIs(target, op.extra, []); }
  }

  lemma PlaceAnswers(s: Store, name: string, spec: ForkSpec, initial: seq<Bytes>, now: int)
    requires PlaceFork(s, name, spec, initial, now).reply.Ok? && PlaceFork(s, name, spec, initial, now).reply.value.Created?
    ensures var o, cleared := PlaceFork(s, name, spec, initial, now), Remove(s, name);
      && name in o.store.streams
      && var b := o.store.streams[name];
      && Data(b.messages) == initial && o.reply == Ok(Created(b.Tail(), b.closed)) && b.closed == spec.config.createdClosed
      && b.producers == map[] && b.lastSeq == None && b.state.Active? && b.fork == Some(spec.fork) && b.config == spec.config
      && o.store.total == cleared.total + PayloadBytes(initial)
      && (spec.fork.source != name ==>
            && b.refCount == 0
            && (spec.fork.source in cleared.streams ==>
                  o.store.streams == cleared.streams[name := b][spec.fork.source :=
                    cleared.streams[spec.fork.source].(refCount := cleared.streams[spec.fork.source].refCount + 1)]))
  {
    hide Remove, PayloadBytes, EvaluateForkCreate, Grew;
    var blank := ForkEntry(spec.config, spec.fork);
    BlankGrows(spec, initial);
    hide Push, ForkEntry;
  }

  /** The entry of the fork, with or without initial records. */
  lemma BlankGrows(spec: ForkSpec, initial: seq<Bytes>)
    ensures var blank := ForkEntry(spec.config, spec.fork);
      forall b :: (b == blank && initial == []) || b == Push(blank, initial).(notices := blank.notices + 1) ==>
        && Data(b.messages) == initial && b.closed == spec.config.createdClosed
        && b.producers == map[] && b.lastSeq == None && b.state.Active? && b.refCount == 0
        && b.fork == Some(spec.fork) && b.config == spec.config
    ensures PayloadBytes([]) == 0
  {
    var blank := ForkEntry(spec.config, spec.fork);
    GrowsByPush(blank, initial);
    var none: seq<Bytes> := [];
    assert Data(blank.messages) == none && none + initial == initial;
  }

  // ---------------------------------------------------------------- reading the fork

  /**
   The new fork reads as the source below the anchor, then the sub-offset prefix of what
   the source holds from there, then the initial body; from the answered position, nothing.
   */
  lemma ForkReadsBack(s: Store, op: Op, t: int, now: int) returns (p: seq<Bytes>)
    requires Inv(s, t) && t <= now
    requires op.CreateForkOp? && Step(s, op, now).reply.Ok? && Step(s, op, now).reply.value.Created?
    ensures Forkable(s, op, now) && op.extra.body.Some? && op.name in Step(s, op, now).store.streams
    ensures Linked(s.streams) && Linked(Step(s, op, now).store.streams)
    ensures var o, source := Step(s, op, now), s.streams[op.source];
      var c', anchor, view := o.store.streams, AnchorOf(source, op.at), View(s.streams, op.source);
      && Prefix(Json(source.config.contentType), op.extra.subOffset, Data(Select(view, anchor, None)), p)
      && ReadView(c', op.name, Start).messages == Data(Select(view, Start, Some(anchor))) + (p + op.extra.body.value)
      && ReadView(c', op.name, o.reply.value.next).messages == []
  {
    p := ForkAnswersWith(s, op, now);
    hide Prefix, Holds, SameType;
    StepKeeps(s, op, t, now);
    var s', anchor := Step(s, op, now).store, AnchorOf(s.streams[op.source], op.at);
    InvLinked(s, t);
    InvLinked(s', now);
    hide Step;
    SourceUntouched(s, op, t, now);
    ViewBelowTail(s', now, op.name);
    AllOrdered(s', now);
    var inherited, b := Select(View(s.streams, op.source), Start, Some(anchor)), s'.streams[op.name];
    assert View(s'.streams, op.name) == inherited + b.messages;
    ViewConcrete(s'.streams, op.name);
    hide View, Select, Linked, Forkable, Inherited, Ordered;
    ReadsJoined(s'.streams, op.name, inherited);
  }

  lemma ReadsJoined(c: Catalog, n: string, inherited: seq<Message>)
    requires Linked(c) && n in c && View(c, n) == inherited + c[n].messages
    requires forall i :: 0 <= i < |View(c, n)| ==> View(c, n)[i].offset.Concrete?
    requires Select(View(c, n), c[n].Tail(), None) == []
    ensures ReadView(c, n, Start).messages == Data(inherited) + Data(c[n].messages)
    ensures ReadView(c, n, c[n].Tail()).messages == []
  {
    hide View, Select, Linked;
    SelectFromStart(View(c, n));
    DataConcat(inherited, c[n].messages);
    NothingIsEmpty();
  }

  lemma InvLinked(s: Store, t: int)
    requires Inv(s, t)
    ensures Linked(s.streams)
  {
  }

  lemma SelectFromStart(ms: seq<Message>)
    requires forall i :: 0 <= i < |ms| ==> ms[i].offset.Concrete?
    ensures Select(ms, Start, None) == ms
  {
    SelectAll(ms, Start, None);
  }

  /** Creating the fork leaves the source's view as it was. */
  lemma SourceUntouched(s: Store, op: Op, t: int, now: int)
    requires Inv(s, t) && t <= now
    requires op.CreateForkOp? && Step(s, op, now).reply.Ok? && Step(s, op, now).reply.value.Created?
    requires op.source in s.streams && op.name in Step(s, op, now).store.streams
    requires Step(s, op, now).store.streams[op.name].fork.Some? && Step(s, op, now).store.streams[op.name].fork.value.source == op.source
    ensures Linked(s.streams) && Linked(Step(s, op, now).store.streams)
    ensures View(Step(s, op, now).store.streams, op.source) == View(s.streams, op.source)
  {
    hide Step, WellStamped, SumBytes, Counted, Settled, Accounted;
    var o := Step(s, op, now);
    StepKeeps(s, op, t, now);
    AllOrdered(o.store, now);
    assert AnchorHolds(o.store.streams, op.name);
    assert Climbs(o.store.streams, Rank(o.store.streams), op.name);
    ViewContinues(s.streams, o.store.streams, Some(op.name), true, op.source);
    assert Continues(s.streams[op.source], o.store.streams[op.source], false);
  }
}
