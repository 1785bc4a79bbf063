/** Every operation keeps the store invariant and leaves other streams alone. */
module StoreRuns {
  import opened Wrappers
  import opened Offsets
  import opened Streams
  import opened Lineage
  import opened Stores
  import opened StoreInvariant

  // ---------------------------------------------------------------- appends and reads

  /** A successful commit pushes the records; a refused one has no effect to describe. */
  lemma CommitAdvances(s: Store, e: Entry, records: seq<Bytes>)
    requires e.totalBytes <= s.maxStream && s.total <= s.maxTotal
    ensures var r := Commit(s, e, records);
      r.Ok? ==>
        && ((e.closed ==> records == []) ==> Advanced(e, r.value.entry, records))
        && r.value.entry == Push(e, records).(notices := r.value.entry.notices)
        && r.value.total == s.total + PayloadBytes(records) <= s.maxTotal
        && r.value.entry.totalBytes <= s.maxStream
        && (records != [] ==> r.value.entry.notices > e.notices)
  {
    if records == [] {
      assert Push(e, records).messages == e.messages;
    }
  }

  lemma NothingAdvanced(e: Entry, e': Entry)
    requires e' == e.(config := e'.config, producers := e'.producers)
    requires e.state.Active?
    ensures Advanced(e, e', [])
  {
    assert Push(e, []).messages == e.messages;
  }

  lemma SameKeeps(s: Store, t: int, now: int, touched: Option<string>)
    requires Inv(s, t) && t <= now
    ensures Inv(s, now)
    ensures Evolves(s.streams, s.streams, touched, false)
  {
  }

  lemma AppendKeeps(
    s: Store, name: string, records: seq<Bytes>, ct: string, sequence: Option<string>, close: bool, t: int, now: int)
    requires Inv(s, t) && t <= now
    ensures var o := AppendBatch(s, name, records, ct, sequence, close, now);
      Inv(o.store, now) && Evolves(s.streams, o.store.streams, Some(name), false)
  {
    hide WellStamped;
    SameKeeps(s, t, now, Some(name));
    var o := AppendBatch(s, name, records, ct, sequence, close, now);
    if o.reply.Ok? {
      var e := s.streams[name];
      CommitAdvances(s, e, records);
      PutKeeps(s, name, o.store.streams[name], records, o.store.total, t, now);
    }
  }

  lemma PruneKeeps(s: Store, name: string, e: Entry, t: int, now: int)
    requires Inv(s, t) && t <= now && name in s.streams && s.streams[name].state.Active?
    requires e == s.streams[name].(producers := e.producers)
    ensures Inv(Put(s, name, e, s.total), now)
    ensures Evolves(s.streams, Put(s, name, e, s.total).streams, Some(name), false)
  {
    hide WellStamped;
    NothingAdvanced(s.streams[name], e);
    PutKeeps(s, name, e, [], s.total, t, now);
  }

  lemma AcceptKeeps(
    s: Store, name: string, e: Entry, records: seq<Bytes>, p: ProducerHeaders, close: bool,
    sequence: Option<string>, t: int, now: int)
    requires Inv(s, t) && t <= now && name in s.streams && s.streams[name].state.Active? && !e.closed
    requires e == s.streams[name].(producers := e.producers)
    ensures var o := AcceptFromProducer(Put(s, name, e, s.total), name, e, records, p, close, sequence, now);
      Inv(o.store, now) && Evolves(s.streams, o.store.streams, Some(name), false)
  {
    hide Linked, Counted, Settled, Anchored, WellStamped, SumBytes, Evolves;
    var o := AcceptFromProducer(Put(s, name, e, s.total), name, e, records, p, close, sequence, now);
    PruneKeeps(s, name, e, t, now);
    if o.reply.Ok? {
      CommitAdvances(Put(s, name, e, s.total), e, records);
      assert o.store == Put(s, name, o.store.streams[name], o.store.total);
      PutKeeps(s, name, o.store.streams[name], records, o.store.total, t, now);
    }
  }

  lemma ClosedNeverAccepts(st: Option<Producer>, p: ProducerHeaders)
    ensures !CheckProducer(st, p, true).Accept?
  {
  }

  lemma ProducerAppendKeeps(
    s: Store, name: string, records: seq<Bytes>, ct: string, p: ProducerHeaders, close: bool,
    sequence: Option<string>, t: int, now: int)
    requires Inv(s, t) && t <= now
    ensures var o := AppendWithProducer(s, name, records, ct, p, close, sequence, now);
      Inv(o.store, now) && Evolves(s.streams, o.store.streams, Some(name), false)
  {
    hide Holds, Evolves, AcceptFromProducer, CheckProducer, PruneStale;
    SameKeeps(s, t, now, Some(name));
    if name in s.streams && CheckAccess(s.streams[name].config, s.streams[name].state, now).None? {
      var e := s.streams[name];
      var pruned := e.(producers := PruneStale(e.producers, now));
      PruneKeeps(s, name, pruned, t, now);
      if e.closed {
        ClosedNeverAccepts(ProducerOf(pruned.producers, p.id), p);
      } else {
        AcceptKeeps(s, name, pruned, records, p, close, sequence, t, now);
      }
    }
  }

  lemma ReadKeeps(s: Store, name: string, from: Offset, t: int, now: int)
    requires Inv(s, t) && t <= now
    ensures var o := Read(s, name, from, now);
      Inv(o.store, now) && Evolves(s.streams, o.store.streams, None, false)
  {
    hide WellStamped;
    SameKeeps(s, t, now, None);
    var o := Read(s, name, from, now);
    if o.reply.Ok? {
      NothingAdvanced(s.streams[name], o.store.streams[name]);
      PutKeeps(s, name, o.store.streams[name], [], s.total, t, now);
    }
  }

  // ---------------------------------------------------------------- deletion and the sweep

  lemma KeptEvolves(a: Catalog, b: Catalog, touched: Option<string>)
    requires KeptAll(a, b)
    ensures Evolves(a, b, touched, false)
  {
  }

  lemma BuryKeeps(s: Store, name: string, now: int)
    requires Inv(s, now) && name in s.streams
    requires s.streams[name].refCount > 0 || Expired(s.streams[name].config, now)
    ensures var s' := Put(s, name, s.streams[name].(state := Tombstone), s.total);
      Inv(s', now) && KeptAll(s.streams, s'.streams)
  {
    hide WellStamped;
    var c := s.streams;
    var e' := c[name].(state := Tombstone);
    var c' := c[name := e'];
    StampedSame(c[name], e');
    AccountsPut(s, name, e', s.total);
    LinksUnchanged(c, c');
    CountsUnchanged(c, c', None, None);
    AnchorsUnchanged(c, c');
  }

  lemma DeleteKeeps(s: Store, name: string, t: int, now: int)
    requires Inv(s, t) && t <= now
    ensures Inv(Delete(s, name).store, now)
    ensures Evolves(s.streams, Delete(s, name).store.streams, None, false)
  {
    hide WellStamped;
    SameKeeps(s, t, now, None);
    if name in s.streams && s.streams[name].state.Active? {
      if s.streams[name].refCount > 0 {
        BuryKeeps(s, name, now);
      } else {
        RemoveKeeps(s, name, now);
      }
      KeptEvolves(s.streams, Delete(s, name).store.streams, None);
    }
  }

  /** What the rest of a sweep relies on: streams gathered unreferenced are still so. */
  ghost predicate SweepReady(s: Store, now: int, expired: seq<(string, nat)>) {
    && (forall i :: 0 <= i < |expired| ==>
          && (expired[i].1 == 0 ==> expired[i].0 in s.streams && s.streams[expired[i].0].refCount == 0)
          && (expired[i].0 in s.streams ==> Expired(s.streams[expired[i].0].config, now)))
    && (forall i, j :: 0 <= i < j < |expired| ==> expired[i].0 != expired[j].0)
  }

  lemma SweepOneKeeps(s: Store, now: int, expired: seq<(string, nat)>)
    requires Inv(s, now) && expired != [] && SweepReady(s, now, expired)
    ensures var s' := SweepOne(s, expired[0].0, expired[0].1);
      Inv(s', now) && KeptAll(s.streams, s'.streams) && SweepReady(s', now, expired[1..])
  {
    hide WellStamped;
    var name := expired[0].0;
    var s' := SweepOne(s, name, expired[0].1);
    if expired[0].1 == 0 {
      RemoveKeeps(s, name, now);
      forall i | 0 < i < |expired| && expired[i].1 == 0
        ensures expired[i].0 in s'.streams && s'.streams[expired[i].0].refCount == 0
      {
        RemoveSpares(s, name, now, expired[i].0);
      }
    } else if name in s.streams {
      BuryKeeps(s, name, now);
    }
  }

  lemma {:induction false} SweepKeeps(s: Store, now: int, expired: seq<(string, nat)>)
    requires Inv(s, now) && SweepReady(s, now, expired)
    ensures Inv(SweepAll(s, expired), now)
    ensures KeptAll(s.streams, SweepAll(s, expired).streams)
    decreases |expired|
  {
    hide WellStamped;
    if expired != [] {
      SweepOneKeeps(s, now, expired);
      SweepKeeps(SweepOne(s, expired[0].0, expired[0].1), now, expired[1..]);
    }
  }

  // ---------------------------------------------------------------- creation

  /** Insert a stream, counting it at its source. */
  function Inserted(c: Catalog, name: string, e: Entry): (c': Catalog) {
    if e.fork.Some? then AddReference(c[name := e], e.fork.value.source) else c[name := e]
  }

  predicate Insertable(c: Catalog, name: string, e: Entry) {
    && name !in c && e.refCount == 0 && e.state.Active?
    && (e.fork.Some? ==>
          var f := e.fork.value;
          f.source in c && !f.offset.Now? && !Less(c[f.source].Tail(), f.offset))
  }

  lemma LinksInsert(c: Catalog, name: string, e: Entry)
    requires Linked(c) && Insertable(c, name, e)
    ensures Linked(Inserted(c, name, e))
  {
    var c' := Inserted(c, name, e);
    var r := Rank(c);
    if e.fork.Some? {
      assert Climbs(c, r, e.fork.value.source);
    }
    var r' := r[name := if e.fork.Some? then r[e.fork.value.source] + 1 else 0];
    forall n | n in c' ensures Climbs(c', r', n) {
      if n != name {
        assert Climbs(c, r, n);
      }
    }
    assert Ranked(c', r');
  }

  lemma ChildrenInsert(c: Catalog, name: string, e: Entry, p: string)
    requires Anchored(c) && Insertable(c, name, e)
    ensures Children(Inserted(c, name, e), p)
         == if p == name then {} else if SourceOf(e) == Some(p) then Children(c, p) + {name} else Children(c, p)
  {
    var c' := Inserted(c, name, e);
    forall n | n in c' ensures p == name ==> n !in Children(c', p) {
      if n in c { assert AnchorHolds(c, n); }
    }
  }

  lemma CountsInsert(c: Catalog, name: string, e: Entry)
    requires Anchored(c) && Counted(c, None) && Insertable(c, name, e)
    ensures Counted(Inserted(c, name, e), None)
  {
    var c' := Inserted(c, name, e);
    forall p | p in c' ensures c'[p].refCount == |Children(c', p)| {
      ChildrenInsert(c, name, e, p);
      assert name !in Children(c, p);
    }
  }

  lemma AnchorsInsert(c: Catalog, name: string, e: Entry)
    requires Anchored(c) && Insertable(c, name, e)
    ensures Anchored(Inserted(c, name, e))
  {
    var c' := Inserted(c, name, e);
    forall n | n in c' ensures AnchorHolds(c', n) {
      if n in c { assert AnchorHolds(c, n); }
    }
  }

  lemma InsertKeeps(s: Store, name: string, e: Entry, total: nat, now: int)
    requires Inv(s, now) && Insertable(s.streams, name, e)
    requires WellStamped(e) && e.totalBytes <= s.maxStream && total == s.total + e.totalBytes <= s.maxTotal
    ensures Inv(s.(streams := Inserted(s.streams, name, e), total := total), now)
  {
    hide WellStamped;
    var c := s.streams;
    var s1 := Put(s, name, e, total);
    AccountsPut(s, name, e, total);
    if e.fork.Some? {
      var p := e.fork.value.source;
      var parent := s1.streams[p].(refCount := s1.streams[p].refCount + 1);
      StampedSame(s1.streams[p], parent);
      AccountsPut(s1, p, parent, total);
    }
    LinksInsert(c, name, e);
    CountsInsert(c, name, e);
    AnchorsInsert(c, name, e);
  }

  /** Across "remove what was there, insert anew" every other stream only continues. */
  lemma RebirthEvolves(a: Catalog, b: Catalog, name: string, e: Entry)
    requires KeptAll(a, b) && Anchored(b) && name !in b
    ensures Evolves(a, Inserted(b, name, e), Some(name), true)
  {
    var c := Inserted(b, name, e);
    forall n | n in c && n != name
      ensures n in a && Continues(a[n], c[n], false) && SourceOf(c[n]) != Some(name)
    {
      assert AnchorHolds(b, n);
    }
  }

  /** Clearing the way for a create: the path is free and the source, if active, still stands. */
  lemma ClearPath(s: Store, name: string, now: int)
    requires Inv(s, now)
    requires name in s.streams ==> s.streams[name].refCount == 0
    ensures var s1 := Remove(s, name);
      && Inv(s1, now) && KeptAll(s.streams, s1.streams) && name !in s1.streams
      && s1.maxTotal == s.maxTotal && s1.maxStream == s.maxStream
      && forall n :: n in s.streams && n != name && s.streams[n].state.Active? ==>
           n in s1.streams && s1.streams[n].state.Active?
  {
    hide WellStamped;
    if name in s.streams {
      RemoveKeeps(s, name, now);
      var s1 := Remove(s, name);
      forall n | n in s.streams && n != name && s.streams[n].state.Active?
        ensures n in s1.streams && s1.streams[n].state.Active?
      {
        RemoveSpares(s, name, now, n);
      }
    }
  }

  lemma NewRootStamped(config: Config)
    ensures WellStamped(NewEntry(config))
  {
  }

  lemma NewForkStamped(config: Config, fork: Fork)
    ensures WellStamped(ForkEntry(config, fork))
  {
  }

  lemma CreateRootKeeps(
    s: Store, name: string, options: Options, records: seq<Bytes>, close: bool, t: int, now: int)
    requires Inv(s, t) && t <= now
    ensures var o := CreateRoot(s, name, options, records, close, now);
      && Inv(o.store, now)
      && Evolves(s.streams, o.store.streams, Some(name), o.reply.Ok? && o.reply.value.Created?)
  {
    hide WellStamped;
    SameKeeps(s, t, now, Some(name));
    var o := CreateRoot(s, name, options, records, close, now);
    var config := Resolve(options, now);
    if config.Ok? && (name in s.streams ==> EvaluateRootCreate(s.streams[name], config.value, now).RemoveExpired?) {
      ClearPath(s, name, now);
      var s1 := Remove(s, name);
      KeptEvolves(s.streams, s1.streams, Some(name));
      if o.reply.Ok? {
        var blank := NewEntry(config.value);
        NewRootStamped(config.value);
        CommitAdvances(s1, blank, records);
        PushStamped(blank, records);
        var e := o.store.streams[name];
        StampedSame(Push(blank, records), e);
        InsertKeeps(s1, name, e, o.store.total, now);
        RebirthEvolves(s.streams, s1.streams, name, e);
      }
    }
  }

  lemma PlaceForkKeeps(s: Store, name: string, spec: ForkSpec, initial: seq<Bytes>, now: int)
    requires Inv(s, now)
    requires var f := spec.fork;
      && f.source in s.streams && s.streams[f.source].state.Active?
      && !Expired(s.streams[f.source].config, now)
      && !f.offset.Now? && !Less(s.streams[f.source].Tail(), f.offset)
    ensures var o := PlaceFork(s, name, spec, initial, now);
      && Inv(o.store, now)
      && Evolves(s.streams, o.store.streams, Some(name), o.reply.Ok? && o.reply.value.Created?)
  {
    hide WellStamped;
    SameKeeps(s, now, now, Some(name));
    var o := PlaceFork(s, name, spec, initial, now);
    if name in s.streams ==> EvaluateForkCreate(s.streams[name], spec.config, spec.fork, now).RemoveExpired? {
      ClearPath(s, name, now);
      var s1 := Remove(s, name);
      KeptEvolves(s.streams, s1.streams, Some(name));
      if o.reply.Ok? {
        var blank := ForkEntry(spec.config, spec.fork);
        NewForkStamped(spec.config, spec.fork);
        CommitAdvances(s1, blank, initial);
        PushStamped(blank, initial);
        var e := Commit(s1, blank, initial).value.entry;
        StampedSame(Push(blank, initial), e);
        InsertKeeps(s1, name, e, o.store.total, now);
        RebirthEvolves(s.streams, s1.streams, name, e);
      }
    }
  }

  lemma CreateForkKeeps(
    s: Store, name: string, source: string, at: Option<Offset>, options: Options, extra: ForkOptions, t: int, now: int)
    requires Inv(s, t) && t <= now
    ensures var o := CreateFork(s, name, source, at, options, extra, now);
      && Inv(o.store, now)
      && Evolves(s.streams, o.store.streams, Some(name), o.reply.Ok? && o.reply.value.Created?)
  {
    hide WellStamped;
    SameKeeps(s, t, now, Some(name));
    var resolved := Resolve(options, now);
    if resolved.Ok? && source in s.streams {
      var src := s.streams[source];
      var config := if extra.inheritContentType
                    then resolved.value.(contentType := src.config.contentType) else resolved.value;
      var spec := PrepareForkSpec(source, src, at, config, extra.subOffset, now);
      if spec.Ok? {
        var after := if extra.subOffset == 0 then []
                     else Data(Select(Seen(s.streams, source), spec.value.fork.offset, None));
        var initial := InitialForkMessages(spec.value.config, extra, after);
        if initial.Ok? {
          PlaceForkKeeps(s, name, spec.value, initial.value, now);
        }
      }
    }
  }

  lemma ReplaceEvolves(
    s: Store, name: string, options: Options, records: seq<Bytes>, close: bool, now: int)
    requires Counted(s.streams, None)
    ensures var o := Replace(s, name, options, records, close, now);
      Evolves(s.streams, o.store.streams, Some(name), o.reply.Ok?)
  {
    hide Resolve, Commit;
    var o := Replace(s, name, options, records, close, now);
    if o.reply.Ok? {
      var c, c' := s.streams, o.store.streams;
      assert Children(c, name) == {};
      forall n | n in c && n != name ensures SourceOf(c[n]) != Some(name) && c'[n] == c[n] {
        assert n !in Children(c, name);
      }
    }
  }

  lemma ReplaceKeeps(
    s: Store, name: string, options: Options, records: seq<Bytes>, close: bool, t: int, now: int)
    requires Inv(s, t) && t <= now
    ensures var o := Replace(s, name, options, records, close, now);
      && Inv(o.store, now)
      && Evolves(s.streams, o.store.streams, Some(name), o.reply.Ok?)
  {
    hide WellStamped, SumBytes, Linked, Evolves;
    ReplaceEvolves(s, name, options, records, close, now);
    SameKeeps(s, t, now, Some(name));
    var o := Replace(s, name, options, records, close, now);
    if o.reply.Ok? {
      var c, c' := s.streams, o.store.streams;
      var config := Resolve(options, now).value;
      var blank := NewEntry(config);
      NewRootStamped(config);
      CommitAdvances(s, blank, records);
      PushStamped(blank, records);
      StampedSame(Push(blank, records), c'[name]);
      assert c[name].totalBytes <= s.total by { SumRemove(c, name); }
      AccountsPut(s, name, c'[name], o.store.total);
      LinksUnchanged(c, c');
      CountsUnchanged(c, c', None, None);
      assert Children(c, name) == {};
      forall n | n in c' ensures AnchorHolds(c', n) {
        assert AnchorHolds(c, n) && n !in Children(c, name);
      }
    }
  }

  // ---------------------------------------------------------------- whole runs

  /** The stream whose contents an operation may change. */
  function Touched(op: Op): (n: Option<string>) {
    if op.SweepOp? || op.ReadOp? || op.DeleteOp? then None else Some(op.name)
  }

  /** The operation put a brand-new entry at its path. */
  predicate Reborn(op: Op, o: Outcome) {
    o.reply.Ok? && (o.reply.value.Created? || op.ReplaceOp?)
  }

  lemma SweepStepKeeps(s: Store, expired: seq<(string, nat)>, t: int, now: int)
    requires Inv(s, t) && t <= now && Gathered(s, now, expired)
    ensures Inv(SweepAll(s, expired), now)
    ensures Evolves(s.streams, SweepAll(s, expired).streams, None, false)
  {
    hide WellStamped;
    SameKeeps(s, t, now, None);
    SweepKeeps(s, now, expired);
    KeptEvolves(s.streams, SweepAll(s, expired).streams, None);
  }

  /** Every operation keeps the invariant, and streams it does not name only continue. */
  lemma StepKeeps(s: Store, op: Op, t: int, now: int)
    requires Inv(s, t) && t <= now && Admissible(s, op, now)
    ensures Inv(Step(s, op, now).store, now)
    ensures Evolves(s.streams, Step(s, op, now).store.streams, Touched(op), Reborn(op, Step(s, op, now)))
  {
    hide Holds, Evolves, CreateRoot, CreateFork, AppendBatch, AppendWithProducer, Read, Delete, Replace, SweepAll;
    var o := Step(s, op, now);
    match op
    case CreateRootOp(n, options, records, close) =>
      CreateRootKeeps(s, n, options, records, close, t, now);
    case CreateForkOp(n, source, at, options, extra) =>
      CreateForkKeeps(s, n, source, at, options, extra, t, now);
    case AppendOp(n, records, ct, sequence, close) =>
      AppendKeeps(s, n, records, ct, sequence, close, t, now);
      assert !Reborn(op, o) by { NotCreated(s, op, now); }
    case ProducerOp(n, records, ct, p, close, sequence) =>
      ProducerAppendKeeps(s, n, records, ct, p, close, sequence, t, now);
      assert !Reborn(op, o) by { NotCreated(s, op, now); }
    case ReadOp(n, from) =>
      ReadKeeps(s, n, from, t, now);
      assert !Reborn(op, o) by { NotCreated(s, op, now); }
    case DeleteOp(n) =>
      DeleteKeeps(s, n, t, now);
      assert !Reborn(op, o) by { NotCreated(s, op, now); }
    case ReplaceOp(n, options, records, close) =>
      ReplaceKeeps(s, n, options, records, close, t, now);
    case SweepOp(expired) =>
      SweepStepKeeps(s, expired, t, now);
  }

  lemma NotCreated(s: Store, op: Op, now: int)
    requires op.AppendOp? || op.ProducerOp? || op.ReadOp? || op.DeleteOp?
    ensures !Reborn(op, Step(s, op, now))
  {
  }

  datatype Event = Event(op: Op, now: int)

  function EmptyStore(maxTotal: nat, maxStream: nat): (s: Store) {
    Store(map[], 0, maxTotal, maxStream)
  }

  ghost function Run(s: Store, events: seq<Event>): (s': Store)
    decreases |events|
  {
    if events == [] then s else Run(Step(s, events[0].op, events[0].now).store, events[1..])
  }

  /** Clock readings never go back, and every sweep visits what it found expired. */
  ghost predicate Timely(s: Store, t: int, events: seq<Event>)
    decreases |events|
  {
    events == [] ||
    (&& t <= events[0].now
     && Admissible(s, events[0].op, events[0].now)
     && Timely(Step(s, events[0].op, events[0].now).store, events[0].now, events[1..]))
  }

  function EndTime(t: int, events: seq<Event>): (now: int) {
    if events == [] then t else events[|events| - 1].now
  }

  lemma {:induction false} RunKeeps(s: Store, t: int, events: seq<Event>)
    requires Inv(s, t) && Timely(s, t, events)
    ensures Inv(Run(s, events), EndTime(t, events))
    decreases |events|
  {
    hide Holds;
    if events != [] {
      var e := events[0];
      StepKeeps(s, e.op, t, e.now);
      RunKeeps(Step(s, e.op, e.now).store, e.now, events[1..]);
    }
  }

  /** A run put together from its first step and the rest. */
  lemma RunOne(s: Store, t: int, e: Event, s1: Store, rest: seq<Event>, last: Store)
    requires t <= e.now && Admissible(s, e.op, e.now) && Step(s, e.op, e.now).store == s1
    requires Timely(s1, e.now, rest) && Run(s1, rest) == last
    ensures Timely(s, t, [e] + rest) && Run(s, [e] + rest) == last
  {
    hide Step, Admissible;
    assert ([e] + rest)[0] == e && ([e] + rest)[1..] == rest;
  }

  /** The invariant of every reachable store. */
  lemma ReachableStores(maxTotal: nat, maxStream: nat, t: int, events: seq<Event>)
    requires maxTotal < U64
    requires Timely(EmptyStore(maxTotal, maxStream), t, events)
    ensures Inv(Run(EmptyStore(maxTotal, maxStream), events), EndTime(t, events))
  {
    var s := EmptyStore(maxTotal, maxStream);
    var rank: map<string, nat> := map[];
    assert Ranked(s.streams, rank);
    RunKeeps(s, t, events);
  }

  /** Equal but for idle producers of one stream that were forgotten. */
  ghost predicate OnlyPruned(s: Store, s': Store, now: int) {
    && s'.total == s.total && s'.streams.Keys == s.streams.Keys
    && (forall n :: n in s.streams ==>
          s'.streams[n] == s.streams[n]
          || s'.streams[n] == s.streams[n].(producers := PruneStale(s.streams[n].producers, now)))
  }

  lemma AcceptRefusal(
    s: Store, n: string, e: Entry, records: seq<Bytes>, p: ProducerHeaders, close: bool, sequence: Option<string>, now: int)
    ensures var o := AcceptFromProducer(s, n, e, records, p, close, sequence, now); o.reply.Err? ==> o.store == s
  {
    hide Commit, RenewTtl, ValidateSeq;
  }

  lemma ProducerRefusal(
    s: Store, n: string, records: seq<Bytes>, ct: string, p: ProducerHeaders, close: bool, sequence: Option<string>, now: int)
    requires AppendWithProducer(s, n, records, ct, p, close, sequence, now).reply.Err?
    ensures OnlyPruned(s, AppendWithProducer(s, n, records, ct, p, close, sequence, now).store, now)
  {
    hide PruneStale, CheckProducer, CheckAccess, SameContentType, AcceptFromProducer;
    if n in s.streams {
      var e := s.streams[n].(producers := PruneStale(s.streams[n].producers, now));
      AcceptRefusal(Put(s, n, e, s.total), n, e, records, p, close, sequence, now);
    }
  }

  lemma AppendRefusal(
    s: Store, n: string, records: seq<Bytes>, ct: string, sequence: Option<string>, close: bool, now: int)
    requires AppendBatch(s, n, records, ct, sequence, close, now).reply.Err?
    ensures AppendBatch(s, n, records, ct, sequence, close, now).store == s
  {
    hide PrecheckBatch, Commit, RenewTtl;
  }

  lemma ReplaceRefusal(s: Store, n: string, options: Options, records: seq<Bytes>, close: bool, now: int)
    requires Replace(s, n, options, records, close, now).reply.Err?
    ensures Replace(s, n, options, records, close, now).store == s
  {
    hide Commit, Resolve;
  }

  /** A refused append or replace changes no record, byte count or flag; at most idle producers are forgotten. */
  lemma RefusalChangesNothing(s: Store, op: Op, now: int)
    requires op.AppendOp? || op.ProducerOp? || op.ReplaceOp?
    requires Step(s, op, now).reply.Err?
    ensures var s' := Step(s, op, now).store; OnlyPruned(s, s', now) && (!op.ProducerOp? ==> s' == s)
  {
    hide AppendBatch, AppendWithProducer, Replace, PruneStale;
    match op
    case AppendOp(n, records, ct, sequence, close) => AppendRefusal(s, n, records, ct, sequence, close, now);
    case ProducerOp(n, records, ct, p, close, sequence) => ProducerRefusal(s, n, records, ct, p, close, sequence, now);
    case ReplaceOp(n, options, records, close) => ReplaceRefusal(s, n, options, records, close, now);
  }
}
