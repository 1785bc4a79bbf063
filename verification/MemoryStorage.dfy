/**
 The in-memory backend, updating its stream map and byte counter in place. Each
 operation is proved to be the corresponding step of the store state machine.
 */
module MemoryStorage {
  import opened Wrappers
  import opened Offsets
  import opened Streams
  import opened Lineage
  import opened Stores
  import opened StoreInvariant
  import opened StoreRuns
  import opened ForkStability

  class InMemoryStorage {
    var streams: Catalog
    var totalBytes: nat
    const maxTotal: nat
    const maxStream: nat
    /** The clock reading of the last operation. */
    ghost var clock: int

    ghost function State(): (s: Store)
      reads this
    {
      Store(streams, totalBytes, maxTotal, maxStream)
    }

    ghost predicate Valid()
      reads this
    {
      Inv(State(), clock)
    }

    constructor (maxTotal: nat, maxStream: nat, ghost now: int)
      requires maxTotal < U64
      ensures Valid() && clock == now
      ensures State() == EmptyStore(maxTotal, maxStream)
    {
      this.streams, this.totalBytes := map[], 0;
      this.maxTotal, this.maxStream := maxTotal, maxStream;
      this.clock := now;
      new;
      ReachableStores(maxTotal, maxStream, now, []);
    }

    // -------------------------------------------------------------- byte counter

    method ReserveBytes(bytes: nat) returns (ok: bool)
      modifies this`totalBytes
      ensures ok == (old(totalBytes) + bytes <= maxTotal)
      ensures totalBytes == old(totalBytes) + if ok then bytes else 0
    {
      ok := totalBytes + bytes <= maxTotal;
      if ok {
        totalBytes := totalBytes + bytes;
      }
    }

    method ReleaseBytes(bytes: nat)
      modifies this`totalBytes
      ensures totalBytes == SatSub(old(totalBytes), bytes)
    {
      totalBytes := SatSub(totalBytes, bytes);
    }

    /** Stamp and store a batch in a caller-held entry, all of it or none. */
    method CommitMessages(e: Entry, records: seq<Bytes>) returns (r: Result<Entry, Error>)
      modifies this`totalBytes
      ensures var spec := Commit(old(State()), e, records);
        if spec.Err? then r == Err(spec.error) && totalBytes == old(totalBytes)
        else r == Ok(spec.value.entry) && totalBytes == spec.value.total
      ensures r.Ok? ==> r.value.closed == e.closed && r.value.lastSeq == e.lastSeq
    {
      if records == [] {
        return Ok(e);
      }
      var bytes := PayloadBytes(records);
      var reserved := ReserveBytes(bytes);
      if !reserved {
        return Err(MemoryLimitExceeded);
      }
      if e.totalBytes + bytes > maxStream {
        ReleaseBytes(bytes);
        return Err(StreamSizeLimitExceeded);
      }
      var entry := e;
      for i := 0 to |records|
        invariant entry == Push(e, records[..i])
        invariant totalBytes == old(totalBytes) + bytes
      {
        var data := records[i];
        var offset := Concrete(entry.nextSeq, entry.nextByte);
        PushOneMore(e, records, i);
        entry := entry.(nextSeq := entry.nextSeq + 1,
                        nextByte := Advance(entry.nextByte, |data|),
                        totalBytes := entry.totalBytes + |data|,
                        messages := entry.messages + [Message(offset, data)]);
      }
      assert records[..|records|] == records;
      r := Ok(entry.(notices := entry.notices + 1));
    }

    // -------------------------------------------------------------- removal

    method HardRemove(name: string) returns (fork: Option<Fork>)
      modifies this`streams, this`totalBytes
      ensures name !in old(streams) ==> State() == old(State()) && fork == None
      ensures name in old(streams) ==> State() == Without(old(State()), name) && fork == old(streams)[name].fork
    {
      if name !in streams {
        return None;
      }
      var e := streams[name];
      streams := streams - {name};
      ReleaseBytes(e.totalBytes);
      fork := e.fork;
    }

    /** Walk up after a removal, collecting tombstones that lose their last fork. */
    method CascadeDelete(parent: string)
      modifies this`streams, this`totalBytes
      ensures State() == Cascade(old(State()), parent)
    {
      var current := parent;
      while current in streams
        invariant Cascade(State(), current) == Cascade(old(State()), parent)
        decreases |streams|
      {
        var e := streams[current];
        e := e.(refCount := SatSub(e.refCount, 1));
        if e.state.Tombstone? && e.refCount == 0 {
          ReleaseBytes(e.totalBytes);
          streams := streams - {current};
          if e.fork.None? {
            return;
          }
          current := e.fork.value.source;
        } else {
          streams := streams[current := e];
          return;
        }
      }
    }

    method RemoveForRecreate(name: string)
      modifies this`streams, this`totalBytes
      ensures State() == Remove(old(State()), name)
    {
      var fork := HardRemove(name);
      if fork.Some? {
        CascadeDelete(fork.value.source);
      }
    }

    method DeleteStream(name: string, ghost now: int) returns (r: Result<Reply, Error>)
      requires Valid() && clock <= now
      modifies this
      ensures Valid() && clock == now
      ensures Outcome(State(), r) == Step(old(State()), DeleteOp(name), now)
    {
      hide Holds, Evolves, Remove;
      StepKeeps(State(), DeleteOp(name), clock, now);
      clock := now;
      if name !in streams {
        return Err(NotFound);
      }
      var e := streams[name];
      if e.state.Tombstone? {
        return Err(StreamGone);
      }
      if e.refCount > 0 {
        streams := streams[name := e.(state := Tombstone)];
        return Ok(Deleted);
      }
      RemoveForRecreate(name);
      r := Ok(Deleted);
    }

    /** The expired streams, in whatever order the map yields its keys. */
    method GatherExpired(now: int) returns (found: seq<(string, nat)>)
      ensures Gathered(State(), now, found)
    {
      found := [];
      var rest := streams.Keys;
      while rest != {}
        invariant rest <= streams.Keys
        invariant forall i :: 0 <= i < |found| ==>
          found[i].0 in streams && found[i].0 !in rest && Expired(streams[found[i].0].config, now)
          && found[i].1 == streams[found[i].0].refCount
        invariant forall i, j :: 0 <= i < j < |found| ==> found[i].0 != found[j].0
        invariant FoundAll(streams, now, found, rest)
        decreases |rest|
      {
        var name :| name in rest;
        ghost var before := rest;
        rest := rest - {name};
        assert before == rest + {name};
        if Expired(streams[name].config, now) {
          FoundMore(streams, now, found, name, rest);
          found := found + [(name, streams[name].refCount)];
        }
      }
    }

    /** Decide every gathered stream by the reference count read before the sweep began. */
    method CleanupExpired(now: int) returns (removed: nat, ghost expired: seq<(string, nat)>)
      requires Valid() && clock <= now
      modifies this
      ensures Valid() && clock == now
      ensures Gathered(old(State()), now, expired) && removed == |expired|
      ensures State() == Step(old(State()), SweepOp(expired), now).store
    {
      hide Holds, Evolves, Gathered, Remove;
      var found := GatherExpired(now);
      expired := found;
      removed := |found|;
      SweepStepKeeps(State(), found, clock, now);
      clock := now;
      var i := 0;
      while i < |found|
        invariant 0 <= i <= |found|
        invariant clock == now
        invariant SweepAll(State(), found[i..]) == SweepAll(old(State()), found)
      {
        var (name, refs) := found[i];
        assert found[i..][1..] == found[i + 1..];
        if refs == 0 {
          RemoveForRecreate(name);
        } else if name in streams {
          streams := streams[name := streams[name].(state := Tombstone)];
        }
        i := i + 1;
      }
    }

    // -------------------------------------------------------------- reads

    method ReadLocal(e: Entry, from: Offset) returns (r: ReadResult)
      requires Ordered(e.messages)
      ensures r == ReadResult(Data(Select(e.messages, from, None)), e.Tail(), true, e.closed)
    {
      var start, end := MessageRange(e.messages, from, None);
      r := ReadResult(Data(e.messages[start..end]), e.Tail(), true, e.closed);
    }

    /** The source chain from `from` up to a fork point, tombstones included. */
    method ReadSourceChain(source: string, from: Offset, upTo: Offset) returns (all: seq<Bytes>)
      requires Valid()
      ensures all == Data(PlanRead(streams, Capped(Plan(streams, source, None), upTo), from))
    {
      AllOrdered(State(), clock);
      var plan := BuildReadPlan(streams, source);
      all := ReadSegments(streams, plan, from, Some(upTo));
    }

    method Prepare(e: Entry, from: Offset) returns (p: PendingRead)
      requires Ordered(e.messages)
      ensures p == PrepareRead(e, from)
    {
      if from.Now? {
        return Complete(ReadResult([], e.Tail(), true, e.closed));
      }
      var local := ReadLocal(e, from);
      match e.fork
      case None => p := Complete(local);
      case Some(info) => p := Forked(info, local);
    }

    method Finish(from: Offset, p: PendingRead) returns (r: ReadResult)
      requires Valid()
      ensures r == FinishRead(streams, from, p)
    {
      match p
      case Complete(result) => r := result;
      case Forked(info, local) =>
        r := local;
        if from.Start? || Less(from, info.offset) {
          var inherited := ReadSourceChain(info.source, from, info.offset);
          r := local.(messages := inherited + local.messages);
        }
    }

    method ReadStream(name: string, from: Offset, now: int) returns (r: Result<Reply, Error>)
      requires Valid() && clock <= now
      modifies this
      ensures Valid() && clock == now
      ensures Outcome(State(), r) == Step(old(State()), ReadOp(name, from), now)
    {
      hide Evolves, Counted, Settled, Anchored, Accounted, CheckAccess, RenewTtl, Select;
      StepKeeps(State(), ReadOp(name, from), clock, now);
      if name !in streams {
        clock := now;
        return Err(NotFound);
      }
      var e := streams[name];
      var denied := CheckAccess(e.config, e.state, now);
      if denied.Some? {
        clock := now;
        return Err(denied.value);
      }
      AllOrdered(State(), clock);
      var pending := Prepare(e, from);
      var result := Finish(from, pending);
      FinishMatchesView(streams, streams, name, from);
      clock := now;
      var config := RenewTtl(e.config, now);
      if config.Err? {
        return Err(config.error);
      }
      streams := streams[name := e.(config := config.value)];
      r := Ok(ReadBack(result));
    }

    // -------------------------------------------------------------- appends

    method Append(name: string, records: seq<Bytes>, contentType: string, sequence: Option<string>, close: bool, now: int)
      returns (r: Result<Reply, Error>)
      requires Valid() && clock <= now
      modifies this
      ensures Valid() && clock == now
      ensures Outcome(State(), r) == Step(old(State()), AppendOp(name, records, contentType, sequence, close), now)
    {
      hide Holds, Evolves, Commit, PrecheckBatch, RenewTtl;
      StepKeeps(State(), AppendOp(name, records, contentType, sequence, close), clock, now);
      clock := now;
      if records == [] && !close {
        return Err(EmptyBatch);
      }
      if name !in streams {
        return Err(NotFound);
      }
      var e := streams[name];
      var pending := PrecheckBatch(e, records != [], contentType, sequence, now);
      if pending.Err? {
        return Err(pending.error);
      }
      var start := e.Tail();
      var config := RenewTtl(e.config, now);
      if config.Err? {
        return Err(config.error);
      }
      var committed := CommitMessages(e, records);
      if committed.Err? {
        return Err(committed.error);
      }
      var entry := committed.value.(config := config.value);
      if pending.value.Some? {
        entry := entry.(lastSeq := pending.value);
      }
      entry := entry.(closed := entry.closed || close, notices := entry.notices + 1);
      streams := streams[name := entry];
      r := Ok(Appended(start, entry.Tail(), entry.closed));
    }

    method AppendFromProducer(
      name: string, records: seq<Bytes>, contentType: string, p: ProducerHeaders, close: bool,
      sequence: Option<string>, now: int)
      returns (r: Result<Reply, Error>)
      requires Valid() && clock <= now
      modifies this
      ensures Valid() && clock == now
      ensures Outcome(State(), r)
           == Step(old(State()), ProducerOp(name, records, contentType, p, close, sequence), now)
    {
      hide Holds, Evolves, AcceptFromProducer, CheckProducer, PruneStale;
      StepKeeps(State(), ProducerOp(name, records, contentType, p, close, sequence), clock, now);
      clock := now;
      if name !in streams {
        return Err(NotFound);
      }
      var e := streams[name];
      var denied := CheckAccess(e.config, e.state, now);
      if denied.Some? {
        return Err(denied.value);
      }
      e := e.(producers := PruneStale(e.producers, now));
      streams := streams[name := e];
      if records != [] && !SameContentType(e.config.contentType, contentType) {
        return Err(ContentTypeMismatch);
      }
      match CheckProducer(ProducerOf(e.producers, p.id), p, e.closed)
      case Reject(error) => return Err(error);
      case Duplicate(epoch, last) => return Ok(DuplicateOf(epoch, last, e.Tail(), e.closed));
      case Accept => r := AcceptRecords(name, e, records, p, close, sequence, now);
    }

    method AcceptRecords(
      name: string, e: Entry, records: seq<Bytes>, p: ProducerHeaders, close: bool, sequence: Option<string>, now: int)
      returns (r: Result<Reply, Error>)
      requires name in streams && streams[name] == e
      modifies this`streams, this`totalBytes
      ensures Outcome(State(), r) == AcceptFromProducer(old(State()), name, e, records, p, close, sequence, now)
    {
      hide Commit, RenewTtl, ValidateSeq;
      var pending := ValidateSeq(e.lastSeq, sequence);
      if pending.Err? {
        return Err(pending.error);
      }
      var config := RenewTtl(e.config, now);
      if config.Err? {
        return Err(config.error);
      }
      var committed := CommitMessages(e, records);
      if committed.Err? {
        return Err(committed.error);
      }
      var entry := committed.value;
      if close {
        entry := entry.(closed := true);
      }
      entry := entry.(config := config.value);
      if pending.value.Some? {
        entry := entry.(lastSeq := pending.value);
      }
      entry := entry.(producers := e.producers[p.id := Producer(p.epoch, p.sequence, now)]);
      streams := streams[name := entry];
      r := Ok(Accepted(p.epoch, p.sequence, entry.Tail(), entry.closed));
    }

    // -------------------------------------------------------------- creation and replacement

    method Create(name: string, options: Options, records: seq<Bytes>, close: bool, now: int)
      returns (r: Result<Reply, Error>)
      requires Valid() && clock <= now
      modifies this
      ensures Valid() && clock == now
      ensures Outcome(State(), r) == Step(old(State()), CreateRootOp(name, options, records, close), now)
    {
      hide Holds, Evolves, Commit, Resolve, Cascade;
      StepKeeps(State(), CreateRootOp(name, options, records, close), clock, now);
      clock := now;
      var config := Resolve(options, now);
      if config.Err? {
        return Err(config.error);
      }
      if name in streams {
        var existing := streams[name];
        match EvaluateRootCreate(existing, config.value, now)
        case RemoveExpired => RemoveForRecreate(name);
        case AlreadyExists => return Ok(Existing(existing.Tail(), existing.closed));
        case Conflict(error) => return Err(error);
      }
      var committed := CommitMessages(NewEntry(config.value), records);
      if committed.Err? {
        return Err(committed.error);
      }
      var entry := committed.value;
      if close || config.value.createdClosed {
        entry := entry.(closed := true);
      }
      streams := streams[name := entry];
      r := Ok(Created(entry.Tail(), entry.closed));
    }

    method ReplaceStream(name: string, options: Options, records: seq<Bytes>, close: bool, now: int)
      returns (r: Result<Reply, Error>)
      requires Valid() && clock <= now
      modifies this
      ensures Valid() && clock == now
      ensures Outcome(State(), r) == Step(old(State()), ReplaceOp(name, options, records, close), now)
    {
      hide Holds, Evolves, Commit, Resolve;
      StepKeeps(State(), ReplaceOp(name, options, records, close), clock, now);
      clock := now;
      var config := Resolve(options, now);
      if config.Err? {
        return Err(config.error);
      }
      if name !in streams {
        return Err(NotFound);
      }
      var current := streams[name];
      if current.refCount != 0 || current.fork.Some? {
        return Err(ReplacementHasForks);
      }
      var committed := CommitMessages(NewEntry(config.value), records);
      if committed.Err? {
        return Err(committed.error);
      }
      var entry := committed.value.(closed := close || config.value.createdClosed, notices := current.notices + 1);
      ReleaseBytes(current.totalBytes);
      streams := streams[name := entry];
      r := Ok(Appended(Concrete(0, 0), entry.Tail(), entry.closed));
    }

    /** The records after a fork anchor, needed only when a partial record is inherited. */
    method RecordsAfter(source: string, at: Offset) returns (all: seq<Bytes>)
      requires Valid()
      ensures all == Data(Select(View(streams, source), at, None))
    {
      AllOrdered(State(), clock);
      var plan := BuildReadPlan(streams, source);
      all := ReadSegments(streams, plan, at, None);
      PlanReadsView(streams, source, at, None);
    }

    method CreateForked(
      name: string, source: string, at: Option<Offset>, options: Options, extra: ForkOptions, now: int)
      returns (r: Result<Reply, Error>)
      requires Valid() && clock <= now
      modifies this
      ensures Valid() && clock == now
      ensures Outcome(State(), r) == Step(old(State()), CreateForkOp(name, source, at, options, extra), now)
    {
      hide Evolves, PlaceFork, PrepareForkSpec, InitialForkMessages;
      StepKeeps(State(), CreateForkOp(name, source, at, options, extra), clock, now);
      var resolved := Resolve(options, now);
      if resolved.Err? {
        clock := now;
        return Err(resolved.error);
      }
      var config := resolved.value;
      if source !in streams {
        clock := now;
        return Err(NotFound);
      }
      if extra.inheritContentType {
        config := config.(contentType := streams[source].config.contentType);
      }
      var spec := PrepareForkSpec(source, streams[source], at, config, extra.subOffset, now);
      if spec.Err? {
        clock := now;
        return Err(spec.error);
      }
      var after: seq<Bytes> := [];
      if extra.subOffset > 0 {
        after := RecordsAfter(source, spec.value.fork.offset);
      }
      clock := now;
      var initial := InitialForkMessages(spec.value.config, extra, after);
      if initial.Err? {
        return Err(initial.error);
      }
      r := PlaceForked(name, spec.value, initial.value, now);
    }

    method PlaceForked(name: string, spec: ForkSpec, initial: seq<Bytes>, now: int) returns (r: Result<Reply, Error>)
      modifies this`streams, this`totalBytes
      ensures Outcome(State(), r) == PlaceFork(old(State()), name, spec, initial, now)
    {
      if name in streams {
        var existing := streams[name];
        match EvaluateForkCreate(existing, spec.config, spec.fork, now)
        case RemoveExpired => RemoveForRecreate(name);
        case AlreadyExists => return Ok(Existing(existing.Tail(), existing.closed));
        case Conflict(error) => return Err(error);
      }
      var committed := CommitMessages(ForkEntry(spec.config, spec.fork), initial);
      if committed.Err? {
        return Err(committed.error);
      }
      streams := streams[name := committed.value];
      var source := spec.fork.source;
      if source in streams {
        streams := streams[source := streams[source].(refCount := streams[source].refCount + 1)];
      }
      r := Ok(Created(committed.value.Tail(), committed.value.closed));
    }
  }

  lemma PushOneMore(e: Entry, records: seq<Bytes>, i: nat)
    requires i < |records|
    ensures var p := Push(e, records[..i]);
      Push(e, records[..i + 1])
      == p.(nextSeq := p.nextSeq + 1,
            nextByte := Advance(p.nextByte, |records[i]|),
            totalBytes := p.totalBytes + |records[i]|,
            messages := p.messages + [Message(Concrete(p.nextSeq, p.nextByte), records[i])])
  {
    var one := [records[i]];
    assert records[..i + 1] == records[..i] + one;
    StampConcat(e.nextSeq, e.nextByte, records[..i], one);
    PayloadConcat(records[..i], one);
    assert one[1..] == [];
    assert Stamp(e.nextSeq + i, EndByte(e.nextByte, records[..i]), one)
        == [Message(Concrete(e.nextSeq + i, EndByte(e.nextByte, records[..i])), records[i])];
  }

  /** Every expired stream outside `rest` has been found. */
  ghost predicate FoundAll(c: Catalog, now: int, found: seq<(string, nat)>, rest: set<string>) {
    forall n :: n in c && n !in rest && Expired(c[n].config, now) ==> exists i :: 0 <= i < |found| && found[i].0 == n
  }

  lemma FoundMore(c: Catalog, now: int, found: seq<(string, nat)>, name: string, rest: set<string>)
    requires name in c && name !in rest && FoundAll(c, now, found, rest + {name})
    ensures FoundAll(c, now, found + [(name, c[name].refCount)], rest)
  {
    var found' := found + [(name, c[name].refCount)];
    forall n | n in c && n !in rest && Expired(c[n].config, now)
      ensures exists i :: 0 <= i < |found'| && found'[i].0 == n
    {
      if n == name {
        assert found'[|found|].0 == n;
      } else {
        var i :| 0 <= i < |found| && found[i].0 == n;
        assert found'[i].0 == n;
      }
    }
  }

  function CappedBy(plan: seq<Segment>, cap: Option<Offset>): (p: seq<Segment>) {
    if cap.None? then plan else Capped(plan, cap.value)
  }

  lemma PlanReadSnoc(c: Catalog, plan: seq<Segment>, i: nat, from: Offset)
    requires i < |plan|
    ensures PlanRead(c, plan[..i + 1], from)
         == PlanRead(c, plan[..i], from)
            + if plan[i].name in c then Select(c[plan[i].name].messages, from, plan[i].readUpTo) else []
  {
    assert plan[..i + 1] == plan[..i] + [plan[i]];
    PlanReadConcat(c, plan[..i], [plan[i]], from);
    assert [plan[i]][1..] == [];
  }

  /** Read a plan segment by segment, each under its own bound and the caller's. */
  method ReadSegments(c: Catalog, plan: seq<Segment>, from: Offset, cap: Option<Offset>) returns (all: seq<Bytes>)
    requires forall n :: n in c ==> Ordered(c[n].messages)
    ensures all == Data(PlanRead(c, CappedBy(plan, cap), from))
  {
    hide Ordered, PlanRead;
    ghost var segments := CappedBy(plan, cap);
    ghost var read: seq<Message> := [];
    all := [];
    assert PlanRead(c, segments[..0], from) == [] by { NoSegments(c, from); }
    for i := 0 to |plan|
      invariant read == PlanRead(c, segments[..i], from) && all == Data(read)
    {
      PlanReadSnoc(c, segments, i, from);
      if plan[i].name in c {
        var ms := c[plan[i].name].messages;
        var bound := if cap.None? then plan[i].readUpTo else MinBound(plan[i].readUpTo, cap.value);
        var start, end := MessageRange(ms, from, bound);
        all := all + Data(ms[start..end]);
        DataConcat(read, ms[start..end]);
        read := read + ms[start..end];
      }
    }
    assert segments[..|plan|] == segments;
  }

  lemma NoSegments(c: Catalog, from: Offset)
    ensures PlanRead(c, [], from) == []
  {
  }
}
