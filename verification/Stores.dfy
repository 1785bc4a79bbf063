/**
 The storage contract as a state machine over whole-store values. Every operation
 takes the store and one clock reading and gives the new store and a reply.
 */
module Stores {
  import opened Wrappers
  import opened Offsets
  import opened Streams
  import opened Lineage

  datatype Store = Store(streams: Catalog, total: nat, maxTotal: nat, maxStream: nat)

  datatype ReadResult = ReadResult(messages: seq<Bytes>, next: Offset, atTail: bool, closed: bool)

  datatype Reply =
    | Created(next: Offset, closed: bool)
    | Existing(next: Offset, closed: bool)
    | Appended(start: Offset, next: Offset, closed: bool)
    | Accepted(epoch: nat, sequence: nat, next: Offset, closed: bool)
    | DuplicateOf(epoch: nat, sequence: nat, next: Offset, closed: bool)
    | ReadBack(result: ReadResult)
    | Deleted
    | Swept(count: nat)

  datatype Outcome = Outcome(store: Store, reply: Result<Reply, Error>)

  function Failed(s: Store, e: Error): (o: Outcome) { Outcome(s, Err(e)) }

  function SatSub(a: nat, b: nat): (d: nat) { if a < b then 0 else a - b }

  function Put(s: Store, name: string, e: Entry, total: nat): (s': Store) {
    s.(streams := s.streams[name := e], total := total)
  }

  // ---------------------------------------------------------------- committing records

  datatype Committed = Committed(total: nat, entry: Entry)

  /** Global capacity is checked before the stream's own; a refusal changes nothing. */
  function Commit(s: Store, e: Entry, records: seq<Bytes>): (r: Result<Committed, Error>) {
    var bytes := PayloadBytes(records);
    if records == [] then Ok(Committed(s.total, e))
    else if s.total + bytes > s.maxTotal then Err(MemoryLimitExceeded)
    else if e.totalBytes + bytes > s.maxStream then Err(StreamSizeLimitExceeded)
    else Ok(Committed(s.total + bytes, Push(e, records).(notices := e.notices + 1)))
  }

  // ---------------------------------------------------------------- removal

  /** Drop one reference to `parent`, collecting tombstones that lose their last one. */
  function Cascade(s: Store, parent: string): (s': Store)
    decreases |s.streams|
  {
    if parent !in s.streams then s
    else
      var e := s.streams[parent];
      var refs := SatSub(e.refCount, 1);
      if e.state.Tombstone? && refs == 0 then
        var s1 := s.(streams := s.streams - {parent}, total := SatSub(s.total, e.totalBytes));
        if e.fork.Some? then Cascade(s1, e.fork.value.source) else s1
      else
        s.(streams := s.streams[parent := e.(refCount := refs)])
  }

  function Remove(s: Store, name: string): (s': Store) {
    if name !in s.streams then s
    else
      var e := s.streams[name];
      var s1 := s.(streams := s.streams - {name}, total := SatSub(s.total, e.totalBytes));
      if e.fork.Some? then Cascade(s1, e.fork.value.source) else s1
  }

  function Delete(s: Store, name: string): (o: Outcome) {
    if name !in s.streams then Failed(s, NotFound)
    else
      var e := s.streams[name];
      if e.state.Tombstone? then Failed(s, StreamGone)
      else if e.refCount > 0 then Outcome(Put(s, name, e.(state := Tombstone), s.total), Ok(Deleted))
      else Outcome(Remove(s, name), Ok(Deleted))
  }

  // ---------------------------------------------------------------- expiry sweep

  /** One stream of the sweep, decided by the reference count read before it began. */
  function SweepOne(s: Store, name: string, refs: nat): (s': Store) {
    if refs == 0 then Remove(s, name)
    else if name in s.streams then Put(s, name, s.streams[name].(state := Tombstone), s.total)
    else s
  }

  function SweepAll(s: Store, expired: seq<(string, nat)>): (s': Store)
    decreases |expired|
  {
    if expired == [] then s else SweepAll(SweepOne(s, expired[0].0, expired[0].1), expired[1..])
  }

  /** The expired streams in the map's own order, each once, with its reference count. */
  predicate Gathered(s: Store, now: int, expired: seq<(string, nat)>) {
    && (forall i :: 0 <= i < |expired| ==>
          expired[i].0 in s.streams
          && Expired(s.streams[expired[i].0].config, now)
          && expired[i].1 == s.streams[expired[i].0].refCount)
    && (forall i, j :: 0 <= i < j < |expired| ==> expired[i].0 != expired[j].0)
    && (forall n :: n in s.streams && Expired(s.streams[n].config, now) ==>
          exists i :: 0 <= i < |expired| && expired[i].0 == n)
  }

  // ---------------------------------------------------------------- appends

  function AppendBatch(
    s: Store, name: string, records: seq<Bytes>, contentType: string, sequence: Option<string>, close: bool, now: int)
    : (o: Outcome)
  {
    if records == [] && !close then Failed(s, EmptyBatch)
    else if name !in s.streams then Failed(s, NotFound)
    else
      var e := s.streams[name];
      var pending := PrecheckBatch(e, records != [], contentType, sequence, now);
      if pending.Err? then Failed(s, pending.error)
      else
        var config := RenewTtl(e.config, now);
        if config.Err? then Failed(s, config.error)
        else
          var c := Commit(s, e, records);
          if c.Err? then Failed(s, c.error)
          else
            var e' := c.value.entry.(
              config := config.value,
              lastSeq := if pending.value.Some? then pending.value else e.lastSeq,
              closed := e.closed || close,
              notices := c.value.entry.notices + 1);
            Outcome(Put(s, name, e', c.value.total), Ok(Appended(e.Tail(), e'.Tail(), e'.closed)))
  }

  /** Stale producers are pruned before validation and stay pruned when it fails. */
  function AppendWithProducer(
    s: Store, name: string, records: seq<Bytes>, contentType: string, p: ProducerHeaders, close: bool,
    sequence: Option<string>, now: int)
    : (o: Outcome)
  {
    if name !in s.streams then Failed(s, NotFound)
    else
      var e0 := s.streams[name];
      var denied := CheckAccess(e0.config, e0.state, now);
      if denied.Some? then Failed(s, denied.value)
      else
        var e := e0.(producers := PruneStale(e0.producers, now));
        var s1 := Put(s, name, e, s.total);
        if records != [] && !SameContentType(e.config.contentType, contentType) then Failed(s1, ContentTypeMismatch)
        else match CheckProducer(ProducerOf(e.producers, p.id), p, e.closed)
          case Reject(error) => Failed(s1, error)
          case Duplicate(epoch, last) => Outcome(s1, Ok(DuplicateOf(epoch, last, e.Tail(), e.closed)))
          case Accept => AcceptFromProducer(s1, name, e, records, p, close, sequence, now)
  }

  /** The mutation half of a producer append; `e` is the stored entry, stale producers pruned. */
  function AcceptFromProducer(
    s: Store, name: string, e: Entry, records: seq<Bytes>, p: ProducerHeaders, close: bool,
    sequence: Option<string>, now: int)
    : (o: Outcome)
  {
    var pending := ValidateSeq(e.lastSeq, sequence);
    if pending.Err? then Failed(s, pending.error)
    else
      var config := RenewTtl(e.config, now);
      if config.Err? then Failed(s, config.error)
      else
        var c := Commit(s, e, records);
        if c.Err? then Failed(s, c.error)
        else
          var e' := c.value.entry.(
            config := config.value,
            lastSeq := if pending.value.Some? then pending.value else e.lastSeq,
            closed := e.closed || close,
            producers := e.producers[p.id := Producer(p.epoch, p.sequence, now)]);
          Outcome(Put(s, name, e', c.value.total), Ok(Accepted(p.epoch, p.sequence, e'.Tail(), e'.closed)))
  }

  // ---------------------------------------------------------------- reads

  /** The view of a stream, on every catalog; ill-founded lineages never arise. */
  ghost function Seen(c: Catalog, name: string): (ms: seq<Message>) {
    if Linked(c) then View(c, name) else []
  }

  ghost function ReadView(c: Catalog, name: string, from: Offset): (r: ReadResult)
    requires name in c
  {
    var e := c[name];
    var messages := if from.Now? then [] else Data(Select(Seen(c, name), from, None));
    ReadResult(messages, e.Tail(), true, e.closed)
  }

  ghost function Read(s: Store, name: string, from: Offset, now: int): (o: Outcome)
  {
    if name !in s.streams then Failed(s, NotFound)
    else
      var e := s.streams[name];
      var denied := CheckAccess(e.config, e.state, now);
      if denied.Some? then Failed(s, denied.value)
      else
        var config := RenewTtl(e.config, now);
        if config.Err? then Failed(s, config.error)
        else Outcome(Put(s, name, e.(config := config.value), s.total), Ok(ReadBack(ReadView(s.streams, name, from))))
  }

  // ---------------------------------------------------------------- creation and replacement

  function CreateRoot(
    s: Store, name: string, options: Options, records: seq<Bytes>, close: bool, now: int)
    : (o: Outcome)
  {
    var config := Resolve(options, now);
    if config.Err? then Failed(s, config.error)
    else
      var d := if name in s.streams then EvaluateRootCreate(s.streams[name], config.value, now) else RemoveExpired;
      match d
      case Conflict(error) => Failed(s, error)
      case AlreadyExists =>
        if name in s.streams then Outcome(s, Ok(Existing(s.streams[name].Tail(), s.streams[name].closed)))
        else Failed(s, NotFound)
      case RemoveExpired =>
        var s1 := Remove(s, name);
        var c := Commit(s1, NewEntry(config.value), records);
        if c.Err? then Failed(s1, c.error)
        else
          var e := c.value.entry.(closed := close || config.value.createdClosed);
          Outcome(Put(s1, name, e, c.value.total), Ok(Created(e.Tail(), e.closed)))
  }

  function AddReference(c: Catalog, source: string): (c': Catalog) {
    if source in c then c[source := c[source].(refCount := c[source].refCount + 1)] else c
  }

  /** A fork starts at its anchor; the start sentinel counts as position zero. */
  function ForkEntry(config: Config, fork: Fork): (e: Entry) {
    NewEntry(config).(
      closed := config.createdClosed,
      nextSeq := if fork.offset.Concrete? then fork.offset.readSeq else 0,
      nextByte := if fork.offset.Concrete? then fork.offset.byteOffset else 0,
      fork := Some(fork))
  }

  ghost function CreateFork(
    s: Store, name: string, sourceName: string, at: Option<Offset>, options: Options, extra: ForkOptions, now: int)
    : (o: Outcome)
  {
    var resolved := Resolve(options, now);
    if resolved.Err? then Failed(s, resolved.error)
    else if sourceName !in s.streams then Failed(s, NotFound)
    else
      var source := s.streams[sourceName];
      var config := if extra.inheritContentType
                    then resolved.value.(contentType := source.config.contentType) else resolved.value;
      var spec := PrepareForkSpec(sourceName, source, at, config, extra.subOffset, now);
      if spec.Err? then Failed(s, spec.error)
      else
        var after := if extra.subOffset == 0 then []
                     else Data(Select(Seen(s.streams, sourceName), spec.value.fork.offset, None));
        var initial := InitialForkMessages(spec.value.config, extra, after);
        if initial.Err? then Failed(s, initial.error)
        else PlaceFork(s, name, spec.value, initial.value, now)
  }

  function PlaceFork(s: Store, name: string, spec: ForkSpec, initial: seq<Bytes>, now: int): (o: Outcome) {
    var d := if name in s.streams then EvaluateForkCreate(s.streams[name], spec.config, spec.fork, now)
             else RemoveExpired;
    match d
    case Conflict(error) => Failed(s, error)
    case AlreadyExists =>
      if name in s.streams then Outcome(s, Ok(Existing(s.streams[name].Tail(), s.streams[name].closed)))
      else Failed(s, NotFound)
    case RemoveExpired =>
      var s1 := Remove(s, name);
      var c := Commit(s1, ForkEntry(spec.config, spec.fork), initial);
      if c.Err? then Failed(s1, c.error)
      else
        var e := c.value.entry;
        var s2 := Put(s1, name, e, c.value.total);
        Outcome(s2.(streams := AddReference(s2.streams, spec.fork.source)), Ok(Created(e.Tail(), e.closed)))
  }

  function Replace(s: Store, name: string, options: Options, records: seq<Bytes>, closed: bool, now: int)
    : (o: Outcome)
  {
    var config := Resolve(options, now);
    if config.Err? then Failed(s, config.error)
    else if name !in s.streams then Failed(s, NotFound)
    else
      var previous := s.streams[name];
      if previous.refCount != 0 || previous.fork.Some? then Failed(s, ReplacementHasForks)
      else
        var c := Commit(s, NewEntry(config.value), records);
        if c.Err? then Failed(s, c.error)
        else
          var e := c.value.entry.(closed := closed || config.value.createdClosed, notices := previous.notices + 1);
          Outcome(Put(s, name, e, SatSub(c.value.total, previous.totalBytes)),
                  Ok(Appended(Concrete(0, 0), e.Tail(), e.closed)))
  }

  // ---------------------------------------------------------------- operations

  datatype Op =
    | CreateRootOp(name: string, options: Options, records: seq<Bytes>, close: bool)
    | CreateForkOp(name: string, source: string, at: Option<Offset>, options: Options, extra: ForkOptions)
    | AppendOp(name: string, records: seq<Bytes>, contentType: string, sequence: Option<string>, close: bool)
    | ProducerOp(name: string, records: seq<Bytes>, contentType: string, producer: ProducerHeaders, close: bool,
                 sequence: Option<string>)
    | ReadOp(name: string, from: Offset)
    | DeleteOp(name: string)
    | ReplaceOp(name: string, options: Options, records: seq<Bytes>, close: bool)
    | SweepOp(expired: seq<(string, nat)>)

  predicate Admissible(s: Store, op: Op, now: int) {
    op.SweepOp? ==> Gathered(s, now, op.expired)
  }

  ghost function Step(s: Store, op: Op, now: int): (o: Outcome)
  {
    match op
    case CreateRootOp(n, options, records, close) => CreateRoot(s, n, options, records, close, now)
    case CreateForkOp(n, source, at, options, extra) => CreateFork(s, n, source, at, options, extra, now)
    case AppendOp(n, records, ct, sequence, close) => AppendBatch(s, n, records, ct, sequence, close, now)
    case ProducerOp(n, records, ct, p, close, sequence) => AppendWithProducer(s, n, records, ct, p, close, sequence, now)
    case ReadOp(n, from) => Read(s, n, from, now)
    case DeleteOp(n) => Delete(s, n)
    case ReplaceOp(n, options, records, close) => Replace(s, n, options, records, close, now)
    case SweepOp(expired) => Outcome(SweepAll(s, expired), Ok(Swept(|expired|)))
  }
}
