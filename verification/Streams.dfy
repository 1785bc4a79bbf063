/** Stream entries and the policy rules every storage backend shares. */
module Streams {
  import opened Wrappers
  import opened Offsets
  import Lex
  import Utf8

  type Bytes = seq<Utf8.Byte>

  /** Seconds since the Unix epoch; the last instant a deadline may name. */
  const MAX_UTC: int := 8_210_266_876_799
  const PRODUCER_STATE_TTL_SECS: int := 7 * 24 * 60 * 60

  datatype Error =
    | NotFound
    | StreamGone
    | StreamExpired
    | StreamClosed
    | ContentTypeMismatch
    | SeqOrderingViolation
    | EmptyBatch
    | InvalidContentType
    | InvalidTtl
    | InvalidSubOffset
    | InvalidBody
    | MemoryLimitExceeded
    | StreamSizeLimitExceeded
    | ConfigMismatch
    | StreamPathBlocked
    | ForkFromTombstone
    | ForkOffsetBeyondTail
    | ReplacementHasForks
    | EpochFenced(current: nat, received: nat)
    | SequenceGap(expected: nat, actual: nat)
    | InvalidProducerState

  datatype Config = Config(contentType: string, ttl: Option<nat>, expiresAt: Option<int>, createdClosed: bool)

  datatype Expiry = Never | Sliding(seconds: nat) | At(deadline: int)

  datatype Options = Options(contentType: string, expiry: Expiry, createdClosed: bool)

  datatype Fork = Fork(source: string, offset: Offset, subOffset: nat)

  /** `body` holds the records of the initial body, or `None` when it does not parse. */
  datatype ForkOptions = ForkOptions(subOffset: nat, inheritContentType: bool, body: Option<seq<Bytes>>)

  datatype Lifecycle = Active | Tombstone

  datatype Message = Message(offset: Offset, data: Bytes)

  datatype Producer = Producer(epoch: nat, lastSeq: nat, updatedAt: int)

  datatype ProducerHeaders = ProducerHeaders(id: string, epoch: nat, sequence: nat)

  /** `notices` counts the sends on the stream's notification channel. */
  datatype Entry = Entry(
    config: Config,
    messages: seq<Message>,
    closed: bool,
    nextSeq: nat,
    nextByte: nat,
    totalBytes: nat,
    producers: map<string, Producer>,
    lastSeq: Option<string>,
    fork: Option<Fork>,
    refCount: nat,
    state: Lifecycle,
    notices: nat)
  {
    function Tail(): (t: Offset) { Concrete(nextSeq, nextByte) }
  }

  function NewEntry(config: Config): (e: Entry) {
    Entry(config, [], false, 0, 0, 0, map[], None, None, 0, Active, 0)
  }

  // ---------------------------------------------------------------- expiry

  predicate Expired(config: Config, now: int) {
    config.expiresAt.Some? && config.expiresAt.value <= now
  }

  function Deadline(seconds: nat, now: int): (d: Option<int>) {
    if now + seconds <= MAX_UTC then Some(now + seconds) else None
  }

  /** Custom configuration equality: a sliding deadline drifts, so it is not compared. */
  predicate SameConfig(a: Config, b: Config) {
    && a.contentType == b.contentType
    && a.ttl == b.ttl
    && a.createdClosed == b.createdClosed
    && (a.ttl.Some? || a.expiresAt == b.expiresAt)
  }

  function Resolve(o: Options, now: int): (r: Result<Config, Error>) {
    if o.contentType == "" then Err(InvalidContentType)
    else match o.expiry
      case Never => Ok(Config(o.contentType, None, None, o.createdClosed))
      case At(d) => Ok(Config(o.contentType, None, Some(d), o.createdClosed))
      case Sliding(s) =>
        var d := Deadline(s, now);
        if d.None? then Err(InvalidTtl) else Ok(Config(o.contentType, Some(s), d, o.createdClosed))
  }

  function RenewTtl(c: Config, now: int): (r: Result<Config, Error>) {
    if c.ttl.None? then Ok(c)
    else
      var d := Deadline(c.ttl.value, now);
      if d.None? then Err(InvalidTtl) else Ok(c.(expiresAt := d))
  }

  // ---------------------------------------------------------------- access rules

  function CheckAccess(c: Config, state: Lifecycle, now: int): (r: Option<Error>) {
    if state.Tombstone? then Some(StreamGone)
    else if Expired(c, now) then Some(StreamExpired)
    else None
  }

  function CheckForkSource(c: Config, state: Lifecycle, now: int): (r: Option<Error>) {
    if state.Tombstone? then Some(ForkFromTombstone)
    else if Expired(c, now) then Some(StreamExpired)
    else None
  }

  function LowerChar(c: char): (d: char) {
    if 'A' <= c <= 'Z' then (c as int + 32) as char else c
  }

  function Lower(s: string): (t: string) {
    seq(|s|, i requires 0 <= i < |s| => LowerChar(s[i]))
  }

  predicate SameContentType(a: string, b: string) {
    Lower(a) == Lower(b)
  }

  function ValidateSeq(last: Option<string>, next: Option<string>): (r: Result<Option<string>, Error>) {
    if next.Some? && last.Some? && Lex.AtMost(next.value, last.value) then Err(SeqOrderingViolation)
    else Ok(next)
  }

  function PrecheckBatch(e: Entry, hasData: bool, contentType: string, sequence: Option<string>, now: int)
    : (r: Result<Option<string>, Error>)
  {
    var denied := CheckAccess(e.config, e.state, now);
    if denied.Some? then Err(denied.value)
    else if hasData && e.closed then Err(StreamClosed)
    else if hasData && !SameContentType(e.config.contentType, contentType) then Err(ContentTypeMismatch)
    else ValidateSeq(e.lastSeq, sequence)
  }

  // ---------------------------------------------------------------- create, delete and replace rules

  datatype CreateDisposition = RemoveExpired | AlreadyExists | Conflict(error: Error)

  function ExistingPath(e: Entry, now: int): (d: Option<CreateDisposition>) {
    if Expired(e.config, now) then
      Some(if e.refCount > 0 then Conflict(StreamPathBlocked) else RemoveExpired)
    else if e.state.Tombstone? then Some(Conflict(StreamPathBlocked))
    else None
  }

  function EvaluateRootCreate(e: Entry, config: Config, now: int): (d: CreateDisposition) {
    var path := ExistingPath(e, now);
    if path.Some? then path.value
    else if SameConfig(e.config, config) then AlreadyExists
    else Conflict(ConfigMismatch)
  }

  function EvaluateForkCreate(e: Entry, config: Config, fork: Fork, now: int): (d: CreateDisposition) {
    var path := ExistingPath(e, now);
    if path.Some? then path.value
    else if SameConfig(e.config, config) && e.fork == Some(fork) then AlreadyExists
    else Conflict(ConfigMismatch)
  }

  function ResolveForkOffset(requested: Option<Offset>, tail: Offset): (r: Result<Offset, Error>) {
    if requested.None? then Ok(tail)
    else if Less(tail, requested.value) then Err(ForkOffsetBeyondTail)
    else Ok(requested.value)
  }

  /** Explicit fork expiry first, then the source's sliding TTL, then its fixed deadline. */
  function ForkConfig(source: Config, requested: Config, now: int): (r: Result<Config, Error>) {
    var base := Config(source.contentType, None, None, requested.createdClosed);
    if requested.ttl.Some? then RenewTtl(base.(ttl := requested.ttl), now)
    else if requested.expiresAt.Some? then Ok(base.(expiresAt := requested.expiresAt))
    else if source.ttl.Some? then RenewTtl(base.(ttl := source.ttl), now)
    else Ok(base.(expiresAt := source.expiresAt))
  }

  datatype ForkSpec = ForkSpec(fork: Fork, config: Config)

  function PrepareForkSpec(
    sourceName: string, source: Entry, requested: Option<Offset>, config: Config, subOffset: nat, now: int)
    : (r: Result<ForkSpec, Error>)
  {
    var denied := CheckForkSource(source.config, source.state, now);
    if denied.Some? then Err(denied.value)
    else
      var at := ResolveForkOffset(requested, source.Tail());
      if at.Err? then Err(at.error)
      else if !SameContentType(source.config.contentType, config.contentType) then Err(ContentTypeMismatch)
      else
        var c := ForkConfig(source.config, config, now);
        if c.Err? then Err(c.error) else Ok(ForkSpec(Fork(sourceName, at.value, subOffset), c.value))
  }

  /** The partial inherited record or records, then the initial body. */
  function InitialForkMessages(config: Config, options: ForkOptions, after: seq<Bytes>)
    : (r: Result<seq<Bytes>, Error>)
  {
    var n := options.subOffset;
    var json := config.contentType == "application/json";
    if n > 0 && json && n > |after| then Err(InvalidSubOffset)
    else if n > 0 && !json && (|after| == 0 || n > |after[0]|) then Err(InvalidSubOffset)
    else if options.body.None? then Err(InvalidBody)
    else
      var prefix := if n == 0 then [] else if json then after[..n] else [after[0][..n]];
      Ok(prefix + options.body.value)
  }

  // ---------------------------------------------------------------- producer sequencing

  datatype ProducerCheck = Accept | Duplicate(epoch: nat, sequence: nat) | Reject(error: Error)

  function CheckProducer(existing: Option<Producer>, p: ProducerHeaders, closed: bool): (c: ProducerCheck) {
    if existing.Some? then
      var st := existing.value;
      if p.epoch < st.epoch then Reject(EpochFenced(st.epoch, p.epoch))
      else if p.epoch == st.epoch && p.sequence <= st.lastSeq then Duplicate(st.epoch, st.lastSeq)
      else if closed then Reject(StreamClosed)
      else if p.epoch > st.epoch && p.sequence != 0 then Reject(InvalidProducerState)
      else if p.epoch == st.epoch && p.sequence > st.lastSeq + 1 then Reject(SequenceGap(st.lastSeq + 1, p.sequence))
      else Accept
    else if closed then Reject(StreamClosed)
    else if p.sequence != 0 then Reject(SequenceGap(0, p.sequence))
    else Accept
  }

  predicate Retained(p: Producer, now: int) {
    p.updatedAt > now - PRODUCER_STATE_TTL_SECS
  }

  function PruneStale(producers: map<string, Producer>, now: int): (kept: map<string, Producer>) {
    map id | id in producers && Retained(producers[id], now) :: producers[id]
  }

  function ProducerOf(producers: map<string, Producer>, id: string): (p: Option<Producer>) {
    if id in producers then Some(producers[id]) else None
  }

  // ---------------------------------------------------------------- stamping records

  function PayloadBytes(records: seq<Bytes>): (n: nat) {
    if records == [] then 0 else |records[0]| + PayloadBytes(records[1..])
  }

  /** 64-bit addition as the release profile performs it. */
  function Advance(byteOffset: nat, length: nat): (n: nat) {
    (byteOffset + length) % U64
  }

  function EndByte(byteOffset: nat, records: seq<Bytes>): (n: nat)
    decreases |records|
  {
    if records == [] then byteOffset else EndByte(Advance(byteOffset, |records[0]|), records[1..])
  }

  /** Records stamped with consecutive positions from `(readSeq, byteOffset)`. */
  function Stamp(readSeq: nat, byteOffset: nat, records: seq<Bytes>): (ms: seq<Message>)
    ensures |ms| == |records|
    decreases |records|
  {
    if records == [] then []
    else [Message(Concrete(readSeq, byteOffset), records[0])]
         + Stamp(readSeq + 1, Advance(byteOffset, |records[0]|), records[1..])
  }

  function Data(ms: seq<Message>): (ds: seq<Bytes>) {
    seq(|ms|, i requires 0 <= i < |ms| => ms[i].data)
  }

  /** Append records at the tail of an entry. */
  function Push(e: Entry, records: seq<Bytes>): (e': Entry) {
    e.(messages := e.messages + Stamp(e.nextSeq, e.nextByte, records),
       nextSeq := e.nextSeq + |records|,
       nextByte := EndByte(e.nextByte, records),
       totalBytes := e.totalBytes + PayloadBytes(records))
  }

  // ---------------------------------------------------------------- facts about stamping

  lemma {:induction false} StampAt(readSeq: nat, byteOffset: nat, records: seq<Bytes>, i: nat)
    requires i < |records|
    ensures var m := Stamp(readSeq, byteOffset, records)[i];
            m == Message(Concrete(readSeq + i, EndByte(byteOffset, records[..i])), records[i])
    decreases |records|
  {
    if i > 0 {
      StampAt(readSeq + 1, Advance(byteOffset, |records[0]|), records[1..], i - 1);
      assert records[..i][1..] == records[1..][..i - 1];
    }
  }

  lemma {:induction false} EndByteConcat(byteOffset: nat, a: seq<Bytes>, b: seq<Bytes>)
    ensures EndByte(byteOffset, a + b) == EndByte(EndByte(byteOffset, a), b)
    decreases |a|
  {
    hide Advance;
    if a == [] {
      assert a + b == b;
    } else {
      assert (a + b)[0] == a[0] && (a + b)[1..] == a[1..] + b;
      EndByteConcat(Advance(byteOffset, |a[0]|), a[1..], b);
    }
  }

  lemma StampFirst(readSeq: nat, byteOffset: nat, records: seq<Bytes>)
    requires records != []
    ensures Stamp(readSeq, byteOffset, records)
         == [Message(Concrete(readSeq, byteOffset), records[0])]
            + Stamp(readSeq + 1, Advance(byteOffset, |records[0]|), records[1..])
    ensures EndByte(byteOffset, records) == EndByte(Advance(byteOffset, |records[0]|), records[1..])
  {
  }

  lemma {:induction false} StampConcat(readSeq: nat, byteOffset: nat, a: seq<Bytes>, b: seq<Bytes>)
    ensures EndByte(byteOffset, a + b) == EndByte(EndByte(byteOffset, a), b)
    ensures Stamp(readSeq, byteOffset, a + b)
         == Stamp(readSeq, byteOffset, a) + Stamp(readSeq + |a|, EndByte(byteOffset, a), b)
    decreases |a|
  {
    EndByteConcat(byteOffset, a, b);
    if a == [] {
      assert a + b == b;
    } else {
      hide Stamp, EndByte, Advance;
      StampFirst(readSeq, byteOffset, a + b);
      StampFirst(readSeq, byteOffset, a);
      assert (a + b)[0] == a[0] && (a + b)[1..] == a[1..] + b;
      StampConcat(readSeq + 1, Advance(byteOffset, |a[0]|), a[1..], b);
    }
  }

  lemma {:induction false} PayloadConcat(a: seq<Bytes>, b: seq<Bytes>)
    ensures PayloadBytes(a + b) == PayloadBytes(a) + PayloadBytes(b)
    decreases |a|
  {
    if a == [] {
      assert a + b == b;
    } else {
      assert (a + b)[0] == a[0] && (a + b)[1..] == a[1..] + b;
      PayloadConcat(a[1..], b);
    }
  }

  lemma DataOfStamp(readSeq: nat, byteOffset: nat, records: seq<Bytes>)
    ensures Data(Stamp(readSeq, byteOffset, records)) == records
  {
    forall i | 0 <= i < |records|
      ensures Data(Stamp(readSeq, byteOffset, records))[i] == records[i]
    {
      StampAt(readSeq, byteOffset, records, i);
    }
  }

  /** While no addition wraps, the end position is the plain sum. */
  lemma {:induction false} EndByteIsSum(byteOffset: nat, records: seq<Bytes>)
    requires byteOffset + PayloadBytes(records) < U64
    ensures EndByte(byteOffset, records) == byteOffset + PayloadBytes(records)
    decreases |records|
  {
    if records != [] {
      assert Advance(byteOffset, |records[0]|) == byteOffset + |records[0]|;
      EndByteIsSum(Advance(byteOffset, |records[0]|), records[1..]);
    }
  }
}
