/** Subscription control state and the transactions that change it. */
module Subscriptions {
  import opened Wrappers
  import Offsets
  import OffsetCodec
  import Lex
  import Glob

  datatype Kind = Webhook | PullWake

  datatype Configuration = Configuration(
    kind: Kind,
    pattern: Option<string>,
    streams: set<string>,
    webhook: Option<string>,
    wakeStream: Option<string>,
    leaseTtl: int,
    description: Option<string>)

  /** An injective stand-in for a signed token. */
  datatype Token = Token(subscription: string, generation: nat, wakeId: string)

  datatype Link = Link(explicit: bool, acked: string)

  datatype Snapshot = Snapshot(acked: string, tail: string, hasPending: bool)

  datatype Wake = Wake(
    id: string,
    generation: nat,
    streams: map<string, Snapshot>,
    token: Option<Token>,
    holder: Option<string>,
    leaseUntil: Option<int>,
    delivered: bool)

  datatype Subscription = Subscription(
    config: Configuration,
    links: map<string, Link>,
    generation: nat,
    wake: Option<Wake>,
    deleted: bool,
    nextAttemptAt: int,
    attempts: nat,
    failed: bool)

  type Database = map<string, Subscription>

  /** Stream tails as printed offsets. */
  type Tails = map<string, string>

  datatype ApiError =
    | Fenced
    | Missing
    | InvalidAck
    | InvalidPath
    | InvalidConfig
    | InvalidWorker
    | InvalidWakeStream
    | ConfigMismatch
    | AlreadyClaimed(holder: string, generation: nat)
    | NoPendingWork
    | GenerationExhausted

  // ---------------------------------------------------------------- configuration

  predicate InvalidSegment(s: string) {
    s == "" || s == "." || s == ".."
  }

  /** The length of the UTF-8 form. */
  function ByteLength(s: string): (n: nat)
    decreases |s|
  {
    if s == "" then 0
    else
      var c := s[|s| - 1];
      ByteLength(s[..|s| - 1])
      + (if c < '\U{80}' then 1 else if c < '\U{800}' then 2 else if c < '\U{10000}' then 3 else 4)
  }

  /** The Unicode control characters. */
  predicate IsControl(c: char) {
    c < ' ' || '\U{7F}' <= c <= '\U{9F}'
  }

  /** The characters with the Unicode property White_Space. */
  predicate IsWhite(c: char) {
    || '\t' <= c <= '\r' || c == ' ' || c == '\U{85}' || c == '\U{A0}' || c == '\U{1680}'
    || '\U{2000}' <= c <= '\U{200A}' || c == '\U{2028}' || c == '\U{2029}' || c == '\U{202F}' || c == '\U{205F}'
    || c == '\U{3000}'
  }

  predicate ValidPath(path: string) {
    var segments := Glob.Split(path);
    && path != "" && ByteLength(path) <= 1024 && |segments| <= 64
    && (forall i :: 0 <= i < |segments| ==> !InvalidSegment(segments[i]))
    && segments[0] != "__ds"
    && (forall i :: 0 <= i < |path| ==> !IsControl(path[i]))
  }

  predicate Matches(c: Configuration, path: string) {
    c.pattern.Some? && Glob.Matches(Glob.Split(c.pattern.value), Glob.Split(path))
  }

  /** Every wildcard fills its segment. */
  predicate WholeWildcards(pattern: string) {
    forall s :: s in Glob.Split(pattern) && '*' in s ==> s == "*" || s == "**"
  }

  /** The first objection to a configuration. */
  function ConfigError(c: Configuration): (e: Option<ApiError>) {
    if c.pattern.None? && c.streams == {} then Some(InvalidConfig)
    else if !(1_000 <= c.leaseTtl <= 600_000) then Some(InvalidConfig)
    else if c.pattern.Some? && !ValidPath(c.pattern.value) then Some(InvalidPath)
    else if c.pattern.Some? && !WholeWildcards(c.pattern.value) then Some(InvalidConfig)
    else if exists p :: p in c.streams && !ValidPath(p) then Some(InvalidPath)
    else if c.kind.Webhook? && (c.webhook.None? || c.wakeStream.Some?) then Some(InvalidConfig)
    else if c.kind.PullWake? && (c.wakeStream.None? || c.webhook.Some?) then Some(InvalidConfig)
    else if c.wakeStream.Some? && !ValidPath(c.wakeStream.value) then Some(InvalidPath)
    else if c.wakeStream.Some? && (Matches(c, c.wakeStream.value) || c.wakeStream.value in c.streams) then Some(InvalidConfig)
    else None
  }

  // ---------------------------------------------------------------- reconciliation

  function SnapshotOf(link: Link, tails: Tails, path: string): (s: Snapshot) {
    var tail := if path in tails then tails[path] else link.acked;
    Snapshot(link.acked, tail, Lex.Less(link.acked, tail))
  }

  function Snapshots(sub: Subscription, tails: Tails): (m: map<string, Snapshot>) {
    map p | p in sub.links :: SnapshotOf(sub.links[p], tails, p)
  }

  /** Some linked stream has records past its acknowledged offset. */
  predicate Pending(sub: Subscription, tails: Tails) {
    exists p :: p in sub.links && SnapshotOf(sub.links[p], tails, p).hasPending
  }

  predicate LeaseOver(sub: Subscription, now: int) {
    && sub.wake.Some? && sub.wake.value.leaseUntil.Some? && sub.wake.value.leaseUntil.value <= now && !sub.failed
  }

  /** Link newly matching streams from zero and drop a wake whose lease ran out. */
  function RefreshSub(sub: Subscription, tails: Tails, now: int): (s: Subscription) {
    if sub.deleted then sub
    else
      var matched := map p | p in tails && Matches(sub.config, p) :: Link(false, OffsetCodec.ZERO);
      var linked := sub.(links := matched + sub.links);
      if LeaseOver(linked, now) then linked.(wake := None, nextAttemptAt := now) else linked
  }

  function Refresh(db: Database, tails: Tails, now: int): (db': Database) {
    map id | id in db :: RefreshSub(db[id], tails, now)
  }

  function IssueWake(sub: Subscription, id: string, wakeId: string, tails: Tails, now: int)
    : (r: Result<Subscription, ApiError>)
  {
    var g := sub.generation + 1;
    if g >= Offsets.U64 then Err(GenerationExhausted)
    else
      var webhook := sub.config.kind.Webhook?;
      var wake := Wake(wakeId, g, Snapshots(sub, tails),
                       if webhook then Some(Token(id, g, wakeId)) else None,
                       None,
                       if webhook then Some(now + sub.config.leaseTtl) else None,
                       false);
      Ok(sub.(generation := g, wake := Some(wake), attempts := 0, failed := false, nextAttemptAt := now))
  }

  // ---------------------------------------------------------------- completion of a wake

  datatype Action = Callback | Acknowledge | Release

  datatype Ack = Ack(stream: string, offset: string)

  datatype Completion = Completion(token: Option<Token>, wakeId: string, generation: nat, acks: seq<Ack>, done: bool)

  /** The fence: the one live wake, named in full, under an unexpired lease, by the right kind of call. */
  predicate Passes(sub: Subscription, id: string, c: Completion, action: Action, now: int) {
    && c.token.Some? && sub.wake.Some?
    && var token, wake := c.token.value, sub.wake.value;
    && token.subscription == id && token.generation == wake.generation && token.wakeId == wake.id
    && c.wakeId == wake.id && c.generation == wake.generation
    && wake.leaseUntil.Some? && wake.leaseUntil.value > now
    && wake.token == Some(token)
    && (action.Callback? <==> sub.config.kind.Webhook?)
  }

  predicate ValidAck(links: map<string, Link>, ack: Ack, tails: Tails) {
    && ack.stream in links
    && OffsetCodec.Canonical(ack.offset)
    && !Lex.Less(ack.offset, links[ack.stream].acked)
    && ack.stream in tails && !Lex.Less(tails[ack.stream], ack.offset)
  }

  function ApplyAcks(links: map<string, Link>, acks: seq<Ack>): (l: map<string, Link>)
    decreases |acks|
  {
    if acks == [] then links
    else
      var a := acks[0];
      var next := if a.stream in links
                  then links[a.stream := links[a.stream].(acked := Lex.Max(links[a.stream].acked, a.offset))]
                  else links;
      ApplyAcks(next, acks[1..])
  }

  function Complete(sub: Subscription, id: string, c: Completion, action: Action, tails: Tails, now: int)
    : (r: Result<Subscription, ApiError>)
  {
    if !Passes(sub, id, c, action, now) then Err(Fenced)
    else if exists i :: 0 <= i < |c.acks| && !ValidAck(sub.links, c.acks[i], tails) then Err(InvalidAck)
    else
      var acked := if action.Release? then sub else sub.(links := ApplyAcks(sub.links, c.acks));
      if c.done || action.Release? then Ok(acked.(wake := None, failed := false, nextAttemptAt := now))
      else Ok(acked.(wake := Some(sub.wake.value.(leaseUntil := Some(now + sub.config.leaseTtl)))))
  }

  predicate Blank(s: string) {
    forall i :: 0 <= i < |s| ==> IsWhite(s[i])
  }

  function Claim(sub: Subscription, id: string, worker: string, wakeId: string, tails: Tails, now: int)
    : (r: Result<Subscription, ApiError>)
  {
    if Blank(worker) || ByteLength(worker) > 256 then Err(InvalidWorker)
    else if sub.wake.Some? && sub.wake.value.holder.Some? then
      Err(AlreadyClaimed(sub.wake.value.holder.value, sub.wake.value.generation))
    else if sub.wake.None? && !Pending(sub, tails) then Err(NoPendingWork)
    else
      var issued := if sub.wake.None? then IssueWake(sub, id, wakeId, tails, now) else Ok(sub);
      if issued.Err? || issued.value.wake.None? then Err(GenerationExhausted)
      else
        var w := issued.value.wake.value;
        Ok(issued.value.(
          failed := false,
          wake := Some(w.(token := Some(Token(id, w.generation, w.id)),
                          holder := Some(worker),
                          leaseUntil := Some(now + sub.config.leaseTtl),
                          delivered := true))))
  }

  // ---------------------------------------------------------------- other control requests

  datatype Request =
    | Inspect
    | Create(config: Configuration, wakeStreamOk: bool)
    | Delete
    | AddStreams(paths: set<string>)
    | RemoveStream(path: string)
    | ClaimWake(worker: string, wakeId: string)
    | CompleteWake(action: Action, completion: Completion)

  function NewLinks(config: Configuration, tails: Tails): (links: map<string, Link>) {
    var matched := map p | p in tails && Matches(config, p) :: Link(false, tails[p]);
    var listed := map p | p in config.streams ::
      Link(true, if p in tails then tails[p] else OffsetCodec.ZERO);
    matched + listed
  }

  function CreateSubscription(
    db: Database, id: string, config: Configuration, wakeStreamOk: bool, tails: Tails, now: int)
    : (r: Result<Database, ApiError>)
  {
    var refused := ConfigError(config);
    if refused.Some? then Err(refused.value)
    else if id in db then
      if db[id].deleted || db[id].config != config then Err(ConfigMismatch) else Ok(db)
    else if config.wakeStream.Some? && !wakeStreamOk then Err(InvalidWakeStream)
    else Ok(db[id := Subscription(config, NewLinks(config, tails), 0, None, false, now, 0, false)])
  }

  /** The link of `p` once its path was added. */
  function Joined(links: map<string, Link>, p: string, tails: Tails): (link: Link) {
    if p in links then links[p].(explicit := true)
    else Link(true, if p in tails then tails[p] else OffsetCodec.ZERO)
  }

  /** The links after the paths in `done` were added. */
  function Added(links: map<string, Link>, done: set<string>, tails: Tails): (l: map<string, Link>) {
    links + map p | p in done :: Joined(links, p, tails)
  }

  function AddLinks(sub: Subscription, paths: set<string>, tails: Tails): (r: Result<Subscription, ApiError>) {
    if exists p :: p in paths && (!ValidPath(p) || sub.config.wakeStream == Some(p)) then Err(InvalidPath)
    else
      Ok(sub.(links := Added(sub.links, paths, tails)))
  }

  function RemoveLink(sub: Subscription, path: string): (r: Result<Subscription, ApiError>) {
    if !ValidPath(path) then Err(InvalidPath)
    else if Matches(sub.config, path) then
      if path in sub.links then Ok(sub.(links := sub.links[path := sub.links[path].(explicit := false)])) else Ok(sub)
    else Ok(sub.(links := sub.links - {path}))
  }

  /** What a request does to the subscription it names, after reconciliation. */
  function Handle(sub: Subscription, id: string, req: Request, tails: Tails, now: int)
    : (r: Result<Subscription, ApiError>)
  {
    match req
    case Delete => Ok(sub.(deleted := true, wake := None))
    case AddStreams(paths) => AddLinks(sub, paths, tails)
    case RemoveStream(path) => RemoveLink(sub, path)
    case ClaimWake(worker, wakeId) =>
      if sub.config.kind.PullWake? then Claim(sub, id, worker, wakeId, tails, now) else Err(Missing)
    case CompleteWake(action, c) => Complete(sub, id, c, action, tails, now)
    case Inspect => Ok(sub)
    case Create(_, _) => Ok(sub)
  }

  /** One control transaction, up to but not including the save. */
  function Control(db: Database, id: string, req: Request, tails: Tails, now: int): (r: Result<Database, ApiError>) {
    var current := Refresh(db, tails, now);
    if req.Create? then CreateSubscription(current, id, req.config, req.wakeStreamOk, tails, now)
    else if id !in current || current[id].deleted then Err(Missing)
    else
      var r := Handle(current[id], id, req, tails, now);
      if r.Err? then Err(r.error) else Ok(current[id := r.value])
  }

  // ---------------------------------------------------------------- the delivery tick

  const MAX_DELIVERIES: nat := 16

  type Key = (string, nat)

  datatype TickState = TickState(db: Database, jobs: set<Key>, pull: set<Key>)

  predicate Due(sub: Subscription, id: string, active: set<Key>, now: int) {
    && sub.wake.Some? && !sub.wake.value.delivered && sub.nextAttemptAt <= now
    && (id, sub.wake.value.generation) !in active
  }

  /** One subscription of the tick; `wakeId` is the random id drawn for it. */
  function TickOne(ts: TickState, id: string, wakeId: string, active: set<Key>, tails: Tails, now: int)
    : (r: Result<TickState, ApiError>)
  {
    if id !in ts.db || ts.db[id].deleted then Ok(ts)
    else
      var sub := ts.db[id];
      var issued := if sub.wake.None? && Pending(sub, tails) then IssueWake(sub, id, wakeId, tails, now) else Ok(sub);
      if issued.Err? then Err(issued.error)
      else if !Due(issued.value, id, active, now) then Ok(ts.(db := ts.db[id := issued.value]))
      else
        var s := issued.value;
        var wake := s.wake.value;
        var key := (id, wake.generation);
        if s.config.kind.PullWake? then
          var found := exists p :: p in wake.streams && wake.streams[p].hasPending;
          Ok(ts.(db := ts.db[id := s], pull := if found then ts.pull + {key} else ts.pull))
        else if |active| + |ts.jobs| < MAX_DELIVERIES then
          var sent := s.(wake := Some(wake.(leaseUntil := Some(now + s.config.leaseTtl))),
                         failed := false, nextAttemptAt := now + 6_000);
          Ok(ts.(db := ts.db[id := sent], jobs := ts.jobs + {key}))
        else Ok(ts.(db := ts.db[id := s]))
  }

  function TickAll(ts: TickState, order: seq<(string, string)>, active: set<Key>, tails: Tails, now: int)
    : (r: Result<TickState, ApiError>)
    decreases |order|
  {
    if order == [] then Ok(ts)
    else
      var one := TickOne(ts, order[0].0, order[0].1, active, tails, now);
      if one.Err? then one else TickAll(one.value, order[1..], active, tails, now)
  }

  /** The first half of a tick: reconcile, issue wakes, pick deliveries. */
  function Tick(db: Database, order: seq<(string, string)>, active: set<Key>, tails: Tails, now: int)
    : (r: Result<TickState, ApiError>)
  {
    TickAll(TickState(Refresh(db, tails, now), {}, {}), order, active, tails, now)
  }

  /** The second half: record which wake events were appended. */
  function Mark(sub: Subscription, generation: nat, appended: bool, now: int): (s: Subscription) {
    if !appended then sub.(failed := true, nextAttemptAt := now + 1_000)
    else if sub.wake.Some? && sub.wake.value.generation == generation then
      sub.(wake := Some(sub.wake.value.(delivered := true)), failed := false)
    else sub.(failed := false)
  }

  function MarkAll(db: Database, pull: map<string, (nat, bool)>, now: int): (db': Database) {
    map id | id in db :: if id in pull then Mark(db[id], pull[id].0, pull[id].1, now) else db[id]
  }

  function Pow2(k: nat): (p: nat) { if k == 0 then 1 else 2 * Pow2(k - 1) }

  function RetryDelay(attempts: nat): (d: nat) {
    var d := 1_000 * Pow2(if attempts < 6 then attempts else 6);
    if d < 60_000 then d else 60_000
  }

  /** Record the result of a webhook delivery: `Some(done)` on success. */
  function FinishSub(sub: Subscription, result: Option<bool>, jitter: int, now: int): (s: Subscription) {
    if result.None? || sub.wake.None? then
      var delay := RetryDelay(sub.attempts);
      sub.(failed := true, attempts := sub.attempts + 1, nextAttemptAt := now + delay + delay / 1_000 * jitter)
    else
      var wake := sub.wake.value;
      var ok := sub.(wake := Some(wake.(delivered := true)), failed := false, attempts := 0);
      if !result.value then ok
      else ok.(links := AckSnapshot(sub.links, wake.streams), wake := None, nextAttemptAt := now)
  }

  /** Acknowledge exactly the tails the wake was issued with. */
  function AckSnapshot(links: map<string, Link>, streams: map<string, Snapshot>): (l: map<string, Link>) {
    map p | p in links ::
      if p in streams then links[p].(acked := Lex.Max(links[p].acked, streams[p].tail)) else links[p]
  }

  predicate StillCurrent(db: Database, id: string, generation: nat, now: int) {
    && id in db && !db[id].deleted && db[id].wake.Some? && db[id].wake.value.generation == generation
    && (db[id].wake.value.leaseUntil.Some? ==> db[id].wake.value.leaseUntil.value > now)
  }

  function Finish(db: Database, id: string, generation: nat, result: Option<bool>, jitter: int, now: int)
    : (db': Database)
  {
    if StillCurrent(db, id, generation, now) then db[id := FinishSub(db[id], result, jitter, now)] else db
  }
}
