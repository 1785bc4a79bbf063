/**
 What the control requests do to a subscription, wake, lease, cursors and all, stated on
 the subscription before and after and on the request alone.
 */
module WakeOutcomes {
  import opened Wrappers
  import opened Subscriptions
  import OffsetCodec
  import Offsets
  import Lex
  import Glob

  /** The pattern covers the path. */
  predicate Covered(c: Configuration, p: string) {
    c.pattern.Some? && Glob.Matches(Glob.Split(c.pattern.value), Glob.Split(p))
  }

  /** The stream has records past the acknowledged offset. */
  predicate BehindOn(sub: Subscription, tails: Tails, p: string) {
    p in sub.links && p in tails && Lex.Less(sub.links[p].acked, tails[p])
  }

  predicate Behind(sub: Subscription, tails: Tails) {
    exists p :: p in sub.links && BehindOn(sub, tails, p)
  }

  lemma BehindIff(sub: Subscription, tails: Tails)
    ensures Pending(sub, tails) <==> Behind(sub, tails)
  {
    forall p | p in sub.links ensures SnapshotOf(sub.links[p], tails, p).hasPending <==> BehindOn(sub, tails, p) {
      Lex.LessIsIrreflexive(sub.links[p].acked);
    }
    if Pending(sub, tails) {
      var p :| p in sub.links && SnapshotOf(sub.links[p], tails, p).hasPending;
      assert BehindOn(sub, tails, p);
    }
    if Behind(sub, tails) {
      var p :| p in sub.links && BehindOn(sub, tails, p);
      assert SnapshotOf(sub.links[p], tails, p).hasPending;
    }
  }

  // ---------------------------------------------------------------- reconciliation

  /** The lease ran out, and no failed delivery is being retried under it. */
  predicate LeaseGone(sub: Subscription, now: int) {
    && sub.wake.Some? && sub.wake.value.leaseUntil.Some? && sub.wake.value.leaseUntil.value <= now && !sub.failed
  }

  /** Reconciliation links newly covered streams from zero, drops a wake exactly when its lease is over, and nothing else. */
  lemma ReconcileOutcome(db: Database, tails: Tails, now: int, id: string)
    requires id in db
    ensures Refresh(db, tails, now).Keys == db.Keys
    ensures var a, b := db[id], Refresh(db, tails, now)[id];
      && (a.deleted ==> b == a)
      && (!a.deleted ==>
            && (forall p :: p in b.links <==> p in a.links || (p in tails && Covered(a.config, p)))
            && (forall p :: p in b.links ==> b.links[p] == if p in a.links then a.links[p] else Link(false, OffsetCodec.ZERO))
            && b == a.(links := b.links,
                       wake := if LeaseGone(a, now) then None else a.wake,
                       nextAttemptAt := if LeaseGone(a, now) then now else a.nextAttemptAt))
  {
    hide Glob.Matches, Glob.Split;
  }

  /** What a request finds: the subscription after reconciliation. */
  function Found(db: Database, tails: Tails, now: int, id: string): (s: Subscription)
    requires id in db
  {
    Refresh(db, tails, now)[id]
  }

  /** Only the named subscription differs from reconciliation. */
  predicate OnlyTouches(db: Database, tails: Tails, now: int, id: string, r: Result<Database, ApiError>) {
    r.Ok? ==> id in r.value && r.value == Refresh(db, tails, now)[id := r.value[id]]
  }

  /** A request for a subscription that is not there, or a claim of one that is not claimed, is not found. */
  lemma MissingOutcome(db: Database, id: string, req: Request, tails: Tails, now: int)
    requires !req.Create?
    ensures Control(db, id, req, tails, now) == Err(Missing) <==>
      id !in db || db[id].deleted || (req.ClaimWake? && db[id].config.kind.Webhook?)
  {
    if id in db { ReconcileOutcome(db, tails, now, id); }
    hide RefreshSub, Pending, Snapshots, Blank, ByteLength, ValidPath, Subscriptions.Matches, Passes, ValidAck, ApplyAcks;
  }

  // ---------------------------------------------------------------- callback, acknowledgement, release

  /** The completion names the live wake in full, with its token, in time and by the right kind of call. */
  predicate Current(sub: Subscription, id: string, c: Completion, action: Action, now: int) {
    && sub.wake.Some?
    && c.token == Some(Token(id, sub.wake.value.generation, sub.wake.value.id)) == sub.wake.value.token
    && c.wakeId == sub.wake.value.id && c.generation == sub.wake.value.generation
    && sub.wake.value.leaseUntil.Some? && sub.wake.value.leaseUntil.value > now
    && action.Callback? == sub.config.kind.Webhook?
  }

  /** A well-formed offset of a linked stream, from the cursor up to the tail. */
  predicate Acceptable(sub: Subscription, a: Ack, tails: Tails) {
    && a.stream in sub.links && OffsetCodec.Canonical(a.offset)
    && Lex.AtMost(sub.links[a.stream].acked, a.offset)
    && a.stream in tails && Lex.AtMost(a.offset, tails[a.stream])
  }

  lemma NotLessIsAtMost(a: string, b: string)
    ensures !Lex.Less(b, a) <==> Lex.AtMost(a, b)
  {
    Lex.LessIsTotal(a, b);
    Lex.LessIsIrreflexive(a);
    if Lex.Less(a, b) && Lex.Less(b, a) { Lex.LessIsTransitive(a, b, a); }
  }

  lemma AcceptableIff(sub: Subscription, a: Ack, tails: Tails)
    ensures ValidAck(sub.links, a, tails) <==> Acceptable(sub, a, tails)
  {
    if a.stream in sub.links { NotLessIsAtMost(sub.links[a.stream].acked, a.offset); }
    if a.stream in tails { NotLessIsAtMost(a.offset, tails[a.stream]); }
    hide OffsetCodec.Canonical;
  }

  /** When a completion is accepted, and which error it meets otherwise. */
  lemma CompletionAnswers(db: Database, id: string, action: Action, c: Completion, tails: Tails, now: int)
    requires id in db && !db[id].deleted
    ensures var r, sub := Control(db, id, CompleteWake(action, c), tails, now), Found(db, tails, now, id);
      && (r == Err(Fenced) <==> !Current(sub, id, c, action, now))
      && (r == Err(InvalidAck) <==>
            Current(sub, id, c, action, now) && exists i :: 0 <= i < |c.acks| && !Acceptable(sub, c.acks[i], tails))
      && (r.Ok? <==>
            Current(sub, id, c, action, now) && forall i :: 0 <= i < |c.acks| ==> Acceptable(sub, c.acks[i], tails))
  {
    ReconcileOutcome(db, tails, now, id);
    var sub := Found(db, tails, now, id);
    forall a ensures ValidAck(sub.links, a, tails) <==> Acceptable(sub, a, tails) { AcceptableIff(sub, a, tails); }
    hide RefreshSub, ValidAck, Acceptable, ApplyAcks;
  }

  /**
   What an accepted completion leaves: a release gives the wake up and moves no cursor; a
   finished callback or acknowledgement gives it up too; an unfinished one keeps the very
   wake, holder and token with the lease counted from now.
   */
  lemma CompletionOutcome(db: Database, id: string, action: Action, c: Completion, tails: Tails, now: int)
    requires id in db && Control(db, id, CompleteWake(action, c), tails, now).Ok?
    ensures var r, a := Control(db, id, CompleteWake(action, c), tails, now), Found(db, tails, now, id);
      && OnlyTouches(db, tails, now, id, r)
      && var b := r.value[id];
      && (action.Release? ==> b == a.(wake := None, failed := false, nextAttemptAt := now))
      && (!action.Release? && c.done ==>
            b == a.(links := b.links, wake := None, failed := false, nextAttemptAt := now))
      && (!action.Release? && !c.done ==>
            && a.wake.Some?
            && b == a.(links := b.links, wake := Some(a.wake.value.(leaseUntil := Some(now + a.config.leaseTtl)))))
  {
    hide RefreshSub, ValidAck, ApplyAcks;
  }

  // ---------------------------------------------------------------- claim

  /** What a wake issued now reports of each linked stream. */
  predicate Reports(sub: Subscription, tails: Tails, streams: map<string, Snapshot>) {
    && streams.Keys == sub.links.Keys
    && forall p :: p in streams ==>
         streams[p] == Snapshot(sub.links[p].acked, if p in tails then tails[p] else sub.links[p].acked, BehindOn(sub, tails, p))
  }

  lemma SnapshotsReport(sub: Subscription, tails: Tails)
    ensures Reports(sub, tails, Snapshots(sub, tails))
  {
    forall p | p in sub.links ensures SnapshotOf(sub.links[p], tails, p).hasPending <==> BehindOn(sub, tails, p) {
      Lex.LessIsIrreflexive(sub.links[p].acked);
    }
  }

  /** A worker name: something but white space, at most 256 bytes. */
  predicate Named(worker: string) {
    (exists i :: 0 <= i < |worker| && !IsWhite(worker[i])) && ByteLength(worker) <= 256
  }

  predicate Exhausted(sub: Subscription) { sub.generation + 1 >= Offsets.U64 }

  lemma ClaimAnswers(db: Database, id: string, worker: string, wakeId: string, tails: Tails, now: int)
    requires id in db && !db[id].deleted && db[id].config.kind.PullWake?
    ensures var r, sub := Control(db, id, ClaimWake(worker, wakeId), tails, now), Found(db, tails, now, id);
      var held, idle := sub.wake.Some? && sub.wake.value.holder.Some?, sub.wake.None? && !Behind(sub, tails);
      && (r == Err(InvalidWorker) <==> !Named(worker))
      && (r.Err? && r.error.AlreadyClaimed? <==> Named(worker) && held)
      && (r.Err? && r.error.AlreadyClaimed? ==>
            r.error == AlreadyClaimed(sub.wake.value.holder.value, sub.wake.value.generation))
      && (r == Err(NoPendingWork) <==> Named(worker) && idle)
      && (r == Err(GenerationExhausted) <==> Named(worker) && sub.wake.None? && !idle && Exhausted(sub))
      && (r.Ok? <==> Named(worker) && !held && !idle && (sub.wake.None? ==> !Exhausted(sub)))
  {
    ReconcileOutcome(db, tails, now, id);
    BehindIff(Found(db, tails, now, id), tails);
    hide RefreshSub, Pending, Behind, Snapshots, ByteLength, IsWhite;
  }

  /** A claim takes the wake that is there, or the next generation; the worker holds it until the lease is over. */
  lemma ClaimOutcome(db: Database, id: string, worker: string, wakeId: string, tails: Tails, now: int)
    requires id in db && Control(db, id, ClaimWake(worker, wakeId), tails, now).Ok?
    ensures var r, a := Control(db, id, ClaimWake(worker, wakeId), tails, now), Found(db, tails, now, id);
      && OnlyTouches(db, tails, now, id, r)
      && var b := r.value[id];
      && b.wake.Some?
      && var w := b.wake.value;
      && w.holder == Some(worker) && w.leaseUntil == Some(now + a.config.leaseTtl) && w.delivered
      && w.token == Some(Token(id, w.generation, w.id))
      && (a.wake.Some? ==>
            && w == a.wake.value.(holder := Some(worker), leaseUntil := Some(now + a.config.leaseTtl), delivered := true,
                                  token := Some(Token(id, a.wake.value.generation, a.wake.value.id)))
            && b == a.(wake := b.wake, failed := false))
      && (a.wake.None? ==>
            && w.id == wakeId && w.generation == a.generation + 1 && Reports(a, tails, w.streams)
            && b == a.(wake := b.wake, generation := a.generation + 1, attempts := 0, failed := false, nextAttemptAt := now))
  {
    SnapshotsReport(Found(db, tails, now, id), tails);
    hide RefreshSub, Pending, Snapshots, Reports, ByteLength, Blank;
  }

  /** Once a wake was released, the next claim by a named worker is not turned away as held. */
  lemma ReleasedIsClaimable(
    db: Database, id: string, c: Completion, tails: Tails, now: int, worker: string, wakeId: string, later: Tails, afterwards: int)
    requires id in db && Control(db, id, CompleteWake(Release, c), tails, now).Ok?
    ensures var db' := Control(db, id, CompleteWake(Release, c), tails, now).value;
      var r := Control(db', id, ClaimWake(worker, wakeId), later, afterwards);
      r.Err? ==> !r.error.AlreadyClaimed?
  {
    CompletionOutcome(db, id, Release, c, tails, now);
    var db' := Control(db, id, CompleteWake(Release, c), tails, now).value;
    ReconcileOutcome(db', later, afterwards, id);
    hide RefreshSub, Complete, Pending, Snapshots, ByteLength, Blank;
  }

  // ---------------------------------------------------------------- membership and removal

  /** Adding streams: refused for a bad path or the own wake stream; otherwise all are linked explicitly, new ones at their tails. */
  lemma AddOutcome(db: Database, id: string, paths: set<string>, tails: Tails, now: int)
    requires id in db && !db[id].deleted
    ensures var r, a := Control(db, id, AddStreams(paths), tails, now), Found(db, tails, now, id);
      && (r == Err(InvalidPath) <==> exists p :: p in paths && (!ValidPath(p) || a.config.wakeStream == Some(p)))
      && (r.Err? ==> r == Err(InvalidPath)) && OnlyTouches(db, tails, now, id, r)
      && (r.Ok? ==>
            var b := r.value[id];
            && b == a.(links := b.links) && b.links.Keys == a.links.Keys + paths
            && (forall p :: p in b.links ==>
                  b.links[p] == if p !in paths then a.links[p]
                                else if p in a.links then Link(true, a.links[p].acked)
                                else Link(true, if p in tails then tails[p] else OffsetCodec.ZERO)))
  {
    ReconcileOutcome(db, tails, now, id);
    hide RefreshSub, ValidPath;
  }

  /** Removing a stream: one the pattern covers only loses its explicit mark. */
  lemma RemoveOutcome(db: Database, id: string, path: string, tails: Tails, now: int)
    requires id in db && !db[id].deleted
    ensures var r, a := Control(db, id, RemoveStream(path), tails, now), Found(db, tails, now, id);
      && (r == Err(InvalidPath) <==> !ValidPath(path))
      && (r.Err? ==> r == Err(InvalidPath)) && OnlyTouches(db, tails, now, id, r)
      && (r.Ok? ==>
            && r.value[id] == a.(links := r.value[id].links)
            && r.value[id].links ==
               if !Covered(a.config, path) then a.links - {path}
               else if path in a.links then a.links[path := Link(false, a.links[path].acked)] else a.links)
  {
    ReconcileOutcome(db, tails, now, id);
    hide RefreshSub, ValidPath, Glob.Matches, Glob.Split;
  }

  /** A deleted subscription keeps its place without a wake; looking at one changes nothing. */
  lemma DeleteOutcome(db: Database, id: string, tails: Tails, now: int)
    requires id in db && !db[id].deleted
    ensures Control(db, id, Delete, tails, now)
         == Ok(Refresh(db, tails, now)[id := Found(db, tails, now, id).(deleted := true, wake := None)])
    ensures Control(db, id, Inspect, tails, now) == Ok(Refresh(db, tails, now))
  {
    ReconcileOutcome(db, tails, now, id);
    hide RefreshSub;
    assert Refresh(db, tails, now)[id := Found(db, tails, now, id)] == Refresh(db, tails, now);
  }

  // ---------------------------------------------------------------- creation

  /** Something to watch, a lease of one second to ten minutes, and whole-segment wildcards. */
  predicate SoundBasics(c: Configuration) {
    && (c.pattern.Some? || c.streams != {}) && 1_000 <= c.leaseTtl <= 600_000
    && (c.pattern.Some? ==> forall s :: s in Glob.Split(c.pattern.value) && '*' in s ==> s == "*" || s == "**")
  }

  /** Exactly the delivery target of its kind. */
  predicate SoundTarget(c: Configuration) {
    if c.kind.Webhook? then c.webhook.Some? && c.wakeStream.None? else c.wakeStream.Some? && c.webhook.None?
  }

  predicate SoundPaths(c: Configuration) {
    && (c.pattern.Some? ==> ValidPath(c.pattern.value)) && (forall p :: p in c.streams ==> ValidPath(p))
    && (c.wakeStream.Some? ==> ValidPath(c.wakeStream.value))
  }

  /** It would not feed on its own wakes. */
  predicate NotSelfFeeding(c: Configuration) {
    c.wakeStream.Some? ==> !Covered(c, c.wakeStream.value) && c.wakeStream.value !in c.streams
  }

  predicate SoundConfig(c: Configuration) {
    SoundBasics(c) && SoundTarget(c) && SoundPaths(c) && NotSelfFeeding(c)
  }

  lemma SoundConfigIff(c: Configuration)
    ensures ConfigError(c).None? <==> SoundConfig(c)
    ensures ConfigError(c).Some? ==> ConfigError(c).value == InvalidPath || ConfigError(c).value == InvalidConfig
    ensures SoundPaths(c) ==> ConfigError(c) != Some(InvalidPath)
    ensures SoundBasics(c) && SoundTarget(c) && NotSelfFeeding(c) ==> ConfigError(c) != Some(InvalidConfig)
  {
    hide Glob.Matches, ValidPath;
  }

  /** When a subscription is created, found again, or refused. */
  lemma CreateAnswers(db: Database, id: string, c: Configuration, wakeStreamOk: bool, tails: Tails, now: int)
    ensures var r := Control(db, id, Create(c, wakeStreamOk), tails, now);
      var other := id in db && (db[id].deleted || db[id].config != c);
      && (r == Err(InvalidPath) || r == Err(InvalidConfig) <==> !SoundConfig(c))
      && (r == Err(ConfigMismatch) <==> SoundConfig(c) && other)
      && (r == Err(InvalidWakeStream) <==> SoundConfig(c) && id !in db && c.wakeStream.Some? && !wakeStreamOk)
      && (r.Ok? <==> SoundConfig(c) && !other && (id !in db && c.wakeStream.Some? ==> wakeStreamOk))
      && (r.Ok? && id in db ==> r.value == Refresh(db, tails, now))
  {
    SoundConfigIff(c);
    if id in db { ReconcileOutcome(db, tails, now, id); }
    hide RefreshSub, SoundConfig, ConfigError, NewLinks;
  }

  /** A new subscription starts at the present tails: it has no wake and nothing to do. */
  lemma CreateOutcome(db: Database, id: string, c: Configuration, wakeStreamOk: bool, tails: Tails, now: int)
    requires id !in db && Control(db, id, Create(c, wakeStreamOk), tails, now).Ok?
    ensures var r := Control(db, id, Create(c, wakeStreamOk), tails, now);
      && OnlyTouches(db, tails, now, id, r)
      && var b := r.value[id];
      && b == Subscription(c, b.links, 0, None, false, now, 0, false) && !Behind(b, tails)
      && (forall p :: p in b.links <==> p in c.streams || (p in tails && Covered(c, p)))
      && (forall p :: p in b.links ==>
            b.links[p] == Link(p in c.streams, if p in tails then tails[p] else OffsetCodec.ZERO))
  {
    hide RefreshSub, ConfigError, Glob.Matches, Glob.Split;
    var b := Control(db, id, Create(c, wakeStreamOk), tails, now).value[id];
    forall p | p in b.links ensures !BehindOn(b, tails, p) {
      if p in tails { Lex.LessIsIrreflexive(tails[p]); }
    }
  }
}
