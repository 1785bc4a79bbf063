/** A fenced producer that claims the next epoch: it gets the stream, and whoever had it loses it. */
module ProducerTakeover {
  import opened Wrappers
  import opened Offsets
  import opened Streams
  import opened Stores
  import opened StoreInvariant
  import opened StoreRuns
  import opened StoreAnswers
  import opened ProducerProtocol
  import IdempotentProducer

  function OpOf(c: Setup, r: Request): (op: Op) {
    ProducerOp(c.name, r.work.body, c.contentType, Headers(c, r), r.work.close, None)
  }

  lemma HandleIsStep(c: Setup, s: Store, r: Request, now: int)
    ensures Handle(c, s, r, now) == Step(s, OpOf(c, r), now)
  {
    hide AppendWithProducer;
  }

  /** The stream can be used, and the server still knows the producer. */
  predicate Usable(c: Setup, s: Store, now: int) {
    && c.name in s.streams && s.streams[c.name].state.Active? && !Over(s.streams[c.name], now)
    && Remembered(s.streams[c.name], c.id, now).Some?
  }

  predicate Fits(c: Setup, s: Store, body: Body)
    requires c.name in s.streams
  {
    body == [] || SameType(s.streams[c.name].config.contentType, c.contentType)
  }

  /** What the client sends once it was fenced by `reply`. */
  function Claimed(client: IdempotentProducer.Client, reply: Result<Reply, Error>, work: Work): (r: Request)
    requires AnswerOf(reply).Forbidden?
  {
    var c := IdempotentProducer.Claim(client, AnswerOf(reply));
    Request(c.epoch, c.nextSeq, work)
  }

  /** A request is fenced exactly when a later epoch is known, and the answer names that epoch. */
  lemma FencedIff(c: Setup, s: Store, r: Request, now: int)
    requires c.name in s.streams && s.streams[c.name].state.Active? && !Over(s.streams[c.name], now)
    requires Fits(c, s, r.work.body)
    ensures var st := Remembered(s.streams[c.name], c.id, now);
      && (AnswerOf(Handle(c, s, r, now).reply).Forbidden? <==> st.Some? && r.epoch < st.value.epoch)
      && (st.Some? && r.epoch < st.value.epoch ==>
            AnswerOf(Handle(c, s, r, now).reply) == IdempotentProducer.Forbidden(Some(st.value.epoch)))
  {
    HandleIsStep(c, s, r, now);
    SequenceCheck(s, OpOf(c, r), now);
    ProducerRefusals(s, OpOf(c, r), now);
    hide Step, Handle, Remembered, SameType, Over, CannotRenew, StoreFull, StreamFull;
  }

  /** Nothing but its own capacity stands in the way of the request. */
  predicate Unhindered(c: Setup, s: Store, r: Request, now: int)
    requires c.name in s.streams
  {
    var e := s.streams[c.name];
    !e.closed && !CannotRenew(e, now) && !StoreFull(s, r.work.body) && !StreamFull(s, e, r.work.body)
  }

  lemma FencedLeaves(c: Setup, s: Store, r: Request, now: int)
    requires c.name in s.streams && Handle(c, s, r, now).reply.Err?
    ensures var s' := Handle(c, s, r, now).store;
      && OnlyPruned(s, s', now) && c.name in s'.streams
      && (forall t :: now <= t && Remembered(s.streams[c.name], c.id, t).Some? ==>
            Remembered(s'.streams[c.name], c.id, t) == Remembered(s.streams[c.name], c.id, t))
  {
    HandleIsStep(c, s, r, now);
    RefusalChangesNothing(s, OpOf(c, r), now);
    hide Handle, Step;
  }

  /**
   A fenced producer that claims is never fenced and never out of sequence when it sends
   the same work again: the server takes it, unless the stream is closed or full by then.
   */
  lemma ClaimIsInSequence(c: Setup, s: Store, r: Request, now: int, client: IdempotentProducer.Client, later: int)
    requires Usable(c, s, now) && Fits(c, s, r.work.body) && now <= later
    requires AnswerOf(Handle(c, s, r, now).reply).Forbidden? && Usable(c, Handle(c, s, r, now).store, later)
    ensures var o := Handle(c, s, r, now);
      var claim := Claimed(client, o.reply, r.work);
      var again := Handle(c, o.store, claim, later).reply;
      && claim.epoch == Remembered(s.streams[c.name], c.id, now).value.epoch + 1 && claim.sequence == 0
      && (again.Ok? && again.value.Accepted? <==> Unhindered(c, o.store, claim, later))
      && (again.Ok? ==> again.value.Accepted?) && (o.store.streams[c.name].closed <==> again == Err(StreamClosed))
      && (again.Err? ==> !again.error.EpochFenced? && !again.error.SequenceGap? && !again.error.InvalidProducerState?)
  {
    FencedIff(c, s, r, now);
    FencedLeaves(c, s, r, now);
    var o := Handle(c, s, r, now);
    var claim := Claimed(client, o.reply, r.work);
    hide Handle, Step, SameType, Over, CannotRenew, StoreFull, StreamFull;
    HandleIsStep(c, o.store, claim, later);
    SequenceCheck(o.store, OpOf(c, claim), later);
    ProducerRefusals(o.store, OpOf(c, claim), later);
  }

  /** Once a claim was accepted every request of an earlier epoch is fenced, with the new epoch in the answer, and stores nothing. */
  lemma TakeoverFences(c: Setup, s: Store, claim: Request, now: int, late: Request, later: int)
    requires c.name in s.streams
    requires Handle(c, s, claim, now).reply.Ok? && Handle(c, s, claim, now).reply.value.Accepted?
    requires late.epoch < claim.epoch && now <= later < now + 604_800
    requires var s' := Handle(c, s, claim, now).store;
      c.name in s'.streams && s'.streams[c.name].state.Active? && !Over(s'.streams[c.name], later)
      && Fits(c, s', late.work.body)
    ensures var s' := Handle(c, s, claim, now).store;
      && Handle(c, s', late, later).reply == Err(EpochFenced(claim.epoch, late.epoch))
      && OnlyPruned(s', Handle(c, s', late, later).store, later)
  {
    HandleIsStep(c, s, claim, now);
    ProducerAnswers(s, OpOf(c, claim), now);
    var s' := Handle(c, s, claim, now).store;
    HandleIsStep(c, s', late, later);
    SequenceCheck(s', OpOf(c, late), later);
    RefusalChangesNothing(s', OpOf(c, late), later);
    hide Handle, Step, SameType, Over, Grew, Used;
  }

  /** A fenced exchange claims the next epoch and sends its work again, once; fenced again, or on a closed client's close, it gives up. */
  lemma ClaimsOnce(c: Setup, w: World, reply: Result<Reply, Error>)
    requires Enabled(c, w, Receive(reply)) && reply.Err? && reply.error.EpochFenced?
    ensures var w', work := Next(c, w, Receive(reply)), w.pending.value;
      var claims := w.client.autoClaim && !w.retried && !(w.client.closed && work.close);
      && w'.sent == (if claims then w.sent + [Request(reply.error.current + 1, 0, work)] else w.sent)
      && w'.awaiting == (if claims then Some(|w.sent|) else None) && (w'.retried <==> claims)
      && w'.client == (if claims then w.client.(epoch := reply.error.current + 1, nextSeq := 0) else w.client)
      && w'.pending == w.pending && w'.acked == w.acked && w'.late == w.late && w'.store == w.store
  {
  }
}
