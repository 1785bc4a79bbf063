/**
 The idempotent producer against the server's sequence check, end to end: requests and
 replies may be lost, delayed and duplicated, failed appends and closes are sent again
 unchanged, and any other traffic runs on the same store.
 */
module ProducerProtocol {
  import opened Wrappers
  import opened Streams
  import opened Stores
  import opened StoreInvariant
  import opened StoreRuns
  import opened ProducerRuns
  import IdempotentProducer

  /** The records a request body parses to. */
  type Body = seq<Bytes>

  /** An append, or a close with the records of its optional body. */
  datatype Work = Work(body: Body, close: bool)

  datatype Request = Request(epoch: nat, sequence: nat, work: Work)

  /** Where accepted work lies among the stream's messages. */
  datatype Slot = Slot(at: nat, work: Work)

  datatype Setup = Setup(name: string, id: string, contentType: string, epoch: nat)

  /**
   Everything ever sent may be delivered at any later time, any number of times. Every
   reply ever produced may still arrive while the client awaits that exchange. `acked`
   is the work acknowledged up to and including the close, `late` what was acknowledged
   after it.
   */
  datatype World = World(
    store: Store,
    now: int,
    client: IdempotentProducer.Client,
    pending: Option<Work>,
    awaiting: Option<nat>,
    retried: bool,
    sent: seq<Request>,
    replies: set<(nat, Result<Reply, Error>)>,
    acked: seq<Work>,
    late: seq<Work>,
    slots: seq<Slot>)

  datatype Event =
    | Submit(body: Body)
    | SubmitClose(finalBody: Option<Body>)
    | Resend
    | Fail
    | Deliver(request: nat, now: int)
    | Receive(reply: Result<Reply, Error>)
    | Other(op: Op, now: int)

  function Headers(c: Setup, r: Request): (p: ProducerHeaders) {
    ProducerHeaders(c.id, r.epoch, r.sequence)
  }

  /** What the server does with a request of this producer. */
  function Handle(c: Setup, s: Store, r: Request, now: int): (o: Outcome) {
    AppendWithProducer(s, c.name, r.work.body, c.contentType, Headers(c, r), r.work.close, None, now)
  }

  /** The errors the server reports as a conflict. */
  predicate ConflictError(e: Error) {
    e.StreamClosed? || e.SequenceGap? || e.SeqOrderingViolation? || e.ContentTypeMismatch?
  }

  function AnswerOf(reply: Result<Reply, Error>): (a: IdempotentProducer.Answer) {
    if reply.Ok? then IdempotentProducer.Success
    else if reply.error.EpochFenced? then IdempotentProducer.Forbidden(Some(reply.error.current))
    else if ConflictError(reply.error) then IdempotentProducer.Conflict
    else IdempotentProducer.OtherError
  }

  // ---------------------------------------------------------------- steps

  /** The producer's state, if it has any, has not idled out. */
  ghost predicate Kept(c: Setup, w: World, now: int) {
    var st := StateOf(w.store, c.name, c.id);
    w.now <= now && (st.Some? ==> Retained(st.value, now))
  }

  /** The stream stays, is not created anew, and no one else uses this producer id on it. */
  ghost predicate Harmless(c: Setup, w: World, op: Op, now: int) {
    var o := Step(w.store, op, now);
    && Admissible(w.store, op, now) && !Concerns(op, c.name, c.id)
    && c.name in o.store.streams && !(Reborn(op, o) && Touched(op) == Some(c.name))
  }

  ghost predicate Enabled(c: Setup, w: World, e: Event) {
    match e
    case Submit(_) => w.pending.None?
    case SubmitClose(_) => w.pending.None?
    case Resend => w.pending.Some?
    case Fail => w.awaiting.Some?
    case Deliver(i, now) => i < |w.sent| && Kept(c, w, now)
    case Receive(reply) => w.awaiting.Some? && w.pending.Some? && (w.awaiting.value, reply) in w.replies
    case Other(op, now) => Kept(c, w, now) && Harmless(c, w, op, now)
  }

  /** Send the pending work with the client's current epoch and sequence. */
  function Send(w: World, work: Work): (w': World) {
    w.(pending := Some(work), awaiting := Some(|w.sent|),
       sent := w.sent + [Request(w.client.epoch, w.client.nextSeq, work)])
  }

  ghost function Delivered(c: Setup, w: World, i: nat, now: int): (w': World)
    requires i < |w.sent|
  {
    var r := w.sent[i];
    var o := Handle(c, w.store, r, now);
    var w1 := w.(store := o.store, now := now, replies := w.replies + {(i, o.reply)});
    if o.reply.Ok? && o.reply.value.Accepted? && c.name in w.store.streams
    then w1.(slots := w.slots + [Slot(|w.store.streams[c.name].messages|, r.work)])
    else w1
  }

  /** The exchange ended; nothing pending is left. */
  function Settled(w: World): (w': World) {
    w.(pending := None, awaiting := None, retried := false)
  }

  function Received(w: World, reply: Result<Reply, Error>): (w': World)
    requires w.pending.Some?
  {
    var a, work := AnswerOf(reply), w.pending.value;
    if w.client.closed && work.close then
      if a.Success? || a.Conflict? then Settled(w).(late := w.late + [work])
      else w.(awaiting := None, retried := false)
    else if a.Success? then
      if w.client.closed then
        Settled(w).(client := IdempotentProducer.Advanced(w.client), late := w.late + [work])
      else if work.close then
        Settled(w).(client := w.client.(closed := true), acked := w.acked + [work])
      else
        Settled(w).(client := IdempotentProducer.Advanced(w.client), acked := w.acked + [work])
    else if IdempotentProducer.Claims(w.client, a, w.retried) then
      Send(w.(client := IdempotentProducer.Claim(w.client, a), retried := true), work)
    else w.(awaiting := None, retried := false)
  }

  ghost function Next(c: Setup, w: World, e: Event): (w': World)
    requires Enabled(c, w, e)
  {
    match e
    case Submit(body) => Send(w, Work(body, false))
    case SubmitClose(body) => Send(w, Work(if body.Some? then body.value else [], true))
    case Resend => Send(w, w.pending.value)
    case Fail => w.(awaiting := None, retried := false)
    case Deliver(i, now) => Delivered(c, w, i, now)
    case Receive(reply) => Received(w, reply)
    case Other(op, now) => w.(store := Step(w.store, op, now).store, now := now)
  }

  // ---------------------------------------------------------------- the invariant

  function Works(slots: seq<Slot>): (ws: seq<Work>)
    ensures |ws| == |slots|
  {
    seq(|slots|, i requires 0 <= i < |slots| => slots[i].work)
  }

  /** The server holds the acknowledged work, and before the close at most the one piece in flight besides. */
  predicate Agree(w: World) {
    || Works(w.slots) == w.acked
    || (!w.client.closed && w.pending.Some? && Works(w.slots) == w.acked + [w.pending.value])
  }

  /** Only the last acknowledged work may be a close, and then the client is closed. */
  predicate ClosedLast(w: World) {
    && (forall i :: 0 <= i < |w.acked| && w.acked[i].close ==> w.client.closed && i == |w.acked| - 1)
    && (w.client.closed ==> w.acked != [] && w.acked[|w.acked| - 1].close)
    && (!w.client.closed ==> w.late == [])
  }

  predicate Sound(c: Setup, w: World) {
    && w.client.epoch == c.epoch
    && (if w.client.closed then |w.acked| - 1 <= w.client.nextSeq <= |w.acked| else w.client.nextSeq == |w.acked|)
    && (forall i :: 0 <= i < |w.sent| ==> Faithful(c, w, w.sent[i]))
    && (w.awaiting.Some? ==> w.awaiting.value < |w.sent|
                             && (w.pending.Some? ==> w.sent[w.awaiting.value].sequence == w.client.nextSeq))
  }

  /** Until the close is acknowledged every request is the pending one or one already acknowledged. */
  predicate Faithful(c: Setup, w: World, r: Request) {
    && r.epoch == c.epoch && r.sequence <= |w.acked|
    && (!w.client.closed ==>
          && (r.sequence < |w.acked| ==> r.work == w.acked[r.sequence])
          && (r.sequence == |w.acked| ==> w.pending == Some(r.work)))
  }

  predicate SequenceError(e: Error) {
    e.EpochFenced? || e.SequenceGap? || e.InvalidProducerState?
  }

  /** A success was only reported for work that is stored; nothing was fenced or out of order. */
  predicate Honest(w: World) {
    forall p :: p in w.replies ==>
      && p.0 < |w.sent|
      && (p.1.Ok? ==> w.sent[p.0].sequence < |w.slots|)
      && (p.1.Err? ==> !SequenceError(p.1.error))
  }

  /** The server's record of the producer counts the stored work; a stored close has closed the stream. */
  ghost predicate Counts(c: Setup, w: World) {
    var st := StateOf(w.store, c.name, c.id);
    if w.slots == [] then st.None?
    else
      && st.Some? && st.value.epoch == c.epoch && st.value.lastSeq == |w.slots| - 1
      && (w.slots[|w.slots| - 1].work.close ==> c.name in w.store.streams && w.store.streams[c.name].closed)
  }

  /** Each stored body is a run of consecutive messages of the stream, in order, without overlap. */
  predicate Placed(messages: seq<Message>, slots: seq<Slot>) {
    && (forall i :: 0 <= i < |slots| ==>
          slots[i].at + |slots[i].work.body| <= |messages|
          && Data(messages)[slots[i].at..slots[i].at + |slots[i].work.body|] == slots[i].work.body)
    && (forall i, j :: 0 <= i < j < |slots| ==> slots[i].at + |slots[i].work.body| <= slots[j].at)
  }

  ghost predicate Safe(c: Setup, w: World) {
    && Inv(w.store, w.now) && c.name in w.store.streams
    && Agree(w) && ClosedLast(w) && Sound(c, w) && Honest(w) && Counts(c, w)
    && Placed(w.store.streams[c.name].messages, w.slots)
  }

  // ---------------------------------------------------------------- each step is safe

  lemma PlacedGrows(a: seq<Message>, b: seq<Message>, slots: seq<Slot>)
    requires Placed(a, slots) && a <= b
    ensures Placed(b, slots)
  {
    forall i | 0 <= i < |slots|
      ensures Data(b)[slots[i].at..slots[i].at + |slots[i].work.body|] == slots[i].work.body
    {
      assert Data(b)[slots[i].at..slots[i].at + |slots[i].work.body|]
          == Data(a)[slots[i].at..slots[i].at + |slots[i].work.body|];
    }
  }

  lemma PlacedSnoc(a: seq<Message>, b: seq<Message>, slots: seq<Slot>, work: Work)
    requires Placed(a, slots) && a <= b && |b| == |a| + |work.body| && Data(b)[|a|..] == work.body
    ensures Placed(b, slots + [Slot(|a|, work)])
  {
    PlacedGrows(a, b, slots);
    assert Data(b)[|a|..|a| + |work.body|] == Data(b)[|a|..];
  }

  /** The sequence check never sees a gap, an old epoch or a bad start. */
  lemma CheckIsClean(c: Setup, w: World, r: Request)
    requires c.name in w.store.streams
    requires Agree(w) && ClosedLast(w) && Sound(c, w) && Counts(c, w) && Faithful(c, w, r)
    ensures var v := CheckProducer(StateOf(w.store, c.name, c.id), Headers(c, r), w.store.streams[c.name].closed);
      && (v.Accept? ==>
            !w.client.closed && r.sequence == |w.slots| == |w.acked| && w.pending == Some(r.work) && Works(w.slots) == w.acked)
      && (v.Duplicate? ==> r.sequence < |w.slots|)
      && (v.Reject? ==> v.error == StreamClosed)
  {
    if w.client.closed {
      assert Works(w.slots)[|w.slots| - 1] == w.slots[|w.slots| - 1].work;
    }
  }

  /** What delivery of a request does to the stream and to the server's record. */
  ghost predicate Handled(c: Setup, w: World, r: Request, now: int, o: Outcome)
    requires c.name in w.store.streams
  {
    var v := CheckProducer(StateOf(w.store, c.name, c.id), Headers(c, r), w.store.streams[c.name].closed);
    var accepted := o.reply.Ok? && o.reply.value.Accepted?;
    && c.name in o.store.streams
    && (accepted ==>
          && v.Accept? && StateOf(o.store, c.name, c.id) == Some(Producer(r.epoch, r.sequence, now))
          && (r.work.close ==> o.store.streams[c.name].closed)
          && Data(o.store.streams[c.name].messages) == Data(w.store.streams[c.name].messages) + r.work.body)
    && (!accepted ==>
          && StateOf(o.store, c.name, c.id) == StateOf(w.store, c.name, c.id)
          && o.store.streams[c.name].closed == w.store.streams[c.name].closed
          && o.store.streams[c.name].messages == w.store.streams[c.name].messages)
    && (o.reply.Ok? && !accepted ==> v.Duplicate?)
    && (o.reply.Err? && SequenceError(o.reply.error) ==> v == Reject(o.reply.error))
  }

  lemma DataOfPush(e: Entry, records: seq<Bytes>)
    ensures Data(Push(e, records).messages) == Data(e.messages) + records
  {
    DataOfStamp(e.nextSeq, e.nextByte, records);
    var more := Stamp(e.nextSeq, e.nextByte, records);
    assert Data(e.messages + more) == Data(e.messages) + Data(more);
  }

  lemma RequestIsHandled(c: Setup, w: World, r: Request, now: int)
    requires c.name in w.store.streams && Kept(c, w, now)
    ensures Handled(c, w, r, now, Handle(c, w.store, r, now))
  {
    hide Stamp, PayloadBytes, EndByte, SameContentType, RenewTtl, ValidateSeq, CheckAccess;
    var e := w.store.streams[c.name];
    assert ProducerOf(PruneStale(e.producers, now), c.id) == ProducerOf(e.producers, c.id);
    DataOfPush(e.(producers := PruneStale(e.producers, now)), r.work.body);
    OtherErrors(e, now);
  }

  /** Only the sequence check reports sequence errors. */
  lemma OtherErrors(e: Entry, now: int)
    ensures var denied := CheckAccess(e.config, e.state, now); denied.Some? ==> !SequenceError(denied.value)
    ensures var config := RenewTtl(e.config, now); config.Err? ==> !SequenceError(config.error)
    ensures var pending := ValidateSeq(e.lastSeq, None); pending.Err? ==> !SequenceError(pending.error)
  {
  }

  /** The store invariant survives, and the stream's messages only grow. */
  lemma HandleKeeps(c: Setup, w: World, r: Request, now: int)
    requires Inv(w.store, w.now) && w.now <= now && c.name in w.store.streams
    ensures var o := Handle(c, w.store, r, now);
      && Inv(o.store, now)
      && (c.name in o.store.streams ==> w.store.streams[c.name].messages <= o.store.streams[c.name].messages)
  {
    hide Holds, AppendWithProducer;
    var op := ProducerOp(c.name, r.work.body, c.contentType, Headers(c, r), r.work.close, None);
    var o := Handle(c, w.store, r, now);
    assert Step(w.store, op, now) == o;
    StepKeeps(w.store, op, w.now, now);
    AppendIsNoBirth(w.store, op, now);
    if c.name in o.store.streams {
      assert Continues(w.store.streams[c.name], o.store.streams[c.name], true);
    }
  }

  lemma AppendIsNoBirth(s: Store, op: Op, now: int)
    requires op.ProducerOp?
    ensures !Reborn(op, Step(s, op, now))
  {
  }

  lemma WorksSnoc(slots: seq<Slot>, slot: Slot)
    ensures Works(slots + [slot]) == Works(slots) + [slot.work]
  {
  }

  lemma DeliverIsSafe(c: Setup, w: World, i: nat, now: int)
    requires Safe(c, w) && i < |w.sent| && Kept(c, w, now)
    ensures Safe(c, Delivered(c, w, i, now))
  {
    hide Holds, Handle, CheckProducer, StateOf, Placed, Stamp;
    var r := w.sent[i];
    var o := Handle(c, w.store, r, now);
    HandleKeeps(c, w, r, now);
    RequestIsHandled(c, w, r, now);
    CheckIsClean(c, w, r);
    var a, b := w.store.streams[c.name].messages, o.store.streams[c.name].messages;
    var w' := Delivered(c, w, i, now);
    if o.reply.Ok? && o.reply.value.Accepted? {
      assert |Data(b)| == |b| && |Data(a)| == |a|;
      PlacedSnoc(a, b, w.slots, r.work);
      WorksSnoc(w.slots, Slot(|a|, r.work));
    }
  }

  /** Another producer's append on the stream leaves a retained state alone. */
  lemma OtherProducer(s: Store, op: Op, now: int, id: string)
    requires op.ProducerOp? && op.producer.id != id
    requires StateOf(s, op.name, id).Some? ==> Retained(StateOf(s, op.name, id).value, now)
    ensures StateOf(Step(s, op, now).store, op.name, id) == StateOf(s, op.name, id)
  {
    hide Stamp, PayloadBytes, EndByte, Expired, SameContentType, CheckProducer;
  }

  lemma OtherIsSafe(c: Setup, w: World, op: Op, now: int)
    requires Safe(c, w) && Kept(c, w, now) && Harmless(c, w, op, now)
    ensures Safe(c, w.(store := Step(w.store, op, now).store, now := now))
  {
    hide Holds, Step, Placed, Sound, Honest, StateOf, ClosedLast, Agree;
    var s' := Step(w.store, op, now).store;
    StepKeeps(w.store, op, w.now, now);
    assert Continues(w.store.streams[c.name], s'.streams[c.name], Touched(op) == Some(c.name));
    PlacedGrows(w.store.streams[c.name].messages, s'.streams[c.name].messages, w.slots);
    if op.ProducerOp? && op.name == c.name {
      OtherProducer(w.store, op, now, c.id);
    } else {
      OtherStep(w.store, op, w.now, now, c.name, c.id);
    }
    SameView(c, w, w.(store := s', now := now));
  }

  /** The client's side of the invariant does not look at the store. */
  lemma SameView(c: Setup, w: World, w': World)
    requires w' == w.(store := w'.store, now := w'.now)
    ensures Agree(w') == Agree(w) && Sound(c, w') == Sound(c, w) && Honest(w') == Honest(w) && ClosedLast(w') == ClosedLast(w)
  {
    forall r ensures Faithful(c, w', r) == Faithful(c, w, r) { }
  }

  lemma SendIsSafe(c: Setup, w: World, work: Work)
    requires Safe(c, w) && (w.pending == None || w.pending == Some(work))
    ensures Safe(c, Send(w, work))
  {
    hide Holds, StateOf, Placed;
    var w' := Send(w, work);
    forall i | 0 <= i < |w'.sent| ensures Faithful(c, w', w'.sent[i]) {
      if i < |w.sent| { assert Faithful(c, w, w.sent[i]); }
    }
  }

  /** A success settles exactly the pending work; a claim is never made. */
  lemma ReceiveIsSafe(c: Setup, w: World, reply: Result<Reply, Error>)
    requires Safe(c, w) && w.awaiting.Some? && w.pending.Some? && (w.awaiting.value, reply) in w.replies
    ensures Safe(c, Received(w, reply))
    ensures !IdempotentProducer.Claims(w.client, AnswerOf(reply), w.retried)
  {
    hide Holds, StateOf, Placed;
    var w' := Received(w, reply);
    assert Faithful(c, w, w.sent[w.awaiting.value]);
    if reply.Ok? && !w.client.closed {
      assert |Works(w.slots)| > |w.acked|;
      assert Works(w.slots) == w.acked + [w.pending.value];
    }
    forall i | 0 <= i < |w'.sent| ensures Faithful(c, w', w'.sent[i]) {
      assert Faithful(c, w, w.sent[i]);
    }
  }

  lemma FailIsSafe(c: Setup, w: World)
    requires Safe(c, w)
    ensures Safe(c, w.(awaiting := None, retried := false))
  {
    hide Holds, StateOf, Placed;
    var w' := w.(awaiting := None, retried := false);
    forall r ensures Faithful(c, w', r) == Faithful(c, w, r) { }
  }

  lemma NextIsSafe(c: Setup, w: World, e: Event)
    requires Safe(c, w) && Enabled(c, w, e)
    ensures Safe(c, Next(c, w, e))
  {
    hide Safe, Kept, Harmless, Step;
    match e
    case Submit(body) => SendIsSafe(c, w, Work(body, false));
    case SubmitClose(body) => SendIsSafe(c, w, Work(if body.Some? then body.value else [], true));
    case Resend => SendIsSafe(c, w, w.pending.value);
    case Fail => FailIsSafe(c, w);
    case Deliver(i, now) => DeliverIsSafe(c, w, i, now);
    case Receive(reply) => ReceiveIsSafe(c, w, reply);
    case Other(op, now) => OtherIsSafe(c, w, op, now);
  }

  // ---------------------------------------------------------------- whole runs

  ghost predicate IsRun(c: Setup, w: World, events: seq<Event>)
    decreases |events|
  {
    events == [] || (Enabled(c, w, events[0]) && IsRun(c, Next(c, w, events[0]), events[1..]))
  }

  ghost function After(c: Setup, w: World, events: seq<Event>): (w': World)
    requires IsRun(c, w, events)
    decreases |events|
  {
    if events == [] then w else After(c, Next(c, w, events[0]), events[1..])
  }

  lemma {:induction false} RunIsSafe(c: Setup, w: World, events: seq<Event>)
    requires Safe(c, w) && IsRun(c, w, events)
    ensures Safe(c, After(c, w, events))
    decreases |events|
  {
    hide Safe, Enabled, Next;
    if events != [] {
      NextIsSafe(c, w, events[0]);
      RunIsSafe(c, Next(c, w, events[0]), events[1..]);
    }
  }

  /** A producer that has not sent anything, and a store that has not heard of it. */
  ghost predicate Initial(c: Setup, w: World) {
    && Inv(w.store, w.now) && c.name in w.store.streams && StateOf(w.store, c.name, c.id).None?
    && w.client.epoch == c.epoch && w.client.nextSeq == 0 && !w.client.closed
    && w.pending.None? && w.awaiting.None? && w.sent == [] && w.replies == {}
    && w.acked == [] && w.late == [] && w.slots == []
  }

  /**
   Exactly once, end to end: after every run the work stored for the producer is the
   work acknowledged up to and including its close, in order, plus at most the one piece
   in flight before that; each body lies whole and unbroken among the stream's
   messages; the epoch never moved and no reply was ever fenced or out of sequence.
   */
  lemma ExactlyOnce(c: Setup, w: World, events: seq<Event>)
    requires Initial(c, w) && IsRun(c, w, events)
    ensures var w' := After(c, w, events);
      && (Works(w'.slots) == w'.acked
          || (!w'.client.closed && w'.pending.Some? && Works(w'.slots) == w'.acked + [w'.pending.value]))
      && (forall i :: 0 <= i < |w'.acked| && w'.acked[i].close ==> i == |w'.acked| - 1)
      && (w'.late != [] ==> w'.client.closed)
      && c.name in w'.store.streams && Placed(w'.store.streams[c.name].messages, w'.slots)
      && w'.client.epoch == c.epoch && (!w'.client.closed ==> w'.client.nextSeq == |w'.acked|)
      && (forall p :: p in w'.replies && p.1.Err? ==> !SequenceError(p.1.error))
  {
    hide Holds, StateOf, Enabled, Next, Inv;
    assert Works(w.slots) == w.acked;
    assert Safe(c, w);
    RunIsSafe(c, w, events);
  }
}
