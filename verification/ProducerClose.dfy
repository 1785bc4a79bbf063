/**
 What a producer's close means for what it sends afterwards. The client neither moves
 its sequence number past the close nor refuses to send, so later work can be reported
 as a success without being stored.
 */
module ProducerClose {
  import opened Wrappers
  import opened Streams
  import opened Stores
  import opened StoreInvariant
  import StoreRuns
  import opened ProducerRuns
  import opened ProducerProtocol
  import IdempotentProducer

  // ---------------------------------------------------------------- one request after a close

  /** The stream is closed and the last thing accepted from this producer is `(epoch, q)`. */
  ghost predicate ClosedAt(c: Setup, s: Store, epoch: nat, q: nat) {
    && c.name in s.streams && s.streams[c.name].closed
    && StateOf(s, c.name, c.id).Some?
    && StateOf(s, c.name, c.id).value.epoch == epoch && StateOf(s, c.name, c.id).value.lastSeq == q
  }

  /** The request reaches the sequence check: the stream is there, of the right type, and the state retained. */
  ghost predicate Reaches(c: Setup, s: Store, r: Request, now: int) {
    && c.name in s.streams
    && CheckAccess(s.streams[c.name].config, s.streams[c.name].state, now).None?
    && (r.work.body == [] || SameContentType(s.streams[c.name].config.contentType, c.contentType))
    && (StateOf(s, c.name, c.id).Some? ==> Retained(StateOf(s, c.name, c.id).value, now))
  }

  /**
   On a stream closed at `(epoch, q)` any further request of the epoch, append or close,
   with any body, is answered as a success exactly when its sequence is at most `q`, and
   as closed otherwise. Neither stores anything.
   */
  lemma AnswerAfterCloseIff(c: Setup, s: Store, q: nat, r: Request, now: int)
    requires ClosedAt(c, s, r.epoch, q) && Reaches(c, s, r, now)
    ensures var o := Handle(c, s, r, now);
      && (AnswerOf(o.reply).Success? <==> r.sequence <= q)
      && (r.sequence > q ==> o.reply == Err(StreamClosed))
      && ClosedAt(c, o.store, r.epoch, q)
      && o.store.streams[c.name].messages == s.streams[c.name].messages
  {
    hide Expired, SameContentType, AcceptFromProducer;
    var e := s.streams[c.name];
    assert ProducerOf(PruneStale(e.producers, now), c.id) == ProducerOf(e.producers, c.id);
  }

  /** An accepted close, whatever its body, closes the stream at its own sequence number. */
  lemma CloseClosesAt(c: Setup, s: Store, r: Request, now: int)
    requires r.work.close && Handle(c, s, r, now).reply.Ok? && Handle(c, s, r, now).reply.value.Accepted?
    ensures ClosedAt(c, Handle(c, s, r, now).store, r.epoch, r.sequence)
  {
    hide Expired, SameContentType, CheckProducer, PruneStale, Stamp, EndByte, PayloadBytes;
  }

  // ---------------------------------------------------------------- whole runs

  /** All records of the work, in order. */
  function Records(ws: seq<Work>): (records: seq<Bytes>)
    decreases |ws|
  {
    if ws == [] then [] else Records(ws[..|ws| - 1]) + ws[|ws| - 1].body
  }

  lemma {:induction false} RecordsConcat(a: seq<Work>, b: seq<Work>)
    ensures Records(a + b) == Records(a) + Records(b)
    decreases |b|
  {
    if b == [] {
      assert a + b == a;
    } else {
      assert (a + b)[..|a + b| - 1] == a + b[..|b| - 1];
      RecordsConcat(a, b[..|b| - 1]);
    }
  }

  lemma {:induction false} NoRecordsIff(ws: seq<Work>)
    ensures Records(ws) == [] <==> forall i :: 0 <= i < |ws| ==> ws[i].body == []
    decreases |ws|
  {
    if ws != [] {
      NoRecordsIff(ws[..|ws| - 1]);
      forall i | 0 <= i < |ws| - 1 ensures ws[i] == ws[..|ws| - 1][i] { }
    }
  }

  /** The stored records are the acknowledged ones, perhaps with those in flight. */
  predicate RecordsAgree(w: World) {
    || Records(Works(w.slots)) == Records(w.acked + w.late)
    || (w.pending.Some? && Records(Works(w.slots)) == Records(w.acked + w.late + [w.pending.value]))
  }

  /**
   After every run the stored records agree with the acknowledged ones if and only if no
   work with a non-empty body was acknowledged after the close.
   */
  lemma RecordsAgreeIff(c: Setup, w: World, events: seq<Event>)
    requires Initial(c, w) && IsRun(c, w, events)
    ensures var w' := After(c, w, events);
      RecordsAgree(w') <==> forall i :: 0 <= i < |w'.late| ==> w'.late[i].body == []
  {
    ExactlyOnce(c, w, events);
    var w' := After(c, w, events);
    hide Enabled, Next, Initial, IsRun, After, Placed, SequenceError, Records;
    NoRecordsIff(w'.late);
    RecordsConcat(w'.acked, w'.late);
    if w'.pending.Some? {
      RecordsConcat(w'.acked + w'.late, [w'.pending.value]);
      RecordsConcat(w'.acked, [w'.pending.value]);
    }
    if w'.late == [] {
      assert w'.acked + w'.late == w'.acked;
    }
  }

  // ---------------------------------------------------------------- a concrete run

  const PLAIN: Config := Config("text/plain", None, None, false)
  const SETUP: Setup := Setup("s", "p", "text/plain", 0)
  const OPEN: Entry := NewEntry(PLAIN)
  const CLOSED: Entry := OPEN.(closed := true, producers := map["p" := Producer(0, 0, 0)])
  const ENDING: Work := Work([], true)
  const EXTRA: Work := Work([[1]], false)

  function OneStream(e: Entry): (s: Store) { Store(map["s" := e], 0, 100, 100) }

  lemma OpenIsReachable()
    ensures Inv(OneStream(OPEN), 0)
  {
    var op := CreateRootOp("s", Options("text/plain", Never, false), [], false);
    var events := [StoreRuns.Event(op, 0)];
    var empty := StoreRuns.EmptyStore(100, 100);
    assert Step(empty, op, 0).store == OneStream(OPEN) by {
      assert map["s" := OPEN] == (map[])["s" := OPEN];
    }
    assert events[1..] == [];
    assert StoreRuns.Run(empty, events) == OneStream(OPEN) && StoreRuns.Timely(empty, 0, events);
    StoreRuns.ReachableStores(100, 100, 0, events);
  }

  lemma CloseAccepted()
    ensures Handle(SETUP, OneStream(OPEN), Request(0, 0, ENDING), 0)
         == Outcome(OneStream(CLOSED), Ok(Accepted(0, 0, OPEN.Tail(), true)))
  {
    assert PruneStale(map[], 0) == map[];
    var s := Put(OneStream(OPEN), "s", OPEN, 0);
    assert s.streams == OneStream(OPEN).streams;
    assert map["p" := Producer(0, 0, 0)] == (map[])["p" := Producer(0, 0, 0)];
  }

  lemma ExtraIsDuplicate()
    ensures Handle(SETUP, OneStream(CLOSED), Request(0, 0, EXTRA), 0)
         == Outcome(OneStream(CLOSED), Ok(DuplicateOf(0, 0, OPEN.Tail(), true)))
  {
    assert PruneStale(CLOSED.producers, 0) == CLOSED.producers;
    assert SameContentType("text/plain", "text/plain");
  }

  const ACCEPTED: Result<Reply, Error> := Ok(Accepted(0, 0, OPEN.Tail(), true))
  const REPEATED: Result<Reply, Error> := Ok(DuplicateOf(0, 0, OPEN.Tail(), true))
  const IDLE: IdempotentProducer.Client := IdempotentProducer.Client(false, 0, 0, false)

  const W0: World := World(OneStream(OPEN), 0, IDLE, None, None, false, [], {}, [], [], [])
  const W1: World := W0.(pending := Some(ENDING), awaiting := Some(0), sent := [Request(0, 0, ENDING)])
  const W2: World := W1.(store := OneStream(CLOSED), replies := {(0, ACCEPTED)}, slots := [Slot(0, ENDING)])
  const W3: World := W2.(client := IDLE.(closed := true), pending := None, awaiting := None, acked := [ENDING])
  const W4: World :=
    W3.(pending := Some(EXTRA), awaiting := Some(1), sent := [Request(0, 0, ENDING), Request(0, 0, EXTRA)])
  const W5: World := W4.(replies := {(0, ACCEPTED), (1, REPEATED)})
  const W6: World := W5.(client := IDLE.(closed := true, nextSeq := 1), pending := None, awaiting := None, late := [EXTRA])

  lemma CloseSent()
    ensures Enabled(SETUP, W0, SubmitClose(None)) && Next(SETUP, W0, SubmitClose(None)) == W1
  {
  }

  lemma CloseDelivered()
    ensures Enabled(SETUP, W1, Deliver(0, 0)) && Next(SETUP, W1, Deliver(0, 0)) == W2
  {
    hide Handle;
    CloseAccepted();
    assert StateOf(OneStream(OPEN), "s", "p") == None;
    assert W2.slots == W1.slots + [Slot(0, ENDING)] && W2.replies == W1.replies + {(0, ACCEPTED)};
  }

  lemma CloseReceived()
    ensures Enabled(SETUP, W2, Receive(ACCEPTED)) && Next(SETUP, W2, Receive(ACCEPTED)) == W3
  {
  }

  lemma ExtraSent()
    ensures Enabled(SETUP, W3, Submit([[1]])) && Next(SETUP, W3, Submit([[1]])) == W4
  {
  }

  lemma ExtraDelivered()
    ensures Enabled(SETUP, W4, Deliver(1, 0)) && Next(SETUP, W4, Deliver(1, 0)) == W5
  {
    hide Handle;
    ExtraIsDuplicate();
    assert StateOf(OneStream(CLOSED), "s", "p") == Some(Producer(0, 0, 0));
    assert W5.replies == W4.replies + {(1, REPEATED)};
  }

  lemma ExtraReceived()
    ensures Enabled(SETUP, W5, Receive(REPEATED)) && Next(SETUP, W5, Receive(REPEATED)) == W6
  {
  }

  const EVENTS: seq<Event> :=
    [SubmitClose(None), Deliver(0, 0), Receive(ACCEPTED), Submit([[1]]), Deliver(1, 0), Receive(REPEATED)]

  /** Close, acknowledge, append, acknowledge: the appended record is nowhere. */
  lemma AcknowledgedButNotStored()
    ensures Initial(SETUP, W0) && IsRun(SETUP, W0, EVENTS)
    ensures var w := After(SETUP, W0, EVENTS);
      && w.late == [EXTRA] && w.store == OneStream(CLOSED) && CLOSED.messages == [] && !RecordsAgree(w)
  {
    OpenIsReachable();
    CloseSent();
    CloseDelivered();
    CloseReceived();
    ExtraSent();
    ExtraDelivered();
    ExtraReceived();
    hide Enabled, Next, Inv, RecordsAgree;
    var e0, e1, e2, e3, e4, e5 := EVENTS[0], EVENTS[1], EVENTS[2], EVENTS[3], EVENTS[4], EVENTS[5];
    RunStep(W5, e5, W6, [], W6);
    RunStep(W4, e4, W5, [e5] + [], W6);
    RunStep(W3, e3, W4, [e4] + ([e5] + []), W6);
    RunStep(W2, e2, W3, [e3] + ([e4] + ([e5] + [])), W6);
    RunStep(W1, e1, W2, [e2] + ([e3] + ([e4] + ([e5] + []))), W6);
    RunStep(W0, e0, W1, [e1] + ([e2] + ([e3] + ([e4] + ([e5] + [])))), W6);
    assert [e0] + ([e1] + ([e2] + ([e3] + ([e4] + ([e5] + []))))) == EVENTS;
    hide IsRun, After;
    RecordsAgreeIff(SETUP, W0, EVENTS);
    assert W6.late[0].body != [];
  }

  lemma RunStep(w: World, e: Event, next: World, rest: seq<Event>, last: World)
    requires Enabled(SETUP, w, e) && Next(SETUP, w, e) == next
    requires IsRun(SETUP, next, rest) && After(SETUP, next, rest) == last
    ensures IsRun(SETUP, w, [e] + rest) && After(SETUP, w, [e] + rest) == last
  {
    hide Enabled, Next;
    assert ([e] + rest)[0] == e && ([e] + rest)[1..] == rest;
  }
}
