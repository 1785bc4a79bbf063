/** Concrete producer requests where an expectation fails. */
module ProducerExamples {
  import opened Wrappers
  import opened Streams
  import opened Stores
  import opened ProducerProtocol
  import opened ProducerClose

  /** A close-only producer append closes the stream and sends no notification. */
  lemma CloseWithoutNotice()
    ensures var op := ProducerOp("s", [], "text/plain", ProducerHeaders("p", 0, 0), true, None);
      var before, after := OneStream(OPEN).streams["s"], Step(OneStream(OPEN), op, 0).store.streams["s"];
      !before.closed && after.closed && after.notices == before.notices
  {
    CloseAccepted();
  }

  const ONCE: Entry := Push(OPEN, [[1]]).(notices := 1, producers := map["p" := Producer(0, 0, 0)])
  const APPEND: Request := Request(0, 0, Work([[1]], false))

  lemma FirstAccepted()
    ensures Handle(SETUP, OneStream(OPEN), APPEND, 0)
         == Outcome(OneStream(ONCE).(total := 1), Ok(Accepted(0, 0, ONCE.Tail(), false)))
  {
    assert PruneStale(map[], 0) == map[];
    var s := Put(OneStream(OPEN), "s", OPEN, 0);
    assert s.streams == OneStream(OPEN).streams;
    var records: seq<Bytes> := [[1]];
    assert records[1..] == [];
    assert PayloadBytes(records) == 1;
    assert SameContentType("text/plain", "text/plain");
    assert map["p" := Producer(0, 0, 0)] == (map[])["p" := Producer(0, 0, 0)];
  }

  /** Seven days later the same pair is accepted again, and its record stored twice. */
  lemma IdledOutPairIsStoredTwice()
    ensures var s1 := Handle(SETUP, OneStream(OPEN), APPEND, 0).store;
      var o := Handle(SETUP, s1, APPEND, PRODUCER_STATE_TTL_SECS);
      && o.reply.Ok? && o.reply.value.Accepted?
      && "s" in o.store.streams && Data(o.store.streams["s"].messages) == [[1], [1]]
  {
    FirstAccepted();
    var s1 := OneStream(ONCE).(total := 1);
    var later := PRODUCER_STATE_TTL_SECS;
    assert PruneStale(ONCE.producers, later) == map[];
    var e := ONCE.(producers := map[]);
    assert SameContentType("text/plain", "text/plain");
    var records: seq<Bytes> := [[1]];
    assert records[1..] == [];
    assert PayloadBytes(records) == 1;
    DataOfPush(OPEN, [[1]]);
    DataOfPush(e, [[1]]);
    assert Data(OPEN.messages) == [];
  }
}
