/**
 The read of a fork with a sliding deadline, in its real steps: capture under the lock,
 assemble without it, then renew the deadline of whatever the entry has become.
 */
module Renewal {
  import opened Wrappers
  import opened Offsets
  import opened Streams
  import opened Lineage
  import opened Stores
  import opened StoreInvariant
  import opened StoreRuns
  import opened ForkStability
  import opened Tombstones

  /** The last step of the read: no access check is repeated. */
  function Renew(s: Store, name: string, now: int): (s': Store)
    requires name in s.streams
  {
    var e := s.streams[name];
    var config := RenewTtl(e.config, now);
    if config.Err? then s else Put(s, name, e.(config := config.value), s.total)
  }

  /** The renewal gives an unreferenced tombstone a deadline that has not passed. */
  predicate Revives(s: Store, name: string, now: int)
    requires name in s.streams
  {
    var c := s.streams[name].config;
    Stranded(s.streams, name) && c.ttl.Some? && c.ttl.value > 0 && RenewTtl(c, now).Ok?
  }

  lemma RenewSettlesIff(s: Store, name: string, now: int)
    requires name in s.streams && Settled(s.streams, now)
    ensures Settled(Renew(s, name, now).streams, now) <==> !Revives(s, name, now)
  {
    var c' := Renew(s, name, now).streams;
    if Revives(s, name, now) {
      assert c'[name].state.Tombstone? && c'[name].refCount == 0 && !Expired(c'[name].config, now);
    }
  }

  /** The renewal keeps the whole invariant if and only if it does not revive a stranded tombstone. */
  lemma RenewKeepsIff(s: Store, t: int, name: string, now: int)
    requires Inv(s, t) && t <= now && name in s.streams
    ensures Inv(Renew(s, name, now), now) <==> !Revives(s, name, now)
  {
    hide WellStamped, SumBytes, Settled, Less;
    SameKeeps(s, t, now, None);
    RenewSettlesIff(s, name, now);
    var c, c' := s.streams, Renew(s, name, now).streams;
    if RenewTtl(c[name].config, now).Ok? {
      StampedSame(c[name], c'[name]);
      AccountsPut(s, name, c'[name], s.total);
      LinksUnchanged(c, c');
      CountsUnchanged(c, c', None, None);
      NeverBackwards();
      AnchorsUnchanged(c, c');
    }
  }

  /**
   Capture, anything else, assemble, renew: the reply is the view at capture, no record,
   tail or flag of any stream is changed by the renewal, and the store invariant holds
   afterwards if and only if what ran between did not strand the stream.
   */
  lemma ReadInSteps(s: Store, t: int, events: seq<Event>, f: string, from: Offset, now: int)
    requires Inv(s, t) && Timely(s, t, events) && Undisturbed(s, events, f)
    requires EndTime(t, events) <= now && f in Run(s, events).streams
    ensures var s1 := Run(s, events);
      && Linked(s1.streams)
      && FinishRead(s1.streams, from, PrepareRead(s.streams[f], from)) == ReadView(s.streams, f, from)
      && Renew(s1, f, now).total == s1.total
      && Renew(s1, f, now).streams == s1.streams[f := s1.streams[f].(config := Renew(s1, f, now).streams[f].config)]
      && (Inv(Renew(s1, f, now), now) <==> !Revives(s1, f, now))
  {
    hide Holds, Step, Undisturbed, FinishRead, ReadView, PrepareRead, Revives;
    RunKeeps(s, t, events);
    TwoPhaseReadIsAtomic(s, t, events, f, from);
    RenewKeepsIff(Run(s, events), EndTime(t, events), f, now);
  }

  // ---------------------------------------------------------------- a reachable revival

  const ROOT: Config := Config("text/plain", None, None, false)
  const MIDDLE: Config := Config("text/plain", Some(5), Some(5), false)
  const LEAF: Config := Config("text/plain", None, Some(5), false)

  function Child(config: Config, source: string): (e: Entry) {
    ForkEntry(config, Fork(source, Concrete(0, 0), 0))
  }

  function Stored(streams: Catalog): (s: Store) { Store(streams, 0, 100, 100) }

  const S1: Store := Stored(map["root" := NewEntry(ROOT)])
  const S2: Store := Stored(map["root" := NewEntry(ROOT).(refCount := 1), "middle" := Child(MIDDLE, "root")])
  const S3: Store := Stored(map[
    "root" := NewEntry(ROOT).(refCount := 1), "middle" := Child(MIDDLE, "root").(refCount := 1), "leaf" := Child(LEAF, "middle")])
  const S4: Store := Stored(map["root" := NewEntry(ROOT).(refCount := 1), "middle" := Child(MIDDLE, "root").(state := Tombstone)])

  const BARE: ForkOptions := ForkOptions(0, true, Some([]))
  const CREATE_ROOT: Op := CreateRootOp("root", Options("text/plain", Never, false), [], false)
  const CREATE_MIDDLE: Op := CreateForkOp("middle", "root", None, Options("text/plain", Sliding(5), false), BARE)
  const CREATE_LEAF: Op := CreateForkOp("leaf", "middle", None, Options("text/plain", At(5), false), BARE)
  const VISITS: seq<(string, nat)> := [("leaf", 0), ("middle", 1)]

  lemma RootCreated()
    ensures Step(EmptyStore(100, 100), CREATE_ROOT, 0).store == S1
  {
    assert map["root" := NewEntry(ROOT)] == (map[])["root" := NewEntry(ROOT)];
  }

  lemma Forks(s: Store, name: string, source: string, config: Config, requested: Config, now: int)
    requires source in s.streams && name !in s.streams && name != source
    requires s.streams[source].Tail() == Concrete(0, 0) && s.streams[source].state.Active?
    requires !Expired(s.streams[source].config, now) && s.streams[source].config.contentType == requested.contentType == "text/plain"
    requires ForkConfig(s.streams[source].config, requested, now) == Ok(config) && config.contentType == "text/plain"
    ensures PrepareForkSpec(source, s.streams[source], None, requested, 0, now)
         == Ok(ForkSpec(Fork(source, Concrete(0, 0), 0), config))
    ensures InitialForkMessages(config, BARE, []) == Ok([])
    ensures PlaceFork(s, name, ForkSpec(Fork(source, Concrete(0, 0), 0), config), [], now).store
         == s.(streams := AddReference(s.streams[name := Child(config, source)], source))
  {
    var none: seq<Bytes> := [];
    assert none + none == none;
  }

  lemma MiddleCreated()
    ensures Step(S1, CREATE_MIDDLE, 0).store == S2
  {
    assert "root" != "middle";
    Forks(S1, "middle", "root", MIDDLE, MIDDLE, 0);
    hide PrepareForkSpec, PlaceFork, InitialForkMessages;
    assert Step(S1, CREATE_MIDDLE, 0).store.streams == S2.streams;
  }

  lemma LeafCreated()
    ensures Step(S2, CREATE_LEAF, 0).store == S3
  {
    assert "root" != "middle" && "leaf" != "middle" && "leaf" != "root";
    Forks(S2, "leaf", "middle", LEAF, LEAF, 0);
    hide PrepareForkSpec, PlaceFork, InitialForkMessages;
    assert Step(S2, CREATE_LEAF, 0).store.streams == S3.streams;
  }

  lemma Swept()
    ensures Gathered(S3, 6, VISITS) && SweepAll(S3, VISITS) == S4
  {
    assert VISITS[0].0 == "leaf" && VISITS[1].0 == "middle" && "root" != "middle" && "root" != "leaf";
    assert VISITS[1..] == [("middle", 1)] && VISITS[1..][1..] == [];
    var s1 := SweepOne(S3, "leaf", 0);
    assert s1.streams == map["root" := NewEntry(ROOT).(refCount := 1), "middle" := Child(MIDDLE, "root")];
    assert SweepOne(s1, "middle", 1).streams == S4.streams;
  }

  const EVENTS: seq<Event> := [Event(SweepOp(VISITS), 6)]

  /** A read captured at time 0, a sweep at 6, the renewal at 6: the invariant is broken. */
  lemma RevivalIsReachable()
    ensures var created := [Event(CREATE_ROOT, 0), Event(CREATE_MIDDLE, 0), Event(CREATE_LEAF, 0)];
      && Timely(EmptyStore(100, 100), 0, created) && Run(EmptyStore(100, 100), created) == S3
      && CheckAccess(S3.streams["middle"].config, S3.streams["middle"].state, 0).None?
      && Timely(S3, 0, EVENTS) && Run(S3, EVENTS) == S4
      && Inv(S4, 6) && !Inv(Renew(S4, "middle", 6), 6)
  {
    RootCreated();
    MiddleCreated();
    LeafCreated();
    Swept();
    SweepStep();
    hide Step, Gathered, Holds;
    var s0 := EmptyStore(100, 100);
    var root, middle, leaf := Event(CREATE_ROOT, 0), Event(CREATE_MIDDLE, 0), Event(CREATE_LEAF, 0);
    RunOne(S2, 0, leaf, S3, [], S3);
    RunOne(S1, 0, middle, S2, [leaf] + [], S3);
    RunOne(s0, 0, root, S1, [middle] + ([leaf] + []), S3);
    assert [root] + ([middle] + ([leaf] + [])) == [root, middle, leaf];
    ReachableStores(100, 100, 0, [root, middle, leaf]);
    RunOne(S3, 0, Event(SweepOp(VISITS), 6), S4, [], S4);
    assert [Event(SweepOp(VISITS), 6)] + [] == EVENTS;
    RunKeeps(S3, 0, EVENTS);
    RenewKeepsIff(S4, 6, "middle", 6);
  }

  lemma SweepStep()
    ensures Step(S3, SweepOp(VISITS), 6).store == SweepAll(S3, VISITS)
  {
  }
}
