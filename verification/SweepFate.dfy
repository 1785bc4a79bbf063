/**
 The fate of every stream under a sweep, read off the store before it: which streams
 are gone by which point, and which tombstones are left unreferenced.
 */
module SweepFate {
  import opened Wrappers
  import opened Offsets
  import opened Streams
  import opened Lineage
  import opened Stores
  import opened StoreInvariant
  import opened StoreRuns
  import opened Tombstones

  type Visits = seq<(string, nat)>

  /** The streams of greater height; a fork's are fewer than its source's. */
  ghost function Above(c: Catalog, x: string): (names: set<string>)
    requires Linked(c)
  {
    set m | m in c && Height(c, m) > Height(c, x)
  }

  lemma AboveShrinks(c: Catalog, x: string, m: string)
    requires Linked(c) && x in c && m in Children(c, x)
    ensures Above(c, m) < Above(c, x)
  {
    assert Climbs(c, Rank(c), m);
    assert m in Above(c, x) && m !in Above(c, m);
  }

  /** Visited before `i` with no forks counted: removed on the spot. */
  predicate Taken(expired: Visits, x: string, i: nat)
    requires i <= |expired|
  {
    exists j :: 0 <= j < i && expired[j] == (x, 0)
  }

  /** Visited before `i` with forks counted: made a tombstone if still there. */
  predicate Buried(expired: Visits, x: string, i: nat)
    requires i <= |expired|
  {
    exists j :: 0 <= j < i && expired[j].0 == x && expired[j].1 > 0
  }

  /** Removed by the visits before `i`: at its own, or with its last fork if it was a tombstone by then. */
  ghost predicate Gone(c: Catalog, expired: Visits, x: string, i: nat)
    requires Linked(c) && x in c && i <= |expired|
    decreases Above(c, x), 2
  {
    || Taken(expired, x, i)
    || (Children(c, x) != {} && AllGone(c, expired, x, i) && (c[x].state.Tombstone? || InTime(c, expired, x, i)))
  }

  /** Visited before `i` while one of its forks was left. */
  ghost predicate InTime(c: Catalog, expired: Visits, x: string, i: nat)
    requires Linked(c) && x in c && i <= |expired|
    decreases Above(c, x), 1
  {
    exists j :: 0 <= j < i && expired[j].0 == x && !AllGone(c, expired, x, j)
  }

  ghost predicate AllGone(c: Catalog, expired: Visits, x: string, i: nat)
    requires Linked(c) && x in c && i <= |expired|
    decreases Above(c, x), 0
  {
    forall m :: m in Children(c, x) ==> (AboveShrinks(c, x, m); Gone(c, expired, m, i))
  }

  lemma {:induction false} GoneStays(c: Catalog, expired: Visits, x: string, i: nat, k: nat)
    requires Linked(c) && x in c && i <= k <= |expired| && Gone(c, expired, x, i)
    ensures Gone(c, expired, x, k)
    decreases Above(c, x), 1
  {
    if !Taken(expired, x, i) { AllGoneStays(c, expired, x, i, k); }
  }

  lemma {:induction false} AllGoneStays(c: Catalog, expired: Visits, x: string, i: nat, k: nat)
    requires Linked(c) && x in c && i <= k <= |expired| && AllGone(c, expired, x, i)
    ensures AllGone(c, expired, x, k)
    decreases Above(c, x), 0
  {
    forall m | m in Children(c, x) ensures Gone(c, expired, m, k) {
      AboveShrinks(c, x, m);
      GoneStays(c, expired, m, i, k);
    }
  }

  // ---------------------------------------------------------------- the sweep follows the prediction

  ghost predicate Follows(c: Catalog, expired: Visits, s: Store, i: nat, x: string)
    requires Linked(c) && x in c && i <= |expired|
  {
    && (x in s.streams <==> !Gone(c, expired, x, i))
    && (x in s.streams ==>
          (s.streams[x].state.Tombstone? <==> c[x].state.Tombstone? || Buried(expired, x, i)))
  }

  /** After `i` visits: the invariant, the visits still to come, and every stream where it was predicted. */
  ghost predicate Tracks(c: Catalog, expired: Visits, s: Store, i: nat, now: int)
    requires Linked(c) && i <= |expired|
  {
    && Inv(s, now) && SweepReady(s, now, expired[i..]) && KeptAll(c, s.streams)
    && forall x :: x in c ==> Follows(c, expired, s, i, x)
  }

  /** The counts of the visits are those of the store before the sweep. */
  ghost predicate Counts(c: Catalog, expired: Visits) {
    && (forall i :: 0 <= i < |expired| ==>
          expired[i].0 in c && (expired[i].1 == 0 <==> Children(c, expired[i].0) == {}))
    && (forall i, j :: 0 <= i < j < |expired| ==> expired[i].0 != expired[j].0)
  }

  lemma RefsAreChildren(s: Store, now: int, x: string)
    requires Inv(s, now) && x in s.streams
    ensures s.streams[x].refCount == 0 <==> Children(s.streams, x) == {}
  {
    hide Linked, Settled, Anchored, Accounted;
    assert |Children(s.streams, x)| == s.streams[x].refCount;
  }

  lemma ChildrenLeft(c: Catalog, c': Catalog, x: string)
    requires KeptAll(c, c')
    ensures Children(c', x) == set m | m in Children(c, x) && m in c'
  {
  }

  lemma NewlyTaken(expired: Visits, x: string, i: nat)
    requires i < |expired|
    ensures Taken(expired, x, i + 1) <==> Taken(expired, x, i) || expired[i] == (x, 0)
    ensures Buried(expired, x, i + 1) <==> Buried(expired, x, i) || (expired[i].0 == x && expired[i].1 > 0)
  {
  }

  /** A visit that removes: what goes with it is what was predicted to go. */
  lemma {:induction false} RemovalFollows(c: Catalog, expired: Visits, s: Store, i: nat, now: int, x: string)
    requires Linked(c) && Counts(c, expired) && i < |expired| && Tracks(c, expired, s, i, now) && x in c
    requires expired[i].1 == 0 && expired[i].0 in s.streams && s.streams[expired[i].0].refCount == 0
    ensures x in Remove(s, expired[i].0).streams <==> !Gone(c, expired, x, i + 1)
    decreases Above(c, x)
  {
    hide Inv, SweepReady, Remove, Cascade;
    var name := expired[i].0;
    var s' := Remove(s, name);
    RemoveKeeps(s, name, now);
    NewlyTaken(expired, x, i);
    assert Follows(c, expired, s, i, x);
    if x == name {
    } else if Gone(c, expired, x, i) {
      GoneStays(c, expired, x, i, i + 1);
    } else {
      forall m | m in Children(c, x) ensures m in s'.streams <==> !Gone(c, expired, m, i + 1) {
        AboveShrinks(c, x, m);
        RemovalFollows(c, expired, s, i, now, m);
      }
      RemoveExact(s, name, now, x);
      RefsAreChildren(s, now, x);
      ChildrenLeft(c, s.streams, x);
      RemovalMatches(c, expired, s, i, now, x);
    }
  }

  /** For a stream still there: the cascade takes it exactly when the prediction says so. */
  lemma RemovalMatches(c: Catalog, expired: Visits, s: Store, i: nat, now: int, x: string)
    requires Linked(c) && Counts(c, expired) && i < |expired| && Tracks(c, expired, s, i, now) && x in c
    requires x != expired[i].0 && !Gone(c, expired, x, i) && x in s.streams
    requires var s' := Remove(s, expired[i].0);
      (forall m :: m in Children(c, x) ==> (m in s'.streams <==> !Gone(c, expired, m, i + 1)))
      && s'.streams.Keys <= s.streams.Keys
    requires s.streams[x].refCount == 0 <==> Children(s.streams, x) == {}
    requires Children(s.streams, x) == set m | m in Children(c, x) && m in s.streams
    ensures Collected(s, Remove(s, expired[i].0), x) <==> Gone(c, expired, x, i + 1)
  {
    hide Inv, SweepReady, Remove, KeptAll, AllGone, InTime, Taken, Buried, Counts, Children;
    var s' := Remove(s, expired[i].0);
    NewlyTaken(expired, x, i);
    assert Follows(c, expired, s, i, x);
    ChildrenAreStored(c, x);
    forall m | m in Children(c, x) ensures m in s.streams <==> !Gone(c, expired, m, i) {
      assert Follows(c, expired, s, i, m);
    }
    GoneByNow(c, expired, x, i, s.streams.Keys, s'.streams.Keys);
    BuriedInTime(c, expired, x, i);
    hide Tracks, Follows;
    forall m | m in Children(s.streams, x) ensures m in Children(c, x) && m in s.streams { }
    forall m | m in Children(c, x) && m in s.streams ensures m in Children(s.streams, x) { }
  }

  lemma ChildrenAreStored(c: Catalog, x: string)
    ensures Children(c, x) <= c.Keys
  {
  }

  /** Who is gone, read off who is left before and after the visit. */
  lemma GoneByNow(c: Catalog, expired: Visits, x: string, i: nat, before: set<string>, after: set<string>)
    requires Linked(c) && i < |expired| && x in c && after <= before
    requires Children(c, x) <= c.Keys
    requires forall m :: m in Children(c, x) ==> (m in before <==> !Gone(c, expired, m, i))
    requires forall m :: m in Children(c, x) ==> (m in after <==> !Gone(c, expired, m, i + 1))
    ensures AllGone(c, expired, x, i + 1) <==> forall m :: m in Children(c, x) && m in before ==> m !in after
    ensures AllGone(c, expired, x, i) <==> forall m :: m in Children(c, x) ==> m !in before
  {
    hide Gone, Children;
  }

  /** Visited by `i` while a fork is left: it was visited in time. */
  lemma BuriedInTime(c: Catalog, expired: Visits, x: string, i: nat)
    requires Linked(c) && Counts(c, expired) && i < |expired| && x in c && x != expired[i].0
    ensures Children(c, x) != {} && !AllGone(c, expired, x, i) ==> (Buried(expired, x, i) <==> InTime(c, expired, x, i + 1))
    ensures InTime(c, expired, x, i + 1) <==> InTime(c, expired, x, i)
  {
    hide AllGone, Children;
    if Buried(expired, x, i) && !AllGone(c, expired, x, i) {
      var j :| 0 <= j < i && expired[j].0 == x && expired[j].1 > 0;
      if AllGone(c, expired, x, j) { AllGoneStays(c, expired, x, j, i); }
    }
  }

  lemma RemovalTracks(c: Catalog, expired: Visits, s: Store, i: nat, now: int)
    requires Linked(c) && Counts(c, expired) && i < |expired| && Tracks(c, expired, s, i, now)
    requires expired[i].1 == 0
    ensures Tracks(c, expired, SweepOne(s, expired[i].0, 0), i + 1, now)
  {
    hide Remove, Gone, AllGone, Taken, Buried, Holds;
    var name := expired[i].0;
    var s' := Remove(s, name);
    assert expired[i..][0] == expired[i] && expired[i..][1..] == expired[i + 1..];
    SweepOneKeeps(s, now, expired[i..]);
    forall x | x in c ensures Follows(c, expired, s', i + 1, x) {
      assert Follows(c, expired, s, i, x);
      RemovalFollows(c, expired, s, i, now, x);
      NewlyTaken(expired, x, i);
      if x in s'.streams {
        RemoveKeeps(s, name, now);
        RemoveExact(s, name, now, x);
      }
    }
  }

  lemma {:induction false} BurialForetold(c: Catalog, expired: Visits, i: nat, x: string)
    requires Linked(c) && Counts(c, expired) && i < |expired| && x in c && expired[i].1 > 0
    ensures Gone(c, expired, x, i + 1) <==> Gone(c, expired, x, i)
    decreases Above(c, x)
  {
    NewlyTaken(expired, x, i);
    forall m | m in Children(c, x) ensures Gone(c, expired, m, i + 1) <==> Gone(c, expired, m, i) {
      AboveShrinks(c, x, m);
      BurialForetold(c, expired, i, m);
    }
    assert AllGone(c, expired, x, i + 1) <==> AllGone(c, expired, x, i);
    hide AllGone, Taken;
  }

  lemma BurialTracks(c: Catalog, expired: Visits, s: Store, i: nat, now: int)
    requires Linked(c) && Counts(c, expired) && i < |expired| && Tracks(c, expired, s, i, now)
    requires expired[i].1 > 0
    ensures Tracks(c, expired, SweepOne(s, expired[i].0, expired[i].1), i + 1, now)
  {
    hide Remove, Gone, AllGone, Taken, Buried, Holds;
    var s' := SweepOne(s, expired[i].0, expired[i].1);
    assert expired[i..][0] == expired[i] && expired[i..][1..] == expired[i + 1..];
    SweepOneKeeps(s, now, expired[i..]);
    forall x | x in c ensures Follows(c, expired, s', i + 1, x) {
      assert Follows(c, expired, s, i, x);
      BurialForetold(c, expired, i, x);
      NewlyTaken(expired, x, i);
    }
  }

  lemma {:induction false} SweepTracks(c: Catalog, expired: Visits, s: Store, i: nat, now: int)
    requires Linked(c) && Counts(c, expired) && i <= |expired| && Tracks(c, expired, s, i, now)
    ensures Tracks(c, expired, SweepAll(s, expired[i..]), |expired|, now)
    decreases |expired| - i
  {
    hide Tracks, Counts, SweepOne;
    if i < |expired| {
      var s' := SweepOne(s, expired[i].0, expired[i].1);
      if expired[i].1 == 0 {
        RemovalTracks(c, expired, s, i, now);
      } else {
        BurialTracks(c, expired, s, i, now);
      }
      assert expired[i..][0] == expired[i] && expired[i..][1..] == expired[i + 1..];
      SweepTracks(c, expired, s', i + 1, now);
    }
  }

  lemma StartTracks(s: Store, t: int, now: int, expired: Visits)
    requires Inv(s, t) && t <= now && Gathered(s, now, expired)
    ensures Linked(s.streams) && Counts(s.streams, expired) && Tracks(s.streams, expired, s, 0, now)
  {
    hide WellStamped, SumBytes, Cascade;
    SameKeeps(s, t, now, None);
    forall i | 0 <= i < |expired| ensures expired[i].1 == 0 <==> Children(s.streams, expired[i].0) == {} {
      RefsAreChildren(s, now, expired[i].0);
    }
    forall x | x in s.streams ensures Follows(s.streams, expired, s, 0, x) {
      NobodyGone(s.streams, expired, x);
    }
    assert expired[0..] == expired;
  }

  lemma {:induction false} NobodyGone(c: Catalog, expired: Visits, x: string)
    requires Linked(c) && x in c
    ensures !Gone(c, expired, x, 0)
    decreases Above(c, x)
  {
    forall m | m in Children(c, x) ensures !Gone(c, expired, m, 0) {
      AboveShrinks(c, x, m);
      NobodyGone(c, expired, m);
    }
  }

  // ---------------------------------------------------------------- the theorems

  /** After a sweep exactly the streams that were not predicted gone are left. */
  lemma SweepRemovesIff(s: Store, t: int, now: int, expired: Visits, x: string)
    requires Inv(s, t) && t <= now && Gathered(s, now, expired) && x in s.streams
    ensures Linked(s.streams)
    ensures x !in SweepAll(s, expired).streams <==> Gone(s.streams, expired, x, |expired|)
  {
    hide Gone, SweepAll, Holds, Gathered, Buried, Counts;
    StartTracks(s, t, now, expired);
    SweepTracks(s.streams, expired, s, 0, now);
    assert expired[0..] == expired;
    assert Follows(s.streams, expired, SweepAll(s, expired), |expired|, x);
  }

  /**
   A sweep leaves `n` as an unreferenced tombstone if and only if `n` was active, it is
   visited with forks counted, and every one of its forks is gone before that visit.
   All of it can be read off the store before the sweep and the order of the visits.
   */
  lemma SweepStrandsIff(s: Store, t: int, now: int, expired: Visits, n: string)
    requires Inv(s, t) && t <= now && Gathered(s, now, expired)
    ensures Linked(s.streams)
    ensures Stranded(SweepAll(s, expired).streams, n) <==>
      n in s.streams && s.streams[n].state.Active?
      && exists i :: 0 <= i < |expired| && StrandedAt(s.streams, expired, n, i)
  {
    var c, s' := s.streams, SweepAll(s, expired);
    StartTracks(s, t, now, expired);
    SweepTracks(c, expired, s, 0, now);
    assert expired[0..] == expired;
    hide SweepAll, Holds, Gathered, AllGone, StrandedAt, Counts;
    if Stranded(c, n) {
      NextSweepCollects(s, t, now, expired, n);
    } else if n in c {
      StrandedForetold(s, t, now, expired, s', n);
    }
  }

  lemma LeftIffNotAllGone(c: Catalog, expired: Visits, s': Store, now: int, n: string)
    requires Linked(c) && n in c && Tracks(c, expired, s', |expired|, now) && n in s'.streams
    ensures s'.streams[n].refCount == 0 <==> AllGone(c, expired, n, |expired|)
  {
    hide Holds, Gone;
    RefsAreChildren(s', now, n);
    ChildrenLeft(c, s'.streams, n);
    forall m | m in Children(c, n) ensures m in s'.streams <==> !Gone(c, expired, m, |expired|) {
      assert Follows(c, expired, s', |expired|, m);
    }
    forall m | m in Children(c, n) && m in s'.streams ensures m in Children(s'.streams, n) { }
    forall m | m in Children(s'.streams, n) ensures m in Children(c, n) && m in s'.streams { }
    hide Children;
    if Children(s'.streams, n) != {} {
      var m :| m in Children(s'.streams, n);
      assert !Gone(c, expired, m, |expired|);
    }
  }

  /** The visit that strands `n`. */
  ghost predicate StrandedAt(c: Catalog, expired: Visits, n: string, i: nat)
    requires Linked(c) && n in c && i < |expired|
  {
    expired[i].0 == n && expired[i].1 > 0 && AllGone(c, expired, n, i)
  }

  /** Left, a tombstone and without forks: all three follow from the stranding visit, and it from them. */
  lemma LeftBehindIff(c: Catalog, expired: Visits, n: string)
    requires Linked(c) && Counts(c, expired) && n in c
    requires c[n].state.Tombstone? ==> Children(c, n) != {}
    ensures
      && !Gone(c, expired, n, |expired|) && AllGone(c, expired, n, |expired|)
      && (c[n].state.Tombstone? || Buried(expired, n, |expired|))
      <==>
      c[n].state.Active? && exists i :: 0 <= i < |expired| && StrandedAt(c, expired, n, i)
  {
    hide AllGone, Children;
    if i: nat :| i < |expired| && StrandedAt(c, expired, n, i) {
      AllGoneStays(c, expired, n, i, |expired|);
      assert expired[i].0 == n && Children(c, n) != {};
      assert Buried(expired, n, |expired|);
      assert !Taken(expired, n, |expired|);
    } else if Buried(expired, n, |expired|) && AllGone(c, expired, n, |expired|) {
      var j :| 0 <= j < |expired| && expired[j].0 == n && expired[j].1 > 0;
      assert !StrandedAt(c, expired, n, j);
      assert Gone(c, expired, n, |expired|);
    }
  }

  lemma StrandedForetold(s: Store, t: int, now: int, expired: Visits, s': Store, n: string)
    requires Inv(s, t) && n in s.streams && !Stranded(s.streams, n)
    requires Linked(s.streams) && Counts(s.streams, expired) && Tracks(s.streams, expired, s', |expired|, now)
    ensures Stranded(s'.streams, n) <==>
      s.streams[n].state.Active? && exists i :: 0 <= i < |expired| && StrandedAt(s.streams, expired, n, i)
  {
    hide Holds, AllGone, KeptAll, SweepReady, Gone, Buried, Counts, StrandedAt;
    var c := s.streams;
    assert Follows(c, expired, s', |expired|, n);
    RefsAreChildren(s, t, n);
    LeftBehindIff(c, expired, n);
    if n in s'.streams { LeftIffNotAllGone(c, expired, s', now, n); }
  }

  // ---------------------------------------------------------------- a reachable stranded tombstone

  const SOON: Config := Config("text/plain", None, Some(5), false)
  const SOON_OPTIONS: Options := Options("text/plain", At(5), false)

  function Alone(maxTotal: nat, maxStream: nat): (s: Store) {
    Store(map["source" := NewEntry(SOON)], 0, maxTotal, maxStream)
  }

  function Forked(maxTotal: nat, maxStream: nat): (s: Store) {
    Store(map["source" := NewEntry(SOON).(refCount := 1), "fork" := ForkEntry(SOON, Fork("source", Concrete(0, 0), 0))],
          0, maxTotal, maxStream)
  }

  lemma SourceCreated(maxTotal: nat, maxStream: nat)
    ensures CreateRoot(EmptyStore(maxTotal, maxStream), "source", SOON_OPTIONS, [], false, 0).store == Alone(maxTotal, maxStream)
  {
    assert map["source" := NewEntry(SOON)] == (map[])["source" := NewEntry(SOON)];
  }

  lemma ForkCreated(maxTotal: nat, maxStream: nat)
    ensures CreateFork(Alone(maxTotal, maxStream), "fork", "source", None, SOON_OPTIONS, ForkOptions(0, true, Some([])), 1).store
         == Forked(maxTotal, maxStream)
  {
    var s := Alone(maxTotal, maxStream);
    assert "source" != "fork";
    assert PrepareForkSpec("source", s.streams["source"], None, SOON, 0, 1) == Ok(ForkSpec(Fork("source", Concrete(0, 0), 0), SOON));
    var none: seq<Bytes> := [];
    assert none + none == none;
    assert InitialForkMessages(SOON, ForkOptions(0, true, Some(none)), none) == Ok(none);
    var placed := PlaceFork(s, "fork", ForkSpec(Fork("source", Concrete(0, 0), 0), SOON), [], 1);
    assert placed.store.streams == Forked(maxTotal, maxStream).streams;
  }

  const FORK_FIRST: Visits := [("fork", 0), ("source", 1)]

  lemma SourceStranded(maxTotal: nat, maxStream: nat)
    ensures Gathered(Forked(maxTotal, maxStream), 9, FORK_FIRST)
    ensures Stranded(SweepAll(Forked(maxTotal, maxStream), FORK_FIRST).streams, "source")
  {
    var s := Forked(maxTotal, maxStream);
    assert FORK_FIRST[0].0 == "fork" && FORK_FIRST[1].0 == "source";
    assert FORK_FIRST[1..] == [("source", 1)] && FORK_FIRST[1..][1..] == [];
    var s1 := SweepOne(s, "fork", 0);
    assert s1.streams == map["source" := NewEntry(SOON)];
    assert SweepAll(s, FORK_FIRST) == SweepOne(s1, "source", 1);
  }

  /** From the empty store: create, fork, and sweep after both have expired, the fork first. */
  lemma StrandedIsReachable(maxTotal: nat, maxStream: nat)
    ensures var events := [
        Event(CreateRootOp("source", SOON_OPTIONS, [], false), 0),
        Event(CreateForkOp("fork", "source", None, SOON_OPTIONS, ForkOptions(0, true, Some([]))), 1),
        Event(SweepOp(FORK_FIRST), 9)];
      && Timely(EmptyStore(maxTotal, maxStream), 0, events)
      && Stranded(Run(EmptyStore(maxTotal, maxStream), events).streams, "source")
  {
    var create := Event(CreateRootOp("source", SOON_OPTIONS, [], false), 0);
    var fork := Event(CreateForkOp("fork", "source", None, SOON_OPTIONS, ForkOptions(0, true, Some([]))), 1);
    var sweep := Event(SweepOp(FORK_FIRST), 9);
    var s0, s1, s2 := EmptyStore(maxTotal, maxStream), Alone(maxTotal, maxStream), Forked(maxTotal, maxStream);
    var s3 := SweepAll(s2, FORK_FIRST);
    SourceCreated(maxTotal, maxStream);
    ForkCreated(maxTotal, maxStream);
    SourceStranded(maxTotal, maxStream);
    hide CreateRoot, CreateFork, SweepAll, Gathered;
    RunOne(s2, 1, sweep, s3, [], s3);
    RunOne(s1, 0, fork, s2, [sweep] + [], s3);
    RunOne(s0, 0, create, s1, [fork] + ([sweep] + []), s3);
    assert [create] + ([fork] + ([sweep] + [])) == [create, fork, sweep];
  }
}
