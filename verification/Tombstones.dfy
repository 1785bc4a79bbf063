/** Which tombstones are still referenced, and how the sweep leaves one that is not. */
module Tombstones {
  import opened Wrappers
  import opened Streams
  import opened Lineage
  import opened Stores
  import opened StoreInvariant

  predicate Referenced(c: Catalog) {
    forall n :: n in c && c[n].state.Tombstone? ==> c[n].refCount > 0
  }

  predicate Stranded(c: Catalog, n: string) {
    n in c && c[n].state.Tombstone? && c[n].refCount == 0
  }

  lemma {:induction false} CascadeReferenced(s: Store, parent: string)
    requires Referenced(s.streams)
    ensures Referenced(Cascade(s, parent).streams) && Cascade(s, parent).streams.Keys <= s.streams.Keys
    decreases |s.streams|
  {
    if parent in s.streams {
      var e := s.streams[parent];
      if e.state.Tombstone? && SatSub(e.refCount, 1) == 0 && e.fork.Some? {
        CascadeReferenced(s.(streams := s.streams - {parent}, total := SatSub(s.total, e.totalBytes)), e.fork.value.source);
      }
    }
  }

  lemma RemoveReferenced(s: Store, name: string)
    requires Referenced(s.streams)
    ensures Referenced(Remove(s, name).streams) && Remove(s, name).streams.Keys <= s.streams.Keys
    ensures name !in Remove(s, name).streams
  {
    hide Cascade;
    if name in s.streams {
      var e := s.streams[name];
      if e.fork.Some? {
        CascadeReferenced(s.(streams := s.streams - {name}, total := SatSub(s.total, e.totalBytes)), e.fork.value.source);
      }
    }
  }

  /** Putting an entry with the same lifecycle, or an active one, strands nothing. */
  lemma PutReferenced(c: Catalog, n: string, e: Entry)
    requires Referenced(c) && (e.state.Tombstone? ==> n in c && c[n].state.Tombstone? && e.refCount == c[n].refCount)
    ensures Referenced(c[n := e])
  {
  }

  lemma BatchReferenced(s: Store, op: Op, now: int)
    requires Referenced(s.streams) && op.AppendOp?
    ensures Referenced(Step(s, op, now).store.streams)
  {
    var c' := Step(s, op, now).store.streams;
    if op.name in s.streams && op.name in c' {
      PutReferenced(s.streams, op.name, c'[op.name]);
    }
    hide PrecheckBatch, RenewTtl, Stamp, EndByte, PayloadBytes, Referenced;
  }

  lemma ProducerReferenced(s: Store, op: Op, now: int)
    requires Referenced(s.streams) && op.ProducerOp?
    ensures Referenced(Step(s, op, now).store.streams)
  {
    hide CheckProducer, CheckAccess, PruneStale, SameContentType, AcceptFromProducer, Referenced;
    if op.name in s.streams {
      var e0 := s.streams[op.name];
      var e := e0.(producers := PruneStale(e0.producers, now));
      var s1 := Put(s, op.name, e, s.total);
      PutReferenced(s.streams, op.name, e);
      AcceptReferenced(s1, op.name, e, op.records, op.producer, op.close, op.sequence, now);
    }
  }

  lemma AcceptReferenced(
    s: Store, name: string, e: Entry, records: seq<Bytes>, p: ProducerHeaders, close: bool, sequence: Option<string>, now: int)
    requires Referenced(s.streams) && name in s.streams && s.streams[name] == e
    ensures Referenced(AcceptFromProducer(s, name, e, records, p, close, sequence, now).store.streams)
  {
    hide RenewTtl, ValidateSeq, Stamp, EndByte, PayloadBytes, Referenced;
    var c' := AcceptFromProducer(s, name, e, records, p, close, sequence, now).store.streams;
    PutReferenced(s.streams, name, c'[name]);
  }

  lemma AppendReferenced(s: Store, op: Op, now: int)
    requires Referenced(s.streams) && (op.AppendOp? || op.ProducerOp? || op.ReadOp? || op.ReplaceOp?)
    ensures Referenced(Step(s, op, now).store.streams)
  {
    hide AppendBatch, AppendWithProducer, CheckAccess, RenewTtl, Resolve, Stamp, EndByte, PayloadBytes;
    if op.AppendOp? {
      BatchReferenced(s, op, now);
    } else if op.ProducerOp? {
      ProducerReferenced(s, op, now);
    }
  }

  lemma CreateReferenced(s: Store, op: Op, now: int)
    requires Referenced(s.streams) && (op.CreateRootOp? || op.CreateForkOp?)
    ensures Referenced(Step(s, op, now).store.streams)
  {
    hide Remove, Stamp, EndByte, PayloadBytes, Resolve, EvaluateRootCreate, EvaluateForkCreate, PrepareForkSpec, Select, InitialForkMessages;
    RemoveReferenced(s, op.name);
  }

  /** Every operation but the sweep keeps tombstones only while they are referenced. */
  lemma StepReferenced(s: Store, op: Op, now: int)
    requires Referenced(s.streams) && !op.SweepOp?
    ensures Referenced(Step(s, op, now).store.streams)
  {
    hide Remove, AppendBatch, AppendWithProducer, CreateRoot, CreateFork, Read, Replace;
    if op.DeleteOp? {
      RemoveReferenced(s, op.name);
    } else if op.CreateRootOp? || op.CreateForkOp? {
      CreateReferenced(s, op, now);
    } else {
      AppendReferenced(s, op, now);
    }
  }

  // ---------------------------------------------------------------- what one removal collects

  /** Collected by the cascade: a referenced tombstone all of whose forks go. */
  ghost predicate Collected(s: Store, s': Store, x: string)
    requires x in s.streams
  {
    && s.streams[x].state.Tombstone? && s.streams[x].refCount > 0
    && forall m :: m in Children(s.streams, x) ==> m !in s'.streams
  }

  lemma {:induction false} CascadeExact(s: Store, parent: string, now: int, x: string)
    requires Holds(s, now, Some(parent)) && x in s.streams
    ensures var s' := Cascade(s, parent);
      && (x !in s'.streams <==> Collected(s, s', x))
      && (x in s'.streams ==> s'.streams[x].state == s.streams[x].state)
    decreases |s.streams|
  {
    hide WellStamped, SumBytes, Settled, Anchored, Accounted, Linked;
    var e := s.streams[parent];
    var s' := Cascade(s, parent);
    assert |Children(s.streams, parent)| >= 0 && |Children(s.streams, x)| >= 0;
    if e.state.Tombstone? && e.refCount == 1 {
      assert Children(s.streams, parent) == {};
      DetachKeeps(s, parent, now, Some(parent));
      var s1 := Without(s, parent);
      if x != parent {
        assert Children(s1.streams, x) == Children(s.streams, x) - {parent};
        assert parent in Children(s.streams, x) <==> SourceOf(e) == Some(x);
        if e.fork.Some? {
          CascadeExact(s1, e.fork.value.source, now, x);
          CascadeShrinks(s1, e.fork.value.source);
        }
      } else if e.fork.Some? {
        CascadeShrinks(s1, e.fork.value.source);
      }
    } else {
      assert s'.streams.Keys == s.streams.Keys;
    }
  }

  lemma RemoveExact(s: Store, name: string, now: int, x: string)
    requires Inv(s, now) && name in s.streams && s.streams[name].refCount == 0 && x in s.streams && x != name
    ensures var s' := Remove(s, name);
      && (x !in s'.streams <==> Collected(s, s', x))
      && (x in s'.streams ==> s'.streams[x].state == s.streams[x].state)
  {
    hide WellStamped, SumBytes, Settled, Anchored, Accounted, Linked, Cascade;
    var e := s.streams[name];
    assert |Children(s.streams, x)| >= 0;
    assert Children(s.streams, name) == {};
    DetachKeeps(s, name, now, None);
    var s1 := Without(s, name);
    assert Children(s1.streams, x) == Children(s.streams, x) - {name};
    if e.fork.Some? {
      CascadeExact(s1, e.fork.value.source, now, x);
      CascadeShrinks(s1, e.fork.value.source);
    }
  }

  // ---------------------------------------------------------------- the next sweep collects it

  lemma {:induction false} CascadeShrinks(s: Store, parent: string)
    ensures Cascade(s, parent).streams.Keys <= s.streams.Keys
    decreases |s.streams|
  {
    if parent in s.streams {
      var e := s.streams[parent];
      if e.state.Tombstone? && SatSub(e.refCount, 1) == 0 && e.fork.Some? {
        CascadeShrinks(s.(streams := s.streams - {parent}, total := SatSub(s.total, e.totalBytes)), e.fork.value.source);
      }
    }
  }

  lemma SweepOneShrinks(s: Store, n: string, refs: nat)
    ensures SweepOne(s, n, refs).streams.Keys <= s.streams.Keys
    ensures refs == 0 ==> n !in SweepOne(s, n, refs).streams
  {
    hide Cascade;
    if n in s.streams && s.streams[n].fork.Some? {
      var e := s.streams[n];
      CascadeShrinks(s.(streams := s.streams - {n}, total := SatSub(s.total, e.totalBytes)), e.fork.value.source);
    }
  }

  lemma {:induction false} SweepAllRemoves(s: Store, expired: seq<(string, nat)>, n: string)
    requires n !in s.streams || exists i :: 0 <= i < |expired| && expired[i] == (n, 0)
    ensures n !in SweepAll(s, expired).streams
    decreases |expired|
  {
    hide SweepOne;
    if expired != [] {
      SweepOneShrinks(s, expired[0].0, expired[0].1);
      if n in s.streams && expired[0] != (n, 0) {
        var i :| 0 <= i < |expired| && expired[i] == (n, 0);
        assert expired[1..][i - 1] == (n, 0);
      }
      SweepAllRemoves(SweepOne(s, expired[0].0, expired[0].1), expired[1..], n);
    }
  }

  /** In every reachable store the next sweep collects every stranded tombstone. */
  lemma NextSweepCollects(s: Store, t: int, now: int, expired: seq<(string, nat)>, n: string)
    requires Inv(s, t) && t <= now && Gathered(s, now, expired) && Stranded(s.streams, n)
    ensures n !in SweepAll(s, expired).streams
  {
    hide SweepAll, WellStamped, SumBytes, Linked, Counted;
    assert Expired(s.streams[n].config, t);
    assert Expired(s.streams[n].config, now);
    var i :| 0 <= i < |expired| && expired[i].0 == n;
    assert expired[i] == (n, 0);
    SweepAllRemoves(s, expired, n);
  }
}
