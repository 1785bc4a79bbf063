/**
 Contiguous positions: the k-th record of a stream sits at (k, bytes before it).
 This is what per-message control frames and resumption rely on; it holds for a
 fork exactly when its anchor is a record boundary of the source.
 */
module Contiguity {
  import opened Wrappers
  import opened Offsets
  import opened Streams
  import opened Lineage
  import opened Stores
  import opened StoreInvariant
  import opened StoreRuns
  import opened ForkStability

  /** The position after the first `k` records. */
  function At(ms: seq<Message>, k: nat): (o: Offset)
    requires k <= |ms|
  {
    Concrete(k, PayloadBytes(Data(ms)[..k]))
  }

  predicate Contiguous(ms: seq<Message>, next: Offset) {
    && (forall k :: 0 <= k < |ms| ==> ms[k].offset == At(ms, k))
    && next == At(ms, |ms|)
  }

  /** A position between two records, at the tail, or the start sentinel. */
  predicate Boundary(ms: seq<Message>, o: Offset) {
    o.Start? || exists k :: 0 <= k <= |ms| && o == At(ms, k)
  }

  // ---------------------------------------------------------------- stamped records are contiguous

  lemma PayloadMonotone(d: seq<Bytes>, j: nat, k: nat)
    requires j <= k <= |d|
    ensures PayloadBytes(d[..j]) <= PayloadBytes(d[..k])
  {
    assert d[..k] == d[..j] + d[j..k];
    PayloadConcat(d[..j], d[j..k]);
  }

  /** Records stamped at a contiguous end extend it, while nothing wraps. */
  lemma StampContinues(ms: seq<Message>, q: nat, b: nat, d: seq<Bytes>)
    requires Contiguous(ms, Concrete(q, b))
    requires b + PayloadBytes(d) < U64
    ensures Contiguous(ms + Stamp(q, b, d), Concrete(q + |d|, EndByte(b, d)))
  {
    var all := ms + Stamp(q, b, d);
    DataOfStamp(q, b, d);
    DataConcat(ms, Stamp(q, b, d));
    assert Data(all) == Data(ms) + d;
    forall k | 0 <= k < |all| ensures all[k].offset == At(all, k) {
      if k < |ms| {
        assert Data(all)[..k] == Data(ms)[..k];
      } else {
        var i := k - |ms|;
        StampAt(q, b, d, i);
        assert Data(ms)[..|ms|] == Data(ms);
        assert Data(all)[..k] == Data(ms) + d[..i];
        PayloadConcat(Data(ms), d[..i]);
        PayloadMonotone(d, i, |d|);
        assert d[..|d|] == d;
        EndByteIsSum(b, d[..i]);
      }
    }
    assert Data(all)[..|all|] == Data(ms) + d && Data(ms)[..|ms|] == Data(ms);
    PayloadConcat(Data(ms), d);
    EndByteIsSum(b, d);
  }

  // ---------------------------------------------------------------- bytes of a view fit the global limit

  lemma {:induction false} SelectShrinks(ms: seq<Message>, from: Offset, bound: Option<Offset>)
    ensures PayloadBytes(Data(Select(ms, from, bound))) <= PayloadBytes(Data(ms))
    decreases |ms|
  {
    if ms != [] {
      SelectShrinks(ms[1..], from, bound);
      assert Data(ms) == [ms[0].data] + Data(ms[1..]);
      var head := if InRange(ms[0].offset, from, bound) then [ms[0]] else [];
      DataConcat(head, Select(ms[1..], from, bound));
      PayloadConcat(Data(head), Data(Select(ms[1..], from, bound)));
    }
  }

  lemma {:induction false} SumSubmap(a: Catalog, b: Catalog)
    requires forall n :: n in a ==> n in b && b[n] == a[n]
    ensures SumBytes(a) <= SumBytes(b)
    decreases |a|
  {
    if a != map[] {
      var n :| n in a;
      SumRemove(a, n);
      SumRemove(b, n);
      SumSubmap(a - {n}, b - {n});
    }
  }

  /** The streams no higher than `h` in the lineage order. */
  ghost function UpTo(c: Catalog, h: nat): (m: Catalog)
    requires Linked(c)
  {
    map n | n in c && Height(c, n) <= h :: c[n]
  }

  lemma {:induction false} ViewBytesCounted(c: Catalog, n: string)
    requires Linked(c)
    requires forall m :: m in c ==> c[m].totalBytes == PayloadBytes(Data(c[m].messages))
    ensures PayloadBytes(Data(View(c, n))) <= SumBytes(UpTo(c, Height(c, n)))
    decreases Height(c, n)
  {
    if n in c {
      var e := c[n];
      var all := UpTo(c, Height(c, n));
      DataConcat(Inherited(c, e.fork), e.messages);
      PayloadConcat(Data(Inherited(c, e.fork)), Data(e.messages));
      SumRemove(all, n);
      if e.fork.Some? {
        var f := e.fork.value;
        assert Height(c, n) > Height(c, f.source);
        ViewBytesCounted(c, f.source);
        SelectShrinks(View(c, f.source), Start, Some(f.offset));
        SumSubmap(UpTo(c, Height(c, f.source)), all - {n});
      }
    }
  }

  lemma ViewFits(s: Store, t: int, n: string)
    requires Inv(s, t)
    ensures PayloadBytes(Data(View(s.streams, n))) <= s.total <= s.maxTotal < U64
  {
    ViewBytesCounted(s.streams, n);
    SumSubmap(UpTo(s.streams, Height(s.streams, n)), s.streams);
  }

  // ---------------------------------------------------------------- cutting a contiguous view

  /** Below a boundary lie exactly the records before it. */
  lemma CutAtBoundary(ms: seq<Message>, next: Offset, k: nat)
    requires Contiguous(ms, next) && k <= |ms|
    ensures Select(ms, Start, Some(At(ms, k))) == ms[..k]
    ensures Select(ms, At(ms, k), None) == ms[k..]
  {
    forall i | 0 <= i < |ms|
      ensures Less(ms[i].offset, At(ms, k)) <==> i < k
    {
      assert ms[i].offset == At(ms, i);
    }
    SliceIsSelect(ms, Start, Some(At(ms, k)), 0, k);
    SliceIsSelect(ms, At(ms, k), None, k, |ms|);
  }

  lemma PrefixContiguous(ms: seq<Message>, next: Offset, k: nat)
    requires Contiguous(ms, next) && k <= |ms|
    ensures Contiguous(ms[..k], At(ms, k))
  {
    assert Data(ms[..k])[..k] == Data(ms)[..k];
    forall i | 0 <= i < k ensures ms[..k][i].offset == At(ms[..k], i) {
      assert ms[i].offset == At(ms, i);
      assert Data(ms[..k])[..i] == Data(ms)[..i];
    }
  }

  /** Below any position lies some prefix. */
  lemma CutIsPrefix(ms: seq<Message>, next: Offset, o: Offset) returns (k: nat)
    requires Contiguous(ms, next)
    ensures k <= |ms| && Select(ms, Start, Some(o)) == ms[..k]
    ensures forall i :: 0 <= i < k ==> Less(ms[i].offset, o)
    ensures k < |ms| ==> !Less(ms[k].offset, o)
  {
    k := 0;
    while k < |ms| && Less(ms[k].offset, o)
      invariant 0 <= k <= |ms|
      invariant forall i :: 0 <= i < k ==> Less(ms[i].offset, o)
    {
      k := k + 1;
    }
    forall i | 0 <= i < |ms| ensures InRange(ms[i].offset, Start, Some(o)) <==> i < k {
      assert ms[i].offset == At(ms, i);
      if k <= i {
        assert ms[k].offset == At(ms, k);
      }
    }
    SliceIsSelect(ms, Start, Some(o), 0, k);
  }

  /** An anchor on a boundary continues the inherited records. */
  lemma BoundaryContiguous(e: Entry, src: seq<Message>, srcNext: Offset)
    requires e.fork.Some? && WellStamped(e) && Contiguous(src, srcNext) && Boundary(src, e.fork.value.offset)
    requires PayloadBytes(Data(Select(src, Start, Some(e.fork.value.offset)))) + PayloadBytes(Data(e.messages)) < U64
    ensures Contiguous(Select(src, Start, Some(e.fork.value.offset)) + e.messages, e.Tail())
  {
    var o := e.fork.value.offset;
    var cut := Select(src, Start, Some(o));
    assert Contiguous(cut, Concrete(BaseSeq(e), BaseByte(e))) by {
      if o.Start? {
        NothingBelowStart(src);
        assert cut == [];
      } else {
        var k :| 0 <= k <= |src| && o == At(src, k);
        CutAtBoundary(src, srcNext, k);
        PrefixContiguous(src, srcNext, k);
      }
    }
    assert Data(cut)[..|cut|] == Data(cut);
    StampContinues(cut, BaseSeq(e), BaseByte(e), Data(e.messages));
  }

  /** Conversely a contiguous fork is anchored on a boundary. */
  lemma ContiguousBoundary(e: Entry, src: seq<Message>, srcNext: Offset)
    requires e.fork.Some? && !e.fork.value.offset.Now? && WellStamped(e) && Contiguous(src, srcNext)
    requires Contiguous(Select(src, Start, Some(e.fork.value.offset)) + e.messages, e.Tail())
    ensures Boundary(src, e.fork.value.offset)
  {
    var o := e.fork.value.offset;
    if !o.Start? {
      var k := CutIsPrefix(src, srcNext, o);
      AnchorOfContiguous(e, src[..k]);
      assert Data(src)[..k] == Data(src[..k]);
      assert o == At(src, k);
    }
  }

  /**
   The exact condition: over a contiguous source, a fork is contiguous if and only
   if its anchor is a record boundary of the source's view.
   */
  lemma ForkContiguousIff(c: Catalog, n: string, src: seq<Message>, srcNext: Offset)
    requires Linked(c) && n in c && c[n].fork.Some? && WellStamped(c[n])
    requires src == View(c, c[n].fork.value.source) && Contiguous(src, srcNext)
    requires !c[n].fork.value.offset.Now?
    requires PayloadBytes(Data(View(c, n))) < U64
    ensures Contiguous(View(c, n), c[n].Tail()) <==> Boundary(src, c[n].fork.value.offset)
  {
    hide WellStamped, Contiguous, Boundary;
    var e := c[n];
    var cut := Select(src, Start, Some(e.fork.value.offset));
    assert View(c, n) == cut + e.messages;
    DataConcat(cut, e.messages);
    PayloadConcat(Data(cut), Data(e.messages));
    if Boundary(src, e.fork.value.offset) {
      BoundaryContiguous(e, src, srcNext);
    }
    if Contiguous(View(c, n), e.Tail()) {
      ContiguousBoundary(e, src, srcNext);
    }
  }

  lemma {:induction false} NothingBelowStart(ms: seq<Message>)
    ensures Select(ms, Start, Some(Start)) == []
    decreases |ms|
  {
    if ms != [] {
      NothingBelowStart(ms[1..]);
    }
  }

  /** In a contiguous fork the local records start where the inherited ones end. */
  lemma AnchorOfContiguous(e: Entry, cut: seq<Message>)
    requires e.fork.Some? && e.fork.value.offset.Concrete? && WellStamped(e)
    requires Contiguous(cut + e.messages, e.Tail())
    ensures e.fork.value.offset == Concrete(|cut|, PayloadBytes(Data(cut)))
  {
    var all := cut + e.messages;
    DataConcat(cut, e.messages);
    assert Data(all)[..|cut|] == Data(cut);
    if e.messages == [] {
      assert all == cut;
    } else {
      StampAt(BaseSeq(e), BaseByte(e), Data(e.messages), 0);
      assert Data(e.messages)[..0] == [];
      assert all[|cut|] == e.messages[0];
      assert all[|cut|].offset == At(all, |cut|);
    }
  }

  // ---------------------------------------------------------------- contiguity through every operation

  ghost predicate AllContiguous(c: Catalog)
    requires Linked(c)
  {
    forall n :: n in c ==> Contiguous(View(c, n), c[n].Tail())
  }

  /** A fork request anchored at the source's tail or at one of its record boundaries. */
  ghost predicate WellAnchored(s: Store, op: Op) {
    op.CreateForkOp? && op.at.Some? && op.source in s.streams ==> Boundary(Seen(s.streams, op.source), op.at.value)
  }

  lemma LateIsStamped(a: Entry, b: Entry)
    requires WellStamped(a) && WellStamped(b) && a.fork == b.fork && Extends(a, b)
    ensures var late := b.messages[|a.messages|..];
      late == Stamp(a.nextSeq, a.nextByte, Data(late))
      && b.nextSeq == a.nextSeq + |late| && b.nextByte == EndByte(a.nextByte, Data(late))
  {
    var late := b.messages[|a.messages|..];
    var q, x := BaseSeq(a), BaseByte(a);
    assert b.messages == a.messages + late;
    DataConcat(a.messages, late);
    StampConcat(q, x, Data(a.messages), Data(late));
    assert Stamp(q, x, Data(b.messages))[|a.messages|..] == Stamp(a.nextSeq, a.nextByte, Data(late));
  }

  lemma StampedEntry(s: Store, t: int, n: string)
    requires Inv(s, t) && n in s.streams
    ensures WellStamped(s.streams[n])
  {
    hide SumBytes;
  }

  lemma ContinuedContiguous(s: Store, s': Store, t: int, now: int, touched: Option<string>, reborn: bool, n: string)
    requires Inv(s, t) && Inv(s', now) && Evolves(s.streams, s'.streams, touched, reborn)
    requires n in s'.streams && !(reborn && touched == Some(n))
    requires n in s.streams && Contiguous(View(s.streams, n), s.streams[n].Tail())
    ensures Contiguous(View(s'.streams, n), s'.streams[n].Tail())
  {
    hide PayloadBytes, Counted, Settled, Anchored, Accounted, Stamp, EndByte, WellStamped;
    var a, b := s.streams[n], s'.streams[n];
    StampedEntry(s, t, n);
    StampedEntry(s', now, n);
    AllOrdered(s', now);
    ViewContinues(s.streams, s'.streams, touched, reborn, n);
    assert Continues(a, b, touched == Some(n));
    LateIsStamped(a, b);
    var late := b.messages[|a.messages|..];
    ViewFits(s', now, n);
    DataConcat(View(s.streams, n), late);
    PayloadConcat(Data(View(s.streams, n)), Data(late));
    assert Data(View(s.streams, n))[..|View(s.streams, n)|] == Data(View(s.streams, n));
    StampContinues(View(s.streams, n), a.nextSeq, a.nextByte, Data(late));
  }

  lemma RebornRootContiguous(s: Store, now: int, n: string)
    requires Inv(s, now) && n in s.streams && s.streams[n].fork.None?
    ensures Contiguous(View(s.streams, n), s.streams[n].Tail())
  {
    var e := s.streams[n];
    ViewFits(s, now, n);
    assert View(s.streams, n) == e.messages;
    assert Contiguous([], Concrete(0, 0));
    StampContinues([], 0, 0, Data(e.messages));
    assert [] + e.messages == e.messages;
  }

  /** What a created fork records as its anchor. */
  lemma CreatedForkAnchor(s: Store, op: Op, now: int)
    requires op.CreateForkOp? && op.source in s.streams
    requires var o := Step(s, op, now); o.reply.Ok? && o.reply.value.Created?
    ensures var o := Step(s, op, now);
      && op.name in o.store.streams
      && var f := o.store.streams[op.name].fork;
        f.Some? && f.value.source == op.source
        && f.value.offset == if op.at.None? then s.streams[op.source].Tail() else op.at.value
  {
    hide Cascade, Stamp, PayloadBytes, EndByte, Expired, Resolve, Select, InitialForkMessages, EvaluateForkCreate;
    var c := Step(s, op, now).store.streams;
  }

  lemma RebornForkContiguous(s: Store, op: Op, t: int, now: int)
    requires Inv(s, t) && t <= now && AllContiguous(s.streams) && WellAnchored(s, op)
    requires op.CreateForkOp? && op.source in s.streams && op.source != op.name
    requires var o := Step(s, op, now); o.reply.Ok? && o.reply.value.Created?
    requires op.source in Step(s, op, now).store.streams
    ensures Linked(Step(s, op, now).store.streams)
    ensures var c := Step(s, op, now).store.streams;
      op.name in c && Contiguous(View(c, op.name), c[op.name].Tail())
  {
    var o := Step(s, op, now);
    CreatedForkAnchor(s, op, now);
    hide WellStamped, Step;
    var c := o.store.streams;
    StepKeeps(s, op, t, now);
    AllOrdered(o.store, now);
    ViewContinues(s.streams, c, Some(op.name), true, op.source);
    assert Continues(s.streams[op.source], c[op.source], false);
    var src := View(s.streams, op.source);
    assert View(c, op.source) == src;
    assert Boundary(src, c[op.name].fork.value.offset) by {
      if op.at.None? {
        assert s.streams[op.source].Tail() == At(src, |src|);
      }
    }
    ViewFits(o.store, now, op.name);
    assert AnchorHolds(c, op.name);
    ForkContiguousIff(c, op.name, src, s.streams[op.source].Tail());
  }

  /** With every fork anchored at a boundary, every stream stays contiguous. */
  lemma StepContiguous(s: Store, op: Op, t: int, now: int)
    requires Inv(s, t) && t <= now && Admissible(s, op, now)
    requires AllContiguous(s.streams) && WellAnchored(s, op)
    ensures Linked(Step(s, op, now).store.streams)
    ensures AllContiguous(Step(s, op, now).store.streams)
  {
    hide WellStamped, Contiguous;
    StepKeeps(s, op, t, now);
    var o := Step(s, op, now);
    var c := o.store.streams;
    forall n | n in c ensures Contiguous(View(c, n), c[n].Tail()) {
      if !(Reborn(op, o) && Touched(op) == Some(n)) {
        ContinuedContiguous(s, o.store, t, now, Touched(op), Reborn(op, o), n);
      } else if c[n].fork.None? {
        RebornRootContiguous(o.store, now, n);
      } else {
        RebornIsFork(s, op, now);
        assert AnchorHolds(c, n);
        RebornForkContiguous(s, op, t, now);
      }
    }
  }

  lemma RebornIsFork(s: Store, op: Op, now: int)
    requires var o := Step(s, op, now);
      Reborn(op, o) && Touched(op).Some? && Touched(op).value in o.store.streams
      && o.store.streams[Touched(op).value].fork.Some?
    ensures op.CreateForkOp? && op.source in s.streams && Step(s, op, now).reply.value.Created?
    ensures op.source != op.name
    ensures var f := Step(s, op, now).store.streams[op.name].fork.value; f.source == op.source
  {
    if op.CreateForkOp? {
      CreatedForkAnchor(s, op, now);
    }
  }

  ghost predicate AllWellAnchored(s: Store, events: seq<Event>)
    decreases |events|
  {
    events == [] ||
    (WellAnchored(s, events[0].op)
     && AllWellAnchored(Step(s, events[0].op, events[0].now).store, events[1..]))
  }

  /** In every run whose forks are anchored at boundaries, every stream is contiguous at the end. */
  lemma {:induction false} RunContiguous(s: Store, t: int, events: seq<Event>)
    requires Inv(s, t) && Timely(s, t, events) && AllContiguous(s.streams) && AllWellAnchored(s, events)
    ensures Linked(Run(s, events).streams) && AllContiguous(Run(s, events).streams)
    decreases |events|
  {
    hide Holds, AllContiguous, Step;
    if events != [] {
      var e := events[0];
      StepKeeps(s, e.op, t, e.now);
      StepContiguous(s, e.op, t, e.now);
      RunContiguous(Step(s, e.op, e.now).store, e.now, events[1..]);
    } else {
      InvIsLinked(s, t);
    }
  }

  lemma InvIsLinked(s: Store, t: int)
    requires Inv(s, t)
    ensures Linked(s.streams)
  {
  }
}
