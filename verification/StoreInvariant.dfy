/** What every storage operation keeps, from the empty store through any run. */
module StoreInvariant {
  import opened Wrappers
  import opened Offsets
  import opened Streams
  import opened Lineage
  import opened Stores

  // ---------------------------------------------------------------- the invariant

  ghost function Children(c: Catalog, p: string): (names: set<string>) {
    set n | n in c && c[n].fork.Some? && c[n].fork.value.source == p
  }

  ghost function SumBytes(c: Catalog): (total: nat)
    decreases |c|
  {
    if c == map[] then 0
    else
      var n :| n in c;
      c[n].totalBytes + SumBytes(c - {n})
  }

  function BaseSeq(e: Entry): (q: nat) {
    if e.fork.Some? && e.fork.value.offset.Concrete? then e.fork.value.offset.readSeq else 0
  }

  function BaseByte(e: Entry): (b: nat) {
    if e.fork.Some? && e.fork.value.offset.Concrete? then e.fork.value.offset.byteOffset else 0
  }

  /** An entry is exactly its payloads stamped from its starting position. */
  predicate WellStamped(e: Entry) {
    var d := Data(e.messages);
    && e.messages == Stamp(BaseSeq(e), BaseByte(e), d)
    && e.nextSeq == BaseSeq(e) + |d|
    && e.nextByte == EndByte(BaseByte(e), d)
    && e.totalBytes == PayloadBytes(d)
  }

  /** Each reference count is the number of forks, plus `debt` for one stream being detached. */
  ghost predicate Counted(c: Catalog, debtor: Option<string>) {
    && (debtor.Some? ==> debtor.value in c)
    && forall p {:trigger Children(c, p)} :: p in c ==>
         c[p].refCount == |Children(c, p)| + if debtor == Some(p) then 1 else 0
  }

  /** A tombstone no fork refers to is expired. */
  predicate Settled(c: Catalog, now: int) {
    forall n :: n in c && c[n].state.Tombstone? && c[n].refCount == 0 ==> Expired(c[n].config, now)
  }

  predicate AnchorHolds(c: Catalog, n: string)
    requires n in c
  {
    c[n].fork.Some? ==>
      var f := c[n].fork.value;
      f.source in c && !f.offset.Now? && !Less(c[f.source].Tail(), f.offset)
  }

  /** No fork point lies beyond its source's tail. */
  predicate Anchored(c: Catalog) {
    forall n {:trigger AnchorHolds(c, n)} :: n in c ==> AnchorHolds(c, n)
  }

  ghost predicate Accounted(s: Store) {
    && s.total == SumBytes(s.streams) <= s.maxTotal < U64
    && (forall n :: n in s.streams ==> WellStamped(s.streams[n]) && s.streams[n].totalBytes <= s.maxStream)
  }

  ghost predicate Holds(s: Store, now: int, debtor: Option<string>) {
    && Linked(s.streams)
    && Counted(s.streams, debtor)
    && Settled(s.streams, now)
    && Anchored(s.streams)
    && Accounted(s)
  }

  ghost predicate Inv(s: Store, now: int) {
    Holds(s, now, None)
  }

  // ---------------------------------------------------------------- sums over the catalog

  lemma {:induction false} SumRemove(c: Catalog, n: string)
    requires n in c
    ensures SumBytes(c) == c[n].totalBytes + SumBytes(c - {n})
    decreases |c|
  {
    var k :| k in c && SumBytes(c) == c[k].totalBytes + SumBytes(c - {k});
    if k != n {
      SumRemove(c - {k}, n);
      SumRemove(c - {n}, k);
      assert c - {k} - {n} == c - {n} - {k};
    }
  }

  lemma SumPut(c: Catalog, n: string, e: Entry)
    ensures n in c ==> SumBytes(c[n := e]) + c[n].totalBytes == SumBytes(c) + e.totalBytes
    ensures n !in c ==> SumBytes(c[n := e]) == SumBytes(c) + e.totalBytes
  {
    SumRemove(c[n := e], n);
    assert c[n := e] - {n} == c - {n};
    if n in c {
      SumRemove(c, n);
    } else {
      assert c - {n} == c;
    }
  }

  /** Reserving and releasing are inverse: what a stream gives back on removal was counted. */
  lemma ReleasedWasCounted(s: Store, now: int, debtor: Option<string>, n: string)
    requires Holds(s, now, debtor) && n in s.streams
    ensures SatSub(s.total, s.streams[n].totalBytes) + s.streams[n].totalBytes == s.total
    ensures SatSub(s.total, s.streams[n].totalBytes) == SumBytes(s.streams - {n})
  {
    SumRemove(s.streams, n);
  }

  // ---------------------------------------------------------------- how one step may change other streams

  /** Later records start at the old tail, and the tail never moves back. */
  predicate Extends(e: Entry, e': Entry) {
    && |e.messages| <= |e'.messages|
    && e'.messages[..|e.messages|] == e.messages
    && (forall i :: |e.messages| <= i < |e'.messages| ==> !Less(e'.messages[i].offset, e.Tail()))
    && !Less(e'.Tail(), e.Tail())
  }

  predicate Continues(e: Entry, e': Entry, touched: bool) {
    && e'.fork == e.fork
    && Extends(e, e')
    && (e.closed ==> e'.closed)
    && e.notices <= e'.notices
    && (|e.messages| < |e'.messages| ==> e.notices < e'.notices)
    && (e.closed ==> e'.messages == e.messages && e'.Tail() == e.Tail())
    && (!touched ==>
          e'.messages == e.messages && e'.Tail() == e.Tail() && e'.closed == e.closed && e'.producers == e.producers)
  }

  /**
   A step from `a` to `b`: closed streams are final, and apart from freshly created entries every stream continues
   an old one, only the touched one may grow, and nothing old hangs off a fresh entry.
   */
  ghost predicate Evolves(a: Catalog, b: Catalog, touched: Option<string>, reborn: bool) {
    forall n :: n in b && !(reborn && touched == Some(n)) ==>
      && n in a
      && Continues(a[n], b[n], touched == Some(n))
      && (b[n].fork.Some? ==> !(reborn && touched == Some(b[n].fork.value.source)))
  }

  // ---------------------------------------------------------------- updating one entry in place

  /** `e'` is `e` with `records` pushed, none if closed; link fields are the same. */
  predicate Advanced(e: Entry, e': Entry, records: seq<Bytes>) {
    var p := Push(e, records);
    && e'.messages == p.messages && e'.nextSeq == p.nextSeq && e'.nextByte == p.nextByte
    && e'.totalBytes == p.totalBytes
    && e'.fork == e.fork && e'.refCount == e.refCount && e'.state == e.state
    && (e.closed ==> e'.closed) && e.notices <= e'.notices && (records != [] ==> e.notices < e'.notices && !e.closed)
    && (e.state.Tombstone? ==> e'.config == e.config)
  }

  lemma PushStamped(e: Entry, records: seq<Bytes>)
    requires WellStamped(e)
    ensures WellStamped(Push(e, records))
    ensures Extends(e, Push(e, records))
  {
    PushRestamps(e, records);
    PushExtends(e, records);
  }

  lemma PushRestamps(e: Entry, records: seq<Bytes>)
    requires WellStamped(e)
    ensures WellStamped(Push(e, records))
  {
    hide Stamp, EndByte, PayloadBytes;
    var d := Data(e.messages);
    var q, b := BaseSeq(e), BaseByte(e);
    var e' := Push(e, records);
    assert e'.messages == Stamp(q, b, d + records) && e'.nextByte == EndByte(b, d + records) by {
      StampConcat(q, b, d, records);
    }
    assert Data(e'.messages) == d + records by { DataOfStamp(q, b, d + records); }
    PayloadConcat(d, records);
  }

  lemma PushExtends(e: Entry, records: seq<Bytes>)
    ensures Extends(e, Push(e, records))
  {
    hide EndByte;
    var e' := Push(e, records);
    forall i | |e.messages| <= i < |e'.messages|
      ensures !Less(e'.messages[i].offset, e.Tail())
    {
      PushedAfterTail(e, records, i - |e.messages|);
    }
    if records == [] {
      assert e'.nextByte == e.nextByte by { PushedNothing(e.nextByte); }
    }
  }

  lemma PushedNothing(b: nat)
    ensures EndByte(b, []) == b
  {
  }

  lemma PushedAfterTail(e: Entry, records: seq<Bytes>, i: nat)
    requires i < |records|
    ensures !Less(Stamp(e.nextSeq, e.nextByte, records)[i].offset, e.Tail())
  {
    StampAt(e.nextSeq, e.nextByte, records, i);
    if i == 0 {
      assert records[..0] == [];
    }
  }

  /** Same names, same forks: lineage and child sets are the same. */
  ghost predicate SameForks(c: Catalog, c': Catalog) {
    c'.Keys == c.Keys && forall n :: n in c ==> c'[n].fork == c[n].fork
  }

  lemma LinksUnchanged(c: Catalog, c': Catalog)
    requires SameForks(c, c') && Linked(c)
    ensures Linked(c')
  {
    assert Ranked(c', Rank(c)) by {
      forall n | n in c' ensures Climbs(c', Rank(c), n) { assert Climbs(c, Rank(c), n); }
    }
  }

  /** Counts stay exact when they change by just the change in debt. */
  lemma CountsUnchanged(c: Catalog, c': Catalog, debtor: Option<string>, debtor': Option<string>)
    requires SameForks(c, c') && Counted(c, debtor) && (debtor'.Some? ==> debtor'.value in c')
    requires forall p :: p in c ==>
      c'[p].refCount + (if debtor == Some(p) then 1 else 0) == c[p].refCount + if debtor' == Some(p) then 1 else 0
    ensures Counted(c', debtor')
  {
    forall p | p in c'
      ensures c'[p].refCount == |Children(c', p)| + if debtor' == Some(p) then 1 else 0
    {
      assert Children(c', p) == Children(c, p);
    }
  }

  lemma AnchorsUnchanged(c: Catalog, c': Catalog)
    requires SameForks(c, c') && Anchored(c)
    requires forall n :: n in c ==> !Less(c'[n].Tail(), c[n].Tail())
    ensures Anchored(c')
  {
    forall n | n in c' ensures AnchorHolds(c', n) { assert AnchorHolds(c, n); }
  }

  lemma StampedSame(e: Entry, e': Entry)
    requires WellStamped(e) && e'.messages == e.messages && e'.fork == e.fork
    requires e'.nextSeq == e.nextSeq && e'.nextByte == e.nextByte && e'.totalBytes == e.totalBytes
    ensures WellStamped(e')
  {
  }

  /** Replacing or adding one well-stamped entry keeps the byte accounts. */
  lemma AccountsPut(s: Store, name: string, e': Entry, total: nat)
    requires Accounted(s) && WellStamped(e') && e'.totalBytes <= s.maxStream && total <= s.maxTotal
    requires total + (if name in s.streams then s.streams[name].totalBytes else 0) == s.total + e'.totalBytes
    ensures Accounted(Put(s, name, e', total))
  {
    hide WellStamped;
    SumPut(s.streams, name, e');
  }

  lemma PutKeeps(s: Store, name: string, e': Entry, records: seq<Bytes>, total: nat, t: int, now: int)
    requires Inv(s, t) && t <= now && name in s.streams
    requires Advanced(s.streams[name], e', records)
    requires total == s.total + PayloadBytes(records) <= s.maxTotal
    requires e'.totalBytes <= s.maxStream
    ensures Inv(Put(s, name, e', total), now)
    ensures Evolves(s.streams, Put(s, name, e', total).streams, Some(name), false)
  {
    hide WellStamped, SumBytes, Less;
    var c := s.streams;
    var c' := c[name := e'];
    AdvancedExtends(c[name], e', records);
    AccountsPut(s, name, e', total);
    assert SameForks(c, c');
    LinksUnchanged(c, c');
    CountsUnchanged(c, c', None, None);
    assert Anchored(c') by {
      NeverBackwards();
      AnchorsUnchanged(c, c');
    }
    assert Evolves(c, c', Some(name), false) by { PutEvolves(c, name, e'); }
  }

  lemma NeverBackwards()
    ensures forall o: Offset :: !Less(o, o)
  {
  }

  lemma PutEvolves(c: Catalog, name: string, e': Entry)
    requires name in c && Continues(c[name], e', true)
    ensures Evolves(c, c[name := e'], Some(name), false)
  {
  }

  lemma AdvancedExtends(e: Entry, e': Entry, records: seq<Bytes>)
    requires WellStamped(e) && Advanced(e, e', records)
    ensures WellStamped(e') && Continues(e, e', true)
    ensures e'.totalBytes == e.totalBytes + PayloadBytes(records)
  {
    hide WellStamped;
    PushStamped(e, records);
    StampedSame(Push(e, records), e');
    if records == [] {
      PushedNothing(e.nextByte);
      assert Push(e, []).messages == e.messages;
    }
  }

  // ---------------------------------------------------------------- detaching and cascading

  /** Nothing but bookkeeping differs between the two versions of an entry. */
  predicate Kept(e: Entry, e': Entry) {
    e' == e.(refCount := e'.refCount, state := e'.state)
  }

  ghost predicate KeptAll(c: Catalog, c': Catalog) {
    forall n :: n in c' ==> n in c && Kept(c[n], c'[n])
  }

  /** The store without `name`, its bytes released. */
  function Without(s: Store, name: string): (s': Store)
    requires name in s.streams
  {
    s.(streams := s.streams - {name}, total := SatSub(s.total, s.streams[name].totalBytes))
  }

  function SourceOf(e: Entry): (p: Option<string>) {
    if e.fork.Some? then Some(e.fork.value.source) else None
  }

  lemma LinksWithout(c: Catalog, name: string)
    requires Linked(c) && name in c && Children(c, name) == {}
    ensures Linked(c - {name})
    ensures SourceOf(c[name]) != Some(name)
    ensures SourceOf(c[name]).Some? ==> SourceOf(c[name]).value in c - {name}
  {
    var c1 := c - {name};
    assert Climbs(c, Rank(c), name);
    assert Ranked(c1, Rank(c)) by {
      forall n | n in c1 ensures Climbs(c1, Rank(c), n) {
        assert Climbs(c, Rank(c), n);
        assert n !in Children(c, name);
      }
    }
  }

  /** Taking out an unreferenced stream leaves its source owed one reference. */
  lemma CountedWithout(c: Catalog, name: string, debtor: Option<string>)
    requires Linked(c) && Counted(c, debtor) && name in c && Children(c, name) == {}
    requires debtor.None? || debtor == Some(name)
    ensures Counted(c - {name}, SourceOf(c[name]))
  {
    var c1 := c - {name};
    LinksWithout(c, name);
    forall p | p in c1
      ensures c1[p].refCount == |Children(c1, p)| + if SourceOf(c[name]) == Some(p) then 1 else 0
    {
      assert Children(c1, p) == Children(c, p) - {name};
      assert name in Children(c, p) <==> SourceOf(c[name]) == Some(p);
    }
  }

  lemma AnchorsWithout(c: Catalog, name: string)
    requires Anchored(c) && name in c && Children(c, name) == {}
    ensures Anchored(c - {name})
  {
    forall n | n in c - {name} ensures AnchorHolds(c - {name}, n) {
      assert AnchorHolds(c, n);
      assert n !in Children(c, name);
    }
  }

  lemma DetachKeeps(s: Store, name: string, now: int, debtor: Option<string>)
    requires Holds(s, now, debtor) && name in s.streams
    requires debtor.None? || debtor == Some(name)
    requires Children(s.streams, name) == {}
    ensures s.streams[name].totalBytes <= s.total
    ensures Holds(Without(s, name), now, SourceOf(s.streams[name]))
  {
    LinksWithout(s.streams, name);
    CountedWithout(s.streams, name, debtor);
    AnchorsWithout(s.streams, name);
    SumRemove(s.streams, name);
  }

  /** Paying the debt by a plain decrement. */
  lemma ReleaseKeeps(s: Store, parent: string, now: int)
    requires Holds(s, now, Some(parent))
    requires s.streams[parent].state.Active? || s.streams[parent].refCount > 1
    ensures s.streams[parent].refCount > 0
    ensures var e := s.streams[parent];
      Inv(s.(streams := s.streams[parent := e.(refCount := e.refCount - 1)]), now)
  {
    hide WellStamped, SumBytes;
    var c := s.streams;
    var e := c[parent];
    assert |Children(c, parent)| >= 0;
    var c' := c[parent := e.(refCount := e.refCount - 1)];
    LinksUnchanged(c, c');
    CountsUnchanged(c, c', Some(parent), None);
    AnchorsUnchanged(c, c');
    StampedSame(e, c'[parent]);
    AccountsPut(s, parent, c'[parent], s.total);
  }

  /** A stream the cascade cannot reach: active, or unreferenced and not the one owed. */
  predicate Spared(e: Entry, e': Entry) {
    e'.refCount <= e.refCount && e'.state == e.state
  }

  lemma {:induction false} CascadeKeeps(s: Store, parent: string, now: int)
    requires Holds(s, now, Some(parent))
    ensures Inv(Cascade(s, parent), now)
    ensures KeptAll(s.streams, Cascade(s, parent).streams)
    ensures Cascade(s, parent).maxTotal == s.maxTotal && Cascade(s, parent).maxStream == s.maxStream
    decreases |s.streams|
  {
    hide Linked, Anchored, Settled, Accounted;
    var e := s.streams[parent];
    assert |Children(s.streams, parent)| >= 0;
    if e.state.Tombstone? && e.refCount == 1 {
      assert Children(s.streams, parent) == {};
      DetachKeeps(s, parent, now, Some(parent));
      if e.fork.Some? {
        CascadeKeeps(Without(s, parent), e.fork.value.source, now);
      }
    } else {
      ReleaseKeeps(s, parent, now);
    }
  }

  /** The cascade removes neither an active stream nor one that is not referenced at all. */
  lemma {:induction false} CascadeSpares(s: Store, parent: string, now: int, n: string)
    requires Holds(s, now, Some(parent))
    requires n in s.streams && (s.streams[n].state.Active? || s.streams[n].refCount == 0)
    ensures n in Cascade(s, parent).streams
    ensures Spared(s.streams[n], Cascade(s, parent).streams[n])
    decreases |s.streams|
  {
    var e := s.streams[parent];
    assert |Children(s.streams, parent)| >= 0;
    if e.state.Tombstone? && e.refCount == 1 {
      assert Children(s.streams, parent) == {};
      DetachKeeps(s, parent, now, Some(parent));
      if e.fork.Some? {
        CascadeSpares(Without(s, parent), e.fork.value.source, now, n);
      }
    }
  }

  lemma RemoveKeeps(s: Store, name: string, now: int)
    requires Inv(s, now) && name in s.streams && s.streams[name].refCount == 0
    ensures Inv(Remove(s, name), now)
    ensures name !in Remove(s, name).streams
    ensures KeptAll(s.streams, Remove(s, name).streams)
    ensures Remove(s, name).maxTotal == s.maxTotal && Remove(s, name).maxStream == s.maxStream
  {
    assert Children(s.streams, name) == {};
    DetachKeeps(s, name, now, None);
    var e := s.streams[name];
    if e.fork.Some? {
      CascadeKeeps(Without(s, name), e.fork.value.source, now);
    }
  }

  lemma RemoveSpares(s: Store, name: string, now: int, n: string)
    requires Inv(s, now) && name in s.streams && s.streams[name].refCount == 0
    requires n in s.streams && n != name && (s.streams[n].state.Active? || s.streams[n].refCount == 0)
    ensures n in Remove(s, name).streams
    ensures Spared(s.streams[n], Remove(s, name).streams[n])
  {
    assert Children(s.streams, name) == {};
    DetachKeeps(s, name, now, None);
    var e := s.streams[name];
    if e.fork.Some? {
      CascadeSpares(Without(s, name), e.fork.value.source, now, n);
    }
  }
}
