/**
 The transactional backend's lineage read: one plan for the whole stream and an
 ordered range scan per segment that stops at the segment's bound.
 */
module AcidRead {
  import opened Wrappers
  import opened Offsets
  import opened Streams
  import opened Lineage
  import opened Stores
  import opened ForkStability
  import Lex

  /** A row of the message table, keyed by stream name and position. */
  datatype Row = Row(name: string, readSeq: nat, byteOffset: nat, data: Bytes)

  predicate PositionAtMost(s: nat, x: nat, t: nat, y: nat) {
    s < t || (s == t && x <= y)
  }

  predicate KeyAtMost(a: (string, nat, nat), b: (string, nat, nat)) {
    Lex.Less(a.0, b.0) || (a.0 == b.0 && PositionAtMost(a.1, a.2, b.1, b.2))
  }

  function Key(r: Row): (k: (string, nat, nat)) {
    (r.name, r.readSeq, r.byteOffset)
  }

  /** The rows with `lo <= key <= hi`, in table order. */
  function Range(table: seq<Row>, lo: (string, nat, nat), hi: (string, nat, nat)): (rows: seq<Row>) {
    if table == [] then []
    else (if KeyAtMost(lo, Key(table[0])) && KeyAtMost(Key(table[0]), hi) then [table[0]] else [])
         + Range(table[1..], lo, hi)
  }

  function AsMessage(r: Row): (m: Message) {
    Message(Concrete(r.readSeq, r.byteOffset), r.data)
  }

  function AsMessages(rows: seq<Row>): (ms: seq<Message>) {
    seq(|rows|, i requires 0 <= i < |rows| => AsMessage(rows[i]))
  }

  /** One stream's records, as the table holds them. */
  function RecordsOf(table: seq<Row>, name: string): (ms: seq<Message>) {
    if table == [] then []
    else (if table[0].name == name then [AsMessage(table[0])] else []) + RecordsOf(table[1..], name)
  }

  /** The table holds exactly the catalog's records, all at 64-bit positions. */
  ghost predicate Mirrors(table: seq<Row>, c: Catalog) {
    && (forall n :: n in c ==> RecordsOf(table, n) == c[n].messages)
    && (forall i :: 0 <= i < |table| ==> table[i].readSeq < U64 && table[i].byteOffset < U64)
  }

  lemma KeyBetween(name: string, s: nat, x: nat, r: Row)
    requires r.readSeq < U64 && r.byteOffset < U64
    ensures KeyAtMost((name, s, x), Key(r)) && KeyAtMost(Key(r), (name, U64 - 1, U64 - 1))
       <==> r.name == name && !Less(Concrete(r.readSeq, r.byteOffset), Concrete(s, x))
  {
    Lex.LessIsIrreflexive(name);
    if Lex.Less(name, r.name) && Lex.Less(r.name, name) {
      Lex.LessIsTransitive(name, r.name, name);
    }
  }

  lemma {:induction false} RangeIsSelect(table: seq<Row>, name: string, s: nat, x: nat)
    requires forall i :: 0 <= i < |table| ==> table[i].readSeq < U64 && table[i].byteOffset < U64
    ensures AsMessages(Range(table, (name, s, x), (name, U64 - 1, U64 - 1)))
         == Select(RecordsOf(table, name), Concrete(s, x), None)
    decreases |table|
  {
    if table != [] {
      RangeIsSelect(table[1..], name, s, x);
      KeyBetween(name, s, x, table[0]);
      var head := if table[0].name == name then [AsMessage(table[0])] else [];
      SelectConcat(head, RecordsOf(table[1..], name), Concrete(s, x), None);
    }
  }

  predicate PastBound(r: Row, bound: Option<Offset>) {
    bound.Some? && !Less(Concrete(r.readSeq, r.byteOffset), bound.value)
  }

  /** Collect rows up to the first one at or past the bound. */
  method ScanRows(rows: seq<Row>, bound: Option<Offset>) returns (out: seq<Bytes>, j: nat)
    ensures j <= |rows| && out == Data(AsMessages(rows[..j]))
    ensures forall i :: 0 <= i < j ==> !PastBound(rows[i], bound)
    ensures j < |rows| ==> PastBound(rows[j], bound)
  {
    out := [];
    var k := 0;
    while k < |rows|
      invariant 0 <= k <= |rows|
      invariant out == Data(AsMessages(rows[..k]))
      invariant forall i :: 0 <= i < k ==> !PastBound(rows[i], bound)
    {
      if PastBound(rows[k], bound) {
        break;
      }
      out := out + [rows[k].data];
      k := k + 1;
    }
    j := k;
  }

  /** Stopping early loses nothing, because later records are at or past the bound too. */
  lemma ScanIsSelect(ms: seq<Message>, from: Offset, bound: Option<Offset>, rows: seq<Row>, j: nat)
    requires Ordered(ms) && from.Concrete?
    requires AsMessages(rows) == Select(ms, from, None) && j <= |rows|
    requires forall i :: 0 <= i < j ==> !PastBound(rows[i], bound)
    requires j < |rows| ==> PastBound(rows[j], bound)
    ensures AsMessages(rows[..j]) == Select(ms, from, bound)
  {
    hide Select;
    var k := FromIsSuffix(ms, from);
    var tail := ms[k..];
    assert AsMessages(rows) == tail && |rows| == |tail|;
    forall i | 0 <= i < |rows| ensures ms[k + i] == AsMessage(rows[i]) {
      assert tail[i] == AsMessages(rows)[i];
    }
    forall i | 0 <= i < |ms| ensures InRange(ms[i].offset, from, bound) <==> k <= i < k + j {
      if k <= i {
        assert ms[k + (i - k)] == AsMessage(rows[i - k]);
      }
    }
    SliceIsSelect(ms, from, bound, k, k + j);
    assert AsMessages(rows[..j]) == ms[k..k + j];
  }

  /** One segment: scan from the start position, stop at the segment's bound. */
  method ScanSegment(table: seq<Row>, segment: Segment, start: (nat, nat), ghost ms: seq<Message>)
    returns (out: seq<Bytes>)
    requires forall i :: 0 <= i < |table| ==> table[i].readSeq < U64 && table[i].byteOffset < U64
    requires ms == RecordsOf(table, segment.name) && Ordered(ms)
    ensures out == Data(Select(ms, Concrete(start.0, start.1), segment.readUpTo))
  {
    var rows := Range(table, (segment.name, start.0, start.1), (segment.name, U64 - 1, U64 - 1));
    RangeIsSelect(table, segment.name, start.0, start.1);
    var j;
    out, j := ScanRows(rows, segment.readUpTo);
    ScanIsSelect(ms, Concrete(start.0, start.1), segment.readUpTo, rows, j);
  }

  method ReadMessageRanges(table: seq<Row>, plan: seq<Segment>, start: (nat, nat), ghost c: Catalog)
    returns (result: seq<Bytes>)
    requires Mirrors(table, c)
    requires forall n :: n in c ==> Ordered(c[n].messages)
    requires forall i :: 0 <= i < |plan| ==> plan[i].name in c
    ensures result == Data(PlanRead(c, plan, Concrete(start.0, start.1)))
  {
    hide Ordered, Select;
    result := [];
    var i := 0;
    ghost var from := Concrete(start.0, start.1);
    while i < |plan|
      invariant 0 <= i <= |plan|
      invariant result + Data(PlanRead(c, plan[i..], from)) == Data(PlanRead(c, plan, from))
    {
      var out := ScanSegment(table, plan[i], start, c[plan[i].name].messages);
      assert plan[i..][1..] == plan[i + 1..];
      DataConcat(Select(c[plan[i].name].messages, from, plan[i].readUpTo), PlanRead(c, plan[i + 1..], from));
      result := result + out;
      i := i + 1;
    }
  }

  lemma {:induction false} PlanNamesStored(c: Catalog, n: string, bound: Option<Offset>)
    requires Linked(c) && n in c
    ensures forall i :: 0 <= i < |Plan(c, n, bound)| ==> Plan(c, n, bound)[i].name in c
    decreases Height(c, n)
  {
    if c[n].fork.Some? {
      var f := c[n].fork.value;
      assert Height(c, n) > Height(c, f.source);
      PlanNamesStored(c, f.source, MinBound(bound, f.offset));
    }
  }

  /** Reading from position zero and reading from the start sentinel select the same records. */
  lemma {:induction false} ZeroIsStart(ms: seq<Message>)
    requires forall i :: 0 <= i < |ms| ==> ms[i].offset.Concrete?
    ensures Select(ms, Concrete(0, 0), None) == Select(ms, Start, None)
    decreases |ms|
  {
    if ms != [] {
      ZeroIsStart(ms[1..]);
    }
  }

  /** The transactional read returns what the recursive view holds, exactly as the in-memory one does. */
  method ReadSnapshot(c: Catalog, table: seq<Row>, name: string, from: Offset, now: int)
    returns (r: Result<ReadResult, Error>)
    requires Linked(c) && name in c && Mirrors(table, c)
    requires forall n :: n in c ==> Ordered(c[n].messages)
    ensures var denied := CheckAccess(c[name].config, c[name].state, now);
      r == if denied.Some? then Err(denied.value) else Ok(ReadView(c, name, from))
    ensures r == Err(StreamGone) <==> c[name].state.Tombstone?
    ensures r == Err(StreamExpired) <==>
      c[name].state.Active? && c[name].config.expiresAt.Some? && c[name].config.expiresAt.value <= now
    ensures r.Err? ==> r == Err(StreamGone) || r == Err(StreamExpired)
  {
    var meta := c[name];
    var denied := CheckAccess(meta.config, meta.state, now);
    if denied.Some? {
      return Err(denied.value);
    }
    var result := ReadResult([], meta.Tail(), true, meta.closed);
    if from.Now? {
      return Ok(result);
    }
    var start := if from.Start? then (0, 0) else (from.readSeq, from.byteOffset);
    var plan := BuildReadPlan(c, name);
    PlanNamesStored(c, name, None);
    var messages := ReadMessageRanges(table, plan, start, c);
    PlanReadsView(c, name, Concrete(start.0, start.1), None);
    if from.Start? {
      ViewConcrete(c, name);
      ZeroIsStart(View(c, name));
    }
    r := Ok(result.(messages := messages));
  }
}
