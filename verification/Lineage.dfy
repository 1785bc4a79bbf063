/**
 Fork lineage. `View` is the plain recursive meaning of a stream: what its source
 held below the fork point, then its own records. The flat read plan of the
 backends is proved to compute the same thing.
 */
module Lineage {
  import opened Wrappers
  import opened Offsets
  import opened Streams

  type Catalog = map<string, Entry>

  // ---------------------------------------------------------------- well-founded lineage

  predicate Climbs(c: Catalog, rank: map<string, nat>, n: string)
    requires n in c
  {
    && n in rank
    && (c[n].fork.Some? ==>
          var source := c[n].fork.value.source;
          source in c && source in rank && rank[source] < rank[n])
  }

  ghost predicate Ranked(c: Catalog, rank: map<string, nat>) {
    forall n {:trigger Climbs(c, rank, n)} :: n in c ==> Climbs(c, rank, n)
  }

  /** Every fork's source is stored and no stream descends from itself. */
  ghost predicate Linked(c: Catalog) {
    exists rank: map<string, nat> :: Ranked(c, rank)
  }

  ghost function Rank(c: Catalog): (rank: map<string, nat>)
    requires Linked(c)
    ensures Ranked(c, rank)
  {
    var rank :| Ranked(c, rank);
    rank
  }

  ghost function Height(c: Catalog, n: string): (h: nat)
    requires Linked(c)
    ensures n in c ==> Climbs(c, Rank(c), n)
  {
    if n in c then (assert Climbs(c, Rank(c), n); 1 + Rank(c)[n]) else 0
  }

  // ---------------------------------------------------------------- selecting records by position

  predicate InRange(o: Offset, from: Offset, bound: Option<Offset>) {
    !Less(o, from) && (bound.None? || Less(o, bound.value))
  }

  /** The records at or after `from` and before `bound`. */
  function Select(ms: seq<Message>, from: Offset, bound: Option<Offset>): (r: seq<Message>) {
    if ms == [] then []
    else Head(ms[0], from, bound) + Select(ms[1..], from, bound)
  }

  function MinBound(a: Option<Offset>, b: Offset): (m: Option<Offset>) {
    Some(if a.None? then b else Min(a.value, b))
  }

  function Head(m: Message, from: Offset, bound: Option<Offset>): (r: seq<Message>) {
    if InRange(m.offset, from, bound) then [m] else []
  }

  lemma SelectEmpty(from: Offset, bound: Option<Offset>)
    ensures Select([], from, bound) == []
  {
  }

  lemma SelectFirst(ms: seq<Message>, from: Offset, bound: Option<Offset>)
    requires ms != []
    ensures Select(ms, from, bound) == Head(ms[0], from, bound) + Select(ms[1..], from, bound)
  {
  }

  lemma {:induction false} SelectConcat(a: seq<Message>, b: seq<Message>, from: Offset, bound: Option<Offset>)
    ensures Select(a + b, from, bound) == Select(a, from, bound) + Select(b, from, bound)
    decreases |a|
  {
    hide Select, Head;
    if a == [] {
      assert a + b == b;
      SelectEmpty(from, bound);
    } else {
      assert (a + b)[0] == a[0] && (a + b)[1..] == a[1..] + b;
      SelectFirst(a, from, bound);
      SelectFirst(a + b, from, bound);
      SelectConcat(a[1..], b, from, bound);
      assert Head(a[0], from, bound) + (Select(a[1..], from, bound) + Select(b, from, bound))
          == Head(a[0], from, bound) + Select(a[1..], from, bound) + Select(b, from, bound);
    }
  }

  lemma {:induction false} SelectTwice(ms: seq<Message>, cut: Offset, from: Offset, bound: Option<Offset>)
    ensures Select(Select(ms, Start, Some(cut)), from, bound) == Select(ms, from, MinBound(bound, cut))
    decreases |ms|
  {
    hide Select;
    SelectEmpty(from, bound);
    SelectEmpty(Start, Some(cut));
    SelectEmpty(from, MinBound(bound, cut));
    if ms != [] {
      SelectTwice(ms[1..], cut, from, bound);
      var head := Head(ms[0], Start, Some(cut));
      SelectConcat(head, Select(ms[1..], Start, Some(cut)), from, bound);
      SelectFirst(ms, Start, Some(cut));
      SelectFirst(ms, from, MinBound(bound, cut));
      HeadTwice(ms[0], cut, from, bound);
    }
  }

  lemma HeadTwice(m: Message, cut: Offset, from: Offset, bound: Option<Offset>)
    ensures Select(Head(m, Start, Some(cut)), from, bound) == Head(m, from, MinBound(bound, cut))
  {
    assert Head(m, Start, Some(cut)) != [] ==> Head(m, Start, Some(cut))[1..] == [];
  }

  lemma {:induction false} SelectNone(ms: seq<Message>, from: Offset, bound: Option<Offset>)
    requires forall i :: 0 <= i < |ms| ==> !InRange(ms[i].offset, from, bound)
    ensures Select(ms, from, bound) == []
    decreases |ms|
  {
    if ms != [] {
      SelectNone(ms[1..], from, bound);
    }
  }

  lemma {:induction false} SelectAll(ms: seq<Message>, from: Offset, bound: Option<Offset>)
    requires forall i :: 0 <= i < |ms| ==> InRange(ms[i].offset, from, bound)
    ensures Select(ms, from, bound) == ms
    decreases |ms|
  {
    if ms != [] {
      SelectAll(ms[1..], from, bound);
    }
  }

  lemma {:induction false} SelectMembers(ms: seq<Message>, from: Offset, bound: Option<Offset>)
    ensures forall m :: m in Select(ms, from, bound) <==> m in ms && InRange(m.offset, from, bound)
    decreases |ms|
  {
    if ms != [] {
      SelectMembers(ms[1..], from, bound);
      assert ms == [ms[0]] + ms[1..];
    }
  }

  // ---------------------------------------------------------------- the recursive view

  ghost function View(c: Catalog, n: string): (ms: seq<Message>)
    requires Linked(c)
    decreases Height(c, n), 0
  {
    if n !in c then []
    else Inherited(c, c[n].fork) + c[n].messages
  }

  /** What a fork sees of its source: the source's view strictly below the fork point. */
  ghost function Inherited(c: Catalog, fork: Option<Fork>): (ms: seq<Message>)
    requires Linked(c)
    decreases if fork.Some? then Height(c, fork.value.source) else 0, 1
  {
    if fork.None? then []
    else Select(View(c, fork.value.source), Start, Some(fork.value.offset))
  }

  // ---------------------------------------------------------------- the flat read plan

  datatype Segment = Segment(name: string, readUpTo: Option<Offset>)

  function ForkOf(c: Catalog, n: string): (f: Option<Fork>) {
    if n in c then c[n].fork else None
  }

  /** Root-to-leaf segments under the running minimum of the fork points below them. */
  ghost function Plan(c: Catalog, n: string, bound: Option<Offset>): (p: seq<Segment>)
    requires Linked(c)
    decreases Height(c, n)
  {
    var f := ForkOf(c, n);
    (if f.Some? then Plan(c, f.value.source, MinBound(bound, f.value.offset)) else [])
    + [Segment(n, bound)]
  }

  /** The records a plan selects, segment by segment; missing streams are skipped. */
  function PlanRead(c: Catalog, plan: seq<Segment>, from: Offset): (ms: seq<Message>) {
    if plan == [] then []
    else (if plan[0].name in c then Select(c[plan[0].name].messages, from, plan[0].readUpTo) else [])
         + PlanRead(c, plan[1..], from)
  }

  lemma {:induction false} PlanReadConcat(c: Catalog, a: seq<Segment>, b: seq<Segment>, from: Offset)
    ensures PlanRead(c, a + b, from) == PlanRead(c, a, from) + PlanRead(c, b, from)
    decreases |a|
  {
    hide Select;
    if a == [] {
      assert a + b == b;
    } else {
      assert (a + b)[0] == a[0] && (a + b)[1..] == a[1..] + b;
      PlanReadConcat(c, a[1..], b, from);
    }
  }

  lemma OneSegment(c: Catalog, plan: seq<Segment>, from: Offset)
    requires |plan| == 1
    ensures PlanRead(c, plan, from)
         == if plan[0].name in c then Select(c[plan[0].name].messages, from, plan[0].readUpTo) else []
  {
    assert PlanRead(c, plan[1..], from) == [];
  }

  /** Reading the flat plan is reading the recursive view. */
  lemma {:induction false} PlanReadsView(c: Catalog, n: string, from: Offset, bound: Option<Offset>)
    requires Linked(c)
    ensures PlanRead(c, Plan(c, n, bound), from) == Select(View(c, n), from, bound)
    decreases Height(c, n)
  {
    var f := ForkOf(c, n);
    var last := [Segment(n, bound)];
    OneSegment(c, last, from);
    if f.Some? {
      hide Select, PlanRead;
      var up := MinBound(bound, f.value.offset);
      PlanReadsView(c, f.value.source, from, up);
      PlanReadConcat(c, Plan(c, f.value.source, up), last, from);
      SelectTwice(View(c, f.value.source), f.value.offset, from, bound);
      SelectConcat(Inherited(c, f), c[n].messages, from, bound);
    } else if n in c {
      assert View(c, n) == c[n].messages;
      assert Plan(c, n, bound) == last;
    }
  }

  function Capped(plan: seq<Segment>, cap: Offset): (p: seq<Segment>) {
    seq(|plan|, i requires 0 <= i < |plan| => plan[i].(readUpTo := MinBound(plan[i].readUpTo, cap)))
  }

  lemma MinBoundCommutes(bound: Option<Offset>, x: Offset, y: Offset)
    ensures MinBound(MinBound(bound, x), y) == MinBound(MinBound(bound, y), x)
  {
  }

  /** Capping every segment of a plan is planning under the cap. */
  lemma {:induction false} CappedPlan(c: Catalog, n: string, bound: Option<Offset>, cap: Offset)
    requires Linked(c)
    ensures Capped(Plan(c, n, bound), cap) == Plan(c, n, MinBound(bound, cap))
    decreases Height(c, n)
  {
    var f := ForkOf(c, n);
    if f.Some? {
      CappedPlan(c, f.value.source, MinBound(bound, f.value.offset), cap);
      MinBoundCommutes(bound, f.value.offset, cap);
      var p := Plan(c, f.value.source, MinBound(bound, f.value.offset));
      assert Capped(p + [Segment(n, bound)], cap) == Capped(p, cap) + [Segment(n, MinBound(bound, cap))];
    }
  }

  // ---------------------------------------------------------------- building the plan

  /** The walk from a stream up to its root, with each stream's own fork point. */
  ghost function ChainUp(c: Catalog, n: string): (ch: seq<(string, Option<Offset>)>)
    requires Linked(c)
    ensures |ch| > 0
    decreases Height(c, n)
  {
    var f := ForkOf(c, n);
    if f.None? then [(n, None)]
    else [(n, Some(f.value.offset))] + ChainUp(c, f.value.source)
  }

  function Tighten(bound: Option<Offset>, local: Option<Offset>): (b: Option<Offset>) {
    if local.None? then bound else MinBound(bound, local.value)
  }

  function Bounded(chain: seq<(string, Option<Offset>)>, bound: Option<Offset>): (p: seq<Segment>) {
    if chain == [] then []
    else Bounded(chain[1..], Tighten(bound, chain[0].1)) + [Segment(chain[0].0, bound)]
  }

  lemma {:induction false} PlanFromChain(c: Catalog, n: string, bound: Option<Offset>)
    requires Linked(c)
    ensures Plan(c, n, bound) == Bounded(ChainUp(c, n), bound)
    decreases Height(c, n)
  {
    var f := ForkOf(c, n);
    if f.Some? {
      PlanFromChain(c, f.value.source, MinBound(bound, f.value.offset));
      assert ChainUp(c, n)[1..] == ChainUp(c, f.value.source);
    } else {
      assert ChainUp(c, n)[1..] == [];
    }
  }

  /** The read plan as the backends build it: walk up, reverse, then take running minima. */
  method BuildReadPlan(c: Catalog, name: string) returns (segments: seq<Segment>)
    requires Linked(c)
    ensures segments == Plan(c, name, None)
  {
    var chain: seq<(string, Option<Offset>)> := [];
    var current := name;
    while ForkOf(c, current).Some?
      invariant chain + ChainUp(c, current) == ChainUp(c, name)
      decreases Height(c, current)
    {
      var f := ForkOf(c, current).value;
      chain := chain + [(current, Some(f.offset))];
      current := f.source;
    }
    chain := chain + [(current, None)];
    segments := RunningMinima(chain);
    PlanFromChain(c, name, None);
  }

  /** The bound a segment takes from the stream forked directly off it. */
  function ChildBound(rootFirst: seq<(string, Option<Offset>)>, k: nat): (b: Option<Offset>) {
    if k + 1 < |rootFirst| then rootFirst[k + 1].1 else None
  }

  /** The chain from the root down, each stream bounded by the fork point of its child. */
  method ChildBounds(up: seq<(string, Option<Offset>)>) returns (segments: seq<Segment>)
    ensures |segments| == |up|
    ensures forall k :: 0 <= k < |up| ==>
      segments[k] == Segment(up[|up| - 1 - k].0, if k + 1 < |up| then up[|up| - 2 - k].1 else None)
  {
    var len := |up|;
    var chain := seq(len, i requires 0 <= i < len => up[len - 1 - i]);
    segments := [];
    for i := 0 to len
      invariant |segments| == i
      invariant forall k :: 0 <= k < i ==> segments[k] == Segment(chain[k].0, ChildBound(chain, k))
    {
      segments := segments + [Segment(chain[i].0, ChildBound(chain, i))];
    }
  }

  /** The bound a stream's child sets, seen from the youngest stream. */
  function Below(up: seq<(string, Option<Offset>)>, j: nat): (bound: Option<Offset>)
    requires j <= |up|
  {
    if j == 0 then None else up[j - 1].1
  }

  lemma BoundedStep(up: seq<(string, Option<Offset>)>, j: nat, bound: Option<Offset>)
    requires j < |up|
    ensures Bounded(up[j..], bound)
         == Bounded(up[j + 1..], Tighten(bound, up[j].1)) + [Segment(up[j].0, bound)]
  {
    assert up[j..][0] == up[j] && up[j..][1..] == up[j + 1..];
  }

  method RunningMinima(up: seq<(string, Option<Offset>)>) returns (segments: seq<Segment>)
    ensures segments == Bounded(up, None)
  {
    hide Bounded;
    var len := |up|;
    segments := ChildBounds(up);
    var bound: Option<Offset> := None;
    var i := len;
    assert up[0..] == up && segments[len..] == [];
    while i > 0
      invariant 0 <= i <= len == |segments|
      invariant forall k :: 0 <= k < i ==> segments[k] == Segment(up[len - 1 - k].0, Below(up, len - 1 - k))
      invariant Bounded(up[len - i..], Tighten(bound, Below(up, len - i))) + segments[i..] == Bounded(up, None)
    {
      i := i - 1;
      ghost var done := segments[i + 1..];
      bound := Tighten(bound, segments[i].readUpTo);
      segments := segments[i := segments[i].(readUpTo := bound)];
      BoundedStep(up, len - 1 - i, bound);
      assert segments[i..] == [segments[i]] + done;
    }
    BoundedNothing(up, Tighten(bound, Below(up, len)));
  }

  lemma BoundedNothing(up: seq<(string, Option<Offset>)>, bound: Option<Offset>)
    ensures Bounded(up[|up|..], bound) == []
  {
  }

  // ---------------------------------------------------------------- ordered local records

  /** Records carry strictly increasing concrete positions. */
  predicate Ordered(ms: seq<Message>) {
    && (forall i :: 0 <= i < |ms| ==> ms[i].offset.Concrete?)
    && (forall i, j :: 0 <= i < j < |ms| ==> Less(ms[i].offset, ms[j].offset))
  }

  /** `slice::partition_point` for the predicate "before `bound`". */
  method PartitionPoint(ms: seq<Message>, bound: Offset) returns (k: nat)
    requires Ordered(ms)
    ensures k <= |ms|
    ensures forall i :: 0 <= i < |ms| ==> (Less(ms[i].offset, bound) <==> i < k)
  {
    var lo, hi := 0, |ms|;
    while lo < hi
      invariant 0 <= lo <= hi <= |ms|
      invariant forall i :: 0 <= i < lo ==> Less(ms[i].offset, bound)
      invariant forall i :: hi <= i < |ms| ==> !Less(ms[i].offset, bound)
    {
      var mid := (lo + hi) / 2;
      if Less(ms[mid].offset, bound) {
        lo := mid + 1;
      } else {
        hi := mid;
      }
    }
    k := lo;
  }

  /** Two binary searches select exactly the records in range. */
  method MessageRange(ms: seq<Message>, from: Offset, upTo: Option<Offset>) returns (start: nat, end: nat)
    requires Ordered(ms)
    ensures start <= end <= |ms|
    ensures ms[start..end] == Select(ms, from, upTo)
  {
    start := 0;
    if !from.Start? {
      start := PartitionPoint(ms, from);
    }
    end := |ms|;
    if upTo.Some? {
      end := PartitionPoint(ms, upTo.value);
    }
    if end < start {
      end := start;
    }
    SliceIsSelect(ms, from, upTo, start, end);
  }

  lemma SliceIsSelect(ms: seq<Message>, from: Offset, upTo: Option<Offset>, start: nat, end: nat)
    requires start <= end <= |ms|
    requires forall i :: 0 <= i < |ms| ==> (InRange(ms[i].offset, from, upTo) <==> start <= i < end)
    ensures ms[start..end] == Select(ms, from, upTo)
  {
    hide Select;
    assert ms == ms[..start] + (ms[start..end] + ms[end..]);
    SelectConcat(ms[..start], ms[start..end] + ms[end..], from, upTo);
    SelectConcat(ms[start..end], ms[end..], from, upTo);
    SelectNone(ms[..start], from, upTo);
    SelectAll(ms[start..end], from, upTo);
    SelectNone(ms[end..], from, upTo);
  }

  /** In an ordered list the records from a position on are a suffix. */
  lemma {:induction false} FromIsSuffix(ms: seq<Message>, from: Offset) returns (k: nat)
    requires Ordered(ms)
    ensures k <= |ms| && ms[k..] == Select(ms, from, None)
    ensures forall i :: 0 <= i < |ms| ==> (!Less(ms[i].offset, from) <==> k <= i)
  {
    k := 0;
    while k < |ms| && Less(ms[k].offset, from)
      invariant 0 <= k <= |ms|
      invariant forall i :: 0 <= i < k ==> Less(ms[i].offset, from)
    {
      k := k + 1;
    }
    SliceIsSelect(ms, from, None, k, |ms|);
  }
}
