/** The offsets of server-sent control frames: when they are sound and when one resumes from them. */
module ControlOffsets {
  import opened Wrappers
  import opened Offsets
  import opened Streams
  import opened Lineage
  import opened Stores
  import opened StoreInvariant
  import opened ForkStability
  import opened Contiguity

  function WrapSub(a: nat, b: nat): (d: nat) {
    if b <= a then a - b else (a - b) % U64
  }

  /** Records and the control payload that follows them. */
  datatype Frame = Frame(data: seq<Bytes>, next: Offset, upToDate: bool, closed: bool)

  /** The subtractions behind the i-th control offset would go below zero. */
  predicate Underflows(r: ReadResult, i: nat)
    requires i < |r.messages| && r.next.Concrete?
  {
    r.next.readSeq < |r.messages| - i - 1 || r.next.byteOffset < PayloadBytes(r.messages[i + 1..])
  }

  /** The tail less what is still to come, as 64-bit subtraction computes it. */
  function ControlAt(r: ReadResult, i: nat): (o: Offset)
    requires i < |r.messages| && r.next.Concrete?
  {
    Concrete(WrapSub(r.next.readSeq, |r.messages| - i - 1),
             WrapSub(r.next.byteOffset, PayloadBytes(r.messages[i + 1..])))
  }

  /**
   A JSON or an empty read is one frame at the tail. Otherwise each record gets its own
   frame, with the remaining records and bytes counted down.
   */
  method EncodeFrames(r: ReadResult, json: bool) returns (frames: seq<Frame>)
    requires r.next.Concrete?
    ensures json || r.messages == [] ==> frames == [Frame(r.messages, r.next, r.atTail, r.closed && r.atTail)]
    ensures !json && r.messages != [] ==>
      && |frames| == |r.messages|
      && (forall i :: 0 <= i < |frames| ==>
            var last := i == |frames| - 1 && r.atTail;
            frames[i] == Frame([r.messages[i]], ControlAt(r, i), last, r.closed && last))
  {
    if json || r.messages == [] {
      return [Frame(r.messages, r.next, r.atTail, r.closed && r.atTail)];
    }
    var remaining := PayloadBytes(r.messages);
    frames := [];
    for i := 0 to |r.messages|
      invariant |frames| == i
      invariant remaining == PayloadBytes(r.messages[i..])
      invariant forall j :: 0 <= j < i ==>
        var last := j == |r.messages| - 1 && r.atTail;
        frames[j] == Frame([r.messages[j]], ControlAt(r, j), last, r.closed && last)
    {
      var message := r.messages[i];
      assert r.messages[i..][1..] == r.messages[i + 1..];
      remaining := remaining - |message|;
      var left := |r.messages| - i - 1;
      var atTail := left == 0 && r.atTail;
      var next := Concrete(WrapSub(r.next.readSeq, left), WrapSub(r.next.byteOffset, remaining));
      frames := frames + [Frame([message], next, atTail, r.closed && atTail)];
    }
  }

  /**
   On a contiguous stream no control offset underflows, and reading again from any
   emitted control offset returns exactly the records after it.
   */
  lemma ControlOffsetsResume(ms: seq<Message>, next: Offset, from: Offset, r: ReadResult, i: nat)
    requires Contiguous(ms, next) && !from.Now?
    requires r.messages == Data(Select(ms, from, None)) && r.next == next && i < |r.messages|
    ensures !Underflows(r, i)
    ensures Data(Select(ms, ControlAt(r, i), None)) == r.messages[i + 1..]
  {
    hide Select, PayloadBytes;
    var k := ReadIsSuffix(ms, next, from);
    assert r.messages == Data(ms)[k..];
    var j := k + i + 1;
    var d := Data(ms);
    assert r.messages[i + 1..] == d[j..];
    assert d == d[..j] + d[j..] && d[..|ms|] == d;
    PayloadConcat(d[..j], d[j..]);
    CutAtBoundary(ms, next, j);
    assert Data(ms[j..]) == d[j..];
  }

  lemma ReadIsSuffix(ms: seq<Message>, next: Offset, from: Offset) returns (k: nat)
    requires Contiguous(ms, next)
    ensures k <= |ms| && Data(Select(ms, from, None)) == Data(ms)[k..]
  {
    hide Select;
    ContiguousIsOrdered(ms, next);
    k := FromIsSuffix(ms, from);
    assert Data(ms[k..]) == Data(ms)[k..];
  }

  lemma ContiguousIsOrdered(ms: seq<Message>, next: Offset)
    requires Contiguous(ms, next)
    ensures Ordered(ms)
  {
    hide PayloadBytes;
    forall i, j | 0 <= i < j < |ms| ensures Less(ms[i].offset, ms[j].offset) {
      assert ms[i].offset == Contiguity.At(ms, i) && ms[j].offset == Contiguity.At(ms, j);
    }
  }

  // ---------------------------------------------------------------- forks anchored anywhere

  /** A contiguous cut, then records stamped from `(q, b)`, which lies past the cut. */
  predicate Joined(cut: seq<Message>, local: seq<Message>, q: nat, b: nat) {
    && (forall k :: 0 <= k < |cut| ==> cut[k].offset == Contiguity.At(cut, k) && Less(cut[k].offset, Concrete(q, b)))
    && (forall k :: 0 <= k < |local| ==> local[k].offset == Concrete(q + k, b + PayloadBytes(Data(local)[..k])))
  }

  function TailOf(local: seq<Message>, q: nat, b: nat): (o: Offset) {
    Concrete(q + |local|, b + PayloadBytes(Data(local)))
  }

  /** Bytes from record `j` on. */
  function Rest(ms: seq<Message>, j: nat): (n: nat)
    requires j <= |ms|
  {
    PayloadBytes(Data(ms)[j..])
  }

  lemma RestShrinks(ms: seq<Message>, j: nat, k: nat)
    requires j <= k <= |ms|
    ensures Rest(ms, k) <= Rest(ms, j)
  {
    assert Data(ms)[j..] == Data(ms)[j..k] + Data(ms)[k..];
    PayloadConcat(Data(ms)[j..k], Data(ms)[k..]);
  }

  lemma RestOfJoin(cut: seq<Message>, local: seq<Message>, j: nat)
    requires j <= |cut| + |local|
    ensures Rest(cut + local, j) ==
      if j <= |cut| then Rest(cut, j) + PayloadBytes(Data(local)) else Rest(local, j - |cut|)
  {
    DataConcat(cut, local);
    if j <= |cut| {
      assert Data(cut + local)[j..] == Data(cut)[j..] + Data(local);
      PayloadConcat(Data(cut)[j..], Data(local));
    } else {
      assert Data(cut + local)[j..] == Data(local)[j - |cut|..];
    }
  }

  lemma RestAndBefore(ms: seq<Message>, j: nat)
    requires j <= |ms|
    ensures PayloadBytes(Data(ms)[..j]) + Rest(ms, j) == PayloadBytes(Data(ms))
  {
    assert Data(ms) == Data(ms)[..j] + Data(ms)[j..];
    PayloadConcat(Data(ms)[..j], Data(ms)[j..]);
  }

  lemma JoinedIsOrdered(cut: seq<Message>, local: seq<Message>, q: nat, b: nat)
    requires Joined(cut, local, q, b)
    ensures Ordered(cut + local) && |cut| <= q + 1
  {
    var ms := cut + local;
    forall i, j | 0 <= i < j < |ms| ensures Less(ms[i].offset, ms[j].offset) {
      if j < |cut| {
        assert ms[i].offset == Contiguity.At(cut, i) && ms[j].offset == Contiguity.At(cut, j);
      } else {
        assert ms[j].offset == Concrete(q + (j - |cut|), b + PayloadBytes(Data(local)[..j - |cut|]));
        if i < |cut| { assert ms[i].offset == cut[i].offset; }
      }
    }
    if cut != [] { assert cut[|cut| - 1].offset == Contiguity.At(cut, |cut| - 1); }
  }

  /** A read of the joined records from record `k` on. */
  predicate ReadsFrom(r: ReadResult, cut: seq<Message>, local: seq<Message>, q: nat, b: nat, k: nat) {
    k <= |cut| + |local| && r.messages == Data(cut + local)[k..] && r.next == TailOf(local, q, b)
  }

  /** In such a read only the byte subtraction can underflow, and only for records of the cut. */
  lemma UnderflowsIff(r: ReadResult, cut: seq<Message>, local: seq<Message>, q: nat, b: nat, k: nat, i: nat)
    requires Joined(cut, local, q, b) && ReadsFrom(r, cut, local, q, b, k) && i < |r.messages|
    ensures Underflows(r, i) <==> k + i + 1 < |cut| && b < Rest(cut, k + i + 1)
  {
    var j := k + i + 1;
    JoinedIsOrdered(cut, local, q, b);
    assert r.messages[i + 1..] == Data(cut + local)[j..];
    RestOfJoin(cut, local, j);
    if j > |cut| {
      RestShrinks(local, 0, j - |cut|);
      assert Data(local)[0..] == Data(local);
    } else if j == |cut| {
      assert Data(cut)[j..] == [];
    }
  }

  /** What is computed as the control offset is the position of the next record, if that is local, or the tail. */
  function Position(cut: seq<Message>, local: seq<Message>, q: nat, b: nat, j: nat): (o: Offset)
    requires j <= |cut| + |local| && (j < |cut| ==> |cut| <= q + j && Rest(cut, j) <= b)
  {
    if j < |cut| then Concrete(q - (|cut| - j), b - Rest(cut, j))
    else Concrete(q + (j - |cut|), b + PayloadBytes(Data(local)[..j - |cut|]))
  }

  lemma ControlIsPosition(r: ReadResult, cut: seq<Message>, local: seq<Message>, q: nat, b: nat, k: nat, i: nat)
    requires Joined(cut, local, q, b) && ReadsFrom(r, cut, local, q, b, k) && i < |r.messages| && !Underflows(r, i)
    ensures k + i + 1 < |cut| ==> |cut| <= q + (k + i + 1) && Rest(cut, k + i + 1) <= b
    ensures ControlAt(r, i) == Position(cut, local, q, b, k + i + 1)
  {
    hide PayloadBytes, Ordered, Less;
    var j := k + i + 1;
    UnderflowsIff(r, cut, local, q, b, k, i);
    JoinedIsOrdered(cut, local, q, b);
    hide Joined;
    NoBytes(cut);
    assert r.messages[i + 1..] == Data(cut + local)[j..];
    RestOfJoin(cut, local, j);
    if j >= |cut| {
      RestAndBefore(local, j - |cut|);
    }
  }

  lemma NoBytes(ms: seq<Message>)
    ensures Rest(ms, |ms|) == 0
  {
    assert Data(ms)[|ms|..] == [];
  }

  /** Reading the ordered records from `o` starts at record `j`. */
  lemma StartsAtIff(ms: seq<Message>, o: Offset, j: nat)
    requires Ordered(ms) && j <= |ms|
    ensures Data(Select(ms, o, None)) == Data(ms)[j..] <==>
      (j > 0 ==> Less(ms[j - 1].offset, o)) && (j < |ms| ==> !Less(ms[j].offset, o))
  {
    hide Select;
    var k := FromIsSuffix(ms, o);
    assert Data(ms[k..]) == Data(ms)[k..];
    assert |Data(ms)[k..]| == |ms| - k && |Data(ms)[j..]| == |ms| - j;
  }

  // ---------------------------------------------------------------- the exact conditions

  /** A well-stamped fork, anchored at a concrete position of a contiguous source, whose offsets do not wrap. */
  ghost predicate OverContiguous(c: Catalog, n: string, srcNext: Offset) {
    && Linked(c) && n in c && c[n].fork.Some? && WellStamped(c[n])
    && c[n].fork.value.offset.Concrete? && Contiguous(View(c, c[n].fork.value.source), srcNext)
    && c[n].fork.value.offset.byteOffset + PayloadBytes(Data(c[n].messages)) < U64
  }

  lemma LocalIsStamped(e: Entry)
    requires e.fork.Some? && e.fork.value.offset.Concrete? && WellStamped(e)
    requires e.fork.value.offset.byteOffset + PayloadBytes(Data(e.messages)) < U64
    ensures var q, b := e.fork.value.offset.readSeq, e.fork.value.offset.byteOffset;
      && e.Tail() == TailOf(e.messages, q, b)
      && (forall k :: 0 <= k < |e.messages| ==>
            e.messages[k].offset == Concrete(q + k, b + PayloadBytes(Data(e.messages)[..k])))
  {
    var q, b, d := e.fork.value.offset.readSeq, e.fork.value.offset.byteOffset, Data(e.messages);
    EndByteIsSum(b, d);
    forall k | 0 <= k < |e.messages| ensures e.messages[k].offset == Concrete(q + k, b + PayloadBytes(d[..k])) {
      StampAt(q, b, d, k);
      PayloadMonotone(d, k, |d|);
      assert d[..|d|] == d;
      EndByteIsSum(b, d[..k]);
    }
  }

  /** Below an accepted anchor: at most one record less than it counts, and no byte beyond. */
  lemma CutBelowAnchor(src: seq<Message>, srcNext: Offset, q: nat, b: nat)
    requires Contiguous(src, srcNext)
    ensures var cut := Select(src, Start, Some(Concrete(q, b)));
      && (forall k :: 0 <= k < |cut| ==> cut[k].offset == Contiguity.At(cut, k) && Less(cut[k].offset, Concrete(q, b)))
      && (!Less(srcNext, Concrete(q, b)) ==> q <= |cut| && (q == |cut| ==> b <= PayloadBytes(Data(cut))))
  {
    var o := Concrete(q, b);
    var k := CutIsPrefix(src, srcNext, o);
    PrefixContiguous(src, srcNext, k);
    hide Select;
    var cut := src[..k];
    assert Data(cut)[..k] == Data(cut);
    assert Data(src)[..k] == Data(cut);
    if k < |src| { assert src[k].offset == Contiguity.At(src, k); }
  }

  lemma ForkIsJoined(c: Catalog, n: string, srcNext: Offset)
    requires OverContiguous(c, n, srcNext)
    ensures var e := c[n];
      var cut, q, b := Inherited(c, e.fork), e.fork.value.offset.readSeq, e.fork.value.offset.byteOffset;
      && View(c, n) == cut + e.messages && Joined(cut, e.messages, q, b) && e.Tail() == TailOf(e.messages, q, b)
      && (!Less(srcNext, Concrete(q, b)) ==> q <= |cut| && (q == |cut| ==> b <= PayloadBytes(Data(cut))))
  {
    hide WellStamped, Contiguous, Select;
    var e := c[n];
    var q, b := e.fork.value.offset.readSeq, e.fork.value.offset.byteOffset;
    LocalIsStamped(e);
    CutBelowAnchor(View(c, e.fork.value.source), srcNext, q, b);
    assert e.fork.value.offset == Concrete(q, b);
    var cut := Inherited(c, e.fork);
    assert cut == Select(View(c, e.fork.value.source), Start, Some(Concrete(q, b)));
    forall k | 0 <= k < |cut| ensures cut[k].offset == Contiguity.At(cut, k) && Less(cut[k].offset, Concrete(q, b)) { }
  }

  /** Every read of the stream, from anywhere, is a suffix of the joined records. */
  lemma ForkReadsSuffix(c: Catalog, n: string, srcNext: Offset, from: Offset) returns (k: nat)
    requires OverContiguous(c, n, srcNext)
    ensures var e := c[n];
      ReadsFrom(ReadView(c, n, from), Inherited(c, e.fork), e.messages,
                e.fork.value.offset.readSeq, e.fork.value.offset.byteOffset, k)
    ensures from.Start? ==> k == 0
  {
    hide WellStamped, Contiguous, Select;
    ForkIsJoined(c, n, srcNext);
    var e := c[n];
    var cut, q, b := Inherited(c, e.fork), e.fork.value.offset.readSeq, e.fork.value.offset.byteOffset;
    var ms := cut + e.messages;
    JoinedIsOrdered(cut, e.messages, q, b);
    if from.Now? {
      k := |ms|;
      assert Data(ms)[k..] == [];
    } else {
      k := FromIsSuffix(ms, from);
      assert Data(ms[k..]) == Data(ms)[k..];
      assert |ms| > 0 ==> (!Less(ms[0].offset, from) <==> k <= 0);
    }
  }

  lemma ReadEndsConcrete(c: Catalog, n: string)
    requires n in c
    ensures forall from :: ReadView(c, n, from).next.Concrete?
  {
  }

  ghost predicate NeverUnderflows(c: Catalog, n: string)
    requires n in c
  {
    forall from, i {:trigger Underflows(ReadView(c, n, from), i)} ::
      0 <= i < |ReadView(c, n, from).messages| ==> !Underflows(ReadView(c, n, from), i)
  }

  /**
   No control offset of any read underflows if and only if nothing is inherited or the
   anchor's byte offset covers the inherited records after the first.
   */
  lemma NeverUnderflowsIff(c: Catalog, n: string, srcNext: Offset)
    requires OverContiguous(c, n, srcNext)
    ensures var e := c[n]; var cut := Inherited(c, e.fork);
      NeverUnderflows(c, n) <==> cut == [] || PayloadBytes(Data(cut)[1..]) <= e.fork.value.offset.byteOffset
  {
    hide WellStamped, Contiguous, Underflows, Select;
    ForkIsJoined(c, n, srcNext);
    ReadEndsConcrete(c, n);
    hide Joined, View, Inherited, ReadView, Linked, PayloadBytes;
    NoBytes(Inherited(c, c[n].fork));
    var e := c[n];
    var cut, q, b := Inherited(c, e.fork), e.fork.value.offset.readSeq, e.fork.value.offset.byteOffset;
    if cut == [] || Rest(cut, 1) <= b {
      forall from, i | 0 <= i < |ReadView(c, n, from).messages| ensures !Underflows(ReadView(c, n, from), i) {
        var k := ForkReadsSuffix(c, n, srcNext, from);
        UnderflowsIff(ReadView(c, n, from), cut, e.messages, q, b, k, i);
        if k + i + 1 < |cut| { RestShrinks(cut, 1, k + i + 1); }
      }
    } else {
      var k := ForkReadsSuffix(c, n, srcNext, Start);
      var r := ReadView(c, n, Start);
      DataConcat(cut, e.messages);
      assert |r.messages| == |cut| + |e.messages|;
      UnderflowsIff(r, cut, e.messages, q, b, 0, 0);
    }
  }

  /** Reading again from a control offset gives exactly the records after its frame. */
  ghost predicate ResumesAt(c: Catalog, n: string, from: Offset, i: nat)
    requires n in c && i < |ReadView(c, n, from).messages|
  {
    var r := ReadView(c, n, from);
    ReadView(c, n, ControlAt(r, i)).messages == r.messages[i + 1..]
  }

  ghost predicate AlwaysResumes(c: Catalog, n: string)
    requires n in c
  {
    forall from, i :: 0 <= i < |ReadView(c, n, from).messages| ==> ResumesAt(c, n, from, i)
  }

  /** Every control offset is computed without underflow and resumes exactly. */
  ghost predicate AlwaysResumesCleanly(c: Catalog, n: string)
    requires n in c
  {
    forall from, i :: 0 <= i < |ReadView(c, n, from).messages| ==> CleanAt(c, n, from, i)
  }

  ghost predicate CleanAt(c: Catalog, n: string, from: Offset, i: nat)
    requires n in c && i < |ReadView(c, n, from).messages|
  {
    !Underflows(ReadView(c, n, from), i) && ResumesAt(c, n, from, i)
  }

  /** At the count of the cut and covering all but its first record, or one before it with every record long enough. */
  predicate CleanlyResumable(cut: seq<Message>, q: nat, b: nat) {
    || cut == []
    || (q == |cut| && PayloadBytes(Data(cut)[1..]) <= b)
    || (q + 1 == |cut| && forall j :: 0 <= j < |cut| - 1 ==> PayloadBytes(Data(cut)) < b + |cut[j].data|)
  }

  /** The same, but one before the count a wrapped offset does as well. */
  predicate Resumable(cut: seq<Message>, q: nat, b: nat) {
    || cut == []
    || (q == |cut| && PayloadBytes(Data(cut)[1..]) <= b)
    || (q + 1 == |cut| && forall j :: 1 <= j < |cut| ==> b < Rest(cut, j) || PayloadBytes(Data(cut)) < b + |cut[j - 1].data|)
  }

  lemma OneRecord(ms: seq<Message>, j: nat)
    requires j < |ms|
    ensures PayloadBytes(Data(ms)[..j + 1]) == PayloadBytes(Data(ms)[..j]) + |ms[j].data|
    ensures Rest(ms, j) == |ms[j].data| + Rest(ms, j + 1)
  {
    assert Data(ms)[..j + 1] == Data(ms)[..j] + [ms[j].data];
    PayloadConcat(Data(ms)[..j], [ms[j].data]);
    var one: seq<Bytes> := [ms[j].data];
    assert PayloadBytes(one) == |ms[j].data| by { assert one[1..] == []; }
    assert Data(ms)[j..] == one + Data(ms)[j + 1..];
    PayloadConcat(one, Data(ms)[j + 1..]);
  }

  /** Resuming after `j` records, `j` inside the cut. */
  lemma InsideCutIff(cut: seq<Message>, local: seq<Message>, q: nat, b: nat, j: nat)
    requires Joined(cut, local, q, b) && 1 <= j < |cut| <= q + j && Rest(cut, j) <= b
    requires q <= |cut| && (q == |cut| ==> b <= PayloadBytes(Data(cut)))
    ensures Data(Select(cut + local, Position(cut, local, q, b, j), None)) == Data(cut + local)[j..] <==>
      q == |cut| || PayloadBytes(Data(cut)) < b + |cut[j - 1].data|
  {
    hide Select;
    var ms, o := cut + local, Position(cut, local, q, b, j);
    JoinedIsOrdered(cut, local, q, b);
    StartsAtIff(ms, o, j);
    RestAndBefore(cut, j);
    OneRecord(cut, j - 1);
    assert ms[j].offset == Contiguity.At(cut, j) && ms[j - 1].offset == Contiguity.At(cut, j - 1);
  }

  /** Resuming after the whole cut or later. */
  lemma PastCut(cut: seq<Message>, local: seq<Message>, q: nat, b: nat, j: nat)
    requires Joined(cut, local, q, b) && 1 <= j && |cut| <= j <= |cut| + |local|
    ensures Data(Select(cut + local, Position(cut, local, q, b, j), None)) == Data(cut + local)[j..]
  {
    hide Select;
    var ms, o := cut + local, Position(cut, local, q, b, j);
    JoinedIsOrdered(cut, local, q, b);
    StartsAtIff(ms, o, j);
    var m := j - |cut|;
    if m > 0 {
      PayloadMonotone(Data(local), m - 1, m);
      assert ms[j - 1] == local[m - 1];
    } else {
      assert ms[j - 1] == cut[j - 1];
    }
  }

  /** The control offset after `j` records, `j` inside the cut, when its byte part wraps. */
  function Wrapped(cut: seq<Message>, q: nat, b: nat, j: nat): (o: Offset)
    requires j < |cut| <= q + j && b < Rest(cut, j) < U64
  {
    Concrete(q - (|cut| - j), U64 - (Rest(cut, j) - b))
  }

  lemma ControlIsWrapped(r: ReadResult, cut: seq<Message>, local: seq<Message>, q: nat, b: nat, k: nat, i: nat)
    requires Joined(cut, local, q, b) && ReadsFrom(r, cut, local, q, b, k) && i < |r.messages| && Underflows(r, i)
    requires PayloadBytes(Data(cut)) < U64
    ensures var j := k + i + 1;
      && 1 <= j < |cut| <= q + j && b < Rest(cut, j) < U64 && ControlAt(r, i) == Wrapped(cut, q, b, j)
  {
    var j := k + i + 1;
    UnderflowsIff(r, cut, local, q, b, k, i);
    JoinedIsOrdered(cut, local, q, b);
    assert r.messages[i + 1..] == Data(cut + local)[j..];
    RestOfJoin(cut, local, j);
    RestAndBefore(cut, j);
    WrapBelow(b + PayloadBytes(Data(local)), Rest(cut, j) - b);
  }

  lemma WrapBelow(a: nat, d: nat)
    requires 0 < d < U64
    ensures WrapSub(a, a + d) == U64 - d
  {
    var m: int := d;
    assert (a as int) - (a + d) == 0 - m;
    assert (0 - m) % U64 == U64 - m;
  }

  /** A wrapped offset lies past every byte count, so it resumes exactly when it names the record before. */
  lemma WrappedIff(cut: seq<Message>, local: seq<Message>, q: nat, b: nat, j: nat)
    requires Joined(cut, local, q, b) && 1 <= j < |cut| <= q + j && b < Rest(cut, j) && PayloadBytes(Data(cut)) < U64
    requires q <= |cut|
    ensures Rest(cut, j) < U64
    ensures Data(Select(cut + local, Wrapped(cut, q, b, j), None)) == Data(cut + local)[j..] <==> q + 1 == |cut|
  {
    hide Select;
    RestAndBefore(cut, j);
    RestAndBefore(cut, j - 1);
    RestShrinks(cut, j - 1, j);
    var ms, o := cut + local, Wrapped(cut, q, b, j);
    JoinedIsOrdered(cut, local, q, b);
    StartsAtIff(ms, o, j);
    assert ms[j].offset == Contiguity.At(cut, j) && ms[j - 1].offset == Contiguity.At(cut, j - 1);
  }

  /** Resuming after `j` records of the fork is exact and its offset does not wrap. */
  predicate CleanAfter(cut: seq<Message>, q: nat, b: nat, j: nat)
    requires 1 <= j
  {
    |cut| <= j || (Rest(cut, j) <= b && (q == |cut| || PayloadBytes(Data(cut)) < b + |cut[j - 1].data|))
  }

  /** Resuming after `j` records of the fork is exact. */
  predicate ExactAfter(cut: seq<Message>, q: nat, b: nat, j: nat)
    requires 1 <= j
  {
    CleanAfter(cut, q, b, j) || (Rest(cut, j) > b && q + 1 == |cut|)
  }

  /** The facts both theorems use about one frame of one read. */
  ghost predicate FrameOf(c: Catalog, n: string, srcNext: Offset, from: Offset, k: nat, i: nat) {
    && OverContiguous(c, n, srcNext) && !Less(srcNext, c[n].fork.value.offset)
    && i < |ReadView(c, n, from).messages|
    && ReadsFrom(ReadView(c, n, from), Inherited(c, c[n].fork), c[n].messages,
                 c[n].fork.value.offset.readSeq, c[n].fork.value.offset.byteOffset, k)
  }

  /** Reading from a concrete position, in terms of the joined records. */
  lemma ResumeIsSelect(c: Catalog, n: string, srcNext: Offset, from: Offset, k: nat, i: nat)
    requires FrameOf(c, n, srcNext, from, k, i)
    ensures var ms := Inherited(c, c[n].fork) + c[n].messages;
      ResumesAt(c, n, from, i) <==>
      Data(Select(ms, ControlAt(ReadView(c, n, from), i), None)) == Data(ms)[k + i + 1..]
  {
    hide WellStamped, Contiguous, Select, Joined, Less;
    ForkIsJoined(c, n, srcNext);
    hide Inherited;
    var e, r := c[n], ReadView(c, n, from);
    var cut := Inherited(c, e.fork);
    DataConcat(cut, e.messages);
    assert r.messages[i + 1..] == Data(cut + e.messages)[k + i + 1..];
  }

  /** Resumption without underflow after the i-th frame of a read that starts at record `k`. */
  lemma CleanAtIff(c: Catalog, n: string, srcNext: Offset, from: Offset, k: nat, i: nat)
    requires FrameOf(c, n, srcNext, from, k, i)
    ensures var e := c[n];
      CleanAt(c, n, from, i) <==>
      CleanAfter(Inherited(c, e.fork), e.fork.value.offset.readSeq, e.fork.value.offset.byteOffset, k + i + 1)
  {
    hide WellStamped, Contiguous, Underflows, Select;
    ForkIsJoined(c, n, srcNext);
    ResumeIsSelect(c, n, srcNext, from, k, i);
    var e, j, r := c[n], k + i + 1, ReadView(c, n, from);
    var cut, q, b := Inherited(c, e.fork), e.fork.value.offset.readSeq, e.fork.value.offset.byteOffset;
    assert e.fork.value.offset == Concrete(q, b);
    hide ReadView, Inherited, ResumesAt, Less;
    UnderflowsIff(r, cut, e.messages, q, b, k, i);
    if !Underflows(r, i) {
      ControlIsPosition(r, cut, e.messages, q, b, k, i);
      hide Joined, Position;
      if j < |cut| {
        InsideCutIff(cut, e.messages, q, b, j);
      } else {
        PastCut(cut, e.messages, q, b, j);
      }
    }
  }

  /** Resumption, wrapped offsets included. */
  lemma ResumesAtIff(c: Catalog, n: string, srcNext: Offset, from: Offset, k: nat, i: nat)
    requires FrameOf(c, n, srcNext, from, k, i) && PayloadBytes(Data(Inherited(c, c[n].fork))) < U64
    ensures var e := c[n];
      ResumesAt(c, n, from, i) <==>
      ExactAfter(Inherited(c, e.fork), e.fork.value.offset.readSeq, e.fork.value.offset.byteOffset, k + i + 1)
  {
    hide WellStamped, Contiguous, Underflows, Select;
    ForkIsJoined(c, n, srcNext);
    CleanAtIff(c, n, srcNext, from, k, i);
    ResumeIsSelect(c, n, srcNext, from, k, i);
    var e, j, r := c[n], k + i + 1, ReadView(c, n, from);
    var cut, q, b := Inherited(c, e.fork), e.fork.value.offset.readSeq, e.fork.value.offset.byteOffset;
    assert e.fork.value.offset == Concrete(q, b);
    hide ReadView, Inherited, ResumesAt, Less;
    UnderflowsIff(r, cut, e.messages, q, b, k, i);
    if Underflows(r, i) {
      ControlIsWrapped(r, cut, e.messages, q, b, k, i);
      hide Joined, Wrapped;
      WrappedIff(cut, e.messages, q, b, j);
    }
  }

  /** An accepted anchor is cleanly resumable exactly when resuming after each inherited record is clean. */
  lemma CleanlyResumableIff(cut: seq<Message>, q: nat, b: nat)
    requires q <= |cut| <= q + 1
    ensures CleanlyResumable(cut, q, b) <==> forall j :: 1 <= j < |cut| ==> CleanAfter(cut, q, b, j)
  {
    assert |cut| == 1 ==> Data(cut)[1..] == [];
    if CleanlyResumable(cut, q, b) {
      forall j | 1 <= j < |cut| ensures CleanAfter(cut, q, b, j) {
        if q == |cut| {
          RestShrinks(cut, 1, j);
        } else {
          RestAndBefore(cut, j - 1);
          OneRecord(cut, j - 1);
        }
      }
    }
    if forall j :: 1 <= j < |cut| ==> CleanAfter(cut, q, b, j) {
      if |cut| > 1 { assert CleanAfter(cut, q, b, 1); }
      forall m | 0 <= m < |cut| - 1 && q + 1 == |cut| ensures PayloadBytes(Data(cut)) < b + |cut[m].data| {
        assert CleanAfter(cut, q, b, m + 1);
      }
    }
  }

  lemma ResumableIff(cut: seq<Message>, q: nat, b: nat)
    requires q <= |cut| <= q + 1
    ensures Resumable(cut, q, b) <==> forall j :: 1 <= j < |cut| ==> ExactAfter(cut, q, b, j)
  {
    assert |cut| == 1 ==> Data(cut)[1..] == [];
    if Resumable(cut, q, b) {
      forall j | 1 <= j < |cut| ensures ExactAfter(cut, q, b, j) {
        if q == |cut| { RestShrinks(cut, 1, j); }
      }
    }
    if forall j :: 1 <= j < |cut| ==> ExactAfter(cut, q, b, j) {
      if |cut| > 1 { assert ExactAfter(cut, q, b, 1); }
      forall j | 1 <= j < |cut| && q + 1 == |cut|
        ensures b < Rest(cut, j) || PayloadBytes(Data(cut)) < b + |cut[j - 1].data|
      {
        assert ExactAfter(cut, q, b, j);
      }
    }
  }

  lemma LaterResumes(cut: seq<Message>, q: nat, b: nat, j: nat)
    requires 1 <= j && |cut| <= j
    ensures CleanAfter(cut, q, b, j) && ExactAfter(cut, q, b, j)
  {
  }

  /** Every frame of every read is one. */
  lemma FrameAt(c: Catalog, n: string, srcNext: Offset, from: Offset, i: nat) returns (k: nat)
    requires OverContiguous(c, n, srcNext) && !Less(srcNext, c[n].fork.value.offset)
    requires i < |ReadView(c, n, from).messages|
    ensures FrameOf(c, n, srcNext, from, k, i)
  {
    hide WellStamped, Contiguous, Select, View, Inherited, ReadView, Less;
    k := ForkReadsSuffix(c, n, srcNext, from);
  }

  /** Every record of the fork has its frame in a read from the start. */
  lemma FramesFromStart(c: Catalog, n: string, srcNext: Offset)
    requires OverContiguous(c, n, srcNext) && !Less(srcNext, c[n].fork.value.offset)
    ensures |ReadView(c, n, Start).messages| == |Inherited(c, c[n].fork)| + |c[n].messages|
    ensures forall i :: 0 <= i < |ReadView(c, n, Start).messages| ==> FrameOf(c, n, srcNext, Start, 0, i)
  {
    hide WellStamped, Contiguous, Select, View, Inherited, ReadView, Less;
    var k := ForkReadsSuffix(c, n, srcNext, Start);
    DataConcat(Inherited(c, c[n].fork), c[n].messages);
  }

  /** The anchor's count is that of the cut or one less. */
  lemma AnchorCounts(c: Catalog, n: string, srcNext: Offset)
    requires OverContiguous(c, n, srcNext) && !Less(srcNext, c[n].fork.value.offset)
    ensures var cut, q := Inherited(c, c[n].fork), c[n].fork.value.offset.readSeq; q <= |cut| <= q + 1
  {
    hide WellStamped, Contiguous, Select;
    ForkIsJoined(c, n, srcNext);
    var e := c[n];
    var q, b := e.fork.value.offset.readSeq, e.fork.value.offset.byteOffset;
    assert e.fork.value.offset == Concrete(q, b);
    JoinedIsOrdered(Inherited(c, e.fork), e.messages, q, b);
  }

  lemma ResumableResumes(c: Catalog, n: string, srcNext: Offset)
    requires OverContiguous(c, n, srcNext) && !Less(srcNext, c[n].fork.value.offset)
    requires PayloadBytes(Data(Inherited(c, c[n].fork))) < U64
    requires Resumable(Inherited(c, c[n].fork), c[n].fork.value.offset.readSeq, c[n].fork.value.offset.byteOffset)
    ensures AlwaysResumes(c, n)
  {
    hide WellStamped, Contiguous, FrameOf, ResumesAt, ReadView, Inherited, View, ExactAfter, Resumable, Less;
    var cut, o := Inherited(c, c[n].fork), c[n].fork.value.offset;
    AnchorCounts(c, n, srcNext);
    ResumableIff(cut, o.readSeq, o.byteOffset);
    forall from, i | 0 <= i < |ReadView(c, n, from).messages| ensures ResumesAt(c, n, from, i) {
      var k := FrameAt(c, n, srcNext, from, i);
      ResumesAtIff(c, n, srcNext, from, k, i);
      if |cut| <= k + i + 1 { LaterResumes(cut, o.readSeq, o.byteOffset, k + i + 1); }
    }
  }

  lemma ResumingIsResumable(c: Catalog, n: string, srcNext: Offset)
    requires OverContiguous(c, n, srcNext) && !Less(srcNext, c[n].fork.value.offset)
    requires PayloadBytes(Data(Inherited(c, c[n].fork))) < U64 && AlwaysResumes(c, n)
    ensures Resumable(Inherited(c, c[n].fork), c[n].fork.value.offset.readSeq, c[n].fork.value.offset.byteOffset)
  {
    hide WellStamped, Contiguous, FrameOf, ResumesAt, ReadView, Inherited, View, ExactAfter, Resumable, Less;
    var cut, o := Inherited(c, c[n].fork), c[n].fork.value.offset;
    AnchorCounts(c, n, srcNext);
    FramesFromStart(c, n, srcNext);
    ResumableIff(cut, o.readSeq, o.byteOffset);
    forall j | 1 <= j < |cut| ensures ExactAfter(cut, o.readSeq, o.byteOffset, j) {
      assert ResumesAt(c, n, Start, j - 1);
      ResumesAtIff(c, n, srcNext, Start, 0, j - 1);
    }
  }

  /**
   Every control offset of every read resumes exactly if and only if the anchor is
   resumable over what the fork inherits, 64-bit wrap-around included.
   */
  lemma AlwaysResumesIff(c: Catalog, n: string, srcNext: Offset)
    requires OverContiguous(c, n, srcNext) && !Less(srcNext, c[n].fork.value.offset)
    requires PayloadBytes(Data(Inherited(c, c[n].fork))) < U64
    ensures var e := c[n];
      AlwaysResumes(c, n) <==>
      Resumable(Inherited(c, e.fork), e.fork.value.offset.readSeq, e.fork.value.offset.byteOffset)
  {
    hide WellStamped, Contiguous, AlwaysResumes, Resumable, Inherited, View, Less;
    if AlwaysResumes(c, n) { ResumingIsResumable(c, n, srcNext); }
    if Resumable(Inherited(c, c[n].fork), c[n].fork.value.offset.readSeq, c[n].fork.value.offset.byteOffset) {
      ResumableResumes(c, n, srcNext);
    }
  }

  lemma CleanlyResumableResumes(c: Catalog, n: string, srcNext: Offset)
    requires OverContiguous(c, n, srcNext) && !Less(srcNext, c[n].fork.value.offset)
    requires CleanlyResumable(Inherited(c, c[n].fork), c[n].fork.value.offset.readSeq, c[n].fork.value.offset.byteOffset)
    ensures AlwaysResumesCleanly(c, n)
  {
    hide WellStamped, Contiguous, FrameOf, CleanAt, ReadView, Inherited, View, CleanAfter, CleanlyResumable, Less;
    var cut, o := Inherited(c, c[n].fork), c[n].fork.value.offset;
    AnchorCounts(c, n, srcNext);
    CleanlyResumableIff(cut, o.readSeq, o.byteOffset);
    forall from, i | 0 <= i < |ReadView(c, n, from).messages| ensures CleanAt(c, n, from, i) {
      var k := FrameAt(c, n, srcNext, from, i);
      CleanAtIff(c, n, srcNext, from, k, i);
      if |cut| <= k + i + 1 { LaterResumes(cut, o.readSeq, o.byteOffset, k + i + 1); }
    }
  }

  lemma CleanlyResumingIsResumable(c: Catalog, n: string, srcNext: Offset)
    requires OverContiguous(c, n, srcNext) && !Less(srcNext, c[n].fork.value.offset) && AlwaysResumesCleanly(c, n)
    ensures CleanlyResumable(Inherited(c, c[n].fork), c[n].fork.value.offset.readSeq, c[n].fork.value.offset.byteOffset)
  {
    hide WellStamped, Contiguous, FrameOf, CleanAt, ReadView, Inherited, View, CleanAfter, CleanlyResumable, Less;
    var cut, o := Inherited(c, c[n].fork), c[n].fork.value.offset;
    AnchorCounts(c, n, srcNext);
    FramesFromStart(c, n, srcNext);
    CleanlyResumableIff(cut, o.readSeq, o.byteOffset);
    forall j | 1 <= j < |cut| ensures CleanAfter(cut, o.readSeq, o.byteOffset, j) {
      assert CleanAt(c, n, Start, j - 1);
      CleanAtIff(c, n, srcNext, Start, 0, j - 1);
    }
  }

  /** Every control offset of every read is free of underflow and exact if and only if the anchor is cleanly resumable. */
  lemma AlwaysResumesCleanlyIff(c: Catalog, n: string, srcNext: Offset)
    requires OverContiguous(c, n, srcNext) && !Less(srcNext, c[n].fork.value.offset)
    ensures var e := c[n];
      AlwaysResumesCleanly(c, n) <==>
      CleanlyResumable(Inherited(c, e.fork), e.fork.value.offset.readSeq, e.fork.value.offset.byteOffset)
  {
    hide WellStamped, Contiguous, AlwaysResumesCleanly, CleanlyResumable, Inherited, View, Less;
    if AlwaysResumesCleanly(c, n) { CleanlyResumingIsResumable(c, n, srcNext); }
    if CleanlyResumable(Inherited(c, c[n].fork), c[n].fork.value.offset.readSeq, c[n].fork.value.offset.byteOffset) {
      CleanlyResumableResumes(c, n, srcNext);
    }
  }
}
