/** Forks keep what they inherited, whatever happens to the streams around them. */
module ForkStability {
  import opened Wrappers
  import opened Offsets
  import opened Streams
  import opened Lineage
  import opened Stores
  import opened StoreInvariant
  import opened StoreRuns

  // ---------------------------------------------------------------- one step

  /** Records past the fork point never enter the inherited part. */
  lemma LateRecordsInvisible(ms: seq<Message>, late: seq<Message>, tail: Offset, cut: Offset)
    requires !Less(tail, cut) && tail.Concrete?
    requires forall i :: 0 <= i < |late| ==> late[i].offset.Concrete? && !Less(late[i].offset, tail)
    ensures Select(ms + late, Start, Some(cut)) == Select(ms, Start, Some(cut))
  {
    SelectConcat(ms, late, Start, Some(cut));
    SelectNone(late, Start, Some(cut));
  }

  lemma {:induction false} ViewContinues(
    a: Catalog, b: Catalog, touched: Option<string>, reborn: bool, n: string)
    requires Linked(a) && Linked(b) && Anchored(a) && Evolves(a, b, touched, reborn)
    requires forall m :: m in b ==> Ordered(b[m].messages)
    requires n in b && !(reborn && touched == Some(n))
    ensures Inherited(b, b[n].fork) == Inherited(a, a[n].fork)
    ensures View(b, n) == View(a, n) + b[n].messages[|a[n].messages|..]
    decreases Height(b, n)
  {
    hide Select;
    assert Continues(a[n], b[n], touched == Some(n));
    assert b[n].messages == a[n].messages + b[n].messages[|a[n].messages|..];
    if b[n].fork.Some? {
      var f := b[n].fork.value;
      assert AnchorHolds(a, n) && Height(b, n) > Height(b, f.source);
      ViewContinues(a, b, touched, reborn, f.source);
      var late := b[f.source].messages[|a[f.source].messages|..];
      assert Continues(a[f.source], b[f.source], touched == Some(f.source));
      LateRecordsInvisible(View(a, f.source), late, a[f.source].Tail(), f.offset);
    }
  }

  lemma StampedOrdered(e: Entry)
    requires WellStamped(e)
    ensures Ordered(e.messages)
  {
    var d := Data(e.messages);
    forall i | 0 <= i < |e.messages|
      ensures e.messages[i].offset.Concrete? && e.messages[i].offset.readSeq == BaseSeq(e) + i
    {
      StampAt(BaseSeq(e), BaseByte(e), d, i);
    }
  }

  lemma AllOrdered(s: Store, t: int)
    requires Inv(s, t)
    ensures forall n :: n in s.streams ==> Ordered(s.streams[n].messages)
  {
    forall n | n in s.streams ensures Ordered(s.streams[n].messages) { StampedOrdered(s.streams[n]); }
  }

  lemma StepContinues(s: Store, op: Op, t: int, now: int, f: string)
    requires Inv(s, t) && t <= now && Admissible(s, op, now)
    requires var o := Step(s, op, now);
      f in o.store.streams && !(Reborn(op, o) && Touched(op) == Some(f))
    ensures var b := Step(s, op, now).store.streams;
      && f in s.streams && b[f].fork == s.streams[f].fork
      && Linked(s.streams) && Linked(b)
      && Inherited(b, b[f].fork) == Inherited(s.streams, s.streams[f].fork)
      && (Touched(op) != Some(f) ==> forall from :: ReadView(b, f, from) == ReadView(s.streams, f, from))
  {
    hide WellStamped, Step;
    StepKeeps(s, op, t, now);
    var o := Step(s, op, now);
    AllOrdered(o.store, now);
    ViewContinues(s.streams, o.store.streams, Touched(op), Reborn(op, o), f);
  }

  // ---------------------------------------------------------------- whole runs

  /** `f` is stored throughout the run and no event puts a new entry at its path. */
  ghost predicate Undisturbed(s: Store, events: seq<Event>, f: string)
    decreases |events|
  {
    && f in s.streams
    && (events == [] ||
        var o := Step(s, events[0].op, events[0].now);
        && !(Reborn(events[0].op, o) && Touched(events[0].op) == Some(f))
        && Undisturbed(o.store, events[1..], f))
  }

  lemma {:induction false} InheritanceIsStable(s: Store, t: int, events: seq<Event>, f: string)
    requires Inv(s, t) && Timely(s, t, events) && Undisturbed(s, events, f)
    ensures var s' := Run(s, events);
      && Linked(s.streams) && Linked(s'.streams) && f in s'.streams
      && s'.streams[f].fork == s.streams[f].fork
      && Inherited(s'.streams, s'.streams[f].fork) == Inherited(s.streams, s.streams[f].fork)
    decreases |events|
  {
    hide WellStamped, Step;
    if events != [] {
      var e := events[0];
      StepKeeps(s, e.op, t, e.now);
      StepContinues(s, e.op, t, e.now, f);
      InheritanceIsStable(Step(s, e.op, e.now).store, e.now, events[1..], f);
    }
  }

  /** No run of operations on other streams changes what any read of `f` returns. */
  lemma {:induction false} ReadsAreStable(s: Store, t: int, events: seq<Event>, f: string, from: Offset)
    requires Inv(s, t) && Timely(s, t, events) && Undisturbed(s, events, f)
    requires forall i :: 0 <= i < |events| ==> Touched(events[i].op) != Some(f)
    ensures f in Run(s, events).streams
    ensures ReadView(Run(s, events).streams, f, from) == ReadView(s.streams, f, from)
    decreases |events|
  {
    hide WellStamped, Step, ReadView;
    if events != [] {
      var e := events[0];
      StepKeeps(s, e.op, t, e.now);
      StepContinues(s, e.op, t, e.now, f);
      ReadsAreStable(Step(s, e.op, e.now).store, e.now, events[1..], f, from);
    }
  }

  // ---------------------------------------------------------------- the two-phase read

  datatype PendingRead = Complete(result: ReadResult) | Forked(info: Fork, local: ReadResult)

  /** What is captured while the stream is locked. */
  function PrepareRead(e: Entry, from: Offset): (p: PendingRead) {
    var local := ReadResult(Data(Select(e.messages, from, None)), e.Tail(), true, e.closed);
    if from.Now? then Complete(local.(messages := []))
    else if e.fork.None? then Complete(local)
    else Forked(e.fork.value, local)
  }

  /** What is added after the lock is released, from whatever the catalog then holds. */
  ghost function FinishRead(c: Catalog, from: Offset, p: PendingRead): (r: ReadResult)
    requires Linked(c)
  {
    match p
    case Complete(r) => r
    case Forked(info, local) =>
      if from.Start? || Less(from, info.offset) then
        var inherited := PlanRead(c, Capped(Plan(c, info.source, None), info.offset), from);
        local.(messages := Data(inherited) + local.messages)
      else local
  }

  /** At or past the fork point a read needs nothing from the source. */
  lemma NothingInheritedAfterCut(c: Catalog, f: Fork, from: Offset)
    requires Linked(c) && !from.Start? && !Less(from, f.offset)
    requires forall n :: n in c ==> Ordered(c[n].messages)
    ensures Select(Inherited(c, Some(f)), from, None) == []
  {
    var ms := View(c, f.source);
    SelectTwice(ms, f.offset, from, None);
    ViewConcrete(c, f.source);
    SelectNone(ms, from, MinBound(None, f.offset));
  }

  lemma {:induction false} ViewConcrete(c: Catalog, n: string)
    requires Linked(c)
    requires forall m :: m in c ==> Ordered(c[m].messages)
    ensures forall i :: 0 <= i < |View(c, n)| ==> View(c, n)[i].offset.Concrete?
    decreases Height(c, n)
  {
    if n in c && c[n].fork.Some? {
      var f := c[n].fork.value;
      assert Height(c, n) > Height(c, f.source);
      ViewConcrete(c, f.source);
      SelectMembers(View(c, f.source), Start, Some(f.offset));
      forall i | 0 <= i < |Inherited(c, c[n].fork)|
        ensures Inherited(c, c[n].fork)[i].offset.Concrete?
      {
        assert Inherited(c, c[n].fork)[i] in View(c, f.source);
      }
    }
  }

  lemma DataConcat(a: seq<Message>, b: seq<Message>)
    ensures Data(a + b) == Data(a) + Data(b)
  {
  }

  /** Finishing a captured read against any catalog with the same inheritance gives the captured view. */
  lemma FinishMatchesView(c: Catalog, c': Catalog, n: string, from: Offset)
    requires Linked(c) && Linked(c') && n in c
    requires forall m :: m in c ==> Ordered(c[m].messages)
    requires Inherited(c', c[n].fork) == Inherited(c, c[n].fork)
    ensures FinishRead(c', from, PrepareRead(c[n], from)) == ReadView(c, n, from)
  {
    hide Select, Capped, PlanRead, Plan;
    var e := c[n];
    if e.fork.None? {
      assert View(c, n) == e.messages;
    } else if !from.Now? {
      var f := e.fork.value;
      SelectConcat(Inherited(c, e.fork), e.messages, from, None);
      DataConcat(Select(Inherited(c, e.fork), from, None), Select(e.messages, from, None));
      if from.Start? || Less(from, f.offset) {
        CappedPlan(c', f.source, None, f.offset);
        PlanReadsView(c', f.source, from, Some(f.offset));
        SelectTwice(View(c', f.source), f.offset, from, None);
      } else {
        NothingInheritedAfterCut(c, f, from);
      }
    }
  }

  /**
   The two-phase read is atomic at its capture point: whatever runs between the two
   phases, appends to and closes of the fork itself included, the reply is the view
   of the fork when it was captured.
   */
  lemma TwoPhaseReadIsAtomic(s: Store, t: int, events: seq<Event>, f: string, from: Offset)
    requires Inv(s, t) && Timely(s, t, events) && Undisturbed(s, events, f)
    ensures Linked(Run(s, events).streams)
    ensures FinishRead(Run(s, events).streams, from, PrepareRead(s.streams[f], from)) == ReadView(s.streams, f, from)
  {
    hide WellStamped, Step;
    InheritanceIsStable(s, t, events, f);
    AllOrdered(s, t);
    FinishMatchesView(s.streams, Run(s, events).streams, f, from);
  }
}
