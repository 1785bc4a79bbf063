/** Acknowledged offsets, what a finished wake acknowledges, and who is woken next. */
module Cursors {
  import opened Wrappers
  import opened Subscriptions
  import opened Fencing
  import OffsetCodec
  import Lex

  // ---------------------------------------------------------------- cursors stay within the tails

  predicate Within(tails: Tails, p: string, offset: string) {
    if p in tails then Lex.AtMost(offset, tails[p]) else offset == OffsetCodec.ZERO
  }

  predicate CanonicalTails(tails: Tails) {
    forall p :: p in tails ==> OffsetCodec.Canonical(tails[p])
  }

  /** Streams may appear and grow, never shrink or vanish. */
  predicate Grows(a: Tails, b: Tails) {
    && CanonicalTails(b)
    && forall p :: p in a ==> p in b && Lex.AtMost(a[p], b[p])
  }

  predicate LinksWithin(links: map<string, Link>, tails: Tails) {
    forall p :: p in links ==> Within(tails, p, links[p].acked)
  }

  predicate SubWithin(sub: Subscription, tails: Tails) {
    && LinksWithin(sub.links, tails)
    && (sub.wake.Some? ==> forall p :: p in sub.wake.value.streams ==> Within(tails, p, sub.wake.value.streams[p].tail))
  }

  ghost predicate DbWithin(db: Database, tails: Tails) {
    forall id :: id in db ==> SubWithin(db[id], tails)
  }

  lemma WithinGrows(a: Tails, b: Tails, p: string, offset: string)
    requires Within(a, p, offset) && Grows(a, b)
    ensures Within(b, p, offset)
  {
    if p in a {
      Lex.AtMostIsTransitive(offset, a[p], b[p]);
    } else if p in b {
      OffsetCodec.ZeroIsLeast(b[p]);
    }
  }

  lemma DbWithinGrows(db: Database, a: Tails, b: Tails)
    requires DbWithin(db, a) && Grows(a, b)
    ensures DbWithin(db, b)
  {
    forall p, o | Within(a, p, o) ensures Within(b, p, o) { WithinGrows(a, b, p, o); }
  }

  lemma ZeroIsWithin(tails: Tails, p: string)
    requires CanonicalTails(tails)
    ensures Within(tails, p, OffsetCodec.ZERO)
  {
    if p in tails {
      OffsetCodec.ZeroIsLeast(tails[p]);
    }
  }

  lemma MaxWithin(tails: Tails, p: string, x: string, y: string)
    requires Within(tails, p, x) && Within(tails, p, y)
    ensures Within(tails, p, Lex.Max(x, y))
  {
    Lex.MaxBounds(x, y);
  }

  lemma RefreshWithin(sub: Subscription, tails: Tails, now: int)
    requires SubWithin(sub, tails) && CanonicalTails(tails)
    ensures SubWithin(RefreshSub(sub, tails, now), tails)
  {
    hide Subscriptions.Matches;
    forall p ensures Within(tails, p, OffsetCodec.ZERO) { ZeroIsWithin(tails, p); }
  }

  lemma SnapshotsWithin(sub: Subscription, tails: Tails)
    requires LinksWithin(sub.links, tails)
    ensures forall p :: p in Snapshots(sub, tails) ==> Within(tails, p, Snapshots(sub, tails)[p].tail)
  {
  }

  lemma IssueWithin(sub: Subscription, id: string, wakeId: string, tails: Tails, now: int)
    requires SubWithin(sub, tails) && IssueWake(sub, id, wakeId, tails, now).Ok?
    ensures SubWithin(IssueWake(sub, id, wakeId, tails, now).value, tails)
  {
    SnapshotsWithin(sub, tails);
  }

  lemma {:induction false} AcksWithin(links: map<string, Link>, acks: seq<Ack>, tails: Tails)
    requires LinksWithin(links, tails)
    requires forall i :: 0 <= i < |acks| ==> acks[i].stream in tails && Lex.AtMost(acks[i].offset, tails[acks[i].stream])
    ensures LinksWithin(ApplyAcks(links, acks), tails)
    decreases |acks|
  {
    if acks != [] {
      var a := acks[0];
      if a.stream in links {
        MaxWithin(tails, a.stream, links[a.stream].acked, a.offset);
        AcksWithin(links[a.stream := links[a.stream].(acked := Lex.Max(links[a.stream].acked, a.offset))], acks[1..], tails);
      } else {
        AcksWithin(links, acks[1..], tails);
      }
    }
  }

  lemma CompleteWithin(sub: Subscription, id: string, c: Completion, action: Action, tails: Tails, now: int)
    requires SubWithin(sub, tails) && Complete(sub, id, c, action, tails, now).Ok?
    ensures SubWithin(Complete(sub, id, c, action, tails, now).value, tails)
  {
    forall i | 0 <= i < |c.acks|
      ensures c.acks[i].stream in tails && Lex.AtMost(c.acks[i].offset, tails[c.acks[i].stream])
    {
      assert ValidAck(sub.links, c.acks[i], tails);
      Lex.LessIsTotal(tails[c.acks[i].stream], c.acks[i].offset);
    }
    AcksWithin(sub.links, c.acks, tails);
  }

  lemma ClaimWithin(sub: Subscription, id: string, worker: string, wakeId: string, tails: Tails, now: int)
    requires SubWithin(sub, tails) && Claim(sub, id, worker, wakeId, tails, now).Ok?
    ensures SubWithin(Claim(sub, id, worker, wakeId, tails, now).value, tails)
  {
    hide IssueWake, Pending, Blank;
    if sub.wake.None? { IssueWithin(sub, id, wakeId, tails, now); }
  }

  lemma AddWithin(sub: Subscription, paths: set<string>, tails: Tails)
    requires SubWithin(sub, tails) && AddLinks(sub, paths, tails).Ok?
    ensures SubWithin(AddLinks(sub, paths, tails).value, tails)
  {
    hide ValidPath;
  }

  lemma HandleWithin(sub: Subscription, id: string, req: Request, tails: Tails, now: int)
    requires SubWithin(sub, tails) && CanonicalTails(tails) && Handle(sub, id, req, tails, now).Ok?
    ensures SubWithin(Handle(sub, id, req, tails, now).value, tails)
  {
    hide Complete, Claim, Subscriptions.Matches, ValidPath, AddLinks;
    match req
    case Delete =>
    case AddStreams(paths) => AddWithin(sub, paths, tails);
    case RemoveStream(path) =>
    case ClaimWake(worker, wakeId) =>
      if sub.config.kind.PullWake? { ClaimWithin(sub, id, worker, wakeId, tails, now); }
    case CompleteWake(action, c) => CompleteWithin(sub, id, c, action, tails, now);
    case Inspect =>
    case Create(_, _) =>
  }

  lemma RefreshDbWithin(db: Database, tails: Tails, now: int)
    requires DbWithin(db, tails) && CanonicalTails(tails)
    ensures DbWithin(Refresh(db, tails, now), tails)
  {
    hide RefreshSub, SubWithin;
    forall id | id in db ensures SubWithin(RefreshSub(db[id], tails, now), tails) { RefreshWithin(db[id], tails, now); }
  }

  lemma ControlWithin(db: Database, id: string, req: Request, tails: Tails, now: int)
    requires DbWithin(db, tails) && CanonicalTails(tails) && Control(db, id, req, tails, now).Ok?
    ensures DbWithin(Control(db, id, req, tails, now).value, tails)
  {
    hide Handle, RefreshSub, ConfigError, Subscriptions.Matches;
    RefreshDbWithin(db, tails, now);
    var r := Refresh(db, tails, now);
    if !req.Create? {
      HandleWithin(r[id], id, req, tails, now);
    }
  }

  lemma TickOneWithin(ts: TickState, id: string, wakeId: string, active: set<Key>, tails: Tails, now: int)
    requires DbWithin(ts.db, tails) && TickOne(ts, id, wakeId, active, tails, now).Ok?
    ensures DbWithin(TickOne(ts, id, wakeId, active, tails, now).value.db, tails)
  {
    hide IssueWake, Pending;
    if id in ts.db && IssueWake(ts.db[id], id, wakeId, tails, now).Ok? {
      IssueWithin(ts.db[id], id, wakeId, tails, now);
    }
  }

  lemma {:induction false} TickAllWithin(
    ts: TickState, order: seq<(string, string)>, active: set<Key>, tails: Tails, now: int)
    requires DbWithin(ts.db, tails) && TickAll(ts, order, active, tails, now).Ok?
    ensures DbWithin(TickAll(ts, order, active, tails, now).value.db, tails)
    decreases |order|
  {
    hide TickOne, DbWithin;
    if order != [] {
      TickOneWithin(ts, order[0].0, order[0].1, active, tails, now);
      TickAllWithin(TickOne(ts, order[0].0, order[0].1, active, tails, now).value, order[1..], active, tails, now);
    }
  }

  lemma FinishWithin(db: Database, id: string, g: nat, result: Option<bool>, jitter: int, now: int, tails: Tails)
    requires DbWithin(db, tails)
    ensures DbWithin(Finish(db, id, g, result, jitter, now), tails)
  {
    hide RetryDelay;
    if StillCurrent(db, id, g, now) {
      var sub := db[id];
      forall p | p in sub.links && p in sub.wake.value.streams
        ensures Within(tails, p, Lex.Max(sub.links[p].acked, sub.wake.value.streams[p].tail))
      {
        MaxWithin(tails, p, sub.links[p].acked, sub.wake.value.streams[p].tail);
      }
    }
  }

  /** The stream tails an event observes; events that look at none keep the last ones. */
  function Observed(e: Event, last: Tails): (t: Tails) {
    if e.ControlEvent? || e.TickEvent? then e.tails else last
  }

  lemma ProposalWithin(s: Sys, e: Event, tails: Tails)
    requires DbWithin(s.mem, tails) && CanonicalTails(tails) && Observed(e, tails) == tails
    requires !e.Restart? && Proposal(s, e).Ok?
    ensures DbWithin(Proposal(s, e).value, tails)
  {
    hide Control, TickAll, Finish, DbWithin, Mark;
    match e
    case ControlEvent(id, req, _, now, _) => ControlWithin(s.mem, id, req, tails, now);
    case TickEvent(order, active, _, now, _) =>
      RefreshDbWithin(s.mem, tails, now);
      TickAllWithin(TickState(Refresh(s.mem, tails, now), {}, {}), order, active, tails, now);
    case MarkEvent(pull, now, _) => MarkWithin(s.mem, pull, now, tails);
    case FinishEvent(id, g, result, jitter, now, _) => FinishWithin(s.mem, id, g, result, jitter, now, tails);
  }

  lemma MarkWithin(db: Database, pull: map<string, (nat, bool)>, now: int, tails: Tails)
    requires DbWithin(db, tails)
    ensures DbWithin(MarkAll(db, pull, now), tails)
  {
  }

  ghost predicate TailsGrow(events: seq<Event>, last: Tails)
    decreases |events|
  {
    events == [] || (Grows(last, Observed(events[0], last)) && TailsGrow(events[1..], Observed(events[0], last)))
  }

  function LastTails(events: seq<Event>, last: Tails): (t: Tails)
    decreases |events|
  {
    if events == [] then last else LastTails(events[1..], Observed(events[0], last))
  }

  /** While tails only grow, no cursor in memory or on disk ever passes its stream's tail. */
  lemma {:induction false} CursorsStayWithin(s: Sys, events: seq<Event>, tails: Tails)
    requires DbWithin(s.mem, tails) && DbWithin(s.disk, tails) && TailsGrow(events, tails)
    ensures DbWithin(Run(s, events).mem, LastTails(events, tails))
    ensures DbWithin(Run(s, events).disk, LastTails(events, tails))
    decreases |events|
  {
    hide DbWithin, Proposal;
    if events != [] {
      var e := events[0];
      var now := Observed(e, tails);
      DbWithinGrows(s.mem, tails, now);
      DbWithinGrows(s.disk, tails, now);
      if !e.Restart? && Proposal(s, e).Ok? {
        ProposalWithin(s, e, now);
      }
      CursorsStayWithin(Step(s, e), events[1..], now);
    }
  }

  // ---------------------------------------------------------------- a batch of acknowledgements

  /** An accepted batch moves each cursor to the greatest of itself and its acknowledgements. */
  lemma {:induction false} BatchApplies(links: map<string, Link>, acks: seq<Ack>, p: string)
    requires p in links
    ensures var l := ApplyAcks(links, acks);
      && p in l && l[p].explicit == links[p].explicit
      && Lex.AtMost(links[p].acked, l[p].acked)
      && (forall i :: 0 <= i < |acks| && acks[i].stream == p ==> Lex.AtMost(acks[i].offset, l[p].acked))
      && (l[p].acked == links[p].acked || exists i :: 0 <= i < |acks| && acks[i] == Ack(p, l[p].acked))
    decreases |acks|
  {
    if acks != [] {
      var a := acks[0];
      var next := if a.stream in links
                  then links[a.stream := links[a.stream].(acked := Lex.Max(links[a.stream].acked, a.offset))]
                  else links;
      BatchApplies(next, acks[1..], p);
      var l := ApplyAcks(links, acks);
      if a.stream == p {
        Lex.MaxBounds(links[p].acked, a.offset);
        Lex.AtMostIsTransitive(links[p].acked, next[p].acked, l[p].acked);
        Lex.AtMostIsTransitive(a.offset, next[p].acked, l[p].acked);
      }
      if l[p].acked != links[p].acked {
        if l[p].acked == next[p].acked {
          assert acks[0] == Ack(p, l[p].acked);
        } else {
          var i :| 0 <= i < |acks[1..]| && acks[1..][i] == Ack(p, l[p].acked);
          assert acks[i + 1] == Ack(p, l[p].acked);
        }
      }
    }
  }

  /**
   Callback or acknowledgement: a refused request changes neither memory nor disk. An
   accepted one had every acknowledgement valid, and moves each cursor to the greatest
   of itself and its acknowledgements.
   */
  lemma BatchIsAllOrNothing(s: Sys, e: Event)
    requires e.ControlEvent? && e.req.CompleteWake? && !e.req.action.Release?
    ensures Proposal(s, e).Err? ==> Step(s, e) == s
    ensures Proposal(s, e).Ok? ==>
      && e.id in s.mem
      && var acks, before := e.req.completion.acks, RefreshSub(s.mem[e.id], e.tails, e.now).links;
      var after := Proposal(s, e).value[e.id].links;
      && after.Keys == before.Keys
      && (forall i :: 0 <= i < |acks| ==> ValidAck(before, acks[i], e.tails)
                                          && Lex.AtMost(acks[i].offset, after[acks[i].stream].acked))
      && (forall p :: p in before ==>
            && Lex.AtMost(before[p].acked, after[p].acked)
            && (after[p].acked == before[p].acked || exists i :: 0 <= i < |acks| && acks[i] == Ack(p, after[p].acked)))
  {
    hide RefreshSub, ValidAck, ApplyAcks;
    if Proposal(s, e).Ok? {
      var acks, before := e.req.completion.acks, RefreshSub(s.mem[e.id], e.tails, e.now).links;
      var after := Proposal(s, e).value[e.id].links;
      assert after == ApplyAcks(before, acks);
      AcksAdvance(before, acks);
      forall p | p in before
        ensures Lex.AtMost(before[p].acked, after[p].acked)
        ensures after[p].acked == before[p].acked || exists i :: 0 <= i < |acks| && acks[i] == Ack(p, after[p].acked)
        ensures forall i :: 0 <= i < |acks| && acks[i].stream == p ==> Lex.AtMost(acks[i].offset, after[p].acked)
      {
        BatchApplies(before, acks, p);
      }
      forall i | 0 <= i < |acks| ensures acks[i].stream in before {
        ValidAckIsLinked(before, acks[i], e.tails);
      }
    }
  }

  lemma ValidAckIsLinked(links: map<string, Link>, ack: Ack, tails: Tails)
    ensures ValidAck(links, ack, tails) ==> ack.stream in links
  {
  }

  // ---------------------------------------------------------------- what a finished delivery leaves pending

  /** The delivery answered `done`: only the snapshot is acknowledged, so later records stay pending. */
  lemma DoneLeavesLaterRecordsPending(
    db: Database, id: string, g: nat, jitter: int, now: int, p: string, tails: Tails)
    requires StillCurrent(db, id, g, now) && p in db[id].links && p in tails
    requires Lex.Less(db[id].links[p].acked, tails[p])
    requires p in db[id].wake.value.streams ==> Lex.Less(db[id].wake.value.streams[p].tail, tails[p])
    ensures var sub := Finish(db, id, g, Some(true), jitter, now)[id];
      && sub.wake.None? && !sub.deleted && Pending(sub, tails) && sub.generation == db[id].generation
      && (forall q :: q in sub.links ==>
            sub.links[q].acked == db[id].links[q].acked
            || (q in db[id].wake.value.streams && sub.links[q].acked == db[id].wake.value.streams[q].tail))
  {
    var sub := Finish(db, id, g, Some(true), jitter, now)[id];
    assert p in sub.links && SnapshotOf(sub.links[p], tails, p).hasPending;
  }

  /** Everything visited by the tick that has pending work has a wake. */
  predicate Covered(sub: Subscription, tails: Tails) {
    !sub.deleted && Pending(sub, tails) ==> sub.wake.Some?
  }

  lemma TickOneCovers(ts: TickState, id: string, wakeId: string, active: set<Key>, tails: Tails, now: int)
    requires TickOne(ts, id, wakeId, active, tails, now).Ok?
    ensures var ts' := TickOne(ts, id, wakeId, active, tails, now).value;
      && ts'.db.Keys == ts.db.Keys
      && (id in ts.db ==> Covered(ts'.db[id], tails))
      && (forall i :: i in ts.db && i != id ==> ts'.db[i] == ts.db[i])
  {
    hide Snapshots, Pending, SnapshotOf;
  }

  lemma {:induction false} TickAllCovers(
    ts: TickState, order: seq<(string, string)>, active: set<Key>, tails: Tails, now: int, id: string)
    requires TickAll(ts, order, active, tails, now).Ok? && id in ts.db
    requires (exists i :: 0 <= i < |order| && order[i].0 == id) || Covered(ts.db[id], tails)
    ensures id in TickAll(ts, order, active, tails, now).value.db
    ensures Covered(TickAll(ts, order, active, tails, now).value.db[id], tails)
    decreases |order|
  {
    hide TickOne, Covered;
    if order != [] {
      TickOneCovers(ts, order[0].0, order[0].1, active, tails, now);
      assert order[0].0 != id && !Covered(ts.db[id], tails) ==>
        exists i :: 0 <= i < |order[1..]| && order[1..][i].0 == id by {
        if order[0].0 != id && !Covered(ts.db[id], tails) {
          var i :| 0 <= i < |order| && order[i].0 == id;
          assert order[1..][i - 1].0 == id;
        }
      }
      TickAllCovers(TickOne(ts, order[0].0, order[0].1, active, tails, now).value, order[1..], active, tails, now, id);
    }
  }

  /** After a successful tick every live subscription with pending work has a wake. */
  lemma TickWakesEveryone(
    db: Database, order: seq<(string, string)>, active: set<Key>, tails: Tails, now: int, id: string)
    requires Tick(db, order, active, tails, now).Ok? && id in db
    requires exists i :: 0 <= i < |order| && order[i].0 == id
    ensures id in Tick(db, order, active, tails, now).value.db
    ensures Covered(Tick(db, order, active, tails, now).value.db[id], tails)
  {
    hide TickAll, Covered;
    TickAllCovers(TickState(Refresh(db, tails, now), {}, {}), order, active, tails, now, id);
  }

  lemma RefreshKeepsPending(sub: Subscription, tails: Tails, now: int)
    requires !sub.deleted && sub.wake.None? && Pending(sub, tails)
    ensures var r := RefreshSub(sub, tails, now);
      !r.deleted && r.wake.None? && r.generation == sub.generation && Pending(r, tails)
  {
    hide Subscriptions.Matches;
    var p :| p in sub.links && SnapshotOf(sub.links[p], tails, p).hasPending;
    var r := RefreshSub(sub, tails, now);
    assert p in r.links && r.links[p] == sub.links[p];
  }

  lemma TickOneIssues(ts: TickState, id: string, wakeId: string, active: set<Key>, tails: Tails, now: int)
    requires TickOne(ts, id, wakeId, active, tails, now).Ok? && id in ts.db && !ts.db[id].deleted
    requires ts.db[id].wake.None? && Pending(ts.db[id], tails)
    ensures var s := TickOne(ts, id, wakeId, active, tails, now).value.db[id];
      s.wake.Some? && s.wake.value.generation == s.generation == ts.db[id].generation + 1
      && s.wake.value.id == wakeId && s.wake.value.streams == Snapshots(ts.db[id], tails)
  {
    hide Snapshots, Pending;
  }

  lemma {:induction false} TickAllIssues(
    ts: TickState, order: seq<(string, string)>, active: set<Key>, tails: Tails, now: int, k: nat)
    requires TickAll(ts, order, active, tails, now).Ok? && k < |order|
    requires forall i, j :: 0 <= i < j < |order| ==> order[i].0 != order[j].0
    requires var id := order[k].0;
      id in ts.db && !ts.db[id].deleted && ts.db[id].wake.None? && Pending(ts.db[id], tails)
    ensures var id := order[k].0; var db' := TickAll(ts, order, active, tails, now).value.db;
      && id in db' && db'[id].wake.Some?
      && db'[id].wake.value.generation == db'[id].generation == ts.db[id].generation + 1
      && db'[id].wake.value.streams == Snapshots(ts.db[id], tails)
    decreases |order|
  {
    hide TickOne, Pending, Snapshots;
    var one := TickOne(ts, order[0].0, order[0].1, active, tails, now).value;
    TickOneCovers(ts, order[0].0, order[0].1, active, tails, now);
    if k == 0 {
      TickOneIssues(ts, order[0].0, order[0].1, active, tails, now);
      TickAllLeaves(one, order[1..], active, tails, now, order[0].0);
    } else {
      assert order[1..][k - 1] == order[k];
      TickAllIssues(one, order[1..], active, tails, now, k - 1);
    }
  }

  lemma {:induction false} TickAllLeaves(
    ts: TickState, order: seq<(string, string)>, active: set<Key>, tails: Tails, now: int, id: string)
    requires TickAll(ts, order, active, tails, now).Ok? && id in ts.db
    requires forall i :: 0 <= i < |order| ==> order[i].0 != id
    ensures var db' := TickAll(ts, order, active, tails, now).value.db; id in db' && db'[id] == ts.db[id]
    decreases |order|
  {
    hide TickOne;
    if order != [] {
      TickOneCovers(ts, order[0].0, order[0].1, active, tails, now);
      TickAllLeaves(TickOne(ts, order[0].0, order[0].1, active, tails, now).value, order[1..], active, tails, now, id);
    }
  }

  /**
   A tick right after `done` issues the wake of the next generation, and its snapshot
   reports the stream with the record that was appended after the last one.
   */
  lemma NextTickReports(
    db: Database, id: string, g: nat, jitter: int, now: int, p: string,
    order: seq<(string, string)>, k: nat, active: set<Key>, tails: Tails, later: int)
    requires StillCurrent(db, id, g, now) && p in db[id].links && p in tails
    requires Lex.Less(db[id].links[p].acked, tails[p])
    requires p in db[id].wake.value.streams ==> Lex.Less(db[id].wake.value.streams[p].tail, tails[p])
    requires k < |order| && order[k].0 == id
    requires forall i, j :: 0 <= i < j < |order| ==> order[i].0 != order[j].0
    requires Tick(Finish(db, id, g, Some(true), jitter, now), order, active, tails, later).Ok?
    ensures var db' := Tick(Finish(db, id, g, Some(true), jitter, now), order, active, tails, later).value.db;
      && id in db' && db'[id].wake.Some? && db'[id].wake.value.generation == db[id].generation + 1
      && p in db'[id].wake.value.streams && db'[id].wake.value.streams[p].hasPending
      && db'[id].wake.value.streams[p].tail == tails[p]
  {
    var done := Finish(db, id, g, Some(true), jitter, now);
    DoneLeavesLaterRecordsPending(db, id, g, jitter, now, p, tails);
    DoneKeepsLink(db, id, g, jitter, now, p, tails);
    hide Finish, StillCurrent, TickAll, Pending;
    RefreshKeepsPending(done[id], tails, later);
    RefreshKeepsLink(done[id], tails, later, p);
    hide RefreshSub;
    TickAllIssues(TickState(Refresh(done, tails, later), {}, {}), order, active, tails, later, k);
  }

  lemma DoneKeepsLink(db: Database, id: string, g: nat, jitter: int, now: int, p: string, tails: Tails)
    requires StillCurrent(db, id, g, now) && p in db[id].links && p in tails
    requires Lex.Less(db[id].links[p].acked, tails[p])
    requires p in db[id].wake.value.streams ==> Lex.Less(db[id].wake.value.streams[p].tail, tails[p])
    ensures var sub := Finish(db, id, g, Some(true), jitter, now)[id];
      p in sub.links && Lex.Less(sub.links[p].acked, tails[p])
  {
  }

  lemma RefreshKeepsLink(sub: Subscription, tails: Tails, now: int, p: string)
    requires p in sub.links
    ensures p in RefreshSub(sub, tails, now).links && RefreshSub(sub, tails, now).links[p] == sub.links[p]
  {
    hide Subscriptions.Matches;
  }

  // ---------------------------------------------------------------- later records over whole runs

  /** The live subscription is linked to `p` and has not acknowledged up to `mark`. */
  predicate Lags(db: Database, id: string, p: string, mark: string) {
    id in db && !db[id].deleted && p in db[id].links && Lex.Less(db[id].links[p].acked, mark)
  }

  /** Every event of the run leaves it so: none unlinks, deletes or acknowledges that far. */
  predicate StaysBehind(s: Sys, events: seq<Event>, id: string, p: string, mark: string)
    decreases |events|
  {
    events == [] ||
    var s1 := Step(s, events[0]);
    Lags(s1.mem, id, p, mark) && StaysBehind(s1, events[1..], id, p, mark)
  }

  lemma {:induction false} BehindAtTheEnd(s: Sys, events: seq<Event>, id: string, p: string, mark: string)
    requires Lags(s.mem, id, p, mark) && StaysBehind(s, events, id, p, mark)
    ensures Lags(Run(s, events).mem, id, p, mark)
    decreases |events|
  {
    hide Step, Lags;
    if events != [] { BehindAtTheEnd(Step(s, events[0]), events[1..], id, p, mark); }
  }

  lemma TickOneKeepsLinks(ts: TickState, id: string, wakeId: string, active: set<Key>, tails: Tails, now: int, i: string)
    requires TickOne(ts, id, wakeId, active, tails, now).Ok? && i in ts.db
    ensures var ts' := TickOne(ts, id, wakeId, active, tails, now).value;
      i in ts'.db && ts'.db[i].links == ts.db[i].links && ts'.db[i].deleted == ts.db[i].deleted
  {
    hide Snapshots, Pending;
  }

  lemma {:induction false} TickAllKeepsLinks(
    ts: TickState, order: seq<(string, string)>, active: set<Key>, tails: Tails, now: int, i: string)
    requires TickAll(ts, order, active, tails, now).Ok? && i in ts.db
    ensures var db' := TickAll(ts, order, active, tails, now).value.db;
      i in db' && db'[i].links == ts.db[i].links && db'[i].deleted == ts.db[i].deleted
    decreases |order|
  {
    hide TickOne;
    if order != [] {
      TickOneKeepsLinks(ts, order[0].0, order[0].1, active, tails, now, i);
      TickAllKeepsLinks(TickOne(ts, order[0].0, order[0].1, active, tails, now).value, order[1..], active, tails, now, i);
    }
  }

  /** After a successful tick a subscription that lags behind a tail has a wake. */
  lemma TickWakesLaggard(
    db: Database, order: seq<(string, string)>, active: set<Key>, tails: Tails, now: int, id: string, p: string, mark: string)
    requires Tick(db, order, active, tails, now).Ok? && Lags(db, id, p, mark)
    requires p in tails && Lex.AtMost(mark, tails[p]) && exists i :: 0 <= i < |order| && order[i].0 == id
    ensures var db' := Tick(db, order, active, tails, now).value.db; id in db' && db'[id].wake.Some?
  {
    TickWakesEveryone(db, order, active, tails, now, id);
    RefreshKeepsLink(db[id], tails, now, p);
    RefreshKeepsDeleted(db[id], tails, now);
    hide RefreshSub, TickAll;
    TickAllKeepsLinks(TickState(Refresh(db, tails, now), {}, {}), order, active, tails, now, id);
    var sub := Tick(db, order, active, tails, now).value.db[id];
    if mark != tails[p] { Lex.LessIsTransitive(sub.links[p].acked, mark, tails[p]); }
    assert SnapshotOf(sub.links[p], tails, p).hasPending;
  }

  lemma RefreshKeepsDeleted(sub: Subscription, tails: Tails, now: int)
    ensures RefreshSub(sub, tails, now).deleted == sub.deleted
  {
    hide Subscriptions.Matches;
  }

  /** A saved `done` clears the wake in memory and on disk and leaves the later record unacknowledged. */
  lemma DoneClears(s: Sys, id: string, g: nat, jitter: int, now: int, p: string, mark: string)
    requires Inv(s) && StillCurrent(s.mem, id, g, now) && p in s.mem[id].links
    requires Lex.Less(s.mem[id].links[p].acked, mark)
    requires p in s.mem[id].wake.value.streams ==> Lex.Less(s.mem[id].wake.value.streams[p].tail, mark)
    ensures var s1 := Step(s, FinishEvent(id, g, Some(true), jitter, now, Saved));
      Past(s1.mem, id, g) && Past(s1.disk, id, g) && Lags(s1.mem, id, p, mark)
  {
    hide Proposes, Functional;
    assert WellFormed(s.mem[id]);
    var done := Finish(s.mem, id, g, Some(true), jitter, now);
    assert done[id].wake.None? && done != s.mem;
  }

  /**
   A record appended after the snapshot is never lost to `done`. Over any run between, with
   restarts and uncertain saves, that neither unlinks nor acknowledges it, the next saved
   tick leaves the subscription with a wake of a later generation.
   */
  lemma LaterRecordsAreWoken(
    s: Sys, id: string, g: nat, jitter: int, now: int, p: string, mark: string, events: seq<Event>, tick: Event)
    requires Inv(s) && StillCurrent(s.mem, id, g, now) && p in s.mem[id].links
    requires Lex.Less(s.mem[id].links[p].acked, mark)
    requires p in s.mem[id].wake.value.streams ==> Lex.Less(s.mem[id].wake.value.streams[p].tail, mark)
    requires forall i :: 0 <= i < |events| ==> OrderOk(events[i])
    requires var s1 := Step(s, FinishEvent(id, g, Some(true), jitter, now, Saved));
      StaysBehind(s1, events, id, p, mark)
    requires tick.TickEvent? && tick.outcome.Saved? && OrderOk(tick)
    requires p in tick.tails && Lex.AtMost(mark, tick.tails[p])
    requires exists i :: 0 <= i < |tick.order| && tick.order[i].0 == id
    requires var s1 := Step(s, FinishEvent(id, g, Some(true), jitter, now, Saved));
      Proposal(Run(s1, events), tick).Ok?
    ensures var s1 := Step(s, FinishEvent(id, g, Some(true), jitter, now, Saved));
      var s2 := Step(Run(s1, events), tick);
      id in s2.mem && s2.mem[id].wake.Some? && s2.mem[id].generation > g
  {
    var done := FinishEvent(id, g, Some(true), jitter, now, Saved);
    DoneClears(s, id, g, jitter, now, p, mark);
    StepKeeps(s, done);
    var s1 := Step(s, done);
    hide Inv, Past, Lags;
    BehindAtTheEnd(s1, events, id, p, mark);
    PastForever(s1, events, id, g);
    RunKeeps(s1, events);
    var s' := Run(s1, events);
    hide Run, StaysBehind;
    TickEnds(s', tick, id, g, p, mark);
  }

  lemma TickEnds(s: Sys, tick: Event, id: string, g: nat, p: string, mark: string)
    requires Inv(s) && Past(s.mem, id, g) && Lags(s.mem, id, p, mark)
    requires tick.TickEvent? && tick.outcome.Saved? && OrderOk(tick) && Proposal(s, tick).Ok?
    requires p in tick.tails && Lex.AtMost(mark, tick.tails[p])
    requires exists i :: 0 <= i < |tick.order| && tick.order[i].0 == id
    ensures var s2 := Step(s, tick); id in s2.mem && s2.mem[id].wake.Some? && s2.mem[id].generation > g
  {
    TickWakesLaggard(s.mem, tick.order, tick.active, tick.tails, tick.now, id, p, mark);
    ProposalProposes(s, tick);
    PastProposal(s.mem, Proposal(s, tick).value, id, g);
    hide Tick, Proposes, Functional, AllWellFormed;
  }

  // ---------------------------------------------------------------- a subscription never consumes its own wakes

  predicate NoSelfLink(sub: Subscription) {
    sub.config.wakeStream.Some? ==>
      sub.config.wakeStream.value !in sub.links && !Subscriptions.Matches(sub.config, sub.config.wakeStream.value)
  }

  ghost predicate NoSelfLinks(db: Database) {
    forall id :: id in db ==> NoSelfLink(db[id])
  }

  lemma {:induction false} AcksKeepKeys(links: map<string, Link>, acks: seq<Ack>)
    ensures ApplyAcks(links, acks).Keys == links.Keys
    decreases |acks|
  {
    AcksAdvance(links, acks);
  }

  lemma HandleKeepsNoSelf(sub: Subscription, id: string, req: Request, tails: Tails, now: int)
    requires NoSelfLink(sub) && Handle(sub, id, req, tails, now).Ok?
    ensures NoSelfLink(Handle(sub, id, req, tails, now).value)
  {
    hide Subscriptions.Matches, ValidPath, Pending, Snapshots, Passes, ValidAck, ApplyAcks, Blank;
    if req.CompleteWake? {
      AcksKeepKeys(sub.links, req.completion.acks);
    }
  }

  lemma RefreshKeepsNoSelf(db: Database, tails: Tails, now: int)
    requires NoSelfLinks(db)
    ensures NoSelfLinks(Refresh(db, tails, now))
  {
    hide Subscriptions.Matches;
  }

  lemma ControlKeepsNoSelf(db: Database, id: string, req: Request, tails: Tails, now: int)
    requires NoSelfLinks(db) && Control(db, id, req, tails, now).Ok?
    ensures NoSelfLinks(Control(db, id, req, tails, now).value)
  {
    hide Handle, RefreshSub, Subscriptions.Matches, ValidPath;
    RefreshKeepsNoSelf(db, tails, now);
    var r := Refresh(db, tails, now);
    if !req.Create? {
      HandleKeepsNoSelf(r[id], id, req, tails, now);
    }
  }

  lemma {:induction false} TickKeepsNoSelf(
    ts: TickState, order: seq<(string, string)>, active: set<Key>, tails: Tails, now: int)
    requires NoSelfLinks(ts.db) && TickAll(ts, order, active, tails, now).Ok?
    ensures NoSelfLinks(TickAll(ts, order, active, tails, now).value.db)
    decreases |order|
  {
    hide Subscriptions.Matches, Pending, Snapshots;
    if order != [] {
      TickKeepsNoSelf(TickOne(ts, order[0].0, order[0].1, active, tails, now).value, order[1..], active, tails, now);
    }
  }

  lemma ProposalKeepsNoSelf(s: Sys, e: Event)
    requires NoSelfLinks(s.mem) && !e.Restart? && Proposal(s, e).Ok?
    ensures NoSelfLinks(Proposal(s, e).value)
  {
    hide Control, TickAll, RefreshSub, Subscriptions.Matches, RetryDelay;
    match e
    case ControlEvent(id, req, tails, now, _) => ControlKeepsNoSelf(s.mem, id, req, tails, now);
    case TickEvent(order, active, tails, now, _) =>
      RefreshKeepsNoSelf(s.mem, tails, now);
      TickKeepsNoSelf(TickState(Refresh(s.mem, tails, now), {}, {}), order, active, tails, now);
    case MarkEvent(pull, now, _) =>
    case FinishEvent(id, g, result, jitter, now, _) =>
  }

  /** In every run no pull-wake subscription is ever linked to its own wake stream. */
  lemma {:induction false} NeverLinkedToOwnWakes(s: Sys, events: seq<Event>)
    requires NoSelfLinks(s.mem) && NoSelfLinks(s.disk)
    ensures NoSelfLinks(Run(s, events).mem) && NoSelfLinks(Run(s, events).disk)
    decreases |events|
  {
    hide NoSelfLinks, Proposal;
    if events != [] {
      var e := events[0];
      if !e.Restart? && Proposal(s, e).Ok? {
        ProposalKeepsNoSelf(s, e);
      }
      NeverLinkedToOwnWakes(Step(s, e), events[1..]);
    }
  }

  /** Hence publishing to its wake stream, whatever its tail becomes, never makes it pending. */
  lemma OwnWakesAreInvisible(sub: Subscription, tails: Tails, tail: string)
    requires NoSelfLink(sub) && sub.config.wakeStream.Some?
    ensures Pending(sub, tails[sub.config.wakeStream.value := tail]) == Pending(sub, tails)
  {
    var t := tails[sub.config.wakeStream.value := tail];
    forall p | p in sub.links ensures SnapshotOf(sub.links[p], t, p) == SnapshotOf(sub.links[p], tails, p) { }
    if Pending(sub, t) {
      var p :| p in sub.links && SnapshotOf(sub.links[p], t, p).hasPending;
      assert SnapshotOf(sub.links[p], tails, p).hasPending;
    }
  }
}
