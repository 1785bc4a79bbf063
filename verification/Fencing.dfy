/**
 Generation fencing over whole runs of the control service: requests, ticks,
 delivery results and restarts in any order, with any save lost, or persisted
 although it was reported as failed.
 */
module Fencing {
  import opened Wrappers
  import opened Subscriptions
  import Offsets
  import Lex

  // ---------------------------------------------------------------- how a transaction may change a subscription

  predicate WellFormed(sub: Subscription) {
    && (sub.wake.Some? ==> sub.wake.value.generation == sub.generation)
    && sub.generation < Offsets.U64
  }

  /** The wake stays, is claimed, is cleared, or is succeeded by one of the next generation. */
  predicate WakeEvolves(a: Subscription, b: Subscription) {
    if b.generation == a.generation then
      b.wake.Some? ==>
        && a.wake.Some? && b.wake.value.id == a.wake.value.id
        && (a.wake.value.holder.Some? ==> b.wake.value.holder.Some?)
    else
      b.generation == a.generation + 1 && b.wake.Some?
  }

  predicate CursorsAdvance(a: Subscription, b: Subscription) {
    forall p :: p in a.links && p in b.links ==> Lex.AtMost(a.links[p].acked, b.links[p].acked)
  }

  predicate Evolves(a: Subscription, b: Subscription) {
    && b.config == a.config && (a.deleted ==> b.deleted)
    && WellFormed(b) && WakeEvolves(a, b) && CursorsAdvance(a, b)
  }

  /** The next database a transaction may ask to save. */
  ghost predicate Proposes(a: Database, b: Database) {
    && (forall id :: id in a ==> id in b && Evolves(a[id], b[id]))
    && (forall id :: id in b && id !in a ==> WellFormed(b[id]) && b[id].generation == 0 && b[id].wake.None?)
  }

  ghost predicate AllWellFormed(db: Database) {
    forall id :: id in db ==> WellFormed(db[id])
  }

  // ---------------------------------------------------------------- every operation evolves its subscription

  lemma Unchanged(sub: Subscription)
    requires WellFormed(sub)
    ensures Evolves(sub, sub)
  {
  }

  lemma RefreshEvolves(sub: Subscription, tails: Tails, now: int)
    requires WellFormed(sub)
    ensures Evolves(sub, RefreshSub(sub, tails, now))
    ensures RefreshSub(sub, tails, now).generation == sub.generation
    ensures sub.links.Keys <= RefreshSub(sub, tails, now).links.Keys
  {
    hide Subscriptions.Matches;
    var r := RefreshSub(sub, tails, now);
    forall p | p in sub.links ensures p in r.links && r.links[p] == sub.links[p] { }
  }

  /** Reconciling first and acting second is one transaction. */
  lemma EvolvesThrough(a: Subscription, r: Subscription, b: Subscription)
    requires Evolves(a, r) && Evolves(r, b) && r.generation == a.generation && a.links.Keys <= r.links.Keys
    ensures Evolves(a, b) && WellFormed(b)
  {
    forall p | p in a.links && p in b.links ensures Lex.AtMost(a.links[p].acked, b.links[p].acked) {
      assert p in r.links;
      Lex.AtMostIsTransitive(a.links[p].acked, r.links[p].acked, b.links[p].acked);
    }
  }

  lemma {:induction false} AcksAdvance(links: map<string, Link>, acks: seq<Ack>)
    ensures ApplyAcks(links, acks).Keys == links.Keys
    ensures forall p :: p in links ==> Lex.AtMost(links[p].acked, ApplyAcks(links, acks)[p].acked)
    decreases |acks|
  {
    if acks != [] {
      var a := acks[0];
      var next := if a.stream in links
                  then links[a.stream := links[a.stream].(acked := Lex.Max(links[a.stream].acked, a.offset))]
                  else links;
      AcksAdvance(next, acks[1..]);
      forall p | p in links ensures Lex.AtMost(links[p].acked, ApplyAcks(links, acks)[p].acked) {
        if a.stream in links { Lex.MaxBounds(links[a.stream].acked, a.offset); }
        Lex.AtMostIsTransitive(links[p].acked, next[p].acked, ApplyAcks(links, acks)[p].acked);
      }
    }
  }

  lemma CompleteEvolves(sub: Subscription, id: string, c: Completion, action: Action, tails: Tails, now: int)
    requires WellFormed(sub) && Complete(sub, id, c, action, tails, now).Ok?
    ensures Evolves(sub, Complete(sub, id, c, action, tails, now).value)
  {
    hide ValidAck;
    AcksAdvance(sub.links, c.acks);
  }

  lemma ClaimEvolves(sub: Subscription, id: string, worker: string, wakeId: string, tails: Tails, now: int)
    requires WellFormed(sub) && Claim(sub, id, worker, wakeId, tails, now).Ok?
    ensures var b := Claim(sub, id, worker, wakeId, tails, now).value;
      && Evolves(sub, b) && b.wake.Some? && b.wake.value.holder.Some?
      && (sub.wake.Some? ==> sub.wake.value.holder.None? && b.generation == sub.generation)
      && (sub.wake.None? ==> b.generation == sub.generation + 1)
  {
    hide Snapshots, Pending, Blank;
  }

  lemma HandleEvolves(sub: Subscription, id: string, req: Request, tails: Tails, now: int)
    requires WellFormed(sub) && Handle(sub, id, req, tails, now).Ok?
    ensures Evolves(sub, Handle(sub, id, req, tails, now).value)
  {
    hide Complete, Claim, Subscriptions.Matches, ValidPath;
    match req
    case Delete =>
    case AddStreams(paths) =>
    case RemoveStream(path) =>
    case ClaimWake(worker, wakeId) => ClaimEvolves(sub, id, worker, wakeId, tails, now);
    case CompleteWake(action, c) => CompleteEvolves(sub, id, c, action, tails, now);
    case Inspect =>
    case Create(_, _) =>
  }

  lemma RefreshProposes(db: Database, tails: Tails, now: int)
    requires AllWellFormed(db)
    ensures Proposes(db, Refresh(db, tails, now)) && AllWellFormed(Refresh(db, tails, now))
    ensures forall id :: id in db ==>
      Refresh(db, tails, now)[id].generation == db[id].generation
      && db[id].links.Keys <= Refresh(db, tails, now)[id].links.Keys
  {
    hide RefreshSub;
    forall id | id in db
      ensures Evolves(db[id], RefreshSub(db[id], tails, now))
      ensures RefreshSub(db[id], tails, now).generation == db[id].generation
      ensures db[id].links.Keys <= RefreshSub(db[id], tails, now).links.Keys
    {
      RefreshEvolves(db[id], tails, now);
    }
  }

  /** After reconciliation, changing one subscription is still one proposal. */
  lemma ProposesThrough(db: Database, r: Database, id: string, b: Subscription)
    requires Proposes(db, r) && db.Keys == r.Keys && id in r && Evolves(r[id], b)
    requires forall i :: i in db ==> r[i].generation == db[i].generation && db[i].links.Keys <= r[i].links.Keys
    ensures Proposes(db, r[id := b])
  {
    hide WakeEvolves, CursorsAdvance;
    EvolvesThrough(db[id], r[id], b);
  }

  lemma ControlProposes(db: Database, id: string, req: Request, tails: Tails, now: int)
    requires AllWellFormed(db) && Control(db, id, req, tails, now).Ok?
    ensures Proposes(db, Control(db, id, req, tails, now).value)
    ensures AllWellFormed(Control(db, id, req, tails, now).value)
  {
    hide RefreshSub, Handle, WakeEvolves, CursorsAdvance, ConfigError, NewLinks;
    RefreshProposes(db, tails, now);
    var r := Refresh(db, tails, now);
    if !req.Create? {
      HandleEvolves(r[id], id, req, tails, now);
      ProposesThrough(db, r, id, Handle(r[id], id, req, tails, now).value);
    }
  }

  lemma TickOneEvolves(ts: TickState, id: string, wakeId: string, active: set<Key>, tails: Tails, now: int)
    requires id in ts.db && WellFormed(ts.db[id]) && TickOne(ts, id, wakeId, active, tails, now).Ok?
    ensures var ts' := TickOne(ts, id, wakeId, active, tails, now).value;
      && ts'.db == ts.db[id := ts'.db[id]] && Evolves(ts.db[id], ts'.db[id])
  {
    hide Snapshots, Pending;
    var sub := ts.db[id];
    Unchanged(sub);
  }

  /** Subscriptions not yet visited are as reconciliation left them. */
  lemma {:induction false} TickAllProposes(
    db: Database, r: Database, ts: TickState, order: seq<(string, string)>, active: set<Key>, tails: Tails, now: int)
    requires Proposes(db, ts.db) && AllWellFormed(ts.db) && db.Keys == r.Keys == ts.db.Keys
    requires Proposes(db, r)
    requires forall i :: i in db ==> r[i].generation == db[i].generation && db[i].links.Keys <= r[i].links.Keys
    requires forall i, j :: 0 <= i < j < |order| ==> order[i].0 != order[j].0
    requires forall i :: 0 <= i < |order| && order[i].0 in r ==> ts.db[order[i].0] == r[order[i].0]
    requires TickAll(ts, order, active, tails, now).Ok?
    ensures Proposes(db, TickAll(ts, order, active, tails, now).value.db)
    ensures AllWellFormed(TickAll(ts, order, active, tails, now).value.db)
    decreases |order|
  {
    hide Evolves, TickOne;
    if order != [] {
      var id := order[0].0;
      var one := TickOne(ts, id, order[0].1, active, tails, now).value;
      TickOneFrames(db, r, ts, id, order[0].1, active, tails, now);
      TickAllProposes(db, r, one, order[1..], active, tails, now);
    }
  }

  lemma TickOneFrames(
    db: Database, r: Database, ts: TickState, id: string, wakeId: string, active: set<Key>, tails: Tails, now: int)
    requires Proposes(db, ts.db) && AllWellFormed(ts.db) && db.Keys == r.Keys == ts.db.Keys && Proposes(db, r)
    requires forall i :: i in db ==> r[i].generation == db[i].generation && db[i].links.Keys <= r[i].links.Keys
    requires id in r ==> ts.db[id] == r[id]
    requires TickOne(ts, id, wakeId, active, tails, now).Ok?
    ensures var ts' := TickOne(ts, id, wakeId, active, tails, now).value;
      && Proposes(db, ts'.db) && AllWellFormed(ts'.db) && ts'.db.Keys == ts.db.Keys
      && (forall i :: i in ts.db && i != id ==> ts'.db[i] == ts.db[i])
  {
    if id in ts.db {
      TickOneEvolves(ts, id, wakeId, active, tails, now);
      hide TickOne, Evolves, WellFormed;
      assert Evolves(db[id], r[id]);
      var ts' := TickOne(ts, id, wakeId, active, tails, now).value;
      EvolvesThrough(db[id], r[id], ts'.db[id]);
      ProposesPut(db, ts.db, id, ts'.db[id]);
      hide Proposes, AllWellFormed;
    }
  }

  lemma ProposesPut(db: Database, d: Database, id: string, b: Subscription)
    requires Proposes(db, d) && AllWellFormed(d) && id in db && Evolves(db[id], b) && WellFormed(b)
    ensures Proposes(db, d[id := b]) && AllWellFormed(d[id := b])
  {
    hide Evolves, WellFormed;
  }

  lemma TickProposes(db: Database, order: seq<(string, string)>, active: set<Key>, tails: Tails, now: int)
    requires AllWellFormed(db) && Tick(db, order, active, tails, now).Ok?
    requires forall i, j :: 0 <= i < j < |order| ==> order[i].0 != order[j].0
    ensures Proposes(db, Tick(db, order, active, tails, now).value.db)
    ensures AllWellFormed(Tick(db, order, active, tails, now).value.db)
  {
    hide RefreshSub, Evolves, TickOne;
    RefreshProposes(db, tails, now);
    var r := Refresh(db, tails, now);
    TickAllProposes(db, r, TickState(r, {}, {}), order, active, tails, now);
  }

  lemma MarkProposes(db: Database, pull: map<string, (nat, bool)>, now: int)
    requires AllWellFormed(db)
    ensures Proposes(db, MarkAll(db, pull, now)) && AllWellFormed(MarkAll(db, pull, now))
  {
    hide Mark, Evolves, WellFormed;
    forall id | id in db
      ensures Evolves(db[id], MarkAll(db, pull, now)[id]) && WellFormed(MarkAll(db, pull, now)[id])
    {
      if id in pull { MarkEvolves(db[id], pull[id].0, pull[id].1, now); } else { Unchanged(db[id]); }
    }
  }

  lemma MarkEvolves(sub: Subscription, generation: nat, appended: bool, now: int)
    requires WellFormed(sub)
    ensures Evolves(sub, Mark(sub, generation, appended, now)) && WellFormed(Mark(sub, generation, appended, now))
  {
  }

  lemma FinishProposes(db: Database, id: string, generation: nat, result: Option<bool>, jitter: int, now: int)
    requires AllWellFormed(db)
    ensures Proposes(db, Finish(db, id, generation, result, jitter, now))
    ensures AllWellFormed(Finish(db, id, generation, result, jitter, now))
  {
    hide RetryDelay;
    if StillCurrent(db, id, generation, now) {
      var sub := db[id];
      var b := FinishSub(sub, result, jitter, now);
      forall p | p in sub.links && p in b.links ensures Lex.AtMost(sub.links[p].acked, b.links[p].acked) {
        if p in sub.wake.value.streams {
          Lex.MaxBounds(sub.links[p].acked, sub.wake.value.streams[p].tail);
        }
      }
      assert Evolves(sub, b);
    }
  }

  // ---------------------------------------------------------------- the service with its store

  /** A save succeeds, fails, or is persisted although it is reported as failed. */
  datatype SaveOutcome = Saved | Lost | Unacknowledged

  /** `history` holds every wake that was ever current in the serving process. */
  datatype Sys = Sys(
    mem: Database,
    disk: Database,
    history: set<(string, nat, string)>,
    claims: seq<(string, nat)>)

  datatype Event =
    | ControlEvent(id: string, req: Request, tails: Tails, now: int, outcome: SaveOutcome)
    | TickEvent(order: seq<(string, string)>, active: set<Key>, tails: Tails, now: int, outcome: SaveOutcome)
    | MarkEvent(pull: map<string, (nat, bool)>, now: int, outcome: SaveOutcome)
    | FinishEvent(id: string, generation: nat, result: Option<bool>, jitter: int, now: int, outcome: SaveOutcome)
    | Restart

  predicate OrderOk(e: Event) {
    e.TickEvent? ==> forall i, j :: 0 <= i < j < |e.order| ==> e.order[i].0 != e.order[j].0
  }

  function WakesOf(db: Database): (w: set<(string, nat, string)>) {
    set id | id in db && db[id].wake.Some? :: (id, db[id].generation, db[id].wake.value.id)
  }

  /** Save before expose; an unchanged database is not written. */
  function Save(s: Sys, next: Database, outcome: SaveOutcome): (s': Sys) {
    if next == s.mem then s
    else match outcome
      case Saved => s.(mem := next, disk := next, history := s.history + WakesOf(next))
      case Lost => s
      case Unacknowledged => s.(disk := next)
  }

  /** The database the event asks to save. */
  function Proposal(s: Sys, e: Event): (r: Result<Database, ApiError>) {
    match e
    case ControlEvent(id, req, tails, now, _) => Control(s.mem, id, req, tails, now)
    case TickEvent(order, active, tails, now, _) =>
      var t := Tick(s.mem, order, active, tails, now);
      if t.Err? then Err(t.error) else Ok(t.value.db)
    case MarkEvent(pull, now, _) => Ok(MarkAll(s.mem, pull, now))
    case FinishEvent(id, g, result, jitter, now, _) => Ok(Finish(s.mem, id, g, result, jitter, now))
    case Restart => Ok(s.mem)
  }

  /** A claim whose save succeeded. */
  predicate Claimed(s: Sys, e: Event) {
    && e.ControlEvent? && e.req.ClaimWake? && e.outcome.Saved?
    && Proposal(s, e).Ok? && e.id in Proposal(s, e).value
  }

  function Step(s: Sys, e: Event): (s': Sys) {
    if e.Restart? then s.(mem := s.disk, history := s.history + WakesOf(s.disk))
    else
      var next := Proposal(s, e);
      if next.Err? then s
      else
        var s1 := Save(s, next.value, e.outcome);
        if Claimed(s, e) then s1.(claims := s.claims + [(e.id, next.value[e.id].generation)]) else s1
  }

  // ---------------------------------------------------------------- the invariant

  /** The database is past generation `g`, or at it with that very wake or none. */
  predicate Covers(db: Database, w: (string, nat, string)) {
    && w.0 in db && db[w.0].generation >= w.1
    && (db[w.0].generation == w.1 && db[w.0].wake.Some? ==> db[w.0].wake.value.id == w.2)
  }

  /** Past the claimed generation, or at it with the claim still held or the wake gone. */
  predicate Holds(db: Database, c: (string, nat)) {
    && c.0 in db && db[c.0].generation >= c.1
    && (db[c.0].generation == c.1 && db[c.0].wake.Some? ==> db[c.0].wake.value.holder.Some?)
  }

  ghost predicate Functional(h: set<(string, nat, string)>) {
    forall v, w :: v in h && w in h && v.0 == w.0 && v.1 == w.1 ==> v.2 == w.2
  }

  predicate Increasing(claims: seq<(string, nat)>) {
    forall i, j :: 0 <= i < j < |claims| && claims[i].0 == claims[j].0 ==> claims[i].1 < claims[j].1
  }

  ghost predicate Inv(s: Sys) {
    && AllWellFormed(s.mem) && AllWellFormed(s.disk)
    && (s.disk == s.mem || Proposes(s.mem, s.disk))
    && (forall w :: w in s.history ==> Covers(s.mem, w) && Covers(s.disk, w))
    && WakesOf(s.mem) <= s.history
    && Functional(s.history)
    && (forall c :: c in s.claims ==> Holds(s.mem, c) && Holds(s.disk, c))
    && Increasing(s.claims)
  }

  lemma CoversProposal(a: Database, b: Database, w: (string, nat, string))
    requires AllWellFormed(a) && Proposes(a, b) && Covers(a, w)
    ensures Covers(b, w)
  {
    assert Evolves(a[w.0], b[w.0]);
  }

  lemma HoldsProposal(a: Database, b: Database, c: (string, nat))
    requires Proposes(a, b) && Holds(a, c)
    ensures Holds(b, c)
  {
    assert Evolves(a[c.0], b[c.0]);
  }

  /** Two wakes of one generation are one wake, across a saved proposal. */
  lemma HistoryStaysFunctional(s: Sys, next: Database)
    requires Inv(s) && Proposes(s.mem, next)
    ensures Functional(s.history + WakesOf(next))
  {
    forall v, w | v in s.history + WakesOf(next) && w in s.history + WakesOf(next) && v.0 == w.0 && v.1 == w.1
      ensures v.2 == w.2
    {
      if v in s.history && w !in s.history { CoversProposal(s.mem, next, v); }
      if w in s.history && v !in s.history { CoversProposal(s.mem, next, w); }
    }
  }

  lemma ProposalProposes(s: Sys, e: Event)
    requires AllWellFormed(s.mem) && OrderOk(e) && !e.Restart? && Proposal(s, e).Ok?
    ensures Proposes(s.mem, Proposal(s, e).value) && AllWellFormed(Proposal(s, e).value)
  {
    hide Proposes, Control, Tick, MarkAll, Finish, AllWellFormed;
    match e
    case ControlEvent(id, req, tails, now, _) => ControlProposes(s.mem, id, req, tails, now);
    case TickEvent(order, active, tails, now, _) => TickProposes(s.mem, order, active, tails, now);
    case MarkEvent(pull, now, _) => MarkProposes(s.mem, pull, now);
    case FinishEvent(id, g, result, jitter, now, _) => FinishProposes(s.mem, id, g, result, jitter, now);
  }

  lemma SaveKeeps(s: Sys, next: Database, outcome: SaveOutcome)
    requires Inv(s) && Proposes(s.mem, next) && AllWellFormed(next)
    ensures Inv(Save(s, next, outcome))
  {
    hide Evolves, WellFormed;
    HistoryStaysFunctional(s, next);
    forall w | w in s.history ensures Covers(next, w) { CoversProposal(s.mem, next, w); }
    forall c | c in s.claims ensures Holds(next, c) { HoldsProposal(s.mem, next, c); }
    forall w | w in WakesOf(next) ensures Covers(next, w) { }
  }

  lemma RestartKeeps(s: Sys)
    requires Inv(s)
    ensures Inv(Step(s, Restart))
  {
    hide Evolves, WellFormed;
    if s.disk != s.mem {
      HistoryStaysFunctional(s, s.disk);
    }
    forall w | w in WakesOf(s.disk) ensures Covers(s.disk, w) { }
  }

  /** A successful claim is at a generation no earlier successful claim had. */
  lemma ClaimIsNew(s: Sys, e: Event, c: (string, nat))
    requires Inv(s) && Claimed(s, e) && c in s.claims && c.0 == e.id
    ensures c.1 < Proposal(s, e).value[e.id].generation
    ensures Proposal(s, e).value != s.mem
  {
    var r := Refresh(s.mem, e.tails, e.now);
    RefreshProposes(s.mem, e.tails, e.now);
    HoldsProposal(s.mem, r, c);
    ClaimEvolves(r[e.id], e.id, e.req.worker, e.req.wakeId, e.tails, e.now);
  }

  lemma ClaimedNow(s: Sys, e: Event)
    requires AllWellFormed(s.mem) && Claimed(s, e)
    ensures var next := Proposal(s, e).value;
      next[e.id].wake.Some? && next[e.id].wake.value.holder.Some? && next != s.mem
  {
    hide Claim, RefreshSub;
    var r := Refresh(s.mem, e.tails, e.now);
    RefreshProposes(s.mem, e.tails, e.now);
    var next := Proposal(s, e).value;
    ClaimEvolves(r[e.id], e.id, e.req.worker, e.req.wakeId, e.tails, e.now);
    assert Evolves(s.mem[e.id], r[e.id]);
  }

  lemma StepKeeps(s: Sys, e: Event)
    requires Inv(s) && OrderOk(e)
    ensures Inv(Step(s, e))
  {
    hide Proposes, Proposal, AllWellFormed, Functional;
    if e.Restart? {
      RestartKeeps(s);
    } else if Proposal(s, e).Ok? {
      var next := Proposal(s, e).value;
      ProposalProposes(s, e);
      SaveKeeps(s, next, e.outcome);
      if Claimed(s, e) {
        ClaimedNow(s, e);
        forall c | c in s.claims && c.0 == e.id ensures c.1 < next[e.id].generation { ClaimIsNew(s, e, c); }
      }
    }
  }

  // ---------------------------------------------------------------- whole runs

  function EmptySys(): (s: Sys) {
    Sys(map[], map[], {}, [])
  }

  function Run(s: Sys, events: seq<Event>): (s': Sys)
    decreases |events|
  {
    if events == [] then s else Run(Step(s, events[0]), events[1..])
  }

  lemma {:induction false} RunKeeps(s: Sys, events: seq<Event>)
    requires Inv(s) && forall i :: 0 <= i < |events| ==> OrderOk(events[i])
    ensures Inv(Run(s, events))
    decreases |events|
  {
    hide Inv, Step;
    if events != [] {
      StepKeeps(s, events[0]);
      RunKeeps(Step(s, events[0]), events[1..]);
    }
  }

  /**
   In every run: one wake id per generation ever current, and the generations of
   one subscription's successful claims strictly increase.
   */
  lemma EveryRunIsFenced(events: seq<Event>)
    requires forall i :: 0 <= i < |events| ==> OrderOk(events[i])
    ensures var s := Run(EmptySys(), events);
      Inv(s) && WakesOf(s.mem) <= s.history && Functional(s.history) && Increasing(s.claims)
  {
    hide Step;
    EmptyIsFenced();
    RunKeeps(EmptySys(), events);
  }

  lemma EmptyIsFenced()
    ensures Inv(EmptySys())
  {
  }

  lemma StepAdvances(s: Sys, e: Event, id: string)
    requires Inv(s) && OrderOk(e) && id in s.mem
    ensures id in Step(s, e).mem && s.mem[id].generation <= Step(s, e).mem[id].generation
    ensures CursorsAdvance(s.mem[id], Step(s, e).mem[id])
  {
    hide Proposal, Evolves, CursorsAdvance, AllWellFormed, WakesOf;
    EvolvesAdvances(s.mem[id], s.mem[id]);
    if e.Restart? {
      if s.disk != s.mem { EvolvesAdvances(s.mem[id], s.disk[id]); }
    } else if Proposal(s, e).Ok? {
      ProposalProposes(s, e);
      EvolvesAdvances(s.mem[id], Proposal(s, e).value[id]);
    }
  }

  lemma EvolvesAdvances(a: Subscription, b: Subscription)
    ensures Evolves(a, b) || a == b ==> a.generation <= b.generation && CursorsAdvance(a, b)
  {
  }

  /** A generation never decreases, restarts included. */
  lemma {:induction false} GenerationsNeverDecrease(s: Sys, events: seq<Event>, id: string)
    requires Inv(s) && id in s.mem && forall i :: 0 <= i < |events| ==> OrderOk(events[i])
    ensures id in Run(s, events).mem && s.mem[id].generation <= Run(s, events).mem[id].generation
    decreases |events|
  {
    hide Inv, Step;
    if events != [] {
      StepKeeps(s, events[0]);
      StepAdvances(s, events[0], id);
      GenerationsNeverDecrease(Step(s, events[0]), events[1..], id);
    }
  }

  /** The link is there after every prefix of the run. */
  predicate LinkedThroughout(s: Sys, events: seq<Event>, id: string, p: string)
    decreases |events|
  {
    && id in s.mem && p in s.mem[id].links
    && (events == [] || LinkedThroughout(Step(s, events[0]), events[1..], id, p))
  }

  /** A cursor never moves back while its link lives. */
  lemma {:induction false} CursorsNeverDecrease(s: Sys, events: seq<Event>, id: string, p: string)
    requires Inv(s) && LinkedThroughout(s, events, id, p) && forall i :: 0 <= i < |events| ==> OrderOk(events[i])
    ensures var s' := Run(s, events);
      id in s'.mem && p in s'.mem[id].links && Lex.AtMost(s.mem[id].links[p].acked, s'.mem[id].links[p].acked)
    decreases |events|
  {
    hide Inv, Step;
    if events != [] {
      var s1 := Step(s, events[0]);
      StepKeeps(s, events[0]);
      StepAdvances(s, events[0], id);
      CursorsNeverDecrease(s1, events[1..], id, p);
      Lex.AtMostIsTransitive(
        s.mem[id].links[p].acked, s1.mem[id].links[p].acked, Run(s, events).mem[id].links[p].acked);
    }
  }

  lemma {:induction false} HistoryGrows(s: Sys, events: seq<Event>)
    ensures s.history <= Run(s, events).history
    decreases |events|
  {
    hide Proposal;
    if events != [] { HistoryGrows(Step(s, events[0]), events[1..]); }
  }

  /**
   A token accepted after any further run, restarts included, is the one accepted
   before or belongs to a later generation. After no events at all it is the same one:
   at most one token is acceptable at a time.
   */
  lemma AcceptedTokensAdvance(
    s: Sys, events: seq<Event>, id: string, c: Completion, d: Completion, a: Action, b: Action, t: int, now: int)
    requires Inv(s) && id in s.mem && forall i :: 0 <= i < |events| ==> OrderOk(events[i])
    requires Passes(s.mem[id], id, c, a, t)
    requires id in Run(s, events).mem && Passes(Run(s, events).mem[id], id, d, b, now)
    ensures c.generation < d.generation || (c.token == d.token && c.wakeId == d.wakeId && c.generation == d.generation)
    ensures events == [] ==> c.token == d.token
  {
    hide Step, Proposes;
    var s' := Run(s, events);
    assert events == [] ==> s' == s;
    hide Run;
    RunKeeps(s, events);
    HistoryGrows(s, events);
    GenerationsNeverDecrease(s, events, id);
    assert (id, s.mem[id].generation, s.mem[id].wake.value.id) in WakesOf(s.mem);
    assert (id, s'.mem[id].generation, s'.mem[id].wake.value.id) in WakesOf(s'.mem);
  }

  // ---------------------------------------------------------------- a cleared wake stays cleared

  /** The wake of generation `g` is gone. */
  predicate Past(db: Database, id: string, g: nat) {
    id in db && (db[id].generation > g || (db[id].generation == g && db[id].wake.None?))
  }

  lemma PastProposal(a: Database, b: Database, id: string, g: nat)
    requires Proposes(a, b) && Past(a, id, g)
    ensures Past(b, id, g)
  {
    assert Evolves(a[id], b[id]);
  }

  /** When a step clears a wake, what is stored has it cleared too. */
  lemma ClearedDurably(s: Sys, e: Event, id: string, g: nat)
    requires !Past(s.mem, id, g) && Past(Step(s, e).mem, id, g)
    ensures Past(Step(s, e).disk, id, g)
  {
    hide Proposal, Past;
  }

  lemma PastStep(s: Sys, e: Event, id: string, g: nat)
    requires Inv(s) && OrderOk(e) && Past(s.mem, id, g) && Past(s.disk, id, g)
    ensures Past(Step(s, e).mem, id, g) && Past(Step(s, e).disk, id, g)
  {
    hide Proposal, Past, Proposes;
    if !e.Restart? && Proposal(s, e).Ok? {
      ProposalProposes(s, e);
      PastProposal(s.mem, Proposal(s, e).value, id, g);
    }
  }

  lemma {:induction false} PastForever(s: Sys, events: seq<Event>, id: string, g: nat)
    requires Inv(s) && forall i :: 0 <= i < |events| ==> OrderOk(events[i])
    requires Past(s.mem, id, g) && Past(s.disk, id, g)
    ensures Past(Run(s, events).mem, id, g)
    decreases |events|
  {
    hide Inv, Step;
    if events != [] {
      StepKeeps(s, events[0]);
      PastStep(s, events[0], id, g);
      PastForever(Step(s, events[0]), events[1..], id, g);
    }
  }

  /** The event speaks for the wake of generation `g`: by its body, its token or its delivery key. */
  predicate SpeaksFor(e: Event, id: string, g: nat) {
    || (e.ControlEvent? && e.id == id && e.req.CompleteWake?
        && (e.req.completion.generation == g
            || (e.req.completion.token.Some? && e.req.completion.token.value.generation == g)))
    || (e.FinishEvent? && e.id == id && e.generation == g)
  }

  lemma StaleCompletion(sub: Subscription, id: string, c: Completion, action: Action, tails: Tails, now: int, g: nat)
    requires WellFormed(sub) && (sub.generation > g || (sub.generation == g && sub.wake.None?))
    requires c.generation == g || (c.token.Some? && c.token.value.generation == g)
    ensures Complete(sub, id, c, action, tails, now).Err?
  {
    hide ApplyAcks, ValidAck;
  }

  lemma StaleEventIsInert(s: Sys, e: Event, id: string, g: nat)
    requires AllWellFormed(s.mem) && Past(s.mem, id, g) && SpeaksFor(e, id, g)
    ensures Step(s, e) == s
  {
    if e.ControlEvent? {
      RefreshProposes(s.mem, e.tails, e.now);
      PastProposal(s.mem, Refresh(s.mem, e.tails, e.now), id, g);
      hide RefreshSub, Complete, Proposes, AllWellFormed;
      var r := Refresh(s.mem, e.tails, e.now);
      assert WellFormed(r[id]);
      StaleCompletion(r[id], id, e.req.completion, e.req.action, e.tails, e.now, g);
      assert Proposal(s, e).Err?;
    }
  }

  /**
   After a wake is cleared, whatever else happens, restarts included, no callback,
   acknowledgement, release or delivery result for it ever changes any state.
   */
  lemma ClearedWakeIsFenced(s: Sys, e: Event, events: seq<Event>, late: Event, id: string, g: nat)
    requires Inv(s) && OrderOk(e) && forall i :: 0 <= i < |events| ==> OrderOk(events[i])
    requires !Past(s.mem, id, g) && Past(Step(s, e).mem, id, g)
    requires SpeaksFor(late, id, g)
    ensures var s' := Run(Step(s, e), events); Step(s', late) == s'
  {
    hide Step, Past, SpeaksFor;
    StepKeeps(s, e);
    ClearedDurably(s, e, id, g);
    PastForever(Step(s, e), events, id, g);
    RunKeeps(Step(s, e), events);
    StaleEventIsInert(Run(Step(s, e), events), late, id, g);
  }
}
