/**
 The control service as it executes: a database guarded by a lock, its stored copy,
 and transactions that work on a clone and save it before exposing it.
 */
module SubscriptionService {
  import opened Wrappers
  import opened Subscriptions
  import opened Fencing
  import OffsetCodec
  import Lex

  datatype Reply = Done | Refused(error: ApiError) | SaveFailed

  // ---------------------------------------------------------------- the loops of a transaction, on the clone

  /** Link every listed stream the pattern matches; what is linked already stays. */
  method LinkMatching(sub: Subscription, tails: Tails) returns (links: map<string, Link>)
    ensures links == (map p | p in tails && Subscriptions.Matches(sub.config, p) :: Link(false, OffsetCodec.ZERO)) + sub.links
  {
    hide Subscriptions.Matches;
    links := sub.links;
    var rest := tails.Keys;
    while rest != {}
      invariant rest <= tails.Keys
      invariant forall p :: p in links <==> p in sub.links || (p in tails && p !in rest && Subscriptions.Matches(sub.config, p))
      invariant forall p :: p in links ==> links[p] == if p in sub.links then sub.links[p] else Link(false, OffsetCodec.ZERO)
    {
      var path :| path in rest;
      if Subscriptions.Matches(sub.config, path) && path !in links {
        links := links[path := Link(false, OffsetCodec.ZERO)];
      }
      rest := rest - {path};
    }
  }

  method RefreshAll(db: Database, tails: Tails, now: int) returns (next: Database)
    ensures next == Refresh(db, tails, now)
  {
    next := db;
    var rest := db.Keys;
    while rest != {}
      invariant rest <= db.Keys && next.Keys == db.Keys
      invariant forall id :: id in db ==> next[id] == if id in rest then db[id] else RefreshSub(db[id], tails, now)
    {
      hide Subscriptions.Matches;
      var id :| id in rest;
      var sub := next[id];
      if !sub.deleted {
        var links := LinkMatching(sub, tails);
        sub := sub.(links := links);
        if LeaseOver(sub, now) {
          sub := sub.(wake := None, nextAttemptAt := now);
        }
      }
      next := next[id := sub];
      rest := rest - {id};
    }
  }

  method MatchedLinks(config: Configuration, tails: Tails) returns (links: map<string, Link>)
    ensures links == map p | p in tails && Subscriptions.Matches(config, p) :: Link(false, tails[p])
  {
    hide Subscriptions.Matches;
    links := map[];
    var rest := tails.Keys;
    while rest != {}
      invariant rest <= tails.Keys
      invariant forall p :: p in links <==> p in tails && p !in rest && Subscriptions.Matches(config, p)
      invariant forall p :: p in links ==> links[p] == Link(false, tails[p])
    {
      var path :| path in rest;
      if Subscriptions.Matches(config, path) {
        links := links[path := Link(false, tails[path])];
      }
      rest := rest - {path};
    }
  }

  /** The links of a new subscription: matching streams from their tails, then the listed ones. */
  method InitialLinks(config: Configuration, tails: Tails) returns (links: map<string, Link>)
    ensures links == NewLinks(config, tails)
  {
    hide Subscriptions.Matches;
    links := MatchedLinks(config, tails);
    ghost var matched := links;
    var listed := config.streams;
    while listed != {}
      invariant listed <= config.streams
      invariant forall p :: p in links <==> p in matched || (p in config.streams && p !in listed)
      invariant forall p :: p in links ==>
        links[p] == if p in config.streams && p !in listed
                    then Link(true, if p in tails then tails[p] else OffsetCodec.ZERO) else matched[p]
    {
      var path :| path in listed;
      links := links[path := Link(true, if path in tails then tails[path] else OffsetCodec.ZERO)];
      listed := listed - {path};
    }
  }

  method CreateOn(db: Database, id: string, config: Configuration, wakeStreamOk: bool, tails: Tails, now: int)
    returns (r: Result<Database, ApiError>)
    ensures r == CreateSubscription(db, id, config, wakeStreamOk, tails, now)
  {
    hide ConfigError, NewLinks;
    var refused := ConfigError(config);
    if refused.Some? { return Err(refused.value); }
    if id in db {
      if db[id].deleted || db[id].config != config { return Err(ConfigMismatch); }
      return Ok(db);
    }
    if config.wakeStream.Some? && !wakeStreamOk { return Err(InvalidWakeStream); }
    var links := InitialLinks(config, tails);
    r := Ok(db[id := Subscription(config, links, 0, None, false, now, 0, false)]);
  }

  lemma {:induction false} ApplyOneMore(links: map<string, Link>, acks: seq<Ack>, k: nat)
    requires k < |acks|
    ensures var l := ApplyAcks(links, acks[..k]); var a := acks[k];
      ApplyAcks(links, acks[..k + 1])
        == if a.stream in l then l[a.stream := l[a.stream].(acked := Lex.Max(l[a.stream].acked, a.offset))] else l
    decreases k
  {
    if k > 0 {
      var a := acks[0];
      var next := if a.stream in links
                  then links[a.stream := links[a.stream].(acked := Lex.Max(links[a.stream].acked, a.offset))]
                  else links;
      assert acks[..k][1..] == acks[1..][..k - 1] && acks[..k + 1][1..] == acks[1..][..k];
      ApplyOneMore(next, acks[1..], k - 1);
    } else {
      assert acks[..1][1..] == [] && acks[..0] == [];
    }
  }

  /** Check the fence and the whole batch, then move the cursors, then settle the wake. */
  method CompleteSub(sub: Subscription, id: string, c: Completion, action: Action, tails: Tails, now: int)
    returns (r: Result<Subscription, ApiError>)
    ensures r == Complete(sub, id, c, action, tails, now)
  {
    if !Passes(sub, id, c, action, now) {
      return Err(Fenced);
    }
    for i := 0 to |c.acks|
      invariant forall j :: 0 <= j < i ==> ValidAck(sub.links, c.acks[j], tails)
    {
      hide ValidAck;
      if !ValidAck(sub.links, c.acks[i], tails) {
        return Err(InvalidAck);
      }
    }
    var links := sub.links;
    if !action.Release? {
      for i := 0 to |c.acks|
        invariant links == ApplyAcks(sub.links, c.acks[..i])
      {
        hide ApplyAcks, ValidAck, Passes;
        ApplyOneMore(sub.links, c.acks, i);
        var a := c.acks[i];
        if a.stream in links {
          links := links[a.stream := links[a.stream].(acked := Lex.Max(links[a.stream].acked, a.offset))];
        }
      }
      assert c.acks[..|c.acks|] == c.acks;
    }
    hide ValidAck, ApplyAcks;
    if c.done || action.Release? {
      r := Ok(sub.(links := links, wake := None, failed := false, nextAttemptAt := now));
    } else {
      r := Ok(sub.(links := links, wake := Some(sub.wake.value.(leaseUntil := Some(now + sub.config.leaseTtl)))));
    }
  }

  lemma AddedOneMore(links: map<string, Link>, done: set<string>, p: string, tails: Tails)
    requires p !in done
    ensures Added(links, done + {p}, tails) == Added(links, done, tails)[p := Joined(Added(links, done, tails), p, tails)]
  {
  }

  lemma AddedNone(links: map<string, Link>, tails: Tails)
    ensures Added(links, {}, tails) == links
  {
  }

  method AddStreamLinks(sub: Subscription, paths: set<string>, tails: Tails)
    returns (r: Result<Subscription, ApiError>)
    ensures r == AddLinks(sub, paths, tails)
  {
    hide ValidPath, Added, Joined;
    var links := sub.links;
    AddedNone(links, tails);
    var rest, done := paths, {};
    while rest != {}
      invariant rest + done == paths && rest !! done
      invariant forall p :: p in done ==> ValidPath(p) && sub.config.wakeStream != Some(p)
      invariant links == Added(sub.links, done, tails)
    {
      var path :| path in rest;
      if !ValidPath(path) || sub.config.wakeStream == Some(path) {
        return Err(InvalidPath);
      }
      AddedOneMore(sub.links, done, path, tails);
      links := links[path := Joined(links, path, tails)];
      rest, done := rest - {path}, done + {path};
    }
    r := Ok(sub.(links := links));
  }

  /** Unlink a path; one the pattern matches only loses its explicit mark. */
  method RemoveStreamLink(sub: Subscription, path: string) returns (r: Result<Subscription, ApiError>)
    ensures r == RemoveLink(sub, path)
  {
    hide ValidPath, Subscriptions.Matches;
    if !ValidPath(path) { return Err(InvalidPath); }
    var links := sub.links;
    if Subscriptions.Matches(sub.config, path) {
      if path in links {
        links := links[path := links[path].(explicit := false)];
      }
    } else {
      links := links - {path};
    }
    r := Ok(sub.(links := links));
  }

  /** Take the unheld wake, issuing one first if there is pending work and none. */
  method ClaimSub(sub: Subscription, id: string, worker: string, wakeId: string, tails: Tails, now: int)
    returns (r: Result<Subscription, ApiError>)
    ensures r == Claim(sub, id, worker, wakeId, tails, now)
  {
    hide Pending, Snapshots, Blank, ByteLength;
    if Blank(worker) || ByteLength(worker) > 256 { return Err(InvalidWorker); }
    if sub.wake.Some? && sub.wake.value.holder.Some? {
      return Err(AlreadyClaimed(sub.wake.value.holder.value, sub.wake.value.generation));
    }
    var s := sub;
    if s.wake.None? {
      if !Pending(s, tails) { return Err(NoPendingWork); }
      var issued := IssueWake(s, id, wakeId, tails, now);
      if issued.Err? { return Err(issued.error); }
      s := issued.value;
    }
    s := s.(failed := false);
    var wake := s.wake.value;
    wake := wake.(token := Some(Token(id, wake.generation, wake.id)), holder := Some(worker));
    wake := wake.(leaseUntil := Some(now + s.config.leaseTtl), delivered := true);
    r := Ok(s.(wake := Some(wake)));
  }

  lemma {:induction false} TickOneMore(
    ts: TickState, order: seq<(string, string)>, k: nat, active: set<Key>, tails: Tails, now: int)
    requires k < |order| && TickAll(ts, order[..k], active, tails, now).Ok?
    ensures TickAll(ts, order[..k + 1], active, tails, now)
         == TickOne(TickAll(ts, order[..k], active, tails, now).value, order[k].0, order[k].1, active, tails, now)
    decreases k
  {
    hide TickOne;
    if k > 0 {
      assert order[..k][1..] == order[1..][..k - 1] && order[..k + 1][1..] == order[1..][..k];
      var one := TickOne(ts, order[0].0, order[0].1, active, tails, now);
      TickOneMore(one.value, order[1..], k - 1, active, tails, now);
    } else {
      assert order[..1][1..] == [] && order[..0] == [];
    }
  }

  lemma {:induction false} TickStops(
    ts: TickState, order: seq<(string, string)>, k: nat, active: set<Key>, tails: Tails, now: int)
    requires k <= |order| && TickAll(ts, order[..k], active, tails, now).Err?
    ensures TickAll(ts, order, active, tails, now) == TickAll(ts, order[..k], active, tails, now)
    decreases k
  {
    hide TickOne;
    if k > 0 {
      assert order[..k][1..] == order[1..][..k - 1];
      var one := TickOne(ts, order[0].0, order[0].1, active, tails, now);
      if one.Ok? { TickStops(one.value, order[1..], k - 1, active, tails, now); }
    }
  }

  /** The loop of a tick over the subscriptions: issue missing wakes, pick deliveries while there is room. */
  method TickLoop(db: Database, order: seq<(string, string)>, active: set<Key>, tails: Tails, now: int)
    returns (r: Result<TickState, ApiError>)
    ensures r == TickAll(TickState(db, {}, {}), order, active, tails, now)
  {
    hide Snapshots, Pending, IssueWake;
    ghost var start := TickState(db, {}, {});
    var next, jobs, pull := db, {}, {};
    for i := 0 to |order|
      invariant TickAll(start, order[..i], active, tails, now) == Ok(TickState(next, jobs, pull))
    {
      TickOneMore(start, order, i, active, tails, now);
      var id := order[i].0;
      if id in next && !next[id].deleted {
        var sub := next[id];
        if sub.wake.None? && Pending(sub, tails) {
          var issued := IssueWake(sub, id, order[i].1, tails, now);
          if issued.Err? {
            TickStops(start, order, i + 1, active, tails, now);
            return Err(issued.error);
          }
          sub := issued.value;
        }
        if Due(sub, id, active, now) {
          var wake := sub.wake.value;
          if sub.config.kind.PullWake? {
            if exists p :: p in wake.streams && wake.streams[p].hasPending {
              pull := pull + {(id, wake.generation)};
            }
          } else if |active| + |jobs| < MAX_DELIVERIES {
            sub := sub.(wake := Some(wake.(leaseUntil := Some(now + sub.config.leaseTtl))),
                        failed := false, nextAttemptAt := now + 6_000);
            jobs := jobs + {(id, wake.generation)};
          }
        }
        next := next[id := sub];
      }
    }
    assert order[..|order|] == order;
    r := Ok(TickState(next, jobs, pull));
  }

  /** Acknowledge each stream of the finished wake at its snapshot tail. */
  method AckSnapshotLoop(links: map<string, Link>, streams: map<string, Snapshot>) returns (l: map<string, Link>)
    ensures l == AckSnapshot(links, streams)
  {
    l := links;
    var rest := streams.Keys;
    while rest != {}
      invariant rest <= streams.Keys && l.Keys == links.Keys
      invariant forall p :: p in links ==>
        l[p] == if p in streams && p !in rest
                then links[p].(acked := Lex.Max(links[p].acked, streams[p].tail)) else links[p]
    {
      var path :| path in rest;
      if path in l {
        l := l[path := l[path].(acked := Lex.Max(l[path].acked, streams[path].tail))];
      }
      rest := rest - {path};
    }
  }

  // ---------------------------------------------------------------- the service

  /** Each subscription is published at most once per tick. */
  predicate OnePerId(keys: set<Key>) {
    forall a, b :: a in keys && b in keys && a.0 == b.0 ==> a == b
  }

  /** Which wake events were appended, by subscription. */
  ghost function Publications(pull: set<Key>, appended: set<string>): (m: map<string, (nat, bool)>) {
    map id | id in (set k | k in pull :: k.0) :: (GenerationOf(pull, id), id in appended)
  }

  ghost function GenerationOf(pull: set<Key>, id: string): (g: nat)
    requires exists k :: k in pull && k.0 == id
    ensures (id, g) in pull
  {
    var k :| k in pull && k.0 == id;
    k.1
  }

  lemma PublicationsAt(pull: set<Key>, appended: set<string>, k: Key)
    requires OnePerId(pull) && k in pull
    ensures k.0 in Publications(pull, appended) && Publications(pull, appended)[k.0] == (k.1, k.0 in appended)
  {
  }

  lemma PublicationsAll(pull: set<Key>, appended: set<string>)
    requires OnePerId(pull)
    ensures forall id :: id in Publications(pull, appended) ==> (id, Publications(pull, appended)[id].0) in pull
  {
  }

  method MarkLoop(db: Database, pull: set<Key>, appended: set<string>, now: int) returns (next: Database)
    requires OnePerId(pull)
    ensures next == MarkAll(db, Publications(pull, appended), now)
  {
    hide Mark, OnePerId, Publications;
    PublicationsAll(pull, appended);
    next := db;
    var rest := pull;
    while rest != {}
      invariant rest <= pull && next.Keys == db.Keys
      invariant forall id :: id in db ==>
        next[id] == if id in Publications(pull, appended) && (id, Publications(pull, appended)[id].0) !in rest
                    then Mark(db[id], Publications(pull, appended)[id].0, Publications(pull, appended)[id].1, now)
                    else db[id]
    {
      var key :| key in rest;
      PublicationsAt(pull, appended, key);
      if key.0 in next {
        next := next[key.0 := Mark(next[key.0], key.1, key.0 in appended, now)];
      }
      rest := rest - {key};
    }
  }

  /** One subscription adds at most its own key to the deliveries or to the publications. */
  lemma TickOneAdds(ts: TickState, id: string, wakeId: string, active: set<Key>, tails: Tails, now: int)
    requires TickOne(ts, id, wakeId, active, tails, now).Ok?
    ensures var ts' := TickOne(ts, id, wakeId, active, tails, now).value;
      || (ts'.jobs == ts.jobs && ts'.pull == ts.pull)
      || exists g: nat {:trigger (id, g)} ::
           || (ts'.jobs == ts.jobs && ts'.pull == ts.pull + {(id, g)})
           || (ts'.jobs == ts.jobs + {(id, g)} && ts'.pull == ts.pull && (id, g) !in active
               && |active| + |ts.jobs| < MAX_DELIVERIES)
  {
    hide Pending, Snapshots, IssueWake;
    var sub := if id in ts.db then Some(ts.db[id]) else None;
    if sub.Some? && !sub.value.deleted {
      var issued := if sub.value.wake.None? && Pending(sub.value, tails)
                    then IssueWake(sub.value, id, wakeId, tails, now) else Ok(sub.value);
      if issued.value.wake.Some? {
        var key: Key := (id, issued.value.wake.value.generation);
        assert key == (id, key.1);
      }
    }
  }

  lemma TickOneIsOnePerId(ts: TickState, id: string, wakeId: string, active: set<Key>, tails: Tails, now: int)
    requires OnePerId(ts.pull) && OnePerId(ts.jobs)
    requires (forall k :: k in ts.pull + ts.jobs ==> k.0 != id)
    requires TickOne(ts, id, wakeId, active, tails, now).Ok?
    ensures var ts' := TickOne(ts, id, wakeId, active, tails, now).value;
      && OnePerId(ts'.pull) && OnePerId(ts'.jobs)
      && (forall k :: k in ts'.pull + ts'.jobs && k !in ts.pull + ts.jobs ==> k.0 == id)
      && ts.jobs <= ts'.jobs && (forall k :: k in ts'.jobs && k !in ts.jobs ==> k !in active)
      && |ts'.jobs| <= |ts.jobs| + 1
      && (ts'.jobs != ts.jobs ==> |active| + |ts.jobs| < MAX_DELIVERIES)
  {
    TickOneAdds(ts, id, wakeId, active, tails, now);
    hide TickOne;
  }

  /** A tick picks each subscription once, nothing already active, and never more than there is room for. */
  lemma {:induction false} TickIsBounded(
    ts: TickState, order: seq<(string, string)>, active: set<Key>, tails: Tails, now: int)
    requires OnePerId(ts.pull) && OnePerId(ts.jobs) && ts.jobs !! active
    requires |active| + |ts.jobs| <= MAX_DELIVERIES || ts.jobs == {}
    requires forall i, j :: 0 <= i < j < |order| ==> order[i].0 != order[j].0
    requires forall i, k :: 0 <= i < |order| && k in ts.pull + ts.jobs ==> k.0 != order[i].0
    requires TickAll(ts, order, active, tails, now).Ok?
    ensures var ts' := TickAll(ts, order, active, tails, now).value;
      && OnePerId(ts'.pull) && OnePerId(ts'.jobs) && ts'.jobs !! active
      && (|active| + |ts'.jobs| <= MAX_DELIVERIES || ts'.jobs == {})
    decreases |order|
  {
    hide TickOne, OnePerId;
    if order != [] {
      var one := TickOne(ts, order[0].0, order[0].1, active, tails, now).value;
      assert forall k :: k in ts.pull + ts.jobs ==> k.0 != order[0].0;
      TickOneIsOnePerId(ts, order[0].0, order[0].1, active, tails, now);
      TickIsBounded(one, order[1..], active, tails, now);
    }
  }

  /**
   One tick of the service, both saves: the new state, and the deliveries handed out,
   which there are only when both saves succeeded.
   */
  ghost function Reconciled(
    s: Sys, order: seq<(string, string)>, active: set<Key>, tails: Tails, now: int,
    appended: set<string>, first: SaveOutcome, second: SaveOutcome)
    : (r: (Sys, Option<set<Key>>))
  {
    var t := Tick(s.mem, order, active, tails, now);
    if t.Err? then (s, None)
    else
      var s1 := Step(s, TickEvent(order, active, tails, now, first));
      if t.value.db != s.mem && !first.Saved? then (s1, None)
      else
        var marks := Publications(t.value.pull, appended);
        var s2 := Step(s1, MarkEvent(marks, now, second));
        if MarkAll(s1.mem, marks, now) != s1.mem && !second.Saved? then (s2, None) else (s2, Some(t.value.jobs))
  }

  /** Deliveries handed out are new, one per subscription, and fit the room that is left. */
  lemma ReconciledIsBounded(
    s: Sys, order: seq<(string, string)>, active: set<Key>, tails: Tails, now: int,
    appended: set<string>, first: SaveOutcome, second: SaveOutcome)
    requires Fencing.Inv(s) && forall i, j :: 0 <= i < j < |order| ==> order[i].0 != order[j].0
    ensures var r := Reconciled(s, order, active, tails, now, appended, first, second);
      && Fencing.Inv(r.0)
      && (r.1.Some? ==> OnePerId(r.1.value) && r.1.value !! active
                        && (|active| + |r.1.value| <= MAX_DELIVERIES || r.1.value == {}))
  {
    hide Fencing.Inv, TickAll, RefreshSub, Mark, Publications, OnePerId, Fencing.Step;
    var t := Tick(s.mem, order, active, tails, now);
    if t.Ok? {
      EmptyIsOnePerId();
      TickIsBounded(TickState(Refresh(s.mem, tails, now), {}, {}), order, active, tails, now);
      StepKeeps(s, TickEvent(order, active, tails, now, first));
      StepKeeps(Step(s, TickEvent(order, active, tails, now, first)), MarkEvent(Publications(t.value.pull, appended), now, second));
    }
  }

  class Service {
    var database: Database
    var stored: Database
    ghost var sys: Sys

    ghost predicate Valid() reads this {
      sys.mem == database && sys.disk == stored && Fencing.Inv(sys)
    }

    constructor ()
      ensures Valid() && sys == EmptySys()
    {
      database, stored := map[], map[];
      sys := EmptySys();
      new;
      EmptyIsFenced();
    }

    /** Write the stored copy if anything changed, and only then expose the new database. */
    method Save(next: Database, outcome: SaveOutcome) returns (ok: bool)
      requires sys.mem == database && sys.disk == stored
      modifies this
      ensures sys == Fencing.Save(old(sys), next, outcome) && sys.mem == database && sys.disk == stored
      ensures ok == (next == old(database) || outcome.Saved?)
      ensures database == if ok then next else old(database)
    {
      sys := Fencing.Save(sys, next, outcome);
      if next != database {
        if !outcome.Lost? {
          stored := next;
        }
        if !outcome.Saved? {
          return false;
        }
      }
      database := next;
      ok := true;
    }

    /** One control request, whole: reconcile a clone, act on it, save it. */
    method ControlTransaction(id: string, req: Request, tails: Tails, now: int, outcome: SaveOutcome)
      returns (reply: Reply)
      requires Valid()
      modifies this
      ensures Valid() && sys == Step(old(sys), ControlEvent(id, req, tails, now, outcome))
      ensures var r := Control(old(database), id, req, tails, now);
        reply == (if r.Err? then Refused(r.error)
                  else if r.value == old(database) || outcome.Saved? then Done else SaveFailed)
      ensures reply.Done? ==> Control(old(database), id, req, tails, now) == Ok(database)
                              && (database != old(database) ==> stored == database)
      ensures !reply.Done? ==> database == old(database)
    {
      hide Handle, CreateSubscription, RefreshSub, Fencing.Inv;
      ghost var e := ControlEvent(id, req, tails, now, outcome);
      StepKeeps(sys, e);
      var db := RefreshAll(database, tails, now);
      if req.Create? {
        var created := CreateOn(db, id, req.config, req.wakeStreamOk, tails, now);
        if created.Err? { return Refused(created.error); }
        db := created.value;
      } else {
        if id !in db || db[id].deleted { return Refused(Missing); }
        var handled := HandleOn(db[id], id, req, tails, now);
        if handled.Err? { return Refused(handled.error); }
        db := db[id := handled.value];
      }
      ghost var claimed := Claimed(sys, e);
      var ok := Save(db, outcome);
      if claimed {
        sys := sys.(claims := sys.claims + [(id, db[id].generation)]);
      }
      reply := if ok then Done else SaveFailed;
    }

    static method HandleOn(sub: Subscription, id: string, req: Request, tails: Tails, now: int)
      returns (r: Result<Subscription, ApiError>)
      ensures r == Handle(sub, id, req, tails, now)
    {
      hide Complete, AddLinks, Claim, RemoveLink;
      match req {
        case CompleteWake(action, c) => r := CompleteSub(sub, id, c, action, tails, now);
        case AddStreams(paths) => r := AddStreamLinks(sub, paths, tails);
        case RemoveStream(path) => r := RemoveStreamLink(sub, path);
        case ClaimWake(worker, wakeId) =>
          if sub.config.kind.PullWake? {
            r := ClaimSub(sub, id, worker, wakeId, tails, now);
          } else {
            r := Err(Missing);
          }
        case Delete => r := Ok(sub.(deleted := true, wake := None));
        case Inspect => r := Ok(sub);
        case Create(_, _) => r := Ok(sub);
      }
    }

    /** Record a delivery result on the clone and save it. */
    method FinishDelivery(id: string, generation: nat, result: Option<bool>, jitter: int, now: int, outcome: SaveOutcome)
      returns (ok: bool)
      requires Valid()
      modifies this
      ensures Valid() && sys == Step(old(sys), FinishEvent(id, generation, result, jitter, now, outcome))
      ensures ok == (Finish(old(database), id, generation, result, jitter, now) == old(database) || outcome.Saved?)
    {
      hide RetryDelay, Fencing.Inv, AckSnapshot;
      StepKeeps(sys, FinishEvent(id, generation, result, jitter, now, outcome));
      if !StillCurrent(database, id, generation, now) {
        return true;
      }
      var sub := database[id];
      var wake := sub.wake.value;
      if result.Some? {
        sub := sub.(wake := Some(wake.(delivered := true)), failed := false, attempts := 0);
        if result.value {
          var links := AckSnapshotLoop(sub.links, wake.streams);
          sub := sub.(links := links, wake := None, nextAttemptAt := now);
        }
      } else {
        var delay := RetryDelay(sub.attempts);
        sub := sub.(failed := true, attempts := sub.attempts + 1, nextAttemptAt := now + delay + delay / 1_000 * jitter);
      }
      ok := Save(database[id := sub], outcome);
    }

    /** One tick, both saves; deliveries are handed out only when both succeeded. */
    method Reconcile(
      order: seq<(string, string)>, active: set<Key>, tails: Tails, now: int,
      appended: set<string>, first: SaveOutcome, second: SaveOutcome)
      returns (jobs: Option<set<Key>>)
      requires Valid() && forall i, j :: 0 <= i < j < |order| ==> order[i].0 != order[j].0
      modifies this
      ensures Valid() && (sys, jobs) == Reconciled(old(sys), order, active, tails, now, appended, first, second)
      ensures jobs.Some? ==> OnePerId(jobs.value) && jobs.value !! active
                             && (|active| + |jobs.value| <= MAX_DELIVERIES || jobs.value == {})
    {
      hide Fencing.Inv, TickAll, RefreshSub, Mark, Publications, OnePerId;
      ReconciledIsBounded(sys, order, active, tails, now, appended, first, second);
      var db := RefreshAll(database, tails, now);
      var r := TickLoop(db, order, active, tails, now);
      if r.Err? {
        return None;
      }
      EmptyIsOnePerId();
      TickIsBounded(TickState(db, {}, {}), order, active, tails, now);
      var ok := Save(r.value.db, first);
      if !ok {
        return None;
      }
      var marked := MarkLoop(r.value.db, r.value.pull, appended, now);
      ok := Save(marked, second);
      jobs := if ok then Some(r.value.jobs) else None;
    }

    /** A new process starts from the stored copy. */
    method Reload()
      requires Valid()
      modifies this
      ensures Valid() && sys == Step(old(sys), Restart)
    {
      hide Fencing.Inv;
      StepKeeps(sys, Restart);
      sys := Step(sys, Restart);
      database := stored;
    }
  }

  lemma EmptyIsOnePerId()
    ensures OnePerId({})
  {
  }
}
