/**
 What a delivery tick hands out and leaves behind, and when a wake that was handed out
 comes again, stated on the subscriptions and the sets of keys alone.
 */
module TickOutcomes {
  import opened Wrappers
  import opened Subscriptions
  import opened WakeOutcomes
  import SubscriptionService
  import Offsets

  /** Work waits and no wake announces it. */
  predicate Unannounced(sub: Subscription, tails: Tails) {
    !sub.deleted && sub.wake.None? && Behind(sub, tails)
  }

  /** What reconciliation and the issuing step make of `a`: at most a wake of the next generation, bearing a token and a lease only for a webhook. */
  predicate Announced(a: Subscription, s: Subscription, id: string, wakeId: string, tails: Tails, now: int) {
    if !Unannounced(a, tails) then s == a
    else
      && s == a.(wake := s.wake, generation := a.generation + 1, attempts := 0, failed := false, nextAttemptAt := now)
      && s.wake.Some?
      && var w := s.wake.value;
      && Reports(a, tails, w.streams)
      && w == Wake(wakeId, a.generation + 1, w.streams,
                   if a.config.kind.Webhook? then Some(Token(id, a.generation + 1, wakeId)) else None, None,
                   if a.config.kind.Webhook? then Some(now + a.config.leaseTtl) else None, false)
  }

  predicate Silent(w: Wake) {
    forall p :: p in w.streams ==> !w.streams[p].hasPending
  }

  /** The wake waits to be delivered, its time has come, and no delivery of it is under way. */
  predicate Waiting(s: Subscription, id: string, active: set<Key>, now: int) {
    && !s.deleted && s.wake.Some? && !s.wake.value.delivered && s.nextAttemptAt <= now
    && (id, s.wake.value.generation) !in active
  }

  /** The key of `id` in a set of keys, if there is one, is the one of the given generation, and it is there exactly when `here`. */
  ghost predicate Holds(keys: set<Key>, id: string, s: Subscription, here: bool) {
    forall g: nat :: (id, g) in keys <==> here && s.wake.Some? && g == s.wake.value.generation
  }

  ghost predicate NoKey(keys: set<Key>, id: string) {
    forall g: nat :: (id, g) !in keys
  }

  /** What a delivery that is handed out leaves: a lease from now and a retry six seconds on. */
  function HandedOut(s: Subscription, now: int): (b: Subscription)
    requires s.wake.Some?
  {
    s.(wake := Some(s.wake.value.(leaseUntil := Some(now + s.config.leaseTtl))), failed := false, nextAttemptAt := now + 6_000)
  }

  /** What a tick makes of one subscription: `s` is the subscription after issuing, `sent` whether it is delivered by webhook. */
  ghost predicate Visited(s: Subscription, id: string, active: set<Key>, now: int, sent: bool, t: TickState) {
    && id in t.db && t.db[id] == (if sent && s.wake.Some? then HandedOut(s, now) else s)
    && Holds(t.jobs, id, s, sent) && (sent ==> Waiting(s, id, active, now) && s.config.kind.Webhook?)
    && Holds(t.pull, id, s, Waiting(s, id, active, now) && s.config.kind.PullWake? && !Silent(s.wake.value))
  }

  predicate Room(active: set<Key>, jobs: set<Key>) { |active| + |jobs| < 16 }

  // ---------------------------------------------------------------- one subscription

  /** The step on its own: the subscription after issuing, and the key it adds to a set, if any. */
  lemma OneDecides(ts: TickState, id: string, wakeId: string, active: set<Key>, tails: Tails, now: int)
    returns (s: Subscription)
    requires TickOne(ts, id, wakeId, active, tails, now).Ok? && id in ts.db
    ensures Announced(ts.db[id], s, id, wakeId, tails, now)
    ensures var ts' := TickOne(ts, id, wakeId, active, tails, now).value;
      var key := if s.wake.Some? then {(id, s.wake.value.generation)} else {};
      var sent := Waiting(s, id, active, now) && s.config.kind.Webhook? && Room(active, ts.jobs);
      && ts'.jobs == (if sent then ts.jobs + key else ts.jobs)
      && ts'.pull == (if Waiting(s, id, active, now) && s.config.kind.PullWake? && !Silent(s.wake.value)
                      then ts.pull + key else ts.pull)
      && ts'.db == ts.db[id := if sent then HandedOut(s, now) else s]
  {
    var a := ts.db[id];
    BehindIff(a, tails);
    SnapshotsReport(a, tails);
    hide Pending, Behind, Snapshots, Reports;
    s := if Unannounced(a, tails) then IssueWake(a, id, wakeId, tails, now).value else a;
    assert a.deleted ==> ts.db[id := a] == ts.db;
  }

  lemma OneIssues(ts: TickState, id: string, wakeId: string, active: set<Key>, tails: Tails, now: int)
    returns (s: Subscription)
    requires TickOne(ts, id, wakeId, active, tails, now).Ok? && id in ts.db && NoKey(ts.jobs, id) && NoKey(ts.pull, id)
    ensures Announced(ts.db[id], s, id, wakeId, tails, now)
    ensures Visited(s, id, active, now, Waiting(s, id, active, now) && s.config.kind.Webhook? && Room(active, ts.jobs),
                    TickOne(ts, id, wakeId, active, tails, now).value)
  {
    s := OneDecides(ts, id, wakeId, active, tails, now);
    hide TickOne, Announced, Silent, Room, HandedOut;
  }

  /** The loop refuses only to run out of generations. */
  lemma OneAnswers(ts: TickState, id: string, wakeId: string, active: set<Key>, tails: Tails, now: int)
    ensures TickOne(ts, id, wakeId, active, tails, now).Err? <==>
      id in ts.db && Unannounced(ts.db[id], tails) && Exhausted(ts.db[id])
    ensures var r := TickOne(ts, id, wakeId, active, tails, now); r.Err? ==> r.error == GenerationExhausted
  {
    if id in ts.db { BehindIff(ts.db[id], tails); }
    hide Pending, Behind, Snapshots;
  }

  /** Other subscriptions and their keys are left alone. */
  lemma OneFrames(ts: TickState, id: string, wakeId: string, active: set<Key>, tails: Tails, now: int)
    requires TickOne(ts, id, wakeId, active, tails, now).Ok?
    ensures var ts' := TickOne(ts, id, wakeId, active, tails, now).value;
      && ts'.db.Keys == ts.db.Keys && ts.jobs <= ts'.jobs && ts.pull <= ts'.pull
      && |ts.jobs| <= |ts'.jobs| && (!Room(active, ts.jobs) ==> ts'.jobs == ts.jobs)
      && (forall k :: k in ts'.jobs && k !in ts.jobs ==> k.0 == id)
      && (forall k :: k in ts'.pull && k !in ts.pull ==> k.0 == id)
      && (forall i :: i in ts.db && i != id ==> ts'.db[i] == ts.db[i])
  {
    if id in ts.db && !ts.db[id].deleted {
      var s := OneDecides(ts, id, wakeId, active, tails, now);
      hide TickOne, Announced, Silent, Waiting, HandedOut;
      if s.wake.Some? { AddingGrows(ts.jobs, (id, s.wake.value.generation)); }
    }
  }

  lemma AddingGrows(keys: set<Key>, k: Key)
    ensures |keys| <= |keys + {k}|
  {
    if k in keys { assert keys + {k} == keys; }
  }

  // ---------------------------------------------------------------- the whole order

  /** The order visits the subscription. */
  predicate On(order: seq<(string, string)>, id: string) {
    exists i :: 0 <= i < |order| && order[i].0 == id
  }

  lemma OnRest(order: seq<(string, string)>)
    requires order != []
    ensures forall id :: On(order, id) <==> id == order[0].0 || On(order[1..], id)
  {
    forall id | On(order, id) ensures id == order[0].0 || On(order[1..], id) {
      var i :| 0 <= i < |order| && order[i].0 == id;
      assert i > 0 ==> order[1..][i - 1].0 == id;
    }
    forall id | On(order[1..], id) ensures On(order, id) {
      var i :| 0 <= i < |order[1..]| && order[1..][i].0 == id;
      assert order[i + 1].0 == id;
    }
  }

  /** What the rest of the order does not visit stays, and a full set of jobs stays as it is. */
  lemma {:induction false} RestFrames(
    ts: TickState, order: seq<(string, string)>, active: set<Key>, tails: Tails, now: int)
    requires TickAll(ts, order, active, tails, now).Ok?
    ensures var t := TickAll(ts, order, active, tails, now).value;
      && t.db.Keys == ts.db.Keys && ts.jobs <= t.jobs && ts.pull <= t.pull
      && |ts.jobs| <= |t.jobs| && (!Room(active, ts.jobs) ==> t.jobs == ts.jobs)
      && (forall k :: k in t.jobs && k !in ts.jobs ==> On(order, k.0))
      && (forall k :: k in t.pull && k !in ts.pull ==> On(order, k.0))
      && (forall id :: id in ts.db && !On(order, id) ==> t.db[id] == ts.db[id])
    decreases |order|
  {
    hide TickOne, Room, On;
    if order != [] {
      var one := TickOne(ts, order[0].0, order[0].1, active, tails, now).value;
      OneFrames(ts, order[0].0, order[0].1, active, tails, now);
      RestFrames(one, order[1..], active, tails, now);
      OnRest(order);
    }
  }

  /** The order visits each subscription at most once. */
  predicate Once(order: seq<(string, string)>) {
    forall i, j :: 0 <= i < j < |order| ==> order[i].0 != order[j].0
  }

  /** No key of a subscription still to be visited. */
  ghost predicate Clear(ts: TickState, order: seq<(string, string)>) {
    forall i :: 0 <= i < |order| ==> NoKey(ts.jobs, order[i].0) && NoKey(ts.pull, order[i].0)
  }

  lemma NotAgain(order: seq<(string, string)>)
    requires order != [] && Once(order)
    ensures !On(order[1..], order[0].0)
  {
    assert forall i :: 0 <= i < |order[1..]| ==> order[1..][i] == order[i + 1];
  }

  lemma {:induction false} EachIssues(
    ts: TickState, order: seq<(string, string)>, active: set<Key>, tails: Tails, now: int, i: nat)
    returns (s: Subscription, sent: bool)
    requires TickAll(ts, order, active, tails, now).Ok? && i < |order| && Once(order) && Clear(ts, order)
    requires order[i].0 in ts.db
    ensures Announced(ts.db[order[i].0], s, order[i].0, order[i].1, tails, now)
    ensures var t := TickAll(ts, order, active, tails, now).value;
      && Visited(s, order[i].0, active, now, sent, t)
      && (Waiting(s, order[i].0, active, now) && s.config.kind.Webhook? && !sent ==>
            !Room(active, t.jobs) && forall j :: i < j < |order| ==> NoKey(t.jobs, order[j].0))
    decreases |order|
  {
    hide TickOne, Announced, Waiting, HandedOut, Silent, On;
    var id := order[0].0;
    var one := TickOne(ts, id, order[0].1, active, tails, now).value;
    OneFrames(ts, id, order[0].1, active, tails, now);
    var t := TickAll(ts, order, active, tails, now).value;
    if i == 0 {
      s := OneIssues(ts, id, order[0].1, active, tails, now);
      sent := Waiting(s, id, active, now) && s.config.kind.Webhook? && Room(active, ts.jobs);
      RestFrames(one, order[1..], active, tails, now);
      NotAgain(order);
      forall g: nat
        ensures ((id, g) in t.jobs <==> (id, g) in one.jobs) && ((id, g) in t.pull <==> (id, g) in one.pull)
      {
        var k: Key := (id, g);
        assert k.0 == id;
      }
    } else {
      assert order[1..][i - 1] == order[i];
      assert Clear(one, order[1..]) by {
        forall k, g: nat | 0 <= k < |order[1..]|
          ensures (order[1..][k].0, g) !in one.jobs && (order[1..][k].0, g) !in one.pull
        {
          assert order[1..][k] == order[k + 1] && NoKey(ts.jobs, order[k + 1].0) && NoKey(ts.pull, order[k + 1].0);
        }
      }
      s, sent := EachIssues(one, order[1..], active, tails, now, i - 1);
      assert forall j :: i < j < |order| ==> order[j] == order[1..][j - 1];
    }
  }

  // ---------------------------------------------------------------- the tick

  /**
   What a tick makes of a subscription it visits. A webhook that is waiting and is not
   delivered finds the sixteen places taken, and nobody after it is served either.
   */
  lemma TickOutcome(db: Database, order: seq<(string, string)>, active: set<Key>, tails: Tails, now: int, i: nat)
    returns (s: Subscription, sent: bool)
    requires Tick(db, order, active, tails, now).Ok? && Once(order) && i < |order| && order[i].0 in db
    ensures Announced(Found(db, tails, now, order[i].0), s, order[i].0, order[i].1, tails, now)
    ensures var t := Tick(db, order, active, tails, now).value;
      && Visited(s, order[i].0, active, now, sent, t)
      && (Waiting(s, order[i].0, active, now) && s.config.kind.Webhook? && !sent ==>
            |active| + |t.jobs| >= 16 && forall j :: i < j < |order| ==> NoKey(t.jobs, order[j].0))
      && (|active| <= 16 ==> |active| + |t.jobs| <= 16)
  {
    hide TickAll, RefreshSub, Announced, Waiting, Visited;
    var ts := TickState(Refresh(db, tails, now), {}, {});
    s, sent := EachIssues(ts, order, active, tails, now, i);
    SubscriptionService.TickIsBounded(ts, order, active, tails, now);
  }

  /** A subscription that is not visited is as reconciliation left it, and nothing of it is handed out. */
  lemma TickLeaves(db: Database, order: seq<(string, string)>, active: set<Key>, tails: Tails, now: int, id: string)
    requires Tick(db, order, active, tails, now).Ok? && !On(order, id)
    ensures var t := Tick(db, order, active, tails, now).value;
      && NoKey(t.jobs, id) && NoKey(t.pull, id) && t.db.Keys == db.Keys
      && (id in db ==> t.db[id] == Found(db, tails, now, id))
  {
    hide TickAll, RefreshSub, On;
    RestFrames(TickState(Refresh(db, tails, now), {}, {}), order, active, tails, now);
    var t := Tick(db, order, active, tails, now).value;
    forall g: nat ensures (id, g) !in t.jobs && (id, g) !in t.pull {
      var k: Key := (id, g);
      assert k.0 == id;
    }
  }

  lemma {:induction false} OrderAnswers(
    r: Database, ts: TickState, order: seq<(string, string)>, active: set<Key>, tails: Tails, now: int)
    requires Once(order) && r.Keys == ts.db.Keys
    requires forall i :: 0 <= i < |order| && order[i].0 in r ==> ts.db[order[i].0] == r[order[i].0]
    ensures TickAll(ts, order, active, tails, now).Err? <==>
      exists i :: 0 <= i < |order| && order[i].0 in r && Unannounced(r[order[i].0], tails) && Exhausted(r[order[i].0])
    ensures var t := TickAll(ts, order, active, tails, now); t.Err? ==> t.error == GenerationExhausted
    decreases |order|
  {
    hide TickOne, Unannounced, Exhausted;
    if order != [] {
      OneAnswers(ts, order[0].0, order[0].1, active, tails, now);
      assert forall i :: 0 < i < |order| ==> order[i] == order[1..][i - 1];
      var one := TickOne(ts, order[0].0, order[0].1, active, tails, now);
      if one.Ok? {
        OneFrames(ts, order[0].0, order[0].1, active, tails, now);
        OrderAnswers(r, one.value, order[1..], active, tails, now);
      }
    }
  }

  /** A tick fails exactly when a subscription that needs a new wake has used up its generations. */
  lemma TickAnswers(db: Database, order: seq<(string, string)>, active: set<Key>, tails: Tails, now: int)
    requires Once(order)
    ensures Tick(db, order, active, tails, now).Err? <==>
      exists i :: 0 <= i < |order| && order[i].0 in db
        && Unannounced(Found(db, tails, now, order[i].0), tails) && Exhausted(Found(db, tails, now, order[i].0))
    ensures var t := Tick(db, order, active, tails, now); t.Err? ==> t.error == GenerationExhausted
  {
    hide TickAll, RefreshSub, Unannounced, Exhausted;
    var r := Refresh(db, tails, now);
    OrderAnswers(r, TickState(r, {}, {}), order, active, tails, now);
  }

  /** A wake issued by a tick is handed out by the same tick, unless its kind waits for one of the sixteen places. */
  lemma NewWakeIsHandedOut(
    db: Database, order: seq<(string, string)>, active: set<Key>, tails: Tails, now: int, i: nat)
    requires Tick(db, order, active, tails, now).Ok? && Once(order) && i < |order| && order[i].0 in db
    requires Unannounced(Found(db, tails, now, order[i].0), tails)
    requires (order[i].0, Found(db, tails, now, order[i].0).generation + 1) !in active
    ensures var t, a := Tick(db, order, active, tails, now).value, Found(db, tails, now, order[i].0);
      var key := (order[i].0, a.generation + 1);
      && (a.config.kind.PullWake? ==> key in t.pull)
      && (a.config.kind.Webhook? ==> key in t.jobs || |active| + |t.jobs| >= 16)
  {
    var s, sent := TickOutcome(db, order, active, tails, now, i);
    var a := Found(db, tails, now, order[i].0);
    hide Tick, Refresh;
    var p :| p in a.links && BehindOn(a, tails, p);
    assert p in s.wake.value.streams && s.wake.value.streams[p].hasPending;
    assert Waiting(s, order[i].0, active, now);
  }
}
