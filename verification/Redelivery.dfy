/** How the result of a delivery is recorded, and when the same wake is delivered again. */
module Redelivery {
  import opened Wrappers
  import opened Subscriptions
  import opened WakeOutcomes
  import opened TickOutcomes
  import Fencing
  import Lex

  // ---------------------------------------------------------------- recording a result

  /** The wake a result speaks of is still there, its lease unbroken. */
  predicate Live(db: Database, id: string, g: nat, now: int) {
    && id in db && !db[id].deleted && db[id].wake.Some? && db[id].wake.value.generation == g
    && !(db[id].wake.value.leaseUntil.Some? && db[id].wake.value.leaseUntil.value <= now)
  }

  /** One second, doubled with every failure in a row, never more than a minute. */
  function Backoff(attempts: nat): (d: int) {
    if attempts < 6 then [1_000, 2_000, 4_000, 8_000, 16_000, 32_000][attempts] else 60_000
  }

  lemma BackoffIs(attempts: nat)
    ensures RetryDelay(attempts) == Backoff(attempts) && Backoff(attempts) % 1_000 == 0
  {
    assert Pow2(6) == 64 && Pow2(5) == 32 && Pow2(4) == 16 && Pow2(3) == 8 && Pow2(2) == 4 && Pow2(1) == 2;
  }

  /** The greater of two offsets. */
  predicate Greatest(m: string, a: string, b: string) {
    (m == a || m == b) && Lex.AtMost(a, m) && Lex.AtMost(b, m)
  }

  /**
   The result of a webhook delivery: a stale one changes nothing; a failure postpones the
   wake by the backoff and its jitter; a success marks it delivered, and `done` in the
   answer also acknowledges what the wake reported and clears it.
   */
  lemma FinishOutcome(db: Database, id: string, g: nat, result: Option<bool>, jitter: int, now: int)
    ensures var r := Finish(db, id, g, result, jitter, now);
      && (!Live(db, id, g, now) ==> r == db)
      && (Live(db, id, g, now) ==>
            var a := db[id];
            && r.Keys == db.Keys && r == db[id := r[id]]
            && (result.None? ==>
                  var d := Backoff(a.attempts);
                  r[id] == a.(failed := true, attempts := a.attempts + 1, nextAttemptAt := now + d + d * jitter / 1_000))
            && (result == Some(false) ==>
                  r[id] == a.(wake := Some(a.wake.value.(delivered := true)), failed := false, attempts := 0))
            && (result == Some(true) ==>
                  && r[id] == a.(links := r[id].links, wake := None, failed := false, attempts := 0, nextAttemptAt := now)
                  && r[id].links.Keys == a.links.Keys
                  && forall p :: p in a.links ==>
                       && r[id].links[p].explicit == a.links[p].explicit
                       && if p !in a.wake.value.streams then r[id].links[p] == a.links[p]
                          else Greatest(r[id].links[p].acked, a.links[p].acked, a.wake.value.streams[p].tail)))
  {
    if Live(db, id, g, now) {
      var a := db[id];
      BackoffIs(a.attempts);
      var d := Backoff(a.attempts);
      assert d * jitter / 1_000 == d / 1_000 * jitter by { Exact(d, jitter); }
      hide RetryDelay, Backoff;
      forall p | p in a.links && p in a.wake.value.streams
        ensures Greatest(Lex.Max(a.links[p].acked, a.wake.value.streams[p].tail),
                         a.links[p].acked, a.wake.value.streams[p].tail)
      {
        Lex.MaxBounds(a.links[p].acked, a.wake.value.streams[p].tail);
      }
    }
  }

  lemma Exact(d: int, jitter: int)
    requires d % 1_000 == 0
    ensures d * jitter / 1_000 == d / 1_000 * jitter
  {
    var q := d / 1_000;
    assert d * jitter == (q * jitter) * 1_000;
  }

  /** A publication that was appended delivers the wake it spoke of, and no other; one that failed is due again in a second. */
  lemma MarkOutcome(db: Database, marks: map<string, (nat, bool)>, now: int, id: string)
    requires id in db
    ensures MarkAll(db, marks, now).Keys == db.Keys
    ensures var a, b := db[id], MarkAll(db, marks, now)[id];
      && (id !in marks ==> b == a)
      && (id in marks && !marks[id].1 ==> b == a.(failed := true, nextAttemptAt := now + 1_000))
      && (id in marks && marks[id].1 ==>
            && b == a.(wake := b.wake, failed := false) && b.wake.Some? == a.wake.Some?
            && (a.wake.Some? ==> b.wake.value == a.wake.value.(delivered := b.wake.value.delivered))
            && (a.wake.Some? ==>
                  (b.wake.value.delivered <==> a.wake.value.delivered || a.wake.value.generation == marks[id].0)))
  {
  }

  // ---------------------------------------------------------------- again

  /** What a tick makes of a subscription that already has the wake of generation `g`. */
  lemma NextTick(
    db: Database, g: nat, order: seq<(string, string)>, j: nat, active: set<Key>, tails: Tails, now: int)
    requires Tick(db, order, active, tails, now).Ok? && Once(order) && j < |order| && order[j].0 in db
    requires var a := db[order[j].0];
      Fencing.WellFormed(a) && !a.deleted && a.wake.Some? && a.wake.value.generation == g
    ensures var t, id, a := Tick(db, order, active, tails, now).value, order[j].0, db[order[j].0];
      var again := !LeaseGone(a, now) && !a.wake.value.delivered && a.nextAttemptAt <= now && (id, g) !in active;
      && ((id, g) in t.pull <==> again && a.config.kind.PullWake? && !Silent(a.wake.value))
      && ((id, g) in t.jobs ==> again && a.config.kind.Webhook?)
      && (again && a.config.kind.Webhook? ==> (id, g) in t.jobs || |active| + |t.jobs| >= 16)
  {
    ReconcileOutcome(db, tails, now, order[j].0);
    var s, sent := TickOutcome(db, order, active, tails, now, j);
    hide Tick, Refresh, Behind, Reports, WakeOutcomes.Covered, Silent;
  }

  /** What was handed out, as the tick leaves it. */
  lemma HandedOutIs(
    db: Database, g: nat, order: seq<(string, string)>, i: nat, active: set<Key>, tails: Tails, now: int)
    requires Fencing.AllWellFormed(db) && Tick(db, order, active, tails, now).Ok? && Once(order)
    requires i < |order| && order[i].0 in db
    requires var t := Tick(db, order, active, tails, now).value; (order[i].0, g) in t.pull + t.jobs
    ensures var t := Tick(db, order, active, tails, now).value;
      && order[i].0 in t.db
      && var a := t.db[order[i].0];
      && Fencing.WellFormed(a) && !a.deleted && a.wake.Some? && a.wake.value.generation == g && !a.wake.value.delivered
      && a.config == db[order[i].0].config
      && ((order[i].0, g) in t.pull ==> a.config.kind.PullWake? && a.nextAttemptAt <= now && !Silent(a.wake.value))
      && ((order[i].0, g) in t.jobs ==>
            && a.config.kind.Webhook? && a.nextAttemptAt == now + 6_000 && !a.failed
            && a.wake.value.leaseUntil == Some(now + a.config.leaseTtl))
  {
    Fencing.TickProposes(db, order, active, tails, now);
    ReconcileOutcome(db, tails, now, order[i].0);
    var s, sent := TickOutcome(db, order, active, tails, now, i);
    hide Tick, Announced, Fencing.Proposes, Fencing.WellFormed, Silent;
  }

  /**
   A wake published to its wake stream is published again by a later tick exactly when
   the append had failed and a second has passed.
   */
  lemma RepublishedIff(
    db: Database, g: nat, order: seq<(string, string)>, i: nat, active: set<Key>, tails: Tails, now: int,
    marks: map<string, (nat, bool)>,
    again: seq<(string, string)>, j: nat, busy: set<Key>, laterTails: Tails, later: int)
    requires Fencing.AllWellFormed(db) && Tick(db, order, active, tails, now).Ok?
    requires Once(order) && Once(again) && i < |order| && j < |again| && order[i].0 == again[j].0 && order[i].0 in db
    requires (order[i].0, g) in Tick(db, order, active, tails, now).value.pull
    requires order[i].0 in marks && marks[order[i].0].0 == g
    requires Tick(MarkAll(Tick(db, order, active, tails, now).value.db, marks, now), again, busy, laterTails, later).Ok?
    ensures var db' := MarkAll(Tick(db, order, active, tails, now).value.db, marks, now);
      (order[i].0, g) in Tick(db', again, busy, laterTails, later).value.pull <==>
        !marks[order[i].0].1 && later >= now + 1_000 && (order[i].0, g) !in busy
  {
    HandedOutIs(db, g, order, i, active, tails, now);
    var db' := MarkAll(Tick(db, order, active, tails, now).value.db, marks, now);
    hide Tick, Silent;
    NextTick(db', g, again, j, busy, laterTails, later);
  }

  /**
   A webhook delivery whose result never comes is handed out again from six seconds on
   and while its lease lasts, as soon as there is room; afterwards the wake is gone.
   */
  lemma RedeliveredIff(
    db: Database, g: nat, order: seq<(string, string)>, i: nat, active: set<Key>, tails: Tails, now: int,
    again: seq<(string, string)>, j: nat, busy: set<Key>, laterTails: Tails, later: int)
    requires Fencing.AllWellFormed(db) && Tick(db, order, active, tails, now).Ok?
    requires Once(order) && Once(again) && i < |order| && j < |again| && order[i].0 == again[j].0 && order[i].0 in db
    requires (order[i].0, g) in Tick(db, order, active, tails, now).value.jobs
    requires Tick(Tick(db, order, active, tails, now).value.db, again, busy, laterTails, later).Ok?
    ensures var t := Tick(Tick(db, order, active, tails, now).value.db, again, busy, laterTails, later).value;
      var due := now + 6_000 <= later < now + db[order[i].0].config.leaseTtl && (order[i].0, g) !in busy;
      && ((order[i].0, g) in t.jobs ==> due)
      && (due ==> (order[i].0, g) in t.jobs || |busy| + |t.jobs| >= 16)
  {
    HandedOutIs(db, g, order, i, active, tails, now);
    hide Tick, Silent;
    NextTick(Tick(db, order, active, tails, now).value.db, g, again, j, busy, laterTails, later);
  }

  /** A delivery that failed is retried when its backoff is over, as soon as there is room, and however long ago its lease ended. */
  lemma RetriedIff(
    db: Database, id: string, g: nat, jitter: int, now: int,
    order: seq<(string, string)>, j: nat, active: set<Key>, tails: Tails, later: int)
    requires Live(db, id, g, now) && Fencing.WellFormed(db[id]) && db[id].config.kind.Webhook?
    requires !db[id].wake.value.delivered
    requires Once(order) && j < |order| && order[j].0 == id
    requires Tick(Finish(db, id, g, None, jitter, now), order, active, tails, later).Ok?
    ensures var t, d := Tick(Finish(db, id, g, None, jitter, now), order, active, tails, later).value,
                        Backoff(db[id].attempts);
      var due := now + d + d * jitter / 1_000 <= later && (id, g) !in active;
      && ((id, g) in t.jobs ==> due)
      && (due ==> (id, g) in t.jobs || |active| + |t.jobs| >= 16)
  {
    FinishOutcome(db, id, g, None, jitter, now);
    hide Finish, Tick, Backoff, Silent;
    NextTick(Finish(db, id, g, None, jitter, now), g, order, j, active, tails, later);
  }
}
