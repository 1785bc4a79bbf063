/** Idempotent producers on the server: what was accepted, over whole runs. */
module ProducerRuns {
  import opened Wrappers
  import opened Streams
  import opened Stores
  import opened StoreInvariant
  import opened StoreRuns

  /** An accepted (epoch, sequence) pair. */
  type Pair = (nat, nat)

  predicate Before(a: Pair, b: Pair) {
    a.0 < b.0 || (a.0 == b.0 && a.1 < b.1)
  }

  /** The next sequence of the same epoch, or the first of a later one. */
  predicate Follows(a: Pair, b: Pair) {
    (b.0 == a.0 && b.1 == a.1 + 1) || (b.0 > a.0 && b.1 == 0)
  }

  predicate Chained(log: seq<Pair>) {
    && (log != [] ==> log[0].1 == 0)
    && (forall i :: 0 < i < |log| ==> Follows(log[i - 1], log[i]))
  }

  // ---------------------------------------------------------------- what a chained log means

  /** Accepted pairs strictly increase. */
  lemma {:induction false} ChainedIncreases(log: seq<Pair>, i: nat, j: nat)
    requires Chained(log) && i < j < |log|
    ensures Before(log[i], log[j])
    decreases j
  {
    assert Follows(log[j - 1], log[j]);
    if i < j - 1 {
      ChainedIncreases(log, i, j - 1);
    }
  }

  /** The sequences accepted in one epoch start at 0 and leave no gap. */
  lemma {:induction false} ChainedHasNoGaps(log: seq<Pair>, i: nat, q: nat)
    requires Chained(log) && i < |log| && q <= log[i].1
    ensures exists k :: 0 <= k <= i && log[k] == (log[i].0, q)
    decreases i
  {
    if q == log[i].1 {
      assert log[i] == (log[i].0, q);
    } else {
      assert i > 0 && Follows(log[i - 1], log[i]);
      ChainedHasNoGaps(log, i - 1, q);
    }
  }

  // ---------------------------------------------------------------- the log of one producer on one stream

  ghost function StateOf(s: Store, name: string, id: string): (p: Option<Producer>) {
    if name in s.streams then ProducerOf(s.streams[name].producers, id) else None
  }

  predicate Concerns(op: Op, name: string, id: string) {
    op.ProducerOp? && op.name == name && op.producer.id == id
  }

  /** Accepted pairs since the producer's state was last absent. */
  ghost function NextLog(s: Store, op: Op, now: int, name: string, id: string, log: seq<Pair>): (log': seq<Pair>) {
    var o := Step(s, op, now);
    var st := StateOf(s, name, id);
    var kept := if st.Some? && Retained(st.value, now) then log else [];
    if Concerns(op, name, id) && o.reply.Ok? && o.reply.value.Accepted? then
      kept + [(op.producer.epoch, op.producer.sequence)]
    else if StateOf(o.store, name, id).Some? && !(Reborn(op, o) && Touched(op) == Some(name)) then log
    else []
  }

  /** The stored producer state is the last pair of a chained log. */
  ghost predicate Logged(s: Store, name: string, id: string, log: seq<Pair>) {
    var st := StateOf(s, name, id);
    && Chained(log)
    && (st.Some? ==> log != [] && log[|log| - 1] == (st.value.epoch, st.value.lastSeq))
    && (st.None? ==> log == [])
  }

  // ---------------------------------------------------------------- one step

  lemma ChainedSnoc(log: seq<Pair>, p: Pair)
    requires Chained(log) && (if log == [] then p.1 == 0 else Follows(log[|log| - 1], p))
    ensures Chained(log + [p])
  {
  }

  /** An accepted request names the successor of the stored pair. */
  lemma AcceptFollows(st: Option<Producer>, p: ProducerHeaders, closed: bool)
    requires CheckProducer(st, p, closed).Accept?
    ensures if st.None? then p.sequence == 0
            else Follows((st.value.epoch, st.value.lastSeq), (p.epoch, p.sequence))
  {
  }

  lemma ProducerStep(s: Store, op: Op, now: int, name: string, id: string, log: seq<Pair>)
    requires op.ProducerOp? && op.name == name && Logged(s, name, id, log)
    ensures Logged(Step(s, op, now).store, name, id, NextLog(s, op, now, name, id, log))
  {
    hide CheckAccess, RenewTtl, ValidateSeq, SameContentType, CheckProducer, Retained;
    var o := Step(s, op, now);
    if name in s.streams && CheckAccess(s.streams[name].config, s.streams[name].state, now).None? {
      var e := s.streams[name];
      var st := ProducerOf(PruneStale(e.producers, now), id);
      var kept := if st.Some? then log else [];
      if Concerns(op, name, id) && o.reply.Ok? && o.reply.value.Accepted? {
        AcceptFollows(st, op.producer, e.closed);
        ChainedSnoc(kept, (op.producer.epoch, op.producer.sequence));
      } else {
        assert StateOf(o.store, name, id) == st;
      }
    }
  }

  /** A batch append leaves producer state alone. */
  lemma AppendStep(s: Store, op: Op, now: int, id: string)
    requires op.AppendOp?
    ensures StateOf(Step(s, op, now).store, op.name, id) == StateOf(s, op.name, id)
  {
  }

  /** A create or replace that makes no new entry either changes nothing or removes the stream. */
  lemma QuietCreate(s: Store, op: Op, t: int, now: int)
    requires Inv(s, t) && t <= now
    requires op.CreateRootOp? || op.CreateForkOp? || op.ReplaceOp?
    requires !Reborn(op, Step(s, op, now))
    ensures var o := Step(s, op, now); o.store == s || op.name !in o.store.streams
  {
    hide WellStamped, Cascade;
    if op.name in s.streams && s.streams[op.name].refCount == 0 {
      SameKeeps(s, t, now, None);
      RemoveKeeps(s, op.name, now);
    }
  }

  lemma LogStep(s: Store, op: Op, t: int, now: int, name: string, id: string, log: seq<Pair>)
    requires Inv(s, t) && t <= now && Admissible(s, op, now) && Logged(s, name, id, log)
    ensures Logged(Step(s, op, now).store, name, id, NextLog(s, op, now, name, id, log))
  {
    hide Holds, Step, Chained;
    EmptyIsChained();
    var o := Step(s, op, now);
    if op.ProducerOp? && op.name == name {
      ProducerStep(s, op, now, name, id, log);
    } else if !(Reborn(op, o) && Touched(op) == Some(name)) && name in o.store.streams {
      assert StateOf(o.store, name, id) == StateOf(s, name, id) by { OtherStep(s, op, t, now, name, id); }
    } else if Reborn(op, o) && Touched(op) == Some(name) {
      RebornHasNoProducers(s, op, now, id);
    }
  }

  lemma EmptyIsChained()
    ensures Chained([])
  {
  }

  lemma OtherStep(s: Store, op: Op, t: int, now: int, name: string, id: string)
    requires Inv(s, t) && t <= now && Admissible(s, op, now)
    requires !(op.ProducerOp? && op.name == name)
    requires var o := Step(s, op, now); !(Reborn(op, o) && Touched(op) == Some(name)) && name in o.store.streams
    ensures StateOf(Step(s, op, now).store, name, id) == StateOf(s, name, id)
  {
    hide Holds, Step;
    var o := Step(s, op, now);
    if Touched(op) != Some(name) {
      StepKeeps(s, op, t, now);
      assert Continues(s.streams[name], o.store.streams[name], false);
    } else if op.AppendOp? {
      AppendStep(s, op, now, id);
    } else {
      QuietCreate(s, op, t, now);
    }
  }

  lemma RebornHasNoProducers(s: Store, op: Op, now: int, id: string)
    requires Touched(op).Some? && Reborn(op, Step(s, op, now))
    ensures StateOf(Step(s, op, now).store, Touched(op).value, id) == None
  {
    hide Cascade, Stamp, PayloadBytes, EndByte, Expired, SameConfig, Resolve, CheckProducer, CheckAccess;
  }

  // ---------------------------------------------------------------- whole runs

  ghost function RunLog(s: Store, events: seq<Event>, name: string, id: string, log: seq<Pair>): (log': seq<Pair>)
    decreases |events|
  {
    if events == [] then log
    else
      var e := events[0];
      RunLog(Step(s, e.op, e.now).store, events[1..], name, id, NextLog(s, e.op, e.now, name, id, log))
  }

  /** In every run the accepted pairs are chained and end at the stored state. */
  lemma {:induction false} RunLogged(s: Store, t: int, events: seq<Event>, name: string, id: string, log: seq<Pair>)
    requires Inv(s, t) && Timely(s, t, events) && Logged(s, name, id, log)
    ensures Logged(Run(s, events), name, id, RunLog(s, events, name, id, log))
    decreases |events|
  {
    hide Holds, Logged, Step, NextLog;
    if events != [] {
      var e := events[0];
      StepKeeps(s, e.op, t, e.now);
      LogStep(s, e.op, t, e.now, name, id, log);
      RunLogged(Step(s, e.op, e.now).store, e.now, events[1..], name, id, NextLog(s, e.op, e.now, name, id, log));
    }
  }

  /** Every logged pair is at most the stored one. */
  lemma LoggedAtMostLast(log: seq<Pair>, p: Pair)
    requires Chained(log) && p in log
    ensures p == log[|log| - 1] || Before(p, log[|log| - 1])
  {
    var i :| 0 <= i < |log| && log[i] == p;
    if i < |log| - 1 {
      ChainedIncreases(log, i, |log| - 1);
    }
  }

  /**
   Sending any accepted pair again, on an open or a closed stream, is answered as a
   duplicate or as fenced, and changes neither records, tail, closed flag nor bytes.
   */
  lemma ResubmissionIsHarmless(s: Store, op: Op, now: int, name: string, id: string, log: seq<Pair>)
    requires Logged(s, name, id, log) && Concerns(op, name, id)
    requires (op.producer.epoch, op.producer.sequence) in log
    requires StateOf(s, name, id).Some? && Retained(StateOf(s, name, id).value, now)
    requires CheckAccess(s.streams[name].config, s.streams[name].state, now).None?
    requires op.records == [] || SameContentType(s.streams[name].config.contentType, op.contentType)
    ensures var o := Step(s, op, now);
      && (o.reply.Ok? ==> o.reply.value.DuplicateOf?)
      && (o.reply.Err? ==> o.reply.error.EpochFenced?)
      && name in o.store.streams && o.store.total == s.total
      && o.store.streams[name] == s.streams[name].(producers := o.store.streams[name].producers)
      && StateOf(o.store, name, id) == StateOf(s, name, id)
  {
    LoggedAtMostLast(log, (op.producer.epoch, op.producer.sequence));
  }

  /**
   An accepted pair sent again passes the sequence check exactly when the producer's
   state has idled out, the pair is the first of an epoch and the stream is open.
   */
  lemma ResubmissionAcceptedIff(s: Store, p: ProducerHeaders, now: int, name: string, log: seq<Pair>)
    requires Logged(s, name, p.id, log) && (p.epoch, p.sequence) in log && name in s.streams
    ensures StateOf(s, name, p.id).Some?
    ensures var e := s.streams[name];
      CheckProducer(ProducerOf(PruneStale(e.producers, now), p.id), p, e.closed).Accept? <==>
      !Retained(StateOf(s, name, p.id).value, now) && p.sequence == 0 && !e.closed
  {
    LoggedAtMostLast(log, (p.epoch, p.sequence));
  }
}
