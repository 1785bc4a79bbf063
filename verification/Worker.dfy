/**
 The delivery worker: a bounded set of webhook deliveries in flight, results waiting
 to be recorded, and ticks that hand out new ones.
 */
module Worker {
  import opened Wrappers
  import opened Subscriptions
  import opened Fencing
  import opened SubscriptionService

  /** How the execution boundary answers a job submitted to it. */
  datatype Answer =
    | Ran(outcome: SaveOutcome, jitter: int, now: int)
    | Busy
    | Halted

  /**
   `inflight` counts spawned deliveries, so a key could occur twice. `spawned` and
   `settled` are ledgers: every delivery handed out, every result recorded.
   */
  datatype State = State(
    active: set<Key>,
    inflight: multiset<Key>,
    completions: map<Key, Option<bool>>,
    spawned: multiset<Key>,
    settled: multiset<Key>)

  /** The active keys are those in flight, each once, and those waiting to be recorded, disjointly. */
  ghost predicate Partitioned(w: State) {
    && (forall k :: k in w.active <==> k in w.inflight || k in w.completions)
    && (forall k :: k in w.inflight ==> w.inflight[k] == 1 && k !in w.completions)
  }

  /** Every delivery handed out is in flight, waiting, or recorded: none is dropped or counted twice. */
  ghost predicate Balanced(w: State) {
    w.spawned == w.inflight + multiset(w.completions.Keys) + w.settled
  }

  ghost predicate Conserved(w: State) {
    Partitioned(w) && Balanced(w) && |w.active| <= MAX_DELIVERIES
  }

  // ---------------------------------------------------------------- the steps on values

  function Idle(): (w: State) {
    State({}, multiset{}, map[], multiset{}, multiset{})
  }

  /** A delivery task ended; its result waits to be recorded. */
  function Join(w: State, key: Key, result: Option<bool>): (w': State)
    requires key in w.inflight
  {
    w.(inflight := w.inflight - multiset{key}, completions := w.completions[key := result])
  }

  /** The result of `key` is on disk, or no longer matters. */
  function Settle(w: State, key: Key): (w': State) {
    w.(completions := w.completions - {key}, active := w.active - {key}, settled := w.settled + multiset{key})
  }

  function Spawn(w: State, jobs: set<Key>): (w': State) {
    w.(active := w.active + jobs, inflight := w.inflight + multiset(jobs), spawned := w.spawned + multiset(jobs))
  }

  lemma JoinConserves(w: State, key: Key, result: Option<bool>)
    requires Conserved(w) && key in w.inflight
    ensures Conserved(Join(w, key, result)) && key !in w.completions
  {
    JoinBalances(w, key, result);
    hide Balanced;
    var w' := Join(w, key, result);
    forall k ensures k in w'.inflight <==> k in w.inflight && k != key { }
  }

  lemma JoinBalances(w: State, key: Key, result: Option<bool>)
    requires Balanced(w) && key in w.inflight && key !in w.completions
    ensures Balanced(Join(w, key, result))
  {
    var w' := Join(w, key, result);
    assert w'.completions.Keys == w.completions.Keys + {key};
    KeysPlus(w.completions.Keys, key);
    assert w'.inflight + multiset{key} == w.inflight;
  }

  lemma KeysPlus(keys: set<Key>, key: Key)
    requires key !in keys
    ensures multiset(keys + {key}) == multiset(keys) + multiset{key}
  {
  }

  lemma SettleConserves(w: State, key: Key)
    requires Conserved(w) && key in w.completions
    ensures Conserved(Settle(w, key))
  {
    SettleBalances(w, key);
    hide Balanced;
  }

  lemma SettleBalances(w: State, key: Key)
    requires Balanced(w) && key in w.completions
    ensures Balanced(Settle(w, key))
  {
    var w' := Settle(w, key);
    assert w.completions.Keys == w'.completions.Keys + {key};
    KeysPlus(w'.completions.Keys, key);
  }

  lemma SpawnConserves(w: State, jobs: set<Key>)
    requires Conserved(w) && jobs !! w.active && (|w.active| + |jobs| <= MAX_DELIVERIES || jobs == {})
    ensures Conserved(Spawn(w, jobs))
  {
    SpawnPartitions(w, jobs);
    hide Partitioned;
    assert jobs == {} ==> w.active + jobs == w.active;
  }

  lemma SpawnPartitions(w: State, jobs: set<Key>)
    requires Partitioned(w) && jobs !! w.active
    ensures Partitioned(Spawn(w, jobs))
  {
    var w' := Spawn(w, jobs);
    forall k ensures w'.inflight[k] == w.inflight[k] + (if k in jobs then 1 else 0) { }
    forall k | k in w'.inflight ensures w'.inflight[k] == 1 && k !in w'.completions {
      if k in jobs { assert k !in w.active; }
    }
  }

  // ---------------------------------------------------------------- the worker beside its service

  /** How the result of a delivery is recorded; nothing happens when the boundary refused. */
  ghost function FinishOne(s: Sys, result: Option<bool>, key: Key, answer: Answer): (s': Sys) {
    if answer.Ran?
    then Step(s, FinishEvent(key.0, key.1, result, answer.jitter, answer.now, answer.outcome))
    else s
  }

  /** The result is recorded: nothing to change, or the change was saved. */
  ghost predicate Records(s: Sys, result: Option<bool>, key: Key, answer: Answer) {
    && answer.Ran?
    && (Finish(s.mem, key.0, key.1, result, answer.jitter, answer.now) == s.mem || answer.outcome.Saved?)
  }

  datatype World = World(sys: Sys, worker: State)

  /** A task ends, a waiting result is submitted, a tick asks for work, or the service does anything else. */
  datatype Event =
    | Joined(key: Key, result: Option<bool>)
    | Submitted(key: Key, answer: Answer)
    | Ticked(order: seq<(string, string)>, tails: Tails, now: int, appended: set<string>,
             first: SaveOutcome, second: SaveOutcome)
    | Served(event: Fencing.Event)

  predicate Enabled(w: World, e: Event) {
    match e
    case Joined(key, _) => key in w.worker.inflight
    case Submitted(key, _) => key in w.worker.completions
    case Ticked(order, _, _, _, _, _) => forall i, j :: 0 <= i < j < |order| ==> order[i].0 != order[j].0
    case Served(event) => OrderOk(event)
  }

  ghost function Apply(w: World, e: Event): (w': World)
    requires Enabled(w, e)
  {
    match e
    case Joined(key, result) => w.(worker := Join(w.worker, key, result))
    case Submitted(key, answer) =>
      var result := w.worker.completions[key];
      World(FinishOne(w.sys, result, key, answer),
            if Records(w.sys, result, key, answer) then Settle(w.worker, key) else w.worker)
    case Ticked(order, tails, now, appended, first, second) =>
      var r := Reconciled(w.sys, order, w.worker.active, tails, now, appended, first, second);
      World(r.0, if r.1.Some? then Spawn(w.worker, r.1.value) else w.worker)
    case Served(event) => w.(sys := Step(w.sys, event))
  }

  ghost predicate Sound(w: World) {
    Fencing.Inv(w.sys) && Conserved(w.worker)
  }

  lemma ApplyConserves(w: World, e: Event)
    requires Sound(w) && Enabled(w, e)
    ensures Sound(Apply(w, e))
  {
    hide Conserved, Fencing.Inv, Reconciled, Step, Finish;
    match e
    case Joined(key, result) => JoinConserves(w.worker, key, result);
    case Submitted(key, answer) =>
      SettleConserves(w.worker, key);
      if answer.Ran? {
        StepKeeps(w.sys, FinishEvent(key.0, key.1, w.worker.completions[key], answer.jitter, answer.now, answer.outcome));
      }
    case Ticked(order, tails, now, appended, first, second) =>
      ReconciledIsBounded(w.sys, order, w.worker.active, tails, now, appended, first, second);
      var r := Reconciled(w.sys, order, w.worker.active, tails, now, appended, first, second);
      if r.1.Some? { SpawnConserves(w.worker, r.1.value); }
    case Served(event) => StepKeeps(w.sys, event);
  }

  // ---------------------------------------------------------------- whole runs

  ghost predicate IsRun(w: World, events: seq<Event>)
    decreases |events|
  {
    events == [] || (Enabled(w, events[0]) && IsRun(Apply(w, events[0]), events[1..]))
  }

  ghost function After(w: World, events: seq<Event>): (w': World)
    requires IsRun(w, events)
    decreases |events|
  {
    if events == [] then w else After(Apply(w, events[0]), events[1..])
  }

  /**
   In every run the active keys are the disjoint union of deliveries in flight and
   unrecorded results, at most sixteen, no key is in flight twice, and every delivery
   handed out is in flight, waiting or recorded. That ticks hand out nothing active and
   no more than there is room for is proved of the tick, not assumed.
   */
  lemma {:induction false} RunConserves(w: World, events: seq<Event>)
    requires Sound(w) && IsRun(w, events)
    ensures Sound(After(w, events))
    decreases |events|
  {
    hide Sound, Enabled, Apply;
    if events != [] {
      ApplyConserves(w, events[0]);
      RunConserves(Apply(w, events[0]), events[1..]);
    }
  }

  /** A fresh worker over any service in a fenced state. */
  lemma EveryRunConserves(s: Sys, events: seq<Event>)
    requires Fencing.Inv(s) && IsRun(World(s, Idle()), events)
    ensures var w := After(World(s, Idle()), events).worker;
      && (forall k :: k in w.active <==> k in w.inflight || k in w.completions)
      && (forall k :: k in w.inflight ==> w.inflight[k] == 1 && k !in w.completions)
      && |w.active| <= MAX_DELIVERIES
      && w.spawned == w.inflight + multiset(w.completions.Keys) + w.settled
  {
    hide Fencing.Inv, IsRun, After;
    assert Conserved(Idle());
    RunConserves(World(s, Idle()), events);
  }

  /** Somewhere in the run this very result was recorded: its save succeeded or had nothing to change. */
  ghost predicate RecordedDuring(w: World, events: seq<Event>, key: Key, result: Option<bool>)
    requires IsRun(w, events)
    decreases |events|
  {
    events != [] &&
    ((events[0].Submitted? && events[0].key == key && Records(w.sys, result, key, events[0].answer))
     || RecordedDuring(Apply(w, events[0]), events[1..], key, result))
  }

  /** A waiting result is kept unchanged, and its key stays active, until it is recorded. */
  lemma {:induction false} ResultsAreKept(w: World, events: seq<Event>, key: Key)
    requires Sound(w) && IsRun(w, events) && key in w.worker.completions
    ensures RecordedDuring(w, events, key, w.worker.completions[key])
            || var w' := After(w, events).worker;
               key in w'.completions && w'.completions[key] == w.worker.completions[key] && key in w'.active
    decreases |events|
  {
    hide Balanced, Fencing.Inv, Records, FinishOne;
    if events != [] {
      ApplyConserves(w, events[0]);
      if !(events[0].Submitted? && events[0].key == key && Records(w.sys, w.worker.completions[key], key, events[0].answer)) {
        OthersKeep(w, events[0], key);
        hide Apply, Enabled;
        ResultsAreKept(Apply(w, events[0]), events[1..], key);
      }
    }
  }

  lemma OthersKeep(w: World, e: Event, key: Key)
    requires Conserved(w.worker) && Enabled(w, e) && key in w.worker.completions
    requires !(e.Submitted? && e.key == key && Records(w.sys, w.worker.completions[key], key, e.answer))
    ensures var w' := Apply(w, e).worker; key in w'.completions && w'.completions[key] == w.worker.completions[key]
  {
    hide Balanced, Reconciled, Step, Finish;
  }

  // ---------------------------------------------------------------- the loop

  class DeliveryWorker {
    const service: Service
    var running: bool
    var active: set<Key>
    var inflight: multiset<Key>
    var completions: map<Key, Option<bool>>
    ghost var spawned: multiset<Key>
    ghost var settled: multiset<Key>

    ghost function View(): (w: World) reads this, service {
      World(service.sys, State(active, inflight, completions, spawned, settled))
    }

    ghost predicate Valid() reads this, service {
      service.Valid() && Conserved(View().worker)
    }

    constructor (s: Service)
      requires s.Valid()
      ensures Valid() && service == s && running && View() == World(s.sys, Idle())
    {
      service, running, active, inflight, completions := s, true, {}, multiset{}, map[];
      spawned, settled := multiset{}, multiset{};
    }

    method JoinNext(key: Key, result: Option<bool>)
      requires Valid() && key in inflight
      modifies this
      ensures Valid() && View() == Apply(old(View()), Joined(key, result)) && running == old(running)
      ensures key !in old(completions)
    {
      hide Conserved, Fencing.Inv;
      JoinConserves(View().worker, key, result);
      inflight := inflight - multiset{key};
      completions := completions[key := result];
    }

    /** Record one waiting result; keep it when the save fails. */
    method Persist(key: Key, answer: Answer) returns (ok: bool)
      requires Valid() && key in completions && answer.Ran?
      modifies this, service
      ensures Valid() && View() == Apply(old(View()), Submitted(key, answer)) && running == old(running)
      ensures ok == Records(old(service.sys), old(completions)[key], key, answer)
      ensures completions == if ok then old(completions) - {key} else old(completions)
    {
      hide Conserved, Fencing.Inv, Step, Finish;
      ok := service.FinishDelivery(key.0, key.1, completions[key], answer.jitter, answer.now, answer.outcome);
      if ok {
        SettleConserves(View().worker, key);
        completions := completions - {key};
        active := active - {key};
        settled := settled + multiset{key};
      }
    }

    /**
     Record the waiting results one by one, `n` of them. A result leaves the queue
     exactly when its save succeeded; a busy store, a failed save or a halted boundary
     stops the loop with that result and every later one still queued.
     */
    method PersistCompletions(keys: seq<Key>, answers: seq<Answer>) returns (n: nat, stopped: Option<Answer>)
      requires Valid() && |answers| == |keys|
      requires forall i, j :: 0 <= i < j < |keys| ==> keys[i] != keys[j]
      requires forall i :: 0 <= i < |keys| ==> keys[i] in completions
      modifies this, service
      ensures Valid() && running == old(running) && n <= |keys|
      ensures forall i :: 0 <= i < n ==> keys[i] !in completions
      ensures forall i :: n <= i < |keys| ==> keys[i] in completions && completions[keys[i]] == old(completions)[keys[i]]
      ensures View() == SubmitAll(old(View()), keys, answers, if n < |keys| then n + 1 else n)
      ensures stopped == if n < |keys| && !answers[n].Ran? then Some(answers[n]) else None
    {
      hide Conserved, Fencing.Inv, Records, Apply;
      ghost var start := View();
      stopped, n := None, 0;
      while n < |keys|
        invariant 0 <= n <= |keys| && Valid() && stopped.None? && running == old(running)
        invariant View() == SubmitAll(start, keys, answers, n)
        invariant forall i :: 0 <= i < n ==> keys[i] !in completions
        invariant forall j :: n <= j < |keys| ==> keys[j] in completions && completions[keys[j]] == old(completions)[keys[j]]
      {
        ghost var before := View();
        if !answers[n].Ran? {
          RefusedChangesNothing(before, keys[n], answers[n]);
          stopped := Some(answers[n]);
          return;
        }
        var ok := Persist(keys[n], answers[n]);
        if !ok {
          return;
        }
        n := n + 1;
      }
    }

    /** Ask the service for work within the remaining room and spawn it. */
    method SpawnWork(
      order: seq<(string, string)>, tails: Tails, now: int, appended: set<string>, first: SaveOutcome, second: SaveOutcome)
      returns (jobs: set<Key>)
      requires Valid() && forall i, j :: 0 <= i < j < |order| ==> order[i].0 != order[j].0
      modifies this, service
      ensures Valid() && running == old(running)
      ensures View() == Apply(old(View()), Ticked(order, tails, now, appended, first, second))
      ensures OnePerId(jobs) && jobs !! old(active) && active == old(active) + jobs
    {
      hide Conserved, Fencing.Inv, OnePerId, Reconciled, Apply;
      TickedEffect(View(), order, tails, now, appended, first, second);
      var work := service.Reconcile(order, active, tails, now, appended, first, second);
      jobs := if work.Some? then work.value else {};
      EmptyIsOnePerId();
      SpawnConserves(View().worker, jobs);
      active := active + jobs;
      inflight := inflight + multiset(jobs);
      spawned := spawned + multiset(jobs);
    }

    /** One interval tick: record results, then ask for work unless the boundary refused. */
    method IntervalTick(
      keys: seq<Key>, answers: seq<Answer>, boundary: Answer,
      order: seq<(string, string)>, tails: Tails, now: int,
      appended: set<string>, first: SaveOutcome, second: SaveOutcome)
      returns (n: nat, jobs: set<Key>, ghost middle: World)
      requires Valid() && running && |answers| == |keys|
      requires forall i, j :: 0 <= i < j < |keys| ==> keys[i] != keys[j]
      requires forall i :: 0 <= i < |keys| ==> keys[i] in completions
      requires forall i, j :: 0 <= i < j < |order| ==> order[i].0 != order[j].0
      modifies this, service
      ensures Valid() && n <= |keys| && OnePerId(jobs)
      ensures middle == SubmitAll(old(View()), keys, answers, if n < |keys| then n + 1 else n)
      ensures var refused := (n < |keys| && !answers[n].Ran?) || !boundary.Ran?;
        && (refused ==> jobs == {} && View() == middle)
        && (!refused ==> running && View() == Apply(middle, Ticked(order, tails, now, appended, first, second)))
      ensures !running ==> (n < |keys| && answers[n].Halted?) || boundary.Halted?
    {
      hide Conserved, Fencing.Inv, OnePerId, Apply, SubmitAll;
      jobs := {};
      EmptyIsOnePerId();
      var stopped;
      n, stopped := PersistCompletions(keys, answers);
      middle := View();
      if stopped.Some? {
        running := stopped.value.Busy?;
      } else if !boundary.Ran? {
        running := boundary.Busy?;
      } else {
        jobs := SpawnWork(order, tails, now, appended, first, second);
      }
    }
  }

  ghost function SubmitOne(w: World, key: Key, answer: Answer): (w': World) {
    if key in w.worker.completions then Apply(w, Submitted(key, answer)) else w
  }

  /** The world after the first `n` results were submitted in order. */
  ghost function SubmitAll(w: World, keys: seq<Key>, answers: seq<Answer>, n: nat): (w': World)
    requires n <= |keys| == |answers|
  {
    if n == 0 then w else SubmitOne(SubmitAll(w, keys, answers, n - 1), keys[n - 1], answers[n - 1])
  }

  lemma RefusedChangesNothing(w: World, key: Key, answer: Answer)
    requires key in w.worker.completions && !answer.Ran?
    ensures Apply(w, Submitted(key, answer)) == w
  {
  }

  lemma TickedEffect(
    w: World, order: seq<(string, string)>, tails: Tails, now: int, appended: set<string>,
    first: SaveOutcome, second: SaveOutcome)
    requires Enabled(w, Ticked(order, tails, now, appended, first, second))
    ensures var r := Reconciled(w.sys, order, w.worker.active, tails, now, appended, first, second);
      Apply(w, Ticked(order, tails, now, appended, first, second))
        == World(r.0, Spawn(w.worker, if r.1.Some? then r.1.value else {}))
  {
    SpawnNothing(w.worker);
  }

  lemma SpawnNothing(w: State)
    ensures Spawn(w, {}) == w
  {
    assert w.active + {} == w.active;
    assert w.inflight + multiset({}) == w.inflight && w.spawned + multiset({}) == w.spawned;
  }
}
