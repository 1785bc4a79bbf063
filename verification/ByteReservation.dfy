/**
 The global byte counter under concurrency. An append looks its stream up, then locks
 it, checks access, reserves bytes, and settles. In between streams expire, are deleted,
 gathered and removed, replaced, and renewed by reads that captured them earlier.
 */
module ByteReservation {
  import opened Stores

  /** A stream object; it outlives its place in the map while an append or a read still holds it. */
  datatype Object = Object(bytes: nat, linked: bool, expired: bool, tombstone: bool)

  /** `Reserved` also holds the stream's write lock. */
  datatype Appender = Idle | Holding(stream: nat) | Reserved(stream: nat, bytes: nat)

  /** A read of a fork with a sliding deadline; after the capture it holds no lock. */
  datatype Reader = Away | Found(stream: nat) | Captured(stream: nat)

  /**
   `gathered` holds what a sweep, or a create over an expired path, has found expired and
   not yet removed; it has the map locked meanwhile. `leaked` counts bytes committed to
   streams that were no longer in the map.
   */
  datatype World = World(
    total: nat,
    limit: nat,
    maxStream: nat,
    objects: map<nat, Object>,
    appenders: map<nat, Appender>,
    readers: map<nat, Reader>,
    gathered: set<nat>,
    leaked: nat)

  datatype Event =
    | Create(stream: nat, bytes: nat)
    | Replace(stream: nat, bytes: nat)
    | Lookup(appender: nat, stream: nat)
    | Reserve(appender: nat, bytes: nat)
    | Settle(appender: nat)
    | Find(reader: nat, stream: nat)
    | Capture(reader: nat)
    | Renew(reader: nat)
    | Expire(stream: nat)
    | Bury(stream: nat)
    | Delete(stream: nat)
    | Gather(stream: nat)
    | Visit(stream: nat)
    | Cascade(stream: nat)

  predicate Locked(w: World, stream: nat) {
    exists a :: a in w.appenders && w.appenders[a].Reserved? && w.appenders[a].stream == stream
  }

  predicate Linked(w: World, stream: nat) {
    stream in w.objects && w.objects[stream].linked
  }

  /** Neither expired nor a tombstone: the access check passes. */
  predicate Open(o: Object) { !o.expired && !o.tombstone }

  function Status(w: World, a: nat): (s: Appender) {
    if a in w.appenders then w.appenders[a] else Idle
  }

  function Reading(w: World, r: nat): (s: Reader) {
    if r in w.readers then w.readers[r] else Away
  }

  /** A stream of the map that nobody has locked. */
  predicate Ready(w: World, stream: nat) { Linked(w, stream) && !Locked(w, stream) }

  predicate Enabled(w: World, e: Event) {
    match e
    case Create(x, _) => x !in w.objects && w.gathered == {}
    case Replace(x, _) => Ready(w, x) && w.gathered == {}
    case Lookup(a, x) => Status(w, a).Idle? && Linked(w, x) && w.gathered == {}
    case Reserve(a, _) =>
      Status(w, a).Holding? && Status(w, a).stream in w.objects && !Locked(w, Status(w, a).stream)
    case Settle(a) => Status(w, a).Reserved? && Status(w, a).stream in w.objects
    case Find(r, x) => Reading(w, r).Away? && Linked(w, x) && w.gathered == {}
    case Capture(r) => Reading(w, r).Found? && Reading(w, r).stream in w.objects && !Locked(w, Reading(w, r).stream)
    case Renew(r) => Reading(w, r).Captured? && Reading(w, r).stream in w.objects && !Locked(w, Reading(w, r).stream)
    case Expire(x) => x in w.objects
    case Bury(x) => Ready(w, x)
    case Delete(x) => Ready(w, x) && !w.objects[x].tombstone && w.gathered == {}
    case Gather(x) => Ready(w, x) && w.objects[x].expired
    case Visit(x) => Ready(w, x) && x in w.gathered
    case Cascade(x) => Ready(w, x) && w.objects[x].tombstone
  }

  predicate Fits(w: World, bytes: nat) { w.total + bytes <= w.limit }

  function Put(w: World, x: nat, o: Object): (w': World) { w.(objects := w.objects[x := o]) }

  /** Take the object out of the map and its bytes out of the counter. */
  function Unlink(w: World, x: nat): (w': World)
    requires x in w.objects
  {
    Put(w, x, w.objects[x].(linked := false)).(total := SatSub(w.total, w.objects[x].bytes), gathered := w.gathered - {x})
  }

  function Next(w: World, e: Event): (w': World)
    requires Enabled(w, e)
  {
    match e
    case Create(x, n) =>
      if Fits(w, n) && n <= w.maxStream then Put(w, x, Object(n, true, false, false)).(total := w.total + n) else w
    case Replace(x, n) =>
      if Fits(w, n) && n <= w.maxStream
      then Put(w, x, Object(n, true, false, false)).(total := SatSub(w.total + n, w.objects[x].bytes))
      else w
    case Lookup(a, x) => w.(appenders := w.appenders[a := Holding(x)])
    case Reserve(a, n) =>
      if Open(w.objects[Status(w, a).stream]) && Fits(w, n)
      then w.(total := w.total + n, appenders := w.appenders[a := Reserved(Status(w, a).stream, n)])
      else w.(appenders := w.appenders[a := Idle])
    case Settle(a) =>
      var x, n := Status(w, a).stream, Status(w, a).bytes;
      var w1 := w.(appenders := w.appenders[a := Idle]);
      var o := w.objects[x];
      if o.bytes + n > w.maxStream then w1.(total := SatSub(w.total, n))
      else Put(w1, x, o.(bytes := o.bytes + n)).(leaked := if o.linked then w.leaked else w.leaked + n)
    case Find(r, x) => w.(readers := w.readers[r := Found(x)])
    case Capture(r) =>
      var x := Reading(w, r).stream;
      w.(readers := w.readers[r := if Open(w.objects[x]) then Captured(x) else Away])
    case Renew(r) =>
      var x := Reading(w, r).stream;
      Put(w, x, w.objects[x].(expired := false)).(readers := w.readers[r := Away])
    case Expire(x) => Put(w, x, w.objects[x].(expired := true))
    case Bury(x) => Put(w, x, w.objects[x].(tombstone := true)).(gathered := w.gathered - {x})
    case Delete(x) => Unlink(w, x)
    case Gather(x) => w.(gathered := w.gathered + {x})
    case Visit(x) => Unlink(w, x)
    case Cascade(x) => Unlink(w, x)
  }

  // ---------------------------------------------------------------- sums

  ghost function Sum(m: map<nat, nat>): (n: nat)
    decreases |m|
  {
    if m == map[] then 0
    else
      var k :| k in m;
      m[k] + Sum(m - {k})
  }

  lemma {:induction false} SumWithout(m: map<nat, nat>, k: nat)
    requires k in m
    ensures Sum(m) == m[k] + Sum(m - {k})
    decreases |m|
  {
    var j :| j in m && Sum(m) == m[j] + Sum(m - {j});
    if j != k {
      SumWithout(m - {j}, k);
      SumWithout(m - {k}, j);
      assert m - {j} - {k} == m - {k} - {j};
    }
  }

  function At(m: map<nat, nat>, k: nat): (n: nat) { if k in m then m[k] else 0 }

  lemma SumUpdate(m: map<nat, nat>, k: nat, v: nat)
    ensures Sum(m[k := v]) == Sum(m) - At(m, k) + v && At(m, k) <= Sum(m)
  {
    SumWithout(m[k := v], k);
    assert m[k := v] - {k} == m - {k};
    if k in m { SumWithout(m, k); } else { assert m - {k} == m; }
  }

  function Weight(o: Object): (n: nat) { if o.linked then o.bytes else 0 }

  function Outstanding(a: Appender): (n: nat) { if a.Reserved? then a.bytes else 0 }

  function LiveBytes(objects: map<nat, Object>): (m: map<nat, nat>) {
    map x | x in objects :: Weight(objects[x])
  }

  function Reservations(appenders: map<nat, Appender>): (m: map<nat, nat>) {
    map a | a in appenders :: Outstanding(appenders[a])
  }

  lemma LiveUpdate(objects: map<nat, Object>, x: nat, o: Object)
    ensures Sum(LiveBytes(objects[x := o])) == Sum(LiveBytes(objects)) - At(LiveBytes(objects), x) + Weight(o)
    ensures At(LiveBytes(objects), x) <= Sum(LiveBytes(objects))
  {
    SumUpdate(LiveBytes(objects), x, Weight(o));
    assert LiveBytes(objects[x := o]) == LiveBytes(objects)[x := Weight(o)];
  }

  lemma ReservationUpdate(appenders: map<nat, Appender>, a: nat, s: Appender)
    ensures Sum(Reservations(appenders[a := s])) == Sum(Reservations(appenders)) - At(Reservations(appenders), a) + Outstanding(s)
    ensures At(Reservations(appenders), a) <= Sum(Reservations(appenders))
  {
    SumUpdate(Reservations(appenders), a, Outstanding(s));
    assert Reservations(appenders[a := s]) == Reservations(appenders)[a := Outstanding(s)];
  }

  // ---------------------------------------------------------------- the account

  ghost predicate Accounted(w: World) {
    && w.total == Sum(LiveBytes(w.objects)) + Sum(Reservations(w.appenders)) + w.leaked
    && w.total <= w.limit
    && (forall x :: x in w.objects ==> w.objects[x].bytes <= w.maxStream)
    && (forall a :: a in w.appenders && !w.appenders[a].Idle? ==> w.appenders[a].stream in w.objects)
  }

  /** The counter is exactly live payload plus outstanding reservations. */
  ghost predicate Exact(w: World) {
    w.total == Sum(LiveBytes(w.objects)) + Sum(Reservations(w.appenders))
  }

  /** Bytes this event commits to a stream that has left the map. */
  function Stray(w: World, e: Event): (n: nat)
    requires Enabled(w, e)
  {
    if e.Settle? then
      var x, n := Status(w, e.appender).stream, Status(w, e.appender).bytes;
      if w.objects[x].linked || w.objects[x].bytes + n > w.maxStream then 0 else n
    else 0
  }

  lemma SettleAccounts(w: World, a: nat)
    requires Accounted(w) && Enabled(w, Settle(a))
    ensures Accounted(Next(w, Settle(a))) && Next(w, Settle(a)).leaked == w.leaked + Stray(w, Settle(a))
  {
    hide Sum;
    var x, n := Status(w, a).stream, Status(w, a).bytes;
    ReservationUpdate(w.appenders, a, Idle);
    LiveUpdate(w.objects, x, w.objects[x].(bytes := w.objects[x].bytes + n));
    hide LiveBytes, Reservations;
    assert At(Reservations(w.appenders), a) == n by { AtReservation(w.appenders, a); }
    assert At(LiveBytes(w.objects), x) == Weight(w.objects[x]) by { AtLive(w.objects, x); }
  }

  lemma ReserveAccounts(w: World, a: nat, n: nat)
    requires Accounted(w) && Enabled(w, Reserve(a, n))
    ensures Accounted(Next(w, Reserve(a, n)))
  {
    hide Sum;
    ReservationUpdate(w.appenders, a, Reserved(Status(w, a).stream, n));
    ReservationUpdate(w.appenders, a, Idle);
    AtReservation(w.appenders, a);
    hide LiveBytes, Reservations;
  }

  lemma AtReservation(appenders: map<nat, Appender>, a: nat)
    requires a in appenders
    ensures At(Reservations(appenders), a) == Outstanding(appenders[a])
  {
  }

  lemma AtLive(objects: map<nat, Object>, x: nat)
    requires x in objects
    ensures At(LiveBytes(objects), x) == Weight(objects[x])
  {
  }

  /** Changing nothing that is counted. */
  lemma FlagsAccount(w: World, x: nat, o: Object)
    requires Accounted(w) && x in w.objects && o.bytes == w.objects[x].bytes && o.linked == w.objects[x].linked
    ensures Accounted(Put(w, x, o))
  {
    hide Sum;
    LiveUpdate(w.objects, x, o);
    AtLive(w.objects, x);
    hide LiveBytes, Reservations;
  }

  lemma UnlinkAccounts(w: World, x: nat)
    requires Accounted(w) && Linked(w, x)
    ensures Accounted(Unlink(w, x)) && w.objects[x].bytes <= w.total
  {
    hide Sum;
    LiveUpdate(w.objects, x, w.objects[x].(linked := false));
    AtLive(w.objects, x);
    hide LiveBytes, Reservations;
  }

  lemma StoreAccounts(w: World, e: Event)
    requires Accounted(w) && Enabled(w, e) && (e.Create? || e.Replace?)
    ensures Accounted(Next(w, e))
  {
    hide Sum;
    LiveUpdate(w.objects, e.stream, Object(e.bytes, true, false, false));
    if e.Replace? { AtLive(w.objects, e.stream); }
  }

  lemma LookupAccounts(w: World, a: nat, x: nat)
    requires Accounted(w) && Status(w, a).Idle? && x in w.objects
    ensures Accounted(w.(appenders := w.appenders[a := Holding(x)]))
  {
    hide Sum;
    ReservationUpdate(w.appenders, a, Holding(x));
    if a in w.appenders { AtReservation(w.appenders, a); }
    hide LiveBytes;
  }

  lemma NextAccounts(w: World, e: Event)
    requires Accounted(w) && Enabled(w, e)
    ensures Accounted(Next(w, e)) && Next(w, e).leaked == w.leaked + Stray(w, e)
    ensures Next(w, e).limit == w.limit && Next(w, e).maxStream == w.maxStream
  {
    hide Accounted, Locked;
    match e
    case Create(_, _) => StoreAccounts(w, e);
    case Replace(_, _) => StoreAccounts(w, e);
    case Lookup(a, x) => LookupAccounts(w, a, x);
    case Reserve(a, n) => ReserveAccounts(w, a, n);
    case Settle(a) => SettleAccounts(w, a);
    case Find(r, x) => OthersAccount(w, w.readers[r := Found(x)], w.gathered);
    case Capture(r) => OthersAccount(w, Next(w, e).readers, w.gathered);
    case Renew(r) =>
      var x := Reading(w, r).stream;
      FlagsAccount(w, x, w.objects[x].(expired := false));
      OthersAccount(Put(w, x, w.objects[x].(expired := false)), w.readers[r := Away], w.gathered);
    case Expire(x) => FlagsAccount(w, x, w.objects[x].(expired := true));
    case Bury(x) =>
      FlagsAccount(w, x, w.objects[x].(tombstone := true));
      OthersAccount(Put(w, x, w.objects[x].(tombstone := true)), w.readers, w.gathered - {x});
    case Delete(x) => UnlinkAccounts(w, x);
    case Gather(x) => OthersAccount(w, w.readers, w.gathered + {x});
    case Visit(x) => UnlinkAccounts(w, x);
    case Cascade(x) => UnlinkAccounts(w, x);
  }

  lemma OthersAccount(w: World, readers: map<nat, Reader>, gathered: set<nat>)
    requires Accounted(w)
    ensures Accounted(w.(readers := readers, gathered := gathered))
  {
  }

  /** What is released was counted, so the saturating subtraction never saturates. */
  lemma ReleaseNeverSaturates(w: World, e: Event)
    requires Accounted(w) && Enabled(w, e)
    ensures e.Delete? || e.Visit? || e.Cascade? || e.Replace? ==> w.objects[e.stream].bytes <= w.total
    ensures e.Settle? ==> Status(w, e.appender).bytes <= w.total
  {
    hide Sum, Locked;
    if e.Settle? {
      ReservationUpdate(w.appenders, e.appender, Idle);
    } else if e.Delete? || e.Visit? || e.Cascade? || e.Replace? {
      UnlinkAccounts(w, e.stream);
    }
  }

  ghost predicate IsRun(w: World, events: seq<Event>)
    decreases |events|
  {
    events == [] || (Enabled(w, events[0]) && IsRun(Next(w, events[0]), events[1..]))
  }

  ghost function After(w: World, events: seq<Event>): (w': World)
    requires IsRun(w, events)
    decreases |events|
  {
    if events == [] then w else After(Next(w, events[0]), events[1..])
  }

  ghost function StrayBytes(w: World, events: seq<Event>): (n: nat)
    requires IsRun(w, events)
    decreases |events|
  {
    if events == [] then 0 else Stray(w, events[0]) + StrayBytes(Next(w, events[0]), events[1..])
  }

  /**
   In every interleaving the counter is live payload, plus outstanding reservations,
   plus what was committed to streams already removed; it never passes the limit, and
   no stream passes its own.
   */
  lemma {:induction false} RunAccounts(w: World, events: seq<Event>)
    requires Accounted(w) && IsRun(w, events)
    ensures Accounted(After(w, events))
    ensures After(w, events).leaked == w.leaked + StrayBytes(w, events)
    decreases |events|
  {
    hide Accounted, Enabled, Next, Stray;
    if events != [] {
      NextAccounts(w, events[0]);
      RunAccounts(Next(w, events[0]), events[1..]);
    }
  }

  /** Conservation holds exactly when no bytes were settled on a stream that had left the map. */
  lemma ExactIff(w: World, events: seq<Event>)
    requires Accounted(w) && w.leaked == 0 && IsRun(w, events)
    ensures Exact(After(w, events)) <==> StrayBytes(w, events) == 0
  {
    hide Enabled, Next, Stray, Sum;
    RunAccounts(w, events);
  }

  // ---------------------------------------------------------------- only open orphans leak

  /** A stream that has left the map and would still pass the access check. */
  predicate OpenOrphan(w: World, x: nat) {
    x in w.objects && !w.objects[x].linked && Open(w.objects[x])
  }

  /**
   The three ways to get one: deleting a stream that is open, removing one that was renewed
   since it was gathered, and renewing one that has already left the map.
   */
  predicate Orphans(w: World, e: Event, x: nat) {
    && x in w.objects
    && (|| (e.Delete? && e.stream == x && Open(w.objects[x]))
        || (e.Visit? && e.stream == x && Open(w.objects[x]))
        || (e.Renew? && Reading(w, e.reader) == Captured(x) && !w.objects[x].linked && !w.objects[x].tombstone))
  }

  /** A step leaves an open orphan exactly when it was one and did not just expire, or is made one in one of these ways. */
  lemma OpenOrphanIff(w: World, e: Event, x: nat)
    requires Enabled(w, e)
    ensures OpenOrphan(Next(w, e), x) <==> (OpenOrphan(w, x) && e != Expire(x)) || Orphans(w, e, x)
  {
    hide Locked;
  }

  /** No event of the run makes an open orphan. */
  ghost predicate NoneOrphaned(w: World, events: seq<Event>)
    requires IsRun(w, events)
    decreases |events|
  {
    events == [] || ((forall x :: !Orphans(w, events[0], x)) && NoneOrphaned(Next(w, events[0]), events[1..]))
  }

  /** Whoever has left the map refuses appends, and whoever has reserved holds a stream of the map. */
  ghost predicate OrphansRefuse(w: World) {
    && (forall x :: !OpenOrphan(w, x))
    && (forall a :: a in w.appenders && w.appenders[a].Reserved? ==> Linked(w, w.appenders[a].stream))
  }

  lemma OrphansKeepRefusing(w: World, e: Event)
    requires OrphansRefuse(w) && Enabled(w, e) && forall x :: !Orphans(w, e, x)
    ensures OrphansRefuse(Next(w, e)) && Stray(w, e) == 0
  {
    var w' := Next(w, e);
    forall x ensures !OpenOrphan(w', x) { OpenOrphanIff(w, e, x); }
    ReservedStayLinked(w, e);
    hide Next, OpenOrphan;
  }

  lemma ReservedStayLinked(w: World, e: Event)
    requires OrphansRefuse(w) && Enabled(w, e)
    ensures var w' := Next(w, e);
      forall a :: a in w'.appenders && w'.appenders[a].Reserved? ==> Linked(w', w'.appenders[a].stream)
  {
    var w' := Next(w, e);
    forall a | a in w'.appenders && w'.appenders[a].Reserved? ensures Linked(w', w'.appenders[a].stream) {
      if a in w.appenders && w.appenders[a] == w'.appenders[a] {
        assert Locked(w, w.appenders[a].stream);
      } else {
        assert e.Reserve? && e.appender == a;
        assert !OpenOrphan(w, w'.appenders[a].stream);
      }
    }
  }

  /** Without an open orphan the counter is exact after every run. */
  lemma {:induction false} OnlyOpenOrphansLeak(w: World, events: seq<Event>)
    requires Accounted(w) && w.leaked == 0 && OrphansRefuse(w) && IsRun(w, events) && NoneOrphaned(w, events)
    ensures Exact(After(w, events)) && StrayBytes(w, events) == 0
    decreases |events|
  {
    hide Enabled, Next, Stray, Orphans, OrphansRefuse, Accounted;
    if events != [] {
      OrphansKeepRefusing(w, events[0]);
      NextAccounts(w, events[0]);
      OnlyOpenOrphansLeak(Next(w, events[0]), events[1..]);
    } else {
      ExactIff(w, events);
    }
  }

  /** An append that holds an open orphan leaks whatever it commits, for good. */
  lemma OpenOrphanLeaks(w: World, a: nat, n: nat)
    requires Accounted(w) && w.leaked == 0 && Status(w, a).Holding?
    requires OpenOrphan(w, Status(w, a).stream) && !Locked(w, Status(w, a).stream)
    requires 0 < n && Fits(w, n) && w.objects[Status(w, a).stream].bytes + n <= w.maxStream
    ensures IsRun(w, [Reserve(a, n), Settle(a)]) && !Exact(After(w, [Reserve(a, n), Settle(a)]))
  {
    var events := [Reserve(a, n), Settle(a)];
    var w1 := Next(w, events[0]);
    assert Enabled(w1, events[1]) && Stray(w1, events[1]) == n;
    assert events[1..] == [Settle(a)] && events[1..][1..] == [];
    assert IsRun(Next(w1, events[1]), []) && StrayBytes(Next(w1, events[1]), []) == 0;
    assert IsRun(w1, events[1..]) && StrayBytes(w1, events[1..]) == n;
    assert IsRun(w, events) && StrayBytes(w, events) == n;
    ExactIff(w, events);
  }

  // ---------------------------------------------------------------- the three ways, from an empty store

  lemma {:induction false} RunConcat(w: World, a: seq<Event>, b: seq<Event>)
    requires IsRun(w, a) && IsRun(After(w, a), b)
    ensures IsRun(w, a + b) && After(w, a + b) == After(After(w, a), b)
    decreases |a|
  {
    hide Enabled, Next;
    if a == [] {
      assert a + b == b;
    } else {
      assert (a + b)[0] == a[0] && (a + b)[1..] == a[1..] + b;
      RunConcat(Next(w, a[0]), a[1..], b);
    }
  }

  function Blank(limit: nat): (w: World) { World(0, limit, limit, map[], map[], map[], {}, 0) }

  /** Appender 1 holds stream 0, and reader 2 does if it `reads`; the object is `o`. */
  function Held(limit: nat, o: Object, reader: Reader, gathered: set<nat>): (w: World) {
    World(0, limit, limit, map[0 := o], map[1 := Holding(0)], map[2 := reader], gathered, 0)
  }

  const FRESH: Object := Object(0, true, false, false)

  lemma BlankAccounts(limit: nat)
    ensures Accounted(Blank(limit))
  {
    assert LiveBytes(map[]) == map[] && Reservations(map[]) == map[];
  }

  lemma OneStep(w: World, e: Event, rest: seq<Event>, last: World)
    requires Enabled(w, e) && IsRun(Next(w, e), rest) && After(Next(w, e), rest) == last
    ensures IsRun(w, [e] + rest) && After(w, [e] + rest) == last
  {
    assert ([e] + rest)[1..] == rest;
  }

  const BEGIN: seq<Event> := [Create(0, 0), Find(2, 0), Capture(2), Lookup(1, 0)]

  /** A stream that an append and a captured read hold. */
  lemma Begins(limit: nat)
    ensures IsRun(Blank(limit), BEGIN) && After(Blank(limit), BEGIN) == Held(limit, FRESH, Captured(0), {})
  {
    var w0 := Blank(limit);
    var w1 := w0.(objects := map[0 := FRESH]);
    var w2 := w1.(readers := map[2 := Found(0)]);
    var w3 := w1.(readers := map[2 := Captured(0)]);
    var w4 := Held(limit, FRESH, Captured(0), {});
    assert Next(w0, Create(0, 0)) == w1;
    assert Next(w1, Find(2, 0)) == w2;
    assert Next(w2, Capture(2)) == w3;
    assert Next(w3, Lookup(1, 0)) == w4;
    hide Next, Enabled;
    OneStep(w3, Lookup(1, 0), [], w4);
    OneStep(w2, Capture(2), [Lookup(1, 0)], w4);
    OneStep(w1, Find(2, 0), [Capture(2), Lookup(1, 0)], w4);
    OneStep(w0, Create(0, 0), [Find(2, 0), Capture(2), Lookup(1, 0)], w4);
  }

  /** The counter is off after `BEGIN`, the steps that orphan the stream, a reservation and its commit. */
  ghost predicate Leaks(limit: nat, steps: seq<Event>, n: nat) {
    var events := BEGIN + steps + [Reserve(1, n), Settle(1)];
    IsRun(Blank(limit), events) && !Exact(After(Blank(limit), events))
  }

  lemma LeaksBy(limit: nat, steps: seq<Event>, n: nat, reader: Reader)
    requires 0 < n <= limit
    requires var w := Held(limit, FRESH, Captured(0), {});
      IsRun(w, steps) && After(w, steps) == Held(limit, FRESH.(linked := false), reader, {})
    ensures Leaks(limit, steps, n)
  {
    hide Enabled, Next, Exact, Accounted;
    var w := Held(limit, FRESH.(linked := false), reader, {});
    Begins(limit);
    RunConcat(Blank(limit), BEGIN, steps);
    BlankAccounts(limit);
    RunAccounts(Blank(limit), BEGIN + steps);
    OpenOrphanLeaks(w, 1, n);
    RunConcat(Blank(limit), BEGIN + steps, [Reserve(1, n), Settle(1)]);
  }

  /** An append that looked its stream up before a delete and settles after it. */
  lemma DeleteDuringAppendLeaks(limit: nat, n: nat)
    requires 0 < n <= limit
    ensures Leaks(limit, [Delete(0)], n)
  {
    var w := Held(limit, FRESH, Captured(0), {});
    var last := Held(limit, FRESH.(linked := false), Captured(0), {});
    assert Next(w, Delete(0)) == last;
    OneStep(w, Delete(0), [], last);
    LeaksBy(limit, [Delete(0)], n, Captured(0));
  }

  const EXPIRED: Object := FRESH.(expired := true)

  lemma Gathers(limit: nat)
    ensures var w := Held(limit, FRESH, Captured(0), {});
      && Enabled(w, Expire(0)) && Next(w, Expire(0)) == Held(limit, EXPIRED, Captured(0), {})
      && Enabled(Held(limit, EXPIRED, Captured(0), {}), Gather(0))
      && Next(Held(limit, EXPIRED, Captured(0), {}), Gather(0)) == Held(limit, EXPIRED, Captured(0), {0})
  {
  }

  lemma GatheredRun(limit: nat, rest: seq<Event>, last: World)
    requires var w := Held(limit, EXPIRED, Captured(0), {0}); IsRun(w, rest) && After(w, rest) == last
    ensures var w := Held(limit, FRESH, Captured(0), {});
      IsRun(w, [Expire(0), Gather(0)] + rest) && After(w, [Expire(0), Gather(0)] + rest) == last
  {
    hide Next, Enabled;
    Gathers(limit);
    OneStep(Held(limit, EXPIRED, Captured(0), {}), Gather(0), rest, last);
    OneStep(Held(limit, FRESH, Captured(0), {}), Expire(0), [Gather(0)] + rest, last);
    assert [Expire(0)] + ([Gather(0)] + rest) == [Expire(0), Gather(0)] + rest;
  }

  /** No delete at all: the stream expires and is removed, and the captured read renews the orphan. */
  lemma RenewedOrphanLeaks(limit: nat, n: nat)
    requires 0 < n <= limit
    ensures Leaks(limit, [Expire(0), Gather(0), Visit(0), Renew(2)], n)
  {
    var w2 := Held(limit, EXPIRED, Captured(0), {0});
    var w3 := Held(limit, EXPIRED.(linked := false), Captured(0), {});
    var w4 := Held(limit, FRESH.(linked := false), Away, {});
    assert Next(w2, Visit(0)) == w3;
    assert Next(w3, Renew(2)) == w4;
    hide Next, Enabled, Leaks;
    OneStep(w3, Renew(2), [], w4);
    OneStep(w2, Visit(0), [Renew(2)], w4);
    GatheredRun(limit, [Visit(0), Renew(2)], w4);
    assert [Expire(0), Gather(0)] + [Visit(0), Renew(2)] == [Expire(0), Gather(0), Visit(0), Renew(2)];
    LeaksBy(limit, [Expire(0), Gather(0), Visit(0), Renew(2)], n, Away);
  }

  /** The renewal lands between the gathering and the visit. */
  lemma RenewedWhileGatheredLeaks(limit: nat, n: nat)
    requires 0 < n <= limit
    ensures Leaks(limit, [Expire(0), Gather(0), Renew(2), Visit(0)], n)
  {
    var w2 := Held(limit, EXPIRED, Captured(0), {0});
    var w3 := Held(limit, FRESH, Away, {0});
    var w4 := Held(limit, FRESH.(linked := false), Away, {});
    assert Next(w2, Renew(2)) == w3;
    assert Next(w3, Visit(0)) == w4;
    hide Next, Enabled, Leaks;
    OneStep(w3, Visit(0), [], w4);
    OneStep(w2, Renew(2), [Visit(0)], w4);
    GatheredRun(limit, [Renew(2), Visit(0)], w4);
    assert [Expire(0), Gather(0)] + [Renew(2), Visit(0)] == [Expire(0), Gather(0), Renew(2), Visit(0)];
    LeaksBy(limit, [Expire(0), Gather(0), Renew(2), Visit(0)], n, Away);
  }
}
