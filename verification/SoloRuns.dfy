/** Non-interference against a run of one device: every context of a keyed run is
    also reached with nothing but its own device's events. The run is built event
    by event, with the callbacks that are routed by handle waiting for their turn. */
module SoloRuns {
  import opened Types
  import opened DeviceContexts
  import opened Protocol
  import opened PointerStability
  import opened LockDiscipline
  import opened EventFold
  import opened NewContexts
  import opened NonInterference
  import opened DeviceIsolation
  import opened RunSteps

  // ----- what the events of one device look like

  predicate ByHandle(e: Event) {
    e.DiscoveredEvent? || e.DatabaseEvent?
  }

  /** Some connection among the events was with this handle. */
  predicate SeenHandle(es: seq<Event>, h: Handle) {
    exists c :: 0 <= c < |es| && IsLink(es[c], Connected) && es[c].handle == h
  }

  ghost predicate AnySeen(es: seq<Event>) {
    exists h :: SeenHandle(es, h)
  }

  /** An event that is routed by handle comes after a connection with that handle. */
  ghost predicate Ordered(es: seq<Event>) {
    forall d :: 0 <= d < |es| && ByHandle(es[d]) ==> SeenHandle(es[..d], es[d].handle)
  }

  predicate LinkKeyed(deviceOf: DeviceOf, e: Event) {
    e.LinkEvent? ==> e.handle != NULL_HANDLE && deviceOf(e.handle) == e.address
  }

  /** Events that one device may send: they name it, and are in order. */
  ghost predicate DeviceEvents(deviceOf: DeviceOf, a: Address, es: seq<Event>) {
    Ordered(es) && forall k :: 0 <= k < |es| ==> Names(deviceOf, a, es[k]) && LinkKeyed(deviceOf, es[k])
  }

  lemma OrderedSnoc(es: seq<Event>, e: Event)
    requires Ordered(es) && (ByHandle(e) ==> SeenHandle(es, e.handle))
    ensures Ordered(es + [e])
  {
    var fs := es + [e];
    forall d | 0 <= d < |fs| && ByHandle(fs[d]) ensures SeenHandle(fs[..d], fs[d].handle) {
      if d < |es| {
        assert fs[..d] == es[..d] && fs[d] == es[d];
      } else {
        assert fs[..d] == es;
      }
    }
  }

  lemma SeenLater(es: seq<Event>, fs: seq<Event>, h: Handle)
    requires es <= fs && SeenHandle(es, h)
    ensures SeenHandle(fs, h)
  {
    var c :| 0 <= c < |es| && IsLink(es[c], Connected) && es[c].handle == h;
    assert fs[c] == es[c];
  }

  // ----- every device's events look like that

  predicate HandleCallback(call: Call) {
    call.ServicesDiscovered? || call.GotDatabase?
  }

  /** A callback that found its context by handle found one that had been given it. */
  ghost predicate HandleSeen(s: State, t: Tid) {
    Holds(s, t) && HandleCallback(s.threads[t].call) ==>
      SeenHandle(Routed(s.history, s.threads[t].id), s.threads[t].call.handle)
  }

  ghost predicate Sent(deviceOf: DeviceOf, s: State) {
    && (forall t :: HandleSeen(s, t))
    && (forall m :: Ordered(Routed(s.history, m)))
    && (forall k :: 0 <= k < |s.history| ==> LinkKeyed(deviceOf, s.history[k].event))
  }

  lemma FoundByHandle(deviceOf: DeviceOf, s: State, l: Label)
    requires StepKeyed(deviceOf, s, l) && l.DoStart? && HandleCallback(s.threads[l.t].call)
    requires ThreadAfter(s, l).Busy? && ThreadAfter(s, l).ptr.Slot?
    ensures SeenHandle(Routed(s.history, ThreadAfter(s, l).id), ThreadAfter(s, l).call.handle)
  {
    RoutingIsFirstMatch(s, l);
    ThreadCallKept(s, l);
    assert Keyed(deviceOf, s.threads[l.t].call);
    var i := ThreadAfter(s, l).ptr.index;
    var es := Routed(s.history, s.items[i].lock);
    assert ReflectsRest(s.items[i], es);
    var k :| LastConnection(es, k);
    assert es[k].handle == s.items[i].handle;
  }

  lemma RoutedGrows(s: State, l: Label, m: nat)
    requires Enabled(s, l)
    ensures Routed(s.history, m) <= Routed(HistoryAfter(s, l), m)
  {
    if Delivers(l) {
      RoutedSnoc(s.history, Entry(s.threads[l.t].id, EventOf(s.threads[l.t].call)), m);
    }
  }

  lemma StepHandleSeen(deviceOf: DeviceOf, s: State, l: Label, t: Tid)
    requires StepKeyed(deviceOf, s, l) && Sent(deviceOf, s)
    ensures HandleSeen(Apply(s, l), t)
  {
    var s' := Apply(s, l);
    if Holds(s', t) && HandleCallback(s'.threads[t].call) {
      if t == l.t && l.DoStart? {
        ThreadCallKept(s, l);
        FoundByHandle(deviceOf, s, l);
      } else {
        FlightPointerKept(s, l, t);
        assert HandleSeen(s, t);
        RoutedGrows(s, l, s.threads[t].id);
        SeenLater(Routed(s.history, s.threads[t].id), Routed(s'.history, s.threads[t].id), s.threads[t].call.handle);
      }
    }
  }

  lemma DeliveryOrdered(deviceOf: DeviceOf, s: State, l: Label)
    requires StepKeyed(deviceOf, s, l) && Sent(deviceOf, s) && Delivers(l)
    ensures var e := EventOf(s.threads[l.t].call);
            LinkKeyed(deviceOf, e) && (ByHandle(e) ==> SeenHandle(Routed(s.history, s.threads[l.t].id), e.handle))
  {
    DeliveredTo(deviceOf, s, l);
    assert HandleSeen(s, l.t);
  }

  lemma StepSent(deviceOf: DeviceOf, s: State, l: Label)
    requires StepKeyed(deviceOf, s, l) && Sent(deviceOf, s)
    ensures Sent(deviceOf, Apply(s, l))
  {
    var s' := Apply(s, l);
    forall t ensures HandleSeen(s', t) { StepHandleSeen(deviceOf, s, l, t); }
    assert s'.history == HistoryAfter(s, l);
    if Delivers(l) {
      DeliveryOrdered(deviceOf, s, l);
      HistoryOrdered(deviceOf, s.history, Entry(s.threads[l.t].id, EventOf(s.threads[l.t].call)));
    }
  }

  lemma HistoryOrdered(deviceOf: DeviceOf, h: seq<Entry>, e: Entry)
    requires forall m :: Ordered(Routed(h, m))
    requires forall k :: 0 <= k < |h| ==> LinkKeyed(deviceOf, h[k].event)
    requires LinkKeyed(deviceOf, e.event) && (ByHandle(e.event) ==> SeenHandle(Routed(h, e.route), e.event.handle))
    ensures forall m :: Ordered(Routed(h + [e], m))
    ensures forall k :: 0 <= k < |h + [e]| ==> LinkKeyed(deviceOf, (h + [e])[k].event)
  {
    forall m ensures Ordered(Routed(h + [e], m)) {
      RoutedSnoc(h, e, m);
      if e.route == m {
        OrderedSnoc(Routed(h, m), e.event);
      }
    }
  }

  lemma RunSent(deviceOf: DeviceOf, r: Run, k: nat)
    requires Good(r) && KeyedRun(deviceOf, r) && k < |r.states|
    ensures Sent(deviceOf, r.states[k])
  {
    if k > 0 {
      RunSent(deviceOf, r, k - 1);
      NextSent(deviceOf, r, k - 1);
    }
  }

  lemma NextSent(deviceOf: DeviceOf, r: Run, k: nat)
    requires Good(r) && KeyedRun(deviceOf, r) && k < |r.labels| && Sent(deviceOf, r.states[k])
    ensures Sent(deviceOf, r.states[k + 1])
  {
    RunSeparate(deviceOf, r, k);
    NextKeyed(deviceOf, r, k);
    assert StepAt(r, k);
    StepSent(deviceOf, r.states[k], r.labels[k]);
  }

  lemma {:induction false} ProjectionNames(deviceOf: DeviceOf, h: seq<Entry>, a: Address)
    requires forall k :: 0 <= k < |h| ==> LinkKeyed(deviceOf, h[k].event)
    ensures var es := Projection(deviceOf, h, a);
            forall k :: 0 <= k < |es| ==> Names(deviceOf, a, es[k]) && LinkKeyed(deviceOf, es[k])
  {
    if h != [] {
      var g, x := h[..|h| - 1], h[|h| - 1];
      assert forall k :: 0 <= k < |g| ==> g[k] == h[k];
      ProjectionNames(deviceOf, g, a);
      assert Projection(deviceOf, h, a) ==
             Projection(deviceOf, g, a) + (if Names(deviceOf, a, x.event) then [x.event] else []);
    }
  }

  // ----- a run with exactly given events of one device

  /** The call of the callback that delivers an event routed by handle. */
  function CallFor(e: Event): Call
    requires ByHandle(e)
  {
    match e
    case DiscoveredEvent(h) => ServicesDiscovered(h, true)
    case DatabaseEvent(h, db, n) => GotDatabase(h, db, n)
  }

  /** The thread for the event at position `d`; callbacks for link changes run in
      thread 1, and `NOBODY` never does anything. */
  function ThreadFor(d: nat): Tid {
    10 + d
  }

  const NOBODY: Tid := 9

  /** The callback for event `d` has found the context and waits for its mutex. */
  predicate Parked(s: State, d: nat, e: Event)
    requires ByHandle(e)
  {
    && Running(s, ThreadFor(d))
    && var th := s.threads[ThreadFor(d)];
       th.call == CallFor(e) && th.pc == CbLock && th.ptr == Slot(s.generation, 0) && th.id == 1
  }

  /** One context, of device `a`, to which exactly the first `n` of the events have been
      delivered; exactly the callbacks in `parked` are running, and they are waiting. */
  ghost predicate Solo(a: Address, s: State, es: seq<Event>, n: nat, parked: set<nat>) {
    && |s.items| == 1 && s.items[0].lock == 1 && s.items[0].address == a
    && s.owner == map[] && s.since == map[1 := 0]
    && Delivered(s, es, n) && OnlyParked(s, parked) && AllParked(s, es, parked)
  }

  ghost predicate Delivered(s: State, es: seq<Event>, n: nat) {
    n <= |es| && |s.history| == n && forall k :: 0 <= k < n ==> s.history[k] == Entry(1, es[k])
  }

  ghost predicate OnlyParked(s: State, parked: set<nat>) {
    forall t: Tid :: Running(s, t) ==> t >= 10 && t - 10 in parked
  }

  ghost predicate AllParked(s: State, es: seq<Event>, parked: set<nat>) {
    forall d: nat :: d in parked ==> d < |es| && ByHandle(es[d]) && Parked(s, d, es[d])
  }

  /** The callbacks that can be waiting after `n` events. */
  function Due(es: seq<Event>, n: nat): set<nat>
    requires n <= |es|
  {
    set d: nat | n <= d < |es| && ByHandle(es[d]) && SeenHandle(es[..n], es[d].handle)
  }

  /** The waiting callbacks after one thread has changed. */
  lemma OneThreadChanged(s: State, s': State, es: seq<Event>, parked: set<nat>, parked': set<nat>, t: Tid)
    requires OnlyParked(s, parked) && AllParked(s, es, parked) && s'.generation == s.generation
    requires forall u: Tid :: u != t ==> (u in s'.threads <==> u in s.threads)
    requires forall u: Tid :: u != t && u in s.threads ==> s'.threads[u] == s.threads[u]
    requires forall d: nat :: d in parked' && ThreadFor(d) != t ==> d in parked
    requires forall d: nat :: d in parked && ThreadFor(d) != t ==> d in parked'
    requires Running(s', t) ==> t >= 10 && t - 10 in parked'
    requires t >= 10 && t - 10 in parked' ==> t - 10 < |es| && ByHandle(es[t - 10]) && Parked(s', t - 10, es[t - 10])
    ensures OnlyParked(s', parked') && AllParked(s', es, parked')
  {
    forall u: Tid | Running(s', u) ensures u >= 10 && u - 10 in parked' {
      if u != t {
        assert Running(s, u);
        assert ThreadFor(u - 10) == u;
      }
    }
    forall d: nat | d in parked' ensures d < |es| && ByHandle(es[d]) && Parked(s', d, es[d]) {
      if ThreadFor(d) != t {
        assert Parked(s, d, es[d]);
      } else {
        assert d == t - 10;
      }
    }
  }

  lemma NobodyBlocked(a: Address, s: State, es: seq<Event>, n: nat, parked: set<nat>)
    requires Solo(a, s, es, n, parked)
    ensures forall w, m :: !BlockedOn(s, w, m)
  {
    forall w: Tid | Running(s, w) ensures s.threads[w].pc == CbLock {
      assert Parked(s, w - 10, es[w - 10]);
    }
  }

  lemma OneItem(s: State)
    requires |s.items| == 1
    ensures s.items == [s.items[0]]
    ensures FirstByAddress(s.items, s.items[0].address) == Some(0) &&
            FirstByHandle(s.items, s.items[0].handle) == Some(0)
  {
    FirstOfOne(s.items[0]);
    assert s.items == [s.items[0]];
  }

  lemma SoloStart(a: Address, es: seq<Event>, base: Run) returns (q: Run)
    requires Good(base) && base.labels == [] && Last(base) == StartState()
    ensures Later(q, base, NOBODY) && Solo(a, Last(q), es, 0, {})
  {
    var r1 := Begin(base, 0, Connect(a));
    LaterStep(r1, base, base, NOBODY, DoBegin(0, Connect(a)), Last(r1));
    var r2 := AddContext(r1, 0);
    LaterStep(r2, r1, base, NOBODY, DoStart(0), Last(r2));
    var r3 := Copy(r2, 0);
    LaterStep(r3, r2, base, NOBODY, DoCopy(0), Last(r3));
    q := Answer(r3, 0, GeneralError);
    LaterStep(q, r3, base, NOBODY, DoRequest(0, GeneralError), Last(q));
  }

  lemma SoloLink(a: Address, p: Run, es: seq<Event>, n: nat, parked: set<nat>, base: Run) returns (q: Run)
    requires IsRun(base) && Later(p, base, NOBODY) && Solo(a, Last(p), es, n, parked) && n < |es|
    requires es[n].LinkEvent? && es[n].address == a
    ensures Later(q, base, NOBODY) && Solo(a, Last(q), es, n + 1, parked)
    ensures Last(q).items[0] == ApplyToContext(Last(p).items[0], es[n])
  {
    var s, e := Last(p), es[n];
    OneItem(s);
    NobodyBlocked(a, s, es, n, parked);
    var call := LinkChanged(e.link, true, e.handle, a);
    var r1 := CallbackToNotify(p, 1, call, 0, base, NOBODY);
    assert forall w :: BlockedOn(Last(r1), w, 1) ==> BlockedOn(s, w, 1);
    q := SignalsNobody(r1, 1, base, NOBODY);
    PutAndTaken(s.owner, 1, 1);
    assert EventOf(call) == e;
    OneThreadDone(a, s, Last(q), es, n, parked, 1);
  }

  /** What a finished thread outside the waiting ones leaves. */
  lemma OneThreadDone(a: Address, s: State, s': State, es: seq<Event>, n: nat, parked: set<nat>, t: Tid)
    requires Solo(a, s, es, n, parked) && n < |es| && t < 10
    requires t in s'.threads && s'.threads[t].Done?
    requires forall u: Tid :: u != t ==> (u in s'.threads <==> u in s.threads)
    requires forall u: Tid :: u != t && u in s.threads ==> s'.threads[u] == s.threads[u]
    requires |s'.items| == 1 && s'.items[0].lock == 1 && s'.items[0].address == a && s'.generation == s.generation
    requires s'.owner == map[] && s'.since == s.since && s'.history == s.history + [Entry(1, es[n])]
    ensures Solo(a, s', es, n + 1, parked)
  {
    OneThreadChanged(s, s', es, parked, parked, t);
  }

  /** A `bleGetDatabase` of the device stores its pointers and is refused. */
  lemma SoloStores(a: Address, p: Run, es: seq<Event>, n: nat, parked: set<nat>, base: Run) returns (q: Run)
    requires IsRun(base) && Later(p, base, NOBODY) && Solo(a, Last(p), es, n, parked)
    ensures Later(q, base, NOBODY) && Solo(a, Last(q), es, n, parked)
    ensures OutsSet(Last(q).items[0]) && Last(q).items[0].handle == Last(p).items[0].handle
  {
    var s, c := Last(p), Last(p).items[0];
    OneItem(s);
    var r1 := TakesStoreLock(p, 2, GetDatabase(c.handle, 0, 0), 0, base, NOBODY);
    q := StoresAndRequests(r1, 2, 0, GeneralError, base, NOBODY);
    PutAndTaken(s.owner, 1, 2);
    OneThreadChanged(s, Last(q), es, parked, parked, 2);
  }

  lemma LooksUp(a: Address, p: Run, es: seq<Event>, n: nat, parked: set<nat>, d: nat, base: Run) returns (q: Run)
    requires IsRun(base) && Later(p, base, NOBODY) && Solo(a, Last(p), es, n, parked)
    requires d < |es| && d !in parked && ByHandle(es[d]) && OutsSet(Last(p).items[0])
    requires Last(p).items[0].handle == es[d].handle
    ensures Later(q, base, NOBODY)
    ensures var s := Last(p);
            Last(q) == s.(threads := s.threads[ThreadFor(d) :=
                                                 Busy(CallFor(es[d]), CbLock, Slot(s.generation, 0), 1,
                                                      |s.history|, 0)])
  {
    OneItem(Last(p));
    if es[d].DiscoveredEvent? {
      q := CallbackLooks(p, ThreadFor(d), CallFor(es[d]), 0, base, NOBODY);
    } else {
      q := DatabaseLooks(p, ThreadFor(d), CallFor(es[d]), 0, base, NOBODY);
    }
  }

  /** The callback for one more event looks up its context. */
  lemma Park(a: Address, p: Run, es: seq<Event>, n: nat, parked: set<nat>, d: nat, base: Run) returns (q: Run)
    requires IsRun(base) && Later(p, base, NOBODY) && Solo(a, Last(p), es, n, parked)
    requires d < |es| && d !in parked && ByHandle(es[d]) && OutsSet(Last(p).items[0])
    requires Last(p).items[0].handle == es[d].handle
    ensures Later(q, base, NOBODY) && Solo(a, Last(q), es, n, parked + {d}) && Last(q).items == Last(p).items
  {
    q := LooksUp(a, p, es, n, parked, d, base);
    assert Parked(Last(q), d, es[d]);
    OneThreadChanged(Last(p), Last(q), es, parked, parked + {d}, ThreadFor(d));
  }

  /** The events from position `m` on that are routed by handle `h`. */
  function WithHandle(es: seq<Event>, m: nat, h: Handle): set<nat> {
    set d: nat | m <= d < |es| && ByHandle(es[d]) && es[d].handle == h
  }

  /** The event at position `m`, if it is one of them. */
  function FirstWithHandle(es: seq<Event>, m: nat, h: Handle): set<nat>
    requires m < |es|
  {
    if ByHandle(es[m]) && es[m].handle == h then {m} else {}
  }

  lemma WithHandleNext(es: seq<Event>, m: nat, h: Handle, parked: set<nat>)
    requires m < |es|
    ensures (parked + FirstWithHandle(es, m, h)) + WithHandle(es, m + 1, h) == parked + WithHandle(es, m, h)
  {
  }

  lemma ParkOne(a: Address, p: Run, es: seq<Event>, n: nat, parked: set<nat>, m: nat, base: Run) returns (q: Run)
    requires IsRun(base) && Later(p, base, NOBODY) && Solo(a, Last(p), es, n, parked) && m < |es|
    requires OutsSet(Last(p).items[0])
    ensures Later(q, base, NOBODY) && Last(q).items == Last(p).items
    ensures Solo(a, Last(q), es, n, parked + FirstWithHandle(es, m, Last(p).items[0].handle))
  {
    var h := Last(p).items[0].handle;
    if ByHandle(es[m]) && es[m].handle == h && m !in parked {
      q := Park(a, p, es, n, parked, m, base);
    } else {
      q := p;
      assert parked + FirstWithHandle(es, m, h) == parked;
    }
  }

  lemma ParkAll(a: Address, p: Run, es: seq<Event>, n: nat, parked: set<nat>, m: nat, base: Run) returns (q: Run)
    requires IsRun(base) && Later(p, base, NOBODY) && Solo(a, Last(p), es, n, parked) && m <= |es|
    requires OutsSet(Last(p).items[0])
    ensures Later(q, base, NOBODY) && Last(q).items == Last(p).items
    ensures Solo(a, Last(q), es, n, parked + WithHandle(es, m, Last(p).items[0].handle))
    decreases |es| - m
  {
    var h := Last(p).items[0].handle;
    if m == |es| {
      q := p;
      assert parked + WithHandle(es, m, h) == parked;
    } else {
      q := ParkOne(a, p, es, n, parked, m, base);
      q := ParkAll(a, q, es, n, parked + FirstWithHandle(es, m, h), m + 1, base);
      WithHandleNext(es, m, h, parked);
    }
  }

  /** A waiting callback delivers its event. */
  lemma SoloByHandle(a: Address, p: Run, es: seq<Event>, n: nat, parked: set<nat>, base: Run) returns (q: Run)
    requires IsRun(base) && Later(p, base, NOBODY) && Solo(a, Last(p), es, n, parked) && n < |es|
    requires ByHandle(es[n]) && n in parked && OutsSet(Last(p).items[0])
    ensures Later(q, base, NOBODY) && Solo(a, Last(q), es, n + 1, parked - {n})
    ensures OutsSet(Last(q).items[0])
  {
    var s, t := Last(p), ThreadFor(n);
    NobodyBlocked(a, s, es, n, parked);
    assert Parked(s, n, es[n]);
    if es[n].DiscoveredEvent? {
      q := DiscoveryFinishes(p, t, 0, base, NOBODY);
    } else {
      q := DatabaseFinishes(p, t, 0, base, NOBODY);
    }
    assert EventOf(CallFor(es[n])) == es[n];
    OneThreadChanged(s, Last(q), es, parked, parked - {n}, t);
  }

  lemma SeenSnoc(es: seq<Event>, n: nat, h: Handle)
    requires n < |es|
    ensures SeenHandle(es[..n + 1], h) <==> SeenHandle(es[..n], h) || (IsLink(es[n], Connected) && es[n].handle == h)
  {
    if c :| 0 <= c < n && IsLink(es[..n][c], Connected) && es[..n][c].handle == h {
      assert es[..n + 1][c] == es[..n][c];
    }
    if IsLink(es[n], Connected) && es[n].handle == h {
      assert es[..n + 1][n] == es[n];
    }
  }

  lemma DueSnoc(es: seq<Event>, n: nat)
    requires n < |es|
    ensures Due(es, n + 1) ==
            if IsLink(es[n], Connected) then Due(es, n) + WithHandle(es, n + 1, es[n].handle) else Due(es, n) - {n}
  {
    forall h
      ensures SeenHandle(es[..n + 1], h) <==> SeenHandle(es[..n], h) || (IsLink(es[n], Connected) && es[n].handle == h)
    {
      SeenSnoc(es, n, h);
    }
  }

  /** After `n` events all callbacks that can be waiting are. */
  ghost predicate SoloAt(a: Address, s: State, es: seq<Event>, n: nat) {
    && n <= |es| && Solo(a, s, es, n, Due(es, n))
    && (AnySeen(es[..n]) ==> OutsSet(s.items[0]))
  }

  lemma SoloConnected(a: Address, p: Run, es: seq<Event>, n: nat, base: Run) returns (q: Run)
    requires IsRun(base) && Later(p, base, NOBODY) && n < |es| && SoloAt(a, Last(p), es, n)
    requires IsLink(es[n], Connected) && es[n].address == a
    ensures Later(q, base, NOBODY) && SoloAt(a, Last(q), es, n + 1)
  {
    q := SoloLink(a, p, es, n, Due(es, n), base);
    q := SoloStores(a, q, es, n + 1, Due(es, n), base);
    q := ParkAll(a, q, es, n + 1, Due(es, n), n + 1, base);
    DueSnoc(es, n);
  }

  lemma NothingNewSeen(es: seq<Event>, n: nat)
    requires n < |es| && !IsLink(es[n], Connected)
    ensures Due(es, n + 1) == Due(es, n) - {n}
    ensures AnySeen(es[..n + 1]) ==> AnySeen(es[..n])
  {
    DueSnoc(es, n);
    var fs := es[..n + 1];
    if h :| SeenHandle(fs, h) {
      SeenSnoc(es, n, h);
    }
  }

  lemma SoloOtherLink(a: Address, p: Run, es: seq<Event>, n: nat, base: Run) returns (q: Run)
    requires IsRun(base) && Later(p, base, NOBODY) && n < |es| && SoloAt(a, Last(p), es, n)
    requires es[n].LinkEvent? && !IsLink(es[n], Connected) && es[n].address == a
    ensures Later(q, base, NOBODY) && SoloAt(a, Last(q), es, n + 1)
  {
    q := SoloLink(a, p, es, n, Due(es, n), base);
    assert Due(es, n) - {n} == Due(es, n);
    assert OutsSet(Last(p).items[0]) ==> OutsSet(Last(q).items[0]);
    NothingNewSeen(es, n);
  }

  lemma SoloDelivers(a: Address, p: Run, es: seq<Event>, n: nat, base: Run) returns (q: Run)
    requires IsRun(base) && Later(p, base, NOBODY) && n < |es| && SoloAt(a, Last(p), es, n)
    requires ByHandle(es[n]) && SeenHandle(es[..n], es[n].handle)
    ensures Later(q, base, NOBODY) && SoloAt(a, Last(q), es, n + 1)
  {
    assert n in Due(es, n);
    q := SoloByHandle(a, p, es, n, Due(es, n), base);
    NothingNewSeen(es, n);
  }

  lemma SoloRun(deviceOf: DeviceOf, a: Address, es: seq<Event>, n: nat, base: Run) returns (q: Run)
    requires DeviceEvents(deviceOf, a, es) && n <= |es|
    requires Good(base) && base.labels == [] && Last(base) == StartState()
    ensures Later(q, base, NOBODY) && SoloAt(a, Last(q), es, n)
  {
    if n == 0 {
      q := SoloStart(a, es, base);
      assert es[..0] == [] && Due(es, 0) == {};
    } else {
      q := SoloRun(deviceOf, a, es, n - 1, base);
      var e := es[n - 1];
      assert Names(deviceOf, a, e) && LinkKeyed(deviceOf, e);
      if IsLink(e, Connected) {
        q := SoloConnected(a, q, es, n - 1, base);
      } else if e.LinkEvent? {
        q := SoloOtherLink(a, q, es, n - 1, base);
      } else {
        assert SeenHandle(es[..n - 1], e.handle);
        q := SoloDelivers(a, q, es, n - 1, base);
      }
    }
  }

  // ----- main result

  /** Every state of the run has at most one context, of device `a`, and every event
      ever delivered names device `a`. */
  ghost predicate OnlyDevice(deviceOf: DeviceOf, a: Address, q: Run)
    requires IsRun(q)
  {
    && (forall n :: 0 <= n < |q.states| ==> |q.states[n].items| <= 1)
    && |Last(q).items| == 1 && Last(q).items[0].address == a
    && forall k :: 0 <= k < |Last(q).history| ==> Names(deviceOf, a, Last(q).history[k].event)
  }

  lemma ItemsOnlyGrow(q: Run, base: Run, n: nat)
    requires IsRun(base) && base.labels == [] && Later(q, base, NOBODY) && n < |q.states|
    ensures |q.states[n].items| <= |Last(q).items|
    decreases |q.states| - n
  {
    if n < |q.labels| {
      ItemsOnlyGrow(q, base, n + 1);
      assert StepAt(q, n);
      NoRemovalGrows(q.states[n], q.labels[n]);
    }
  }

  lemma NoRemovalGrows(s: State, l: Label)
    requires Enabled(s, l) && !l.DoRemove?
    ensures |ItemsAfter(s, l)| >= |s.items|
  {
  }

  lemma {:induction false} AllProject(deviceOf: DeviceOf, h: seq<Entry>, a: Address, es: seq<Event>)
    requires |h| == |es| && forall k :: 0 <= k < |es| ==> h[k].event == es[k] && Names(deviceOf, a, es[k])
    ensures Projection(deviceOf, h, a) == es
  {
    if h != [] {
      var g, fs := h[..|h| - 1], es[..|es| - 1];
      assert forall k :: 0 <= k < |fs| ==> g[k].event == fs[k] && fs[k] == es[k];
      AllProject(deviceOf, g, a, fs);
      assert es == fs + [es[|es| - 1]];
    }
  }

  /** Whatever a keyed run does with other devices, there is a run that delivers only
      the events of one device, the same ones in the same order, and that device's
      context ends up the same in it. */
  lemma SoloRunExists(deviceOf: DeviceOf, r: Run, k: nat, i: nat)
    requires Good(r) && KeyedRun(deviceOf, r) && k < |r.states|
    requires i < |r.states[k].items| && r.states[k].items[i].address != ZERO_ADDRESS
    ensures var s, c := r.states[k], r.states[k].items[i];
            && c.lock in s.since && s.since[c.lock] <= |s.history|
            && exists q :: SoloTwin(deviceOf, s, c, q)
  {
    var s, c := r.states[k], r.states[k].items[i];
    ContextIsItsDevice(deviceOf, r, k, i);
    var es := OwnEvents(deviceOf, s, c);
    OwnEventsAreDeviceEvents(deviceOf, r, k, i);
    var base := Nothing();
    var q := SoloRun(deviceOf, c.address, es, |es|, base);
    TwinIsSolo(deviceOf, s, c, q, base);
  }

  /** Run `q` has only the device of context `c` of state `s`, the same events of it,
      and the same context in the end. */
  ghost predicate SoloTwin(deviceOf: DeviceOf, s: State, c: DeviceContext, q: Run)
    requires c.lock in s.since && s.since[c.lock] <= |s.history|
  {
    && Good(q) && OnlyDevice(deviceOf, c.address, q)
    && var d := Last(q).items[0];
       d.lock in Last(q).since && Last(q).since[d.lock] <= |Last(q).history|
       && OwnEvents(deviceOf, Last(q), d) == OwnEvents(deviceOf, s, c)
       && SameRest(d, c) && (Settled(s, c.lock) ==> SummaryOf(d) == SummaryOf(c))
  }

  lemma OwnEventsAreDeviceEvents(deviceOf: DeviceOf, r: Run, k: nat, i: nat)
    requires Good(r) && KeyedRun(deviceOf, r) && k < |r.states|
    requires i < |r.states[k].items| && r.states[k].items[i].address != ZERO_ADDRESS
    requires var s, c := r.states[k], r.states[k].items[i]; c.lock in s.since && s.since[c.lock] <= |s.history|
    ensures var s, c := r.states[k], r.states[k].items[i];
            DeviceEvents(deviceOf, c.address, OwnEvents(deviceOf, s, c))
  {
    var s, c := r.states[k], r.states[k].items[i];
    var n := s.since[c.lock];
    RunSent(deviceOf, r, k);
    RunSeparate(deviceOf, r, k);
    assert RoutedByName(deviceOf, c, s.history, s.since);
    RoutedIsProjection(deviceOf, s.history, n, c.lock, c.address);
    ProjectionNames(deviceOf, s.history[n..], c.address);
  }

  lemma TwinIsSolo(deviceOf: DeviceOf, s: State, c: DeviceContext, q: Run, base: Run)
    requires c.lock in s.since && s.since[c.lock] <= |s.history| && IsRun(base) && base.labels == []
    requires var es := OwnEvents(deviceOf, s, c);
             && ReflectsRest(c, es) && (Settled(s, c.lock) ==> Reflects(c, es)) && DeviceEvents(deviceOf, c.address, es)
             && Later(q, base, NOBODY) && SoloAt(c.address, Last(q), es, |es|)
    ensures SoloTwin(deviceOf, s, c, q)
  {
    var es, last := OwnEvents(deviceOf, s, c), Last(q);
    var d := last.items[0];
    forall n | 0 <= n < |q.states| ensures |q.states[n].items| <= 1 {
      ItemsOnlyGrow(q, base, n);
    }
    assert last.history[0..] == last.history;
    AllProject(deviceOf, last.history, c.address, es);
    SoloReflects(q, es, c.address);
    RestIsUnique(c, d, es);
    if Settled(s, c.lock) {
      ReflectionIsUnique(c, d, es);
    }
  }

  lemma SoloReflects(q: Run, es: seq<Event>, a: Address)
    requires Good(q) && SoloAt(a, Last(q), es, |es|)
    ensures Reflects(Last(q).items[0], es)
  {
    var last := Last(q);
    assert Due(es, |es|) == {};
    AllRouted(last.history, 1, es);
    RunFaithful(q, |q.labels|);
    SettledReflects(last, 0);
  }

  lemma {:induction false} AllRouted(h: seq<Entry>, m: nat, es: seq<Event>)
    requires |h| == |es| && forall k :: 0 <= k < |es| ==> h[k] == Entry(m, es[k])
    ensures Routed(h, m) == es
  {
    if h != [] {
      var g, fs := h[..|h| - 1], es[..|es| - 1];
      assert forall k :: 0 <= k < |fs| ==> g[k] == h[k] && fs[k] == es[k];
      AllRouted(g, m, fs);
      assert es == fs + [es[|es| - 1]];
    }
  }
}
