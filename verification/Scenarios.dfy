/** Runs of the library, from the empty state, in which its weak spots show. */
module Scenarios {
  import opened Types
  import opened DeviceContexts
  import opened Protocol
  import opened PointerStability
  import opened ApiResults
  import opened DatabasePair
  import opened NewContexts
  import opened RunSteps
  import opened Shadowing
  import opened Timeouts
  import opened Wakeups

  // ----- one connected device

  /** One context, connected, whose mutex is free; no call is running. */
  ghost predicate Device(s: State, a: Address, h: Handle) {
    && s.items == [Zeroed(1).(address := a, handle := h, connected := true)]
    && s.owner == map[] && s.stores == [] && s.dbMemory == map[] && s.countMemory == map[] && s.leaked == {}
    && Idle(s) && s.threads.Keys == {0, 1} && s.history == [Entry(1, LinkEvent(Connected, h, a))]
  }

  lemma Connecting(a: Address) returns (r: Run)
    ensures Good(r) && (a != ZERO_ADDRESS ==> NamedRun(r))
    ensures Last(r) == StartState().(items := [Zeroed(1).(address := a)], capacity := 4, generation := 1, nextLock := 2,
                                     since := map[1 := 0],
                                     threads := map[0 := Busy(Connect(a), Request, Slot(1, 0), 1, 0, 0)])
  {
    var r0 := Nothing();
    var r1 := Begin(r0, 0, Connect(a));
    var r2 := AddContext(r1, 0);
    r := Copy(r2, 0);
    if a != ZERO_ADDRESS {
      NamedThen(r1, r0, DoBegin(0, Connect(a)));
      NamedThen(r2, r1, DoStart(0));
      NamedThen(r, r2, DoCopy(0));
    }
  }

  /** `bleConnect` has been accepted and is about to wait. */
  lemma Accepted(a: Address) returns (r: Run)
    ensures Good(r)
    ensures Last(r) == StartState().(items := [Zeroed(1).(address := a)], capacity := 4, generation := 1, nextLock := 2,
                                     since := map[1 := 0],
                                     threads := map[0 := Busy(Connect(a), WaitLock, Slot(1, 0), 1, 0, 0)])
  {
    r := Connecting(a);
    r := Answer(r, 0, Ok);
  }

  /** The device reports its connection. */
  lemma LinkReported(a: Address, h: Handle) returns (r: Run)
    ensures Good(r)
    ensures Last(r) == StartState().(
                         items := [Zeroed(1).(address := a, handle := h, connected := true)],
                         capacity := 4, generation := 1,
                         nextLock := 2, since := map[1 := 0], history := [Entry(1, LinkEvent(Connected, h, a))],
                         threads := map[0 := Busy(Connect(a), WaitLock, Slot(1, 0), 1, 0, 0),
                                        1 := Done(LinkChanged(Connected, true, h, a), Ok, NULL_HANDLE, 1, 0, 0)])
  {
    var p := Accepted(a);
    FirstOfOne(Last(p).items[0]);
    var q := CallbackToNotify(p, 1, LinkChanged(Connected, true, h, a), 0, p, 0);
    r := SignalsNobody(q, 1, q, 0);
    PutAndTaken(Last(p).owner, 1, 1);
    Overwritten(Last(p).threads, 1, Last(q).threads[1], Last(r).threads[1]);
  }

  /** `bleConnect` is accepted, the device reports that it is connected, and the call
      returns OK with its handle. */
  lemma ConnectedRun(a: Address, h: Handle) returns (r: Run)
    ensures Good(r) && Device(Last(r), a, h)
    ensures ReturnedOk(Last(r), 0) && Last(r).threads[0].call == Connect(a) && Last(r).threads[0].got == h
  {
    r := LinkReported(a, h);
    r := WaitPasses(r, 0, 0, r);
    r := ReadsHandle(r, 0, 0, r);
  }

  ghost predicate OnlyRunning(s: State, t: Tid) {
    forall u :: Running(s, u) ==> u == t
  }

  /** The call of thread 2 waits for the disconnection of the one device; nothing else runs. */
  lemma DisconnectRequested(a: Address, h: Handle) returns (r: Run)
    ensures Good(r) && |Last(r).items| == 1 && Last(r).items[0].address == a && Last(r).items[0].handle == h
    ensures Last(r).owner == map[] && Waiting(Last(r), 2, WaitLock, 0) && Last(r).threads[2].call == Disconnect(h)
    ensures OnlyRunning(Last(r), 2)
  {
    var p := ConnectedRun(a, h);
    FirstOfOne(Last(p).items[0]);
    var r1 := Begin(p, 2, Disconnect(h));
    var r2 := StartCall(r1, 2);
    r := Answer(r2, 2, Ok);
  }

  lemma DisconnectReported(a: Address, h: Handle) returns (r: Run)
    ensures Good(r) && |Last(r).items| == 1 && Last(r).items[0].handle == h && Last(r).items[0].disconnected
    ensures Last(r).owner == map[] && Waiting(Last(r), 2, WaitLock, 0) && Last(r).threads[2].call == Disconnect(h)
    ensures OnlyRunning(Last(r), 2)
  {
    var p := DisconnectRequested(a, h);
    FirstOfOne(Last(p).items[0]);
    assert Last(p).items == [Last(p).items[0]];
    var q := CallbackToNotify(p, 3, LinkChanged(Disconnected, true, h, a), 0, p, 2);
    forall w, m ensures !BlockedOn(Last(q), w, m) {
      assert Running(Last(q), w) ==> w == 3 || Running(Last(p), w);
    }
    r := SignalsNobody(q, 3, q, 2);
    PutAndTaken(Last(p).owner, Last(p).items[0].lock, 3);
    forall u | Running(Last(r), u) ensures u == 2 {
      assert Running(Last(p), u);
    }
  }

  /** `bleDisconnect` is accepted, the device reports that it is disconnected, and the
      call removes the context and returns OK. */
  lemma DisconnectedRun(a: Address, h: Handle)
    ensures exists r, n: nat :: Good(r) && n < |r.labels| && DisconnectReturns(r, n, 2) && r.states[n + 1] == Last(r)
                           && r.states[n].threads[2].call == Disconnect(h) && Last(r).items == []
  {
    var p := DisconnectReported(a, h);
    var q := WaitPasses(p, 2, 0, p);
    forall u | Holds(Last(q), u) ensures u == 2 {
      assert Running(Last(p), u);
    }
    var r := RemoveOnly(q, 2);
    assert DisconnectReturns(r, |q.labels|, 2);
  }

  // ----- an OK of `bleGetDatabase` that certifies nothing

  lemma DatabaseRequested(r: Run, t: Tid, h: Handle, servicesOut: Loc, countLoc: Loc) returns (q: Run)
    requires Good(r) && |Last(r).items| == 1 && Last(r).items[0].handle == h && Last(r).owner == map[] &&
             !Running(Last(r), t)
    ensures Good(q)
    ensures var s, c := Last(r), Last(r).items[0];
            Last(q) == s.(items := [c.(dbOut := Some(servicesOut), countOut := Some(countLoc))],
                          stores := s.stores + [Store(t, c.lock, servicesOut, countLoc, |s.history|)],
                          threads := s.threads[t := Busy(GetDatabase(h, servicesOut, countLoc), WaitLock,
                                                         Slot(s.generation, 0), c.lock,
                                                         |s.history|, 0)])
  {
    var s := Last(r);
    FirstOfOne(s.items[0]);
    assert s.items == [s.items[0]];
    var r1 := TakesStoreLock(r, t, GetDatabase(h, servicesOut, countLoc), 0, r, t + 1);
    q := StoresAndRequests(r1, t, 0, Ok, r1, t);
    PutAndTaken(s.owner, s.items[0].lock, t);
    Overwritten(s.threads, t, Last(r1).threads[t], Last(q).threads[t]);
  }

  lemma DatabaseAnswered(r: Run, u: Tid, h: Handle) returns (q: Run)
    requires Good(r) && |Last(r).items| == 1 && Last(r).items[0].handle == h && Last(r).owner == map[] &&
             !Running(Last(r), u)
    requires Last(r).items[0].dbOut.Some? && Last(r).items[0].countOut.Some?
    requires forall w :: !BlockedOn(Last(r), w, Last(r).items[0].lock)
    ensures Good(q)
    ensures var s, c, call := Last(r), Last(r).items[0], GotDatabase(h, [], 0);
            Last(q) == s.(items := [c.(retrieved := true)], history := s.history + [Entry(c.lock, EventOf(call))],
                          dbMemory := s.dbMemory[c.dbOut.value := []],
                          countMemory := s.countMemory[c.countOut.value := 0],
                          threads := s.threads[u := Done(call, Ok, NULL_HANDLE, c.lock, |s.history|, 0)])
  {
    var s := Last(r);
    FirstOfOne(s.items[0]);
    assert s.items == [s.items[0]];
    q := DatabaseArrives(r, u, GotDatabase(h, [], 0), 0, r, u + 1);
  }

  /** A call of thread 2 has stored its pointers in the one context, and a database
      callback of thread 3 has come. */
  lemma OneAnswered(h: Handle) returns (r: Run)
    ensures Good(r) && |Last(r).items| == 1 && Last(r).items[0].handle == h && Last(r).items[0].retrieved
    ensures Last(r).owner == map[] && Last(r).threads.Keys == {0, 1, 2, 3}
    ensures Last(r).stores == [Store(2, Last(r).items[0].lock, 200, 201, 1)]
    ensures Last(r).dbMemory.Keys == {200}
  {
    r := ConnectedRun(ZERO_ADDRESS, h);
    r := DatabaseRequested(r, 2, h, 200, 201);
    r := DatabaseAnswered(r, 3, h);
  }

  /** The flag was set: a second `bleGetDatabase` on a context returns OK although
      nothing has been written to its outputs, or ever had been. */
  lemma SecondDatabaseIsStale()
    ensures exists r, q, t, k ::
              Good(r) && ReturnsUnanswered(q, r, t, k) && Last(q).stores[k].servicesOut !in Last(q).dbMemory
  {
    var r := OneAnswered(7);
    FirstOfOne(Last(r).items[0]);
    assert Last(r).items == [Last(r).items[0]];
    var p := TakesStoreLock(r, 4, GetDatabase(7, 100, 101), 0, r, 0);
    var q := StaleAlone(p, 4);
    assert Good(p) && ReturnsUnanswered(q, p, 4, |Last(p).stores|);
    assert Last(q).stores[|Last(p).stores|].servicesOut == 100;
  }

  /** A call whose context had no database when it stored its pointers has returned OK,
      and nothing was ever written to its outputs. */
  ghost predicate Superseded(s: State, t: Tid, k: int) {
    && OwnStore(s, t, k) && Fresh(s, k) && ReturnedOk(s, t)
    && Unshared(s, k)
    && s.stores[k].servicesOut !in s.dbMemory && s.stores[k].countLoc !in s.countMemory
  }

  /** Calls of threads 2 and 3 have stored their pointers in the one context, in that order. */
  lemma BothRequested(h: Handle) returns (r: Run)
    ensures Good(r) && |Last(r).items| == 1 && Last(r).items[0].handle == h && Last(r).items[0].lock == 1
    ensures Last(r).items[0].dbOut == Some(200) && Last(r).items[0].countOut == Some(201)
    ensures Last(r).owner == map[] && Last(r).threads.Keys == {0, 1, 2, 3}
    ensures forall t :: t in {0, 1} ==> Last(r).threads[t].Done?
    ensures Waiting(Last(r), 2, WaitLock, 0) && Waiting(Last(r), 3, WaitLock, 0)
    ensures Last(r).threads[2].call == GetDatabase(h, 100, 101)
    ensures Last(r).stores == [Store(2, 1, 100, 101, 1), Store(3, 1, 200, 201, 1)]
    ensures Last(r).dbMemory == map[] && Last(r).countMemory == map[]
    ensures |Last(r).history| == 1 && !Last(r).history[0].event.DatabaseEvent?
  {
    r := ConnectedRun(ZERO_ADDRESS, h);
    r := DatabaseRequested(r, 2, h, 100, 101);
    r := DatabaseRequested(r, 3, h, 200, 201);
  }

  lemma SecondAnswered(h: Handle) returns (r: Run)
    ensures Good(r) && |Last(r).items| == 1 && Last(r).owner == map[] && Last(r).items[0].retrieved &&
            Last(r).items[0].lock == 1
    ensures Waiting(Last(r), 2, WaitLock, 0) && Last(r).threads[2].call == GetDatabase(h, 100, 101)
    ensures Last(r).stores == [Store(2, 1, 100, 101, 1), Store(3, 1, 200, 201, 1)]
    ensures 100 !in Last(r).dbMemory && 101 !in Last(r).countMemory
    ensures |Last(r).history| == 2 && !Last(r).history[0].event.DatabaseEvent?
  {
    r := BothRequested(h);
    r := DatabaseAnswered(r, 4, h);
  }

  /** Another call stored in between, so the callback wrote to that call's locations. */
  lemma OverwrittenPointersGiveOk()
    ensures exists r, t, k :: Good(r) && Superseded(Last(r), t, k)
  {
    var r := SecondAnswered(7);
    r := WaitPasses(r, 2, 0, r);
    assert Superseded(Last(r), 2, 0);
  }

  // ----- inside a link change

  /** A device that has disconnected connects again: between the callback's first and
      second write its context is both connected and disconnected. */
  lemma BothFlagsInside()
    ensures exists r :: Good(r) && |Last(r).items| == 1 && Last(r).items[0].connected && Last(r).items[0].disconnected
  {
    var r := ConnectedRun(ZERO_ADDRESS, 7);
    FirstOfOne(Last(r).items[0]);
    r := CallbackToNotify(r, 2, LinkChanged(Disconnected, true, 7, ZERO_ADDRESS), 0, r, 0);
    r := SignalsNobody(r, 2, r, 0);
    r := ConnectsAgain(r);
  }

  lemma ConnectsAgain(r: Run) returns (q: Run)
    requires Good(r) && |Last(r).items| == 1 && Last(r).items[0].address == ZERO_ADDRESS &&
             Last(r).items[0].disconnected
    requires Last(r).owner == map[] && !Running(Last(r), 3)
    ensures Good(q) && |Last(q).items| == 1 && Last(q).items[0].connected && Last(q).items[0].disconnected
  {
    FirstOfOne(Last(r).items[0]);
    assert Last(r).items == [Last(r).items[0]];
    q := CallbackLooks(r, 3, LinkChanged(Connected, true, 8, ZERO_ADDRESS), 0, r, 0);
    q := Acquire(q, 3);
    q := WriteField(q, 3);
  }

  // ----- a failed clone

  /** After a failed clone the callback is at the application's callback with the
      mutex of its context still held, and left locked for good. */
  lemma FailedCloneLeavesMutexHeld()
    ensures exists r, t, m ::
              Good(r) && At(Last(r), t, AppCallback)
              && m in Last(r).owner && Last(r).owner[m] == t && m in Last(r).leaked
  {
    var r := ConnectedRun(ZERO_ADDRESS, 7);
    r := DatabaseRequested(r, 2, 7, 100, 101);
    FirstOfOne(Last(r).items[0]);
    r := DatabaseLocks(r, 3, GotDatabase(7, [], 0), 0, r, 0);
    r := Clone(r, 3, false);
    assert At(Last(r), 3, AppCallback) && 1 in Last(r).owner && Last(r).owner[1] == 3 && 1 in Last(r).leaked;
  }

  // ----- waits

  /** A `bleDiscoverAllServices` that is accepted and finds its flag clear. */
  lemma DiscoveryBlocks(r: Run, t: Tid, h: Handle) returns (q: Run)
    requires Good(r) && |Last(r).items| == 1 && Last(r).items[0].handle == h && !Last(r).items[0].discovered
    requires Last(r).items[0].lock !in Last(r).owner && !Running(Last(r), t)
    ensures Good(q)
    ensures var s, m := Last(r), Last(r).items[0].lock;
            Last(q) == s.(threads := s.threads[t := Busy(Discover(h), Blocked(m), Slot(s.generation, 0), m,
                                                         |s.history|, 0)])
  {
    FirstOfOne(Last(r).items[0]);
    assert Last(r).items == [Last(r).items[0]];
    var r1 := Begin(r, t, Discover(h));
    var r2 := StartCall(r1, t);
    var r3 := Answer(r2, t, Ok);
    q := AcquiresAndBlocks(r3, t, 0);
    Overwritten(Last(r).threads, t, Last(r1).threads[t], Last(r2).threads[t]);
    Overwritten(Last(r).threads, t, Last(r2).threads[t], Last(r3).threads[t]);
    Overwritten(Last(r).threads, t, Last(r3).threads[t], Last(q).threads[t]);
  }

  lemma AcquiresAndBlocks(r: Run, t: Tid, i: nat) returns (q: Run)
    requires Good(r) && Waiting(Last(r), t, WaitLock, i) && !Flag(Last(r), Last(r).threads[t])
    requires Last(r).items[i].lock !in Last(r).owner
    ensures Good(q)
    ensures var s, th, m := Last(r), Last(r).threads[t], Last(r).items[i].lock;
            Last(q) == s.(threads := s.threads[t := Goto(th, Blocked(m))])
  {
    var p := Acquire(r, t);
    q := Block(p, t);
    PutAndTaken(Last(r).owner, Last(r).items[i].lock, t);
    Overwritten(Last(r).threads, t, Last(p).threads[t], Last(q).threads[t]);
  }

  /** The discovery callback, thread 4, is about to signal the one context. */
  ghost predicate Discovered(s: State) {
    && s.owner == map[1 := 4] && |s.items| == 1 && s.items[0].lock == 1 && s.items[0].discovered
    && Waiting(s, 4, Notify, 0) && s.threads[4].call.ServicesDiscovered?
  }

  ghost predicate DiscoveryWaiter(s: State, t: Tid) {
    t in s.threads && s.threads[t] == Busy(Discover(7), Blocked(1), Slot(s.generation, 0), 1, s.threads[t].born, 0)
  }

  lemma DiscoveryArrives(r: Run) returns (q: Run)
    requires Good(r) && |Last(r).items| == 1 && Last(r).items[0].handle == 7 && Last(r).items[0].lock == 1
    requires Last(r).owner == map[] && !Running(Last(r), 4)
    ensures Good(q) && Discovered(Last(q)) && Last(q).generation == Last(r).generation
    ensures forall t: Tid :: t != 4 ==> (t in Last(q).threads <==> t in Last(r).threads)
    ensures forall t: Tid :: t != 4 && t in Last(r).threads ==> Last(q).threads[t] == Last(r).threads[t]
  {
    FirstOfOne(Last(r).items[0]);
    assert Last(r).items == [Last(r).items[0]];
    q := CallbackToNotify(r, 4, ServicesDiscovered(7, true), 0, r, 0);
  }

  lemma OneWaits() returns (r: Run)
    ensures Good(r) && Discovered(Last(r)) && DiscoveryWaiter(Last(r), 2)
  {
    r := ConnectedRun(ZERO_ADDRESS, 7);
    r := DiscoveryBlocks(r, 2, 7);
    r := DiscoveryArrives(r);
  }

  lemma TwoWait() returns (r: Run)
    ensures Good(r) && Discovered(Last(r)) && DiscoveryWaiter(Last(r), 2) && DiscoveryWaiter(Last(r), 3)
  {
    r := ConnectedRun(ZERO_ADDRESS, 7);
    r := DiscoveryBlocks(r, 2, 7);
    r := DiscoveryBlocks(r, 3, 7);
    r := DiscoveryArrives(r);
  }

  /** The signal wakes thread 2 and the callback unlocks. */
  lemma WakesFirst(r: Run) returns (q: Run)
    requires Good(r) && Discovered(Last(r)) && DiscoveryWaiter(Last(r), 2)
    ensures Good(q) && Last(q).items == Last(r).items && Last(q).generation == Last(r).generation &&
            Last(q).owner == map[]
    ensures 2 in Last(q).threads && Last(q).threads[2] == Goto(Last(r).threads[2], Relock(false))
    ensures forall t: Tid :: t !in {2, 4} && t in Last(r).threads ==>
              t in Last(q).threads && Last(q).threads[t] == Last(r).threads[t]
  {
    assert BlockedOn(Last(r), 2, 1);
    var p := Signal(r, 4, {2});
    q := Release(p, 4);
  }

  /** Two callers wait for the same discovery; the signal wakes one of them, and the
      other sleeps on with its flag true and the mutex free. */
  lemma SecondWaiterIsLost()
    ensures exists r, w, m :: Good(r) && Lost(Last(r), w, m)
  {
    var p := TwoWait();
    var r := WakesFirst(p);
    assert Lost(Last(r), 3, 1);
  }

  /** The call has returned TIMEOUT although its flag is set. */
  ghost predicate TimedOutDespiteFlag(s: State, t: Tid, i: nat) {
    && t in s.threads && Ended(s.threads[t]) && s.threads[t].call.Discover?
    && i < |s.items| && s.items[i].lock == s.threads[t].id && s.items[i].discovered
  }

  /** The event comes and the waiter is notified, but the deadline passes before it
      has its mutex back. */
  lemma NotifiedWaiterTimesOut()
    ensures exists r, t, i :: Good(r) && TimedOutDespiteFlag(Last(r), t, i)
  {
    var r := OneWaits();
    r := WakesFirst(r);
    r := TimeOut(r, 2);
    r := Acquire(r, 2);
    r := Release(r, 2);
    assert TimedOutDespiteFlag(Last(r), 2, 0);
  }

  // ----- a second attempt on an address

  /** A `bleConnect` that was refused leaves its context behind, and a second one to
      the same address cannot return OK while that stays. */
  lemma RetryIsShadowed(a: Address)
    requires a != ZERO_ADDRESS
    ensures exists r :: JustCopied(r, 1) && RefusedBefore(Last(r), a) && forall q :: !Connects(q, r, 1)
  {
    var r0 := Connecting(a);
    var r1 := Answer(r0, 0, GeneralError);
    var r2 := Begin(r1, 1, Connect(a));
    var r3 := AddContext(r2, 1);
    var r := Copy(r3, 1);
    NamedThen(r1, r0, DoRequest(0, GeneralError));
    NamedThen(r2, r1, DoBegin(1, Connect(a)));
    NamedThen(r3, r2, DoStart(1));
    NamedThen(r, r3, DoCopy(1));
    assert JustCopied(r, 1) && RefusedBefore(Last(r), a);
    forall q ensures !Connects(q, r, 1) {
      ShadowedNeverReturnsOk(r, 1, 0, q);
    }
  }

  /** Thread 0 was refused, and thread 1 has tried again; nothing else has happened. */
  ghost predicate RefusedBefore(s: State, a: Address) {
    && s.threads.Keys == {0, 1}
    && s.threads[0].Done? && s.threads[0].call == Connect(a) && s.threads[0].status == GeneralError
    && s.threads[1].call == Connect(a) && s.history == [] && s.owner == map[]
  }
}
