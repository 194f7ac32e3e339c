/** Runs built step by step: each lemma extends a guarded run by one step, or by
    the steps of one call or callback, and says what the last state becomes. The
    lemmas are used to show that something can happen, from the empty state or
    from the end of a given run. */
module RunSteps {
  import opened Types
  import opened DeviceContexts
  import opened Protocol
  import opened PointerStability

  ghost predicate Good(r: Run) {
    IsRun(r) && Guarded(r)
  }

  ghost predicate Extends(q: Run, r: Run)
    requires IsRun(q) && IsRun(r)
  {
    r.states <= q.states && r.labels <= q.labels
  }

  /** `q` is `r` and one more step `l`, after which the state is `s'`. */
  ghost predicate Then(q: Run, r: Run, l: Label, s': State)
    requires IsRun(r)
  {
    Good(q) && Last(q) == s' && q.labels == r.labels + [l] && q.states == r.states + [s']
  }

  /** `q` is `r` and some more steps, none of which begins a call of `t` or removes a context. */
  ghost predicate Later(q: Run, r: Run, t: Tid)
    requires IsRun(r)
  {
    && Good(q) && Extends(q, r)
    && forall k :: |r.labels| <= k < |q.labels| ==>
         !q.labels[k].DoRemove? && !(q.labels[k].DoBegin? && q.labels[k].t == t)
  }

  lemma Forward(r: Run, l: Label) returns (q: Run)
    requires Good(r) && Enabled(Last(r), l) && Guard(Last(r), l)
    ensures Then(q, r, l, Apply(Last(r), l))
  {
    q := Extend(r, l);
    forall k | 0 <= k < |q.labels| ensures GuardAt(q, k) {
      assert StepAt(q, k);
      if k < |r.labels| {
        assert GuardAt(r, k);
        assert q.states[k] == r.states[k] && q.labels[k] == r.labels[k];
      } else {
        assert q.states[k] == Last(r) && q.labels[k] == l;
      }
    }
  }

  lemma LaterStep(q: Run, p: Run, r: Run, t: Tid, l: Label, s': State)
    requires IsRun(r) && Later(p, r, t) && Then(q, p, l, s')
    requires !l.DoRemove? && !(l.DoBegin? && l.t == t)
    ensures Later(q, r, t)
  {
    forall k | |r.labels| <= k < |q.labels|
      ensures !q.labels[k].DoRemove? && !(q.labels[k].DoBegin? && q.labels[k].t == t) {
      if k < |p.labels| {
        assert q.labels[k] == p.labels[k];
      }
    }
  }

  ghost function StartState(): (s: State)
    ensures Init(s)
  {
    State([], 0, 0, 1, Vars(false, false, false), map[], map[], map[], map[], [], [], map[], {})
  }

  lemma Nothing() returns (r: Run)
    ensures Good(r) && Last(r) == StartState() && r.labels == []
  {
    r := Run([StartState()], []);
  }

  // ----- one step

  lemma Begin(r: Run, t: Tid, call: Call) returns (q: Run)
    requires Good(r) && !Running(Last(r), t)
    ensures var s := Last(r);
            Then(q, r, DoBegin(t, call), s.(threads := s.threads[t := Busy(call, Start, Globals, 0, |s.history|, 0)]))
  {
    q := Forward(r, DoBegin(t, call));
  }

  lemma StartCall(r: Run, t: Tid) returns (q: Run)
    requires Good(r) && At(Last(r), t, Start) && !Last(r).threads[t].call.Connect?
    ensures var s := Last(r);
            Then(q, r, DoStart(t), s.(threads := s.threads[t := Started(s, s.threads[t])]))
  {
    q := Forward(r, DoStart(t));
  }

  lemma AddContext(r: Run, t: Tid) returns (q: Run)
    requires Good(r) && At(Last(r), t, Start) && Last(r).threads[t].call.Connect? && Guard(Last(r), DoStart(t))
    ensures var s := Last(r);
            Then(q, r, DoStart(t), s.(items := s.items + [Zeroed(s.nextLock)], generation := GenerationAfterAdd(s),
                                      capacity := if Full(s) then Grown(s.capacity) else s.capacity,
                                      nextLock := s.nextLock + 1,
                                      threads := s.threads[t := Added(s, s.threads[t].call)]))
  {
    q := Forward(r, DoStart(t));
  }

  lemma Copy(r: Run, t: Tid) returns (q: Run)
    requires Good(r) && At(Last(r), t, CopyAddress) && Holds(Last(r), t) && Last(r).threads[t].call.Connect?
    ensures var s, th := Last(r), Last(r).threads[t];
            var i := th.ptr.index;
            Then(q, r, DoCopy(t), s.(items := s.items[i := s.items[i].(address := th.call.address)],
                                     since := s.since[th.id := |s.history|],
                                     threads := s.threads[t := Goto(th, Request)]))
  {
    q := Forward(r, DoCopy(t));
  }

  lemma StoreFirst(r: Run, t: Tid) returns (q: Run)
    requires Good(r) && At(Last(r), t, StoreServices) && Holds(Last(r), t) && Last(r).threads[t].call.GetDatabase?
    ensures var s, th := Last(r), Last(r).threads[t];
            var i := th.ptr.index;
            Then(q, r, DoStore(t), s.(items := s.items[i := s.items[i].(dbOut := Some(th.call.servicesOut))],
                                      stores := s.stores + [Store(t, th.id, th.call.servicesOut, th.call.countLoc,
                                                                  |s.history|)],
                                      threads := s.threads[t := Goto(th, StoreCount)]))
  {
    q := Forward(r, DoStore(t));
  }

  lemma StoreSecond(r: Run, t: Tid) returns (q: Run)
    requires Good(r) && At(Last(r), t, StoreCount) && Holds(Last(r), t) && Last(r).threads[t].call.GetDatabase?
    ensures var s, th := Last(r), Last(r).threads[t];
            var i := th.ptr.index;
            Then(q, r, DoStore(t), s.(items := s.items[i := s.items[i].(countOut := Some(th.call.countLoc))],
                                      threads := s.threads[t := Goto(th, StoreUnlock)]))
  {
    q := Forward(r, DoStore(t));
  }

  lemma Answer(r: Run, t: Tid, status: Status) returns (q: Run)
    requires Good(r) && At(Last(r), t, Request) && !Last(r).threads[t].call.Deregister?
    ensures var s, th := Last(r), Last(r).threads[t];
            Then(q, r, DoRequest(t, status),
                 s.(threads := s.threads[t := if status == Ok then Goto(th, WaitLock) else Finished(th, status)]))
  {
    q := Forward(r, DoRequest(t, status));
  }

  lemma Acquire(r: Run, t: Tid) returns (q: Run)
    requires Good(r) && Running(Last(r), t) && Locking(Last(r).threads[t].pc) && Live(Last(r), Last(r).threads[t].ptr)
    requires LockAt(Last(r), Last(r).threads[t].ptr) !in Last(r).owner
    ensures var s, th := Last(r), Last(r).threads[t];
            Then(q, r, DoAcquire(t), s.(owner := s.owner[LockAt(s, th.ptr) := t],
                                        threads := s.threads[t := AfterAcquire(th, |s.history|)]))
  {
    q := Forward(r, DoAcquire(t));
  }

  lemma Release(r: Run, t: Tid) returns (q: Run)
    requires Good(r) && Running(Last(r), t) && Releasing(Last(r).threads[t].pc) && Live(Last(r), Last(r).threads[t].ptr)
    ensures var s, th := Last(r), Last(r).threads[t];
            Then(q, r, DoRelease(t),
                 s.(owner := s.owner - {LockAt(s, th.ptr)}, threads := s.threads[t := AfterRelease(th)]))
  {
    q := Forward(r, DoRelease(t));
  }

  lemma Pass(r: Run, t: Tid) returns (q: Run)
    requires Good(r) && At(Last(r), t, Test) && Flag(Last(r), Last(r).threads[t])
    ensures var s, th := Last(r), Last(r).threads[t];
            Then(q, r, DoTest(t), s.(threads := s.threads[t := Goto(th, Passed).(stamp := |s.history|)]))
  {
    q := Forward(r, DoTest(t));
  }

  lemma Block(r: Run, t: Tid) returns (q: Run)
    requires Good(r) && At(Last(r), t, Test) && !Flag(Last(r), Last(r).threads[t])
    ensures var s, th := Last(r), Last(r).threads[t];
            var m := LockAt(s, th.ptr);
            Then(q, r, DoTest(t), s.(owner := s.owner - {m}, threads := s.threads[t := Goto(th, Blocked(m))]))
  {
    q := Forward(r, DoTest(t));
  }

  lemma TimeOut(r: Run, t: Tid) returns (q: Run)
    requires Good(r) && Running(Last(r), t) && Last(r).threads[t].pc == Relock(false)
    ensures var s, th := Last(r), Last(r).threads[t];
            Then(q, r, DoWake(t, true), s.(threads := s.threads[t := Goto(th, Relock(true))]))
  {
    q := Forward(r, DoWake(t, true));
  }

  lemma ReadOut(r: Run, t: Tid) returns (q: Run)
    requires Good(r) && At(Last(r), t, ReadHandle) && Holds(Last(r), t)
    ensures var s, th := Last(r), Last(r).threads[t];
            Then(q, r, DoRead(t), s.(threads := s.threads[t := Goto(th, ReadUnlock(s.items[th.ptr.index].handle))]))
  {
    q := Forward(r, DoRead(t));
  }

  lemma Check(r: Run, t: Tid) returns (q: Run)
    requires Good(r) && At(Last(r), t, CheckOuts) && Holds(Last(r), t)
    requires var c := Last(r).items[Last(r).threads[t].ptr.index]; c.dbOut.Some? && c.countOut.Some?
    ensures var s, th := Last(r), Last(r).threads[t];
            Then(q, r, DoCheckOuts(t), s.(threads := s.threads[t := Goto(th, CbLock)]))
  {
    q := Forward(r, DoCheckOuts(t));
  }

  lemma WriteField(r: Run, t: Tid) returns (q: Run)
    requires Good(r) && (At(Last(r), t, Write) || At(Last(r), t, SecondField)) && Holds(Last(r), t)
    requires MoreFields(Last(r).threads[t].call, Last(r).threads[t].pc)
    ensures var s, th := Last(r), Last(r).threads[t];
            var i := th.ptr.index;
            Then(q, r, DoField(t),
                 s.(items := s.items[i := EarlierField(s.items[i], th.call, th.pc)],
                    threads := s.threads[t := Goto(th, if th.pc == Write then SecondField else ThirdField)]))
  {
    q := Forward(r, DoField(t));
  }

  lemma Deliver(r: Run, t: Tid) returns (q: Run)
    requires Good(r) && Running(Last(r), t) && Live(Last(r), Last(r).threads[t].ptr) && Holds(Last(r), t)
    requires Last(r).threads[t].pc in {Write, SecondField, ThirdField}
    requires LastField(Last(r).threads[t].call, Last(r).threads[t].pc)
    requires Applies(Last(r).threads[t].call) && !Last(r).threads[t].call.GotDatabase?
    ensures var s, th := Last(r), Last(r).threads[t];
            var i, e := th.ptr.index, EventOf(th.call);
            Then(q, r, DoWrite(t),
                 s.(items := s.items[i := FinalField(s.items[i], e)], history := s.history + [Entry(th.id, e)],
                    threads := s.threads[t := Goto(th, Notify)]))
  {
    q := Forward(r, DoWrite(t));
  }

  lemma Clone(r: Run, t: Tid, ok: bool) returns (q: Run)
    requires Good(r) && At(Last(r), t, Write) && Holds(Last(r), t) && Last(r).threads[t].call.GotDatabase?
    requires Last(r).items[Last(r).threads[t].ptr.index].dbOut.Some?
    ensures var s, th := Last(r), Last(r).threads[t];
            var c := s.items[th.ptr.index];
            Then(q, r, DoClone(t, ok, []),
                 s.(dbMemory := s.dbMemory[c.dbOut.value := if ok then th.call.services else []],
                    leaked := if ok then s.leaked else s.leaked + {c.lock},
                    threads := s.threads[t := if ok then Goto(th, WriteCount) else Leave(th, AppCallback)]))
  {
    q := Forward(r, DoClone(t, ok, []));
  }

  lemma CountOut(r: Run, t: Tid) returns (q: Run)
    requires Good(r) && At(Last(r), t, WriteCount) && Holds(Last(r), t) && Last(r).threads[t].call.GotDatabase?
    requires Last(r).items[Last(r).threads[t].ptr.index].countOut.Some?
    ensures var s, th := Last(r), Last(r).threads[t];
            var c := s.items[th.ptr.index];
            Then(q, r, DoCount(t), s.(countMemory := s.countMemory[c.countOut.value := th.call.count],
                                      threads := s.threads[t := Goto(th, WriteFlag)]))
  {
    q := Forward(r, DoCount(t));
  }

  lemma SetFlag(r: Run, t: Tid) returns (q: Run)
    requires Good(r) && At(Last(r), t, WriteFlag) && Holds(Last(r), t) && Last(r).threads[t].call.GotDatabase?
    ensures var s, th := Last(r), Last(r).threads[t];
            var i, e := th.ptr.index, EventOf(th.call);
            Then(q, r, DoFlag(t), s.(items := s.items[i := ApplyToContext(s.items[i], e)],
                                     history := s.history + [Entry(th.id, e)],
                                     threads := s.threads[t := Goto(th, Notify)]))
  {
    q := Forward(r, DoFlag(t));
  }

  lemma Signal(r: Run, t: Tid, woken: set<Tid>) returns (q: Run)
    requires Good(r) && At(Last(r), t, Notify) && CanSignal(Last(r), LockAt(Last(r), Last(r).threads[t].ptr), woken)
    ensures var s, th := Last(r), Last(r).threads[t];
            Then(q, r, DoSignal(t, woken), s.(threads := Wake(s.threads, woken)[t := Goto(th, CbUnlock)]))
  {
    q := Forward(r, DoSignal(t, woken));
  }

  /** A removal when nobody else holds a pointer. */
  lemma RemoveOnly(r: Run, t: Tid) returns (q: Run)
    requires Good(r) && At(Last(r), t, RemoveEntry) && Last(r).threads[t].call.Disconnect?
    requires |Last(r).items| == 1 && Last(r).items[0].handle == Last(r).threads[t].call.handle
    requires forall u :: u != t ==> !Holds(Last(r), u)
    ensures Good(q) && Then(q, r, DoRemove(t), Last(q))
    ensures Last(q).items == [] && Last(q).threads == Last(r).threads[t := Finished(Last(r).threads[t], Ok)]
  {
    FirstOfOne(Last(r).items[0]);
    assert Last(r).items == [Last(r).items[0]];
    q := Forward(r, DoRemove(t));
  }

  lemma RunApp(r: Run, t: Tid) returns (q: Run)
    requires Good(r) && At(Last(r), t, AppCallback)
    ensures var s, th := Last(r), Last(r).threads[t];
            Then(q, r, DoApp(t), s.(threads := s.threads[t := Finished(th, Ok)]))
  {
    q := Forward(r, DoApp(t));
  }

  // ----- which contexts a run changes

  predicate SameBut(a: seq<DeviceContext>, b: seq<DeviceContext>, i: nat) {
    |a| == |b| && forall j :: 0 <= j < |a| ==> if j == i then b[j].lock == a[j].lock else b[j] == a[j]
  }

  /** The steps that `q` adds to `r` change no context but the one at `i`. */
  ghost predicate OnlyContext(q: Run, r: Run, i: nat)
    requires IsRun(r)
  {
    forall n :: |r.states| <= n < |q.states| ==> SameBut(Last(r).items, q.states[n].items, i)
  }

  lemma OnlyContextStep(q: Run, p: Run, r: Run, i: nat, l: Label, s': State)
    requires IsRun(r) && IsRun(p) && OnlyContext(p, r, i) && Then(q, p, l, s')
    requires SameBut(Last(r).items, s'.items, i)
    ensures OnlyContext(q, r, i)
  {
    forall n | |r.states| <= n < |q.states| ensures SameBut(Last(r).items, q.states[n].items, i) {
      if n < |p.states| {
        assert q.states[n] == p.states[n];
      }
    }
  }

  lemma OnlyContextTrans(q: Run, p: Run, r: Run, i: nat)
    requires IsRun(r) && IsRun(p) && IsRun(q) && Extends(p, r) && Extends(q, p)
    requires OnlyContext(p, r, i) && OnlyContext(q, p, i) && SameBut(Last(r).items, Last(p).items, i)
    ensures OnlyContext(q, r, i)
  {
    forall n | |r.states| <= n < |q.states| ensures SameBut(Last(r).items, q.states[n].items, i) {
      if n < |p.states| {
        assert q.states[n] == p.states[n];
      } else {
        assert SameBut(Last(p).items, q.states[n].items, i);
      }
    }
  }

  // ----- the steps of one call or callback

  predicate Idle(s: State) {
    forall t :: t in s.threads ==> s.threads[t].Done?
  }

  lemma FirstOfOne(c: DeviceContext)
    ensures FirstByAddress([c], c.address) == Some(0) && FirstByHandle([c], c.handle) == Some(0)
  {
  }

  lemma PutAndTaken<V>(m: map<nat, V>, k: nat, v: V)
    requires k !in m
    ensures m[k := v] - {k} == m
  {
  }

  lemma Overwritten<V>(m: map<nat, V>, k: nat, v: V, w: V)
    ensures m[k := v][k := w] == m[k := w]
  {
  }

  predicate Finds(s: State, call: Call, i: nat) {
    match call
    case LinkChanged(_, success, _, a) => success && FirstByAddress(s.items, a) == Some(i)
    case ServicesDiscovered(h, success) => success && FirstByHandle(s.items, h) == Some(i)
    case _ => false
  }

  /** A link or discovery callback finds its context. In this lemma and the next ones
      thread `t` is some other thread, whose call has gone on since run `base`. */
  lemma CallbackLooks(r: Run, u: Tid, call: Call, i: nat, base: Run, t: Tid) returns (q: Run)
    requires IsRun(base) && Later(r, base, t) && t != u
    requires !Running(Last(r), u) && i < |Last(r).items| && Finds(Last(r), call, i)
    ensures Later(q, base, t)
    ensures var s, c := Last(r), Last(r).items[i];
            Last(q) == s.(threads := s.threads[u := Busy(call, CbLock, Slot(s.generation, i), c.lock, |s.history|, 0)])
  {
    var r1 := Begin(r, u, call);
    LaterStep(r1, r, base, t, DoBegin(u, call), Last(r1));
    q := StartCall(r1, u);
    LaterStep(q, r1, base, t, DoStart(u), Last(q));
  }

  /** It goes on to the point where it is about to signal. */
  lemma CallbackDelivers(r: Run, u: Tid, i: nat, base: Run, t: Tid) returns (q: Run)
    requires IsRun(base) && Later(r, base, t) && t != u
    requires Running(Last(r), u) && Last(r).threads[u].pc == CbLock
    requires Applies(Last(r).threads[u].call) && !Last(r).threads[u].call.GotDatabase?
    requires i < |Last(r).items| && Last(r).threads[u].ptr == Slot(Last(r).generation, i)
    requires Last(r).items[i].lock !in Last(r).owner
    ensures Later(q, base, t)
    ensures var s, th, c := Last(r), Last(r).threads[u], Last(r).items[i];
            var e := EventOf(th.call);
            Last(q) == s.(items := s.items[i := ApplyToContext(c, e)], history := s.history + [Entry(th.id, e)],
                          owner := s.owner[c.lock := u], threads := s.threads[u := Goto(th, Notify)])
  {
    var r1 := Acquire(r, u);
    LaterStep(r1, r, base, t, DoAcquire(u), Last(r1));
    q := WritesFields(r1, u, i, base, t);
  }

  /** The writes of a callback, one or more. */
  lemma WritesFields(r: Run, u: Tid, i: nat, base: Run, t: Tid) returns (q: Run)
    requires IsRun(base) && Later(r, base, t) && t != u && Waiting(Last(r), u, Write, i)
    requires Applies(Last(r).threads[u].call) && !Last(r).threads[u].call.GotDatabase?
    ensures Later(q, base, t)
    ensures var s, th, c := Last(r), Last(r).threads[u], Last(r).items[i];
            var e := EventOf(th.call);
            Last(q) == s.(items := s.items[i := ApplyToContext(c, e)], history := s.history + [Entry(th.id, e)],
                          threads := s.threads[u := Goto(th, Notify)])
  {
    var th := Last(r).threads[u];
    q := r;
    if MoreFields(th.call, Write) {
      q := WriteField(r, u);
      LaterStep(q, r, base, t, DoField(u), Last(q));
    }
    q := WritesRest(q, r, u, i, base, t);
  }

  /** What is left to write after the first field, if there was one. */
  lemma WritesRest(p: Run, r: Run, u: Tid, i: nat, base: Run, t: Tid) returns (q: Run)
    requires IsRun(r) && IsRun(base) && Later(p, base, t) && t != u && Waiting(Last(r), u, Write, i)
    requires Applies(Last(r).threads[u].call) && !Last(r).threads[u].call.GotDatabase?
    requires var s, th := Last(r), Last(r).threads[u];
             if MoreFields(th.call, Write)
             then Last(p) == s.(items := s.items[i := EarlierField(s.items[i], th.call, Write)],
                                threads := s.threads[u := Goto(th, SecondField)])
             else Last(p) == s
    ensures Later(q, base, t)
    ensures var s, th, c := Last(r), Last(r).threads[u], Last(r).items[i];
            var e := EventOf(th.call);
            Last(q) == s.(items := s.items[i := ApplyToContext(c, e)], history := s.history + [Entry(th.id, e)],
                          threads := s.threads[u := Goto(th, Notify)])
  {
    var s, th := Last(r), Last(r).threads[u];
    var m := p;
    if MoreFields(th.call, SecondField) {
      m := WriteField(p, u);
      LaterStep(m, p, base, t, DoField(u), Last(m));
      Overwritten(s.threads, u, Last(p).threads[u], Last(m).threads[u]);
    }
    q := Deliver(m, u);
    LaterStep(q, m, base, t, DoWrite(u), Last(q));
    Overwritten(s.threads, u, Last(m).threads[u], Last(q).threads[u]);
  }

  lemma CallbackToNotify(r: Run, u: Tid, call: Call, i: nat, base: Run, t: Tid) returns (q: Run)
    requires IsRun(base) && Later(r, base, t) && t != u
    requires !Running(Last(r), u) && i < |Last(r).items| && Finds(Last(r), call, i)
    requires Last(r).items[i].lock !in Last(r).owner
    ensures Later(q, base, t)
    ensures var s, c, e := Last(r), Last(r).items[i], EventOf(call);
            Last(q) == s.(items := s.items[i := ApplyToContext(c, e)], history := s.history + [Entry(c.lock, e)],
                          owner := s.owner[c.lock := u],
                          threads := s.threads[u := Busy(call, Notify, Slot(s.generation, i), c.lock, |s.history|, 0)])
  {
    q := CallbackLooks(r, u, call, i, base, t);
    q := CallbackDelivers(q, u, i, base, t);
  }

  /** With nobody to wake it signals and unlocks. */
  lemma SignalsNobody(r: Run, u: Tid, base: Run, t: Tid) returns (q: Run)
    requires IsRun(base) && Later(r, base, t) && t != u
    requires At(Last(r), u, Notify) && Holds(Last(r), u)
    requires forall w :: !BlockedOn(Last(r), w, LockAt(Last(r), Last(r).threads[u].ptr))
    ensures Later(q, base, t)
    ensures var s, th := Last(r), Last(r).threads[u];
            Last(q) == s.(owner := s.owner - {LockAt(s, th.ptr)},
                          threads := s.threads[u := AfterRelease(Goto(th, CbUnlock))])
  {
    var r1 := Signal(r, u, {});
    LaterStep(r1, r, base, t, DoSignal(u, {}), Last(r1));
    assert Wake(Last(r).threads, {}) == Last(r).threads;
    q := Release(r1, u);
    LaterStep(q, r1, base, t, DoRelease(u), Last(q));
  }

  /** Thread `t` waits for the flag of context `i`, or for its mutex. */
  predicate Waiting(s: State, t: Tid, pc: Pc, i: nat) {
    At(s, t, pc) && i < |s.items| && s.threads[t].ptr == Slot(s.generation, i)
  }

  /** A wait that finds the mutex free and the flag set. */
  lemma WaitPasses(r: Run, t: Tid, i: nat, base: Run) returns (q: Run)
    requires IsRun(base) && Later(r, base, t) && Waiting(Last(r), t, WaitLock, i)
    requires Flag(Last(r), Last(r).threads[t]) && Last(r).items[i].lock !in Last(r).owner
    ensures Later(q, base, t)
    ensures var s, th := Last(r), Last(r).threads[t];
            Last(q) == s.(threads := s.threads[t := AfterRelease(
                            Busy(th.call, Passed, th.ptr, th.id, th.born, |s.history|))])
    ensures Extends(q, r) && OnlyContext(q, r, i)
    ensures q.labels[|q.labels| - 1] == DoRelease(t) && |q.labels| > |base.labels|
  {
    var r1 := Acquire(r, t);
    LaterStep(r1, r, base, t, DoAcquire(t), Last(r1));
    OnlyContextStep(r1, r, r, i, DoAcquire(t), Last(r1));
    var r2 := Pass(r1, t);
    LaterStep(r2, r1, base, t, DoTest(t), Last(r2));
    OnlyContextStep(r2, r1, r, i, DoTest(t), Last(r2));
    q := Release(r2, t);
    LaterStep(q, r2, base, t, DoRelease(t), Last(q));
    OnlyContextStep(q, r2, r, i, DoRelease(t), Last(q));
    PutAndTaken(Last(r).owner, Last(r).items[i].lock, t);
    Overwritten(Last(r).threads, t, Last(r1).threads[t], Last(r2).threads[t]);
    Overwritten(Last(r).threads, t, Last(r2).threads[t], Last(q).threads[t]);
  }

  lemma ReadsUnderLock(r: Run, t: Tid, i: nat, base: Run) returns (q: Run)
    requires IsRun(base) && Later(r, base, t) && Waiting(Last(r), t, ReadLock, i)
    requires Last(r).items[i].lock !in Last(r).owner
    ensures Later(q, base, t)
    ensures var s, th := Last(r), Last(r).threads[t];
            Last(q) == s.(owner := s.owner[s.items[i].lock := t],
                          threads := s.threads[t := Busy(th.call, ReadUnlock(s.items[i].handle), th.ptr, th.id, th.born,
                                                         |s.history|)])
  {
    var p := Acquire(r, t);
    LaterStep(p, r, base, t, DoAcquire(t), Last(p));
    q := ReadOut(p, t);
    LaterStep(q, p, base, t, DoRead(t), Last(q));
    Overwritten(Last(r).threads, t, Last(p).threads[t], Last(q).threads[t]);
  }

  lemma ReadsHandle(r: Run, t: Tid, i: nat, base: Run) returns (q: Run)
    requires IsRun(base) && Later(r, base, t) && Waiting(Last(r), t, ReadLock, i)
    requires Last(r).items[i].lock !in Last(r).owner
    ensures Later(q, base, t)
    ensures var s, th := Last(r), Last(r).threads[t];
            Last(q) == s.(threads := s.threads[t := Done(th.call, Ok, s.items[i].handle, th.id, th.born, |s.history|)])
  {
    var p := ReadsUnderLock(r, t, i, base);
    q := Release(p, t);
    LaterStep(q, p, base, t, DoRelease(t), Last(q));
    PutAndTaken(Last(r).owner, Last(r).items[i].lock, t);
    Overwritten(Last(r).threads, t, Last(p).threads[t], Last(q).threads[t]);
  }

  /** A `bleGetDatabase` finds its context and takes the mutex to store its pointers. */
  lemma TakesStoreLock(r: Run, t: Tid, call: Call, i: nat, base: Run, u: Tid) returns (q: Run)
    requires IsRun(base) && Later(r, base, u) && t != u
    requires !Running(Last(r), t) && i < |Last(r).items| && call.GetDatabase?
    requires FirstByHandle(Last(r).items, call.handle) == Some(i) && Last(r).items[i].lock !in Last(r).owner
    ensures Later(q, base, u)
    ensures var s, c := Last(r), Last(r).items[i];
            Last(q) == s.(owner := s.owner[c.lock := t],
                          threads := s.threads[t := Busy(call, StoreServices, Slot(s.generation, i), c.lock,
                                                         |s.history|, 0)])
  {
    var r1 := Begin(r, t, call);
    LaterStep(r1, r, base, u, DoBegin(t, call), Last(r1));
    var r2 := StartCall(r1, t);
    LaterStep(r2, r1, base, u, DoStart(t), Last(r2));
    q := Acquire(r2, t);
    LaterStep(q, r2, base, u, DoAcquire(t), Last(q));
  }

  /** It stores both, unlocks and is answered. Thread `u` is some thread that begins no call. */
  lemma StoresAndRequests(r: Run, t: Tid, i: nat, status: Status, base: Run, u: Tid) returns (q: Run)
    requires IsRun(base) && Later(r, base, u) && Waiting(Last(r), t, StoreServices, i) &&
             Last(r).threads[t].call.GetDatabase?
    ensures Later(q, base, u) && Extends(q, r) && OnlyContext(q, r, i)
    ensures var s, th, c := Last(r), Last(r).threads[t], Last(r).items[i];
            Last(q) == s.(items := s.items[i := c.(dbOut := Some(th.call.servicesOut),
                                                   countOut := Some(th.call.countLoc))],
                          stores := s.stores + [Store(t, th.id, th.call.servicesOut, th.call.countLoc, |s.history|)],
                          owner := s.owner - {c.lock},
                          threads := s.threads[t := if status == Ok then Goto(th, WaitLock)
                                                    else Finished(th, status)])
  {
    var r1 := StoreFirst(r, t);
    LaterStep(r1, r, base, u, DoStore(t), Last(r1));
    OnlyContextStep(r1, r, r, i, DoStore(t), Last(r1));
    var r2 := StoreSecond(r1, t);
    LaterStep(r2, r1, base, u, DoStore(t), Last(r2));
    OnlyContextStep(r2, r1, r, i, DoStore(t), Last(r2));
    var r3 := Release(r2, t);
    LaterStep(r3, r2, base, u, DoRelease(t), Last(r3));
    OnlyContextStep(r3, r2, r, i, DoRelease(t), Last(r3));
    q := Answer(r3, t, status);
    LaterStep(q, r3, base, u, DoRequest(t, status), Last(q));
    OnlyContextStep(q, r3, r, i, DoRequest(t, status), Last(q));
  }

  /** A database callback finds its context with both out-pointers set. */
  lemma DatabaseLooks(r: Run, u: Tid, call: Call, i: nat, base: Run, t: Tid) returns (q: Run)
    requires IsRun(base) && Later(r, base, t) && t != u && call.GotDatabase?
    requires !Running(Last(r), u) && i < |Last(r).items| && FirstByHandle(Last(r).items, call.handle) == Some(i)
    requires Last(r).items[i].dbOut.Some? && Last(r).items[i].countOut.Some?
    ensures Later(q, base, t)
    ensures var s, c := Last(r), Last(r).items[i];
            Last(q) == s.(threads := s.threads[u := Busy(call, CbLock, Slot(s.generation, i), c.lock, |s.history|, 0)])
  {
    var r1 := Begin(r, u, call);
    LaterStep(r1, r, base, t, DoBegin(u, call), Last(r1));
    var r2 := StartCall(r1, u);
    LaterStep(r2, r1, base, t, DoStart(u), Last(r2));
    q := Check(r2, u);
    LaterStep(q, r2, base, t, DoCheckOuts(u), Last(q));
  }

  /** It finds it and locks it. */
  lemma DatabaseLocks(r: Run, u: Tid, call: Call, i: nat, base: Run, t: Tid) returns (q: Run)
    requires IsRun(base) && Later(r, base, t) && t != u && call.GotDatabase?
    requires !Running(Last(r), u) && i < |Last(r).items| && FirstByHandle(Last(r).items, call.handle) == Some(i)
    requires Last(r).items[i].dbOut.Some? && Last(r).items[i].countOut.Some? && Last(r).items[i].lock !in Last(r).owner
    ensures Later(q, base, t)
    ensures var s, c := Last(r), Last(r).items[i];
            Last(q) == s.(owner := s.owner[c.lock := u],
                          threads := s.threads[u := Busy(call, Write, Slot(s.generation, i), c.lock, |s.history|, 0)])
  {
    var p := DatabaseLooks(r, u, call, i, base, t);
    q := Acquire(p, u);
    LaterStep(q, p, base, t, DoAcquire(u), Last(q));
    Overwritten(Last(r).threads, u, Last(p).threads[u], Last(q).threads[u]);
  }

  /** It clones the services, writes the count and sets the flag. */
  lemma DatabaseWrites(r: Run, u: Tid, i: nat, base: Run, t: Tid) returns (q: Run)
    requires IsRun(base) && Later(r, base, t) && t != u
    requires Waiting(Last(r), u, Write, i) && Last(r).threads[u].call.GotDatabase?
    requires Last(r).items[i].dbOut.Some? && Last(r).items[i].countOut.Some?
    ensures Later(q, base, t)
    ensures var s, th, c := Last(r), Last(r).threads[u], Last(r).items[i];
            Last(q) == s.(items := s.items[i := c.(retrieved := true)],
                          history := s.history + [Entry(th.id, EventOf(th.call))],
                          dbMemory := s.dbMemory[c.dbOut.value := th.call.services],
                          countMemory := s.countMemory[c.countOut.value := th.call.count],
                          threads := s.threads[u := Goto(th, Notify)])
  {
    var r1 := Clone(r, u, true);
    LaterStep(r1, r, base, t, DoClone(u, true, []), Last(r1));
    var r2 := CountOut(r1, u);
    LaterStep(r2, r1, base, t, DoCount(u), Last(r2));
    q := SetFlag(r2, u);
    LaterStep(q, r2, base, t, DoFlag(u), Last(q));
  }

  /** With nobody to wake it signals, unlocks and runs the application's callback. */
  lemma SignalsAndCalls(r: Run, u: Tid, i: nat, base: Run, t: Tid) returns (q: Run)
    requires IsRun(base) && Later(r, base, t) && t != u
    requires Waiting(Last(r), u, Notify, i)
    requires Last(r).threads[u].call.GotDatabase? || Last(r).threads[u].call.ServicesDiscovered?
    requires forall w :: !BlockedOn(Last(r), w, Last(r).items[i].lock)
    ensures Later(q, base, t)
    ensures var s, th := Last(r), Last(r).threads[u];
            Last(q) == s.(owner := s.owner - {s.items[i].lock}, threads := s.threads[u := Finished(th, Ok)])
  {
    var p := SignalsNobody(r, u, base, t);
    q := RunApp(p, u);
    LaterStep(q, p, base, t, DoApp(u), Last(q));
  }

  /** A database callback that has found its context goes on to its end. */
  lemma DatabaseFinishes(r: Run, u: Tid, i: nat, base: Run, t: Tid) returns (q: Run)
    requires IsRun(base) && Later(r, base, t) && t != u
    requires Waiting(Last(r), u, CbLock, i) && Last(r).threads[u].call.GotDatabase?
    requires Last(r).items[i].dbOut.Some? && Last(r).items[i].countOut.Some? && Last(r).items[i].lock !in Last(r).owner
    requires forall w :: !BlockedOn(Last(r), w, Last(r).items[i].lock)
    ensures Later(q, base, t)
    ensures var s, c, th := Last(r), Last(r).items[i], Last(r).threads[u];
            Last(q) == s.(items := s.items[i := c.(retrieved := true)],
                          history := s.history + [Entry(th.id, EventOf(th.call))],
                          dbMemory := s.dbMemory[c.dbOut.value := th.call.services],
                          countMemory := s.countMemory[c.countOut.value := th.call.count],
                          threads := s.threads[u := Finished(th, Ok)])
  {
    var m := Last(r).items[i].lock;
    var r1 := Acquire(r, u);
    LaterStep(r1, r, base, t, DoAcquire(u), Last(r1));
    var r2 := DatabaseWrites(r1, u, i, base, t);
    assert forall w :: BlockedOn(Last(r2), w, m) ==> BlockedOn(Last(r), w, m);
    q := SignalsAndCalls(r2, u, i, base, t);
    PutAndTaken(Last(r).owner, m, u);
    Overwritten(Last(r).threads, u, Last(r1).threads[u], Last(r2).threads[u]);
    Overwritten(Last(r).threads, u, Last(r2).threads[u], Last(q).threads[u]);
  }

  /** A discovery callback that has found its context goes on to its end. */
  lemma DiscoveryFinishes(r: Run, u: Tid, i: nat, base: Run, t: Tid) returns (q: Run)
    requires IsRun(base) && Later(r, base, t) && t != u
    requires Waiting(Last(r), u, CbLock, i) && Last(r).threads[u].call.ServicesDiscovered?
    requires Last(r).items[i].lock !in Last(r).owner && forall w :: !BlockedOn(Last(r), w, Last(r).items[i].lock)
    ensures Later(q, base, t)
    ensures var s, c, th := Last(r), Last(r).items[i], Last(r).threads[u];
            Last(q) == s.(items := s.items[i := c.(discovered := true)],
                          history := s.history + [Entry(th.id, EventOf(th.call))],
                          threads := s.threads[u := Finished(th, Ok)])
  {
    var m := Last(r).items[i].lock;
    var p := CallbackDelivers(r, u, i, base, t);
    assert forall w :: BlockedOn(Last(p), w, m) ==> BlockedOn(Last(r), w, m);
    q := SignalsAndCalls(p, u, i, base, t);
    PutAndTaken(Last(r).owner, m, u);
    Overwritten(Last(r).threads, u, Last(p).threads[u], Last(q).threads[u]);
  }

  /** A whole database callback while nobody is blocked on the context. */
  lemma DatabaseArrives(r: Run, u: Tid, call: Call, i: nat, base: Run, t: Tid) returns (q: Run)
    requires IsRun(base) && Later(r, base, t) && t != u && call.GotDatabase?
    requires !Running(Last(r), u) && i < |Last(r).items| && FirstByHandle(Last(r).items, call.handle) == Some(i)
    requires Last(r).items[i].dbOut.Some? && Last(r).items[i].countOut.Some? && Last(r).items[i].lock !in Last(r).owner
    requires forall w :: !BlockedOn(Last(r), w, Last(r).items[i].lock)
    ensures Later(q, base, t)
    ensures var s, c := Last(r), Last(r).items[i];
            Last(q) == s.(items := s.items[i := c.(retrieved := true)],
                          history := s.history + [Entry(c.lock, EventOf(call))],
                          dbMemory := s.dbMemory[c.dbOut.value := call.services],
                          countMemory := s.countMemory[c.countOut.value := call.count],
                          threads := s.threads[u := Done(call, Ok, NULL_HANDLE, c.lock, |s.history|, 0)])
  {
    var p := DatabaseLooks(r, u, call, i, base, t);
    assert forall w :: BlockedOn(Last(p), w, Last(r).items[i].lock) ==> BlockedOn(Last(r), w, Last(r).items[i].lock);
    q := DatabaseFinishes(p, u, i, base, t);
    Overwritten(Last(r).threads, u, Last(p).threads[u], Last(q).threads[u]);
  }

  /** A callback wakes whoever is blocked, and unlocks. */
  lemma SignalsAll(r: Run, u: Tid, i: nat, base: Run, t: Tid) returns (q: Run)
    requires IsRun(base) && Later(r, base, t) && t != u
    requires Waiting(Last(r), u, Notify, i) && t in Last(r).threads && !BlockedOn(Last(r), t, Last(r).items[i].lock)
    ensures Later(q, base, t)
    ensures var s := Last(r);
            && Last(q).items == s.items && Last(q).generation == s.generation
            && Last(q).owner == s.owner - {s.items[i].lock}
            && t in Last(q).threads && Last(q).threads[t] == s.threads[t]
  {
    var s, m := Last(r), Last(r).items[i].lock;
    var woken := set w | w in s.threads && BlockedOn(s, w, m);
    assert forall w :: BlockedOn(s, w, m) ==> w in woken;
    var p := Signal(r, u, woken);
    LaterStep(p, r, base, t, DoSignal(u, woken), Last(p));
    q := Release(p, u);
    LaterStep(q, p, base, t, DoRelease(u), Last(q));
  }

  /** There is always another thread. */
  lemma IdleThread(busy: set<Tid>) returns (u: Tid)
    ensures u !in busy
  {
    var above: nat := 0;
    var rest := busy;
    while rest != {}
      invariant rest <= busy && forall t :: t in busy && t !in rest ==> t < above
    {
      var t :| t in rest;
      rest := rest - {t};
      above := if t < above then above else t + 1;
    }
    u := above;
  }
}
