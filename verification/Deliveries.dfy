/** Which context a call is about, and which callbacks are behind the history. */
module Deliveries {
  import opened Types
  import opened DeviceContexts
  import opened Protocol
  import opened PointerStability
  import opened LockDiscipline

  // ----- lookups

  /** The context is one that the call asks for: by address for link changes, by handle
      for everything else. */
  predicate AskedFor(call: Call, c: DeviceContext) {
    match call
    case LinkChanged(_, _, _, a) => c.address == a
    case Disconnect(h) => c.handle == h
    case Discover(h) => c.handle == h
    case GetDatabase(h, _, _) => c.handle == h
    case ServicesDiscovered(h, _) => c.handle == h
    case GotDatabase(h, _, _) => c.handle == h
    case _ => false
  }

  predicate Searches(call: Call) {
    OnContext(call) && !call.Connect?
  }

  ghost predicate FirstAskedFor(items: seq<DeviceContext>, call: Call, i: int) {
    && 0 <= i < |items| && AskedFor(call, items[i])
    && forall j :: 0 <= j < i ==> !AskedFor(call, items[j])
  }

  /** `bleDisconnect`, `bleDiscoverAllServices` and `bleGetDatabase` go on with the first
      context that has their handle, and fail with UNINITIALIZED if there is none. */
  lemma HandleLookup(s: State, l: Label)
    requires Typed(s) && Enabled(s, l) && l.DoStart?
    requires Waits(s.threads[l.t].call) && Searches(s.threads[l.t].call)
    ensures var th := Apply(s, l).threads[l.t];
            if exists i :: FirstAskedFor(s.items, s.threads[l.t].call, i)
            then th.Busy? && th.ptr.Slot? && th.ptr.generation == s.generation
                 && FirstAskedFor(s.items, s.threads[l.t].call, th.ptr.index) && th.id == s.items[th.ptr.index].lock
            else (forall i :: 0 <= i < |s.items| ==> !AskedFor(s.threads[l.t].call, s.items[i]))
                 && th.Done? && th.status == Uninitialized
  {
    var call := s.threads[l.t].call;
    match FirstByHandle(s.items, call.handle)
    case None =>
    case Some(i) => assert FirstAskedFor(s.items, call, i);
  }

  /** The thread knows its context, or used to: it is in the middle of its call, or the
      call has returned OK. */
  predicate Located(th: Thread) {
    Searches(th.call) && (if th.Busy? then th.ptr.Slot? || th.pc == RemoveEntry else th.status == Ok && Waits(th.call))
  }

  /** In step `i` the thread looked its context up, in the call it is still in. */
  ghost predicate FoundAt(r: Run, k: nat, t: Tid, i: nat)
    requires IsRun(r) && k < |r.states| && t in r.states[k].threads
  {
    && i < k && r.labels[i] == DoStart(t)
    && (forall j :: i < j < k ==> !(r.labels[j].DoBegin? && r.labels[j].t == t))
    && exists x :: FirstAskedFor(r.states[i].items, r.states[k].threads[t].call, x)
                   && r.states[i].items[x].lock == r.states[k].threads[t].id
  }

  ghost predicate LookedUp(r: Run, k: nat, t: Tid)
    requires IsRun(r) && k < |r.states| && t in r.states[k].threads
  {
    exists i :: FoundAt(r, k, t, i)
  }

  lemma StartLocates(s: State, l: Label)
    requires Typed(s) && Enabled(s, l) && l.DoStart? && Located(ThreadAfter(s, l))
    ensures ThreadAfter(s, l).call == s.threads[l.t].call
    ensures exists x :: FirstAskedFor(s.items, ThreadAfter(s, l).call, x) && s.items[x].lock == ThreadAfter(s, l).id
  {
    var call := s.threads[l.t].call;
    assert FitsPointer(s.threads[l.t]);
    var found := if call.LinkChanged? then FirstByAddress(s.items, call.address)
        else FirstByHandle(s.items, call.handle);
    assert found.Some? && FirstAskedFor(s.items, call, found.value);
  }

  lemma LocatedBefore(s: State, l: Label)
    requires Typed(s) && Enabled(s, l) && !l.DoStart? && Located(ThreadAfter(s, l))
    ensures Running(s, l.t) && Located(s.threads[l.t]) && !l.DoBegin?
    ensures ThreadAfter(s, l).call == s.threads[l.t].call && ThreadAfter(s, l).id == s.threads[l.t].id
  {
    if !l.DoBegin? {
      assert FitsCall(s.threads[l.t].call, s.threads[l.t].pc) && FitsPointer(s.threads[l.t]);
    }
  }

  /** A thread that already had its context keeps it. */
  lemma LocatedOther(s: State, l: Label, t: Tid)
    requires Typed(s) && Enabled(s, l) && !(t == l.t && l.DoStart?)
    requires t in ThreadsAfter(s, l) && Located(ThreadsAfter(s, l)[t])
    ensures t in s.threads && Located(s.threads[t]) && !(t == l.t && l.DoBegin?)
    ensures ThreadsAfter(s, l)[t].call == s.threads[t].call && ThreadsAfter(s, l)[t].id == s.threads[t].id
  {
    if t == l.t {
      LocatedBefore(s, l);
    } else {
      OtherGoesOn(s, l, t);
    }
  }

  lemma FoundNow(r: Run, k: nat, t: Tid)
    requires IsRun(r) && k < |r.labels| && StepAt(r, k) && Typed(r.states[k]) && r.labels[k] == DoStart(t)
    requires Located(ThreadAfter(r.states[k], r.labels[k]))
    ensures t in r.states[k + 1].threads && LookedUp(r, k + 1, t)
  {
    assert r.states[k + 1].threads == ThreadsAfter(r.states[k], r.labels[k]);
    StartLocates(r.states[k], r.labels[k]);
    assert FoundAt(r, k + 1, t, k);
  }

  lemma FoundStill(r: Run, k: nat, t: Tid)
    requires IsRun(r) && k < |r.labels| && t in r.states[k].threads && t in r.states[k + 1].threads
    requires r.states[k + 1].threads[t].call == r.states[k].threads[t].call
    requires r.states[k + 1].threads[t].id == r.states[k].threads[t].id
    requires LookedUp(r, k, t) && !(r.labels[k].DoBegin? && r.labels[k].t == t)
    ensures LookedUp(r, k + 1, t)
  {
    var i :| FoundAt(r, k, t, i);
    assert FoundAt(r, k + 1, t, i);
  }

  lemma NextFound(r: Run, k: nat, t: Tid)
    requires IsRun(r) && k < |r.labels| && Typed(r.states[k])
    requires t in r.states[k + 1].threads && Located(r.states[k + 1].threads[t])
    requires t in r.states[k].threads && Located(r.states[k].threads[t]) ==> LookedUp(r, k, t)
    ensures LookedUp(r, k + 1, t)
  {
    assert StepAt(r, k);
    var s, l := r.states[k], r.labels[k];
    assert r.states[k + 1].threads == ThreadsAfter(s, l);
    if t == l.t && l.DoStart? {
      FoundNow(r, k, t);
    } else {
      LocatedOther(s, l, t);
      FoundStill(r, k, t);
    }
  }

  /** Over any run: a thread with a context got it in its own lookup, and it was then the
      first one in the array that the call asked for. */
  lemma ContextIsFirstAskedFor(r: Run, k: nat, t: Tid)
    requires IsRun(r) && Guarded(r) && k < |r.states|
    requires t in r.states[k].threads && Located(r.states[k].threads[t])
    ensures LookedUp(r, k, t)
  {
    if k > 0 {
      if t in r.states[k - 1].threads && Located(r.states[k - 1].threads[t]) {
        ContextIsFirstAskedFor(r, k - 1, t);
      }
      RunSound(r, k - 1);
      NextFound(r, k - 1, t);
    }
  }

  lemma PointerMeansLookedUp(r: Run, k: nat, t: Tid)
    requires IsRun(r) && Guarded(r) && k < |r.states| && Running(r.states[k], t)
    requires var th := r.states[k].threads[t]; Searches(th.call) && th.pc != Start && !PointerDropped(th.pc)
    ensures LookedUp(r, k, t)
  {
    RunSound(r, k);
    assert FitsPointer(r.states[k].threads[t]);
    ContextIsFirstAskedFor(r, k, t);
  }

  // ----- only successful callbacks deliver

  predicate Succeeded(call: Call) {
    match call
    case LinkChanged(_, success, _, _) => success
    case ServicesDiscovered(_, success) => success
    case VarCallback(_, applies, _) => applies
    case _ => true
  }

  ghost predicate FailuresStop(s: State) {
    forall t :: Running(s, t) && !Succeeded(s.threads[t].call) ==> s.threads[t].pc in {Start, AppCallback}
  }

  lemma OwnFailureStops(s: State, l: Label)
    requires FailuresStop(s) && Enabled(s, l) && ThreadAfter(s, l).Busy? && !Succeeded(ThreadAfter(s, l).call)
    ensures ThreadAfter(s, l).pc in {Start, AppCallback}
  {
    assert l.DoBegin? || Running(s, l.t);
  }

  lemma StepFailuresStop(s: State, l: Label)
    requires FailuresStop(s) && Enabled(s, l)
    ensures FailuresStop(Apply(s, l))
  {
    var s' := Apply(s, l);
    forall t | Running(s', t) && !Succeeded(s'.threads[t].call) ensures s'.threads[t].pc in {Start, AppCallback} {
      if t == l.t {
        OwnFailureStops(s, l);
      } else {
        OtherGoesOn(s, l, t);
        assert Running(s, t);
      }
    }
  }

  lemma RunFailuresStop(r: Run, k: nat)
    requires IsRun(r) && k < |r.states|
    ensures FailuresStop(r.states[k])
  {
    if k > 0 {
      RunFailuresStop(r, k - 1);
      assert StepAt(r, k - 1);
      StepFailuresStop(r.states[k - 1], r.labels[k - 1]);
    }
  }

  /** Entry `p` of the history was delivered in step `j`, by a callback that reported a
      success (or by `bleDeregister`), to the context that it had looked up. */
  ghost predicate DeliveredAt(r: Run, k: nat, p: nat, j: nat)
    requires IsRun(r) && k < |r.states| && p < |r.states[k].history|
  {
    && j < k && Delivers(r.labels[j]) && |r.states[j].history| == p
    && Running(r.states[j], r.labels[j].t)
    && var t := r.labels[j].t;
       var th := r.states[j].threads[t];
       && Applies(th.call) && Succeeded(th.call)
       && r.states[k].history[p] == Entry(th.id, EventOf(th.call))
       && (if OnContext(th.call) then LookedUp(r, j, t) else th.id == 0)
  }

  ghost predicate Delivered(r: Run, k: nat, p: nat)
    requires IsRun(r) && k < |r.states| && p < |r.states[k].history|
  {
    exists j :: DeliveredAt(r, k, p, j)
  }

  lemma NewEntryDelivered(r: Run, k: nat)
    requires IsRun(r) && Guarded(r) && k < |r.labels| && Delivers(r.labels[k])
    ensures StepAt(r, k) && |r.states[k].history| < |r.states[k + 1].history|
    ensures DeliveredAt(r, k + 1, |r.states[k].history|, k)
  {
    assert StepAt(r, k);
    var s, l := r.states[k], r.labels[k];
    RunSound(r, k);
    RunFailuresStop(r, k);
    assert FitsPointer(s.threads[l.t]);
    assert r.states[k + 1].history == HistoryAfter(s, l);
    if OnContext(s.threads[l.t].call) {
      ContextIsFirstAskedFor(r, k, l.t);
    }
  }

  /** Every entry of the history is the event of a callback that reported a success. */
  lemma HistoryIsDelivered(r: Run, k: nat, p: nat)
    requires IsRun(r) && Guarded(r) && k < |r.states| && p < |r.states[k].history|
    ensures Delivered(r, k, p)
  {
    if p < |r.states[k - 1].history| {
      HistoryIsDelivered(r, k - 1, p);
      var j :| DeliveredAt(r, k - 1, p, j);
      StaysDelivered(r, k - 1, p, j);
    } else {
      assert StepAt(r, k - 1);
      NewEntryDelivered(r, k - 1);
    }
  }

  lemma StaysDelivered(r: Run, k: nat, p: nat, j: nat)
    requires IsRun(r) && k < |r.labels| && p < |r.states[k].history| && DeliveredAt(r, k, p, j)
    ensures p < |r.states[k + 1].history| && DeliveredAt(r, k + 1, p, j)
  {
    assert StepAt(r, k);
    assert r.states[k + 1].history == HistoryAfter(r.states[k], r.labels[k]);
  }

  /** The history is exactly the sequence of deliveries, each one of a callback that
      reported a success. */
  ghost predicate HistoryIsDeliveries(r: Run, k: nat)
    requires IsRun(r) && k < |r.states|
  {
    && (forall p: nat :: p < |r.states[k].history| ==> Delivered(r, k, p))
    && forall j: nat :: j < k && Delivers(r.labels[j]) ==> RecordedAs(r, k, j, |r.states[j].history|)
  }

  ghost predicate RecordedAs(r: Run, k: nat, j: nat, p: nat)
    requires IsRun(r) && k < |r.states|
  {
    p < |r.states[k].history| && DeliveredAt(r, k, p, j)
  }

  lemma DeliveryRecorded(r: Run, k: nat, j: nat)
    requires IsRun(r) && Guarded(r) && j < k < |r.states| && Delivers(r.labels[j])
    ensures RecordedAs(r, k, j, |r.states[j].history|)
  {
    if j + 1 == k {
      NewEntryDelivered(r, j);
    } else {
      DeliveryRecorded(r, k - 1, j);
      StaysDelivered(r, k - 1, |r.states[j].history|, j);
    }
  }

  lemma HistoryOfDeliveries(r: Run, k: nat)
    requires IsRun(r) && Guarded(r) && k < |r.states|
    ensures HistoryIsDeliveries(r, k)
  {
    forall p: nat | p < |r.states[k].history| ensures Delivered(r, k, p) {
      HistoryIsDelivered(r, k, p);
    }
    forall j: nat | j < k && Delivers(r.labels[j]) ensures RecordedAs(r, k, j, |r.states[j].history|) {
      DeliveryRecorded(r, k, j);
    }
  }
}
