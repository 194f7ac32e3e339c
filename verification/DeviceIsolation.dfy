/** A context is determined by its own device, and `bleDisconnect` removes the right one. */
module DeviceIsolation {
  import opened Types
  import opened DeviceContexts
  import opened Protocol
  import opened PointerStability
  import opened LockDiscipline
  import opened EventFold
  import opened ApiResults
  import opened NonInterference
  import opened DisconnectTarget

  lemma {:induction false} RoutedIsProjection(deviceOf: DeviceOf, h: seq<Entry>, n: nat, lock: nat, a: Address)
    requires n <= |h|
    requires forall k :: 0 <= k < n ==> h[k].route != lock
    requires forall k :: n <= k < |h| ==> (Names(deviceOf, a, h[k].event) <==> h[k].route == lock)
    ensures Routed(h, lock) == Projection(deviceOf, h[n..], a)
  {
    if n == |h| {
      RoutedFresh(h, lock);
      assert h[n..] == [];
    } else {
      var g := h[..|h| - 1];
      RoutedIsProjection(deviceOf, g, n, lock, a);
      assert h[n..][..|h[n..]| - 1] == g[n..];
    }
  }

  /** A context with an address reflects exactly the events that name its device
      since the address was copied: the history of one device alone. While a link
      change is half written that is so for all but the two flags of the link. */
  lemma ContextIsItsDevice(deviceOf: DeviceOf, r: Run, k: nat, i: nat)
    requires IsRun(r) && Guarded(r) && KeyedRun(deviceOf, r) && k < |r.states|
    requires i < |r.states[k].items| && r.states[k].items[i].address != ZERO_ADDRESS
    ensures var s, c := r.states[k], r.states[k].items[i];
            && c.lock in s.since && s.since[c.lock] <= |s.history|
            && var es := OwnEvents(deviceOf, s, c);
               ReflectsRest(c, es) && (Settled(s, c.lock) ==> Reflects(c, es))
  {
    var s, c := r.states[k], r.states[k].items[i];
    RunSeparate(deviceOf, r, k);
    RunFaithful(r, k);
    assert RoutedByName(deviceOf, c, s.history, s.since);
    RoutedIsProjection(deviceOf, s.history, s.since[c.lock], c.lock, c.address);
    if Settled(s, c.lock) {
      SettledReflects(s, i);
    }
  }

  ghost function OwnEvents(deviceOf: DeviceOf, s: State, c: DeviceContext): seq<Event>
    requires c.lock in s.since && s.since[c.lock] <= |s.history|
  {
    Projection(deviceOf, s.history[s.since[c.lock]..], c.address)
  }

  /** Non-interference: whatever else two runs do, in whatever order, if they
      deliver the same events of one device then that device's context ends up the
      same. In particular a run agrees with one that has that device's events only. */
  lemma OtherDevicesDoNotMatter(inQ: DeviceOf, q: Run, j: nat, a: nat, inR: DeviceOf, r: Run, k: nat, b: nat)
    requires IsRun(q) && Guarded(q) && KeyedRun(inQ, q) && j < |q.states| && a < |q.states[j].items|
    requires IsRun(r) && Guarded(r) && KeyedRun(inR, r) && k < |r.states| && b < |r.states[k].items|
    requires q.states[j].items[a].address == r.states[k].items[b].address != ZERO_ADDRESS
    ensures var s, c := q.states[j], q.states[j].items[a];
            var t, d := r.states[k], r.states[k].items[b];
            && c.lock in s.since && s.since[c.lock] <= |s.history|
            && d.lock in t.since && t.since[d.lock] <= |t.history|
            && (OwnEvents(inQ, s, c) == OwnEvents(inR, t, d) ==>
                  SameRest(c, d) && (Settled(s, c.lock) && Settled(t, d.lock) ==> SummaryOf(c) == SummaryOf(d)))
  {
    ContextIsItsDevice(inQ, q, j, a);
    ContextIsItsDevice(inR, r, k, b);
    var s, c := q.states[j], q.states[j].items[a];
    var t, d := r.states[k], r.states[k].items[b];
    if OwnEvents(inQ, s, c) == OwnEvents(inR, t, d) {
      RestIsUnique(c, d, OwnEvents(inQ, s, c));
      if Settled(s, c.lock) && Settled(t, d.lock) {
        ReflectionIsUnique(c, d, OwnEvents(inQ, s, c));
      }
    }
  }

  /** Non-NULL handles are unique, because addresses are. */
  lemma HandlesUnique(deviceOf: DeviceOf, s: State, h: Handle)
    requires DistinctAddresses(s) && h != NULL_HANDLE
    requires forall i :: 0 <= i < |s.items| ==> HandleFits(deviceOf, s.items[i])
    ensures UniqueHandle(s.items, h)
  {
    forall i, j | 0 <= i < j < |s.items| ensures !(s.items[i].handle == h && s.items[j].handle == h) {
      assert HandleFits(deviceOf, s.items[i]) && HandleFits(deviceOf, s.items[j]);
    }
  }

  /** Some context with this identity has this handle. */
  ghost predicate HasHandle(s: State, m: nat, h: Handle) {
    exists i :: 0 <= i < |s.items| && s.items[i].lock == m && s.items[i].handle == h
  }

  lemma RemovedIff(s: State, t: Tid, i: nat)
    requires WellFormed(s) && Enabled(s, DoRemove(t)) && i < |s.items| &&
             UniqueHandle(s.items, s.threads[t].call.handle)
    ensures !HasLock(Apply(s, DoRemove(t)), s.items[i].lock) <==> s.items[i].handle == s.threads[t].call.handle
  {
    var l := DoRemove(t);
    var h := s.threads[t].call.handle;
    var items' := Apply(s, l).items;
    assert items' == ItemsAfter(s, l);
    if s.items[i].handle == h {
      assert FirstByHandle(s.items, h) == Some(i);
    } else {
      var x := if RemovalIndex(s, l).Some? && RemovalIndex(s, l).value < i then i - 1 else i;
      assert items'[x] == s.items[i];
    }
  }

  /** When `bleDisconnect` returns OK it has just taken out the context it waited on,
      if that was still there, if and only if the context still had the handle of the
      call: a device that reconnects in between with another handle stays. In any
      case no context with the call's handle is left. */
  lemma DisconnectRemovesTargetIff(deviceOf: DeviceOf, r: Run, n: nat, t: Tid)
    requires IsRun(r) && Guarded(r) && KeyedRun(deviceOf, r) && n < |r.labels| && DisconnectReturns(r, n, t)
    requires r.states[n].threads[t].call.handle != NULL_HANDLE
    ensures var s, th, s' := r.states[n], r.states[n].threads[t], r.states[n + 1];
            && (HasLock(s, th.id) ==> (!HasLock(s', th.id) <==> HasHandle(s, th.id, th.call.handle)))
            && HandleGone(s'.items, th.call.handle)
  {
    var s, th := r.states[n], r.states[n].threads[t];
    RunSound(r, n);
    RunSeparate(deviceOf, r, n);
    HandlesUnique(deviceOf, s, th.call.handle);
    DisconnectReturnsByRemoval(r, n, t);
    RemovalTakesFirstMatch(s, t);
    if i :| 0 <= i < |s.items| && s.items[i].lock == th.id {
      RemovedIff(s, t, i);
      assert forall j :: 0 <= j < |s.items| && s.items[j].lock == th.id ==> j == i;
    }
  }

  /** The context with that identity is gone, and the others are in order and unchanged. */
  ghost predicate OnlyGone(s: State, s': State, m: nat) {
    exists i :: 0 <= i < |s.items| && s.items[i].lock == m && s'.items == s.items[..i] + s.items[i + 1..]
  }

  /** If no device is ever given a second handle, it always is the context waited on,
      unless another call has removed that one before. */
  lemma DisconnectRemovesItsTarget(deviceOf: DeviceOf, r: Run, n: nat, t: Tid)
    requires IsRun(r) && Guarded(r) && KeyedRun(deviceOf, r) && OneHandle(deviceOf)
    requires n < |r.labels| && DisconnectReturns(r, n, t)
    requires r.states[n].threads[t].call.handle != NULL_HANDLE
    ensures var s, th, s' := r.states[n], r.states[n].threads[t], r.states[n + 1];
            && (HasLock(s, th.id) ==> OnlyGone(s, s', th.id))
            && HandleGone(s'.items, th.call.handle)
  {
    var s, th := r.states[n], r.states[n].threads[t];
    RunTargets(deviceOf, r, n);
    RunSeparate(deviceOf, r, n);
    HandlesUnique(deviceOf, s, th.call.handle);
    DisconnectReturnsByRemoval(r, n, t);
    RemovalTakesFirstMatch(s, t);
    assert KeepsTarget(s, th);
    if HasLock(s, th.id) {
      TargetTaken(s, t);
    }
  }

  lemma TargetTaken(s: State, t: Tid)
    requires Enabled(s, DoRemove(t)) && UniqueHandle(s.items, s.threads[t].call.handle)
    requires Disconnecting(s.threads[t]) && KeepsTarget(s, s.threads[t]) && HasLock(s, s.threads[t].id)
    ensures OnlyGone(s, Apply(s, DoRemove(t)), s.threads[t].id)
  {
    var i :| 0 <= i < |s.items| && s.items[i].lock == s.threads[t].id;
    assert FirstByHandle(s.items, s.threads[t].call.handle) == Some(i);
    assert Apply(s, DoRemove(t)).items == ItemsAfter(s, DoRemove(t));
  }
}
