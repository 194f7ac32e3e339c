/** Devices do not disturb each other: with distinct addresses and handles a
    context is determined by the events that name its own device, whatever
    happens to the others. This module has the invariants: each context's handle
    fits its address, a callback in flight names the device it was routed to, and
    the events routed to a context are those that name its device. */
module NonInterference {
  import opened Types
  import opened DeviceContexts
  import opened Protocol
  import opened PointerStability
  import opened LockDiscipline
  import opened EventFold
  import opened NewContexts

  /** The device that the stack uses each handle for. A device may have many handles,
      one after the other; no two devices share one. */
  type DeviceOf = Handle -> Address

  /** A call that names a device names it by its address and one of its handles. */
  predicate Keyed(deviceOf: DeviceOf, call: Call) {
    match call
    case Connect(a) => a != ZERO_ADDRESS
    case LinkChanged(_, _, h, a) => a != ZERO_ADDRESS && h != NULL_HANDLE && deviceOf(h) == a
    case ServicesDiscovered(h, _) => h != NULL_HANDLE
    case GotDatabase(h, _, _) => h != NULL_HANDLE
    case _ => true
  }

  ghost predicate DistinctAddresses(s: State) {
    forall i, j :: 0 <= i < j < |s.items| && s.items[i].address != ZERO_ADDRESS ==>
      s.items[i].address != s.items[j].address
  }

  ghost predicate KeyedRun(deviceOf: DeviceOf, r: Run)
    requires IsRun(r)
  {
    && (forall k :: 0 <= k < |r.labels| && r.labels[k].DoBegin? ==> Keyed(deviceOf, r.labels[k].call))
    && (forall k :: 0 <= k < |r.states| ==> DistinctAddresses(r.states[k]))
  }

  /** The event names device `a`: link changes by address, the others by handle. */
  predicate Names(deviceOf: DeviceOf, a: Address, e: Event) {
    match e
    case LinkEvent(_, _, b) => b == a
    case DiscoveredEvent(h) => deviceOf(h) == a
    case DatabaseEvent(h, _, _) => deviceOf(h) == a
    case VarEvent(_, _) => false
  }

  /** The events that name device `a`, in order; it looks at names only, not at routes. */
  function Projection(deviceOf: DeviceOf, h: seq<Entry>, a: Address): seq<Event> {
    if h == [] then []
    else
      var rest := Projection(deviceOf, h[..|h| - 1], a);
      if Names(deviceOf, a, h[|h| - 1].event) then rest + [h[|h| - 1].event] else rest
  }

  // ----- the invariant

  ghost predicate KeyedThreads(deviceOf: DeviceOf, s: State) {
    forall t :: t in s.threads ==> Keyed(deviceOf, s.threads[t].call)
  }

  predicate HandleFits(deviceOf: DeviceOf, c: DeviceContext) {
    c.handle != NULL_HANDLE ==> c.address != ZERO_ADDRESS && deviceOf(c.handle) == c.address
  }

  predicate IsCallback(call: Call) {
    call.LinkChanged? || call.ServicesDiscovered? || call.GotDatabase?
  }

  /** A callback with a context pointer carries an event about that context's device. */
  ghost predicate InFlight(deviceOf: DeviceOf, s: State, t: Tid) {
    Holds(s, t) && IsCallback(s.threads[t].call) && Live(s, s.threads[t].ptr) ==>
      var c := s.items[s.threads[t].ptr.index];
      c.address != ZERO_ADDRESS && Names(deviceOf, c.address, EventOf(s.threads[t].call))
  }

  /** From the moment its address was copied, the events routed to the context are
      exactly those that name its device; before, there were none. */
  ghost predicate RoutedByName(deviceOf: DeviceOf, c: DeviceContext, h: seq<Entry>, since: map<nat, nat>) {
    if c.address == ZERO_ADDRESS then forall k :: 0 <= k < |h| ==> h[k].route != c.lock
    else
      && c.lock in since && since[c.lock] <= |h|
      && (forall k :: 0 <= k < since[c.lock] ==> h[k].route != c.lock)
      && (forall k :: since[c.lock] <= k < |h| ==> (Names(deviceOf, c.address, h[k].event) <==> h[k].route == c.lock))
  }

  ghost predicate Separate(deviceOf: DeviceOf, s: State) {
    && KeyedThreads(deviceOf, s)
    && (forall i :: 0 <= i < |s.items| ==> HandleFits(deviceOf, s.items[i]))
    && (forall t :: InFlight(deviceOf, s, t))
    && Unnamed(s)
    && (forall i :: 0 <= i < |s.items| ==> RoutedByName(deviceOf, s.items[i], s.history, s.since))
  }

  ghost predicate StepKeyed(deviceOf: DeviceOf, s: State, l: Label) {
    && Sound(s) && Faithful(s) && DistinctAddresses(s) && Separate(deviceOf, s)
    && Enabled(s, l) && Guard(s, l)
    && (l.DoBegin? ==> Keyed(deviceOf, l.call))
  }

  lemma StepKeyedThreads(deviceOf: DeviceOf, s: State, l: Label)
    requires StepKeyed(deviceOf, s, l)
    ensures KeyedThreads(deviceOf, Apply(s, l))
  {
    if !l.DoBegin? {
      ThreadCallKept(s, l);
    }
  }

  /** The device a callback delivers to. */
  lemma DeliveredTo(deviceOf: DeviceOf, s: State, l: Label)
    requires StepKeyed(deviceOf, s, l) && Delivers(l)
    ensures Live(s, s.threads[l.t].ptr) && LockAt(s, s.threads[l.t].ptr) == s.threads[l.t].id
    ensures s.threads[l.t].ptr.Globals? ==> s.threads[l.t].id == 0 && EventOf(s.threads[l.t].call).VarEvent?
    ensures s.threads[l.t].ptr.Slot? ==>
              var c := s.items[s.threads[l.t].ptr.index];
              && c.lock == s.threads[l.t].id && c.address != ZERO_ADDRESS
              && Names(deviceOf, c.address, EventOf(s.threads[l.t].call))
              && Keyed(deviceOf, s.threads[l.t].call) && IsCallback(s.threads[l.t].call)
  {
    OwnLock(s, l.t);
    assert FitsCall(s.threads[l.t].call, s.threads[l.t].pc) && FitsPointer(s.threads[l.t]);
    assert InFlight(deviceOf, s, l.t);
  }

  lemma DeliveryHandleFits(deviceOf: DeviceOf, s: State, l: Label, i: nat)
    requires StepKeyed(deviceOf, s, l) && Delivers(l) && i < |s.items|
    ensures HandleFits(deviceOf, ItemsAfter(s, l)[i])
  {
    DeliveredTo(deviceOf, s, l);
    assert HandleFits(deviceOf, s.items[i]);
  }

  lemma StepHandleFits(deviceOf: DeviceOf, s: State, l: Label, i: nat)
    requires StepKeyed(deviceOf, s, l) && i < |ItemsAfter(s, l)|
    ensures HandleFits(deviceOf, ItemsAfter(s, l)[i])
  {
    if Delivers(l) {
      DeliveryHandleFits(deviceOf, s, l, i);
    } else if !(Adds(s, l) && i == |s.items|) {
      HandleBefore(s, l, i);
      assert HandleFits(deviceOf, s.items[Before(s, l, i)]);
      if l.DoCopy? && Written(s, l) == Some(i) {
        assert Untouched(s, l.t);
      } else {
        AddressBefore(s, l, i);
      }
    }
  }

  lemma AddressKept(s: State, l: Label, i: nat, i': nat)
    requires WellFormed(s) && Enabled(s, l) && i < |s.items| && i' < |ItemsAfter(s, l)|
    requires ItemsAfter(s, l)[i'].lock == s.items[i].lock
    ensures !(l.DoCopy? && Written(s, l) == Some(i)) ==> ItemsAfter(s, l)[i'].address == s.items[i].address
  {
    SameLockSameContext(s, l, i', i);
    if !(l.DoCopy? && Written(s, l) == Some(i)) {
      assert l.DoCopy? ==> i == i';
      assert Adds(s, l) ==> i' < |s.items|;
      AddressBefore(s, l, i');
    }
  }

  lemma StepInFlight(deviceOf: DeviceOf, s: State, l: Label, t: Tid)
    requires StepKeyed(deviceOf, s, l)
    ensures InFlight(deviceOf, Apply(s, l), t)
  {
    var s' := Apply(s, l);
    StepSound(s, l);
    if Holds(s', t) && IsCallback(s'.threads[t].call) {
      assert Denotes(s', s'.threads[t]);
      if t == l.t && l.DoStart? {
        CallbackFinds(deviceOf, s, l);
      } else {
        FlightKept(deviceOf, s, l, t);
      }
    }
  }

  lemma CallbackFinds(deviceOf: DeviceOf, s: State, l: Label)
    requires StepKeyed(deviceOf, s, l) && l.DoStart? && IsCallback(s.threads[l.t].call)
    requires ThreadAfter(s, l).Busy? && ThreadAfter(s, l).ptr.Slot?
    ensures var i := ThreadAfter(s, l).ptr.index;
            && i < |s.items| && ItemsAfter(s, l) == s.items
            && s.items[i].address != ZERO_ADDRESS
            && Names(deviceOf, s.items[i].address, EventOf(s.threads[l.t].call))
    ensures ThreadAfter(s, l).call == s.threads[l.t].call
  {
    var th := s.threads[l.t];
    assert FitsPointer(th) && Keyed(deviceOf, th.call);
    RoutingIsFirstMatch(s, l);
    var i := ThreadAfter(s, l).ptr.index;
    assert HandleFits(deviceOf, s.items[i]);
  }

  lemma FlightKept(deviceOf: DeviceOf, s: State, l: Label, t: Tid)
    requires StepKeyed(deviceOf, s, l) && Sound(Apply(s, l)) && !(t == l.t && l.DoStart?)
    requires Holds(Apply(s, l), t) && IsCallback(Apply(s, l).threads[t].call)
    requires Denotes(Apply(s, l), Apply(s, l).threads[t])
    ensures InFlight(deviceOf, Apply(s, l), t)
  {
    var s' := Apply(s, l);
    FlightPointerKept(s, l, t);
    assert InFlight(deviceOf, s, t) && Denotes(s, s.threads[t]);
    NamedStaysNamed(s, l, s.threads[t].ptr.index, s'.threads[t].ptr.index);
  }

  /** A context that has an address keeps it. */
  lemma NamedStaysNamed(s: State, l: Label, i: nat, i': nat)
    requires Sound(s) && Unnamed(s) && Enabled(s, l) && i < |s.items| && i' < |ItemsAfter(s, l)|
    requires ItemsAfter(s, l)[i'].lock == s.items[i].lock && s.items[i].address != ZERO_ADDRESS
    ensures ItemsAfter(s, l)[i'].address == s.items[i].address
  {
    if l.DoCopy? {
      assert Untouched(s, l.t);
    }
    AddressKept(s, l, i, i');
  }

  lemma FlightPointerKept(s: State, l: Label, t: Tid)
    requires Enabled(s, l) && !(t == l.t && l.DoStart?) && Holds(Apply(s, l), t)
    ensures Holds(s, t)
    ensures Apply(s, l).threads[t].call == s.threads[t].call && Apply(s, l).threads[t].id == s.threads[t].id
    ensures Apply(s, l).threads[t].ptr == s.threads[t].ptr
  {
    if t == l.t {
      OwnPointerKept(s, l);
      ThreadCallKept(s, l);
    } else {
      OtherGoesOn(s, l, t);
    }
  }

  /** A delivered event names the device of the context it goes to and no other's. */
  lemma DeliveryNamesOne(deviceOf: DeviceOf, s: State, l: Label, i: nat)
    requires StepKeyed(deviceOf, s, l) && Delivers(l) && i < |s.items|
    ensures var e := EventOf(s.threads[l.t].call);
            var c := s.items[i];
            && (s.threads[l.t].id == c.lock ==> c.address != ZERO_ADDRESS)
            && (c.address != ZERO_ADDRESS ==> (Names(deviceOf, c.address, e) <==> s.threads[l.t].id == c.lock))
  {
    DeliveredTo(deviceOf, s, l);
    if s.threads[l.t].ptr.Slot? && s.threads[l.t].ptr.index != i {
      var j := s.threads[l.t].ptr.index;
      assert s.items[i].address != ZERO_ADDRESS ==> s.items[i].address != s.items[j].address;
    }
  }

  lemma StepRoutedByName(deviceOf: DeviceOf, s: State, l: Label, i: nat)
    requires StepKeyed(deviceOf, s, l) && i < |ItemsAfter(s, l)|
    ensures RoutedByName(deviceOf, ItemsAfter(s, l)[i], HistoryAfter(s, l), SinceAfter(s, l))
  {
    if Delivers(l) {
      assert RoutedByName(deviceOf, s.items[i], s.history, s.since);
      DeliveryNamesOne(deviceOf, s, l, i);
      DeliveryRoutedByName(deviceOf, s.items[i], s.history, s.since,
                           Entry(s.threads[l.t].id, EventOf(s.threads[l.t].call)));
      LockBefore(s, l, i);
      AddressBefore(s, l, i);
    } else if l.DoCopy? {
      CopyRoutedByName(deviceOf, s, l, i);
    } else {
      OtherRoutedByName(deviceOf, s, l, i);
    }
  }

  lemma DeliveryRoutedByName(deviceOf: DeviceOf, c: DeviceContext, h: seq<Entry>, since: map<nat, nat>, e: Entry)
    requires RoutedByName(deviceOf, c, h, since)
    requires e.route == c.lock ==> c.address != ZERO_ADDRESS
    requires c.address != ZERO_ADDRESS ==> (Names(deviceOf, c.address, e.event) <==> e.route == c.lock)
    ensures RoutedByName(deviceOf, c, h + [e], since)
  {
  }

  lemma CopyRoutedByName(deviceOf: DeviceOf, s: State, l: Label, i: nat)
    requires StepKeyed(deviceOf, s, l) && l.DoCopy? && i < |s.items|
    ensures RoutedByName(deviceOf, ItemsAfter(s, l)[i], s.history, SinceAfter(s, l))
  {
    OwnLock(s, l.t);
    assert Untouched(s, l.t) && Copying(s, l.t);
    assert RoutedByName(deviceOf, s.items[i], s.history, s.since);
    assert Keyed(deviceOf, s.threads[l.t].call);
  }

  lemma OtherRoutedByName(deviceOf: DeviceOf, s: State, l: Label, i: nat)
    requires StepKeyed(deviceOf, s, l) && !Delivers(l) && !l.DoCopy? && i < |ItemsAfter(s, l)|
    ensures RoutedByName(deviceOf, ItemsAfter(s, l)[i], s.history, s.since)
  {
    if !(Adds(s, l) && i == |s.items|) {
      var b := if RemovalIndex(s, l).Some? && RemovalIndex(s, l).value <= i then i + 1 else i;
      assert RoutedByName(deviceOf, s.items[b], s.history, s.since);
    }
  }

  lemma StepSeparate(deviceOf: DeviceOf, s: State, l: Label)
    requires StepKeyed(deviceOf, s, l)
    ensures Separate(deviceOf, Apply(s, l))
  {
    var s' := Apply(s, l);
    StepKeyedThreads(deviceOf, s, l);
    forall i | 0 <= i < |s'.items|
      ensures HandleFits(deviceOf, s'.items[i]) && RoutedByName(deviceOf, s'.items[i], s'.history, s'.since)
    {
      StepHandleFits(deviceOf, s, l, i);
      StepRoutedByName(deviceOf, s, l, i);
    }
    forall t ensures InFlight(deviceOf, s', t) { StepInFlight(deviceOf, s, l, t); }
    StepUnnamed(s, l);
  }

  lemma NextSeparate(deviceOf: DeviceOf, r: Run, k: nat)
    requires IsRun(r) && Guarded(r) && KeyedRun(deviceOf, r) && k < |r.labels| && Separate(deviceOf, r.states[k])
    ensures Separate(deviceOf, r.states[k + 1])
  {
    NextKeyed(deviceOf, r, k);
    assert StepAt(r, k);
    StepSeparate(deviceOf, r.states[k], r.labels[k]);
  }

  lemma NextKeyed(deviceOf: DeviceOf, r: Run, k: nat)
    requires IsRun(r) && Guarded(r) && KeyedRun(deviceOf, r) && k < |r.labels| && Separate(deviceOf, r.states[k])
    ensures StepKeyed(deviceOf, r.states[k], r.labels[k])
  {
    RunSound(r, k);
    RunFaithful(r, k);
    assert StepAt(r, k) && GuardAt(r, k);
  }

  lemma RunSeparate(deviceOf: DeviceOf, r: Run, k: nat)
    requires IsRun(r) && Guarded(r) && KeyedRun(deviceOf, r) && k < |r.states|
    ensures Separate(deviceOf, r.states[k])
  {
    if k > 0 {
      RunSeparate(deviceOf, r, k - 1);
      NextSeparate(deviceOf, r, k - 1);
    }
  }
}
