/** Every context is the fold of exactly the events that were routed to it. */
module EventFold {
  import opened Types
  import opened DeviceContexts
  import opened Protocol
  import opened PointerStability
  import opened LockDiscipline
  import opened Deliveries

  /** The events of the history that were routed to context `id`, in order. */
  function Routed(h: seq<Entry>, id: nat): seq<Event> {
    if h == [] then []
    else
      var rest := Routed(h[..|h| - 1], id);
      if h[|h| - 1].route == id then rest + [h[|h| - 1].event] else rest
  }

  /** What a context's history determines of it. */
  datatype Summary = Summary(
    handle: Handle,
    connected: bool,
    disconnected: bool,
    discovered: bool,
    retrieved: bool)

  function SummaryOf(c: DeviceContext): Summary {
    Summary(c.handle, c.connected, c.disconnected, c.discovered, c.retrieved)
  }

  // ----- reading the event list directly, without replaying it

  predicate IsLink(e: Event, link: Link) {
    e.LinkEvent? && e.link == link
  }

  predicate IsLinkChange(e: Event) {
    IsLink(e, Connected) || IsLink(e, Disconnected)
  }

  /** The last event that changed the link state is at `k` and reports `link`. */
  predicate LastChange(es: seq<Event>, k: int, link: Link) {
    && 0 <= k < |es| && IsLink(es[k], link)
    && forall j :: k < j < |es| ==> !IsLinkChange(es[j])
  }

  /** The last successful connection is at `k`, whatever disconnections follow. */
  predicate LastConnection(es: seq<Event>, k: int) {
    && 0 <= k < |es| && IsLink(es[k], Connected)
    && forall j :: k < j < |es| ==> !IsLink(es[j], Connected)
  }

  /** `c` says what the events `es` say. */
  ghost predicate Reflects(c: DeviceContext, es: seq<Event>) {
    ReflectsLink(c, es) && ReflectsRest(c, es)
  }

  ghost predicate ReflectsLink(c: DeviceContext, es: seq<Event>) {
    && (c.connected <==> exists k :: LastChange(es, k, Connected))
    && (c.disconnected <==> exists k :: LastChange(es, k, Disconnected))
  }

  ghost predicate ReflectsRest(c: DeviceContext, es: seq<Event>) {
    && (c.discovered <==> exists e :: e in es && e.DiscoveredEvent?)
    && (c.retrieved <==> exists e :: e in es && e.DatabaseEvent?)
    && (c.handle != NULL_HANDLE ==> exists k :: LastConnection(es, k))
    && (forall k :: LastConnection(es, k) ==> c.handle == es[k].handle)
  }

  lemma ChangeSnoc(es: seq<Event>, e: Event, link: Link)
    requires link != OtherLink
    ensures (exists k :: LastChange(es + [e], k, link)) <==>
            (if IsLinkChange(e) then IsLink(e, link) else exists k :: LastChange(es, k, link))
  {
    var fs := es + [e];
    if IsLink(e, link) {
      assert LastChange(fs, |es|, link);
    }
    forall k | LastChange(es, k, link) && !IsLinkChange(e) ensures LastChange(fs, k, link) {
    }
    forall k | LastChange(fs, k, link)
      ensures if IsLinkChange(e) then IsLink(e, link) else LastChange(es, k, link)
    {
      assert fs[|es|] == e;
      if k < |es| {
        assert forall j :: k < j < |es| ==> fs[j] == es[j];
      }
    }
  }

  lemma ConnectionSnoc(es: seq<Event>, e: Event, k: int)
    ensures LastConnection(es + [e], k) <==>
            (if IsLink(e, Connected) then k == |es| else LastConnection(es, k))
  {
    var fs := es + [e];
    assert fs[|es|] == e;
    assert forall j :: 0 <= j < |es| ==> fs[j] == es[j];
  }

  /** The flags of the link after one more event, however they were set. */
  lemma LinkSnoc(c: DeviceContext, c': DeviceContext, es: seq<Event>, e: Event)
    requires IsLinkChange(e) ==> c'.connected == IsLink(e, Connected) && c'.disconnected == IsLink(e, Disconnected)
    requires !IsLinkChange(e) ==>
               ReflectsLink(c, es) && c'.connected == c.connected && c'.disconnected == c.disconnected
    ensures ReflectsLink(c', es + [e])
  {
    ChangeSnoc(es, e, Connected);
    ChangeSnoc(es, e, Disconnected);
  }

  lemma RestSnoc(c: DeviceContext, es: seq<Event>, e: Event)
    requires ReflectsRest(c, es)
    ensures ReflectsRest(FinalField(c, e), es + [e])
  {
    var fs := es + [e];
    var c' := FinalField(c, e);
    forall k ensures LastConnection(fs, k) <==> (if IsLink(e, Connected) then k == |es| else LastConnection(es, k)) {
      ConnectionSnoc(es, e, k);
    }
    assert forall f :: f in fs <==> f in es || f == e;
    if IsLink(e, Connected) {
      assert LastConnection(fs, |es|);
    } else if c'.handle != NULL_HANDLE {
      var k :| LastConnection(es, k);
      assert LastConnection(fs, k);
    }
  }

  lemma ReflectsSnoc(c: DeviceContext, es: seq<Event>, e: Event)
    requires Reflects(c, es)
    ensures Reflects(ApplyToContext(c, e), es + [e])
  {
    LinkSnoc(c, ApplyToContext(c, e), es, e);
    RestSnoc(c, es, e);
  }

  lemma ZeroedReflects(lock: nat)
    ensures Reflects(Zeroed(lock), [])
  {
  }

  /** Everything but the two flags of the link. */
  predicate SameRest(c: DeviceContext, d: DeviceContext) {
    c.handle == d.handle && c.discovered == d.discovered && c.retrieved == d.retrieved
  }

  /** Two contexts that reflect the same events agree. */
  lemma RestIsUnique(c: DeviceContext, d: DeviceContext, es: seq<Event>)
    requires ReflectsRest(c, es) && ReflectsRest(d, es)
    ensures SameRest(c, d)
  {
    if c.handle != NULL_HANDLE || d.handle != NULL_HANDLE {
      var k :| LastConnection(es, k);
      assert c.handle == es[k].handle == d.handle;
    }
  }

  lemma ReflectionIsUnique(c: DeviceContext, d: DeviceContext, es: seq<Event>)
    requires Reflects(c, es) && Reflects(d, es)
    ensures SummaryOf(c) == SummaryOf(d)
  {
    RestIsUnique(c, d, es);
  }

  /** The events `es` replayed on a new context. */
  function Replay(es: seq<Event>, lock: nat): DeviceContext {
    if es == [] then Zeroed(lock) else ApplyToContext(Replay(es[..|es| - 1], lock), es[|es| - 1])
  }

  lemma {:induction false} ReplayReflects(es: seq<Event>, lock: nat)
    ensures Reflects(Replay(es, lock), es)
  {
    if es == [] {
      ZeroedReflects(lock);
    } else {
      var before, e := es[..|es| - 1], es[|es| - 1];
      ReplayReflects(before, lock);
      ReflectsSnoc(Replay(before, lock), before, e);
      assert es == before + [e];
    }
  }

  // ----- the invariant

  ghost predicate RoutesAreOld(s: State) {
    forall k :: 0 <= k < |s.history| ==> s.history[k].route < s.nextLock
  }

  ghost predicate AllRest(items: seq<DeviceContext>, h: seq<Entry>) {
    forall i :: 0 <= i < |items| ==> ReflectsRest(items[i], Routed(h, items[i].lock))
  }

  /** A callback between its first and its last write of a link change. */
  predicate MidLink(th: Thread) {
    th.Busy? && (th.pc == SecondField || th.pc == ThirdField)
  }

  /** No link change of context `m` is half written. */
  ghost predicate Settled(s: State, m: nat) {
    forall t :: Running(s, t) && s.threads[t].id == m ==> !MidLink(s.threads[t])
  }

  ghost predicate LinkFaithful(s: State, i: int) {
    0 <= i < |s.items| && Settled(s, s.items[i].lock) ==> ReflectsLink(s.items[i], Routed(s.history, s.items[i].lock))
  }

  predicate HalfWritten(c: DeviceContext, th: Thread) {
    th.call.LinkChanged? && th.Busy? ==>
      && (th.pc == SecondField ==> c.connected == th.call.link.Connected?)
      && (th.pc == ThirdField ==> c.connected && !c.disconnected)
  }

  /** The fields that a link change has written already have their new values. */
  ghost predicate Partway(s: State, t: Tid) {
    Holds(s, t) && MidLink(s.threads[t]) && Live(s, s.threads[t].ptr) ==>
      HalfWritten(s.items[s.threads[t].ptr.index], s.threads[t])
  }

  predicate SetsVar(e: Event, name: Var) {
    e.VarEvent? && e.name == name
  }

  predicate LastVar(es: seq<Event>, name: Var, k: int) {
    0 <= k < |es| && SetsVar(es[k], name) && forall j :: k < j < |es| ==> !SetsVar(es[j], name)
  }

  function VarOf(v: Vars, name: Var): bool {
    match name
    case BtEnabled => v.btEnabled
    case BleRegistered => v.registered
    case MtuSet => v.mtuSet
  }

  /** The variable is the value last written to it, false if there is none. */
  ghost predicate VarReflects(v: Vars, es: seq<Event>, name: Var) {
    VarOf(v, name) <==> exists k :: LastVar(es, name, k) && es[k].value
  }

  ghost predicate VarsReflect(s: State) {
    forall name :: VarReflects(s.vars, Routed(s.history, 0), name)
  }

  ghost predicate Faithful(s: State) {
    && RoutesAreOld(s) && AllRest(s.items, s.history) && VarsReflect(s)
    && (forall i :: LinkFaithful(s, i)) && (forall t :: Partway(s, t))
  }

  lemma RoutedSnoc(h: seq<Entry>, e: Entry, id: nat)
    ensures Routed(h + [e], id) == if e.route == id then Routed(h, id) + [e.event] else Routed(h, id)
  {
    assert (h + [e])[..|h|] == h;
  }

  lemma {:induction false} RoutedFresh(h: seq<Entry>, id: nat)
    requires forall k :: 0 <= k < |h| ==> h[k].route != id
    ensures Routed(h, id) == []
  {
    if h != [] {
      RoutedFresh(h[..|h| - 1], id);
    }
  }

  lemma AddReflects(items: seq<DeviceContext>, h: seq<Entry>, lock: nat)
    requires AllRest(items, h)
    requires forall k :: 0 <= k < |h| ==> h[k].route != lock
    ensures AllRest(items + [Zeroed(lock)], h)
  {
    RoutedFresh(h, lock);
    ZeroedReflects(lock);
  }

  lemma RemovalReflects(items: seq<DeviceContext>, h: seq<Entry>, k: nat)
    requires AllRest(items, h) && k < |items|
    ensures AllRest(WithoutIndex(items, k), h)
  {
  }

  lemma RewriteReflects(items: seq<DeviceContext>, h: seq<Entry>, k: nat, c: DeviceContext)
    requires AllRest(items, h) && k < |items|
    requires c.lock == items[k].lock && c.handle == items[k].handle
    requires c.discovered == items[k].discovered && c.retrieved == items[k].retrieved
    ensures AllRest(items[k := c], h)
  {
  }

  lemma DeliveryElsewhere(items: seq<DeviceContext>, h: seq<Entry>, e: Entry)
    requires AllRest(items, h)
    requires forall i :: 0 <= i < |items| ==> items[i].lock != e.route
    ensures AllRest(items, h + [e])
  {
    forall i | 0 <= i < |items| ensures ReflectsRest(items[i], Routed(h + [e], items[i].lock)) {
      RoutedSnoc(h, e, items[i].lock);
    }
  }

  lemma DeliveryReflects(items: seq<DeviceContext>, h: seq<Entry>, k: nat, e: Event, bound: nat)
    requires AllRest(items, h) && DistinctLocks(items, bound) && k < |items|
    ensures AllRest(items[k := FinalField(items[k], e)], h + [Entry(items[k].lock, e)])
  {
    var items' := items[k := FinalField(items[k], e)];
    var h' := h + [Entry(items[k].lock, e)];
    forall i | 0 <= i < |items'| ensures ReflectsRest(items'[i], Routed(h', items'[i].lock)) {
      RoutedSnoc(h, Entry(items[k].lock, e), items[i].lock);
      if i == k {
        RestSnoc(items[k], Routed(h, items[k].lock), e);
      }
    }
  }

  lemma StepDeliveryReflects(s: State, l: Label)
    requires Sound(s) && Faithful(s) && Enabled(s, l) && Delivers(l)
    ensures AllRest(ItemsAfter(s, l), HistoryAfter(s, l))
  {
    OwnLock(s, l.t);
    var th := s.threads[l.t];
    if th.ptr.Slot? {
      DeliveryReflects(s.items, s.history, th.ptr.index, EventOf(th.call), s.nextLock);
    } else {
      DeliveryElsewhere(s.items, s.history, Entry(0, EventOf(th.call)));
    }
  }

  lemma StepAllRest(s: State, l: Label)
    requires Sound(s) && Faithful(s) && Enabled(s, l)
    ensures AllRest(ItemsAfter(s, l), HistoryAfter(s, l))
  {
    if Delivers(l) {
      StepDeliveryReflects(s, l);
    } else if Adds(s, l) {
      AddReflects(s.items, s.history, s.nextLock);
    } else if RemovalIndex(s, l).Some? {
      RemovalReflects(s.items, s.history, RemovalIndex(s, l).value);
    } else if Written(s, l).Some? {
      RewriteReflects(s.items, s.history, Written(s, l).value, Rewritten(s, l));
    }
  }

  // ----- the link flags, outside a half-written change

  /** A step that writes a field of a link or delivers a callback's event. */
  predicate WritesField(l: Label) {
    l.DoField? || l.DoWrite?
  }

  lemma FieldStep(s: State, l: Label)
    requires Enabled(s, l) && Running(s, l.t)
    ensures MidLink(s.threads[l.t]) ==> WritesField(l)
    ensures MidLink(ThreadAfter(s, l)) <==> l.DoField?
    ensures WritesField(l) ==> Critical(s.threads[l.t].pc)
  {
  }

  lemma SettledBefore(s: State, l: Label, m: nat)
    requires Enabled(s, l) && Settled(Apply(s, l), m) && !(WritesField(l) && s.threads[l.t].id == m)
    ensures Settled(s, m)
  {
    var s' := Apply(s, l);
    if Running(s, l.t) {
      FieldStep(s, l);
    }
    forall t | t != l.t && Running(s, t) && MidLink(s.threads[t])
      ensures Running(s', t) && s'.threads[t] == s.threads[t]
    {
      OtherThreadKept(s, l, t);
    }
  }

  /** A thread inside the critical section that is not itself half-way finds the link settled. */
  lemma SettledInside(s: State, t: Tid)
    requires Sound(s) && Running(s, t) && Critical(s.threads[t].pc) && !MidLink(s.threads[t])
    ensures Settled(s, s.threads[t].id)
  {
    var m := s.threads[t].id;
    assert InCritical(s, t, m);
    assert forall u :: InCritical(s, u, m) ==> u == t;
    assert forall u :: Running(s, u) && s.threads[u].id == m && MidLink(s.threads[u]) ==> InCritical(s, u, m);
  }

  lemma LinkFlagsBefore(s: State, l: Label, i: nat)
    requires Enabled(s, l) && i < |ItemsAfter(s, l)| && (Adds(s, l) ==> i < |s.items|)
    requires !(WritesField(l) && Written(s, l) == Some(i))
    ensures Before(s, l, i) < |s.items|
    ensures ItemsAfter(s, l)[i].connected == s.items[Before(s, l, i)].connected
    ensures ItemsAfter(s, l)[i].disconnected == s.items[Before(s, l, i)].disconnected
  {
    if Written(s, l) == Some(i) {
      RewrittenKeepsLink(s, l);
    }
  }

  lemma RewrittenKeepsLink(s: State, l: Label)
    requires Enabled(s, l) && Written(s, l).Some? && !WritesField(l)
    ensures Rewritten(s, l).connected == s.items[Written(s, l).value].connected
    ensures Rewritten(s, l).disconnected == s.items[Written(s, l).value].disconnected
  {
  }

  lemma DeliveryLink(s: State, l: Label)
    requires Sound(s) && Faithful(s) && Enabled(s, l) && l.DoWrite? && s.threads[l.t].ptr.Slot?
    ensures var c, e := s.items[s.threads[l.t].ptr.index], EventOf(s.threads[l.t].call);
            ReflectsLink(FinalField(c, e), Routed(s.history, c.lock) + [e])
  {
    var th := s.threads[l.t];
    var c, e := s.items[th.ptr.index], EventOf(th.call);
    OwnLock(s, l.t);
    assert FitsCall(th.call, th.pc);
    if IsLinkChange(e) {
      assert Partway(s, l.t);
    } else {
      SettledInside(s, l.t);
      assert LinkFaithful(s, th.ptr.index);
    }
    LinkSnoc(c, FinalField(c, e), Routed(s.history, c.lock), e);
  }

  lemma StepLinkFaithful(s: State, l: Label, i: int)
    requires Sound(s) && Faithful(s) && Enabled(s, l)
    ensures LinkFaithful(Apply(s, l), i)
  {
    var s' := Apply(s, l);
    if 0 <= i < |s'.items| && Settled(s', s'.items[i].lock) {
      if Adds(s, l) && i == |s.items| {
        RoutedFresh(s.history, s.nextLock);
      } else if WritesField(l) && Written(s, l) == Some(i) {
        OwnLinkFaithful(s, l, i);
      } else {
        OtherLinkFaithful(s, l, i);
      }
    }
  }

  lemma OwnLinkFaithful(s: State, l: Label, i: nat)
    requires Sound(s) && Faithful(s) && Enabled(s, l) && WritesField(l) && Written(s, l) == Some(i)
    ensures LinkFaithful(Apply(s, l), i)
  {
    var s' := Apply(s, l);
    OwnLock(s, l.t);
    FieldStep(s, l);
    if l.DoField? {
      assert Running(s', l.t) && s'.threads[l.t] == ThreadAfter(s, l);
    } else {
      DeliveryLink(s, l);
      RoutedSnoc(s.history, Entry(s.threads[l.t].id, EventOf(s.threads[l.t].call)), s.items[i].lock);
    }
  }

  lemma OtherLinkFaithful(s: State, l: Label, i: nat)
    requires Sound(s) && Faithful(s) && Enabled(s, l) && i < |ItemsAfter(s, l)| && (Adds(s, l) ==> i < |s.items|)
    requires !(WritesField(l) && Written(s, l) == Some(i))
    requires Settled(Apply(s, l), ItemsAfter(s, l)[i].lock)
    ensures LinkFaithful(Apply(s, l), i)
  {
    var b := Before(s, l, i);
    LockBefore(s, l, i);
    LinkFlagsBefore(s, l, i);
    var m := s.items[b].lock;
    if WritesField(l) { FieldElsewhere(s, l, b); }
    SettledBefore(s, l, m);
    assert LinkFaithful(s, b);
    if Delivers(l) {
      FlagKeepsLink(s, l, m, b);
    }
  }

  lemma FieldElsewhere(s: State, l: Label, b: nat)
    requires Sound(s) && Enabled(s, l) && b < |s.items| && WritesField(l) && Written(s, l) != Some(b)
    ensures s.threads[l.t].id != s.items[b].lock
  {
    OwnLock(s, l.t);
  }

  /** An event that does not change the link leaves it as it was. */
  lemma FlagKeepsLink(s: State, l: Label, m: nat, b: nat)
    requires Sound(s) && Enabled(s, l) && Delivers(l) && b < |s.items| && m == s.items[b].lock
    requires l.DoWrite? ==> s.threads[l.t].id != m
    requires ReflectsLink(s.items[b], Routed(s.history, m))
    ensures ReflectsLink(s.items[b], Routed(HistoryAfter(s, l), m))
  {
    var e := EventOf(s.threads[l.t].call);
    RoutedSnoc(s.history, Entry(s.threads[l.t].id, e), m);
    if s.threads[l.t].id == m {
      LinkSnoc(s.items[b], s.items[b], Routed(s.history, m), e);
    }
  }

  lemma StepPartway(s: State, l: Label, t: Tid)
    requires Sound(s) && Faithful(s) && Enabled(s, l) && Sound(Apply(s, l))
    ensures Partway(Apply(s, l), t)
  {
    var s' := Apply(s, l);
    if Holds(s', t) && MidLink(s'.threads[t]) {
      if t == l.t {
        OwnPartway(s, l);
      } else {
        OtherGoesOn(s, l, t);
        OtherPartway(s, l, t);
      }
    }
  }

  lemma OwnPartway(s: State, l: Label)
    requires Sound(s) && Faithful(s) && Enabled(s, l) && MidLink(ThreadAfter(s, l))
    ensures Partway(Apply(s, l), l.t)
  {
    if !l.DoBegin? {
      FieldStep(s, l);
      OwnLock(s, l.t);
      assert Partway(s, l.t);
    }
  }

  lemma OtherPartway(s: State, l: Label, t: Tid)
    requires Sound(s) && Faithful(s) && Enabled(s, l) && Sound(Apply(s, l)) && t != l.t
    requires Holds(s, t) && MidLink(s.threads[t]) && t in ThreadsAfter(s, l) && ThreadsAfter(s, l)[t] == s.threads[t]
    ensures Partway(Apply(s, l), t)
  {
    var s' := Apply(s, l);
    var i := s.threads[t].ptr.index;
    assert Holds(s', t) && Denotes(s', s.threads[t]) && Denotes(s, s.threads[t]) && Partway(s, t);
    SameLockSameContext(s, l, i, i);
    assert Adds(s, l) ==> i < |s.items|;
    MidLinkAlone(s, l, t);
    LinkFlagsBefore(s, l, i);
  }

  /** While one callback is half-way nobody else writes to its context's link. */
  lemma MidLinkAlone(s: State, l: Label, t: Tid)
    requires Sound(s) && Enabled(s, l) && t != l.t && Holds(s, t) && MidLink(s.threads[t]) && Denotes(s, s.threads[t])
    ensures !(WritesField(l) && Written(s, l) == Some(s.threads[t].ptr.index))
  {
    if WritesField(l) && Written(s, l) == Some(s.threads[t].ptr.index) {
      FieldStep(s, l);
      OwnLock(s, l.t);
      BothCritical(s, l.t, t);
    }
  }

  lemma BothCritical(s: State, t: Tid, u: Tid)
    requires Sound(s) && t != u && Running(s, t) && Running(s, u)
    requires Critical(s.threads[t].pc) && Critical(s.threads[u].pc)
    ensures s.threads[t].id != s.threads[u].id
  {
    assert InCritical(s, t, s.threads[t].id) && InCritical(s, u, s.threads[u].id);
  }

  lemma LastVarSnoc(es: seq<Event>, e: Event, name: Var, k: int)
    ensures LastVar(es + [e], name, k) <==> (if SetsVar(e, name) then k == |es| else LastVar(es, name, k))
  {
    var fs := es + [e];
    assert forall j :: 0 <= j < |es| ==> fs[j] == es[j];
    assert fs[|es|] == e;
  }

  lemma VarsSnoc(v: Vars, es: seq<Event>, e: Event, name: Var)
    requires VarReflects(v, es, name)
    ensures VarReflects(ApplyToVars(v, e), es + [e], name)
  {
    var fs := es + [e];
    forall k ensures LastVar(fs, name, k) <==> (if SetsVar(e, name) then k == |es| else LastVar(es, name, k)) {
      LastVarSnoc(es, e, name, k);
    }
    if SetsVar(e, name) {
      assert LastVar(fs, name, |es|) && fs[|es|] == e;
    } else if VarOf(v, name) {
      var k :| LastVar(es, name, k) && es[k].value;
      assert LastVar(fs, name, k) && fs[k].value;
    } else {
      forall k | LastVar(fs, name, k) ensures !fs[k].value {
        assert fs[k] == es[k];
      }
    }
  }

  lemma StepVarsReflect(s: State, l: Label)
    requires Sound(s) && Faithful(s) && Enabled(s, l)
    ensures VarsReflect(Apply(s, l))
  {
    if Delivers(l) {
      var th := s.threads[l.t];
      OwnLock(s, l.t);
      RoutedSnoc(s.history, Entry(th.id, EventOf(th.call)), 0);
      if th.ptr.Globals? {
        forall name ensures VarReflects(Apply(s, l).vars, Routed(Apply(s, l).history, 0), name) {
          VarsSnoc(s.vars, Routed(s.history, 0), EventOf(th.call), name);
        }
      }
    }
  }

  lemma StepFaithful(s: State, l: Label)
    requires Sound(s) && Faithful(s) && Enabled(s, l) && Sound(Apply(s, l))
    ensures Faithful(Apply(s, l))
  {
    StepAllRest(s, l);
    forall i ensures LinkFaithful(Apply(s, l), i) { StepLinkFaithful(s, l, i); }
    forall t ensures Partway(Apply(s, l), t) { StepPartway(s, l, t); }
    StepVarsReflect(s, l);
    if Delivers(l) {
      assert FitsCall(s.threads[l.t].call, s.threads[l.t].pc);
      IdsAreOld(s, l.t);
    }
  }

  lemma RunFaithful(r: Run, k: nat)
    requires IsRun(r) && Guarded(r) && k < |r.states|
    ensures Faithful(r.states[k])
  {
    if k > 0 {
      RunFaithful(r, k - 1);
      RunSound(r, k - 1);
      RunSound(r, k);
      assert StepAt(r, k - 1);
      StepFaithful(r.states[k - 1], r.labels[k - 1]);
    }
  }

  lemma SettledReflects(s: State, i: nat)
    requires Faithful(s) && i < |s.items| && Settled(s, s.items[i].lock)
    ensures Reflects(s.items[i], Routed(s.history, s.items[i].lock))
  {
    assert LinkFaithful(s, i);
  }

  /** In every reachable state each context's handle and its discovery and database
      flags say exactly what the events routed to it since its creation say; so do
      its two link flags, and the context is what replaying the events gives, unless
      a callback is between its first and its last write of a link change. Never
      otherwise is it both connected and disconnected. */
  lemma ContextsAreHistories(r: Run, k: nat, i: nat)
    requires IsRun(r) && Guarded(r) && k < |r.states| && i < |r.states[k].items|
    ensures var s, c := r.states[k], r.states[k].items[i];
            var es := Routed(s.history, c.lock);
            && ReflectsRest(c, es)
            && (Settled(s, c.lock) ==> Reflects(c, es) && SummaryOf(c) == SummaryOf(Replay(es, c.lock)))
            && (c.connected && c.disconnected ==> !Settled(s, c.lock))
            && HistoryIsDeliveries(r, k)
  {
    RunFaithful(r, k);
    HistoryOfDeliveries(r, k);
    var s, c := r.states[k], r.states[k].items[i];
    if Settled(s, c.lock) {
      var es := Routed(s.history, c.lock);
      SettledReflects(s, i);
      ReplayReflects(es, c.lock);
      ReflectionIsUnique(c, Replay(es, c.lock), es);
      assert forall a, b :: !(LastChange(es, a, Connected) && LastChange(es, b, Disconnected));
    }
  }

  /** In every reachable state each callback variable is the value last delivered to it. */
  lemma VarsAreHistories(r: Run, k: nat, name: Var)
    requires IsRun(r) && Guarded(r) && k < |r.states|
    ensures VarReflects(r.states[k].vars, Routed(r.states[k].history, 0), name)
  {
    RunFaithful(r, k);
  }

  /** A callback records as its route the first context that matches its address,
      for link changes, or its handle, for the others, at the time it looks. */
  lemma RoutingIsFirstMatch(s: State, l: Label)
    requires Typed(s) && Enabled(s, l) && l.DoStart? && Applies(s.threads[l.t].call) && OnContext(s.threads[l.t].call)
    requires Running(Apply(s, l), l.t) && Apply(s, l).threads[l.t].ptr.Slot?
    ensures var call := s.threads[l.t].call;
            var th := Apply(s, l).threads[l.t];
            && th.ptr.index < |s.items| && th.id == s.items[th.ptr.index].lock
            && (if call.LinkChanged?
                then s.items[th.ptr.index].address == call.address &&
                     forall j :: 0 <= j < th.ptr.index ==> s.items[j].address != call.address
                else s.items[th.ptr.index].handle == call.handle &&
                     forall j :: 0 <= j < th.ptr.index ==> s.items[j].handle != call.handle)
  {
  }
}
