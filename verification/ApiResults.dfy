/** What an OK from the blocking calls certifies about the events. */
module ApiResults {
  import opened Types
  import opened DeviceContexts
  import opened Protocol
  import opened PointerStability
  import opened LockDiscipline
  import opened EventFold
  import opened Deliveries

  // ----- prefixes of the history

  lemma {:induction false} RoutedPrefix(h: seq<Entry>, n: nat, id: nat)
    requires n <= |h|
    ensures Routed(h[..n], id) <= Routed(h, id)
  {
    if n < |h| {
      RoutedPrefix(h[..|h| - 1], n, id);
      assert h[..|h| - 1][..n] == h[..n];
    } else {
      assert h[..n] == h;
    }
  }

  /** What the events `es` must say for the flag that `call` waits for to be set. */
  ghost predicate Wanted(call: Call, es: seq<Event>) {
    match call
    case Connect(_) => exists k :: LastChange(es, k, Connected)
    case Disconnect(_) => exists k :: LastChange(es, k, Disconnected)
    case Discover(_) => exists e :: e in es && e.DiscoveredEvent?
    case GetDatabase(_, _, _) => exists e :: e in es && e.DatabaseEvent?
    case Register => exists k :: LastVar(es, BleRegistered, k) && es[k].value
    case _ => false
  }

  /** The handle of the last connection among `es`. */
  ghost predicate LastHandle(es: seq<Event>, got: Handle) {
    exists k :: LastConnection(es, k) && es[k].handle == got
  }

  function Seen(h: seq<Entry>, th: Thread): seq<Event>
    requires th.stamp <= |h|
  {
    Routed(h[..th.stamp], th.id)
  }

  // ----- the invariant of one thread

  ghost predicate Backed(th: Thread, h: seq<Entry>) {
    && th.stamp <= |h|
    && match th
       case Busy(call, pc, _, _, _, _) =>
         (match pc
          case Passed | RemoveEntry | ReadLock => Wanted(call, Seen(h, th))
          case ReadHandle => Routed(h, th.id) == Seen(h, th) && exists k :: LastConnection(Seen(h, th), k)
          case ReadUnlock(got) => LastHandle(Seen(h, th), got)
          case _ => true)
       case Done(call, status, got, _, _, _) =>
         status == Ok && Waits(call) ==>
           if call.Connect? then LastHandle(Seen(h, th), got) else Wanted(call, Seen(h, th))
  }

  /** Nothing in the history before a `bleConnect` created its context is about that context. */
  ghost predicate Newborn(th: Thread, h: seq<Entry>) {
    th.call.Connect? && (th.Busy? ==> th.pc != Start) && (th.Done? ==> th.status == Ok) ==>
      th.born <= |h| && forall k :: 0 <= k < th.born ==> h[k].route != th.id
  }

  ghost predicate AllBacked(s: State) {
    forall t :: t in s.threads ==> Backed(s.threads[t], s.history) && Newborn(s.threads[t], s.history)
  }

  lemma BackedLater(th: Thread, h: seq<Entry>, e: Entry)
    requires Backed(th, h) && Newborn(th, h)
    requires th.Busy? && th.pc == ReadHandle ==> e.route != th.id
    ensures Backed(th, h + [e]) && Newborn(th, h + [e])
  {
    assert (h + [e])[..th.stamp] == h[..th.stamp];
    RoutedSnoc(h, e, th.id);
  }

  lemma FlagIsWanted(s: State, t: Tid)
    requires Sound(s) && Faithful(s) && Running(s, t) && s.threads[t].pc == Test
    requires Live(s, s.threads[t].ptr) && Flag(s, s.threads[t])
    ensures Wanted(s.threads[t].call, Routed(s.history, s.threads[t].id))
  {
    OwnLock(s, t);
    assert FitsPointer(s.threads[t]);
    assert VarReflects(s.vars, Routed(s.history, 0), BleRegistered);
    if s.threads[t].ptr.Slot? {
      SettledInside(s, t);
      SettledReflects(s, s.threads[t].ptr.index);
    }
  }

  lemma ConnectionPersists(es: seq<Event>, fs: seq<Event>, k: int)
    requires es <= fs && 0 <= k < |es| && IsLink(es[k], Connected)
    ensures exists j :: LastConnection(fs, j)
    decreases |fs| - k
  {
    assert IsLink(fs[k], Connected);
    if !LastConnection(fs, k) {
      var j :| k < j < |fs| && IsLink(fs[j], Connected);
      ConnectionPersists(fs, fs, j);
    }
  }

  lemma ReadLockBacked(s: State, l: Label)
    requires AllBacked(s) && Enabled(s, l) && l.DoAcquire? && s.threads[l.t].pc == ReadLock
    requires s.threads[l.t].call.Connect?
    ensures Backed(ThreadAfter(s, l), s.history)
  {
    var th := s.threads[l.t];
    var h := s.history;
    assert h[..|h|] == h;
    RoutedPrefix(h, th.stamp, th.id);
    var k :| LastChange(Seen(h, th), k, Connected);
    ConnectionPersists(Seen(h, th), Routed(h, th.id), k);
  }

  lemma ReadBacked(s: State, l: Label)
    requires Sound(s) && Faithful(s) && AllBacked(s) && Enabled(s, l) && l.DoRead?
    ensures Backed(ThreadAfter(s, l), s.history)
  {
    var th := s.threads[l.t];
    OwnLock(s, l.t);
    assert ReflectsRest(s.items[th.ptr.index], Routed(s.history, th.id));
  }

  lemma ReleaseBacked(s: State, l: Label)
    requires Typed(s) && AllBacked(s) && Enabled(s, l) && (l.DoRelease? || l.DoRemove?)
    ensures Backed(ThreadAfter(s, l), s.history)
  {
    assert Backed(s.threads[l.t], s.history);
    assert FitsCall(s.threads[l.t].call, s.threads[l.t].pc);
  }

  lemma StartBacked(s: State, l: Label)
    requires Typed(s) && Faithful(s) && AllBacked(s) && Enabled(s, l) && l.DoStart?
    ensures Backed(ThreadAfter(s, l), s.history)
  {
    assert Backed(s.threads[l.t], s.history);
    assert FitsPointer(s.threads[l.t]);
    assert VarReflects(s.vars, Routed(s.history, 0), BleRegistered);
    assert s.history[..|s.history|] == s.history;
  }

  lemma TestBacked(s: State, l: Label)
    requires Sound(s) && Faithful(s) && AllBacked(s) && Enabled(s, l) && l.DoTest?
    ensures Backed(ThreadAfter(s, l), s.history)
  {
    assert Backed(s.threads[l.t], s.history);
    assert s.history[..|s.history|] == s.history;
    if Flag(s, s.threads[l.t]) {
      FlagIsWanted(s, l.t);
    }
  }

  /** The threads about which `Backed` says something. */
  predicate Claims(th: Thread) {
    match th
    case Busy(_, pc, _, _, _, _) => pc in {Passed, RemoveEntry, ReadLock, ReadHandle} || pc.ReadUnlock?
    case Done(call, status, _, _, _, _) => status == Ok && Waits(call)
  }

  predicate MayClaim(l: Label) {
    l.DoStart? || l.DoRelease? || l.DoTest? || l.DoRead? || l.DoRemove? || l.DoAcquire?
  }

  lemma NoNewClaim(s: State, l: Label)
    requires Typed(s) && Enabled(s, l)
    requires !MayClaim(l) || (l.DoAcquire? && s.threads[l.t].pc != ReadLock)
    ensures !Claims(ThreadAfter(s, l))
    ensures !l.DoBegin? ==> ThreadAfter(s, l).stamp == s.threads[l.t].stamp
  {
    if !l.DoBegin? {
      assert FitsCall(s.threads[l.t].call, s.threads[l.t].pc);
    }
  }

  lemma ThreadBacked(s: State, l: Label)
    requires Sound(s) && Faithful(s) && AllBacked(s) && Enabled(s, l)
    ensures Backed(ThreadAfter(s, l), s.history)
  {
    if l.DoRelease? || l.DoRemove? {
      ReleaseBacked(s, l);
    } else if l.DoStart? {
      StartBacked(s, l);
    } else if l.DoTest? {
      TestBacked(s, l);
    } else if l.DoRead? {
      ReadBacked(s, l);
    } else if l.DoAcquire? && s.threads[l.t].pc == ReadLock {
      assert FitsCall(s.threads[l.t].call, s.threads[l.t].pc);
      ReadLockBacked(s, l);
    } else {
      NoNewClaim(s, l);
    }
  }

  lemma ThreadNewborn(s: State, l: Label)
    requires Sound(s) && Faithful(s) && AllBacked(s) && Enabled(s, l)
    ensures Newborn(ThreadAfter(s, l), s.history)
  {
    if l.DoStart? {
      assert ThreadAfter(s, l).call == s.threads[l.t].call;
    } else if !l.DoBegin? {
      assert Newborn(s.threads[l.t], s.history);
      IdentityKept(s, l);
    }
  }

  lemma IdentityKept(s: State, l: Label)
    requires Enabled(s, l) && !l.DoBegin? && !l.DoStart?
    ensures var th, th' := s.threads[l.t], ThreadAfter(s, l);
            th'.call == th.call && th'.id == th.id && th'.born == th.born && th.pc != Start
  {
  }

  lemma ThreadsBackedNow(s: State, l: Label, t: Tid)
    requires Sound(s) && Faithful(s) && AllBacked(s) && Enabled(s, l) && t in ThreadsAfter(s, l)
    ensures Backed(ThreadsAfter(s, l)[t], s.history) && Newborn(ThreadsAfter(s, l)[t], s.history)
  {
    if t == l.t {
      ThreadBacked(s, l);
      ThreadNewborn(s, l);
    } else {
      assert t in s.threads && Backed(s.threads[t], s.history) && Newborn(s.threads[t], s.history);
    }
  }

  lemma StepBacked(s: State, l: Label)
    requires Sound(s) && Faithful(s) && AllBacked(s) && Enabled(s, l)
    ensures AllBacked(Apply(s, l))
  {
    var threads' := ThreadsAfter(s, l);
    var h' := HistoryAfter(s, l);
    forall t | t in threads' ensures Backed(threads'[t], h') && Newborn(threads'[t], h') {
      ThreadsBackedNow(s, l, t);
      if Delivers(l) {
        DeliveredElsewhere(s, l, t);
        BackedLater(threads'[t], s.history, Entry(s.threads[l.t].id, EventOf(s.threads[l.t].call)));
      }
    }
  }

  /** While a `bleConnect` reads its handle, nothing is delivered to its context. */
  lemma DeliveredElsewhere(s: State, l: Label, t: Tid)
    requires Sound(s) && Enabled(s, l) && Delivers(l) && t in Apply(s, l).threads
    ensures var th' := Apply(s, l).threads[t];
            th'.Busy? && th'.pc == ReadHandle ==> s.threads[l.t].id != th'.id
  {
    var th' := Apply(s, l).threads[t];
    if th'.Busy? && th'.pc == ReadHandle {
      assert InCritical(s, l.t, s.threads[l.t].id);
      assert InCritical(s, t, th'.id);
    }
  }

  lemma RunBacked(r: Run, k: nat)
    requires IsRun(r) && Guarded(r) && k < |r.states|
    ensures AllBacked(r.states[k])
  {
    if k > 0 {
      RunBacked(r, k - 1);
      RunSound(r, k - 1);
      RunFaithful(r, k - 1);
      assert StepAt(r, k - 1);
      StepBacked(r.states[k - 1], r.labels[k - 1]);
    }
  }

  // ----- positions in the history

  /** Position `p` of the history is the last connection of context `m` before `n`. */
  ghost predicate LastConnectionAt(h: seq<Entry>, m: nat, n: nat, p: int) {
    && 0 <= p < n <= |h| && h[p].route == m && IsLink(h[p].event, Connected)
    && forall q :: p < q < n && h[q].route == m ==> !IsLink(h[q].event, Connected)
  }

  lemma {:induction false} ConnectionPosition(h: seq<Entry>, m: nat, n: nat, k: int)
    requires n <= |h| && LastConnection(Routed(h[..n], m), k)
    ensures exists p :: LastConnectionAt(h, m, n, p) && h[p].event == Routed(h[..n], m)[k]
  {
    var es := Routed(h[..n], m);
    if n > 0 {
      var g, x := h[..n - 1], h[n - 1];
      assert h[..n] == g + [x];
      RoutedSnoc(g, x, m);
      if x.route == m && k == |es| - 1 {
        assert LastConnectionAt(h, m, n, n - 1);
      } else {
        assert x.route == m ==> es[|es| - 1] == x.event && !IsLink(x.event, Connected);
        assert forall i :: 0 <= i < |Routed(g, m)| ==> es[i] == Routed(g, m)[i];
        ConnectionPosition(h, m, n - 1, k);
        var p :| LastConnectionAt(h, m, n - 1, p) && h[p].event == Routed(g, m)[k];
        assert LastConnectionAt(h, m, n, p);
      }
    }
  }

  // ----- main results

  ghost predicate ReturnedOk(s: State, t: Tid) {
    t in s.threads && s.threads[t].Done? && s.threads[t].status == Ok
  }

  /** `bleConnect` returns OK only after a successful CONNECTED event was routed to
      the context it created, and the handle it returns is that of the last such
      event before it took the mutex the second time (history position `stamp`).
      Disconnections in between do not change that. The event is that of a callback
      that reported a success. */
  lemma ConnectReturnsLastHandle(r: Run, k: nat, t: Tid)
    requires IsRun(r) && Guarded(r) && k < |r.states|
    requires ReturnedOk(r.states[k], t) && r.states[k].threads[t].call.Connect?
    ensures var th := r.states[k].threads[t];
            var h := r.states[k].history;
            && th.stamp <= |h| && th.born <= |h|
            && (forall j :: 0 <= j < th.born ==> h[j].route != th.id)
            && LastHandle(Seen(h, th), th.got)
            && exists p :: ConnectedBy(r, k, th, p)
  {
    RunBacked(r, k);
    var th, h := r.states[k].threads[t], r.states[k].history;
    var e :| LastConnection(Seen(h, th), e) && Seen(h, th)[e].handle == th.got;
    ConnectionPosition(h, th.id, th.stamp, e);
    var p :| LastConnectionAt(h, th.id, th.stamp, p) && h[p].event == Seen(h, th)[e];
    HistoryIsDelivered(r, k, p);
    assert ConnectedBy(r, k, th, p);
  }

  /** Entry `p`, the last connection of the thread's context before its `stamp`, came from
      a callback that reported a successful connection with the handle it returned. */
  ghost predicate ConnectedBy(r: Run, k: nat, th: Thread, p: int)
    requires IsRun(r) && k < |r.states|
  {
    && LastConnectionAt(r.states[k].history, th.id, th.stamp, p) && th.Done?
    && exists j: nat :: DeliveredAt(r, k, p, j) && SuccessfulConnection(r.states[j].threads[r.labels[j].t].call, th.got)
  }

  predicate SuccessfulConnection(call: Call, h: Handle) {
    call.LinkChanged? && call.link.Connected? && call.success && call.handle == h
  }

  /** The other calls return OK only when, at the moment they saw their flag under
      the mutex (history position `stamp`), the events routed to their context
      said what they wait for: `bleDisconnect` that the last state change was
      DISCONNECTED, `bleDiscoverAllServices` that some discovery completed,
      `bleGetDatabase` that some database arrived, and `bleRegister` that the
      last registration event was a success. Their context is the first one that had
      the call's handle when the call looked it up. */
  lemma OkMeansEventSeen(r: Run, k: nat, t: Tid)
    requires IsRun(r) && Guarded(r) && k < |r.states|
    requires ReturnedOk(r.states[k], t) && Waits(r.states[k].threads[t].call)
    requires !r.states[k].threads[t].call.Connect?
    ensures var th := r.states[k].threads[t];
            var h := r.states[k].history;
            && th.stamp <= |h| && Wanted(th.call, Seen(h, th))
            && (!th.call.Register? ==> LookedUp(r, k, t))
  {
    RunBacked(r, k);
    if !r.states[k].threads[t].call.Register? {
      ContextIsFirstAskedFor(r, k, t);
    }
  }

  ghost predicate UniqueHandle(items: seq<DeviceContext>, h: Handle) {
    forall i, j :: 0 <= i < |items| && 0 <= j < |items| && items[i].handle == h && items[j].handle == h ==> i == j
  }

  /** In step `n` of the run `bleDisconnect` returns OK in thread `t`. */
  ghost predicate DisconnectReturns(r: Run, n: nat, t: Tid)
    requires IsRun(r) && n < |r.labels|
  {
    Running(r.states[n], t) && r.states[n].threads[t].call.Disconnect? && ReturnedOk(r.states[n + 1], t)
  }

  /** The first context with the handle is gone, and the others are in order and
      unchanged. */
  ghost predicate FirstMatchGone(items: seq<DeviceContext>, items': seq<DeviceContext>, h: Handle) {
    match FirstByHandle(items, h)
    case None => items' == items
    case Some(i) => items' == items[..i] + items[i + 1..]
  }

  /** No context has the handle. */
  ghost predicate HandleGone(items: seq<DeviceContext>, h: Handle) {
    forall j :: 0 <= j < |items| ==> items[j].handle != h
  }

  lemma OkIsRemoval(s: State, l: Label)
    requires Typed(s) && Enabled(s, l) && Running(s, l.t) && s.threads[l.t].call.Disconnect?
    requires ReturnedOk(Apply(s, l), l.t)
    ensures l.DoRemove?
  {
    assert FitsCall(s.threads[l.t].call, s.threads[l.t].pc);
  }

  /** `bleDisconnect` returns OK in no other step than its removal. */
  lemma DisconnectReturnsByRemoval(r: Run, n: nat, t: Tid)
    requires IsRun(r) && Guarded(r) && n < |r.labels| && DisconnectReturns(r, n, t)
    ensures r.labels[n] == DoRemove(t) && StepAt(r, n)
  {
    assert StepAt(r, n);
    RunSound(r, n);
    assert r.states[n + 1].threads == ThreadsAfter(r.states[n], r.labels[n]);
    if r.labels[n].t == t {
      OkIsRemoval(r.states[n], r.labels[n]);
    } else {
      OtherGoesOn(r.states[n], r.labels[n], t);
    }
  }

  /** When `bleDisconnect` returns OK it has just taken out the first context with its
      handle and left the others in order and unchanged; no context with that
      handle remains if and only if there was at most one. */
  lemma DisconnectRemovesFirstMatch(r: Run, n: nat, t: Tid)
    requires IsRun(r) && Guarded(r) && n < |r.labels| && DisconnectReturns(r, n, t)
    ensures var items, items', h := r.states[n].items, r.states[n + 1].items, r.states[n].threads[t].call.handle;
            FirstMatchGone(items, items', h) && (HandleGone(items', h) <==> UniqueHandle(items, h))
  {
    DisconnectReturnsByRemoval(r, n, t);
    RemovalTakesFirstMatch(r.states[n], t);
  }

  lemma RemovalTakesFirstMatch(s: State, t: Tid)
    requires Enabled(s, DoRemove(t))
    ensures var items', h := Apply(s, DoRemove(t)).items, s.threads[t].call.handle;
            FirstMatchGone(s.items, items', h) && (HandleGone(items', h) <==> UniqueHandle(s.items, h))
  {
    var h := s.threads[t].call.handle;
    var l := DoRemove(t);
    var items' := Apply(s, l).items;
    match FirstByHandle(s.items, h) {
      case None =>
      case Some(i) =>
        assert items' == WithoutIndex(s.items, i);
        if UniqueHandle(s.items, h) {
          forall j | 0 <= j < |items'| ensures items'[j].handle != h {
            assert items'[j] == s.items[if j < i then j else j + 1];
          }
        } else {
          var a, b :| 0 <= a < b < |s.items| && s.items[a].handle == h && s.items[b].handle == h;
          assert items'[b - 1] == s.items[b];
        }
    }
  }
}
