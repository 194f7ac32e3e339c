/** When an OK of `bleDiscoverAllServices` may mean nothing new. */
module StaleDiscovery {
  import opened Types
  import opened Protocol
  import opened PointerStability
  import opened LockDiscipline
  import opened EventFold
  import opened Deliveries
  import opened ApiResults
  import opened RunSteps

  predicate DiscoveryAt(h: seq<Entry>, m: nat, d: int) {
    0 <= d < |h| && h[d].route == m && h[d].event.DiscoveredEvent?
  }

  lemma {:induction false} RoutedDiscovery(h: seq<Entry>, m: nat)
    ensures (exists e :: e in Routed(h, m) && e.DiscoveredEvent?) <==> (exists d :: DiscoveryAt(h, m, d))
  {
    if h != [] {
      var g, x := h[..|h| - 1], h[|h| - 1];
      RoutedDiscovery(g, m);
      assert forall d :: 0 <= d < |g| ==> (DiscoveryAt(h, m, d) <==> DiscoveryAt(g, m, d));
      if DiscoveryAt(h, m, |g|) {
        assert Routed(h, m)[|Routed(g, m)|] == x.event;
      } else {
        assert forall e: Event :: e.DiscoveredEvent? ==> (e in Routed(h, m) <==> e in Routed(g, m));
      }
    }
  }

  /** In run `q`, which goes on from `r`, the call of thread `t` returns OK although no
      discovery has been delivered to its context since. */
  ghost predicate ReturnsUndiscovered(q: Run, r: Run, t: Tid)
    requires IsRun(r) && t in Last(r).threads
  {
    && Good(q) && Extends(q, r)
    && (forall n :: |r.labels| <= n < |q.labels| ==> !(q.labels[n].DoBegin? && q.labels[n].t == t))
    && ReturnedOk(Last(q), t)
    && !exists d :: |Last(r).history| <= d && DiscoveryAt(Last(q).history, Last(r).threads[t].id, d)
  }

  /** The thread is still in the call it is in at `th`, or has finished it. */
  predicate SameCall(s: State, t: Tid, th: Thread) {
    && t in s.threads && s.threads[t].call == th.call && s.threads[t].id == th.id
    && (s.threads[t].Busy? ==> s.threads[t].pc != Start)
  }

  lemma OwnCallStays(s: State, l: Label)
    requires Enabled(s, l) && Running(s, l.t) && s.threads[l.t].pc != Start && !l.DoBegin?
    ensures var th, th' := s.threads[l.t], ThreadAfter(s, l);
            th'.call == th.call && th'.id == th.id && (th'.Busy? ==> th'.pc != Start)
  {
  }

  lemma StepSameCall(s: State, l: Label, t: Tid, th: Thread)
    requires Enabled(s, l) && SameCall(s, t, th) && !(l.DoBegin? && l.t == t)
    ensures SameCall(Apply(s, l), t, th)
  {
    if l.t == t {
      OwnCallStays(s, l);
    } else {
      OtherGoesOn(s, l, t);
    }
    assert Apply(s, l).threads == ThreadsAfter(s, l);
  }

  lemma SameCallThroughout(q: Run, r: Run, t: Tid, n: nat)
    requires IsRun(r) && IsRun(q) && Extends(q, r) && |r.labels| <= n < |q.states|
    requires forall m :: |r.labels| <= m < |q.labels| ==> !(q.labels[m].DoBegin? && q.labels[m].t == t)
    requires t in Last(r).threads && SameCall(Last(r), t, Last(r).threads[t])
    ensures SameCall(q.states[n], t, Last(r).threads[t])
    ensures Last(r).history <= q.states[n].history
    decreases n
  {
    if n > |r.labels| {
      SameCallThroughout(q, r, t, n - 1);
      assert StepAt(q, n - 1);
      StepSameCall(q.states[n - 1], q.labels[n - 1], t, Last(r).threads[t]);
    }
  }

  /** An OK is backed by some discovery, at any time. */
  lemma OkSawDiscovery(q: Run, t: Tid)
    requires Good(q) && ReturnedOk(Last(q), t) && Last(q).threads[t].call.Discover?
    ensures exists d :: DiscoveryAt(Last(q).history, Last(q).threads[t].id, d)
  {
    var s, th := Last(q), Last(q).threads[t];
    OkMeansEventSeen(q, |q.labels|, t);
    RoutedDiscovery(s.history[..th.stamp], th.id);
    var d :| DiscoveryAt(s.history[..th.stamp], th.id, d);
    assert DiscoveryAt(s.history, th.id, d);
  }

  /** With its flag clear a context has had no discovery. */
  lemma ClearMeansNone(r: Run, t: Tid)
    requires Good(r) && At(Last(r), t, Request) && Last(r).threads[t].call.Discover? &&
             !Flag(Last(r), Last(r).threads[t])
    ensures !exists d :: DiscoveryAt(Last(r).history, Last(r).threads[t].id, d)
  {
    var s, th := Last(r), Last(r).threads[t];
    RunSound(r, |r.labels|);
    RunFaithful(r, |r.labels|);
    OwnLock(s, t);
    assert FitsPointer(th);
    RoutedDiscovery(s.history, th.id);
    assert ReflectsRest(s.items[th.ptr.index], Routed(s.history, th.id));
  }

  lemma ClearMeansNew(q: Run, r: Run, t: Tid)
    requires Good(r) && At(Last(r), t, Request) && Last(r).threads[t].call.Discover? &&
             !Flag(Last(r), Last(r).threads[t])
    ensures !ReturnsUndiscovered(q, r, t)
  {
    if ReturnsUndiscovered(q, r, t) {
      ClearMeansNone(r, t);
      SameCallThroughout(q, r, t, |q.labels|);
      OkSawDiscovery(q, t);
      var d :| DiscoveryAt(Last(q).history, Last(r).threads[t].id, d);
      assert d < |Last(r).history| ==> DiscoveryAt(Last(r).history, Last(r).threads[t].id, d);
    }
  }

  lemma ReturnsAlone(r: Run, t: Tid) returns (q: Run)
    requires Good(r) && At(Last(r), t, Request) && Last(r).threads[t].call.Discover? &&
             Flag(Last(r), Last(r).threads[t])
    requires LockAt(Last(r), Last(r).threads[t].ptr) !in Last(r).owner
    ensures ReturnsUndiscovered(q, r, t)
  {
    RunSound(r, |r.labels|);
    assert FitsPointer(Last(r).threads[t]);
    var p := Answer(r, t, Ok);
    LaterStep(p, r, r, t, DoRequest(t, Ok), Last(p));
    q := WaitPasses(p, t, Last(r).threads[t].ptr.index, r);
  }

  /** `gattc_discovered` is never reset: once `bleDiscoverAllServices` has found its
      context, the first with its handle, with its mutex free, an OK certifies a
      discovery that came since if and only if the flag was clear. */
  lemma StaleDiscoveryIffFlagSet(r: Run, t: Tid)
    requires Good(r) && At(Last(r), t, Request) && Last(r).threads[t].call.Discover?
    requires LockAt(Last(r), Last(r).threads[t].ptr) !in Last(r).owner
    ensures LookedUp(r, |r.labels|, t)
    ensures (exists q :: ReturnsUndiscovered(q, r, t)) <==> Flag(Last(r), Last(r).threads[t])
  {
    PointerMeansLookedUp(r, |r.labels|, t);
    if Flag(Last(r), Last(r).threads[t]) {
      var q := ReturnsAlone(r, t);
    } else {
      forall q ensures !ReturnsUndiscovered(q, r, t) {
        ClearMeansNew(q, r, t);
      }
    }
  }
}
