/** How a wait ends: by its last wakeup, not by its flag. */
module Timeouts {
  import opened Types
  import opened Protocol
  import opened LockDiscipline

  // ----- one relock

  lemma RelockAcquires(s: State, t: Tid)
    requires Running(s, t) && s.threads[t].pc.Relock? && Live(s, s.threads[t].ptr)
    requires LockAt(s, s.threads[t].ptr) !in s.owner
    ensures Enabled(s, DoAcquire(t))
    ensures var s1 := Apply(s, DoAcquire(t));
            && s1.items == s.items && s1.vars == s.vars && s1.generation == s.generation
            && t in s1.threads && s1.threads[t] == AfterAcquire(s.threads[t], |s.history|)
  {
  }

  /** A waiter that takes its mutex back returns TIMEOUT whatever its flag says if its
      last wakeup reported a timeout; otherwise it looks at its flag, and goes on if
      and only if that is set. Until then the timeout can still be reported. */
  lemma RelockOutcome(s: State, t: Tid)
    requires Sound(s) && Running(s, t) && s.threads[t].pc.Relock? && s.threads[t].id !in s.owner
    ensures Enabled(s, DoAcquire(t))
    ensures var s1, th := Apply(s, DoAcquire(t)), s.threads[t];
            if th.pc.timedOut then
              Enabled(s1, DoRelease(t)) && ThreadAfter(s1, DoRelease(t)) == Finished(th, Timeout)
            else
              && Enabled(s, DoWake(t, true)) && Enabled(s1, DoTest(t))
              && Live(s, th.ptr)
              && (ThreadAfter(s1, DoTest(t)).pc == Passed <==> Flag(s, th))
  {
    OwnLock(s, t);
    RelockAcquires(s, t);
  }

  // ----- over runs

  /** The last wakeup of the call that thread `t` is in at state `n` reported a timeout. */
  ghost predicate TimedOut(r: Run, n: nat, t: Tid)
    requires n <= |r.labels|
  {
    exists w :: 0 <= w < n && TimedOutAt(r, w, n, t)
  }

  ghost predicate TimedOutAt(r: Run, w: int, n: nat, t: Tid)
    requires 0 <= w < n <= |r.labels|
  {
    && r.labels[w] == DoWake(t, true)
    && forall k :: w < k < n ==>
         !(r.labels[k].DoWake? && r.labels[k].t == t) && !(r.labels[k].DoBegin? && r.labels[k].t == t)
  }

  predicate Expiring(th: Thread) {
    th.Busy? && (th.pc == Relock(true) || th.pc == Expired)
  }

  predicate Ended(th: Thread) {
    th.Done? && th.status == Timeout
  }

  lemma ExpiringStep(s: State, l: Label)
    requires Enabled(s, l) && !l.DoBegin?
    ensures Expiring(s.threads[l.t]) ==> !l.DoWake? && (Expiring(ThreadAfter(s, l)) || Ended(ThreadAfter(s, l)))
    ensures Expiring(ThreadAfter(s, l)) ==> Expiring(s.threads[l.t]) || l == DoWake(l.t, true)
    ensures l == DoWake(l.t, true) ==> Expiring(ThreadAfter(s, l))
  {
  }

  lemma OtherExpiring(s: State, l: Label, t: Tid)
    requires Enabled(s, l) && t != l.t
    ensures t in ThreadsAfter(s, l) <==> t in s.threads
    ensures t in s.threads ==> (Expiring(ThreadsAfter(s, l)[t]) <==> Expiring(s.threads[t]))
    ensures t in s.threads && s.threads[t].Done? ==> ThreadsAfter(s, l)[t] == s.threads[t]
  {
  }

  /** A thread is on its way to a timeout exactly when its last wakeup reported one. */
  ghost predicate Tracks(r: Run, n: nat, t: Tid)
    requires n <= |r.labels| < |r.states|
  {
    var s := r.states[n];
    && (TimedOut(r, n, t) ==> t in s.threads && (Expiring(s.threads[t]) || Ended(s.threads[t])))
    && (t in s.threads && Expiring(s.threads[t]) ==> TimedOut(r, n, t))
  }

  lemma TimedOutGoesOn(r: Run, n: nat, t: Tid)
    requires n < |r.labels| && TimedOut(r, n, t)
    requires !(r.labels[n].DoWake? && r.labels[n].t == t) && !(r.labels[n].DoBegin? && r.labels[n].t == t)
    ensures TimedOut(r, n + 1, t)
  {
    var w :| 0 <= w < n && TimedOutAt(r, w, n, t);
    assert TimedOutAt(r, w, n + 1, t);
  }

  lemma TimedOutBefore(r: Run, n: nat, t: Tid)
    requires n < |r.labels| && TimedOut(r, n + 1, t)
    ensures r.labels[n] == DoWake(t, true) || (TimedOut(r, n, t) && !(r.labels[n].DoBegin? && r.labels[n].t == t))
  {
    var w :| 0 <= w < n + 1 && TimedOutAt(r, w, n + 1, t);
    if w < n {
      assert TimedOutAt(r, w, n, t);
    }
  }

  lemma StepTracks(r: Run, n: nat, t: Tid)
    requires IsRun(r) && n < |r.labels| && Tracks(r, n, t)
    ensures Tracks(r, n + 1, t)
  {
    assert StepAt(r, n);
    var s, l := r.states[n], r.labels[n];
    if TimedOut(r, n + 1, t) {
      TimedOutBefore(r, n, t);
    }
    if l.t != t {
      OtherExpiring(s, l, t);
      if TimedOut(r, n, t) { TimedOutGoesOn(r, n, t); }
    } else if !l.DoBegin? {
      ExpiringStep(s, l);
      if l == DoWake(t, true) {
        assert TimedOutAt(r, n, n + 1, t);
      } else if TimedOut(r, n, t) && !l.DoWake? {
        TimedOutGoesOn(r, n, t);
      }
    }
  }

  lemma RunTracks(r: Run, n: nat, t: Tid)
    requires IsRun(r) && n < |r.states|
    ensures Tracks(r, n, t)
  {
    if n > 0 {
      RunTracks(r, n - 1, t);
      StepTracks(r, n - 1, t);
    }
  }

  /** The unlock that ends a wait makes the call return TIMEOUT if and only if the
      last wakeup of the call reported a timeout; in every other case the call
      returns OK or goes on. The flag has no say in it. */
  lemma WaitTimesOutIff(r: Run, n: nat, t: Tid)
    requires IsRun(r) && n < |r.labels| && r.labels[n] == DoRelease(t)
    requires Running(r.states[n], t) && r.states[n].threads[t].pc in {Passed, Expired}
    ensures t in r.states[n + 1].threads
    ensures Ended(r.states[n + 1].threads[t]) <==> TimedOut(r, n, t)
    ensures r.states[n + 1].threads[t].Done? && !TimedOut(r, n, t) ==> r.states[n + 1].threads[t].status == Ok
  {
    RunTracks(r, n, t);
    assert StepAt(r, n);
  }
}
