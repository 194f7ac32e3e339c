/** No wakeup is lost while each condition variable has at most one waiter. */
module Wakeups {
  import opened Protocol
  import opened PointerStability
  import opened LockDiscipline

  ghost predicate OneWaiterOn(s: State, m: nat) {
    forall u, w :: BlockedOn(s, u, m) && BlockedOn(s, w, m) ==> u == w
  }

  ghost predicate OneWaiter(s: State) {
    forall m :: OneWaiterOn(s, m)
  }

  /** The callback has written something, and is going to signal before it unlocks. */
  predicate WillSignal(pc: Pc) {
    pc == SecondField || pc == ThirdField || pc == Notify
  }

  /** The holder of `m` changed a flag and is about to signal. */
  ghost predicate SignalPending(s: State, m: nat) {
    m in s.owner && InCritical(s, s.owner[m], m) && WillSignal(s.threads[s.owner[m]].pc)
  }

  /** A callback writes to what is behind its pointer. */
  predicate Raises(l: Label) {
    l.DoField? || Delivers(l)
  }

  predicate IsBlocked(s: State, t: Tid) {
    Running(s, t) && s.threads[t].pc.Blocked?
  }

  ghost predicate Waking(s: State, t: Tid) {
    IsBlocked(s, t) ==>
      && BlockedOn(s, t, s.threads[t].id)
      && (Live(s, s.threads[t].ptr) && Flag(s, s.threads[t]) ==> SignalPending(s, s.threads[t].id))
  }

  ghost predicate AllWaking(s: State) {
    forall t :: Waking(s, t)
  }

  /** Only a write to the waiter's own context raises its flag. */
  lemma FlagRaised(s: State, l: Label, t: Tid)
    requires Sound(s) && Enabled(s, l) && Guard(s, l) && Running(s, t) && t != l.t
    requires !PointerDropped(s.threads[t].pc)
    requires Live(Apply(s, l), s.threads[t].ptr)
    ensures Live(s, s.threads[t].ptr)
    ensures Flag(Apply(s, l), s.threads[t]) && !Flag(s, s.threads[t]) ==>
              Raises(l) && s.threads[l.t].id == s.threads[t].id
  {
    OwnLock(s, t);
    if Raises(l) {
      assert FitsCall(s.threads[l.t].call, s.threads[l.t].pc);
      OwnLock(s, l.t);
    } else {
      FlagNotRaised(s, l, t);
    }
  }

  lemma FlagNotRaised(s: State, l: Label, t: Tid)
    requires Sound(s) && Enabled(s, l) && Guard(s, l) && Running(s, t) && t != l.t && !Raises(l)
    requires Live(s, s.threads[t].ptr) && Live(Apply(s, l), s.threads[t].ptr)
    ensures Flag(Apply(s, l), s.threads[t]) ==> Flag(s, s.threads[t])
  {
    if s.threads[t].ptr.Slot? { assert Holds(s, t); }
  }

  lemma DeliveryPends(s: State, l: Label)
    requires Sound(s) && Enabled(s, l) && Guard(s, l) && Raises(l)
    ensures SignalPending(Apply(s, l), s.threads[l.t].id)
  {
    assert InCritical(s, l.t, s.threads[l.t].id);
  }

  lemma NotifierOnlySignals(s: State, l: Label)
    requires Enabled(s, l) && Running(s, l.t) && WillSignal(s.threads[l.t].pc)
    ensures l.DoSignal? || (Raises(l) && WillSignal(ThreadAfter(s, l).pc) && ThreadAfter(s, l).id == s.threads[l.t].id)
  {
  }

  /** A step of one thread does not take a mutex away from another. */
  lemma OwnerKept(s: State, l: Label, m: nat)
    requires Sound(s) && Enabled(s, l) && m in s.owner && m !in s.leaked && s.owner[m] != l.t
    requires RemovalIndex(s, l).Some? ==> s.items[RemovalIndex(s, l).value].lock != m
    ensures m in OwnerAfter(s, l) && OwnerAfter(s, l)[m] == s.owner[m]
  {
    if l.DoRelease? || l.DoTest? {
      OwnLock(s, l.t);
      assert InCritical(s, l.t, s.threads[l.t].id);
    }
  }

  /** A pending signal stays pending until it is sent. */
  lemma SignalStaysPending(s: State, l: Label, m: nat)
    requires Sound(s) && Enabled(s, l) && Guard(s, l) && SignalPending(s, m)
    requires !(l.DoSignal? && l.t == s.owner[m])
    requires RemovalIndex(s, l).Some? ==> s.items[RemovalIndex(s, l).value].lock != m
    ensures SignalPending(Apply(s, l), m)
  {
    if l.t == s.owner[m] {
      NotifierOnlySignals(s, l);
      assert Apply(s, l).owner == s.owner && Apply(s, l).threads[l.t] == ThreadAfter(s, l);
    } else {
      OwnerKept(s, l, m);
      OtherThreadKept(s, l, s.owner[m]);
      assert Apply(s, l).owner == OwnerAfter(s, l) && Apply(s, l).threads == ThreadsAfter(s, l);
    }
  }

  lemma SignalUnblocks(s: State, l: Label, t: Tid, m: nat)
    requires Enabled(s, l) && l.DoSignal? && LockAt(s, s.threads[l.t].ptr) == m
    requires OneWaiterOn(s, m) && BlockedOn(s, t, m)
    ensures !IsBlocked(Apply(s, l), t)
  {
    var w :| w in l.woken;
    assert BlockedOn(s, w, m);
  }

  lemma StepWaking(s: State, l: Label, t: Tid)
    requires Sound(s) && AllWaking(s) && OneWaiter(s) && Enabled(s, l) && Guard(s, l)
    ensures Waking(Apply(s, l), t)
  {
    var s' := Apply(s, l);
    if IsBlocked(s', t) {
      if t == l.t {
        OwnBlocks(s, l);
      } else {
        OtherGoesOn(s, l, t);
        assert s'.threads[t] == s.threads[t] && IsBlocked(s, t) && Waking(s, t);
        if Live(s', s.threads[t].ptr) && Flag(s', s.threads[t]) {
          BlockedKeepsWaking(s, l, t);
        }
      }
    }
  }

  /** A thread blocks only on its own context's condition variable, with its flag false. */
  lemma OwnBlocks(s: State, l: Label)
    requires Sound(s) && Enabled(s, l) && IsBlocked(Apply(s, l), l.t)
    ensures Waking(Apply(s, l), l.t)
  {
    BlocksByTest(s, l);
    OwnLock(s, l.t);
    assert Apply(s, l).items == s.items && Apply(s, l).vars == s.vars && Apply(s, l).generation == s.generation;
  }

  lemma BlocksByTest(s: State, l: Label)
    requires Enabled(s, l) && ThreadAfter(s, l).Busy? && ThreadAfter(s, l).pc.Blocked?
    ensures l.DoTest? && !Flag(s, s.threads[l.t])
  {
  }

  /** A removal does not take the context of a waiter. */
  lemma WaitersStayThere(s: State, l: Label, t: Tid)
    requires Sound(s) && Enabled(s, l) && Guard(s, l) && t != l.t && IsBlocked(s, t)
    ensures RemovalIndex(s, l).Some? ==> s.items[RemovalIndex(s, l).value].lock != s.threads[t].id
  {
    OwnLock(s, t);
    assert FitsPointer(s.threads[t]);
    if s.threads[t].ptr.Slot? {
      assert Holds(s, t);
    }
  }

  lemma BlockedKeepsWaking(s: State, l: Label, t: Tid)
    requires Sound(s) && Waking(s, t) && OneWaiter(s) && Enabled(s, l) && Guard(s, l)
    requires t != l.t && IsBlocked(s, t) && IsBlocked(Apply(s, l), t) && Apply(s, l).threads[t] == s.threads[t]
    requires Live(Apply(s, l), s.threads[t].ptr) && Flag(Apply(s, l), s.threads[t])
    ensures SignalPending(Apply(s, l), s.threads[t].id)
  {
    var m := s.threads[t].id;
    FlagRaised(s, l, t);
    if !Flag(s, s.threads[t]) {
      DeliveryPends(s, l);
    } else {
      assert FitsPointer(s.threads[t]);
      assert OneWaiterOn(s, m) && BlockedOn(s, t, m);
      if l.DoSignal? && l.t == s.owner[m] {
        OwnLock(s, l.t);
        SignalUnblocks(s, l, t, m);
      } else {
        WaitersStayThere(s, l, t);
        SignalStaysPending(s, l, m);
      }
    }
  }

  lemma RunWaking(r: Run, k: nat)
    requires IsRun(r) && Guarded(r) && k < |r.states|
    requires forall i :: 0 <= i < k ==> OneWaiter(r.states[i])
    ensures AllWaking(r.states[k])
  {
    if k > 0 {
      RunWaking(r, k - 1);
      RunSound(r, k - 1);
      assert StepAt(r, k - 1) && GuardAt(r, k - 1);
      forall t ensures Waking(r.states[k], t) {
        StepWaking(r.states[k - 1], r.labels[k - 1], t);
      }
    }
  }

  /** No reachable state has a blocked, un-notified waiter whose flag is true
      unless the holder of its mutex is about to signal; in particular there is
      none with the mutex free. Spurious wakeups, timeouts and flags that drop
      again are all among the steps. */
  lemma NoLostWakeup(r: Run, k: nat, t: Tid)
    requires IsRun(r) && Guarded(r) && k < |r.states|
    requires forall i :: 0 <= i < |r.states| ==> OneWaiter(r.states[i])
    requires IsBlocked(r.states[k], t) && Live(r.states[k], r.states[k].threads[t].ptr)
    requires Flag(r.states[k], r.states[k].threads[t])
    ensures var m := LockAt(r.states[k], r.states[k].threads[t].ptr);
            BlockedOn(r.states[k], t, m) && SignalPending(r.states[k], m) && m in r.states[k].owner
  {
    RunWaking(r, k);
    RunSound(r, k);
    assert Waking(r.states[k], t);
    OwnLock(r.states[k], t);
  }

  // ----- with two waiters a wakeup can be lost

  predicate WaitsInVain(s: State, w: Tid, m: nat) {
    BlockedOn(s, w, m) && Live(s, s.threads[w].ptr) && Flag(s, s.threads[w])
  }

  /** The waiter sleeps on, un-notified, although its flag is true and the mutex free. */
  predicate Lost(s: State, w: Tid, m: nat) {
    WaitsInVain(s, w, m) && m !in s.owner
  }

  /** Thread `t` signals as `pthread_cond_signal` may, unlocks, and `w` is lost. */
  ghost predicate LosesWakeup(s: State, t: Tid, woken: set<Tid>, w: Tid)
    requires At(s, t, Notify)
  {
    && Enabled(s, DoSignal(t, woken))
    && Enabled(Apply(s, DoSignal(t, woken)), DoRelease(t))
    && Lost(Apply(Apply(s, DoSignal(t, woken)), DoRelease(t)), w, LockAt(s, s.threads[t].ptr))
  }

  ghost predicate Signalled(s: State, s1: State, t: Tid, woken: set<Tid>) {
    && s1.items == s.items && s1.vars == s.vars && s1.generation == s.generation
    && t in s.threads && s.threads[t].Busy? && t in s1.threads && s1.threads[t] == Goto(s.threads[t], CbUnlock)
    && forall w :: w != t ==>
         && (w in s1.threads <==> w in s.threads)
         && (w in s.threads && w !in woken ==> s1.threads[w] == s.threads[w])
         && (w in s.threads && w in woken ==> s.threads[w].Busy? && s1.threads[w] == Goto(s.threads[w], Relock(false)))
  }

  ghost predicate Unlocked(s: State, s1: State, t: Tid) {
    && s1.items == s.items && s1.vars == s.vars && s1.generation == s.generation
    && t in s1.threads && (s1.threads[t].Busy? ==> !s1.threads[t].pc.Blocked?)
    && forall w :: w != t ==>
         (w in s1.threads <==> w in s.threads) && (w in s.threads ==> s1.threads[w] == s.threads[w])
  }

  lemma SignalOnlyWakes(s: State, t: Tid, woken: set<Tid>)
    requires At(s, t, Notify) && Enabled(s, DoSignal(t, woken))
    ensures Signalled(s, Apply(s, DoSignal(t, woken)), t, woken)
  {
    assert forall w :: w in woken ==> BlockedOn(s, w, LockAt(s, s.threads[t].ptr));
  }

  lemma UnlockOnlyFrees(s: State, t: Tid)
    requires At(s, t, CbUnlock)
    ensures Enabled(s, DoRelease(t))
    ensures Unlocked(s, Apply(s, DoRelease(t)), t)
    ensures LockAt(s, s.threads[t].ptr) !in Apply(s, DoRelease(t)).owner
  {
  }

  lemma LostIffPassedOver(s: State, s1: State, s2: State, t: Tid, woken: set<Tid>, w: Tid, m: nat)
    requires At(s, t, Notify) && Signalled(s, s1, t, woken) && Unlocked(s1, s2, t) && m !in s2.owner
    ensures Lost(s2, w, m) <==> WaitsInVain(s, w, m) && w !in woken
  {
  }

  lemma LosesIffPassedOver(s: State, t: Tid, woken: set<Tid>, w: Tid)
    requires At(s, t, Notify)
    ensures LosesWakeup(s, t, woken, w) <==>
            var m := LockAt(s, s.threads[t].ptr); CanSignal(s, m, woken) && WaitsInVain(s, w, m) && w !in woken
  {
    if Enabled(s, DoSignal(t, woken)) {
      var s1 := Apply(s, DoSignal(t, woken));
      SignalOnlyWakes(s, t, woken);
      UnlockOnlyFrees(s1, t);
      LostIffPassedOver(s, s1, Apply(s1, DoRelease(t)), t, woken, w, LockAt(s, s.threads[t].ptr));
    }
  }

  /** Exactly when the one-waiter hypothesis is needed: a callback that is about to
      signal can leave a waiter asleep with its flag true and the mutex free if and
      only if some waiter's flag is true and there is more than one waiter. */
  lemma WakeupLostIffTwoWaiters(s: State, t: Tid)
    requires At(s, t, Notify)
    ensures var m := LockAt(s, s.threads[t].ptr);
            (exists woken, w :: LosesWakeup(s, t, woken, w)) <==>
            (exists w :: WaitsInVain(s, w, m)) && !OneWaiterOn(s, m)
  {
    var m := LockAt(s, s.threads[t].ptr);
    if woken, w :| LosesWakeup(s, t, woken, w) {
      LosesIffPassedOver(s, t, woken, w);
      assert woken != {};
      var u :| u in woken;
      assert BlockedOn(s, u, m) && u != w;
    }
    if (exists w :: WaitsInVain(s, w, m)) && !OneWaiterOn(s, m) {
      var w :| WaitsInVain(s, w, m);
      var u :| BlockedOn(s, u, m) && u != w;
      LosesIffPassedOver(s, t, {u}, w);
    }
  }
}
