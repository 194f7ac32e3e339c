/** If besides each device keeps one handle for good, the context that a
    `bleDisconnect` found keeps the handle it was found by. */
module DisconnectTarget {
  import opened Types
  import opened Protocol
  import opened PointerStability
  import opened LockDiscipline
  import opened ApiResults
  import opened NewContexts
  import opened NonInterference

  /** A `bleDisconnect` that has found its context. */
  predicate Disconnecting(th: Thread) {
    th.Busy? && th.call.Disconnect? && th.pc != Start && th.call.handle != NULL_HANDLE
  }

  /** The context it found, while it is there, has the handle it was looked up by. */
  ghost predicate KeepsTarget(s: State, th: Thread)
    requires Disconnecting(th)
  {
    th.id < s.nextLock && forall i :: 0 <= i < |s.items| && s.items[i].lock == th.id ==>
      s.items[i].handle == th.call.handle
  }

  ghost predicate TargetsKept(s: State) {
    forall t :: t in s.threads && Disconnecting(s.threads[t]) ==> KeepsTarget(s, s.threads[t])
  }

  /** No device is ever given a second handle. */
  ghost predicate OneHandle(deviceOf: DeviceOf) {
    forall h, k :: h != NULL_HANDLE && k != NULL_HANDLE && deviceOf(h) == deviceOf(k) ==> h == k
  }

  /** Once connected a context never changes its handle, whatever connection events follow. */
  lemma HandleKept(deviceOf: DeviceOf, s: State, l: Label, i: nat)
    requires OneHandle(deviceOf) && StepKeyed(deviceOf, s, l) && i < |ItemsAfter(s, l)| &&
             (Adds(s, l) ==> i < |s.items|)
    ensures Before(s, l, i) < |s.items|
    ensures s.items[Before(s, l, i)].handle != NULL_HANDLE ==>
            ItemsAfter(s, l)[i].handle == s.items[Before(s, l, i)].handle
  {
    if Delivers(l) {
      if s.items[i].handle != NULL_HANDLE { DeliveryKeepsHandle(deviceOf, s, l, i); }
    } else {
      HandleBefore(s, l, i);
    }
  }

  lemma DeliveryKeepsHandle(deviceOf: DeviceOf, s: State, l: Label, i: nat)
    requires OneHandle(deviceOf) && StepKeyed(deviceOf, s, l) && Delivers(l) && i < |s.items| &&
             s.items[i].handle != NULL_HANDLE
    ensures ItemsAfter(s, l)[i].handle == s.items[i].handle
  {
    DeliveredTo(deviceOf, s, l);
    assert HandleFits(deviceOf, s.items[i]);
  }

  lemma TargetStays(deviceOf: DeviceOf, s: State, l: Label, th: Thread)
    requires OneHandle(deviceOf) && StepKeyed(deviceOf, s, l) && Disconnecting(th) && KeepsTarget(s, th)
    ensures KeepsTarget(Apply(s, l), th)
  {
    forall i | 0 <= i < |ItemsAfter(s, l)| && ItemsAfter(s, l)[i].lock == th.id
      ensures ItemsAfter(s, l)[i].handle == th.call.handle
    {
      assert Adds(s, l) ==> i < |s.items|;
      LockBefore(s, l, i);
      HandleKept(deviceOf, s, l, i);
    }
  }

  /** The stepping thread either goes on with its context or has just looked it up. */
  lemma OwnTarget(s: State, l: Label)
    requires Sound(s) && TargetsKept(s) && Enabled(s, l) && Disconnecting(ThreadAfter(s, l))
    ensures KeepsTarget(s, ThreadAfter(s, l))
  {
    if l.DoStart? {
      var i := ThreadAfter(s, l).ptr.index;
      assert s.items[i].handle == ThreadAfter(s, l).call.handle && ThreadAfter(s, l).id == s.items[i].lock;
    } else {
      IdentityKept(s, l);
      assert Disconnecting(s.threads[l.t]);
    }
  }

  lemma StepTargets(deviceOf: DeviceOf, s: State, l: Label)
    requires OneHandle(deviceOf) && StepKeyed(deviceOf, s, l) && TargetsKept(s)
    ensures TargetsKept(Apply(s, l))
  {
    var threads' := ThreadsAfter(s, l);
    forall t | t in threads' && Disconnecting(threads'[t]) ensures KeepsTarget(Apply(s, l), threads'[t]) {
      if t == l.t {
        OwnTarget(s, l);
      } else {
        assert Disconnecting(s.threads[t]) && KeepsTarget(s, s.threads[t]);
      }
      TargetStays(deviceOf, s, l, threads'[t]);
    }
  }

  lemma RunTargets(deviceOf: DeviceOf, r: Run, k: nat)
    requires IsRun(r) && Guarded(r) && KeyedRun(deviceOf, r) && OneHandle(deviceOf) && k < |r.states|
    ensures TargetsKept(r.states[k])
  {
    if k > 0 {
      RunTargets(deviceOf, r, k - 1);
      RunSeparate(deviceOf, r, k - 1);
      NextKeyed(deviceOf, r, k - 1);
      assert StepAt(r, k - 1);
      StepTargets(deviceOf, r.states[k - 1], r.labels[k - 1]);
    }
  }
}
