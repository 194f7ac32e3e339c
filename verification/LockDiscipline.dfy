/** Who holds which mutex, why nobody deadlocks, and what a failed clone does. */
module LockDiscipline {
  import opened Types
  import opened DeviceContexts
  import opened Protocol
  import opened PointerStability

  // ----- which program points a call can be at

  predicate OnContext(call: Call) {
    !call.Register? && !call.Deregister? && !call.VarCallback?
  }

  predicate FitsCall(call: Call, pc: Pc) {
    match pc
    case Start => true
    case CopyAddress | ReadLock | ReadHandle | ReadUnlock(_) => call.Connect?
    case StoreLock | StoreServices | StoreCount | StoreUnlock => call.GetDatabase?
    case Request => Waits(call) || call.Deregister?
    case WaitLock | Test | Blocked(_) | Relock(_) | Passed | Expired => Waits(call)
    case RemoveEntry => call.Disconnect?
    case CheckOuts | WriteCount | WriteFlag => call.GotDatabase?
    case CbLock | Write | Notify | CbUnlock => Applies(call)
    case SecondField => call.LinkChanged? && !call.link.OtherLink?
    case ThirdField => call.LinkChanged? && call.link.Connected?
    case AppCallback => call.ServicesDiscovered? || call.GotDatabase?
  }

  predicate PointerDropped(pc: Pc) {
    pc == RemoveEntry || pc == AppCallback
  }

  /** A call about a context holds its pointer from the lookup to the last use. */
  predicate FitsPointer(th: Thread)
    requires th.Busy?
  {
    if th.pc == Start then th.ptr == Globals && th.id == 0
    else if PointerDropped(th.pc) then th.ptr == Globals
    else if OnContext(th.call) then th.ptr.Slot?
    else th.ptr == Globals && th.id == 0
  }

  ghost predicate Typed(s: State) {
    forall t :: Running(s, t) ==> FitsCall(s.threads[t].call, s.threads[t].pc) && FitsPointer(s.threads[t])
  }

  lemma StepTyped(s: State, l: Label)
    requires Typed(s) && Enabled(s, l)
    ensures Typed(Apply(s, l))
  {
    var s' := Apply(s, l);
    forall t | Running(s', t)
      ensures FitsCall(s'.threads[t].call, s'.threads[t].pc) && FitsPointer(s'.threads[t])
    {
      assert s'.threads == ThreadsAfter(s, l);
      if t == l.t {
        ThreadTyped(s, l);
      } else {
        assert Running(s, t);
      }
    }
  }

  predicate ThreadFits(th: Thread) {
    th.Busy? ==> FitsCall(th.call, th.pc) && FitsPointer(th)
  }

  lemma StartedFits(s: State, th: Thread)
    requires th.Busy? && th.pc == Start && ThreadFits(th) && !th.call.Connect?
    ensures ThreadFits(Started(s, th))
  {
  }

  lemma AcquiredFits(th: Thread, now: nat)
    requires th.Busy? && Locking(th.pc) && ThreadFits(th)
    ensures ThreadFits(AfterAcquire(th, now))
  {
  }

  lemma ReleasedFits(th: Thread)
    requires th.Busy? && Releasing(th.pc) && ThreadFits(th)
    ensures ThreadFits(AfterRelease(th))
  {
  }

  lemma ThreadTyped(s: State, l: Label)
    requires Typed(s) && Enabled(s, l)
    ensures ThreadFits(ThreadAfter(s, l))
  {
    if !l.DoBegin? {
      var th := s.threads[l.t];
      assert ThreadFits(th);
      if l.DoStart? {
        if !th.call.Connect? { StartedFits(s, th); }
      } else if l.DoAcquire? {
        AcquiredFits(th, |s.history|);
      } else if l.DoRelease? {
        ReleasedFits(th);
      } else if CallbackStep(l) {
        CallbackFits(s, l);
      } else {
        CallFits(s, l);
      }
    }
  }

  predicate CallbackStep(l: Label) {
    l.DoCheckOuts? || l.DoField? || l.DoWrite? || l.DoClone? || l.DoCount? || l.DoFlag? || l.DoSignal? || l.DoApp?
  }

  lemma CallbackFits(s: State, l: Label)
    requires CallbackStep(l) && Enabled(s, l) && ThreadFits(s.threads[l.t])
    ensures ThreadFits(ThreadAfter(s, l))
  {
  }

  lemma CallFits(s: State, l: Label)
    requires !l.DoBegin? && !l.DoStart? && !l.DoAcquire? && !l.DoRelease? && !CallbackStep(l)
    requires Enabled(s, l) && ThreadFits(s.threads[l.t])
    ensures ThreadFits(ThreadAfter(s, l))
  {
  }

  /** A thread that still uses its pointer reaches its own context's mutex through it. */
  lemma OwnLock(s: State, t: Tid)
    requires Typed(s) && AllDenote(s) && Running(s, t) && !PointerDropped(s.threads[t].pc)
    ensures Live(s, s.threads[t].ptr) && LockAt(s, s.threads[t].ptr) == s.threads[t].id
  {
    assert FitsPointer(s.threads[t]);
    if s.threads[t].ptr.Slot? {
      assert Holds(s, t);
    }
  }

  // ----- mutual exclusion

  ghost predicate InCritical(s: State, t: Tid, m: nat) {
    Running(s, t) && Critical(s.threads[t].pc) && s.threads[t].id == m
  }

  /** A mutex is held exactly by the thread inside its critical section, unless
      that thread left it locked. */
  ghost predicate Exclusive(s: State) {
    && (forall t, m :: InCritical(s, t, m) ==> m in s.owner && s.owner[m] == t && m !in s.leaked)
    && (forall m :: m in s.owner && m !in s.leaked ==> InCritical(s, s.owner[m], m))
    && s.leaked <= s.owner.Keys
    && (forall m :: m in s.owner ==> m < s.nextLock)
  }

  /** The pointed-to device of every thread that holds a pointer is older than `nextLock`. */
  lemma IdsAreOld(s: State, t: Tid)
    requires WellFormed(s) && AllDenote(s) && Typed(s) && Running(s, t) && !PointerDropped(s.threads[t].pc)
    ensures s.threads[t].id < s.nextLock
  {
    OwnLock(s, t);
  }

  predicate ChangesLocks(s: State, l: Label) {
    l.DoAcquire? || l.DoRelease? || l.DoTest? || l.DoClone? || RemovalIndex(s, l).Some?
  }

  predicate IsCritical(th: Thread) {
    th.Busy? && Critical(th.pc)
  }

  lemma StartNotCritical(s: State, th: Thread)
    requires th.Busy? && !th.call.Connect? && th.pc == Start
    ensures !IsCritical(Started(s, th))
  {
  }

  lemma OwnCriticalKept(s: State, l: Label)
    requires Enabled(s, l) && !ChangesLocks(s, l) && Running(s, l.t)
    ensures IsCritical(ThreadAfter(s, l)) <==> IsCritical(s.threads[l.t])
    ensures IsCritical(ThreadAfter(s, l)) ==> ThreadAfter(s, l).id == s.threads[l.t].id
  {
    if l.DoStart? && !s.threads[l.t].call.Connect? {
      StartNotCritical(s, s.threads[l.t]);
    }
  }

  lemma CriticalKept(s: State, l: Label, t: Tid, m: nat)
    requires Enabled(s, l) && !ChangesLocks(s, l)
    ensures InCritical(Apply(s, l), t, m) <==> InCritical(s, t, m)
  {
    if t != l.t {
      OthersCritical(s, l, t, m);
    } else if Running(s, l.t) {
      OwnCriticalKept(s, l);
    }
  }

  /** A thread other than the stepping one goes on with its call. */
  lemma OtherGoesOn(s: State, l: Label, t: Tid)
    requires Enabled(s, l) && t != l.t
    ensures t in ThreadsAfter(s, l) <==> t in s.threads
    ensures t in s.threads ==>
              var th, th' := s.threads[t], ThreadsAfter(s, l)[t];
              th' == th || (th.Busy? && th.pc.Blocked? && th' == Goto(th, Relock(false)))
  {
  }

  lemma OtherThreadKept(s: State, l: Label, t: Tid)
    requires Enabled(s, l) && t != l.t && t in s.threads
    requires s.threads[t].Busy? ==> !s.threads[t].pc.Blocked?
    ensures t in ThreadsAfter(s, l) && ThreadsAfter(s, l)[t] == s.threads[t]
  {
  }

  lemma OthersCritical(s: State, l: Label, t: Tid, m: nat)
    requires Enabled(s, l) && t != l.t
    ensures InCritical(Apply(s, l), t, m) <==> InCritical(s, t, m)
  {
  }

  lemma StepExclusive(s: State, l: Label)
    requires WellFormed(s) && AllDenote(s) && Typed(s) && Exclusive(s) && Enabled(s, l) && Guard(s, l)
    ensures Exclusive(Apply(s, l))
  {
    var s' := Apply(s, l);
    if !ChangesLocks(s, l) {
      forall t, m ensures InCritical(s', t, m) <==> InCritical(s, t, m) {
        CriticalKept(s, l, t, m);
      }
    } else {
      forall t, m | t != l.t ensures InCritical(s', t, m) <==> InCritical(s, t, m) {
        OthersCritical(s, l, t, m);
      }
      if l.DoRemove? {
        RemovalExclusive(s, l);
      } else {
        OwnLock(s, l.t);
        LockStepLocks(s, l);
        OneMutexChanges(s, Apply(s, l), l.t, s.threads[l.t].id);
      }
    }
  }

  /** What a step of `t` on the mutex of its own context leaves behind: the mutex is
      held by `t`, inside its critical section or left locked, or it is free. */
  ghost predicate OneMutexStep(s: State, s': State, t: Tid, id: nat) {
    && (forall m :: InCritical(s', t, m) ==> m == id)
    && (forall m :: m != id ==> !InCritical(s, t, m))
    && (forall m :: m != id ==> (m in s'.owner <==> m in s.owner) && (m in s.owner ==> s'.owner[m] == s.owner[m]))
    && (forall m :: m != id ==> (m in s'.leaked <==> m in s.leaked))
    && (InCritical(s', t, id) ==> id in s'.owner && s'.owner[id] == t && id !in s'.leaked)
    && (id in s'.owner && id !in s'.leaked ==> s'.owner[id] == t && InCritical(s', t, id))
    && (id in s'.leaked ==> id in s'.owner)
    && (InCritical(s, t, id) || id !in s.owner)
    && id < s.nextLock == s'.nextLock
  }

  lemma OneMutexChanges(s: State, s': State, t: Tid, id: nat)
    requires Exclusive(s) && OneMutexStep(s, s', t, id)
    requires forall u, m :: u != t ==> (InCritical(s', u, m) <==> InCritical(s, u, m))
    ensures Exclusive(s')
  {
    forall m | m in s'.owner && m !in s'.leaked && m != id ensures InCritical(s', s'.owner[m], m) {
      assert InCritical(s, s.owner[m], m);
    }
  }

  lemma LockStepLocks(s: State, l: Label)
    requires WellFormed(s) && Exclusive(s) && Enabled(s, l)
    requires l.DoAcquire? || l.DoRelease? || l.DoTest? || l.DoClone?
    requires LockAt(s, s.threads[l.t].ptr) == s.threads[l.t].id
    ensures OneMutexStep(s, Apply(s, l), l.t, s.threads[l.t].id)
  {
    var s' := Apply(s, l);
    var t, id := l.t, s.threads[l.t].id;
    OwnThreadCritical(s, l);
    assert s'.threads == ThreadsAfter(s, l) && s'.threads[t] == ThreadAfter(s, l);
    assert s'.owner == OwnerAfter(s, l) && s'.leaked == LeakedAfter(s, l);
    assert !l.DoAcquire? ==> InCritical(s, t, id);
  }

  /** Whether the stepping thread is inside its critical section before and after. */
  lemma OwnThreadCritical(s: State, l: Label)
    requires Enabled(s, l) && (l.DoAcquire? || l.DoRelease? || l.DoTest? || l.DoClone?)
    ensures IsCritical(s.threads[l.t]) <==> !l.DoAcquire?
    ensures IsCritical(ThreadAfter(s, l)) <==>
            (l.DoAcquire? || (l.DoTest? && Flag(s, s.threads[l.t])) || (l.DoClone? && l.ok))
    ensures IsCritical(ThreadAfter(s, l)) ==> ThreadAfter(s, l).id == s.threads[l.t].id
  {
  }

  /** Destroying a mutex that nobody uses. */
  lemma MutexDestroyed(s: State, s': State, id: nat)
    requires Exclusive(s) && (forall t :: !InCritical(s, t, id))
    requires forall t, m :: InCritical(s', t, m) <==> InCritical(s, t, m)
    requires s'.owner == s.owner - {id} && s'.leaked == s.leaked - {id} && s'.nextLock == s.nextLock
    ensures Exclusive(s')
  {
  }

  lemma RemovalExclusive(s: State, l: Label)
    requires WellFormed(s) && AllDenote(s) && Typed(s) && Exclusive(s) && Enabled(s, l) && Guard(s, l)
    requires RemovalIndex(s, l).Some?
    requires forall t, m :: t != l.t ==> (InCritical(Apply(s, l), t, m) <==> InCritical(s, t, m))
    ensures Exclusive(Apply(s, l))
  {
    var id := s.items[RemovalIndex(s, l).value].lock;
    forall t ensures !InCritical(s, t, id) {
      if InCritical(s, t, id) {
        OwnLock(s, t);
      }
    }
    MutexDestroyed(s, Apply(s, l), id);
  }

  // ----- the invariants every guarded run keeps

  ghost predicate Sound(s: State) {
    WellFormed(s) && AllDenote(s) && Typed(s) && Exclusive(s)
  }

  lemma StepSound(s: State, l: Label)
    requires Sound(s) && Enabled(s, l) && Guard(s, l)
    ensures Sound(Apply(s, l))
  {
    StepWellFormed(s, l);
    StepStableIffGuard(s, l);
    StepTyped(s, l);
    StepExclusive(s, l);
  }

  lemma RunSound(r: Run, k: nat)
    requires IsRun(r) && Guarded(r) && k < |r.states|
    ensures Sound(r.states[k])
  {
    if k > 0 {
      RunSound(r, k - 1);
      assert StepAt(r, k - 1) && GuardAt(r, k - 1);
      StepSound(r.states[k - 1], r.labels[k - 1]);
    }
  }

  // ----- out-pointers of a database callback

  predicate PastCheck(th: Thread) {
    th.Busy? && th.call.GotDatabase? && th.pc in {CbLock, Write, WriteCount, WriteFlag}
  }

  predicate OutsSet(c: DeviceContext) {
    c.dbOut.Some? && c.countOut.Some?
  }

  /** A database callback that went past its check finds both out-pointers. */
  ghost predicate OutsPresent(s: State) {
    forall t :: Holds(s, t) && PastCheck(s.threads[t]) && Live(s, s.threads[t].ptr) ==>
      OutsSet(s.items[s.threads[t].ptr.index])
  }

  /** Where the context at index `i` after a step was before it. */
  ghost function Before(s: State, l: Label, i: nat): nat
    requires Enabled(s, l)
  {
    if RemovalIndex(s, l).Some? && RemovalIndex(s, l).value <= i then i + 1 else i
  }

  lemma RewrittenOuts(s: State, l: Label)
    requires Enabled(s, l) && Written(s, l).Some? && OutsSet(s.items[Written(s, l).value])
    ensures OutsSet(Rewritten(s, l))
  {
  }

  lemma OutsKept(s: State, l: Label, i: nat)
    requires Enabled(s, l) && i < |ItemsAfter(s, l)|
    requires Before(s, l, i) < |s.items| && OutsSet(s.items[Before(s, l, i)])
    ensures OutsSet(ItemsAfter(s, l)[i])
  {
    if Written(s, l) == Some(i) {
      RewrittenOuts(s, l);
    }
  }

  lemma LockBefore(s: State, l: Label, i: nat)
    requires Enabled(s, l) && i < |ItemsAfter(s, l)| && (Adds(s, l) ==> i < |s.items|)
    ensures Before(s, l, i) < |s.items| && ItemsAfter(s, l)[i].lock == s.items[Before(s, l, i)].lock
  {
  }

  /** Two contexts with one mutex are one context. */
  lemma SameLockSameContext(s: State, l: Label, i: nat, b: nat)
    requires WellFormed(s) && Enabled(s, l) && i < |ItemsAfter(s, l)| && b < |s.items|
    requires ItemsAfter(s, l)[i].lock == s.items[b].lock
    ensures Before(s, l, i) == b
  {
    assert Adds(s, l) ==> i < |s.items|;
    LockBefore(s, l, i);
  }

  lemma NewPastCheck(s: State, l: Label)
    requires Typed(s) && OutsPresent(s) && Enabled(s, l) && PastCheck(ThreadAfter(s, l))
    ensures Running(s, l.t) && ThreadAfter(s, l).id == s.threads[l.t].id && ThreadAfter(s, l).ptr == s.threads[l.t].ptr
    ensures Holds(s, l.t) && Live(s, s.threads[l.t].ptr) ==> OutsSet(s.items[s.threads[l.t].ptr.index])
  {
    assert FitsCall(s.threads[l.t].call, s.threads[l.t].pc);
    assert PastCheck(s.threads[l.t]) || l.DoCheckOuts?;
  }

  lemma PointerOutsSet(s: State, l: Label, t: Tid)
    requires Typed(s) && OutsPresent(s) && Enabled(s, l) && t in ThreadsAfter(s, l)
    requires PastCheck(ThreadsAfter(s, l)[t]) && ThreadsAfter(s, l)[t].ptr.Slot?
    ensures Holds(s, t) && s.threads[t].id == ThreadsAfter(s, l)[t].id
    ensures Live(s, s.threads[t].ptr) ==> OutsSet(s.items[s.threads[t].ptr.index])
  {
    if t == l.t {
      NewPastCheck(s, l);
    }
  }

  lemma StepOuts(s: State, l: Label)
    requires Sound(s) && OutsPresent(s) && Enabled(s, l) && Guard(s, l)
    ensures OutsPresent(Apply(s, l))
  {
    var s' := Apply(s, l);
    StepSound(s, l);
    forall t | Holds(s', t) && PastCheck(s'.threads[t]) ensures OutsSet(s'.items[s'.threads[t].ptr.index]) {
      assert Denotes(s', s'.threads[t]);
      PointerOutsSet(s, l, t);
      assert Denotes(s, s.threads[t]);
      SameLockSameContext(s, l, s'.threads[t].ptr.index, s.threads[t].ptr.index);
      OutsKept(s, l, s'.threads[t].ptr.index);
    }
  }

  lemma RunOuts(r: Run, k: nat)
    requires IsRun(r) && Guarded(r) && k < |r.states|
    ensures OutsPresent(r.states[k])
  {
    if k > 0 {
      RunOuts(r, k - 1);
      RunSound(r, k - 1);
      assert StepAt(r, k - 1) && GuardAt(r, k - 1);
      StepOuts(r.states[k - 1], r.labels[k - 1]);
    }
  }

  // ----- main results

  ghost predicate ClonesSucceed(r: Run) {
    forall k :: 0 <= k < |r.labels| ==> !(r.labels[k].DoClone? && !r.labels[k].ok)
  }

  lemma NothingLeaks(r: Run, k: nat)
    requires IsRun(r) && ClonesSucceed(r) && k < |r.states|
    ensures r.states[k].leaked == {}
  {
    if k > 0 {
      NothingLeaks(r, k - 1);
      assert StepAt(r, k - 1);
    }
  }

  /** If every clone succeeds then in every reachable state a thread holds at most
      one mutex, it is the one of the critical section it is in, and a thread
      outside a critical section, such as one that runs the application's
      callback or has finished its call, holds none. */
  lemma AtMostOneMutex(r: Run, k: nat, t: Tid, m: nat)
    requires IsRun(r) && Guarded(r) && ClonesSucceed(r) && k < |r.states|
    ensures var s := r.states[k];
            (m in s.owner && s.owner[m] == t) <==> InCritical(s, t, m)
  {
    RunSound(r, k);
    NothingLeaks(r, k);
  }

  ghost predicate CanStep(s: State, t: Tid) {
    exists l :: Enabled(s, l) && l.t == t
  }

  lemma CriticalCanStep(s: State, t: Tid)
    requires Sound(s) && OutsPresent(s) && Running(s, t) && Critical(s.threads[t].pc)
    ensures CanStep(s, t)
  {
    var th := s.threads[t];
    OwnLock(s, t);
    assert FitsCall(th.call, th.pc) && FitsPointer(th);
    var l := NextInCritical(s, t);
    if th.pc in {Write, SecondField, ThirdField, WriteCount, WriteFlag} {
      WriterCanStep(s, t);
    } else {
      OtherCanStep(s, t);
    }
    assert Enabled(s, l) && l.t == t;
  }

  /** A step that a thread inside its critical section can make. */
  ghost function NextInCritical(s: State, t: Tid): (l: Label)
    requires Running(s, t)
    ensures l.t == t
  {
    var th := s.threads[t];
    match th.pc
    case StoreServices | StoreCount => DoStore(t)
    case Test => DoTest(t)
    case ReadHandle => DoRead(t)
    case Write =>
      if th.call.GotDatabase? then DoClone(t, true, [])
      else if MoreFields(th.call, Write) then DoField(t)
      else DoWrite(t)
    case SecondField => if MoreFields(th.call, SecondField) then DoField(t) else DoWrite(t)
    case ThirdField => DoWrite(t)
    case WriteCount => DoCount(t)
    case WriteFlag => DoFlag(t)
    case Notify => DoSignal(t, set w | w in s.threads && BlockedOn(s, w, th.id))
    case _ => DoRelease(t)
  }

  lemma WriterCanStep(s: State, t: Tid)
    requires OutsPresent(s) && Running(s, t) && Live(s, s.threads[t].ptr)
    requires FitsCall(s.threads[t].call, s.threads[t].pc) && FitsPointer(s.threads[t])
    requires s.threads[t].pc in {Write, SecondField, ThirdField, WriteCount, WriteFlag}
    ensures Enabled(s, NextInCritical(s, t))
  {
    var th := s.threads[t];
    assert th.call.GotDatabase? ==> PastCheck(th) && Holds(s, t);
  }

  lemma OtherCanStep(s: State, t: Tid)
    requires Running(s, t) && Live(s, s.threads[t].ptr) && LockAt(s, s.threads[t].ptr) == s.threads[t].id
    requires FitsCall(s.threads[t].call, s.threads[t].pc) && FitsPointer(s.threads[t])
    requires Critical(s.threads[t].pc) && s.threads[t].pc !in {Write, SecondField, ThirdField, WriteCount, WriteFlag}
    ensures Enabled(s, NextInCritical(s, t))
  {
    var th := s.threads[t];
    if th.pc == Notify {
      var woken := set w | w in s.threads && BlockedOn(s, w, th.id);
      assert forall w :: BlockedOn(s, w, th.id) ==> w in woken;
    }
  }

  /** No mutex deadlock: a thread that wants a mutex can take it at once, or the
      holder is inside its critical section and has a step to make. */
  lemma NoDeadlock(r: Run, k: nat, t: Tid)
    requires IsRun(r) && Guarded(r) && ClonesSucceed(r) && k < |r.states|
    requires Running(r.states[k], t) && Locking(r.states[k].threads[t].pc)
    ensures var s := r.states[k];
            var m := s.threads[t].id;
            || Enabled(s, DoAcquire(t))
            || (m in s.owner && s.owner[m] != t && InCritical(s, s.owner[m], m) && CanStep(s, s.owner[m]))
  {
    var s := r.states[k];
    RunSound(r, k);
    RunOuts(r, k);
    NothingLeaks(r, k);
    OwnLock(s, t);
    var m := s.threads[t].id;
    if m in s.owner {
      CriticalCanStep(s, s.owner[m]);
    }
  }

  lemma FailedCloneKeepsMutex(s: State, l: Label)
    requires Sound(s) && Enabled(s, l) && l.DoClone?
    ensures var m := s.threads[l.t].id; m in OwnerAfter(s, l) && OwnerAfter(s, l)[m] == l.t && m !in s.leaked
  {
    assert InCritical(s, l.t, s.threads[l.t].id);
  }

  /** A callback reaches the application's callback holding a mutex it took in
      this call exactly when its clone failed. */
  lemma AppCallbackHoldsIffCloneFailed(s: State, l: Label)
    requires Sound(s) && Enabled(s, l) && Guard(s, l)
    requires Running(Apply(s, l), l.t) && Apply(s, l).threads[l.t].pc == AppCallback
    ensures (exists m :: m in Apply(s, l).owner && Apply(s, l).owner[m] == l.t && m !in s.leaked)
            <==> (l.DoClone? && !l.ok)
  {
    var s' := Apply(s, l);
    StepSound(s, l);
    if l.DoClone? {
      FailedCloneKeepsMutex(s, l);
    }
    forall m | m in s'.owner && s'.owner[m] == l.t && m !in s.leaked ensures l.DoClone? && !l.ok {
      assert !InCritical(s', l.t, m);
      assert m in LeakedAfter(s, l);
    }
  }

  ghost predicate HasLock(s: State, m: nat) {
    exists i :: 0 <= i < |s.items| && s.items[i].lock == m
  }

  lemma StillLeaked(s: State, l: Label, m: nat)
    requires WellFormed(s) && Enabled(s, l) && m in s.leaked
    requires exists i :: 0 <= i < |ItemsAfter(s, l)| && ItemsAfter(s, l)[i].lock == m
    ensures m in LeakedAfter(s, l)
  {
    if RemovalIndex(s, l).Some? {
      var i :| 0 <= i < |ItemsAfter(s, l)| && ItemsAfter(s, l)[i].lock == m;
      LockBefore(s, l, i);
    }
  }

  lemma LeakedStays(r: Run, j: nat, k: nat, m: nat)
    requires IsRun(r) && Guarded(r) && j <= k < |r.states|
    requires m in r.states[j].leaked
    requires forall i :: j <= i <= k ==> HasLock(r.states[i], m)
    ensures m in r.states[k].leaked
  {
    if j < k {
      LeakedStays(r, j, k - 1, m);
      RunSound(r, k - 1);
      assert StepAt(r, k - 1);
      StillLeaked(r.states[k - 1], r.labels[k - 1], m);
    }
  }

  /** After a failed clone the context is wedged: its mutex stays held until the
      context is removed, so no thread ever enters a critical section on it
      again, not even to report a timeout. */
  lemma FailedCloneWedges(r: Run, j: nat, k: nat, m: nat)
    requires IsRun(r) && Guarded(r) && j <= k < |r.states|
    requires m in r.states[j].leaked
    requires forall i :: j <= i <= k ==> HasLock(r.states[i], m)
    ensures m in r.states[k].leaked && m in r.states[k].owner
    ensures forall t :: !InCritical(r.states[k], t, m)
  {
    RunSound(r, k);
    LeakedStays(r, j, k, m);
  }
}
