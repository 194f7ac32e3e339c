/** A context before its creator has copied the address into it: nobody else knows
    it, it has address zero and handle NULL, and no event has been routed to it.
    That needs callbacks that never name the zero address. It is the start of what
    is known about two contexts with one address, and about each device's own. */
module NewContexts {
  import opened Types
  import opened Protocol
  import opened PointerStability
  import opened LockDiscipline
  import opened EventFold

  lemma ThreadCallKept(s: State, l: Label)
    requires Enabled(s, l) && !l.DoBegin?
    ensures ThreadAfter(s, l).call == s.threads[l.t].call
  {
  }

  /** Only `DoCopy` changes an address. */
  lemma AddressBefore(s: State, l: Label, i: nat)
    requires Enabled(s, l) && i < |ItemsAfter(s, l)| && (Adds(s, l) ==> i < |s.items|)
    requires !(l.DoCopy? && Written(s, l) == Some(i))
    ensures Before(s, l, i) < |s.items| && ItemsAfter(s, l)[i].address == s.items[Before(s, l, i)].address
  {
  }

  lemma HandleBefore(s: State, l: Label, i: nat)
    requires Enabled(s, l) && !Delivers(l) && i < |ItemsAfter(s, l)| && (Adds(s, l) ==> i < |s.items|)
    ensures Before(s, l, i) < |s.items| && ItemsAfter(s, l)[i].handle == s.items[Before(s, l, i)].handle
  {
  }

  predicate Copying(s: State, t: Tid) {
    Running(s, t) && s.threads[t].pc == CopyAddress
  }

  lemma CopyingIsNew(s: State, l: Label)
    requires Enabled(s, l) && ThreadAfter(s, l).Busy? && ThreadAfter(s, l).pc == CopyAddress
    ensures Adds(s, l)
  {
  }

  // ----- no device has address zero

  predicate NamesDevice(call: Call) {
    match call
    case Connect(a) => a != ZERO_ADDRESS
    case LinkChanged(_, _, _, a) => a != ZERO_ADDRESS
    case _ => true
  }

  /** No device has address zero. */
  predicate NamedRun(r: Run) {
    forall k :: 0 <= k < |r.labels| && r.labels[k].DoBegin? ==> NamesDevice(r.labels[k].call)
  }

  lemma NamedThen(q: Run, r: Run, l: Label)
    requires NamedRun(r) && q.labels == r.labels + [l] && (l.DoBegin? ==> NamesDevice(l.call))
    ensures NamedRun(q)
  {
  }

  ghost predicate CallsNamed(s: State) {
    forall t :: t in s.threads ==> NamesDevice(s.threads[t].call)
  }

  predicate LinkFor(th: Thread, id: nat) {
    th.Busy? && th.id == id && (th.call.LinkChanged? || th.pc == CopyAddress)
  }

  /** Until its address is copied a context is not connected, no link change is on its
      way to it, and nobody else copies an address into it. */
  ghost predicate Untouched(s: State, t: Tid) {
    Copying(s, t) ==>
      && (Live(s, s.threads[t].ptr) && s.threads[t].ptr.Slot? ==>
            var c := s.items[s.threads[t].ptr.index]; c.address == ZERO_ADDRESS && !c.connected)
      && (forall u :: u != t && u in s.threads ==> !LinkFor(s.threads[u], s.threads[t].id))
  }

  ghost predicate Unnamed(s: State) {
    CallsNamed(s) && forall t :: Untouched(s, t)
  }

  lemma StepCallsNamed(s: State, l: Label)
    requires CallsNamed(s) && Enabled(s, l) && (l.DoBegin? ==> NamesDevice(l.call))
    ensures CallsNamed(Apply(s, l))
  {
    if !l.DoBegin? {
      ThreadCallKept(s, l);
    }
  }

  lemma LinkForIsOld(s: State, u: Tid, id: nat)
    requires Sound(s) && u in s.threads && LinkFor(s.threads[u], id)
    ensures id < s.nextLock
  {
    assert FitsCall(s.threads[u].call, s.threads[u].pc);
    IdsAreOld(s, u);
  }

  lemma NewUntouched(s: State, l: Label)
    requires Sound(s) && Enabled(s, l) && Copying(Apply(s, l), l.t)
    ensures Untouched(Apply(s, l), l.t)
  {
    CopyingIsNew(s, l);
    forall u | u in s.threads && u != l.t ensures !LinkFor(s.threads[u], s.nextLock) {
      if LinkFor(s.threads[u], s.nextLock) {
        LinkForIsOld(s, u, s.nextLock);
      }
    }
  }

  lemma CopierDenotes(s: State, t: Tid)
    requires Sound(s) && Copying(s, t)
    ensures Holds(s, t) && Denotes(s, s.threads[t]) && 0 < s.threads[t].id < s.nextLock
  {
    assert FitsCall(s.threads[t].call, s.threads[t].pc) && FitsPointer(s.threads[t]);
    assert Holds(s, t);
  }

  /** A link change names a device, and the context of a thread that is copying has no name. */
  lemma StartedElsewhere(s: State, l: Label, t: Tid)
    requires Sound(s) && Unnamed(s) && Enabled(s, l) && l.DoStart? && t != l.t && Copying(s, t)
    ensures !LinkFor(ThreadAfter(s, l), s.threads[t].id)
  {
    CopierDenotes(s, t);
    assert Untouched(s, t) && NamesDevice(s.threads[l.t].call);
    var th := ThreadAfter(s, l);
    if s.threads[l.t].call.LinkChanged? && th.Busy? {
      RoutingIsFirstMatch(s, l);
      assert s.items[th.ptr.index].address != s.items[s.threads[t].ptr.index].address;
    }
  }

  lemma LinkForBefore(s: State, l: Label, id: nat)
    requires Enabled(s, l) && !l.DoStart? && !l.DoBegin? && LinkFor(ThreadAfter(s, l), id)
    ensures LinkFor(s.threads[l.t], id)
  {
  }

  /** Nobody starts to be about the context of a thread that is copying. */
  lemma OwnLinkElsewhere(s: State, l: Label, t: Tid)
    requires Sound(s) && Unnamed(s) && Enabled(s, l) && t != l.t && Copying(s, t)
    ensures !LinkFor(ThreadAfter(s, l), s.threads[t].id)
  {
    var id := s.threads[t].id;
    CopierDenotes(s, t);
    assert Untouched(s, t);
    if l.DoStart? {
      StartedElsewhere(s, l, t);
    } else if !l.DoBegin? {
      assert !LinkFor(s.threads[l.t], id);
      if LinkFor(ThreadAfter(s, l), id) { LinkForBefore(s, l, id); }
    }
  }

  lemma OldUntouched(s: State, l: Label, t: Tid)
    requires Sound(s) && Unnamed(s) && Enabled(s, l) && Sound(Apply(s, l)) && t != l.t && Copying(Apply(s, l), t)
    ensures Untouched(Apply(s, l), t)
  {
    var s' := Apply(s, l);
    OtherCopies(s, l, t);
    CopierDenotes(s, t);
    CopierDenotes(s', t);
    assert Untouched(s, t);
    OwnLinkElsewhere(s, l, t);
    UntouchedContext(s, l, t);
    forall u | u != t && u in s'.threads ensures !LinkFor(s'.threads[u], s.threads[t].id) {
      if u != l.t {
        OtherLink(s, l, u, s.threads[t].id);
      }
    }
  }

  lemma OtherCopies(s: State, l: Label, t: Tid)
    requires Enabled(s, l) && t != l.t && Copying(Apply(s, l), t)
    ensures Copying(s, t) && Apply(s, l).threads[t] == s.threads[t]
  {
  }

  lemma OtherLink(s: State, l: Label, u: Tid, id: nat)
    requires Enabled(s, l) && u != l.t && u in ThreadsAfter(s, l)
    ensures u in s.threads && (LinkFor(ThreadsAfter(s, l)[u], id) ==> LinkFor(s.threads[u], id))
  {
  }

  lemma ConnectedBefore(s: State, l: Label, i: nat)
    requires Enabled(s, l) && i < |ItemsAfter(s, l)| && (Adds(s, l) ==> i < |s.items|)
    requires !(WritesField(l) && Written(s, l) == Some(i) && s.threads[l.t].call.LinkChanged?)
    ensures Before(s, l, i) < |s.items|
    ensures ItemsAfter(s, l)[i].connected ==> s.items[Before(s, l, i)].connected
  {
    if Written(s, l) == Some(i) {
      RewrittenUnconnected(s, l);
    }
  }

  lemma RewrittenUnconnected(s: State, l: Label)
    requires Enabled(s, l) && Written(s, l).Some? && !(WritesField(l) && s.threads[l.t].call.LinkChanged?)
    ensures Rewritten(s, l).connected == s.items[Written(s, l).value].connected
  {
  }

  /** Nobody else copies an address into that context or changes its link. */
  lemma CopierAlone(s: State, l: Label, t: Tid)
    requires Sound(s) && Unnamed(s) && Enabled(s, l) && Copying(s, t) && t != l.t && Denotes(s, s.threads[t])
    ensures Written(s, l) == Some(s.threads[t].ptr.index) ==>
              !l.DoCopy? && !(WritesField(l) && s.threads[l.t].call.LinkChanged?)
  {
    assert Untouched(s, t);
    if Written(s, l) == Some(s.threads[t].ptr.index) {
      OwnLock(s, l.t);
      assert !LinkFor(s.threads[l.t], s.threads[t].id);
    }
  }

  lemma UntouchedContext(s: State, l: Label, t: Tid)
    requires Sound(s) && Unnamed(s) && Enabled(s, l) && Copying(s, t) && t != l.t
    requires Live(Apply(s, l), s.threads[t].ptr) && Denotes(s, s.threads[t]) && Denotes(Apply(s, l), s.threads[t])
    ensures var c := ItemsAfter(s, l)[s.threads[t].ptr.index]; c.address == ZERO_ADDRESS && !c.connected
  {
    var i := s.threads[t].ptr.index;
    assert Untouched(s, t);
    SameLockSameContext(s, l, i, i);
    assert Adds(s, l) ==> i < |s.items|;
    CopierAlone(s, l, t);
    AddressBefore(s, l, i);
    ConnectedBefore(s, l, i);
  }

  lemma StepUnnamed(s: State, l: Label)
    requires Sound(s) && Unnamed(s) && Enabled(s, l) && Guard(s, l) && (l.DoBegin? ==> NamesDevice(l.call))
    ensures Unnamed(Apply(s, l))
  {
    StepCallsNamed(s, l);
    StepSound(s, l);
    forall t ensures Untouched(Apply(s, l), t) {
      if Copying(Apply(s, l), t) {
        if t == l.t {
          NewUntouched(s, l);
        } else {
          OldUntouched(s, l, t);
        }
      }
    }
  }

  lemma RunUnnamed(r: Run, k: nat)
    requires IsRun(r) && Guarded(r) && NamedRun(r) && k < |r.states|
    ensures Unnamed(r.states[k])
  {
    if k > 0 {
      RunUnnamed(r, k - 1);
      RunSound(r, k - 1);
      assert StepAt(r, k - 1) && GuardAt(r, k - 1);
      StepUnnamed(r.states[k - 1], r.labels[k - 1]);
    }
  }
}
