/** A context left by a failed `bleConnect` and the next attempt on its address: when that can succeed. */
module Shadowing {
  import opened Types
  import opened DeviceContexts
  import opened Protocol
  import opened PointerStability
  import opened LockDiscipline
  import opened EventFold
  import opened ApiResults
  import opened NewContexts
  import opened RunSteps

  /** Context `later` stands behind context `first` with the same address, is not
      connected, and no connection callback is on its way to it. */
  ghost predicate Shadowed(s: State, first: nat, later: nat) {
    && (exists i, j :: 0 <= i < j < |s.items| && Behind(s.items[i], s.items[j], first, later))
    && (forall t :: Running(s, t) && (s.threads[t].id == first || s.threads[t].id == later) ==>
          s.threads[t].pc != CopyAddress && (s.threads[t].id == later ==> !s.threads[t].call.LinkChanged?))
  }

  predicate Behind(c: DeviceContext, d: DeviceContext, first: nat, later: nat) {
    c.lock == first && d.lock == later && c.address == d.address && !d.connected
  }

  ghost predicate BothThere(s: State, first: nat, later: nat) {
    HasLock(s, first) && HasLock(s, later)
  }

  lemma BehindAfterRemoval(s: State, l: Label, i: nat, j: nat, first: nat, later: nat)
    requires WellFormed(s) && Enabled(s, l) && RemovalIndex(s, l).Some? && BothThere(Apply(s, l), first, later)
    requires i < j < |s.items| && Behind(s.items[i], s.items[j], first, later)
    ensures exists x, y ::
              0 <= x < y < |ItemsAfter(s, l)| && Behind(ItemsAfter(s, l)[x], ItemsAfter(s, l)[y], first, later)
  {
    RemovedIsGone(s, l);
    var r := RemovalIndex(s, l).value;
    var x := if r < i then i - 1 else i;
    var y := if r < j then j - 1 else j;
    assert Behind(ItemsAfter(s, l)[x], ItemsAfter(s, l)[y], first, later);
  }

  /** A write to one of the two contexts keeps the relation. */
  lemma BehindAfterWrite(s: State, l: Label, first: nat, later: nat)
    requires Sound(s) && Enabled(s, l) && Shadowed(s, first, later) && Written(s, l).Some?
    ensures var c, d := s.items[Written(s, l).value], Rewritten(s, l);
            && d.lock == c.lock
            && (c.lock == first || c.lock == later ==> d.address == c.address)
            && (c.lock == later ==> d.connected == c.connected)
  {
    OwnLock(s, l.t);
    assert FitsCall(s.threads[l.t].call, s.threads[l.t].pc);
  }

  lemma BehindKept(s: State, l: Label, i: nat, j: nat, first: nat, later: nat)
    requires Sound(s) && Enabled(s, l) && Guard(s, l) && Shadowed(s, first, later) &&
             BothThere(Apply(s, l), first, later)
    requires i < j < |s.items| && Behind(s.items[i], s.items[j], first, later)
    ensures exists x, y ::
              0 <= x < y < |ItemsAfter(s, l)| && Behind(ItemsAfter(s, l)[x], ItemsAfter(s, l)[y], first, later)
  {
    if RemovalIndex(s, l).Some? {
      BehindAfterRemoval(s, l, i, j, first, later);
    } else {
      if Written(s, l).Some? {
        BehindAfterWrite(s, l, first, later);
      }
      assert Behind(ItemsAfter(s, l)[i], ItemsAfter(s, l)[j], first, later);
    }
  }

  lemma RemovedIsGone(s: State, l: Label)
    requires WellFormed(s) && Enabled(s, l) && RemovalIndex(s, l).Some?
    ensures !HasLock(Apply(s, l), s.items[RemovalIndex(s, l).value].lock)
  {
  }

  /** A connection callback for that address always finds the older context. */
  lemma StartAvoids(s: State, l: Label, i: nat, j: nat, first: nat, later: nat)
    requires Sound(s) && Enabled(s, l) && l.DoStart? && s.threads[l.t].call.LinkChanged?
    requires i < j < |s.items| && Behind(s.items[i], s.items[j], first, later)
    requires later > 0 && ThreadAfter(s, l).Busy?
    ensures ThreadAfter(s, l).id != later
  {
    assert FitsPointer(s.threads[l.t]);
    if ThreadAfter(s, l).ptr.Slot? {
      RoutingIsFirstMatch(s, l);
    }
  }

  lemma ThreadAvoids(s: State, l: Label, i: nat, j: nat, first: nat, later: nat)
    requires Sound(s) && Enabled(s, l) && Shadowed(s, first, later) && 0 < first && 0 < later
    requires i < j < |s.items| && Behind(s.items[i], s.items[j], first, later)
    requires ThreadAfter(s, l).Busy? && (ThreadAfter(s, l).id == first || ThreadAfter(s, l).id == later)
    ensures ThreadAfter(s, l).pc != CopyAddress
    ensures ThreadAfter(s, l).id == later ==> !ThreadAfter(s, l).call.LinkChanged?
  {
    if l.DoStart? && s.threads[l.t].call.LinkChanged? {
      StartAvoids(s, l, i, j, first, later);
    }
  }

  lemma StepShadowed(s: State, l: Label, first: nat, later: nat)
    requires Sound(s) && Enabled(s, l) && Guard(s, l) && Shadowed(s, first, later) &&
             BothThere(Apply(s, l), first, later)
    ensures Shadowed(Apply(s, l), first, later)
  {
    var s' := Apply(s, l);
    var i, j :| 0 <= i < j < |s.items| && Behind(s.items[i], s.items[j], first, later);
    BehindKept(s, l, i, j, first, later);
    forall t | Running(s', t) && (s'.threads[t].id == first || s'.threads[t].id == later)
      ensures s'.threads[t].pc != CopyAddress && (s'.threads[t].id == later ==> !s'.threads[t].call.LinkChanged?)
    {
      if t == l.t {
        ThreadAvoids(s, l, i, j, first, later);
      } else {
        assert Running(s, t);
      }
    }
  }

  /** As long as the older context stays, the newer one is never connected,
      whatever events arrive. */
  lemma ShadowedNeverConnects(r: Run, j: nat, k: nat, first: nat, later: nat, i: nat)
    requires IsRun(r) && Guarded(r) && j <= k < |r.states|
    requires Shadowed(r.states[j], first, later)
    requires forall n :: j <= n <= k ==> BothThere(r.states[n], first, later)
    requires i < |r.states[k].items| && r.states[k].items[i].lock == later
    ensures !r.states[k].items[i].connected
  {
    ShadowedThroughout(r, j, k, first, later);
    RunSound(r, k);
    ShadowedIsDown(r.states[k], first, later, i);
  }

  lemma ShadowedThroughout(r: Run, j: nat, k: nat, first: nat, later: nat)
    requires IsRun(r) && Guarded(r) && j <= k < |r.states|
    requires Shadowed(r.states[j], first, later)
    requires forall n :: j <= n <= k ==> BothThere(r.states[n], first, later)
    ensures Shadowed(r.states[k], first, later)
  {
    if j < k {
      ShadowedThroughout(r, j, k - 1, first, later);
      NextShadowed(r, k - 1, first, later);
    }
  }

  lemma NextShadowed(r: Run, k: nat, first: nat, later: nat)
    requires IsRun(r) && Guarded(r) && k < |r.labels| && Shadowed(r.states[k], first, later)
    requires BothThere(r.states[k + 1], first, later)
    ensures Shadowed(r.states[k + 1], first, later)
  {
    RunSound(r, k);
    assert StepAt(r, k) && GuardAt(r, k);
    StepShadowed(r.states[k], r.labels[k], first, later);
  }

  /** A successful link change for an address goes to the context at `j` with that
      address if and only if no older context has it. */
  lemma RoutedIffFirst(s: State, l: Label, j: nat)
    requires Enabled(s, l) && l.DoStart? && s.threads[l.t].call.LinkChanged? && s.threads[l.t].call.success
    requires j < |s.items| && s.items[j].address == s.threads[l.t].call.address
    ensures var th := ThreadAfter(s, l);
            (th.Busy? && th.ptr == Slot(s.generation, j)) <==>
            (forall i :: 0 <= i < j ==> s.items[i].address != s.threads[l.t].call.address)
  {
  }

  // ----- how shadowing begins

  /** Copying an address that an older context has puts the new context in its shadow. */
  lemma CopyShadows(s: State, l: Label, i: nat)
    requires Sound(s) && Unnamed(s) && Enabled(s, l) && l.DoCopy?
    requires i < s.threads[l.t].ptr.index && s.items[i].address == s.threads[l.t].call.address
    ensures Shadowed(Apply(s, l), s.items[i].lock, s.threads[l.t].id)
  {
    var s', t := Apply(s, l), l.t;
    var j := s.threads[t].ptr.index;
    CopierDenotes(s, t);
    assert Untouched(s, t) && NamesDevice(s.threads[t].call);
    assert Behind(s'.items[i], s'.items[j], s.items[i].lock, s.threads[t].id);
    forall u | u != t && Running(s, u) ensures s.threads[u].pc == CopyAddress ==> s.threads[u].id != s.items[i].lock {
      if s.threads[u].pc == CopyAddress {
        CopierDenotes(s, u);
        assert Untouched(s, u);
      }
    }
  }

  // ----- the call that waits in the shadow

  /** The `bleConnect` has failed, or waits on a context in a shadow. */
  ghost predicate Hopeless(s: State, t: Tid, first: nat, later: nat) {
    && t in s.threads && s.threads[t].call.Connect?
    && match s.threads[t]
       case Done(_, status, _, _, _, _) => status != Ok
       case Busy(_, pc, _, id, _, _) =>
         && id == later && (pc in {Request, WaitLock, Test, Expired} || pc.Blocked? || pc.Relock?)
         && Shadowed(s, first, later)
  }

  /** The awaited flag of a context in a shadow is false. */
  lemma ShadowedFlag(s: State, t: Tid, first: nat, later: nat)
    requires Sound(s) && Hopeless(s, t, first, later) && Running(s, t) && s.threads[t].pc == Test
    ensures Live(s, s.threads[t].ptr) && !Flag(s, s.threads[t])
  {
    OwnLock(s, t);
    assert FitsPointer(s.threads[t]);
    ShadowedIsDown(s, first, later, s.threads[t].ptr.index);
  }

  lemma ShadowedIsDown(s: State, first: nat, later: nat, k: nat)
    requires WellFormed(s) && Shadowed(s, first, later) && k < |s.items| && s.items[k].lock == later
    ensures !s.items[k].connected
  {
    var i, j :| 0 <= i < j < |s.items| && Behind(s.items[i], s.items[j], first, later);
    assert j == k;
  }

  lemma HopelessThread(s: State, l: Label, first: nat, later: nat)
    requires Sound(s) && Hopeless(s, l.t, first, later) && Enabled(s, l) && !l.DoBegin?
    ensures var th := ThreadAfter(s, l);
            && th.call.Connect?
            && (th.Done? ==> th.status != Ok)
            && (th.Busy? ==>
                  th.id == later && (th.pc in {Request, WaitLock, Test, Expired} || th.pc.Blocked? || th.pc.Relock?))
  {
    if l.DoTest? {
      ShadowedFlag(s, l.t, first, later);
    }
  }

  lemma StepHopeless(s: State, l: Label, t: Tid, first: nat, later: nat)
    requires Sound(s) && Hopeless(s, t, first, later) && Enabled(s, l) && Guard(s, l) && !(l.DoBegin? && l.t == t)
    ensures Hopeless(Apply(s, l), t, first, later)
  {
    var s' := Apply(s, l);
    StepSound(s, l);
    if t == l.t {
      HopelessThread(s, l, first, later);
    } else {
      OtherGoesOn(s, l, t);
    }
    if Running(s', t) {
      TargetThere(s', t);
      OlderStays(s, l, t, first, later);
      StepShadowed(s, l, first, later);
    }
  }

  /** The waiting call holds a pointer above the older context, so no guarded removal
      can take that out. */
  lemma OlderStays(s: State, l: Label, t: Tid, first: nat, later: nat)
    requires Sound(s) && Hopeless(s, t, first, later) && Running(s, t) && Enabled(s, l) && Guard(s, l)
    ensures HasLock(Apply(s, l), first)
  {
    assert FitsPointer(s.threads[t]);
    assert Holds(s, t) && Denotes(s, s.threads[t]);
    var i := OlderIndex(s, first, later, s.threads[t].ptr.index);
    RemovedAbove(s, l, t);
    BelowStays(s, l, i);
  }

  lemma RemovedAbove(s: State, l: Label, t: Tid)
    requires Enabled(s, l) && Guard(s, l) && Holds(s, t) && s.threads[t].call.Connect?
    ensures RemovalIndex(s, l).Some? ==> s.threads[t].ptr.index < RemovalIndex(s, l).value
  {
  }

  lemma BelowStays(s: State, l: Label, i: nat)
    requires Enabled(s, l) && i < |s.items| && (RemovalIndex(s, l).Some? ==> i < RemovalIndex(s, l).value)
    ensures HasLock(Apply(s, l), s.items[i].lock)
  {
    LockBefore(s, l, i);
    assert Apply(s, l).items == ItemsAfter(s, l);
  }

  lemma OlderIndex(s: State, first: nat, later: nat, k: nat) returns (i: nat)
    requires WellFormed(s) && Shadowed(s, first, later) && k < |s.items| && s.items[k].lock == later
    ensures i < k && s.items[i].lock == first
  {
    var x, j: nat :| 0 <= x < j < |s.items| && Behind(s.items[x], s.items[j], first, later);
    assert j == k;
    i := x;
  }

  lemma TargetThere(s: State, t: Tid)
    requires Sound(s) && Running(s, t) && s.threads[t].call.Connect? && s.threads[t].pc != Start
    ensures HasLock(s, s.threads[t].id)
  {
    assert FitsCall(s.threads[t].call, s.threads[t].pc) && FitsPointer(s.threads[t]);
    assert Holds(s, t) && Denotes(s, s.threads[t]);
  }

  // ----- main result

  /** Run `r` ends with the copy of the address by the `bleConnect` of thread `t`. */
  ghost predicate JustCopied(r: Run, t: Tid) {
    && Good(r) && NamedRun(r) && |r.labels| > 0 && r.labels[|r.labels| - 1] == DoCopy(t)
    && At(Last(r), t, Request) && Last(r).threads[t].ptr.Slot? && Last(r).threads[t].call.Connect?
  }

  /** In run `q`, which goes on from `r`, that call returns OK. */
  ghost predicate Connects(q: Run, r: Run, t: Tid)
    requires JustCopied(r, t)
  {
    && Good(q) && Extends(q, r)
    && (forall k :: |r.labels| <= k < |q.labels| ==> !(q.labels[k].DoBegin? && q.labels[k].t == t))
    && ReturnedOk(Last(q), t)
  }

  lemma HopelessThroughout(q: Run, r: Run, t: Tid, first: nat, later: nat, n: nat)
    requires Good(r) && Good(q) && Extends(q, r) && |r.labels| <= n < |q.states|
    requires forall k :: |r.labels| <= k < |q.labels| ==> !(q.labels[k].DoBegin? && q.labels[k].t == t)
    requires Hopeless(Last(r), t, first, later)
    ensures Hopeless(q.states[n], t, first, later)
    decreases n
  {
    if n > |r.labels| {
      HopelessThroughout(q, r, t, first, later, n - 1);
      NextHopeless(q, n - 1, t, first, later);
    }
  }

  lemma NextHopeless(q: Run, n: nat, t: Tid, first: nat, later: nat)
    requires Good(q) && n < |q.labels| && Hopeless(q.states[n], t, first, later)
    requires !(q.labels[n].DoBegin? && q.labels[n].t == t)
    ensures Hopeless(q.states[n + 1], t, first, later)
  {
    RunSound(q, n);
    assert StepAt(q, n) && GuardAt(q, n);
    StepHopeless(q.states[n], q.labels[n], t, first, later);
  }

  lemma CopiedIsHopeless(r: Run, t: Tid, i: nat)
    requires JustCopied(r, t)
    requires i < Last(r).threads[t].ptr.index && Last(r).items[i].address == Last(r).threads[t].call.address
    ensures Hopeless(Last(r), t, Last(r).items[i].lock, Last(r).threads[t].id)
  {
    var n := |r.labels| - 1;
    var s := r.states[n];
    RunSound(r, n);
    RunUnnamed(r, n);
    assert StepAt(r, n);
    CopyShadows(s, r.labels[n], i);
  }

  lemma ShadowedNeverReturnsOk(r: Run, t: Tid, i: nat, q: Run)
    requires JustCopied(r, t)
    requires i < Last(r).threads[t].ptr.index && Last(r).items[i].address == Last(r).threads[t].call.address
    ensures !Connects(q, r, t)
  {
    if Connects(q, r, t) {
      CopiedIsHopeless(r, t, i);
      HopelessThroughout(q, r, t, Last(r).items[i].lock, Last(r).threads[t].id, |q.labels|);
    }
  }

  lemma FirstIs(items: seq<DeviceContext>, j: nat)
    requires j < |items| && forall i :: 0 <= i < j ==> items[i].address != items[j].address
    ensures FirstByAddress(items, items[j].address) == Some(j)
  {
  }

  lemma Unshadowed(r: Run, t: Tid) returns (q: Run)
    requires JustCopied(r, t)
    requires var j := Last(r).threads[t].ptr.index;
             && Last(r).items[j].lock !in Last(r).owner
             && Last(r).items[j].address == Last(r).threads[t].call.address
             && forall i :: 0 <= i < j ==> Last(r).items[i].address != Last(r).items[j].address
    ensures Later(q, r, t) && ReturnedOk(Last(q), t)
  {
    var s, j := Last(r), Last(r).threads[t].ptr.index;
    FirstIs(s.items, j);
    q := Answer(r, t, Ok);
    LaterStep(q, r, r, t, DoRequest(t, Ok), Last(q));
    q := LinkComes(q, t, j, r);
    q := WaitPasses(q, t, j, r);
    q := ReadsHandle(q, t, j, r);
  }

  /** The connection is reported by some thread to the context at `j`. */
  lemma LinkComes(p: Run, t: Tid, j: nat, r: Run) returns (q: Run)
    requires IsRun(r) && Later(p, r, t) && Waiting(Last(p), t, WaitLock, j) && Last(p).items[j].lock !in Last(p).owner
    requires FirstByAddress(Last(p).items, Last(p).items[j].address) == Some(j)
    ensures Later(q, r, t) && Waiting(Last(q), t, WaitLock, j) && Last(q).threads[t] == Last(p).threads[t]
    ensures Last(q).items[j].connected && Last(q).items[j].lock !in Last(q).owner
  {
    var s := Last(p);
    var u := IdleThread(s.threads.Keys);
    q := CallbackToNotify(p, u, LinkChanged(Connected, true, 1, s.items[j].address), j, r, t);
    q := SignalsAll(q, u, j, r, t);
  }

  lemma CopiedAddress(r: Run, t: Tid)
    requires JustCopied(r, t)
    ensures Last(r).items[Last(r).threads[t].ptr.index].address == Last(r).threads[t].call.address
  {
    assert StepAt(r, |r.labels| - 1);
  }

  /** A `bleConnect` that has just copied its address, while its mutex is free, can
      return OK if and only if no older context has the address. */
  lemma ConnectsIffNotShadowed(r: Run, t: Tid)
    requires JustCopied(r, t) && Last(r).items[Last(r).threads[t].ptr.index].lock !in Last(r).owner
    ensures (exists q :: Connects(q, r, t)) <==>
            forall i :: 0 <= i < Last(r).threads[t].ptr.index ==>
                   Last(r).items[i].address != Last(r).threads[t].call.address
  {
    var s, j := Last(r), Last(r).threads[t].ptr.index;
    CopiedAddress(r, t);
    if i :| 0 <= i < j && s.items[i].address == s.threads[t].call.address {
      forall q ensures !Connects(q, r, t) {
        ShadowedNeverReturnsOk(r, t, i, q);
      }
    } else {
      var q := Unshadowed(r, t);
      assert Connects(q, r, t);
    }
  }
}
