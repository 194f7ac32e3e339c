/** When raw context pointers stay good: exactly when adds and removals respect a guard. */
module PointerStability {
  import opened Types
  import opened DeviceContexts
  import opened Protocol

  ghost predicate DistinctLocks(items: seq<DeviceContext>, bound: nat) {
    && (forall i :: 0 <= i < |items| ==> 0 < items[i].lock < bound)
    && (forall i, j :: 0 <= i < j < |items| ==> items[i].lock != items[j].lock)
  }

  /** True of every run, guarded or not. */
  ghost predicate WellFormed(s: State) {
    && s.nextLock > 0
    && DistinctLocks(s.items, s.nextLock)
    && |s.items| <= s.capacity
    && IsCapacity(s.capacity)
  }

  /** Every pointer in use denotes the context it was obtained for. */
  ghost predicate AllDenote(s: State) {
    forall u :: Holds(s, u) ==> Denotes(s, s.threads[u])
  }

  /** An add finds room, or nobody holds a pointer into the block it reallocates;
      a removal takes out an entry above every held pointer. */
  ghost predicate Guard(s: State, l: Label)
    requires Enabled(s, l)
  {
    match l
    case DoStart(t) =>
      s.threads[t].call.Connect? && |s.items| == s.capacity ==> forall u :: u != t ==> !Holds(s, u)
    case DoRemove(t) =>
      (match FirstByHandle(s.items, s.threads[t].call.handle)
       case None => true
       case Some(i) => forall u :: u != t && Holds(s, u) ==> s.threads[u].ptr.index < i)
    case _ => true
  }

  ghost predicate Guarded(r: Run)
    requires IsRun(r)
  {
    forall k :: 0 <= k < |r.labels| ==> GuardAt(r, k)
  }

  ghost predicate GuardAt(r: Run, k: nat)
    requires IsRun(r) && k < |r.labels|
  {
    assert StepAt(r, k);
    Guard(r.states[k], r.labels[k])
  }

  /** The only labels that add, remove or move contexts. */
  predicate Restructures(s: State, l: Label) {
    Adds(s, l) || RemovalIndex(s, l).Some?
  }

  ghost predicate SameStructure(s: State, s': State) {
    && |s'.items| == |s.items|
    && (forall i :: 0 <= i < |s.items| ==> s'.items[i].lock == s.items[i].lock)
    && s'.generation == s.generation && s'.capacity == s.capacity && s'.nextLock == s.nextLock
  }

  ghost predicate OthersKept(s: State, s': State, t: Tid) {
    && (forall u :: u != t ==> (u in s'.threads <==> u in s.threads))
    && (forall u :: u != t && u in s.threads ==> s'.threads[u] == s.threads[u])
  }

  /** No thread's pointer appears out of nothing: outside `DoStart` it is the one it had. */
  ghost predicate PointersKept(s: State, s': State) {
    forall u :: Holds(s', u) ==>
      Holds(s, u) && s'.threads[u].ptr == s.threads[u].ptr && s'.threads[u].id == s.threads[u].id
  }

  lemma StepKeepsStructure(s: State, l: Label)
    requires Enabled(s, l) && !Restructures(s, l)
    ensures SameStructure(s, Apply(s, l))
  {
  }

  lemma StepKeepsOthers(s: State, l: Label)
    requires Enabled(s, l) && !l.DoSignal?
    ensures OthersKept(s, Apply(s, l), l.t)
  {
  }

  lemma OwnPointerKept(s: State, l: Label)
    requires Enabled(s, l) && !l.DoStart? && ThreadAfter(s, l).Busy? && ThreadAfter(s, l).ptr.Slot?
    ensures Holds(s, l.t)
    ensures ThreadAfter(s, l).ptr == s.threads[l.t].ptr && ThreadAfter(s, l).id == s.threads[l.t].id
  {
  }

  lemma StepKeepsPointers(s: State, l: Label)
    requires Enabled(s, l) && !l.DoStart?
    ensures PointersKept(s, Apply(s, l))
  {
    var threads' := ThreadsAfter(s, l);
    forall u | u in threads' && threads'[u].Busy? && threads'[u].ptr.Slot?
      ensures Holds(s, u) && threads'[u].ptr == s.threads[u].ptr && threads'[u].id == s.threads[u].id
    {
      if u == l.t {
        OwnPointerKept(s, l);
      }
    }
  }

  lemma StepWellFormed(s: State, l: Label)
    requires WellFormed(s) && Enabled(s, l)
    ensures WellFormed(Apply(s, l))
  {
    ItemsStayDistinct(s, l);
    if Adds(s, l) {
      GrownIsCapacity(s.capacity);
    }
  }

  lemma ItemsStayDistinct(s: State, l: Label)
    requires WellFormed(s) && Enabled(s, l)
    ensures DistinctLocks(ItemsAfter(s, l), if Adds(s, l) then s.nextLock + 1 else s.nextLock)
    ensures |ItemsAfter(s, l)| <= |s.items| + (if Adds(s, l) then 1 else 0)
  {
    if !Restructures(s, l) {
      StepKeepsStructure(s, l);
      assert Apply(s, l).items == ItemsAfter(s, l);
    }
  }

  lemma KeptPointersDenote(s: State, s': State)
    requires AllDenote(s) && SameStructure(s, s') && PointersKept(s, s')
    ensures AllDenote(s')
  {
  }

  /** The step-level statement: a step keeps every held pointer on its device if
      and only if it respects the guard. */
  lemma StepStableIffGuard(s: State, l: Label)
    requires WellFormed(s) && AllDenote(s) && Enabled(s, l)
    ensures AllDenote(Apply(s, l)) <==> Guard(s, l)
  {
    if l.DoStart? {
      StartStableIffGuard(s, l);
    } else {
      StepKeepsPointers(s, l);
      if RemovalIndex(s, l).Some? {
        RemoveStableIffGuard(s, l);
      } else {
        StepKeepsStructure(s, l);
        KeptPointersDenote(s, Apply(s, l));
      }
    }
  }

  lemma StartStableIffGuard(s: State, l: Label)
    requires WellFormed(s) && AllDenote(s) && Enabled(s, l) && l.DoStart?
    ensures AllDenote(Apply(s, l)) <==> Guard(s, l)
  {
    var s' := Apply(s, l);
    StepKeepsOthers(s, l);
    if Adds(s, l) && Full(s) && (exists u :: u != l.t && Holds(s, u)) {
      var u :| u != l.t && Holds(s, u);
      assert Denotes(s, s.threads[u]);
      assert Holds(s', u) && !Denotes(s', s'.threads[u]);
    } else {
      forall u | Holds(s', u) ensures Denotes(s', s'.threads[u]) {
        if u == l.t {
          StarterDenotes(s, l);
        } else {
          assert Holds(s, u) && Denotes(s, s.threads[u]);
        }
      }
    }
  }

  /** The pointer that a lookup has just returned is good. */
  lemma StarterDenotes(s: State, l: Label)
    requires WellFormed(s) && AllDenote(s) && Enabled(s, l) && l.DoStart? && Holds(Apply(s, l), l.t)
    ensures Denotes(Apply(s, l), Apply(s, l).threads[l.t])
  {
    var th := s.threads[l.t];
    assert Apply(s, l).threads[l.t] == ThreadAfter(s, l);
    if !th.call.Connect? {
      assert th.ptr.Slot? ==> Denotes(s, th);
      LookupDenotes(s, th);
      assert ItemsAfter(s, l) == s.items;
    }
  }

  lemma LookupDenotes(s: State, th: Thread)
    requires th.Busy? && !th.call.Connect? && (th.ptr.Slot? ==> Denotes(s, th))
    ensures Started(s, th).Busy? && Started(s, th).ptr.Slot? ==> Denotes(s, Started(s, th))
  {
  }

  lemma RemoveStableIffGuard(s: State, l: Label)
    requires WellFormed(s) && AllDenote(s) && Enabled(s, l) && RemovalIndex(s, l).Some?
    requires PointersKept(s, Apply(s, l))
    ensures AllDenote(Apply(s, l)) <==> Guard(s, l)
  {
    var s' := Apply(s, l);
    var i := RemovalIndex(s, l).value;
    StepKeepsOthers(s, l);
    forall u | u != l.t && Holds(s, u)
      ensures Denotes(s', s'.threads[u]) <==> s.threads[u].ptr.index < i
    {
      assert Denotes(s, s.threads[u]);
    }
    if !Guard(s, l) {
      var u :| u != l.t && Holds(s, u) && !(s.threads[u].ptr.index < i);
      assert Holds(s', u);
    }
  }

  lemma RunWellFormed(r: Run, k: nat)
    requires IsRun(r) && k < |r.states|
    ensures WellFormed(r.states[k])
  {
    if k > 0 {
      RunWellFormed(r, k - 1);
      assert StepAt(r, k - 1);
      StepWellFormed(r.states[k - 1], r.labels[k - 1]);
    }
  }

  lemma GuardedDenotes(r: Run, k: nat)
    requires IsRun(r) && Guarded(r) && k < |r.states|
    ensures AllDenote(r.states[k])
  {
    if k > 0 {
      GuardedDenotes(r, k - 1);
      RunWellFormed(r, k - 1);
      assert StepAt(r, k - 1) && GuardAt(r, k - 1);
      StepStableIffGuard(r.states[k - 1], r.labels[k - 1]);
    }
  }

  /** Over whole runs: all held pointers keep denoting their devices in every
      state if and only if every add and every removal respected the guard. */
  lemma PointersStableIffGuarded(r: Run)
    requires IsRun(r)
    ensures (forall k :: 0 <= k < |r.states| ==> AllDenote(r.states[k])) <==> Guarded(r)
  {
    if Guarded(r) {
      forall k | 0 <= k < |r.states| ensures AllDenote(r.states[k]) {
        GuardedDenotes(r, k);
      }
    }
    if forall k :: 0 <= k < |r.states| ==> AllDenote(r.states[k]) {
      forall k | 0 <= k < |r.labels| ensures GuardAt(r, k) {
        RunWellFormed(r, k);
        assert StepAt(r, k);
        assert AllDenote(r.states[k]) && AllDenote(r.states[k + 1]);
        StepStableIffGuard(r.states[k], r.labels[k]);
      }
    }
  }

  // ----- the guard is not automatic

  ghost function Last(r: Run): State
    requires IsRun(r)
  {
    r.states[|r.labels|]
  }

  lemma Extend(r: Run, l: Label) returns (q: Run)
    requires IsRun(r) && Enabled(Last(r), l)
    ensures IsRun(q) && Last(q) == Apply(Last(r), l)
    ensures q.labels == r.labels + [l] && q.states == r.states + [Last(q)]
  {
    q := Run(r.states + [Apply(Last(r), l)], r.labels + [l]);
    forall k | 0 <= k < |q.labels| ensures StepAt(q, k) {
      if k < |r.labels| {
        assert StepAt(r, k);
      }
    }
  }

  ghost predicate InFlightConnects(s: State, n: nat) {
    && |s.items| == n && s.capacity == (if n == 0 then 0 else 4)
    && (forall t: Tid :: t in s.threads <==> t < n)
    && (n > 0 ==> Holds(s, 0) && Denotes(s, s.threads[0]))
  }

  lemma ConnectsInFlight(n: nat) returns (r: Run)
    requires n <= 4
    ensures IsRun(r) && InFlightConnects(Last(r), n)
  {
    if n == 0 {
      var s := State([], 0, 0, 1, Vars(false, false, false), map[], map[], map[], map[], [], [], map[], {});
      r := Run([s], []);
    } else {
      r := ConnectsInFlight(n - 1);
      r := Extend(r, DoBegin(n - 1, Connect(ZERO_ADDRESS)));
      r := Extend(r, DoStart(n - 1));
    }
  }

  /** Nothing in the library enforces the guard: while four `bleConnect` calls are
      about to copy their address, a fifth one reallocates the array under their
      pointers. */
  lemma FifthConnectBreaksPointers()
    ensures exists r :: IsRun(r) && !Guarded(r) && !AllDenote(Last(r))
  {
    var r := ConnectsInFlight(4);
    r := Extend(r, DoBegin(4, Connect(ZERO_ADDRESS)));
    var s := Last(r);
    r := Extend(r, DoStart(4));
    assert Holds(Last(r), 0) && Last(r).threads[0] == s.threads[0] && !Denotes(Last(r), s.threads[0]);
    PointersStableIffGuarded(r);
    assert !AllDenote(r.states[|r.labels|]);
  }
}
