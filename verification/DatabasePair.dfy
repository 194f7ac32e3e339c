/** The two outputs of `bleGetDatabase`: when they form one pair, and when an OK means nothing new. */
module DatabasePair {
  import opened Types
  import opened Gatt
  import opened DeviceContexts
  import opened Protocol
  import opened PointerStability
  import opened LockDiscipline
  import opened EventFold
  import opened Deliveries
  import opened ApiResults
  import opened Wakeups
  import opened RunSteps

  // ----- which stores matter to a call

  /** Store `k` is the one that thread `t` made in its latest `bleGetDatabase`. */
  ghost predicate OwnStore(s: State, t: Tid, k: int) {
    && 0 <= k < |s.stores| && s.stores[k].caller == t
    && forall j :: k < j < |s.stores| ==> s.stores[j].caller != t
  }

  /** No other call has stored in that context since. */
  ghost predicate LastStore(s: State, k: int) {
    && 0 <= k < |s.stores|
    && forall j :: k < j < |s.stores| ==> s.stores[j].id != s.stores[k].id
  }

  /** The locations of store `k` are its own: no other context in the array has them,
      and no later call has stored them in the same context. */
  ghost predicate Unshared(s: State, k: int)
    requires 0 <= k < |s.stores|
  {
    && ElsewhereFree(s, s.stores[k].id, s.stores[k].servicesOut, s.stores[k].countLoc)
    && forall j :: k < j < |s.stores| && s.stores[j].id == s.stores[k].id ==>
         s.stores[j].servicesOut != s.stores[k].servicesOut && s.stores[j].countLoc != s.stores[k].countLoc
  }

  ghost predicate ElsewhereFree(s: State, id: nat, servicesOut: Loc, countLoc: Loc) {
    forall i :: 0 <= i < |s.items| && s.items[i].lock != id ==>
      s.items[i].dbOut != Some(servicesOut) && s.items[i].countOut != Some(countLoc)
  }

  /** They have been so in every state from the store up to state `n`. */
  ghost predicate UnsharedSince(r: Run, n: nat, k: int)
    requires n < |r.states|
  {
    forall m :: 0 <= m <= n && 0 <= k < |r.states[m].stores| ==> Unshared(r.states[m], k)
  }

  predicate PastStore(th: Thread) {
    th.Busy? && th.call.GetDatabase? && th.pc !in {Start, StoreLock, StoreServices}
  }

  predicate StoreOf(st: Store, th: Thread) {
    th.call.GetDatabase? && st.id == th.id && st.servicesOut == th.call.servicesOut && st.countLoc == th.call.countLoc
  }

  ghost predicate CallStored(s: State, t: Tid) {
    Running(s, t) && PastStore(s.threads[t]) ==>
      exists k :: OwnStore(s, t, k) && StoreOf(s.stores[k], s.threads[t]) &&
        (s.threads[t].pc == StoreCount ==> LastStore(s, k))
  }

  ghost predicate CallsStored(s: State) {
    forall t :: CallStored(s, t)
  }

  predicate NewStore(s: State, l: Label) {
    l.DoStore? && Running(s, l.t) && s.threads[l.t].pc == StoreServices
  }

  lemma OwnCallStored(s: State, l: Label)
    requires Typed(s) && CallsStored(s) && Enabled(s, l) && PastStore(ThreadAfter(s, l)) && !NewStore(s, l)
    ensures PastStore(s.threads[l.t]) && ThreadAfter(s, l).id == s.threads[l.t].id
    ensures ThreadAfter(s, l).call == s.threads[l.t].call && ThreadAfter(s, l).pc != StoreCount
  {
    assert FitsCall(s.threads[l.t].call, s.threads[l.t].pc);
  }

  /** Two threads are never both between storing the first and the second pointer. */
  lemma StoringAlone(s: State, l: Label, t: Tid)
    requires Sound(s) && Enabled(s, l) && NewStore(s, l) && t != l.t && Running(s, t) && Critical(s.threads[t].pc)
    ensures s.threads[l.t].id != s.threads[t].id
  {
    assert InCritical(s, l.t, s.threads[l.t].id);
    assert InCritical(s, t, s.threads[t].id);
  }

  lemma StoresGrow(s: State, l: Label)
    requires Enabled(s, l)
    ensures |s.stores| <= |StoresAfter(s, l)| <= |s.stores| + 1
    ensures |StoresAfter(s, l)| == |s.stores| + 1 <==> NewStore(s, l)
    ensures forall j :: 0 <= j < |s.stores| ==> StoresAfter(s, l)[j] == s.stores[j]
    ensures NewStore(s, l) ==>
              var st := StoresAfter(s, l)[|s.stores|];
              st.caller == l.t && st.id == s.threads[l.t].id && st.at == |s.history| && StoreOf(st, s.threads[l.t])
  {
  }

  lemma StepCallStored(s: State, l: Label, t: Tid)
    requires Sound(s) && CallsStored(s) && Enabled(s, l)
    ensures CallStored(Apply(s, l), t)
  {
    var s' := Apply(s, l);
    if Running(s', t) && PastStore(s'.threads[t]) {
      if t == l.t && NewStore(s, l) {
        StoresGrow(s, l);
        assert OwnStore(s', t, |s.stores|) && StoreOf(s'.stores[|s.stores|], s'.threads[t]);
      } else {
        if t == l.t { OwnCallStored(s, l); } else { OtherGoesOn(s, l, t); }
        CallStillStored(s, l, t);
      }
    }
  }

  lemma CallStillStored(s: State, l: Label, t: Tid)
    requires Sound(s) && CallStored(s, t) && Enabled(s, l) && !(t == l.t && NewStore(s, l))
    requires Running(s, t) && PastStore(s.threads[t]) && t in ThreadsAfter(s, l)
    requires ThreadsAfter(s, l)[t].call == s.threads[t].call && ThreadsAfter(s, l)[t].id == s.threads[t].id
    requires ThreadsAfter(s, l)[t].Busy? && ThreadsAfter(s, l)[t].pc == StoreCount ==>
               t != l.t && s.threads[t].pc == StoreCount
    ensures CallStored(Apply(s, l), t)
  {
    var s' := Apply(s, l);
    StoresGrow(s, l);
    var k :| OwnStore(s, t, k) && StoreOf(s.stores[k], s.threads[t]) &&
        (s.threads[t].pc == StoreCount ==> LastStore(s, k));
    assert s'.stores == StoresAfter(s, l) && s'.threads == ThreadsAfter(s, l);
    assert OwnStore(s', t, k) && s'.stores[k] == s.stores[k];
    if s'.threads[t].Busy? && s'.threads[t].pc == StoreCount {
      StoreStaysLast(s, l, t, k);
    }
  }

  /** Nobody else stores in a context while a call is between its two stores there. */
  lemma StoreStaysLast(s: State, l: Label, t: Tid, k: int)
    requires Sound(s) && Enabled(s, l) && LastStore(s, k) && t != l.t
    requires Running(s, t) && s.threads[t].pc == StoreCount && s.stores[k].id == s.threads[t].id
    ensures LastStore(Apply(s, l), k)
  {
    StoresGrow(s, l);
    assert Apply(s, l).stores == StoresAfter(s, l);
    if NewStore(s, l) {
      StoringAlone(s, l, t);
    }
  }

  ghost predicate StoresOld(s: State) {
    forall j :: 0 <= j < |s.stores| ==> s.stores[j].id < s.nextLock && s.stores[j].at <= |s.history|
  }

  lemma StepStoresOld(s: State, l: Label)
    requires Sound(s) && StoresOld(s) && Enabled(s, l)
    ensures StoresOld(Apply(s, l))
  {
    StoresGrow(s, l);
    if l.DoStore? {
      IdsAreOld(s, l.t);
    }
  }

  // ----- a context's out-pointers are those of its last store

  /** The last caller has stored its first pointer only. */
  ghost predicate CountPending(s: State, m: nat) {
    exists t :: Running(s, t) && s.threads[t].pc == StoreCount && s.threads[t].id == m
  }

  ghost predicate OutsLast(s: State, i: int, k: int) {
    0 <= i < |s.items| && LastStore(s, k) && s.stores[k].id == s.items[i].lock ==>
      && s.items[i].dbOut == Some(s.stores[k].servicesOut)
      && (s.items[i].countOut == Some(s.stores[k].countLoc) || CountPending(s, s.items[i].lock))
  }

  ghost predicate AllOutsLast(s: State) {
    forall i, k :: OutsLast(s, i, k)
  }

  lemma OutsUntouched(s: State, l: Label, i: nat)
    requires Enabled(s, l) && i < |ItemsAfter(s, l)| && (Adds(s, l) ==> i < |s.items|)
    requires !(l.DoStore? && Written(s, l) == Some(i))
    ensures Before(s, l, i) < |s.items|
    ensures ItemsAfter(s, l)[i].dbOut == s.items[Before(s, l, i)].dbOut
    ensures ItemsAfter(s, l)[i].countOut == s.items[Before(s, l, i)].countOut
  {
    if Written(s, l) == Some(i) {
      RewrittenKeepsOuts(s, l);
    }
  }

  lemma RewrittenKeepsOuts(s: State, l: Label)
    requires Enabled(s, l) && Written(s, l).Some? && !l.DoStore?
    ensures Rewritten(s, l).dbOut == s.items[Written(s, l).value].dbOut
    ensures Rewritten(s, l).countOut == s.items[Written(s, l).value].countOut
  {
  }

  lemma StoringStoresNext(s: State, l: Label)
    requires Typed(s) && Enabled(s, l) && Running(s, l.t) && s.threads[l.t].pc == StoreCount
    ensures l.DoStore?
  {
  }

  lemma PendingStays(s: State, l: Label, m: nat)
    requires Typed(s) && Enabled(s, l) && CountPending(s, m) && !(l.DoStore? && s.threads[l.t].id == m)
    ensures CountPending(Apply(s, l), m)
  {
    var t :| Running(s, t) && s.threads[t].pc == StoreCount && s.threads[t].id == m;
    if t == l.t {
      StoringStoresNext(s, l);
    } else {
      OtherThreadKept(s, l, t);
      assert Running(Apply(s, l), t) && Apply(s, l).threads[t] == s.threads[t];
    }
  }

  /** What a storing call leaves in its context is its own store, which is the last one. */
  lemma StoringOutsLast(s: State, l: Label, i: nat, k: int)
    requires Sound(s) && CallsStored(s) && AllOutsLast(s) && Enabled(s, l) && l.DoStore? && Written(s, l) == Some(i)
    ensures OutsLast(Apply(s, l), i, k)
  {
    var s' := Apply(s, l);
    var th := s.threads[l.t];
    OwnLock(s, l.t);
    StoresGrow(s, l);
    if LastStore(s', k) && s'.stores[k].id == s'.items[i].lock {
      if NewStore(s, l) {
        assert k == |s.stores|;
        assert Running(s', l.t) && s'.threads[l.t] == ThreadAfter(s, l);
      } else {
        assert CallStored(s, l.t);
        var j :| OwnStore(s, l.t, j) && StoreOf(s.stores[j], th) && LastStore(s, j);
        assert j == k;
        assert OutsLast(s, i, k);
      }
    }
  }

  lemma StepOutsLast(s: State, l: Label, i: int, k: int)
    requires Sound(s) && CallsStored(s) && StoresOld(s) && AllOutsLast(s) && Enabled(s, l)
    ensures OutsLast(Apply(s, l), i, k)
  {
    var s' := Apply(s, l);
    if 0 <= i < |s'.items| && LastStore(s', k) && s'.stores[k].id == s'.items[i].lock {
      StoresGrow(s, l);
      if l.DoStore? && Written(s, l) == Some(i) {
        StoringOutsLast(s, l, i, k);
      } else {
        UnstoredOutsLast(s, l, i, k);
      }
    }
  }

  lemma UnstoredOutsLast(s: State, l: Label, i: nat, k: int)
    requires Sound(s) && StoresOld(s) && AllOutsLast(s) && Enabled(s, l) && i < |ItemsAfter(s, l)|
    requires !(l.DoStore? && Written(s, l) == Some(i))
    requires LastStore(Apply(s, l), k) && StoresAfter(s, l)[k].id == ItemsAfter(s, l)[i].lock
    ensures OutsLast(Apply(s, l), i, k)
  {
    StoresGrow(s, l);
    if l.DoStore? {
      OwnLock(s, l.t);
    }
    assert !(Adds(s, l) && i == |s.items|);
    LockBefore(s, l, i);
    OutsUntouched(s, l, i);
    var b := Before(s, l, i);
    assert l.DoStore? ==> s.items[b].lock != s.threads[l.t].id;
    assert OutsLast(s, b, k) && LastStore(s, k);
    if CountPending(s, s.items[b].lock) {
      PendingStays(s, l, s.items[b].lock);
    }
  }

  // ----- the pair

  predicate IsDb(e: Entry, m: nat) {
    e.route == m && e.event.DatabaseEvent?
  }

  /** Position `d` of the history is after the store and before the next one in the context. */
  ghost predicate InWindow(s: State, k: int, d: int)
    requires 0 <= k < |s.stores|
  {
    && s.stores[k].at <= d < |s.history|
    && forall j :: k < j < |s.stores| && s.stores[j].id == s.stores[k].id ==> d < s.stores[j].at
  }

  ghost predicate DbAt(s: State, k: int, d: int)
    requires 0 <= k < |s.stores|
  {
    InWindow(s, k, d) && 0 <= d < |s.history| && IsDb(s.history[d], s.stores[k].id)
  }

  /** Some database was delivered to the context after the store, before the next one. */
  ghost predicate DbInWindow(s: State, k: int)
    requires 0 <= k < |s.stores|
  {
    exists d :: DbAt(s, k, d)
  }

  predicate HoldsServices(s: State, k: int, db: GattDb)
    requires 0 <= k < |s.stores|
  {
    s.stores[k].servicesOut in s.dbMemory && s.dbMemory[s.stores[k].servicesOut] == db
  }

  predicate HoldsCount(s: State, k: int, n: nat)
    requires 0 <= k < |s.stores|
  {
    s.stores[k].countLoc in s.countMemory && s.countMemory[s.stores[k].countLoc] == n
  }

  ghost predicate AnsweredBy(s: State, k: int, d: int)
    requires 0 <= k < |s.stores|
  {
    && DbAt(s, k, d) && (forall e :: d < e ==> !DbAt(s, k, e))
    && HoldsServices(s, k, s.history[d].event.services) && HoldsCount(s, k, s.history[d].event.count)
  }

  /** Both locations of store `k` hold what one callback delivered: the last one that
      came after the store and before the next one in the context. */
  ghost predicate Answered(s: State, k: int)
    requires 0 <= k < |s.stores|
  {
    exists d :: AnsweredBy(s, k, d)
  }

  /** No database had been delivered to the context when the store was made. */
  ghost predicate Fresh(s: State, k: int)
    requires 0 <= k < |s.stores|
  {
    forall d :: 0 <= d < s.stores[k].at && d < |s.history| ==> !IsDb(s.history[d], s.stores[k].id)
  }

  predicate Writing(th: Thread) {
    th.Busy? && th.call.GotDatabase? && (th.pc == WriteCount || th.pc == WriteFlag)
  }

  ghost predicate BeingWritten(s: State, m: nat) {
    exists t :: Running(s, t) && Writing(s.threads[t]) && s.threads[t].id == m
  }

  /** A callback between its first and its last write has already written what comes before. */
  ghost predicate WriterAhead(s: State, t: Tid, k: int) {
    LastStore(s, k) && Running(s, t) && Writing(s.threads[t]) && s.threads[t].id == s.stores[k].id ==>
      && HoldsServices(s, k, s.threads[t].call.services)
      && (s.threads[t].pc == WriteFlag ==> HoldsCount(s, k, s.threads[t].call.count))
  }

  /** A database in the window means a pair, unless a callback is writing a new one or
      has failed half-way. */
  ghost predicate Paired(s: State, k: int) {
    0 <= k < |s.stores| && DbInWindow(s, k) && HasLock(s, s.stores[k].id) ==>
      Answered(s, k) || (LastStore(s, k) && (s.stores[k].id in s.leaked || BeingWritten(s, s.stores[k].id)))
  }

  ghost predicate PairOf(s: State, k: int) {
    Paired(s, k) && forall t :: WriterAhead(s, t, k)
  }

  /** The invariants that do not depend on who shares which location. */
  ghost predicate StoreSound(s: State) {
    Sound(s) && Faithful(s) && OutsPresent(s) && CallsStored(s) && StoresOld(s) && AllOutsLast(s)
  }

  predicate Writes(l: Label) {
    l.DoClone? || l.DoCount?
  }

  lemma WriteStep(s: State, l: Label)
    requires Enabled(s, l) && (Writes(l) || l.DoFlag?)
    ensures Holds(s, l.t) && PastCheck(s.threads[l.t]) && Critical(s.threads[l.t].pc)
  {
  }

  /** While a callback writes, no caller is between its two stores. */
  lemma NothingPending(s: State, t: Tid)
    requires Sound(s) && Running(s, t) && Critical(s.threads[t].pc) && PastCheck(s.threads[t])
    ensures !CountPending(s, s.threads[t].id)
  {
    var m := s.threads[t].id;
    assert InCritical(s, t, m);
    assert forall u :: InCritical(s, u, m) ==> u == t;
    assert forall u :: Running(s, u) && s.threads[u].pc == StoreCount && s.threads[u].id == m ==> InCritical(s, u, m);
  }

  /** The last store of a context, from any store in it. */
  lemma LastOf(s: State, k: int) returns (last: int)
    requires 0 <= k < |s.stores|
    ensures k <= last < |s.stores| && LastStore(s, last) && s.stores[last].id == s.stores[k].id
    decreases |s.stores| - k
  {
    last := k;
    if !LastStore(s, k) {
      var j :| k < j < |s.stores| && s.stores[j].id == s.stores[k].id;
      last := LastOf(s, j);
    }
  }

  /** A callback's writes through its context go to the locations of the context's
      last store and to nobody else's. */
  lemma WritesLastCaller(s: State, t: Tid, k: int)
    requires StoreSound(s) && 0 <= k < |s.stores| && Unshared(s, k)
    requires Holds(s, t) && PastCheck(s.threads[t]) && Critical(s.threads[t].pc)
    ensures var c := s.items[s.threads[t].ptr.index];
            && OutsSet(c) && c.lock == s.threads[t].id
            && (c.dbOut.value == s.stores[k].servicesOut <==> c.lock == s.stores[k].id && LastStore(s, k))
            && (c.countOut.value == s.stores[k].countLoc <==> c.lock == s.stores[k].id && LastStore(s, k))
  {
    assert Denotes(s, s.threads[t]);
    var i := s.threads[t].ptr.index;
    NothingPending(s, t);
    if s.items[i].lock == s.stores[k].id {
      var last := LastOf(s, k);
      assert OutsLast(s, i, last);
    }
  }

  lemma WriterIsCritical(s: State, t: Tid)
    requires Sound(s) && Running(s, t) && Writing(s.threads[t])
    ensures Holds(s, t) && PastCheck(s.threads[t]) && Denotes(s, s.threads[t]) && InCritical(s, t, s.threads[t].id)
  {
    assert FitsPointer(s.threads[t]);
  }

  predicate SameAt<T(==)>(memory: map<Loc, T>, memory': map<Loc, T>, loc: Loc) {
    (loc in memory <==> loc in memory') && (loc in memory ==> memory'[loc] == memory[loc])
  }

  /** Store `k` and what its locations hold stay. */
  ghost predicate KeepsStore(s: State, s': State, k: int) {
    && 0 <= k < |s.stores| <= |s'.stores| && s'.stores[k] == s.stores[k]
    && SameAt(s.dbMemory, s'.dbMemory, s.stores[k].servicesOut)
    && SameAt(s.countMemory, s'.countMemory, s.stores[k].countLoc)
  }

  /** The step is a write of a callback to the locations of store `k`. */
  ghost predicate WritesStore(s: State, l: Label, k: int)
    requires Enabled(s, l) && 0 <= k < |s.stores|
  {
    Writes(l) && s.threads[l.t].id == s.stores[k].id && LastStore(s, k)
  }

  lemma MemoryKept(s: State, l: Label, k: int)
    requires StoreSound(s) && Enabled(s, l) && 0 <= k < |s.stores| && Unshared(s, k) && !WritesStore(s, l, k)
    ensures KeepsStore(s, Apply(s, l), k)
  {
    if Writes(l) {
      WriteStep(s, l);
      WritesLastCaller(s, l.t, k);
    }
    StoresGrow(s, l);
    var st := s.stores[k];
    assert SameAt(s.dbMemory, DbMemoryAfter(s, l), st.servicesOut);
    assert SameAt(s.countMemory, CountMemoryAfter(s, l), st.countLoc);
  }

  /** A store that is the last one after a step was so before, or is new. */
  lemma LastBefore(s: State, l: Label, k: int)
    requires Enabled(s, l) && 0 <= k < |s.stores| && LastStore(Apply(s, l), k)
    ensures LastStore(s, k) && !(NewStore(s, l) && s.threads[l.t].id == s.stores[k].id)
  {
    StoresGrow(s, l);
    assert Apply(s, l).stores == StoresAfter(s, l);
  }

  // ----- a callback's writes, one after the other

  lemma OwnWriterAhead(s: State, l: Label, k: int)
    requires StoreSound(s) && Enabled(s, l) && Writes(l) && LastStore(s, k) && Unshared(s, k)
    requires WriterAhead(s, l.t, k) && s.threads[l.t].id == s.stores[k].id
    ensures WriterAhead(Apply(s, l), l.t, k)
  {
    WriteStep(s, l);
    WritesLastCaller(s, l.t, k);
  }

  /** Two callbacks are never between lock and unlock of the same context. */
  lemma OtherWriterElsewhere(s: State, l: Label, t: Tid)
    requires Sound(s) && Enabled(s, l) && Writes(l) && t != l.t
    requires Running(s, t) && Writing(s.threads[t])
    ensures s.threads[l.t].id != s.threads[t].id
  {
    WriterIsCritical(s, t);
    assert InCritical(s, l.t, s.threads[l.t].id);
  }

  lemma StepWriterAhead(s: State, l: Label, t: Tid, k: int)
    requires StoreSound(s) && Enabled(s, l) && 0 <= k < |s.stores| && Unshared(s, k) && WriterAhead(s, t, k)
    ensures WriterAhead(Apply(s, l), t, k)
  {
    var s' := Apply(s, l);
    StoresGrow(s, l);
    if LastStore(s', k) && Running(s', t) && Writing(s'.threads[t]) && s'.threads[t].id == s'.stores[k].id {
      LastBefore(s, l, k);
      if t == l.t {
        WritingBefore(s, l);
        OwnWriterAhead(s, l, k);
      } else {
        OtherGoesOn(s, l, t);
        assert s'.threads[t] == s.threads[t];
        if Writes(l) {
          OtherWriterElsewhere(s, l, t);
        }
        MemoryKept(s, l, k);
      }
    }
  }

  lemma WritingBefore(s: State, l: Label)
    requires Enabled(s, l) && Writing(ThreadAfter(s, l))
    ensures Writes(l) && ThreadAfter(s, l).id == s.threads[l.t].id && PastCheck(s.threads[l.t])
  {
  }

  /** The entry that a step adds to the history. */
  ghost function NewEntry(s: State, l: Label): Entry
    requires Enabled(s, l) && Delivers(l)
  {
    Entry(s.threads[l.t].id, EventOf(s.threads[l.t].call))
  }

  lemma OnlyFlagsDeliverDatabases(s: State, l: Label)
    requires Enabled(s, l) && Delivers(l)
    ensures NewEntry(s, l).event.DatabaseEvent? <==> l.DoFlag?
  {
  }

  /** The step delivers a database into the window of store `k`. */
  ghost predicate Completes(s: State, l: Label, k: int)
    requires Enabled(s, l) && 0 <= k < |s.stores|
  {
    l.DoFlag? && s.threads[l.t].id == s.stores[k].id && LastStore(s, k)
  }

  /** The databases in the window after a step. */
  lemma WindowAfter(s: State, l: Label, k: int, d: int)
    requires StoresOld(s) && Enabled(s, l) && 0 <= k < |s.stores|
    ensures k < |Apply(s, l).stores| && Apply(s, l).stores[k] == s.stores[k]
    ensures DbAt(Apply(s, l), k, d) <==> DbAt(s, k, d) || (Completes(s, l, k) && d == |s.history|)
  {
    var s' := Apply(s, l);
    StoresGrow(s, l);
    assert s'.stores == StoresAfter(s, l) && s'.history == HistoryAfter(s, l);
    if Delivers(l) {
      OnlyFlagsDeliverDatabases(s, l);
      assert s'.history[|s.history|] == NewEntry(s, l);
    }
  }

  /** The last write of a callback completes the pair. */
  lemma LastWriteAnswers(s: State, l: Label, k: int)
    requires StoreSound(s) && Enabled(s, l) && 0 <= k < |s.stores| && Completes(s, l, k) && WriterAhead(s, l.t, k)
    ensures k < |Apply(s, l).stores| && AnsweredBy(Apply(s, l), k, |s.history|)
  {
    var s' := Apply(s, l);
    forall d ensures DbAt(s', k, d) <==> DbAt(s, k, d) || d == |s.history| {
      WindowAfter(s, l, k, d);
    }
    assert s'.history[|s.history|] == NewEntry(s, l);
  }

  /** A pair stays one while its locations and its window stay. */
  lemma PairOutlives(s: State, s': State, k: int)
    requires 0 <= k < |s.stores| && Answered(s, k) && KeepsStore(s, s', k)
    requires forall d :: DbAt(s', k, d) <==> DbAt(s, k, d)
    requires |s.history| <= |s'.history| && forall d :: 0 <= d < |s.history| ==> s'.history[d] == s.history[d]
    ensures Answered(s', k)
  {
    var d :| AnsweredBy(s, k, d);
    assert AnsweredBy(s', k, d);
  }

  lemma PairKept(s: State, l: Label, k: int)
    requires StoreSound(s) && Enabled(s, l) && 0 <= k < |s.stores| && Unshared(s, k) && Answered(s, k)
    requires !WritesStore(s, l, k) && !Completes(s, l, k)
    ensures k < |Apply(s, l).stores| && Answered(Apply(s, l), k)
  {
    MemoryKept(s, l, k);
    forall d ensures DbAt(Apply(s, l), k, d) <==> DbAt(s, k, d) {
      WindowAfter(s, l, k, d);
    }
    PairOutlives(s, Apply(s, l), k);
  }

  lemma WriterStep(s: State, l: Label)
    requires Enabled(s, l) && Running(s, l.t) && Writing(s.threads[l.t])
    ensures l.DoCount? || l.DoFlag?
  {
  }

  lemma WriterStays(s: State, l: Label, m: nat)
    requires Sound(s) && Enabled(s, l) && BeingWritten(s, m)
    requires !((Writes(l) || l.DoFlag?) && s.threads[l.t].id == m)
    ensures BeingWritten(Apply(s, l), m)
  {
    var t :| Running(s, t) && Writing(s.threads[t]) && s.threads[t].id == m;
    if t == l.t {
      WriterStep(s, l);
    } else {
      OtherThreadKept(s, l, t);
      assert Running(Apply(s, l), t) && Apply(s, l).threads[t] == s.threads[t];
    }
  }

  /** When a call stores, nobody writes to its context and no clone has failed there. */
  lemma StoringIsQuiet(s: State, l: Label)
    requires Sound(s) && Enabled(s, l) && NewStore(s, l)
    ensures s.threads[l.t].id !in s.leaked && !BeingWritten(s, s.threads[l.t].id)
  {
    var m := s.threads[l.t].id;
    assert InCritical(s, l.t, m);
    if BeingWritten(s, m) {
      var t :| Running(s, t) && Writing(s.threads[t]) && s.threads[t].id == m;
      WriterIsCritical(s, t);
    }
  }

  /** An old context was there before. */
  lemma LockWasThere(s: State, l: Label, m: nat)
    requires Enabled(s, l) && m < s.nextLock && HasLock(Apply(s, l), m)
    ensures HasLock(s, m)
  {
    var i :| 0 <= i < |ItemsAfter(s, l)| && ItemsAfter(s, l)[i].lock == m;
    LockBefore(s, l, i);
  }

  lemma StepPaired(s: State, l: Label, k: int)
    requires StoreSound(s) && Enabled(s, l) && 0 <= k < |s.stores| && Unshared(s, k) && PairOf(s, k)
    ensures Paired(Apply(s, l), k)
  {
    var s' := Apply(s, l);
    WindowAfter(s, l, k, 0);
    var m := s.stores[k].id;
    if DbInWindow(s', k) && HasLock(s', m) {
      LockWasThere(s, l, m);
      if WritesStore(s, l, k) || Completes(s, l, k) {
        OwnWriteKeepsPaired(s, l, k);
      } else {
        var d :| DbAt(s', k, d);
        WindowAfter(s, l, k, d);
        OtherStepKeepsPaired(s, l, k);
      }
    }
  }

  lemma OtherStepKeepsPaired(s: State, l: Label, k: int)
    requires StoreSound(s) && Enabled(s, l) && 0 <= k < |s.stores| && Unshared(s, k) && PairOf(s, k)
    requires DbInWindow(s, k) && HasLock(s, s.stores[k].id) && HasLock(Apply(s, l), s.stores[k].id)
    requires !WritesStore(s, l, k) && !Completes(s, l, k)
    ensures Paired(Apply(s, l), k)
  {
    var m := s.stores[k].id;
    StoresGrow(s, l);
    if Answered(s, k) {
      PairKept(s, l, k);
    } else if NewStore(s, l) && s.threads[l.t].id == m {
      StoringIsQuiet(s, l);
    } else {
      assert LastStore(Apply(s, l), k);
      if m in s.leaked {
        StillLeaked(s, l, m);
      } else {
        WriterStays(s, l, m);
      }
    }
  }

  lemma OwnWriteKeepsPaired(s: State, l: Label, k: int)
    requires StoreSound(s) && Enabled(s, l) && 0 <= k < |s.stores| && Unshared(s, k) && PairOf(s, k)
    requires WritesStore(s, l, k) || Completes(s, l, k)
    ensures Paired(Apply(s, l), k)
  {
    var s' := Apply(s, l);
    OwnLock(s, l.t);
    StoresGrow(s, l);
    if l.DoFlag? {
      LastWriteAnswers(s, l, k);
    } else {
      assert LastStore(s', k);
      if l.DoCount? || l.ok {
        assert Running(s', l.t) && Writing(s'.threads[l.t]) && s'.threads[l.t].id == s.stores[k].id;
      }
    }
  }

  lemma StepPairOf(s: State, l: Label, k: int)
    requires StoreSound(s) && Enabled(s, l) && 0 <= k < |s.stores| && Unshared(s, k) && PairOf(s, k)
    ensures PairOf(Apply(s, l), k)
  {
    StepPaired(s, l, k);
    forall t ensures WriterAhead(Apply(s, l), t, k) { StepWriterAhead(s, l, t, k); }
  }

  /** A new store starts without databases and without a callback at work. */
  lemma NewPairOf(s: State, l: Label)
    requires StoreSound(s) && Enabled(s, l) && NewStore(s, l)
    ensures PairOf(Apply(s, l), |s.stores|)
  {
    var s', k := Apply(s, l), |s.stores|;
    StoresGrow(s, l);
    StoringIsQuiet(s, l);
    assert s'.stores == StoresAfter(s, l) && s'.history == s.history;
    forall t ensures WriterAhead(s', t, k) {
      if Running(s', t) && Writing(s'.threads[t]) && s'.threads[t].id == s'.stores[k].id {
        StillWriting(s, l, t);
      }
    }
  }

  lemma StillWriting(s: State, l: Label, t: Tid)
    requires Enabled(s, l) && NewStore(s, l) && Running(Apply(s, l), t) && Writing(Apply(s, l).threads[t])
    ensures BeingWritten(s, Apply(s, l).threads[t].id)
  {
    assert t != l.t;
    OtherGoesOn(s, l, t);
    assert Running(s, t) && Writing(s.threads[t]);
  }

  // ----- over runs

  lemma StepStoreSound(s: State, l: Label)
    requires StoreSound(s) && Enabled(s, l) && Guard(s, l)
    ensures StoreSound(Apply(s, l))
  {
    StepSound(s, l);
    StepFaithful(s, l);
    StepOuts(s, l);
    forall t ensures CallStored(Apply(s, l), t) { StepCallStored(s, l, t); }
    StepStoresOld(s, l);
    forall i, k ensures OutsLast(Apply(s, l), i, k) { StepOutsLast(s, l, i, k); }
  }

  lemma InitStoreSound(s: State)
    requires Init(s)
    ensures StoreSound(s)
  {
  }

  lemma RunStoreSound(r: Run, n: nat)
    requires IsRun(r) && Guarded(r) && n < |r.states|
    ensures StoreSound(r.states[n])
  {
    if n > 0 {
      RunStoreSound(r, n - 1);
      assert StepAt(r, n - 1) && GuardAt(r, n - 1);
      StepStoreSound(r.states[n - 1], r.labels[n - 1]);
    } else {
      InitStoreSound(r.states[0]);
    }
  }

  /** Each store, followed from where it was made. */
  lemma RunPairOf(r: Run, n: nat, k: nat)
    requires IsRun(r) && Guarded(r) && n < |r.states| && UnsharedSince(r, n, k) && k < |r.states[n].stores|
    ensures PairOf(r.states[n], k)
  {
    assert n > 0;
    if k < |r.states[n - 1].stores| {
      RunPairOf(r, n - 1, k);
    }
    NextPairOf(r, n - 1, k);
  }

  lemma NextPairOf(r: Run, n: nat, k: nat)
    requires IsRun(r) && Guarded(r) && n < |r.labels| && k < |r.states[n + 1].stores|
    requires k < |r.states[n].stores| ==> Unshared(r.states[n], k) && PairOf(r.states[n], k)
    ensures PairOf(r.states[n + 1], k)
  {
    assert StepAt(r, n);
    var s, l := r.states[n], r.labels[n];
    RunStoreSound(r, n);
    StoresGrow(s, l);
    if k < |s.stores| {
      StepPairOf(s, l, k);
    } else {
      NewPairOf(s, l);
    }
  }

  // ----- main results: what an OK says about the outputs

  lemma {:induction false} RoutedDb(h: seq<Entry>, m: nat)
    ensures (exists e :: e in Routed(h, m) && e.DatabaseEvent?) <==> (exists d :: 0 <= d < |h| && IsDb(h[d], m))
  {
    if h != [] {
      var g, x := h[..|h| - 1], h[|h| - 1];
      RoutedDb(g, m);
      assert forall d :: 0 <= d < |g| ==> h[d] == g[d];
      if IsDb(x, m) {
        assert Routed(h, m)[|Routed(g, m)|] == x.event;
      } else {
        assert forall e: Event :: e.DatabaseEvent? ==> (e in Routed(h, m) <==> e in Routed(g, m));
      }
    }
  }

  lemma PassedIsAnswered(s: State, t: Tid, k: int)
    requires StoreSound(s) && Running(s, t) && s.threads[t].pc == Passed && s.threads[t].call.GetDatabase?
    requires 0 <= k < |s.stores| && PairOf(s, k) && s.stores[k].id == s.threads[t].id && DbInWindow(s, k)
    ensures Answered(s, k)
  {
    var th := s.threads[t];
    OwnLock(s, t);
    assert FitsPointer(th);
    assert HasLock(s, th.id) && InCritical(s, t, th.id);
    if BeingWritten(s, th.id) {
      var w :| Running(s, w) && Writing(s.threads[w]) && s.threads[w].id == th.id;
      WriterIsCritical(s, w);
    }
  }

  lemma PassedSawDatabase(s: State, t: Tid)
    requires Sound(s) && AllBacked(s) && Running(s, t) && s.threads[t].pc == Passed && s.threads[t].call.GetDatabase?
    ensures exists d :: 0 <= d < |s.history| && IsDb(s.history[d], s.threads[t].id)
  {
    var th := s.threads[t];
    assert Backed(th, s.history);
    var g := s.history[..th.stamp];
    RoutedDb(g, th.id);
    var d :| 0 <= d < |g| && IsDb(g[d], th.id);
    assert s.history[d] == g[d];
  }

  lemma PassedReturns(s: State, t: Tid)
    requires Sound(s) && Running(s, t) && s.threads[t].pc == Passed && s.threads[t].call.GetDatabase?
    ensures Enabled(s, DoRelease(t)) && ReturnedOk(Apply(s, DoRelease(t)), t)
    ensures SameRecord(s, Apply(s, DoRelease(t)))
  {
    OwnLock(s, t);
  }

  predicate SameRecord(s: State, s': State) {
    s'.stores == s.stores && s'.history == s.history && s'.dbMemory == s.dbMemory && s'.countMemory == s.countMemory
  }

  lemma SameAnswers(s: State, s': State, k: int)
    requires 0 <= k < |s.stores| && SameRecord(s, s')
    ensures Answered(s, k) <==> Answered(s', k)
  {
    assert forall d :: DbAt(s, k, d) <==> DbAt(s', k, d);
    assert forall d :: AnsweredBy(s, k, d) <==> AnsweredBy(s', k, d);
  }

  lemma OwnStoreMatches(s: State, t: Tid, k: int)
    requires CallsStored(s) && Running(s, t) && PastStore(s.threads[t]) && OwnStore(s, t, k)
    ensures StoreOf(s.stores[k], s.threads[t])
  {
    assert CallStored(s, t);
    var j :| OwnStore(s, t, j) && StoreOf(s.stores[j], s.threads[t]);
    assert j == k;
  }

  /** The state half of the theorem below. */
  lemma PassedAnswers(s: State, t: Tid, k: int)
    requires StoreSound(s) && AllBacked(s)
    requires Running(s, t) && s.threads[t].pc == Passed && s.threads[t].call.GetDatabase?
    requires OwnStore(s, t, k) && PairOf(s, k)
    ensures StoreOf(s.stores[k], s.threads[t])
    ensures Answered(s, k) <==> DbInWindow(s, k)
    ensures Fresh(s, k) && LastStore(s, k) ==> Answered(s, k)
  {
    OwnStoreMatches(s, t, k);
    if Answered(s, k) {
      AnsweredIsInWindow(s, k);
    }
    if DbInWindow(s, k) {
      PassedIsAnswered(s, t, k);
    }
    if Fresh(s, k) && LastStore(s, k) {
      PassedSawDatabase(s, t);
      var d :| 0 <= d < |s.history| && IsDb(s.history[d], s.threads[t].id);
      assert DbAt(s, k, d);
      PassedIsAnswered(s, t, k);
    }
  }

  /** Whenever the last write of a callback reaches a context, the locations of its last
      caller hold that callback's services and count together. */
  lemma FlagCompletesPair(r: Run, n: nat, k: nat)
    requires IsRun(r) && Guarded(r) && n < |r.labels| && k < |r.states[n].stores| && UnsharedSince(r, n, k)
    requires Enabled(r.states[n], r.labels[n]) && Completes(r.states[n], r.labels[n], k)
    ensures k < |r.states[n + 1].stores| && AnsweredBy(r.states[n + 1], k, |r.states[n].history|)
  {
    assert StepAt(r, n);
    RunStoreSound(r, n);
    RunPairOf(r, n, k);
    LastWriteAnswers(r.states[n], r.labels[n], k);
  }

  lemma AnsweredIsInWindow(s: State, k: int)
    requires 0 <= k < |s.stores| && Answered(s, k)
    ensures DbInWindow(s, k)
  {
    var d :| AnsweredBy(s, k, d);
  }

  /** At the unlock with which `bleGetDatabase` returns OK, and in the state after it,
      the two outputs are services and count of one callback if and only if a database
      reached the context after the call stored its pointers and before another call
      did; it is then the last such database. If there had been no database before
      and no other call has stored since, there was one. All that is asked of the
      caller is that no other context in the array has the call's locations meanwhile;
      earlier calls do not matter, whether they timed out, were refused, or were about
      a context that has been removed, and whatever locations they used. */
  lemma OkIsOnePair(r: Run, n: nat, t: Tid, k: int)
    requires IsRun(r) && Guarded(r) && n < |r.states|
    requires Running(r.states[n], t) && r.states[n].threads[t].pc == Passed && r.states[n].threads[t].call.GetDatabase?
    requires OwnStore(r.states[n], t, k) && UnsharedSince(r, n, k)
    ensures LookedUp(r, n, t)
    ensures var s := r.states[n];
            && StoreOf(s.stores[k], s.threads[t])
            && (Answered(s, k) <==> DbInWindow(s, k))
            && (Fresh(s, k) && LastStore(s, k) ==> Answered(s, k))
            && Enabled(s, DoRelease(t)) && ReturnedOk(Apply(s, DoRelease(t)), t)
            && Apply(s, DoRelease(t)).stores == s.stores
            && (Answered(s, k) <==> Answered(Apply(s, DoRelease(t)), k))
  {
    var s := r.states[n];
    PointerMeansLookedUp(r, n, t);
    RunStoreSound(r, n);
    RunPairOf(r, n, k);
    RunBacked(r, n);
    PassedAnswers(s, t, k);
    PassedReturns(s, t);
    SameAnswers(s, Apply(s, DoRelease(t)), k);
  }

  // ----- what a callback finds in the out-pointers

  /** Until a call stores in the context its out-pointers are not set. */
  ghost predicate UnsetUntilStored(s: State, i: int) {
    0 <= i < |s.items| ==>
      OutsUnset(s.items[i]) || exists k :: 0 <= k < |s.stores| && s.stores[k].id == s.items[i].lock
  }

  predicate OutsUnset(c: DeviceContext) {
    c.dbOut.None? && c.countOut.None?
  }

  lemma StepUnset(s: State, l: Label, i: int)
    requires Sound(s) && CallsStored(s) && Enabled(s, l)
    requires forall j :: UnsetUntilStored(s, j)
    ensures UnsetUntilStored(Apply(s, l), i)
  {
    var s' := Apply(s, l);
    if 0 <= i < |s'.items| && !(Adds(s, l) && i == |s.items|) {
      StoresGrow(s, l);
      LockBefore(s, l, i);
      assert UnsetUntilStored(s, Before(s, l, i));
      if l.DoStore? && Written(s, l) == Some(i) {
        StoredHere(s, l, i);
      } else {
        OutsUntouched(s, l, i);
        if k :| 0 <= k < |s.stores| && s.stores[k].id == s.items[Before(s, l, i)].lock {
          assert s'.stores[k] == s.stores[k];
        }
      }
    }
  }

  lemma StoredHere(s: State, l: Label, i: nat)
    requires Sound(s) && CallsStored(s) && Enabled(s, l) && l.DoStore? && Written(s, l) == Some(i)
    ensures i < |Apply(s, l).items|
    ensures exists k :: 0 <= k < |Apply(s, l).stores| && Apply(s, l).stores[k].id == Apply(s, l).items[i].lock
  {
    var s', th := Apply(s, l), s.threads[l.t];
    OwnLock(s, l.t);
    StoresGrow(s, l);
    if NewStore(s, l) {
      assert s'.stores[|s.stores|].id == s'.items[i].lock;
    } else {
      assert CallStored(s, l.t);
      var j :| OwnStore(s, l.t, j) && StoreOf(s.stores[j], th);
      assert s'.stores[j] == s.stores[j];
    }
  }

  lemma RunUnset(r: Run, n: nat)
    requires IsRun(r) && Guarded(r) && n < |r.states|
    ensures forall i :: UnsetUntilStored(r.states[n], i)
  {
    if n > 0 {
      RunUnset(r, n - 1);
      RunStoreSound(r, n - 1);
      assert StepAt(r, n - 1);
      forall i ensures UnsetUntilStored(r.states[n], i) {
        StepUnset(r.states[n - 1], r.labels[n - 1], i);
      }
    }
  }

  /** Over any run, a context's out-pointers are those of the last call that stored there
      (while that call is between its two stores, the second one may still be older),
      and they are not set if none has. */
  lemma OutsAreLastStored(r: Run, n: nat, i: nat)
    requires IsRun(r) && Guarded(r) && n < |r.states| && i < |r.states[n].items|
    ensures var s, c := r.states[n], r.states[n].items[i];
            || (OutsUnset(c) && forall k :: 0 <= k < |s.stores| ==> s.stores[k].id != c.lock)
            || exists k :: LastStoreIn(s, c, k)
  {
    var s, c := r.states[n], r.states[n].items[i];
    RunStoreSound(r, n);
    RunUnset(r, n);
    assert UnsetUntilStored(s, i);
    if k :| 0 <= k < |s.stores| && s.stores[k].id == c.lock {
      var last := LatestStore(s, c.lock, k);
      assert OutsLast(s, i, last);
      assert LastStoreIn(s, c, last);
    }
  }

  ghost predicate LastStoreIn(s: State, c: DeviceContext, k: int) {
    && LastStore(s, k) && s.stores[k].id == c.lock
    && c.dbOut == Some(s.stores[k].servicesOut)
    && (c.countOut == Some(s.stores[k].countLoc) || CountPending(s, c.lock))
  }

  lemma LatestStore(s: State, m: nat, k: nat) returns (last: nat)
    requires k < |s.stores| && s.stores[k].id == m
    ensures LastStore(s, last) && s.stores[last].id == m
    decreases |s.stores| - k
  {
    last := k;
    if j :| k < j < |s.stores| && s.stores[j].id == m {
      last := LatestStore(s, m, j);
    }
  }

  // ----- the flag is never reset: exactly when an OK may mean nothing

  /** A `bleGetDatabase` that took its context's mutex to store with the flag clear. */
  ghost predicate FreshCall(s: State, t: Tid) {
    && t in s.threads && s.threads[t].call.GetDatabase?
    && (s.threads[t].Busy? && s.threads[t].pc == StoreServices ==>
          Live(s, s.threads[t].ptr) && !Flag(s, s.threads[t]))
    && (s.threads[t].Busy? && s.threads[t].pc != StoreServices ==>
          PastStore(s.threads[t]) && exists k :: OwnStore(s, t, k) && Fresh(s, k))
  }

  lemma FreshKept(s: State, l: Label, k: int)
    requires StoresOld(s) && Enabled(s, l) && 0 <= k < |s.stores| && Fresh(s, k)
    ensures k < |StoresAfter(s, l)| && Fresh(Apply(s, l), k)
  {
    StoresGrow(s, l);
    assert forall d :: 0 <= d < |s.history| ==> HistoryAfter(s, l)[d] == s.history[d];
  }

  lemma OwnStoreKept(s: State, l: Label, t: Tid, k: int)
    requires Enabled(s, l) && OwnStore(s, t, k) && !(NewStore(s, l) && l.t == t)
    ensures OwnStore(Apply(s, l), t, k)
  {
    StoresGrow(s, l);
  }

  /** Storing with the flag clear is storing before any database. */
  lemma StoresFresh(s: State, l: Label)
    requires Sound(s) && Faithful(s) && Enabled(s, l) && NewStore(s, l)
    requires Live(s, s.threads[l.t].ptr) && !Flag(s, s.threads[l.t])
    ensures OwnStore(Apply(s, l), l.t, |s.stores|) && Fresh(Apply(s, l), |s.stores|)
  {
    var th := s.threads[l.t];
    StoresGrow(s, l);
    OwnLock(s, l.t);
    RoutedDb(s.history, th.id);
    assert ReflectsRest(s.items[th.ptr.index], Routed(s.history, th.id));
    assert Apply(s, l).history == s.history;
  }

  lemma OwnFreshCall(s: State, l: Label)
    requires StoreSound(s) && FreshCall(s, l.t) && Enabled(s, l) && !l.DoBegin?
    ensures FreshCall(Apply(s, l), l.t)
  {
    var s', t := Apply(s, l), l.t;
    assert FitsCall(s.threads[t].call, s.threads[t].pc);
    OwnCallGoesOn(s, l);
    assert s'.threads[t] == ThreadAfter(s, l);
    if NewStore(s, l) {
      StoresFresh(s, l);
    } else {
      var k :| OwnStore(s, t, k) && Fresh(s, k);
      OwnStoreKept(s, l, t, k);
      FreshKept(s, l, k);
    }
  }

  lemma OwnCallGoesOn(s: State, l: Label)
    requires Typed(s) && Running(s, l.t) && Enabled(s, l) && !l.DoBegin?
    requires s.threads[l.t].pc == StoreServices || PastStore(s.threads[l.t])
    requires s.threads[l.t].call.GetDatabase?
    ensures ThreadAfter(s, l).call == s.threads[l.t].call
    ensures ThreadAfter(s, l).Busy? ==> PastStore(ThreadAfter(s, l))
    ensures s.threads[l.t].pc == StoreServices ==> NewStore(s, l)
  {
    assert FitsCall(s.threads[l.t].call, s.threads[l.t].pc);
  }

  lemma StepFreshCall(s: State, l: Label, t: Tid)
    requires StoreSound(s) && FreshCall(s, t) && Enabled(s, l) && Guard(s, l) && !(l.DoBegin? && l.t == t)
    ensures FreshCall(Apply(s, l), t)
  {
    if t == l.t {
      OwnFreshCall(s, l);
    } else {
      OtherFreshCall(s, l, t);
    }
  }

  lemma OtherFreshCall(s: State, l: Label, t: Tid)
    requires StoreSound(s) && FreshCall(s, t) && Enabled(s, l) && Guard(s, l) && l.t != t
    ensures FreshCall(Apply(s, l), t)
  {
    var s' := Apply(s, l);
    OtherGoesOn(s, l, t);
    var th := s.threads[t];
    if th.Busy? && th.pc == StoreServices {
      FlagStaysClear(s, l, t);
    } else if th.Busy? {
      var k :| OwnStore(s, t, k) && Fresh(s, k);
      OwnStoreKept(s, l, t, k);
      FreshKept(s, l, k);
    }
  }

  /** While a call holds the mutex to store, nobody sets its flag. */
  lemma FlagStaysClear(s: State, l: Label, t: Tid)
    requires Sound(s) && Enabled(s, l) && Guard(s, l) && l.t != t
    requires Running(s, t) && s.threads[t].pc == StoreServices && Live(s, s.threads[t].ptr) && !Flag(s, s.threads[t])
    requires t in ThreadsAfter(s, l) && ThreadsAfter(s, l)[t] == s.threads[t]
    ensures Live(Apply(s, l), s.threads[t].ptr) && !Flag(Apply(s, l), s.threads[t])
  {
    StepSound(s, l);
    OwnLock(Apply(s, l), t);
    FlagRaised(s, l, t);
    if Raises(l) {
      BothCritical(s, l.t, t);
    }
  }

  /** In run `q`, which goes on from `r`, the call of thread `t` returns OK as the last
      step, no other call has stored in its context, and yet its outputs are not a
      pair delivered since it stored its pointers. */
  ghost predicate ReturnsUnanswered(q: Run, r: Run, t: Tid, k: int)
    requires IsRun(r)
  {
    && Good(q) && Extends(q, r) && |r.labels| < |q.labels|
    && (forall n :: |r.labels| <= n < |q.labels| ==> !(q.labels[n].DoBegin? && q.labels[n].t == t))
    && q.labels[|q.labels| - 1] == DoRelease(t) && ReturnedOk(Last(q), t)
    && OwnStore(Last(q), t, k) && LastStore(Last(q), k) && UnsharedSince(q, |q.labels|, k) && !Answered(Last(q), k)
  }

  lemma FreshThroughout(q: Run, r: Run, t: Tid, n: nat)
    requires Good(r) && Good(q) && Extends(q, r) && |r.labels| <= n < |q.states|
    requires forall j :: |r.labels| <= j < n ==> !(q.labels[j].DoBegin? && q.labels[j].t == t)
    requires FreshCall(Last(r), t)
    ensures FreshCall(q.states[n], t)
    decreases n
  {
    if n > |r.labels| {
      FreshThroughout(q, r, t, n - 1);
      NextFreshCall(q, n - 1, t);
    }
  }

  lemma NextFreshCall(q: Run, n: nat, t: Tid)
    requires Good(q) && n < |q.labels| && FreshCall(q.states[n], t) && !(q.labels[n].DoBegin? && q.labels[n].t == t)
    ensures FreshCall(q.states[n + 1], t)
  {
    RunStoreSound(q, n);
    assert StepAt(q, n) && GuardAt(q, n);
    StepFreshCall(q.states[n], q.labels[n], t);
  }

  lemma FreshOkIsAnswered(q: Run, r: Run, t: Tid, k: int)
    requires Good(r) && FreshCall(Last(r), t)
    ensures !ReturnsUnanswered(q, r, t, k)
  {
    if ReturnsUnanswered(q, r, t, k) {
      var n := |q.labels| - 1;
      FreshThroughout(q, r, t, n);
      RunSound(q, n);
      FinalRelease(q, t);
      FreshReleaseAnswered(q, n, t, k);
    }
  }

  lemma FinalRelease(q: Run, t: Tid)
    requires IsRun(q) && |q.labels| > 0 && q.labels[|q.labels| - 1] == DoRelease(t)
    ensures var s := q.states[|q.labels| - 1]; Enabled(s, DoRelease(t)) && Last(q) == Apply(s, DoRelease(t))
  {
    assert StepAt(q, |q.labels| - 1);
  }

  lemma FreshReleaseAnswered(q: Run, n: nat, t: Tid, k: int)
    requires Good(q) && n < |q.states| && Sound(q.states[n]) && Enabled(q.states[n], DoRelease(t)) &&
             FreshCall(q.states[n], t)
    requires var s' := Apply(q.states[n], DoRelease(t)); ReturnedOk(s', t) && OwnStore(s', t, k) && LastStore(s', k)
    requires UnsharedSince(q, n, k)
    ensures Answered(Apply(q.states[n], DoRelease(t)), k)
  {
    var s := q.states[n];
    ReleasedOk(s, t);
    var j :| OwnStore(s, t, j) && Fresh(s, j);
    assert j == k;
    OkIsOnePair(q, n, t, k);
  }

  lemma ReleasedOk(s: State, t: Tid)
    requires Typed(s) && Enabled(s, DoRelease(t)) && s.threads[t].call.GetDatabase? &&
             ReturnedOk(Apply(s, DoRelease(t)), t)
    ensures s.threads[t].pc == Passed && Apply(s, DoRelease(t)).stores == s.stores
  {
    assert FitsCall(s.threads[t].call, s.threads[t].pc);
  }

  lemma StoringHoldsPointer(r: Run, t: Tid)
    requires Good(r) && At(Last(r), t, StoreServices) && Last(r).threads[t].call.GetDatabase?
    ensures Holds(Last(r), t) && Denotes(Last(r), Last(r).threads[t])
  {
    RunSound(r, |r.labels|);
    OwnLock(Last(r), t);
    assert FitsPointer(Last(r).threads[t]);
  }

  /** The call stores, requests, waits and returns, all by itself. */
  lemma GoesThrough(r: Run, t: Tid, i: nat) returns (q: Run)
    requires Good(r) && Waiting(Last(r), t, StoreServices, i) && Last(r).threads[t].call.GetDatabase?
    requires Flag(Last(r), Last(r).threads[t])
    ensures Later(q, r, t) && |r.labels| < |q.labels| && q.labels[|q.labels| - 1] == DoRelease(t) &&
            ReturnedOk(Last(q), t)
    ensures OnlyContext(q, r, i)
    ensures var s, th := Last(r), Last(r).threads[t];
            && Last(q).stores == s.stores + [Store(t, th.id, th.call.servicesOut, th.call.countLoc, |s.history|)]
            && Last(q).history == s.history && Last(q).dbMemory == s.dbMemory && Last(q).countMemory == s.countMemory
  {
    var p := StoresAndRequests(r, t, i, Ok, r, t);
    q := WaitPasses(p, t, i, r);
    OnlyContextTrans(q, p, r, i);
  }

  /** A store with nothing delivered since is the last one and unanswered. */
  lemma NothingSince(s: State, s': State, t: Tid)
    requires Running(s, t) && s.threads[t].call.GetDatabase? && s'.history == s.history
    requires var th := s.threads[t];
             s'.stores == s.stores + [Store(t, th.id, th.call.servicesOut, th.call.countLoc, |s.history|)]
    ensures var k := |s.stores|;
            OwnStore(s', t, k) && LastStore(s', k) && !Answered(s', k) && StoreOf(s'.stores[k], s.threads[t])
  {
    if Answered(s', |s.stores|) { AnsweredIsInWindow(s', |s.stores|); }
  }

  lemma StoresOnlyGrow(q: Run, n: nat, m: nat)
    requires IsRun(q) && n <= m < |q.states|
    ensures q.states[n].stores <= q.states[m].stores
    decreases m - n
  {
    if n < m {
      StoresOnlyGrow(q, n, m - 1);
      assert StepAt(q, m - 1);
      StoresGrow(q.states[m - 1], q.labels[m - 1]);
    }
  }

  /** While the call steps alone, the other contexts keep their pointers. */
  lemma AloneUnshared(q: Run, r: Run, t: Tid, i: nat)
    requires IsRun(r) && IsRun(q) && Extends(q, r) && OnlyContext(q, r, i) && i < |Last(r).items|
    requires Running(Last(r), t) && Last(r).threads[t].call.GetDatabase? &&
             Last(r).items[i].lock == Last(r).threads[t].id
    requires var th := Last(r).threads[t]; ElsewhereFree(Last(r), th.id, th.call.servicesOut, th.call.countLoc)
    requires |Last(q).stores| == |Last(r).stores| + 1 && StoreOf(Last(q).stores[|Last(r).stores|], Last(r).threads[t])
    ensures UnsharedSince(q, |q.labels|, |Last(r).stores|)
  {
    var k := |Last(r).stores|;
    forall m | 0 <= m <= |q.labels| && k < |q.states[m].stores| ensures Unshared(q.states[m], k) {
      StoresOnlyGrow(q, m, |q.labels|);
      FewStoresBefore(q, r, m);
      assert SameBut(Last(r).items, q.states[m].items, i);
    }
  }

  lemma FewStoresBefore(q: Run, r: Run, m: nat)
    requires IsRun(r) && IsRun(q) && Extends(q, r) && m < |q.states|
    ensures m < |r.states| ==> |q.states[m].stores| <= |Last(r).stores|
  {
    if m < |r.states| {
      StoresOnlyGrow(q, m, |r.labels|);
      assert q.states[|r.labels|] == Last(r);
    }
  }

  lemma StaleAlone(r: Run, t: Tid) returns (q: Run)
    requires Good(r) && At(Last(r), t, StoreServices) && Last(r).threads[t].call.GetDatabase?
    requires var th := Last(r).threads[t]; ElsewhereFree(Last(r), th.id, th.call.servicesOut, th.call.countLoc)
    requires Flag(Last(r), Last(r).threads[t])
    ensures ReturnsUnanswered(q, r, t, |Last(r).stores|) &&
            StoreOf(Last(q).stores[|Last(r).stores|], Last(r).threads[t])
    ensures Last(q).dbMemory == Last(r).dbMemory && Last(q).countMemory == Last(r).countMemory
  {
    StoringHoldsPointer(r, t);
    var i := Last(r).threads[t].ptr.index;
    q := GoesThrough(r, t, i);
    NothingSince(Last(r), Last(q), t);
    AloneUnshared(q, r, t, i);
  }

  /** Whatever the other threads and the callbacks do, short of another call storing
      in the same context or of these locations in another one, an OK certifies a pair
      delivered since the call stored its pointers if and only if the flag was clear
      when the call had taken the mutex to store them. */
  lemma StaleOkIffFlagSet(r: Run, t: Tid)
    requires Good(r) && At(Last(r), t, StoreServices) && Last(r).threads[t].call.GetDatabase?
    requires var th := Last(r).threads[t]; ElsewhereFree(Last(r), th.id, th.call.servicesOut, th.call.countLoc)
    ensures LookedUp(r, |r.labels|, t)
    ensures (exists q, k :: ReturnsUnanswered(q, r, t, k)) <==> Flag(Last(r), Last(r).threads[t])
  {
    PointerMeansLookedUp(r, |r.labels|, t);
    if Flag(Last(r), Last(r).threads[t]) {
      var q := StaleAlone(r, t);
    } else {
      forall q, k ensures !ReturnsUnanswered(q, r, t, k) {
        FreshOkIsAnswered(q, r, t, k);
      }
    }
  }
}
