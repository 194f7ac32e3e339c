/** The text of every API call and callback, and that the threads of a run follow it:
    the step system has one program counter for all calls, while the source has a
    structured program for each. */
module Programs {
  import opened Types
  import opened Gatt
  import opened DeviceContexts
  import opened Protocol
  import opened PointerStability
  import opened LockDiscipline
  import opened NewContexts

  // ----- program texts

  datatype FlagName = IsConnected | IsDisconnected | IsDiscovered | IsRetrieved | IsRegistered

  /** An assignment to a field of the context at hand, or to a callback variable. */
  datatype Assignment =
    | ToAddress(a: Address)
    | ToDbOut(loc: Loc)
    | ToCountOut(loc: Loc)
    | ToConnected(value: bool)
    | ToDisconnected(value: bool)
    | ToHandle(h: Handle)
    | ToDiscovered
    | ToRetrieved
    | ToVar(name: Var, value: bool)
    | ToNothing

  /** A program as its first statement and the rest. `Sleeping` is where a program
      stands inside `pthread_cond_timedwait`. */
  datatype Program =
    | Return(status: Status)
    | Enter(next: Program)
    | UnlessRegistered(next: Program)
    | FindByHandle(h: Handle, missing: Program, next: Program)
    | FindByAddress(a: Address, missing: Program, next: Program)
    | NewContext(next: Program)
    | Ask(next: Program)
    | Lock(next: Program)
    | Unlock(next: Program)
    | Assign(what: Assignment, next: Program)
    | While(flag: FlagName, next: Program)
    | Sleeping(timedOut: bool, flag: FlagName, next: Program)
    | FetchHandle(next: Program)
    | Remove(h: Handle, next: Program)
    | NeedOuts(missing: Program, next: Program)
    | CloneOut(failed: Program, next: Program)
    | CountOut(next: Program)
    | Signal(next: Program)
    | Application(next: Program)

  /** `waitForCondition`: an error ends the call that waits. */
  function WaitForCondition(flag: FlagName, next: Program): Program {
    Lock(While(flag, Unlock(next)))
  }

  /** `setCallbackVariable` */
  function SetVariable(what: Assignment, next: Program): Program {
    Lock(Assign(what, Signal(Unlock(next))))
  }

  function LinkFields(link: Link, h: Handle, next: Program): Program {
    match link
    case Connected => Assign(ToConnected(true), Assign(ToDisconnected(false), Assign(ToHandle(h), next)))
    case Disconnected => Assign(ToConnected(false), Assign(ToDisconnected(true), next))
    case OtherLink => Assign(ToNothing, next)
  }

  function TextOf(call: Call): Program {
    match call
    case Connect(a) =>
      NewContext(Assign(ToAddress(a), Ask(WaitForCondition(IsConnected,
        Lock(FetchHandle(Unlock(Return(Ok))))))))
    case Disconnect(h) =>
      FindByHandle(h, Return(Uninitialized), Ask(WaitForCondition(IsDisconnected, Remove(h, Return(Ok)))))
    case Discover(h) =>
      FindByHandle(h, Return(Uninitialized), Ask(WaitForCondition(IsDiscovered, Return(Ok))))
    case GetDatabase(h, servicesOut, countLoc) =>
      FindByHandle(h, Return(Uninitialized),
        Lock(Assign(ToDbOut(servicesOut), Assign(ToCountOut(countLoc), Unlock(
          Ask(WaitForCondition(IsRetrieved, Return(Ok))))))))
    case Register => UnlessRegistered(Ask(WaitForCondition(IsRegistered, Return(Ok))))
    case Deregister => Enter(Ask(SetVariable(ToVar(BleRegistered, false), Return(Ok))))
    case LinkChanged(link, success, h, a) =>
      FindByAddress(a, Return(Ok),
        if success then Lock(LinkFields(link, h, Signal(Unlock(Return(Ok))))) else Return(Ok))
    case ServicesDiscovered(h, success) =>
      var end := Application(Return(Ok));
      FindByHandle(h, end, if success then SetVariable(ToDiscovered, end) else end)
    case GotDatabase(h, _, _) =>
      var end := Application(Return(Ok));
      FindByHandle(h, end, NeedOuts(end, Lock(CloneOut(end, CountOut(
        Assign(ToRetrieved, Signal(Unlock(end))))))))
    case VarCallback(name, applies, value) =>
      Enter(if applies then SetVariable(ToVar(name, value), Return(Ok)) else Return(Ok))
  }

  // ----- what a thread does, as seen from outside

  /** What is behind a pointer: a context, or the callback variables. */
  datatype View = OfContext(context: DeviceContext) | OfVars(vars: Vars)

  /** One access of a thread to shared state. `id` is the mutex of what is accessed. */
  datatype Act =
    | Enters
    | Looks(items: seq<DeviceContext>)
    | Adds(before: seq<DeviceContext>, after: seq<DeviceContext>)
    | Asks(answer: Status)
    | Locks(id: nat)
    | Unlocks(id: nat)
    | Sees(id: nat, view: View)
    | Changes(id: nat, before_: View, after_: View)
    | Wakes(timeout: bool)
    | Removes(before: seq<DeviceContext>, after: seq<DeviceContext>)
    | Clones(id: nat, cloned: bool)
    | Counts(id: nat)
    | Signals(id: nat)
    | CallsApplication

  function ViewAt(items: seq<DeviceContext>, vars: Vars, p: Ptr): View
    requires p.Slot? ==> p.index < |items|
  {
    if p.Globals? then OfVars(vars) else OfContext(items[p.index])
  }

  /** What the thread can see through its pointer, before and after the step. */
  ghost function Before(s: State, l: Label): View
    requires Enabled(s, l) && Running(s, l.t) && Live(s, s.threads[l.t].ptr)
  {
    ViewAt(s.items, s.vars, s.threads[l.t].ptr)
  }

  predicate Writing(l: Label) {
    l.DoCopy? || l.DoStore? || l.DoField? || Delivers(l)
  }

  ghost function After(s: State, l: Label): View
    requires Enabled(s, l) && Writing(l)
  {
    ViewAt(ItemsAfter(s, l), Apply(s, l).vars, s.threads[l.t].ptr)
  }

  ghost function FirstAct(s: State, th: Thread, items': seq<DeviceContext>): Act {
    if th.call.Connect? then Adds(s.items, items')
    else if th.call.Register? then Sees(0, OfVars(s.vars))
    else if OnContext(th.call) then Looks(s.items)
    else Enters
  }

  ghost function ActOf(s: State, l: Label): Act
    requires Enabled(s, l) && !l.DoBegin?
  {
    var th := s.threads[l.t];
    if l.DoStart? then FirstAct(s, th, ItemsAfter(s, l))
    else if l.DoRequest? then Asks(l.status)
    else if l.DoWake? then Wakes(l.timedOut)
    else if l.DoRemove? then Removes(s.items, ItemsAfter(s, l))
    else if l.DoApp? then CallsApplication
    else
      var id := LockAt(s, th.ptr);
      if l.DoAcquire? then Locks(id)
      else if l.DoRelease? then Unlocks(id)
      else if l.DoTest? || l.DoRead? || l.DoCheckOuts? then Sees(id, Before(s, l))
      else if l.DoClone? then Clones(id, l.ok)
      else if l.DoCount? then Counts(id)
      else if l.DoSignal? then Signals(id)
      else Changes(id, Before(s, l), After(s, l))
  }

  /** What thread `t` has done in its latest call, up to state `k`. */
  ghost function Acts(r: Run, k: nat, t: Tid): seq<Act>
    requires IsRun(r) && k < |r.states|
  {
    if k == 0 then []
    else
      var l := r.labels[k - 1];
      assert StepAt(r, k - 1);
      if l.t != t then Acts(r, k - 1, t)
      else if l.DoBegin? then []
      else Acts(r, k - 1, t) + [ActOf(r.states[k - 1], l)]
  }

  // ----- executing a program text

  /** Where an execution stands: what is left to do, the context it is about, and the
      handle read so far. */
  datatype Standing = Standing(rest: Program, id: nat, got: Handle)

  predicate Raised(flag: FlagName, v: View) {
    match v
    case OfVars(vars) => flag.IsRegistered? && vars.registered
    case OfContext(c) =>
      match flag
      case IsConnected => c.connected
      case IsDisconnected => c.disconnected
      case IsDiscovered => c.discovered
      case IsRetrieved => c.retrieved
      case IsRegistered => false
  }

  function Assigned(what: Assignment, v: View): View {
    match v
    case OfVars(vars) =>
      (match what
       case ToVar(BtEnabled, b) => OfVars(vars.(btEnabled := b))
       case ToVar(BleRegistered, b) => OfVars(vars.(registered := b))
       case ToVar(MtuSet, b) => OfVars(vars.(mtuSet := b))
       case _ => v)
    case OfContext(c) =>
      match what
      case ToAddress(a) => OfContext(c.(address := a))
      case ToDbOut(loc) => OfContext(c.(dbOut := Some(loc)))
      case ToCountOut(loc) => OfContext(c.(countOut := Some(loc)))
      case ToConnected(b) => OfContext(c.(connected := b))
      case ToDisconnected(b) => OfContext(c.(disconnected := b))
      case ToHandle(h) => OfContext(c.(handle := h))
      case ToDiscovered => OfContext(c.(discovered := true))
      case ToRetrieved => OfContext(c.(retrieved := true))
      case _ => v
  }

  function Went(c: Standing, found: Option<nat>, items: seq<DeviceContext>): Standing
    requires c.rest.FindByHandle? || c.rest.FindByAddress?
    requires found.Some? ==> found.value < |items|
  {
    match found
    case None => c.(rest := c.rest.missing)
    case Some(i) => c.(rest := c.rest.next, id := items[i].lock)
  }

  /** The first statement of the program executed as that act, if it can be. */
  function Execute(c: Standing, a: Act): Option<Standing> {
    match c.rest
    case Return(_) => None
    case Enter(next) => if a.Enters? then Some(c.(rest := next)) else None
    case UnlessRegistered(next) =>
      if a.Sees? && a.view.OfVars? then Some(c.(rest := if a.view.vars.registered then Return(Ok) else next)) else None
    case FindByHandle(h, _, _) => if a.Looks? then Some(Went(c, FirstByHandle(a.items, h), a.items)) else None
    case FindByAddress(x, _, _) => if a.Looks? then Some(Went(c, FirstByAddress(a.items, x), a.items)) else None
    case NewContext(next) =>
      if a.Adds? && |a.after| == |a.before| + 1 && a.after == a.before + [Zeroed(a.after[|a.before|].lock)]
      then Some(c.(rest := next, id := a.after[|a.before|].lock)) else None
    case Ask(next) => if a.Asks? then Some(c.(rest := if a.answer == Ok then next else Return(a.answer))) else None
    case Lock(next) => if a == Locks(c.id) then Some(c.(rest := next)) else None
    case Unlock(next) => if a == Unlocks(c.id) then Some(c.(rest := next)) else None
    case Assign(what, next) =>
      if a.Changes? && a.id == c.id && a.after_ == Assigned(what, a.before_) then Some(c.(rest := next)) else None
    case While(flag, next) =>
      if a.Sees? && a.id == c.id
      then Some(c.(rest := if Raised(flag, a.view) then next else Sleeping(false, flag, next))) else None
    case Sleeping(timedOut, flag, next) =>
      if a.Wakes? && !timedOut then Some(c.(rest := Sleeping(a.timeout, flag, next)))
      else if a == Locks(c.id) then Some(c.(rest := if timedOut then Unlock(Return(Timeout)) else While(flag, next)))
      else None
    case FetchHandle(next) =>
      if a.Sees? && a.id == c.id && a.view.OfContext? then Some(c.(rest := next, got := a.view.context.handle))
         else None
    case Remove(h, next) =>
      if a.Removes? && a.after == Removed(a.before, h) then Some(c.(rest := next)) else None
    case NeedOuts(missing, next) =>
      if a.Sees? && a.id == c.id && a.view.OfContext?
      then Some(c.(rest := if OutsSet(a.view.context) then next else missing)) else None
    case CloneOut(failed, next) =>
      if a.Clones? && a.id == c.id then Some(c.(rest := if a.cloned then next else failed)) else None
    case CountOut(next) => if a == Counts(c.id) then Some(c.(rest := next)) else None
    case Signal(next) => if a == Signals(c.id) then Some(c.(rest := next)) else None
    case Application(next) => if a.CallsApplication? then Some(c.(rest := next)) else None
  }

  function Removed(items: seq<DeviceContext>, h: Handle): seq<DeviceContext> {
    match FirstByHandle(items, h)
    case None => items
    case Some(i) => items[..i] + items[i + 1..]
  }

  /** The acts one after the other. */
  function Executed(c: Standing, acts: seq<Act>): Option<Standing> {
    if acts == [] then Some(c)
    else
      match Executed(c, acts[..|acts| - 1])
      case None => None
      case Some(d) => Execute(d, acts[|acts| - 1])
  }

  function Begun(call: Call): Standing {
    Standing(TextOf(call), 0, NULL_HANDLE)
  }

  // ----- where each program point stands in the text

  function FlagFor(call: Call): FlagName {
    match call
    case Connect(_) => IsConnected
    case Disconnect(_) => IsDisconnected
    case Discover(_) => IsDiscovered
    case GetDatabase(_, _, _) => IsRetrieved
    case _ => IsRegistered
  }

  function AfterWait(call: Call): Program {
    match call
    case Connect(_) => Lock(FetchHandle(Unlock(Return(Ok))))
    case Disconnect(h) => Remove(h, Return(Ok))
    case _ => Return(Ok)
  }

  function End(call: Call): Program {
    if call.ServicesDiscovered? || call.GotDatabase? then Application(Return(Ok)) else Return(Ok)
  }

  /** What a callback, or `bleDeregister`, does under the mutex. */
  function Body(call: Call): Program {
    var last := Signal(Unlock(End(call)));
    match call
    case LinkChanged(link, _, h, _) => LinkFields(link, h, last)
    case ServicesDiscovered(_, _) => Assign(ToDiscovered, last)
    case GotDatabase(_, _, _) => CloneOut(End(call), CountOut(Assign(ToRetrieved, last)))
    case VarCallback(name, _, value) => Assign(ToVar(name, value), last)
    case _ => Assign(ToVar(BleRegistered, false), last)
  }

  function Then(p: Program): Program {
    if p.Return? then p else p.next
  }

  function Stores(call: Call): Program
    requires call.GetDatabase?
  {
    Assign(ToDbOut(call.servicesOut), Assign(ToCountOut(call.countLoc), Unlock(Requests(call))))
  }

  function Requests(call: Call): Program {
    Ask(if call.Deregister? then Lock(Body(call)) else WaitForCondition(FlagFor(call), AfterWait(call)))
  }

  function RestAt(call: Call, pc: Pc): Program
    requires FitsCall(call, pc)
  {
    var flag, tail := FlagFor(call), AfterWait(call);
    match pc
    case Start => TextOf(call)
    case CopyAddress => Assign(ToAddress(call.address), Requests(call))
    case StoreLock => Lock(Stores(call))
    case StoreServices => Stores(call)
    case StoreCount => Then(Stores(call))
    case StoreUnlock => Then(Then(Stores(call)))
    case Request => Requests(call)
    case WaitLock => WaitForCondition(flag, tail)
    case Test => While(flag, Unlock(tail))
    case Blocked(_) => Sleeping(false, flag, Unlock(tail))
    case Relock(timedOut) => Sleeping(timedOut, flag, Unlock(tail))
    case Passed => Unlock(tail)
    case Expired => Unlock(Return(Timeout))
    case ReadLock => tail
    case ReadHandle => Then(tail)
    case ReadUnlock(_) => Then(Then(tail))
    case RemoveEntry => tail
    case CheckOuts => NeedOuts(End(call), Lock(Body(call)))
    case CbLock => Lock(Body(call))
    case Write => Body(call)
    case SecondField => Then(Body(call))
    case ThirdField => Then(Then(Body(call)))
    case WriteCount => Then(Body(call))
    case WriteFlag => Then(Then(Body(call)))
    case Notify => Signal(Unlock(End(call)))
    case CbUnlock => Unlock(End(call))
    case AppCallback => End(call)
  }

  /** The execution stands where the thread is. */
  predicate StandsAt(c: Standing, th: Thread) {
    match th
    case Busy(call, pc, _, id, _, _) =>
      && FitsCall(call, pc) && c.rest == RestAt(call, pc) && (PointerDropped(pc) || c.id == id)
      && c.got == (if pc.ReadUnlock? then pc.got else NULL_HANDLE)
    case Done(_, status, got, _, _, _) => c.rest == Return(status) && c.got == got
  }

  // ----- each step is a statement

  predicate Follows(c: Standing, a: Act, th: Thread) {
    Execute(c, a).Some? && StandsAt(Execute(c, a).value, th)
  }

  lemma ConnectStarts(s: State, th: Thread, c: Standing)
    requires th.Busy? && th.pc == Start && th.call.Connect? && StandsAt(c, th)
    ensures Follows(c, Adds(s.items, s.items + [Zeroed(s.nextLock)]), Added(s, th.call))
  {
  }

  lemma StartedFollows(s: State, th: Thread, c: Standing)
    requires th.Busy? && th.pc == Start && !th.call.Connect? && StandsAt(c, th) && th.id == 0
    ensures Follows(c, FirstAct(s, th, s.items), Started(s, th))
  {
    if Applies(th.call) {
      CallbackStarts(s, th, c);
    } else {
      CallStarts(s, th, c);
    }
  }

  lemma CallStarts(s: State, th: Thread, c: Standing)
    requires th.Busy? && th.pc == Start && Waits(th.call) && !th.call.Connect? && StandsAt(c, th) && th.id == 0
    ensures Follows(c, FirstAct(s, th, s.items), Started(s, th))
  {
  }

  lemma CallbackStarts(s: State, th: Thread, c: Standing)
    requires th.Busy? && th.pc == Start && Applies(th.call) && StandsAt(c, th) && th.id == 0
    ensures Follows(c, FirstAct(s, th, s.items), Started(s, th))
  {
  }

  lemma AcquireFollows(th: Thread, now: nat, c: Standing)
    requires th.Busy? && Locking(th.pc) && StandsAt(c, th)
    ensures Follows(c, Locks(th.id), AfterAcquire(th, now))
  {
  }

  lemma ReleaseFollows(th: Thread, c: Standing)
    requires th.Busy? && Releasing(th.pc) && StandsAt(c, th)
    ensures Follows(c, Unlocks(th.id), AfterRelease(th))
  {
  }

  lemma TestFollows(s: State, th: Thread, now: nat, c: Standing)
    requires th.Busy? && th.pc == Test && StandsAt(c, th) && FitsPointer(th)
    requires Live(s, th.ptr) && LockAt(s, th.ptr) == th.id
    ensures Follows(c, Sees(th.id, ViewAt(s.items, s.vars, th.ptr)),
                    if Flag(s, th) then Goto(th, Passed).(stamp := now) else Goto(th, Blocked(th.id)))
  {
  }

  lemma ReadFollows(s: State, l: Label, c: Standing)
    requires Typed(s) && Enabled(s, l) && (l.DoRead? || l.DoCheckOuts?) && StandsAt(c, s.threads[l.t])
    requires LockAt(s, s.threads[l.t].ptr) == s.threads[l.t].id
    ensures Follows(c, ActOf(s, l), ThreadAfter(s, l))
  {
    assert FitsPointer(s.threads[l.t]);
  }

  lemma CallWriteFollows(s: State, l: Label, c: Standing)
    requires Typed(s) && Enabled(s, l) && (l.DoCopy? || l.DoStore?)
    requires StandsAt(c, s.threads[l.t]) && LockAt(s, s.threads[l.t].ptr) == s.threads[l.t].id
    ensures Follows(c, ActOf(s, l), ThreadAfter(s, l))
  {
    assert After(s, l) == OfContext(Rewritten(s, l));
  }

  lemma EarlierFollows(x: DeviceContext, th: Thread, c: Standing)
    requires th.Busy? && MoreFields(th.call, th.pc) && StandsAt(c, th)
    ensures Follows(c, Changes(th.id, OfContext(x), OfContext(EarlierField(x, th.call, th.pc))),
                    Goto(th, if th.pc == Write then SecondField else ThirdField))
  {
  }

  lemma FinalFollows(x: DeviceContext, th: Thread, c: Standing)
    requires th.Busy? && StandsAt(c, th) && Applies(th.call) && OnContext(th.call)
    requires if th.call.GotDatabase? then th.pc == WriteFlag else LastField(th.call, th.pc)
    ensures Follows(c, Changes(th.id, OfContext(x), OfContext(FinalField(x, EventOf(th.call)))), Goto(th, Notify))
  {
  }

  lemma FieldFollows(s: State, l: Label, c: Standing)
    requires Typed(s) && Enabled(s, l) && (l.DoField? || l.DoFlag? || (l.DoWrite? && OnContext(s.threads[l.t].call)))
    requires StandsAt(c, s.threads[l.t]) && LockAt(s, s.threads[l.t].ptr) == s.threads[l.t].id
    ensures Follows(c, ActOf(s, l), ThreadAfter(s, l))
  {
    var th := s.threads[l.t];
    assert FitsPointer(th);
    var x := s.items[th.ptr.index];
    assert Before(s, l) == OfContext(x) && After(s, l) == OfContext(Rewritten(s, l));
    if l.DoField? {
      EarlierFollows(x, th, c);
    } else {
      FinalFollows(x, th, c);
    }
  }

  lemma VarFollows(s: State, l: Label, c: Standing)
    requires Typed(s) && Enabled(s, l) && l.DoWrite? && !OnContext(s.threads[l.t].call)
    requires StandsAt(c, s.threads[l.t]) && LockAt(s, s.threads[l.t].ptr) == s.threads[l.t].id
    ensures Follows(c, ActOf(s, l), ThreadAfter(s, l))
  {
    assert FitsPointer(s.threads[l.t]);
  }

  lemma RemoveFollows(s: State, l: Label, c: Standing)
    requires Enabled(s, l) && l.DoRemove? && StandsAt(c, s.threads[l.t])
    ensures Follows(c, ActOf(s, l), ThreadAfter(s, l))
  {
  }

  lemma OtherFollows(s: State, l: Label, c: Standing)
    requires (l.DoRequest? || l.DoWake? || l.DoApp?) && Enabled(s, l) && StandsAt(c, s.threads[l.t])
    ensures Follows(c, ActOf(s, l), ThreadAfter(s, l))
  {
  }

  lemma CloneFollows(th: Thread, ok: bool, c: Standing)
    requires th.Busy? && th.call.GotDatabase? && th.pc == Write && StandsAt(c, th)
    ensures Follows(c, Clones(th.id, ok), if ok then Goto(th, WriteCount) else Leave(th, AppCallback))
  {
  }

  lemma CountFollows(th: Thread, c: Standing)
    requires th.Busy? && th.call.GotDatabase? && th.pc == WriteCount && StandsAt(c, th)
    ensures Follows(c, Counts(th.id), Goto(th, WriteFlag))
  {
  }

  lemma SignalFollows(s: State, l: Label, c: Standing)
    requires l.DoSignal? && Enabled(s, l) && StandsAt(c, s.threads[l.t])
    requires LockAt(s, s.threads[l.t].ptr) == s.threads[l.t].id
    ensures Follows(c, ActOf(s, l), ThreadAfter(s, l))
  {
  }

  // ----- the steps of a run

  lemma StepFollows(s: State, l: Label, c: Standing)
    requires Sound(s) && Enabled(s, l) && !l.DoBegin? && StandsAt(c, s.threads[l.t])
    ensures Follows(c, ActOf(s, l), ThreadAfter(s, l))
  {
    var th := s.threads[l.t];
    assert FitsPointer(th);
    if l.DoStart? {
      StartFollows(s, l, c);
    } else if l.DoRemove? {
      RemoveFollows(s, l, c);
    } else if l.DoRequest? || l.DoWake? || l.DoApp? {
      OtherFollows(s, l, c);
    } else {
      OwnLock(s, l.t);
      InsideFollows(s, l, c);
    }
  }

  lemma StartFollows(s: State, l: Label, c: Standing)
    requires Typed(s) && Enabled(s, l) && l.DoStart? && StandsAt(c, s.threads[l.t])
    ensures Follows(c, ActOf(s, l), ThreadAfter(s, l))
  {
    var th := s.threads[l.t];
    assert FitsPointer(th);
    if th.call.Connect? {
      ConnectStarts(s, th, c);
    } else {
      StartedFollows(s, th, c);
    }
  }

  lemma InsideFollows(s: State, l: Label, c: Standing)
    requires Typed(s) && Enabled(s, l) && !l.DoBegin? && StandsAt(c, s.threads[l.t])
    requires !l.DoStart? && !l.DoRemove? && !l.DoRequest? && !l.DoWake? && !l.DoApp?
    requires Live(s, s.threads[l.t].ptr) && LockAt(s, s.threads[l.t].ptr) == s.threads[l.t].id
    ensures Follows(c, ActOf(s, l), ThreadAfter(s, l))
  {
    var th := s.threads[l.t];
    assert FitsPointer(th);
    match l
    case DoAcquire(_) => AcquireFollows(th, |s.history|, c);
    case DoRelease(_) => ReleaseFollows(th, c);
    case DoTest(_) => TestFollows(s, th, |s.history|, c);
    case DoRead(_) => ReadFollows(s, l, c);
    case DoCheckOuts(_) => ReadFollows(s, l, c);
    case DoCopy(_) => CallWriteFollows(s, l, c);
    case DoStore(_) => CallWriteFollows(s, l, c);
    case DoWrite(_) => if OnContext(th.call) { FieldFollows(s, l, c); } else { VarFollows(s, l, c); }
    case DoClone(_, ok, _) => CloneFollows(th, ok, c);
    case DoCount(_) => CountFollows(th, c);
    case DoSignal(_, _) => SignalFollows(s, l, c);
    case _ => FieldFollows(s, l, c);
  }

  /** What thread `t` has done since it began is an execution of its call's text, up to
      where the thread is. */
  ghost predicate Following(r: Run, k: nat, t: Tid)
    requires IsRun(r) && k < |r.states| && t in r.states[k].threads
  {
    Stands(r.states[k].threads[t], Acts(r, k, t))
  }

  /** The acts are an execution of the call's text, up to where the thread is. */
  predicate Stands(th: Thread, acts: seq<Act>) {
    var c := Executed(Begun(th.call), acts);
    c.Some? && StandsAt(c.value, th)
  }

  lemma BeginFollows(r: Run, k: nat)
    requires IsRun(r) && k < |r.labels| && r.labels[k].DoBegin?
    ensures StepAt(r, k) && r.labels[k].t in r.states[k + 1].threads && Following(r, k + 1, r.labels[k].t)
  {
    assert StepAt(r, k);
  }

  lemma ExecutedSnoc(c: Standing, acts: seq<Act>, a: Act)
    requires Executed(c, acts).Some?
    ensures Executed(c, acts + [a]) == Execute(Executed(c, acts).value, a)
  {
    var more := acts + [a];
    assert more[..|more| - 1] == acts && more[|more| - 1] == a;
  }

  lemma OwnStepFollows(r: Run, k: nat)
    requires IsRun(r) && Guarded(r) && k < |r.labels| && !r.labels[k].DoBegin?
    requires StepAt(r, k) && Following(r, k, r.labels[k].t)
    ensures r.labels[k].t in r.states[k + 1].threads && Following(r, k + 1, r.labels[k].t)
  {
    var s, l := r.states[k], r.labels[k];
    RunSound(r, k);
    ThreadCallKept(s, l);
    var begun, acts := Begun(s.threads[l.t].call), Acts(r, k, l.t);
    StepFollows(s, l, Executed(begun, acts).value);
    ExecutedSnoc(begun, acts, ActOf(s, l));
    assert r.states[k + 1].threads == ThreadsAfter(s, l);
  }

  /** Being woken is nothing a thread does itself. */
  lemma WokenStands(th: Thread, acts: seq<Act>)
    requires Stands(th, acts) && th.Busy? && th.pc.Blocked?
    ensures Stands(Goto(th, Relock(false)), acts)
  {
  }

  lemma OtherStepFollows(r: Run, k: nat, t: Tid)
    requires IsRun(r) && k < |r.labels| && StepAt(r, k) && t != r.labels[k].t && t in r.states[k + 1].threads
    requires t in r.states[k].threads ==> Following(r, k, t)
    ensures Following(r, k + 1, t)
  {
    var s, l := r.states[k], r.labels[k];
    OtherGoesOn(s, l, t);
    assert r.states[k + 1].threads == ThreadsAfter(s, l) && Acts(r, k + 1, t) == Acts(r, k, t);
    if ThreadsAfter(s, l)[t] != s.threads[t] {
      WokenStands(s.threads[t], Acts(r, k, t));
    }
  }

  lemma RunFollows(r: Run, k: nat, t: Tid)
    requires IsRun(r) && Guarded(r) && k < |r.states| && t in r.states[k].threads
    ensures Following(r, k, t)
  {
    if k > 0 {
      if t in r.states[k - 1].threads {
        RunFollows(r, k - 1, t);
      }
      NextFollows(r, k - 1, t);
    }
  }

  lemma NextFollows(r: Run, k: nat, t: Tid)
    requires IsRun(r) && Guarded(r) && k < |r.labels| && t in r.states[k + 1].threads
    requires t in r.states[k].threads ==> Following(r, k, t)
    ensures Following(r, k + 1, t)
  {
    assert StepAt(r, k);
    if t != r.labels[k].t {
      OtherStepFollows(r, k, t);
    } else if r.labels[k].DoBegin? {
      BeginFollows(r, k);
    } else {
      OwnStepFollows(r, k);
    }
  }

  /** Every API call and every callback of every guarded run does, step by step, what its
      program text says, however the threads interleave; one that has finished has
      come to a `Return`, with that status and the handle it read. */
  lemma CallsFollowTheirTexts(r: Run, k: nat, t: Tid)
    requires IsRun(r) && Guarded(r) && k < |r.states| && t in r.states[k].threads
    ensures var th := r.states[k].threads[t];
            var c := Executed(Begun(th.call), Acts(r, k, t));
            c.Some? && StandsAt(c.value, th)
  {
    RunFollows(r, k, t);
  }
}
