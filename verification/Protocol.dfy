/** The connection-context protocol as a step system: API threads and callback
    threads share the device array, one mutex and one condition variable per
    context, and the global `callback_vars`.

    A raw pointer to a context is a block generation and an index: `realloc`
    starts a new generation and a removal shifts what an index denotes. A step
    that would follow a dead pointer is undefined in C and has no successor here. */
module Protocol {
  import opened Types
  import opened Gatt
  import opened DeviceContexts

  /** One activation slot: an application thread inside one API call, or a
      dispatcher thread inside one callback. */
  type Tid = nat

  datatype Link = Connected | Disconnected | OtherLink

  datatype Var = BtEnabled | BleRegistered | MtuSet

  datatype Call =
    | Connect(address: Address)
    | Disconnect(handle: Handle)
    | Discover(handle: Handle)
    | GetDatabase(handle: Handle, servicesOut: Loc, countLoc: Loc)
    | Register
    | Deregister
    | LinkChanged(link: Link, success: bool, handle: Handle, address: Address)
    | ServicesDiscovered(handle: Handle, success: bool)
    | GotDatabase(handle: Handle, services: GattDb, count: nat)
    | VarCallback(name: Var, applies: bool, value: bool)

  /** What a callback does to the context, or to the variables, it was routed to. */
  datatype Event =
    | LinkEvent(link: Link, handle: Handle, address: Address)
    | DiscoveredEvent(handle: Handle)
    | DatabaseEvent(handle: Handle, services: GattDb, count: nat)
    | VarEvent(name: Var, value: bool)

  /** An applied event and the identity of the context it was routed to when the
      callback looked it up; 0 stands for `callback_vars`. */
  datatype Entry = Entry(route: nat, event: Event)

  datatype Pc =
    | Start
    | CopyAddress
    | StoreLock | StoreServices | StoreCount | StoreUnlock
    | Request
    | WaitLock | Test | Blocked(cond: nat) | Relock(timedOut: bool) | Passed | Expired
    | ReadLock | ReadHandle | ReadUnlock(got: Handle)
    | RemoveEntry
    | CheckOuts
    | CbLock | Write | SecondField | ThirdField | WriteCount | WriteFlag | Notify | CbUnlock
    | AppCallback

  datatype Ptr = Globals | Slot(generation: nat, index: nat)

  /** `id` is the identity of the context when its pointer was obtained, `born`
      and `stamp` are positions in the event history. */
  datatype Thread =
    | Busy(call: Call, pc: Pc, ptr: Ptr, id: nat, born: nat, stamp: nat)
    | Done(call: Call, status: Status, got: Handle, id: nat, born: nat, stamp: nat)

  datatype Vars = Vars(btEnabled: bool, registered: bool, mtuSet: bool)

  /** A `bleGetDatabase` call of thread `caller` that stored its out-pointers in context
      `id`, when the history had `at` entries. */
  datatype Store = Store(caller: Tid, id: nat, servicesOut: Loc, countLoc: Loc, at: nat)

  /** `owner` maps each held mutex to its holder. `history`, `stores`, `since`
      and `leaked` only record the past: the applied events, the stored
      out-pointers, where in the history a context got its address, and the
      mutexes whose holder left them locked. */
  datatype State = State(
    items: seq<DeviceContext>,
    capacity: nat,
    generation: nat,
    nextLock: nat,
    vars: Vars,
    owner: map<nat, Tid>,
    threads: map<Tid, Thread>,
    dbMemory: map<Loc, GattDb>,
    countMemory: map<Loc, nat>,
    history: seq<Entry>,
    stores: seq<Store>,
    since: map<nat, nat>,
    leaked: set<nat>)

  ghost predicate Init(s: State) {
    && s.items == [] && s.capacity == 0 && s.nextLock == 1
    && s.vars == Vars(false, false, false)
    && s.owner == map[] && s.threads == map[]
    && s.history == [] && s.stores == [] && s.since == map[] && s.leaked == {}
  }

  datatype Label =
    | DoBegin(t: Tid, call: Call)
    | DoStart(t: Tid)
    | DoCopy(t: Tid)
    | DoStore(t: Tid)
    | DoRequest(t: Tid, status: Status)
    | DoAcquire(t: Tid)
    | DoRelease(t: Tid)
    | DoTest(t: Tid)
    | DoWake(t: Tid, timedOut: bool)
    | DoRead(t: Tid)
    | DoRemove(t: Tid)
    | DoCheckOuts(t: Tid)
    | DoField(t: Tid)
    | DoWrite(t: Tid)
    | DoClone(t: Tid, ok: bool, junk: GattDb)
    | DoCount(t: Tid)
    | DoFlag(t: Tid)
    | DoSignal(t: Tid, woken: set<Tid>)
    | DoApp(t: Tid)

  // ----- pointers and locks

  predicate Live(s: State, p: Ptr) {
    p.Slot? ==> p.generation == s.generation && p.index < |s.items|
  }

  /** The mutex behind a pointer. */
  function LockAt(s: State, p: Ptr): nat
    requires Live(s, p)
  {
    if p.Globals? then 0 else s.items[p.index].lock
  }

  predicate Running(s: State, t: Tid) {
    t in s.threads && s.threads[t].Busy?
  }

  predicate At(s: State, t: Tid, pc: Pc) {
    Running(s, t) && s.threads[t].pc == pc && Live(s, s.threads[t].ptr)
  }

  predicate Holds(s: State, t: Tid) {
    Running(s, t) && s.threads[t].ptr.Slot?
  }

  predicate Denotes(s: State, th: Thread)
    requires th.Busy? && th.ptr.Slot?
  {
    Live(s, th.ptr) && s.items[th.ptr.index].lock == th.id
  }

  /** Between a lock and the matching unlock. */
  predicate Critical(pc: Pc) {
    pc in {StoreServices, StoreCount, StoreUnlock, Test, Passed, Expired, ReadHandle, Write, SecondField, ThirdField,
           WriteCount, WriteFlag, Notify, CbUnlock} || pc.ReadUnlock?
  }

  predicate Locking(pc: Pc) {
    pc in {StoreLock, WaitLock, ReadLock, CbLock} || pc.Relock?
  }

  function Finished(th: Thread, status: Status): Thread
    requires th.Busy?
  {
    Done(th.call, status, NULL_HANDLE, th.id, th.born, th.stamp)
  }

  function Goto(th: Thread, pc: Pc): Thread
    requires th.Busy?
  {
    th.(pc := pc)
  }

  /** The pointer goes out of use: the rest of the call never follows it. */
  function Leave(th: Thread, pc: Pc): Thread
    requires th.Busy?
  {
    th.(pc := pc, ptr := Globals)
  }

  // ----- the first step of each call

  predicate Full(s: State) {
    |s.items| == s.capacity
  }

  /** `dca_add_new` reallocates a full array before it appends. */
  function GenerationAfterAdd(s: State): nat {
    if Full(s) then s.generation + 1 else s.generation
  }

  function Added(s: State, call: Call): Thread {
    Busy(call, CopyAddress, Slot(GenerationAfterAdd(s), |s.items|), s.nextLock, |s.history|, 0)
  }

  function Found(s: State, th: Thread, i: nat, pc: Pc): Thread
    requires th.Busy? && i < |s.items|
  {
    th.(pc := pc, ptr := Slot(s.generation, i), id := s.items[i].lock)
  }

  function Started(s: State, th: Thread): Thread
    requires th.Busy? && !th.call.Connect?
  {
    match th.call
    case Disconnect(h) =>
      (match FirstByHandle(s.items, h)
       case None => Finished(th, Uninitialized)
       case Some(i) => Found(s, th, i, Request))
    case Discover(h) =>
      (match FirstByHandle(s.items, h)
       case None => Finished(th, Uninitialized)
       case Some(i) => Found(s, th, i, Request))
    case GetDatabase(h, _, _) =>
      (match FirstByHandle(s.items, h)
       case None => Finished(th, Uninitialized)
       case Some(i) => Found(s, th, i, StoreLock))
    case Register => if s.vars.registered then Finished(th, Ok).(stamp := |s.history|) else Goto(th, Request)
    case Deregister => Goto(th, Request)
    case LinkChanged(_, success, _, a) =>
      (match FirstByAddress(s.items, a)
       case None => Finished(th, Ok)
       case Some(i) => if success then Found(s, th, i, CbLock) else Finished(th, Ok))
    case ServicesDiscovered(h, success) =>
      (match FirstByHandle(s.items, h)
       case None => Goto(th, AppCallback)
       case Some(i) => if success then Found(s, th, i, CbLock) else Goto(th, AppCallback))
    case GotDatabase(h, _, _) =>
      (match FirstByHandle(s.items, h)
       case None => Goto(th, AppCallback)
       case Some(i) => Found(s, th, i, CheckOuts))
    case VarCallback(_, applies, _) => if applies then Goto(th, CbLock) else Finished(th, Ok)
  }

  // ----- what each call waits for, and how it goes on

  predicate Waits(call: Call) {
    call.Connect? || call.Disconnect? || call.Discover? || call.GetDatabase? || call.Register?
  }

  /** The awaited flag, read through the thread's pointer. */
  predicate Flag(s: State, th: Thread)
    requires th.Busy? && Live(s, th.ptr)
  {
    match th.ptr
    case Globals => th.call.Register? && s.vars.registered
    case Slot(_, i) =>
      var c := s.items[i];
      match th.call
      case Connect(_) => c.connected
      case Disconnect(_) => c.disconnected
      case Discover(_) => c.discovered
      case GetDatabase(_, _, _) => c.retrieved
      case _ => false
  }

  function AfterAcquire(th: Thread, now: nat): Thread
    requires th.Busy? && Locking(th.pc)
  {
    match th.pc
    case StoreLock => Goto(th, StoreServices)
    case WaitLock => Goto(th, Test)
    case Relock(timedOut) => Goto(th, if timedOut then Expired else Test)
    case ReadLock => Goto(th, ReadHandle).(stamp := now)
    case _ => Goto(th, Write)
  }

  predicate Releasing(pc: Pc) {
    pc in {StoreUnlock, Passed, Expired, CbUnlock} || pc.ReadUnlock?
  }

  function AfterRelease(th: Thread): Thread
    requires th.Busy? && Releasing(th.pc)
  {
    match th.pc
    case StoreUnlock => Goto(th, Request)
    case Expired => Finished(th, Timeout)
    case Passed =>
      if th.call.Connect? then Goto(th, ReadLock)
      else if th.call.Disconnect? then Leave(th, RemoveEntry)
      else Finished(th, Ok)
    case ReadUnlock(h) => Finished(th, Ok).(got := h)
    case _ =>
      if th.call.ServicesDiscovered? || th.call.GotDatabase? then Leave(th, AppCallback)
      else Finished(th, Ok)
  }

  // ----- effects of callbacks

  predicate Applies(call: Call) {
    call.LinkChanged? || call.ServicesDiscovered? || call.GotDatabase? || call.VarCallback? || call.Deregister?
  }

  function EventOf(call: Call): Event
    requires Applies(call)
  {
    match call
    case LinkChanged(link, _, h, a) => LinkEvent(link, h, a)
    case ServicesDiscovered(h, _) => DiscoveredEvent(h)
    case GotDatabase(h, db, n) => DatabaseEvent(h, db, n)
    case VarCallback(name, _, value) => VarEvent(name, value)
    case Deregister => VarEvent(BleRegistered, false)
  }

  /** What the whole callback makes of a context. */
  function ApplyToContext(c: DeviceContext, e: Event): DeviceContext {
    match e
    case LinkEvent(Connected, h, _) => c.(connected := true, disconnected := false, handle := h)
    case LinkEvent(Disconnected, _, _) => c.(connected := false, disconnected := true)
    case LinkEvent(OtherLink, _, _) => c
    case DiscoveredEvent(_) => c.(discovered := true)
    case DatabaseEvent(_, _, _) => c.(retrieved := true)
    case VarEvent(_, _) => c
  }

  /** A connection callback writes three fields of its context, a disconnection
      callback two, in this order; at `pc` there are more to come after this one. */
  predicate MoreFields(call: Call, pc: Pc) {
    call.LinkChanged? &&
    ((call.link.Connected? && (pc == Write || pc == SecondField)) || (call.link.Disconnected? && pc == Write))
  }

  /** The write at `pc` is the callback's last one. */
  predicate LastField(call: Call, pc: Pc) {
    if call.LinkChanged? && call.link.Connected? then pc == ThirdField
    else if call.LinkChanged? && call.link.Disconnected? then pc == SecondField
    else pc == Write
  }

  function EarlierField(c: DeviceContext, call: Call, pc: Pc): DeviceContext
    requires MoreFields(call, pc)
  {
    if pc == SecondField then c.(disconnected := false) else c.(connected := call.link.Connected?)
  }

  function FinalField(c: DeviceContext, e: Event): DeviceContext {
    match e
    case LinkEvent(Connected, h, _) => c.(handle := h)
    case LinkEvent(Disconnected, _, _) => c.(disconnected := true)
    case LinkEvent(OtherLink, _, _) => c
    case DiscoveredEvent(_) => c.(discovered := true)
    case DatabaseEvent(_, _, _) => c.(retrieved := true)
    case VarEvent(_, _) => c
  }

  function ApplyToVars(v: Vars, e: Event): Vars {
    match e
    case VarEvent(BtEnabled, b) => v.(btEnabled := b)
    case VarEvent(BleRegistered, b) => v.(registered := b)
    case VarEvent(MtuSet, b) => v.(mtuSet := b)
    case _ => v
  }

  // ----- signalling

  predicate BlockedOn(s: State, t: Tid, cond: nat) {
    Running(s, t) && s.threads[t].pc == Blocked(cond)
  }

  /** `pthread_cond_signal` unblocks at least one waiter if there is any. */
  ghost predicate CanSignal(s: State, cond: nat, woken: set<Tid>) {
    && (forall w :: w in woken ==> BlockedOn(s, w, cond))
    && ((exists w :: BlockedOn(s, w, cond)) ==> woken != {})
  }

  function Wake(threads: map<Tid, Thread>, woken: set<Tid>): map<Tid, Thread> {
    map u | u in threads ::
      if u in woken && threads[u].Busy? then Goto(threads[u], Relock(false)) else threads[u]
  }

  // ----- the step relation

  ghost predicate Enabled(s: State, l: Label) {
    match l
    case DoBegin(t, _) => !Running(s, t)
    case DoStart(t) => At(s, t, Start)
    case DoCopy(t) => At(s, t, CopyAddress) && Holds(s, t) && s.threads[t].call.Connect?
    case DoStore(t) =>
      (At(s, t, StoreServices) || At(s, t, StoreCount)) && Holds(s, t) && s.threads[t].call.GetDatabase?
    case DoRequest(t, _) => At(s, t, Request)
    case DoAcquire(t) =>
      Running(s, t) && Locking(s.threads[t].pc) && Live(s, s.threads[t].ptr) &&
      LockAt(s, s.threads[t].ptr) !in s.owner
    case DoRelease(t) =>
      Running(s, t) && Releasing(s.threads[t].pc) && Live(s, s.threads[t].ptr)
    case DoTest(t) => At(s, t, Test)
    case DoWake(t, timedOut) =>
      Running(s, t) && (s.threads[t].pc.Blocked? || (s.threads[t].pc == Relock(false) && timedOut))
    case DoRead(t) => At(s, t, ReadHandle) && Holds(s, t)
    case DoRemove(t) => At(s, t, RemoveEntry) && s.threads[t].call.Disconnect?
    case DoCheckOuts(t) => At(s, t, CheckOuts) && Holds(s, t)
    case DoField(t) =>
      && (At(s, t, Write) || At(s, t, SecondField)) && Holds(s, t)
      && MoreFields(s.threads[t].call, s.threads[t].pc)
    case DoWrite(t) =>
      && (At(s, t, Write) || At(s, t, SecondField) || At(s, t, ThirdField))
      && LastField(s.threads[t].call, s.threads[t].pc)
      && Applies(s.threads[t].call) && !s.threads[t].call.GotDatabase?
    case DoClone(t, _, _) =>
      && At(s, t, Write) && Holds(s, t) && s.threads[t].call.GotDatabase?
      && s.items[s.threads[t].ptr.index].dbOut.Some?
    case DoCount(t) =>
      && At(s, t, WriteCount) && Holds(s, t) && s.threads[t].call.GotDatabase?
      && s.items[s.threads[t].ptr.index].countOut.Some?
    case DoFlag(t) => At(s, t, WriteFlag) && Holds(s, t) && s.threads[t].call.GotDatabase?
    case DoSignal(t, woken) => At(s, t, Notify) && CanSignal(s, LockAt(s, s.threads[t].ptr), woken)
    case DoApp(t) => At(s, t, AppCallback)
  }

  // ----- the effect of a step, one state component at a time

  /** The stepping thread. */
  ghost function ThreadAfter(s: State, l: Label): Thread
    requires Enabled(s, l)
  {
    if l.DoBegin? then Busy(l.call, Start, Globals, 0, |s.history|, 0) else
    var th := s.threads[l.t];
    match l
    case DoStart(_) => if th.call.Connect? then Added(s, th.call) else Started(s, th)
    case DoCopy(_) => Goto(th, Request)
    case DoStore(_) => Goto(th, if th.pc == StoreServices then StoreCount else StoreUnlock)
    case DoRequest(_, status) =>
      if status != Ok then Finished(th, status)
      else Goto(th, if th.call.Deregister? then CbLock else WaitLock)
    case DoAcquire(_) => AfterAcquire(th, |s.history|)
    case DoRelease(_) => AfterRelease(th)
    case DoTest(_) =>
      if Flag(s, th) then Goto(th, Passed).(stamp := |s.history|)
      else Goto(th, Blocked(LockAt(s, th.ptr)))
    case DoWake(_, timedOut) => Goto(th, Relock(timedOut))
    case DoRead(_) => Goto(th, ReadUnlock(s.items[th.ptr.index].handle))
    case DoRemove(_) => Finished(th, Ok)
    case DoCheckOuts(_) =>
      var c := s.items[th.ptr.index];
      if c.dbOut.Some? && c.countOut.Some? then Goto(th, CbLock) else Leave(th, AppCallback)
    case DoField(_) => Goto(th, if th.pc == Write then SecondField else ThirdField)
    case DoWrite(_) => Goto(th, Notify)
    case DoClone(_, ok, _) => if ok then Goto(th, WriteCount) else Leave(th, AppCallback)
    case DoCount(_) => Goto(th, WriteFlag)
    case DoFlag(_) => Goto(th, Notify)
    case DoSignal(_, _) => Goto(th, CbUnlock)
    case DoApp(_) => Finished(th, Ok)
  }

  ghost function ThreadsAfter(s: State, l: Label): map<Tid, Thread>
    requires Enabled(s, l)
  {
    (if l.DoSignal? then Wake(s.threads, l.woken) else s.threads)[l.t := ThreadAfter(s, l)]
  }

  predicate Adds(s: State, l: Label) {
    l.DoStart? && Running(s, l.t) && s.threads[l.t].call.Connect?
  }

  /** A callback makes its last change to the context or the variables behind its pointer. */
  predicate Delivers(l: Label) {
    l.DoWrite? || l.DoFlag?
  }

  /** Where a removal takes place, if it finds its handle. */
  function RemovalIndex(s: State, l: Label): Option<nat> {
    if l.DoRemove? && Running(s, l.t) && s.threads[l.t].call.Disconnect? then
      FirstByHandle(s.items, s.threads[l.t].call.handle)
    else None
  }

  /** The context a step writes through its pointer. */
  ghost function Written(s: State, l: Label): Option<nat>
    requires Enabled(s, l)
  {
    if (l.DoCopy? || l.DoStore? || l.DoField? || Delivers(l)) && s.threads[l.t].ptr.Slot?
    then Some(s.threads[l.t].ptr.index) else None
  }

  ghost function Rewritten(s: State, l: Label): DeviceContext
    requires Enabled(s, l) && Written(s, l).Some?
  {
    var th := s.threads[l.t];
    var c := s.items[th.ptr.index];
    if l.DoCopy? then c.(address := th.call.address)
    else if l.DoStore? then
      if th.pc == StoreServices then c.(dbOut := Some(th.call.servicesOut))
      else c.(countOut := Some(th.call.countLoc))
    else if l.DoField? then EarlierField(c, th.call, th.pc)
    else FinalField(c, EventOf(th.call))
  }

  ghost function ItemsAfter(s: State, l: Label): seq<DeviceContext>
    requires Enabled(s, l)
  {
    if Adds(s, l) then s.items + [Zeroed(s.nextLock)]
    else if RemovalIndex(s, l).Some? then WithoutIndex(s.items, RemovalIndex(s, l).value)
    else if Written(s, l).Some? then s.items[Written(s, l).value := Rewritten(s, l)]
    else s.items
  }

  ghost function OwnerAfter(s: State, l: Label): map<nat, Tid>
    requires Enabled(s, l)
  {
    if l.DoAcquire? then s.owner[LockAt(s, s.threads[l.t].ptr) := l.t]
    else if l.DoRelease? || (l.DoTest? && !Flag(s, s.threads[l.t])) then
      s.owner - {LockAt(s, s.threads[l.t].ptr)}
    else if RemovalIndex(s, l).Some? then s.owner - {s.items[RemovalIndex(s, l).value].lock}
    else s.owner
  }

  ghost function LeakedAfter(s: State, l: Label): set<nat>
    requires Enabled(s, l)
  {
    if l.DoClone? && !l.ok then s.leaked + {LockAt(s, s.threads[l.t].ptr)}
    else if RemovalIndex(s, l).Some? then s.leaked - {s.items[RemovalIndex(s, l).value].lock}
    else s.leaked
  }

  ghost function HistoryAfter(s: State, l: Label): seq<Entry>
    requires Enabled(s, l)
  {
    if Delivers(l) then s.history + [Entry(s.threads[l.t].id, EventOf(s.threads[l.t].call))] else s.history
  }

  ghost function DbMemoryAfter(s: State, l: Label): map<Loc, GattDb>
    requires Enabled(s, l)
  {
    if l.DoClone? then
      var th := s.threads[l.t];
      s.dbMemory[s.items[th.ptr.index].dbOut.value := if l.ok then th.call.services else l.junk]
    else s.dbMemory
  }

  ghost function CountMemoryAfter(s: State, l: Label): map<Loc, nat>
    requires Enabled(s, l)
  {
    if l.DoCount? then
      var th := s.threads[l.t];
      s.countMemory[s.items[th.ptr.index].countOut.value := th.call.count]
    else s.countMemory
  }

  ghost function StoresAfter(s: State, l: Label): seq<Store>
    requires Enabled(s, l)
  {
    if l.DoStore? && s.threads[l.t].pc == StoreServices then
      var th := s.threads[l.t];
      s.stores + [Store(l.t, th.id, th.call.servicesOut, th.call.countLoc, |s.history|)]
    else s.stores
  }

  ghost function SinceAfter(s: State, l: Label): map<nat, nat>
    requires Enabled(s, l)
  {
    if l.DoCopy? then s.since[s.threads[l.t].id := |s.history|] else s.since
  }

  ghost function Apply(s: State, l: Label): State
    requires Enabled(s, l)
  {
    State(
      ItemsAfter(s, l),
      if Adds(s, l) && Full(s) then Grown(s.capacity) else s.capacity,
      if Adds(s, l) then GenerationAfterAdd(s) else s.generation,
      if Adds(s, l) then s.nextLock + 1 else s.nextLock,
      if Delivers(l) && s.threads[l.t].ptr.Globals? then ApplyToVars(s.vars, EventOf(s.threads[l.t].call))
      else s.vars,
      OwnerAfter(s, l),
      ThreadsAfter(s, l),
      DbMemoryAfter(s, l),
      CountMemoryAfter(s, l),
      HistoryAfter(s, l),
      StoresAfter(s, l),
      SinceAfter(s, l),
      LeakedAfter(s, l))
  }

  // ----- runs

  datatype Run = Run(states: seq<State>, labels: seq<Label>)

  ghost predicate IsRun(r: Run) {
    && |r.states| == |r.labels| + 1
    && Init(r.states[0])
    && forall k :: 0 <= k < |r.labels| ==> StepAt(r, k)
  }

  ghost predicate StepAt(r: Run, k: nat)
    requires |r.states| == |r.labels| + 1 && k < |r.labels|
  {
    Enabled(r.states[k], r.labels[k]) && r.states[k + 1] == Apply(r.states[k], r.labels[k])
  }
}
