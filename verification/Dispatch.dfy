/** The pre-5.17 event handler and the library's wrappers: from IPC events to application calls. */
module Dispatch {
  import opened Types
  import opened Gatt

  // ----- event numbers of the events with a callback in the table

  const SERVICE_DISCOVERED: nat := 93
  const CHARS_READ_RSP: nat := 94
  const CHARS_WRITE_RSP: nat := 95
  const NOTIFY_CHARS_CHANGED: nat := 97
  const DESC_WRITE_RSP: nat := 98
  const GET_DB_RSP: nat := 100

  const UINT16_MAX: nat := 65535

  datatype Blob = Blob(data: seq<byte>, size: nat, offset: nat)

  /** `record` stands for the attribute record that the handler leaves alone. */
  datatype Value = Value(record: int, blob: Blob, isBlob: bool)

  /** One IPC task and its payload. The handler rewrites `value` and `desc` in place. */
  class Task {
    const functionId: nat
    const conn: Handle
    const status: Status
    const dataLen: nat
    const data: seq<byte>
    const record: int
    const services: GattDb
    const count: nat
    var value: Value
    var desc: Blob

    constructor (functionId: nat, conn: Handle, status: Status, dataLen: nat, data: seq<byte>,
                 value: Value, desc: Blob, services: GattDb, count: nat)
      ensures this.functionId == functionId && this.conn == conn && this.status == status
      ensures this.dataLen == dataLen && this.data == data && this.record == value.record
      ensures this.services == services && this.count == count && this.value == value && this.desc == desc
    {
      this.functionId, this.conn, this.status := functionId, conn, status;
      this.dataLen, this.data, this.record := dataLen, data, value.record;
      this.services, this.count := services, count;
      this.value, this.desc := value, desc;
    }

    predicate Valid()
      reads this
    {
      value.record == record
    }
  }

  /** Which entries of a GATT client callback table are not NULL. */
  datatype Table = Table(discovered: bool, read: bool, written: bool, notified: bool, descWritten: bool, gotDb: bool)

  /** The table the library registers: it has no descriptor-write callback. */
  const LIBRARY_TABLE: Table := Table(true, true, true, true, false, true)

  datatype AppCall =
    | AppDiscovered(conn: Handle, status: Status)
    | AppGotDb(conn: Handle, list: nat, services: GattDb, count: nat)
    | AppNotified(conn: Handle, value: Value)
    | AppRead(conn: Handle, value: Value, status: Status)
    | AppWritten(conn: Handle, value: Value, status: Status)

  /** Everything the handler makes happen, in order. `list` tells one deserialised
      service list from another. */
  datatype Action =
    | LibDiscovered(conn: Handle, status: Status)
    | LibGotDb(conn: Handle, list: nat, services: GattDb, count: nat)
    | ToApp(call: AppCall)
    | DescriptorWritten(conn: Handle, desc: Blob, status: Status)
    | Deserialise(list: nat)
    | Cleanup(list: nat)

  /** The application's callbacks, the events' effects so far and the next fresh list. */
  class Session {
    var app: Table
    var actions: seq<Action>
    var lists: nat

    constructor (app: Table)
      ensures this.app == app && actions == [] && lists == 0
    {
      this.app := app;
      actions := [];
      lists := 0;
    }

    // ----- the wrappers

    method ServiceDiscoveredWrapper(conn: Handle, status: Status)
      modifies this`actions
      ensures actions == old(actions) + [LibDiscovered(conn, status)] +
                (if app.discovered then [ToApp(AppDiscovered(conn, status))] else [])
    {
      actions := actions + [LibDiscovered(conn, status)];
      if app.discovered {
        actions := actions + [ToApp(AppDiscovered(conn, status))];
      }
    }

    method GetDbWrapper(conn: Handle, list: nat, services: GattDb, count: nat)
      modifies this`actions
      ensures actions == old(actions) + [LibGotDb(conn, list, services, count)] +
                (if app.gotDb then [ToApp(AppGotDb(conn, list, services, count))] else [])
    {
      actions := actions + [LibGotDb(conn, list, services, count)];
      if app.gotDb {
        actions := actions + [ToApp(AppGotDb(conn, list, services, count))];
      }
    }

    method NotifyWrapper(conn: Handle, value: Value)
      modifies this`actions
      ensures actions == old(actions) + (if app.notified then [ToApp(AppNotified(conn, value))] else [])
    {
      if app.notified {
        actions := actions + [ToApp(AppNotified(conn, value))];
      }
    }

    method ReadWrapper(conn: Handle, value: Value, status: Status)
      modifies this`actions
      ensures actions == old(actions) + (if app.read then [ToApp(AppRead(conn, value, status))] else [])
    {
      if app.read {
        actions := actions + [ToApp(AppRead(conn, value, status))];
      }
    }

    method WriteWrapper(conn: Handle, value: Value, status: Status)
      modifies this`actions
      ensures actions == old(actions) + (if app.written then [ToApp(AppWritten(conn, value, status))] else [])
    {
      if app.written {
        actions := actions + [ToApp(AppWritten(conn, value, status))];
      }
    }

    // ----- the handler

    /** `pre5170_gattc_cb_handler` for one event. `client` is the table registered for
        the event's session, None if the session or the table is missing. The
        entries of a library table are the wrappers above; a table of another
        client may also have a descriptor-write callback. */
    method Handle(task: Task?, client: Option<Table>)
      requires task != null ==> task.Valid()
      modifies task, this`actions, this`lists
      ensures task != null ==> task.Valid()
      ensures task == null || client.None? ==> actions == old(actions) && lists == old(lists)
      ensures task != null && client.Some? ==>
                && actions == old(actions) + Effects(Snapshot(task), client.value, app, old(lists))
                && lists == old(lists) + ListsOf(Snapshot(task), client.value)
    {
      if task == null || client.None? {
        return;
      }
      var table := client.value;
      var id := task.functionId;
      if id == SERVICE_DISCOVERED && table.discovered {
        ServiceDiscoveredWrapper(task.conn, task.status);
      } else if id == CHARS_READ_RSP && table.read {
        RewriteValue(task);
        ReadWrapper(task.conn, task.value, task.status);
      } else if id == CHARS_WRITE_RSP && table.written {
        RewriteValue(task);
        WriteWrapper(task.conn, task.value, task.status);
      } else if id == NOTIFY_CHARS_CHANGED && table.notified {
        RewriteValue(task);
        NotifyWrapper(task.conn, task.value);
      } else if id == DESC_WRITE_RSP && table.descWritten {
        task.desc := Blob(task.data, Clamp(task.dataLen), 0);
        actions := actions + [DescriptorWritten(task.conn, task.desc, task.status)];
      } else if id == GET_DB_RSP && table.gotDb {
        var list := lists;
        lists := lists + 1;
        actions := actions + [Deserialise(list)];
        GetDbWrapper(task.conn, list, task.services, task.count);
        actions := actions + [Cleanup(list)];
      }
    }

    /** A whole sequence of events, each handled as it arrives. */
    method HandleAll(tasks: seq<Task>, table: Table)
      requires forall t :: t in tasks ==> t.Valid()
      modifies tasks, this`actions, this`lists
      ensures actions == old(actions) + AllEffects(Snapshots(tasks), table, app, old(lists))
    {
      var i := 0;
      ghost var all := AllEffects(Snapshots(tasks), table, app, lists);
      while i < |tasks|
        invariant i <= |tasks| && forall t :: t in tasks ==> t.Valid()
        invariant old(actions) + all == actions + AllEffects(Snapshots(tasks)[i..], table, app, lists)
      {
        ghost var events := Snapshots(tasks)[i..];
        assert events[0] == Snapshot(tasks[i]) && events[1..] == Snapshots(tasks)[i + 1..];
        ghost var before, n := actions, lists;
        Handle(tasks[i], Some(table));
        Associative(before, Effects(events[0], table, app, n), AllEffects(events[1..], table, app, lists));
        i := i + 1;
      }
    }
  }

  function Clamp(dataLen: nat): (size: nat)
    ensures size <= UINT16_MAX && size <= dataLen && (size == dataLen || size == UINT16_MAX)
  {
    if dataLen > UINT16_MAX then UINT16_MAX else dataLen
  }

  method RewriteValue(task: Task)
    requires task.Valid()
    modifies task`value
    ensures task.Valid() && task.value == ValueOf(Snapshot(task))
  {
    task.value := task.value.(blob := Blob(task.data, Clamp(task.dataLen), 0), isBlob := true);
  }

  // ----- what one event should do

  datatype Event = Event(functionId: nat, conn: Handle, status: Status, dataLen: nat, data: seq<byte>, record: int,
                         services: GattDb, count: nat)

  function Snapshot(t: Task): Event {
    Event(t.functionId, t.conn, t.status, t.dataLen, t.data, t.record, t.services, t.count)
  }

  function Snapshots(tasks: seq<Task>): (r: seq<Event>)
    ensures |r| == |tasks|
  {
    seq(|tasks|, i requires 0 <= i < |tasks| => Snapshot(tasks[i]))
  }

  /** The value an application sees: the event's data, its length clamped to 16 bits. */
  function ValueOf(e: Event): Value {
    Value(e.record, Blob(e.data, Clamp(e.dataLen), 0), true)
  }

  function AppIf(wanted: bool, call: AppCall): seq<Action> {
    if wanted then [ToApp(call)] else []
  }

  function Effects(e: Event, table: Table, app: Table, list: nat): seq<Action> {
    if e.functionId == SERVICE_DISCOVERED && table.discovered then
      [LibDiscovered(e.conn, e.status)] + AppIf(app.discovered, AppDiscovered(e.conn, e.status))
    else if e.functionId == CHARS_READ_RSP && table.read then AppIf(app.read, AppRead(e.conn, ValueOf(e), e.status))
    else if e.functionId == CHARS_WRITE_RSP && table.written then
      AppIf(app.written, AppWritten(e.conn, ValueOf(e), e.status))
    else if e.functionId == NOTIFY_CHARS_CHANGED && table.notified then
      AppIf(app.notified, AppNotified(e.conn, ValueOf(e)))
    else if e.functionId == DESC_WRITE_RSP && table.descWritten then
      [DescriptorWritten(e.conn, Blob(e.data, Clamp(e.dataLen), 0), e.status)]
    else if ListsOf(e, table) == 1 then
      [Deserialise(list), LibGotDb(e.conn, list, e.services, e.count)] +
      AppIf(app.gotDb, AppGotDb(e.conn, list, e.services, e.count)) + [Cleanup(list)]
    else []
  }

  function ListsOf(e: Event, table: Table): nat {
    if e.functionId == GET_DB_RSP && table.gotDb then 1 else 0
  }

  function AllEffects(es: seq<Event>, table: Table, app: Table, list: nat): seq<Action> {
    if es == [] then []
    else Effects(es[0], table, app, list) + AllEffects(es[1..], table, app, list + ListsOf(es[0], table))
  }

  // ----- the application's trace

  function CallsIn(a: Action): seq<AppCall> {
    if a.ToApp? then [a.call] else []
  }

  /** The calls an application sees, in order. */
  function AppTrace(actions: seq<Action>): seq<AppCall> {
    if actions == [] then [] else CallsIn(actions[0]) + AppTrace(actions[1..])
  }

  lemma {:induction false} AppTraceConcat(a: seq<Action>, b: seq<Action>)
    ensures AppTrace(a + b) == AppTrace(a) + AppTrace(b)
  {
    if a == [] {
      assert a + b == b;
    } else {
      AppTraceConcat(a[1..], b);
      assert (a + b)[0] == a[0] && (a + b)[1..] == a[1..] + b;
      Associative(CallsIn(a[0]), AppTrace(a[1..]), AppTrace(b));
    }
  }

  /** The five wired kinds, and only for callbacks that both tables have. */
  predicate Wired(e: Event, table: Table, app: Table) {
    || (e.functionId == SERVICE_DISCOVERED && table.discovered && app.discovered)
    || (e.functionId == CHARS_READ_RSP && table.read && app.read)
    || (e.functionId == CHARS_WRITE_RSP && table.written && app.written)
    || (e.functionId == NOTIFY_CHARS_CHANGED && table.notified && app.notified)
    || (e.functionId == GET_DB_RSP && table.gotDb && app.gotDb)
  }

  /** A call carries its event: same connection, and by kind the same status, value or list. */
  predicate Carries(call: AppCall, e: Event) {
    && call.conn == e.conn
    && match call
       case AppDiscovered(_, st) => e.functionId == SERVICE_DISCOVERED && st == e.status
       case AppRead(_, v, st) => e.functionId == CHARS_READ_RSP && CarriesData(v, e) && st == e.status
       case AppWritten(_, v, st) => e.functionId == CHARS_WRITE_RSP && CarriesData(v, e) && st == e.status
       case AppNotified(_, v) => e.functionId == NOTIFY_CHARS_CHANGED && CarriesData(v, e)
       case AppGotDb(_, _, db, n) => e.functionId == GET_DB_RSP && db == e.services && n == e.count
  }

  predicate CarriesData(v: Value, e: Event) {
    && v.record == e.record && v.isBlob && v.blob.data == e.data && v.blob.offset == 0
    && v.blob.size <= e.dataLen && v.blob.size <= UINT16_MAX
    && (v.blob.size == e.dataLen || v.blob.size == UINT16_MAX)
  }

  function WiredOnly(es: seq<Event>, table: Table, app: Table): seq<Event> {
    if es == [] then []
    else (if Wired(es[0], table, app) then [es[0]] else []) + WiredOnly(es[1..], table, app)
  }

  ghost predicate Projects(calls: seq<AppCall>, es: seq<Event>) {
    |calls| == |es| && forall i :: 0 <= i < |es| ==> Carries(calls[i], es[i])
  }

  lemma DbEventTrace(e: Event, table: Table, app: Table, list: nat)
    requires ListsOf(e, table) == 1
    ensures var calls := AppTrace(Effects(e, table, app, list));
            calls == if app.gotDb then [AppGotDb(e.conn, list, e.services, e.count)] else []
  {
    var made, got, freed := Deserialise(list), LibGotDb(e.conn, list, e.services, e.count), Cleanup(list);
    var call := AppIf(app.gotDb, AppGotDb(e.conn, list, e.services, e.count));
    AppTraceConcat([made, got] + call, [freed]);
    AppTraceConcat([made, got], call);
    assert [made, got][1..] == [got] && [got][1..] == [] && [freed][1..] == [];
  }

  lemma OneEventTrace(e: Event, table: Table, app: Table, list: nat)
    ensures var calls := AppTrace(Effects(e, table, app, list));
            if Wired(e, table, app) then |calls| == 1 && Carries(calls[0], e) else calls == []
  {
    if ListsOf(e, table) == 1 {
      DbEventTrace(e, table, app, list);
    } else if e.functionId == SERVICE_DISCOVERED && table.discovered {
      AppTraceConcat([LibDiscovered(e.conn, e.status)], AppIf(app.discovered, AppDiscovered(e.conn, e.status)));
    }
  }

  lemma ProjectsConcat(c: seq<AppCall>, e: seq<Event>, d: seq<AppCall>, f: seq<Event>)
    requires Projects(c, e) && Projects(d, f)
    ensures Projects(c + d, e + f)
  {
  }

  /** The application's trace of any event sequence is the projection of the
      sequence onto the wired kinds: one call for each, in order, and no other. */
  lemma {:induction false} TraceIsProjection(es: seq<Event>, table: Table, app: Table, list: nat)
    ensures Projects(AppTrace(AllEffects(es, table, app, list)), WiredOnly(es, table, app))
  {
    if es != [] {
      var next := list + ListsOf(es[0], table);
      var fx, rest := Effects(es[0], table, app, list), AllEffects(es[1..], table, app, next);
      var head, tail := if Wired(es[0], table, app) then [es[0]] else [], WiredOnly(es[1..], table, app);
      OneEventTrace(es[0], table, app, list);
      TraceIsProjection(es[1..], table, app, next);
      ProjectsConcat(AppTrace(fx), head, AppTrace(rest), tail);
      AppTraceConcat(fx, rest);
      assert AllEffects(es, table, app, list) == fx + rest && WiredOnly(es, table, app) == head + tail;
    }
  }

  /** For discoveries and databases the library is updated first: right before the
      application's call comes the library's own update with the same arguments. */
  predicate Announced(actions: seq<Action>, k: int)
    requires 0 <= k < |actions|
  {
    match actions[k]
    case ToApp(AppDiscovered(c, st)) => k > 0 && actions[k - 1] == LibDiscovered(c, st)
    case ToApp(AppGotDb(c, l, db, n)) => k > 0 && actions[k - 1] == LibGotDb(c, l, db, n)
    case _ => true
  }

  ghost predicate LibraryFirst(actions: seq<Action>) {
    forall k :: 0 <= k < |actions| ==> Announced(actions, k)
  }

  lemma LibraryFirstConcat(a: seq<Action>, b: seq<Action>)
    requires LibraryFirst(a) && LibraryFirst(b)
    ensures LibraryFirst(a + b)
  {
    forall k | 0 <= k < |a + b| ensures Announced(a + b, k) {
      if k < |a| {
        assert Announced(a, k);
      } else {
        assert Announced(b, k - |a|);
      }
    }
  }

  lemma OneEventAnnounced(e: Event, table: Table, app: Table, list: nat)
    ensures LibraryFirst(Effects(e, table, app, list))
  {
  }

  lemma {:induction false} LibraryAlwaysFirst(es: seq<Event>, table: Table, app: Table, list: nat)
    ensures LibraryFirst(AllEffects(es, table, app, list))
  {
    if es != [] {
      OneEventAnnounced(es[0], table, app, list);
      LibraryAlwaysFirst(es[1..], table, app, list + ListsOf(es[0], table));
      LibraryFirstConcat(Effects(es[0], table, app, list),
                         AllEffects(es[1..], table, app, list + ListsOf(es[0], table)));
    }
  }

  // ----- the table's own trace

  /** The entries of a sequence that satisfy a predicate, in order. */
  function Only<T>(wanted: T -> bool, s: seq<T>): seq<T> {
    if s == [] then [] else (if wanted(s[0]) then [s[0]] else []) + Only(wanted, s[1..])
  }

  lemma {:induction false} OnlyConcat<T>(wanted: T -> bool, a: seq<T>, b: seq<T>)
    ensures Only(wanted, a + b) == Only(wanted, a) + Only(wanted, b)
  {
    if a == [] {
      assert a + b == b;
    } else {
      OnlyConcat(wanted, a[1..], b);
      assert (a + b)[0] == a[0] && (a + b)[1..] == a[1..] + b;
      Associative(if wanted(a[0]) then [a[0]] else [], Only(wanted, a[1..]), Only(wanted, b));
    }
  }

  /** What the registered table's callbacks do themselves, apart from what they pass on. */
  predicate IsOwn(a: Action) {
    a.LibDiscovered? || a.LibGotDb? || a.DescriptorWritten?
  }

  /** The kinds for which they do something, and only if the table has the callback. */
  predicate Handled(e: Event, table: Table) {
    || (e.functionId == SERVICE_DISCOVERED && table.discovered)
    || (e.functionId == GET_DB_RSP && table.gotDb)
    || (e.functionId == DESC_WRITE_RSP && table.descWritten)
  }

  predicate Does(a: Action, e: Event) {
    match a
    case LibDiscovered(c, st) => e.functionId == SERVICE_DISCOVERED && c == e.conn && st == e.status
    case LibGotDb(c, _, db, n) => e.functionId == GET_DB_RSP && c == e.conn && db == e.services && n == e.count
    case DescriptorWritten(c, d, st) =>
      && e.functionId == DESC_WRITE_RSP && c == e.conn && st == e.status
      && d.data == e.data && d.offset == 0 && d.size <= e.dataLen && d.size <= UINT16_MAX
      && (d.size == e.dataLen || d.size == UINT16_MAX)
    case _ => false
  }

  ghost predicate DoesAll(actions: seq<Action>, es: seq<Event>) {
    |actions| == |es| && forall i :: 0 <= i < |es| ==> Does(actions[i], es[i])
  }

  lemma DoesConcat(a: seq<Action>, e: seq<Event>, b: seq<Action>, f: seq<Event>)
    requires DoesAll(a, e) && DoesAll(b, f)
    ensures DoesAll(a + b, e + f)
  {
  }

  lemma NothingOwn(wanted: bool, call: AppCall)
    ensures Only(IsOwn, AppIf(wanted, call)) == []
  {
    assert wanted ==> AppIf(wanted, call)[1..] == [];
  }

  lemma OneEventOwn(e: Event, table: Table, app: Table, list: nat)
    ensures DoesAll(Only(IsOwn, Effects(e, table, app, list)), if Handled(e, table) then [e] else [])
  {
    NothingOwn(app.discovered, AppDiscovered(e.conn, e.status));
    NothingOwn(app.read, AppRead(e.conn, ValueOf(e), e.status));
    NothingOwn(app.written, AppWritten(e.conn, ValueOf(e), e.status));
    NothingOwn(app.notified, AppNotified(e.conn, ValueOf(e)));
    if e.functionId == SERVICE_DISCOVERED && table.discovered {
      OnlyConcat(IsOwn, [LibDiscovered(e.conn, e.status)], AppIf(app.discovered, AppDiscovered(e.conn, e.status)));
    } else if e.functionId == DESC_WRITE_RSP && table.descWritten {
      assert Effects(e, table, app, list)[1..] == [];
    } else if ListsOf(e, table) == 1 {
      DbEventOwn(e, table, app, list);
    }
  }

  lemma DbEventOwn(e: Event, table: Table, app: Table, list: nat)
    requires ListsOf(e, table) == 1
    ensures Only(IsOwn, Effects(e, table, app, list)) == [LibGotDb(e.conn, list, e.services, e.count)]
  {
    var made, got, freed := Deserialise(list), LibGotDb(e.conn, list, e.services, e.count), Cleanup(list);
    var call := AppGotDb(e.conn, list, e.services, e.count);
    NothingOwn(app.gotDb, call);
    OnlyConcat(IsOwn, [made, got] + AppIf(app.gotDb, call), [freed]);
    OnlyConcat(IsOwn, [made, got], AppIf(app.gotDb, call));
    assert [made, got][1..] == [got] && [got][1..] == [] && [freed][1..] == [];
  }

  /** Whatever callbacks the application has, the library's own updates are exactly one
      for every discovery and database event whose entry the registered table has, in
      order and with the event's data; likewise a descriptor-write callback. */
  lemma {:induction false} LibraryTraceIsProjection(es: seq<Event>, table: Table, app: Table, list: nat)
    ensures DoesAll(Only(IsOwn, AllEffects(es, table, app, list)), Only((e: Event) => Handled(e, table), es))
  {
    if es != [] {
      var next := list + ListsOf(es[0], table);
      var fx, rest := Effects(es[0], table, app, list), AllEffects(es[1..], table, app, next);
      var head, tail := if Handled(es[0], table) then [es[0]] else [], Only((e: Event) => Handled(e, table), es[1..]);
      OneEventOwn(es[0], table, app, list);
      LibraryTraceIsProjection(es[1..], table, app, next);
      DoesConcat(Only(IsOwn, fx), head, Only(IsOwn, rest), tail);
      OnlyConcat(IsOwn, fx, rest);
      assert AllEffects(es, table, app, list) == fx + rest;
    }
  }

  // ----- the library's own table

  /** The application has a callback for this kind of event. */
  predicate WantedBy(app: Table, e: Event) {
    || (e.functionId == SERVICE_DISCOVERED && app.discovered)
    || (e.functionId == CHARS_READ_RSP && app.read)
    || (e.functionId == CHARS_WRITE_RSP && app.written)
    || (e.functionId == NOTIFY_CHARS_CHANGED && app.notified)
    || (e.functionId == GET_DB_RSP && app.gotDb)
  }

  lemma {:induction false} AllWired(es: seq<Event>, app: Table)
    ensures WiredOnly(es, LIBRARY_TABLE, app) == Only((e: Event) => WantedBy(app, e), es)
    ensures Only((e: Event) => Handled(e, LIBRARY_TABLE), es) ==
            Only((e: Event) => e.functionId == SERVICE_DISCOVERED || e.functionId == GET_DB_RSP, es)
  {
    if es != [] {
      AllWired(es[1..], app);
    }
  }

  /** With the library's table registered the application gets every event for which it
      has a callback, and the library every discovery and database event. */
  lemma LibraryTableWiresAll(es: seq<Event>, app: Table, list: nat)
    ensures var actions := AllEffects(es, LIBRARY_TABLE, app, list);
            && Projects(AppTrace(actions), Only((e: Event) => WantedBy(app, e), es))
            && DoesAll(Only(IsOwn, actions),
                       Only((e: Event) => e.functionId == SERVICE_DISCOVERED || e.functionId == GET_DB_RSP, es))
  {
    AllWired(es, app);
    TraceIsProjection(es, LIBRARY_TABLE, app, list);
    LibraryTraceIsProjection(es, LIBRARY_TABLE, app, list);
  }

  // ----- ownership of deserialised lists

  predicate Uses(a: Action, list: nat) {
    match a
    case LibGotDb(_, l, _, _) => l == list
    case ToApp(AppGotDb(_, l, _, _)) => l == list
    case Deserialise(l) => l == list
    case Cleanup(l) => l == list
    case _ => false
  }

  /** List `n` is made at `i` and released at `j`; in between it is only used, and
      nothing else in the trace touches it. */
  ghost predicate Lifetime(actions: seq<Action>, n: nat, i: int, j: int) {
    && 0 <= i < j < |actions| && actions[i] == Deserialise(n) && actions[j] == Cleanup(n)
    && forall k :: 0 <= k < |actions| && Uses(actions[k], n) ==>
         i <= k <= j && (k != i ==> !actions[k].Deserialise?) && (k != j ==> !actions[k].Cleanup?)
  }

  ghost predicate ReleasedOnce(actions: seq<Action>, n: nat) {
    exists i, j :: Lifetime(actions, n, i, j)
  }

  /** The lists of a trace are those from `lo` up to `hi`, each with one lifetime. */
  ghost predicate Owned(actions: seq<Action>, lo: nat, hi: nat) {
    && (forall k, n: nat :: 0 <= k < |actions| && Uses(actions[k], n) ==> lo <= n < hi)
    && (forall n: nat :: lo <= n < hi ==> ReleasedOnce(actions, n))
  }

  function CountLists(es: seq<Event>, table: Table): nat {
    if es == [] then 0 else ListsOf(es[0], table) + CountLists(es[1..], table)
  }

  lemma OwnedConcat(a: seq<Action>, b: seq<Action>, lo: nat, mid: nat, hi: nat)
    requires lo <= mid <= hi && Owned(a, lo, mid) && Owned(b, mid, hi)
    ensures Owned(a + b, lo, hi)
  {
    var c := a + b;
    forall n: nat | lo <= n < hi ensures ReleasedOnce(c, n) {
      if n < mid {
        assert ReleasedOnce(a, n);
        var i, j :| Lifetime(a, n, i, j);
        assert Lifetime(c, n, i, j);
      } else {
        assert ReleasedOnce(b, n);
        var i, j :| Lifetime(b, n, i, j);
        assert Lifetime(c, n, i + |a|, j + |a|);
      }
    }
  }

  lemma OneEventOwned(e: Event, table: Table, app: Table, list: nat)
    ensures Owned(Effects(e, table, app, list), list, list + ListsOf(e, table))
  {
    var fx := Effects(e, table, app, list);
    if ListsOf(e, table) == 1 {
      assert Lifetime(fx, list, 0, |fx| - 1);
    }
  }

  /** Every deserialised list is released exactly once, after every callback that
      gets it, whatever the events. */
  lemma {:induction false} EachListReleasedOnce(es: seq<Event>, table: Table, app: Table, list: nat)
    ensures Owned(AllEffects(es, table, app, list), list, list + CountLists(es, table))
  {
    if es != [] {
      var next := list + ListsOf(es[0], table);
      OneEventOwned(es[0], table, app, list);
      EachListReleasedOnce(es[1..], table, app, next);
      OwnedConcat(Effects(es[0], table, app, list), AllEffects(es[1..], table, app, next),
                  list, next, list + CountLists(es, table));
    }
  }
}
