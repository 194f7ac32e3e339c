/** Registering the GATT client on firmware before 5.17: four calls and a rollback. */
module Registration {
  import opened Types
  import opened Dispatch

  /** Answers of the session manager and of the server to one registration. */
  datatype Answers = Answers(info: Status, data: Status, handler: Status, sync: Status, undoData: Status,
                             undoHandler: Status)

  /** What a session has registered; events reach the client table only with both. */
  datatype Registered = Registered(client: Option<Table>, handler: bool)

  predicate Delivers(r: Registered) {
    r.client.Some? && r.handler
  }

  /** The answers up to the server's let the call succeed. */
  predicate AllOk(a: Answers) {
    a.info == Ok && a.data == Ok && a.handler == Ok && a.sync == Ok
  }

  /** When a failed registration leaves the session as it was: if it did not come to
      change it, or if what it left behind happens to be what was there before. */
  predicate Restored(a: Answers, before: Registered) {
    || a.info != Ok || a.data != Ok
    || (a.handler != Ok && before.client == Some(LIBRARY_TABLE))
    || (a.handler == Ok && (before.client == None <==> a.undoData == Ok) && (before.handler <==> a.undoHandler != Ok)
        && (before.client.Some? ==> before.client.value == LIBRARY_TABLE))
  }

  class Client {
    var app: Table
    var session: Registered

    constructor (app: Table)
      ensures this.app == app && session == Registered(None, false)
    {
      this.app := app;
      session := Registered(None, false);
    }

    /** `registerBTClientData` and `registerBTEvtHandler` take effect if they succeed. */
    method SetClient(status: Status, table: Option<Table>)
      modifies this`session
      ensures session == if status == Ok then old(session).(client := table) else old(session)
    {
      if status == Ok {
        session := session.(client := table);
      }
    }

    method SetHandler(status: Status, present: bool)
      modifies this`session
      ensures session == if status == Ok then old(session).(handler := present) else old(session)
    {
      if status == Ok {
        session := session.(handler := present);
      }
    }

    /** `bleRegisterGattClient`. The application's table is replaced first, whatever
        happens next. An OK means that events reach the library's table. A refusal
        by the server is rolled back to nothing at all, so a client that was
        registered before is lost; a refused handler is not rolled back, and the
        table stays behind. */
    method RegisterGattClient(callbacks: Option<Table>, a: Answers) returns (status: Status)
      modifies this
      ensures app == if callbacks.Some? then callbacks.value else old(app)
      ensures status == Ok <==> AllOk(a)
      ensures status == Ok ==> session == Registered(Some(LIBRARY_TABLE), true)
      ensures a.info != Ok ==> status == BadParam && session == old(session)
      ensures a.info == Ok && a.data != Ok ==> status == a.data && session == old(session)
      ensures a.info == Ok && a.data == Ok && a.handler != Ok ==>
                status == a.handler && session == Registered(Some(LIBRARY_TABLE), old(session).handler)
      ensures a.info == Ok && a.data == Ok && a.handler == Ok && a.sync != Ok ==>
                && status == a.sync
                && (Delivers(session) <==> a.undoData != Ok && a.undoHandler != Ok)
                && (a.undoData == Ok <==> session.client == None) && (a.undoHandler == Ok <==> !session.handler)
                && (session.client.Some? ==> session.client.value == LIBRARY_TABLE)
      ensures status != Ok ==> (session == old(session) <==> Restored(a, old(session)))
    {
      if callbacks.Some? {
        app := callbacks.value;
      }
      if a.info != Ok {
        return BadParam;
      }
      SetClient(a.data, Some(LIBRARY_TABLE));
      if a.data != Ok {
        return a.data;
      }
      SetHandler(a.handler, true);
      if a.handler != Ok {
        return a.handler;
      }
      if a.sync != Ok {
        SetClient(a.undoData, None);
        SetHandler(a.undoHandler, false);
      }
      return a.sync;
    }
  }

  /** A registered client that registers again and is refused by the server: it gets
      the server's error, and nothing is registered any more. */
  method LostRegistration() returns (before: Registered, status: Status, after: Registered)
    ensures Delivers(before) && status != Ok && after == Registered(None, false)
  {
    var client := new Client(LIBRARY_TABLE);
    var ok := client.RegisterGattClient(None, Answers(Ok, Ok, Ok, Ok, Ok, Ok));
    before := client.session;
    status := client.RegisterGattClient(None, Answers(Ok, Ok, Ok, GeneralError, Ok, Ok));
    after := client.session;
  }

  /** What an OK means for the application: from then on it gets every event for which it
      has a callback, with `callbacks` in place of its old table if there are any. */
  method RegisterAndHandle(previous: Table, callbacks: Option<Table>, a: Answers, tasks: seq<Task>)
    returns (status: Status, actions: seq<Action>)
    requires forall t :: t in tasks ==> t.Valid()
    modifies tasks
    ensures status == Ok <==> AllOk(a)
    ensures var app := if callbacks.Some? then callbacks.value else previous;
            status == Ok ==> Projects(AppTrace(actions), Only((e: Event) => WantedBy(app, e), Snapshots(tasks)))
  {
    var client := new Client(previous);
    status := client.RegisterGattClient(callbacks, a);
    var session := new Session(client.app);
    if Delivers(client.session) {
      LibraryTableWiresAll(Snapshots(tasks), client.app, 0);
      session.HandleAll(tasks, client.session.client.value);
    }
    actions := session.actions;
    assert status == Ok ==> actions == AllEffects(Snapshots(tasks), LIBRARY_TABLE, client.app, 0);
  }
}
