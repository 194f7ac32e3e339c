# Verified model of KindleBT

KindleBT turns the asynchronous callbacks of `ace_bt` into blocking calls. This
project models that machinery in Dafny and proves what its callers rely on. The
code is modelled as it is, including the places where it does not do what one
would hope; for those, the exact condition under which it does is proved.

Verify everything with `dafny verify dfyconfig.toml`.

## The connection-context protocol

`Protocol.dfy` is a step system. Application threads run `bleConnect`,
`bleDisconnect`, `bleDiscoverAllServices`, `bleGetDatabase`, `bleRegister` and
`bleDeregister`; dispatcher threads run the callbacks. A step is one access to
shared state: a lookup, an add, a removal, a lock, an unlock, one write, each field
that a callback sets being a write of its own; only the two output pointers that
the database callback reads without a lock are read in one step. The environment begins calls and callbacks at any time, answers requests with any status, wakes waiters
spuriously and lets deadlines pass. `pthread_cond_timedwait`
follows IEEE Std 1003.1-2017 (System Interfaces, `pthread_cond_timedwait`): it
releases and blocks in one step, may wake for no reason, and may report a timeout
even after a signal; a signal reaches at least one waiter if there is any.

A context is identified by its mutex, which the record carries wherever it is
moved. A raw pointer to a context is a block generation and an index:
`dca_add_new` starts a new generation when it reallocates, `dca_remove` changes
what an index denotes. Following a dead pointer is undefined in C, and such a step
has no successor in the model. `PointerStability.dfy` proves exactly when that
never happens: a run keeps all pointers good if and only if each of its adds and
removals respects a guard (an add finds room or no pointer is held; a removal
takes an entry above every held pointer). The results about runs assume the guard,
and one lemma shows that the library itself does not enforce it: a fifth
concurrent `bleConnect` moves the array under the first four.

`Protocol.dfy` has one program counter for all calls, which suits proofs about
interleaving but is not how the source reads. `Programs.dfy` therefore writes down
the text of each of the six calls and four kinds of callback as a small structured
program, with an execution of its own, and proves that whatever a thread of a guarded
run does, seen from outside (what it looks up, sees, changes, locks, returns), is an
execution of its call's text.

The state also keeps a history of the events that callbacks applied, each with the
context it was routed to when the callback looked it up. It takes no part in what
the library does; it is what the theorems speak about.

| File | Content |
|---|---|
| `DeviceContexts.dfy` | the context record, first-match lookup, the growing array as a class |
| `Protocol.dfy` | states, steps and runs |
| `PointerStability.dfy` | when raw pointers stay good |
| `LockDiscipline.dfy` | mutual exclusion, no deadlock, what a failed clone does |
| `Deliveries.dfy` | which context a call is about, and which callbacks are behind the history |
| `EventFold.dfy` | each context is what the events routed to it say |
| `Programs.dfy` | the text of every call and callback, and that every thread of a run executes it |
| `Wakeups.dfy` | no lost wakeup, and exactly when one can be lost |
| `Timeouts.dfy` | exactly when a wait times out |
| `ApiResults.dfy` | what an OK of each blocking call certifies |
| `NewContexts.dfy` | a context has no address and no handle until its call copies the address |
| `RunSteps.dfy` | runs extended step by step, and by the steps of whole calls and callbacks |
| `DatabasePair.dfy` | the two outputs of `bleGetDatabase`, and exactly when an OK certifies them |
| `StaleDiscovery.dfy` | exactly when an OK of `bleDiscoverAllServices` certifies a discovery |
| `NonInterference.dfy` | what keeps devices apart when no two share an address or a handle |
| `DisconnectTarget.dfy` | if no device gets a second handle, the context that a `bleDisconnect` found keeps its own |
| `DeviceIsolation.dfy` | devices do not disturb each other, and exactly when `bleDisconnect` removes the context it waited for |
| `SoloRuns.dfy` | every context is also reached by its own device alone |
| `Shadowing.dfy` | a stale context and the next attempt on its address: exactly when it can succeed |
| `Scenarios.dfy` | runs from the empty state in which each weak spot shows |
| `CStrings.dfy`, `BdAddr.dfy` | address text: filter, validator, decoder, printer, round trips |
| `TextBuffer.dfy`, `GattDump.dfy` | the growing text buffer and the service rendering |
| `GattReadBack.dfy` | reading the rendering back |
| `DumpHex.dfy` | the memory dump |
| `GattSearch.dfy` | characteristic search and notification request |
| `Dispatch.dfy`, `Registration.dfy` | the pre-5.17 event handler, the wrappers, registration and rollback |

## Where the code falls short

- Nothing enforces the pointer guard (`FifthConnectBreaksPointers`).
- A failed clone returns with the mutex held (`FailedCloneLeavesMutexHeld`). The
  application's callback then runs with it held (`AppCallbackHoldsIffCloneFailed`) and
  the context is wedged until it is removed: waiters cannot even report their timeout
  (`FailedCloneWedges`).
- An OK of `bleGetDatabase` does not always certify its outputs, although the manual
  text in `include/kindlebt/kindlebt.h:128-140` promises them; the model follows the
  code. The outputs of an OK are a delivered pair if and only if a database reached the
  context after the call stored its pointers and before another call stored there
  (`OkIsOnePair`). `gattdb_retrieved` is never reset: as long as no other call stores
  its pointers in the same context, an OK certifies such a pair if and only if the
  flag was clear when the call had locked the context to store them
  (`StaleOkIffFlagSet`, with a run in `SecondDatabaseIsStale`).
  And when another call does store there in between, the callback writes to that
  call's locations, and the first call can return OK with its outputs never written,
  flag clear or not (`OverwrittenPointersGiveOk`).
- `gattc_discovered` is never reset either: an OK of `bleDiscoverAllServices` certifies
  a discovery that came during the call if and only if the flag was clear when the
  call found its context (`StaleDiscoveryIffFlagSet`).
- Between the first two field writes of a connection callback a context is both
  connected and disconnected (`BothFlagsInside`). That is the only time
  (`ContextsAreHistories`), and no call reads these flags then.
- A wait returns TIMEOUT if and only if its last wakeup reported a timeout
  (`WaitTimesOutIff`); the flag is not looked at again, so a notified waiter whose flag
  is set can time out (`NotifiedWaiterTimesOut`).
- With more than one waiter on a condition variable a wakeup can be lost: exactly then
  can a signalling callback leave a waiter asleep with its flag true and the mutex free
  (`WakeupLostIffTwoWaiters`, with a run in `SecondWaiterIsLost`).
- A context left by a failed `bleConnect` shadows the next one with its address: a
  `bleConnect` can return OK if and only if none of the older contexts has its address
  (`ConnectsIffNotShadowed`, with a run in `RetryIsShadowed`).
- `bleDisconnect` looks its context up again before it removes it: it removes the one
  it waited on, if that is still there, if and only if the device has not reconnected
  with another handle (`DisconnectRemovesTargetIff`).
- `append_to_buffer` concatenates if and only if the fragment stays under 512
  characters (`Append`).
- A refused registration is rolled back to nothing, not to what was registered
  before (`LostRegistration`), and a refused handler is not rolled back;
  `RegisterGattClient` says exactly when a failure leaves the session as it was.

## Model

| member | source | states |
|---|---|---|
| DeviceContexts.FirstByHandle | src/kindlebt_utils.c:267-272 | the lookup by handle gives the first match, and nothing only if no entry matches |
| DeviceContexts.FirstByAddress | src/kindlebt_utils.c:274-279 | the lookup by address gives the first match, and nothing only if no entry matches |
| DeviceContexts.DeviceArray.AddNew | src/kindlebt_utils.c:251-265 | appends one zeroed context; the block moves exactly when it was full; all growths together have copied at most twice as many entries as were added |
| DeviceContexts.DeviceArray.FindByHandle | src/kindlebt_utils.c:267-272 | the loop finds the first match of the plain sequence |
| DeviceContexts.DeviceArray.FindByAddress | src/kindlebt_utils.c:274-279 | the loop finds the first match of the plain sequence |
| DeviceContexts.DeviceArray.CloseGap | src/kindlebt_utils.c:287-289 | shifting leaves the sequence without that one entry, the rest in order |
| DeviceContexts.DeviceArray.Remove | src/kindlebt_utils.c:281-296 | succeeds exactly when the handle occurs, deletes only its first match and keeps order and contents of the others |
| DeviceContexts.GrownIsCapacity | src/kindlebt_utils.c:252-256 | capacity is always 0 or four times a power of two, and growing really grows |
| PointerStability.StepStableIffGuard | src/kindlebt_utils.c:251-296 | a step keeps every held pointer on its device if and only if it respects the guard |
| PointerStability.PointersStableIffGuarded | src/kindlebt_utils.c:251-296 | over a whole run, every pointer denotes its device in every state if and only if every add and removal respected the guard |
| PointerStability.FifthConnectBreaksPointers | src/kindlebt.c:142-149 | there is a run of the library in which a pointer in use goes stale |
| LockDiscipline.AtMostOneMutex | src/kindlebt_utils.c:224-249 | if clones succeed, a thread holds a mutex exactly when it is inside that mutex's critical section, so at most one, and none at the end of a call or in an application callback |
| LockDiscipline.NoDeadlock | src/kindlebt_utils.c:224-249 | if clones succeed, a thread that wants a mutex can take it or its holder can step |
| LockDiscipline.AppCallbackHoldsIffCloneFailed | src/kindlebt_callbacks.c:143-154 | a callback reaches the application holding a mutex exactly when its clone failed |
| Scenarios.FailedCloneLeavesMutexHeld | src/kindlebt_callbacks.c:143-148 | a guarded run that ends at the application's callback with the context's mutex held for good |
| LockDiscipline.FailedCloneWedges | src/kindlebt_callbacks.c:144-148 | after a failed clone no thread ever enters a critical section of that context again |
| Programs.CallsFollowTheirTexts | src/kindlebt.c:54-178 | over every guarded run, what any thread does in its latest call, including what it reads, writes and returns, is an execution of the source text of that call or callback |
| Deliveries.HandleLookup | src/kindlebt.c:96-100 | a call that is given a handle goes on with the first context that has it, and fails with UNINITIALIZED exactly when there is none |
| Deliveries.ContextIsFirstAskedFor | src/kindlebt_utils.c:267-279 | over every guarded run, a call or callback that has a context, or has returned OK, looked it up in that same call, and it was the first one with the call's handle or address |
| Deliveries.HistoryOfDeliveries | src/kindlebt_callbacks.c:97-111 | over every guarded run the history consists of one entry for each callback that reported a success and made its change (or `bleDeregister`), routed to the context it had looked up, and of nothing else |
| EventFold.ContextsAreHistories | src/kindlebt_callbacks.c:91-125 | in every reachable state discovery and database flags of a context, and its handle if any, say exactly what the events routed to it since its creation say; so do the connection flags, and all equal their replay, except while a connection callback is between its first and its last field write, which is also the only time both are set; and these events are exactly those of the callbacks that reported a success |
| EventFold.VarsAreHistories | src/kindlebt_utils.c:244-249 | in every reachable state each callback variable is the value last delivered to it, and false before that |
| EventFold.ReplayReflects | src/kindlebt_callbacks.c:97-153 | applying the callbacks' effects one by one gives what reading the event list directly says |
| EventFold.ReflectionIsUnique | include/kindlebt/kindlebt_defines.h:259-282 | the event list determines handle and flags |
| EventFold.RoutingIsFirstMatch | src/kindlebt_callbacks.c:91-95 | callbacks are routed to the first context that matches by address, or by handle |
| Wakeups.NoLostWakeup | src/kindlebt_utils.c:230-248 | with one waiter per condition variable, a blocked waiter whose flag is true has a mutex holder that is between its first field write and its signal; never with the mutex free |
| Wakeups.WakeupLostIffTwoWaiters | src/kindlebt_utils.c:224-249 | a callback about to signal can leave a waiter asleep with its flag true and the mutex free if and only if some waiter's flag is true and there is more than one waiter |
| Scenarios.SecondWaiterIsLost | src/kindlebt.c:95-106 | a guarded run with two discoveries on one handle in which that happens |
| Timeouts.RelockOutcome | src/kindlebt_utils.c:230-240 | a waiter that gets its mutex back returns TIMEOUT if its wakeup reported one, and otherwise goes on if and only if its flag is set |
| Timeouts.WaitTimesOutIff | src/kindlebt_utils.c:230-240 | over any run, the unlock that ends a wait makes the call return TIMEOUT if and only if the call's last wakeup reported a timeout |
| Scenarios.NotifiedWaiterTimesOut | src/kindlebt_utils.c:233-236 | a guarded run in which a call returns TIMEOUT with its flag set |
| ApiResults.ConnectReturnsLastHandle | src/kindlebt.c:138-157 | OK only after a callback with a success status delivered a CONNECTED event to the created context; the handle is that of the last such event before the second lock |
| ApiResults.OkMeansEventSeen | src/kindlebt.c:159-170 | OK only if, when the flag was seen under the mutex, the events said so; for a disconnect the last state change was DISCONNECTED; likewise discovery, database and registration; and the context is the first one that had the call's handle when the call looked it up |
| ApiResults.DisconnectReturnsByRemoval | src/kindlebt.c:169-177 | over every guarded run `bleDisconnect` returns OK in no other step than its removal |
| ApiResults.DisconnectRemovesFirstMatch | src/kindlebt.c:172-177 | over every guarded run, when `bleDisconnect` returns OK the first match has just gone, the others keep order and contents, and no match remains if and only if the handle was unique |
| Scenarios.DisconnectedRun | src/kindlebt.c:159-178 | a guarded run in which `bleDisconnect` returns OK and its context is gone |
| Scenarios.ConnectedRun | src/kindlebt.c:128-157 | a guarded run in which `bleConnect` returns OK with the device's handle |
| Scenarios.BothFlagsInside | src/kindlebt_callbacks.c:97-103 | a guarded run to an instant inside a connection callback at which its context is both connected and disconnected |
| DatabasePair.OkIsOnePair | src/kindlebt.c:108-126 | at an OK the outputs are services and count of one callback exactly when a database came after the call stored its pointers and before another call stored in the context, and then of the last such callback; one did come, if there had been none before and no other call stored |
| DatabasePair.OutsAreLastStored | src/kindlebt.c:117-120 | over any run, a context's output pointers are those of the last call that stored there, and unset if none has |
| DatabasePair.FlagCompletesPair | src/kindlebt_callbacks.c:143-152 | over any run, whenever a callback's last write reaches a context, the locations of its last caller hold that callback's services and count together |
| StaleDiscovery.StaleDiscoveryIffFlagSet | src/kindlebt.c:95-106 | over all guarded continuations, a `bleDiscoverAllServices` that has found its context, the first with its handle, with its mutex free, can return OK without a discovery delivered since if and only if the flag was set |
| DatabasePair.StaleOkIffFlagSet | src/kindlebt.c:111-125 | over all guarded continuations without another store in the context, the call can return OK without a pair delivered since it stored its pointers if and only if the flag was set when it had locked the context to store them |
| Scenarios.SecondDatabaseIsStale | src/kindlebt.c:117-125 | a guarded run in which an OK has outputs that were never written because the flag was set |
| Scenarios.OverwrittenPointersGiveOk | src/kindlebt.c:111-125 | a guarded run in which an OK has outputs that were never written although the flag was clear, because another call stored in between |
| DeviceIsolation.ContextIsItsDevice | src/kindlebt_callbacks.c:80-126 | if no two devices share an address or a handle, a context says what the events naming its device say, found by name alone, under whatever handles it reconnects |
| DeviceIsolation.OtherDevicesDoNotMatter | src/kindlebt_utils.c:267-296 | two runs that deliver the same events of a device leave its context the same, whatever other devices do and whichever handles these have |
| SoloRuns.SoloRunExists | src/kindlebt_callbacks.c:80-126 | for every context of a run in which no two devices share an address or a handle there is a run with one context and only that device's events, the same in the same order, that ends with the same context |
| DeviceIsolation.DisconnectRemovesTargetIff | src/kindlebt.c:159-178 | if no two devices share an address or a handle, a `bleDisconnect` that returns OK has just removed the context it waited on, if that was still there, exactly when it still had the call's handle, and no context with that handle is left |
| DeviceIsolation.DisconnectRemovesItsTarget | src/kindlebt.c:159-178 | if moreover no device ever gets a second handle, a `bleDisconnect` that returns OK has just removed the context it waited on and no other, unless another call removed that one before |
| Shadowing.RoutedIffFirst | src/kindlebt_callbacks.c:91-97 | a successful link change reaches a context with its address if and only if no older one has it |
| Shadowing.ShadowedNeverConnects | src/kindlebt_utils.c:274-277 | behind an older context with its address, a context is never connected |
| Shadowing.ConnectsIffNotShadowed | src/kindlebt.c:138-157 | over all guarded continuations, a `bleConnect` that has copied its address, with its mutex free, can return OK if and only if no older context has that address |
| Scenarios.RetryIsShadowed | src/kindlebt.c:142-150 | a guarded run in which a refused `bleConnect` leaves its context and the next one to the address can never return OK |
| BdAddr.RemoveAllChars | src/kindlebt_utils.c:18-25 | the in-place filter leaves the string without the character |
| BdAddr.DigitTable | src/kindlebt_utils.c:34-44 | the sixteen digits have the values 0 to 15 in both cases and are printed in upper case |
| BdAddr.OnlyDigitsAreHex | src/kindlebt_utils.c:34-44 | exactly these characters are hexadecimal digits |
| BdAddr.PrintedAt | src/kindlebt_utils.c:27-32 | byte i is printed at 3i, high digit first, with colons between the bytes |
| BdAddr.DigitRoundTrip | src/kindlebt_utils.c:34-44 | digit values print and read back, in upper case |
| BdAddr.DecodeAt | src/kindlebt_utils.c:51-59 | byte i comes from the digits at 2i and 2i+1 |
| BdAddr.ConvertHexStrToByteArray | src/kindlebt_utils.c:46-62 | the loop decodes the text up to its length modulo 256, two digits a byte, and touches nothing else |
| BdAddr.ConvertStrToBdAddr | src/kindlebt_utils.c:64-101 | accepts exactly twelve digits or the colon form, decodes them, leaves the address untouched on rejection, and says what happens to the text; its last check cannot fail |
| BdAddr.ColonPatternAccepted | src/kindlebt_utils.c:74-91 | filtering and counting decide exactly the colon form |
| BdAddr.ConvertBdAddrToStr | src/kindlebt_utils.c:27-32 | writes the printed address and its NUL |
| BdAddr.ParsePrinted | src/kindlebt_utils.c:27-101 | parsing the printed form of any six bytes returns them |
| BdAddr.PrintParsed | src/kindlebt_utils.c:27-101 | printing what an accepted text parses to gives its upper-case colon form |
| TextBuffers.TextBuffer.Append | src/kindlebt_log.c:11-33 | the buffer's string becomes the concatenation if and only if the fragment is under 512 characters, then with a NUL at the offset; each growth is to twice what is needed, which more than doubles the size, and all outgrown sizes together stay below it |
| TextBuffers.TextBuffer.AppendAll | src/kindlebt_log.c:11-33 | after any sequence of such appends the buffer holds all fragments joined, and all outgrown sizes add up to less than its size |
| GattDump.PrintUuid | src/kindlebt_utils.c:103-112 | prints the 47 characters of a UUID, or what the limit leaves of them |
| GattReadBack.UuidInOrder | src/kindlebt_utils.c:103-112 | byte i of a UUID is printed at 3i in two lower-case digits, with blanks between |
| GattReadBack.RenderingReadsBack | src/kindlebt_utils.c:114-170 | any rendering reads back as the service's listing: types, UUIDs in byte order, counters, which characteristics notify, and which descriptors each one has, in list order with included services before characteristics |
| GattDump.DumpServer | src/kindlebt_utils.c:114-170 | appends exactly the rendering and moves the offset by its length; a missing service leaves the buffer alone |
| GattDump.DumpNumbered | src/kindlebt_utils.c:156-165 | the descriptor list in order with an eight-bit counter from 1 |
| GattDump.RenderedLines | src/kindlebt_utils.c:114-170 | the rendering has one line for the service, each included service, each characteristic and each shown descriptor, and no other |
| GattDump.ListInOrder | src/kindlebt_utils.c:134-148 | entries appear in list order, entry i with counter i (for characteristics modulo 256) |
| GattDump.CharacteristicFragment | src/kindlebt_utils.c:137-148 | a characteristic's line is one line under 512 characters |
| DumpHex.DumpBytes | src/compat_ace_utils.c:10-29 | within a buffer of 3n + ceil(n/16) + 1 characters nothing is truncated, and the text ends at 3n + floor(n/16) |
| DumpHex.DumpAt | src/compat_ace_utils.c:20-26 | byte i stands at 3i + floor(i/16), two digits and a blank, and a line end follows if and only if 16 divides i + 1 |
| DumpHex.UndumpDump | src/compat_ace_utils.c:20-26 | the text decodes back to the bytes |
| GattSearch.FindCharRec | src/kindlebt_utils.c:172-195 | the first characteristic in traversal order whose UUID prefix matches; none exactly when none does |
| GattSearch.LittleEndian16 | src/compat_ace_implementations.c:310-313 | the two bytes encode the value, low byte first |
| GattSearch.SetNotification | src/compat_ace_implementations.c:272-331 | the error of each stage, and a descriptor write to the first set-and-notify descriptor with value 1 or 0 exactly when every stage before succeeded |
| Dispatch.Session.Handle | src/compat_ace_handler.c:9-194 | one event's effects through the registered table and the wrappers; nothing without a session or a table |
| Dispatch.Session.HandleAll | src/compat_ace_handler.c:9-194 | the effects of any event sequence in order |
| Dispatch.Clamp | src/compat_ace_handler.c:64-72 | the size is the smaller of the data's length and 65535 |
| Dispatch.TraceIsProjection | src/kindlebt_callbacks.c:211-263 | the application's trace is the projection of the events onto the wired kinds, one call each, with clamped value sizes |
| Dispatch.LibraryTraceIsProjection | src/kindlebt_callbacks.c:211-229 | whatever callbacks the application has, the library's own updates are one for each discovery and database event that the registered table handles, in order and with the event's data |
| Dispatch.LibraryTableWiresAll | src/kindlebt.c:31-38 | with the library's table the application gets every event for which it has a callback, and the library every discovery and database event |
| Dispatch.LibraryAlwaysFirst | src/kindlebt_callbacks.c:211-229 | discovery and database calls to the application come right after the library's own update |
| Dispatch.EachListReleasedOnce | src/compat_ace_handler.c:178-186 | every deserialised list is released exactly once, after all its uses |
| Registration.Client.RegisterGattClient | src/compat_ace_implementations.c:53-106 | which registrations survive each failure, exactly when a failure leaves the session as it was, and that OK means events are delivered |
| Registration.RegisterAndHandle | src/kindlebt.c:79-89 | after an OK the application gets every event for which it has a callback, in order, through its new table if it gave one |
| Registration.LostRegistration | src/compat_ace_implementations.c:84-106 | a client that was registered and registers again is left with nothing registered when the server refuses |

## Left out

- Interleaving inside one lookup, add or removal: each is one step, although the array has no lock in the source; unsynchronised word-level accesses are likewise taken in some order.
- What a program does after it has followed a dead pointer, or locked a destroyed mutex: undefined in C.
- Wall-clock time: the ten-second deadline is a timeout that may happen at any time while a thread waits.
- Allocation failure in `dca_add_new`, in `append_to_buffer` and in `dump_hex`: assumed to succeed, as is every `size_t` computation except that of `dump_hex`.
- `dca_free`, which the library itself never calls.
- A NULL output pointer passed to `bleGetDatabase`: the caller's obligation, so a stored out-pointer is never reset to NULL.
- Internals of `aceBT_*`, the serialisers, clone and cleanup: they answer with arbitrary statuses; a clone either copies or fails with arbitrary services left behind.
- Symbol lookup in src/compat_ace.c, src/compat_ace_shims.c and src/compat_acealloc.c: the shims are the pre-5.17 implementation or the environment.
- Radio, session, read and write wrappers, bond-state logging, the other `dump_*` functions, packed layouts, callback masks and session-handle packing: no property beyond their bodies.
- A UUID comparison longer than sixteen bytes in `utilsFindCharRec`: it would read past the UUID.
- DisconnectRemovesTargetIff: assumes a non-NULL handle and that no two devices share an address or a handle, which the library does not enforce; without them DisconnectRemovesFirstMatch says what is removed.
- DisconnectRemovesItsTarget: assumes moreover one handle per device; without it DisconnectRemovesTargetIff says when the target is removed.
- Update in place by src/kindlebt.c and src/kindlebt_callbacks.c: because their threads interleave they are transitions on state values, with pointers into the array made explicit as generation and index.
- OkIsOnePair: assumes that from the call's store on no other context in the array holds the call's output locations, and no later call stores them again in the same context, as does FlagCompletesPair; StaleOkIffFlagSet assumes the first when the call is about to store and speaks of continuations that keep both.
- ContextIsItsDevice: assumes that no two contexts share an address and no two devices a handle, non-zero addresses and non-NULL handles, since a context has address zero before the address is copied and handle NULL before it is connected.
- ConnectsIffNotShadowed: assumes that no call or event names the zero address, which is what a context has before its address is copied, and that the new context's mutex is free.
- StaleDiscoveryIffFlagSet: assumes that the context's mutex is free when the call has found it.
