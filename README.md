# BleManager — a Dafny model of the single-peripheral BLE controller

This project models `BleManager`, the controller at the centre of the
BluetoothLE-Multi-Library for Android. It owns one GATT connection to one
peripheral, and it covers:

- **the connection lifecycle:** `connect`, a shared retry budget spent by a connect watchdog and a service-discovery watchdog, `disconnect` and `close`;
- **the request queue:** it serialises characteristic reads, writes and notification/indication enables, so that at most one of them should be on the link at a time;
- **the listener registry:** listeners are removed by tag, and events go to the listeners that implement the event's interface;
- **the RSSI poller**;
- **decoding of the Peripheral Preferred Connection Parameters characteristic (0x2A04)**, which sets the queue's automatic pacing;
- **the transport callbacks** that drive all of the above.

The model has two layers.

- **Pure decisions are functions with lemmas about them:**
  - `BleTypes`: values and constants;
  - `ConnParams`: parameter decoding and Java's `(int)` truncation;
  - `GattChecks`: property-bit checks, what one dispatch does, the pacing choice and the notification/indication classifier;
  - `QueueSpec`: what `addRequest`, `startExecutor`, `next` and `runQueue` do to the queue;
  - `Listeners`: recipient sets and delivery logs;
  - `Retry`: the watchdog chain.
- **The controller is a class, `Manager.BleManager`:**
  - Its fields are the source's fields, and each method updates them in place.
  - Each method's contract ties the new state to the pure layer.
  - For example, `StartExecutor` is a `while` loop proved against `QueueSpec.Drain`.
  - The enable operations are loops proved against the fold `EnableRun`.

The environment appears as three logs that the controller appends to:

- `log`: each listener callback, with the listeners it reached;
- `calls`: the calls made on the GATT transport;
- `pending`: delayed actions posted to the main-thread handler.

Things the transport hands back become method parameters: the new session, service lookups, bond state and callback arguments. A delayed action runs when the environment calls its `Fire…` method with its index in `pending`.

In the source, a dispatcher whose checks fail reports the failure and calls `next()` itself. `next()` may call `runQueue`, which calls `startExecutor` again. That recursion appears in the model as the loop in `StartExecutor`, which runs one round per dispatch in `ExecuteHead` and `Advance`. Events and transport calls happen in the same order.

Where the library's documented behaviour and its code differ, the model follows the code:

- **Retry budget.** A budget of N buys N + 1 reconnects, not N. The watchdog calls `connect` first, and that call arms the next watchdog against the budget before it is decremented. Both watchdog methods are specified by one firing step, `Retry.WatchdogStep`, and `Retry.ReissuesForBudget` counts the reconnects of a chain of those steps.
- **Descriptor value.** The configuration descriptor is always written with the enable value (0x0001 or 0x0002), whatever the `enable` flag says. Only `setCharacteristicNotification` receives the flag (`GattChecks.DescriptorIgnoresEnable`).
- **Local registration.** `setCharacteristicNotification` is called before the descriptor check. A request rejected for a missing descriptor has therefore still changed the local registration (`GattChecks.DispatchEffect`).
- **Parameter decoding.** Octet pairs are combined as `hi * 16 + lo`. The Bluetooth Core Specification (Vol 3, Part C, section 12.3) lays them out as little-endian 16-bit values, `hi * 256 + lo`. The two agree exactly when every high octet is zero (`ConnParams.AgreesWithStandardIff`, `ConnParams.DecodeNotInjective`).
- **Stale session.** `disconnect` drops the session reference without closing it. The next `connect` therefore has nothing to close, and the old session is never closed.
- **Failed dispatch to the transport.** The queue ignores the boolean that the transport's write, read and descriptor-write calls return. A request whose operation the transport refuses gets no completion callback, so the queue stalls behind it.
- **Cancel while busy.** `cancelAll` empties the queue while an operation may still be in flight. The next `addRequest` then dispatches a second operation, and the outstanding completion calls `next()` and pops it.
- **Service watchdog.** The service-discovery watchdog is armed by the delayed discovery kick, not by a failed discovery. When it fires while the link is up, the `connect` it issues is rejected, yet the budget is still spent (`Manager.BleManager.FireServiceWatchdog`).
- **Existing session on connect.** `connect` with an existing session closes it and opens a new one; it does not fail.

## Model

All source paths are in `library/src/main/java/com/github/qindachang/library/`; the cells give the full path.

| member | source | states |
|---|---|---|
| BleTypes.FailureFor | library/src/main/java/com/github/qindachang/library/BleManager.java:503-538 | a locally detected failure carries code 233 and goes to the listener interface of the request's own kind |
| ConnParams.Decode | library/src/main/java/com/github/qindachang/library/BleManager.java:1101-1112 | the four fields are octet pairs combined as hi*16+lo; the two intervals are in units of 1.25 ms; uuid 0x2A04 and properties "READ" |
| ConnParams.TruncateToInt | library/src/main/java/com/github/qindachang/library/BleManager.java:1113 | Java's `(int)` of a double: the integer next to x toward zero, within distance 1 of it |
| ConnParams.AutoQueueInterval | library/src/main/java/com/github/qindachang/library/BleManager.java:1113 | defines the automatic queue delay as the maximum interval cast to `int` plus 50 (no contract of its own; `AutoQueueIntervalBounds` bounds it) |
| ConnParams.AutoQueueIntervalBounds | library/src/main/java/com/github/qindachang/library/BleManager.java:1113 | for real octets the automatic queue delay is the maximum interval rounded down plus 50, never below 50 |
| ConnParams.DecodeExample | library/src/main/java/com/github/qindachang/library/BleManager.java:1101-1113 | octets 6,0,12,0,0,0,100,0 give 7.5 ms, 15 ms, latency 0, timeout 100 and an automatic delay of 65 ms |
| ConnParams.AgreesWithStandardIff | library/src/main/java/com/github/qindachang/library/BleManager.java:1103-1106 | the controller's decoding equals the standard's little-endian decoding if and only if all four high octets are zero |
| ConnParams.CombineDiffers | library/src/main/java/com/github/qindachang/library/BleManager.java:1103 | one octet pair combines the same way in both layouts exactly when its high octet is zero |
| ConnParams.DecodeNotInjective | library/src/main/java/com/github/qindachang/library/BleManager.java:1103-1106 | two different octet lists decode to the same parameters, which the standard layout tells apart |
| GattChecks.RequiredMask | library/src/main/java/com/github/qindachang/library/BleManager.java:528 | defines the property bits each kind needs: WRITE or WRITE_NO_RESPONSE, READ, NOTIFY, INDICATE, as tested at 528, 625, 816 and 900 (no contract of its own; `SupportsIff` states it bit by bit) |
| GattChecks.Supports | library/src/main/java/com/github/qindachang/library/BleManager.java:816 | defines the capability test as the property bits masked by the kind's required bits being non-zero (no contract of its own; `SupportsIff` states it) |
| GattChecks.DescriptorValueFor | library/src/main/java/com/github/qindachang/library/BleManager.java:544 | defines the configuration value an enable writes: the indication value for indications (641), the notification value otherwise, whatever the `enable` flag (no contract of its own; `DescriptorIgnoresEnable` states it) |
| GattChecks.SupportsIff | library/src/main/java/com/github/qindachang/library/BleManager.java:528 | a write needs WRITE or WRITE_NO_RESPONSE, a read needs READ, a notification enable needs NOTIFY and an indication enable needs INDICATE (neither bit admits the other kind); checked bit by bit |
| GattChecks.EventsOf | library/src/main/java/com/github/qindachang/library/BleManager.java:503-558 | a dispatch reports exactly one failure when it is rejected and none when it passes, to the request kind's interface |
| GattChecks.DispatchEffect | library/src/main/java/com/github/qindachang/library/BleManager.java:503-558 | a dispatch passes if and only if a session is held, the characteristic is present and supports the kind, and an enable request's characteristic has its configuration descriptor |
| GattChecks.DispatchAirborne | library/src/main/java/com/github/qindachang/library/BleManager.java:789-830 | a passing dispatch starts exactly one operation on the link and a rejected one none; that operation is on the request's characteristic |
| GattChecks.DescriptorIgnoresEnable | library/src/main/java/com/github/qindachang/library/BleManager.java:540-546 | enabling and disabling write the same descriptor value, which is never the disable value |
| GattChecks.NextDelay | library/src/main/java/com/github/qindachang/library/BleManager.java:1346-1366 | defines the pacing delay of `next()`: none when pacing is off, the automatic interval for a negative delay time, the fixed time otherwise (no contract of its own; `NextDelayCases` states it case by case) |
| GattChecks.NextDelayCases | library/src/main/java/com/github/qindachang/library/BleManager.java:1346-1366 | no pacing if and only if queue delay is off; a negative delay time selects the automatic interval, any other the fixed time |
| GattChecks.IsNotification | library/src/main/java/com/github/qindachang/library/BleManager.java:1216 | defines the classifier of incoming values: a notification unless the descriptor exists, holds two octets and its first octet is not 0x01 (no contract of its own; `ClassifierAfterEnable` states what it gives after each enable) |
| GattChecks.ClassifierAfterEnable | library/src/main/java/com/github/qindachang/library/BleManager.java:1215-1231 | a descriptor holding the value that an enable of kind k writes routes incoming values to k's listeners; a descriptor at the disable value routes them to indication listeners |
| Listeners.Recipients | library/src/main/java/com/github/qindachang/library/BleManager.java:1012-1016 | an event reaches exactly the registered listeners implementing its interface |
| Listeners.Tagged | library/src/main/java/com/github/qindachang/library/BleManager.java:1280-1290 | the listeners of a tag are exactly the registered ones carrying that tag object |
| Listeners.Deliveries | library/src/main/java/com/github/qindachang/library/BleManager.java:1115-1124 | defines the delivery of a run of events as one listener loop per event, in order; its contract keeps one delivery per event (`DeliveriesSpec` states the rest) |
| Listeners.DeliveriesSpec | library/src/main/java/com/github/qindachang/library/BleManager.java:1115-1124 | a run of events is delivered one by one, in order, each to the listeners implementing its interface |
| Listeners.DeliveriesAppend | library/src/main/java/com/github/qindachang/library/BleManager.java:1115-1124 | delivering two runs of events in turn is delivering their concatenation |
| Listeners.CancelledTagNeverReached | library/src/main/java/com/github/qindachang/library/BleManager.java:1276-1290 | after a tag's listeners are removed no event reaches a listener of that tag, and every other listener hears what it heard before |
| QueueSpec.DrainSuffix | library/src/main/java/com/github/qindachang/library/BleManager.java:1328-1373 | what `startExecutor` leaves is a suffix of the queue, in order, and every request it removed was rejected by its checks |
| QueueSpec.DrainStops | library/src/main/java/com/github/qindachang/library/BleManager.java:1328-1373 | in the paced mode the whole queue stays and a rejection posts `runQueue` with the pacing delay; the immediate mode stops only at a passing head or an empty queue |
| QueueSpec.DrainEvents | library/src/main/java/com/github/qindachang/library/BleManager.java:1328-1373 | the i-th event is the failure of the i-th request in the queue: of its own kind, with the reason its checks gave, to its kind's interface. There is one per removed request, plus one for a paced rejection |
| QueueSpec.DrainAirborne | library/src/main/java/com/github/qindachang/library/BleManager.java:1328-1373 | after `startExecutor` exactly one operation is on the link when a request is left in flight at the head, and none otherwise |
| QueueSpec.DrainSpec | library/src/main/java/com/github/qindachang/library/BleManager.java:1328-1373 | the shape, the exact failure events and the single operation on the link, together |
| QueueSpec.Next | library/src/main/java/com/github/qindachang/library/BleManager.java:1346-1373 | defines `next()`: in the paced mode it schedules `runQueue` after the delay and does nothing else; otherwise it runs `runQueue` at once (no contract of its own; `NextSpec` states what it does) |
| QueueSpec.NextSpec | library/src/main/java/com/github/qindachang/library/BleManager.java:1346-1373 | paced: the queue is kept, nothing is reported or sent, and `runQueue` is scheduled with the delay. Immediate: the head and then each following rejected request are removed, leaving a proper suffix; the i-th event is the failure of request i + 1; a request left at the head passed its checks and is the one operation in flight; an empty queue stays empty |
| QueueSpec.Drain | library/src/main/java/com/github/qindachang/library/BleManager.java:1328-1373 | defines `startExecutor` with the `next()`/`runQueue` chain it triggers on dispatch failures (no contract of its own; `DrainSpec` states what it does) |
| QueueSpec.AddRequest | library/src/main/java/com/github/qindachang/library/BleManager.java:1320-1326 | defines `addRequest`: append, and drain only when the queue was empty (no contract of its own; `AddRequestDispatchesIffEmpty` states what it does) |
| QueueSpec.RunQueue | library/src/main/java/com/github/qindachang/library/BleManager.java:1368-1373 | defines `runQueue`: remove the head and drain what is left, if anything (no contract of its own; `RunQueueRemovesHead` states what it does) |
| QueueSpec.AddRequestDispatchesIffEmpty | library/src/main/java/com/github/qindachang/library/BleManager.java:1320-1326 | appending to a busy queue dispatches nothing; appending to an empty one dispatches the new request, which either fails once or starts one link operation |
| QueueSpec.RunQueueRemovesHead | library/src/main/java/com/github/qindachang/library/BleManager.java:1368-1373 | on a queue of at most one request `runQueue` leaves it empty and does nothing else. Otherwise it removes the head, keeps the rest in order and dispatches the new head, which gives one failure or one link operation; in the paced mode that is all, and in the immediate mode the drain reports one failure per removed follower. A request left at the head with nothing scheduled passed its checks, and at most one operation reaches the link |
| QueueSpec.DrainWithoutSession | library/src/main/java/com/github/qindachang/library/BleManager.java:1328-1373 | without a session and without pacing one dispatch empties the queue, reporting each request's failure in order and touching no transport |
| Retry.WatchdogStep | library/src/main/java/com/github/qindachang/library/BleManager.java:478-491 | one watchdog firing. Once the awaited state is reached it changes nothing. Otherwise it reconnects exactly when the device is present and the link is down, re-arms exactly when it reconnects and `Arms` holds for the undecremented budget, and spends one unit |
| Retry.Arms | library/src/main/java/com/github/qindachang/library/BleManager.java:478-491 | defines when a firing re-arms the watchdog: retry on, budget above 0 and timeout above 0, tested before the decrement (no contract of its own; `WatchdogStep` and `NoRetryWithoutTimeout` use it) |
| Retry.Reissues | library/src/main/java/com/github/qindachang/library/BleManager.java:972-984 | defines the number of reconnects of a chain of watchdog firings against a transport that never connects (no contract of its own; `ReissuesForBudget` computes it) |
| Retry.ReissuesForBudget | library/src/main/java/com/github/qindachang/library/BleManager.java:478-491 | a chain of `WatchdogStep`s against a transport that never connects: a budget of N > 0 buys N + 1 reconnects and a budget of 0 or less buys none |
| Retry.ServiceWatchdogSpendsWhileConnected | library/src/main/java/com/github/qindachang/library/BleManager.java:974-982 | a service watchdog firing on a live link with services undiscovered reconnects nothing and arms nothing, yet spends one unit |
| Retry.NoRetryWithoutTimeout | library/src/main/java/com/github/qindachang/library/BleManager.java:479 | with retry off or no connect timeout the first connect arms no watchdog |
| Manager.ResolveWrite | library/src/main/java/com/github/qindachang/library/BleManager.java:701-759 | a write resolves if and only if a session, both UUIDs, the service and the characteristic exist, and then carries the new bytes |
| Manager.ResolveInService | library/src/main/java/com/github/qindachang/library/BleManager.java:833-870 | a read resolves if and only if a session and the service exist and the service holds the characteristic |
| Manager.HeldUuids | library/src/main/java/com/github/qindachang/library/BleManager.java:574-588 | the UUIDs of an enable operation that the service holds, at most one per UUID named |
| Manager.HeldUuidsIff | library/src/main/java/com/github/qindachang/library/BleManager.java:574-588 | a UUID is held exactly when the operation names it and the service holds it |
| Manager.ResolvedRequests | library/src/main/java/com/github/qindachang/library/BleManager.java:574-588 | the requests an enable operation builds are one per held UUID, in order: each of the operation's kind, on that UUID's characteristic, carrying the `enable` flag |
| Manager.MissingEvents | library/src/main/java/com/github/qindachang/library/BleManager.java:574-588 | an enable operation reports one missing-characteristic failure of its kind per UUID the service lacks, so every UUID gives exactly one request or one failure |
| Manager.EnqueueOrFail | library/src/main/java/com/github/qindachang/library/BleManager.java:745-758 | defines the report-or-enqueue step of the public operations: an unresolved lookup reports one failure of the operation's kind and leaves the queue as it is, a resolved one is `addRequest` of its request (no contract of its own; the method contracts of `EnqueueOrReport` and its callers are stated through it) |
| Manager.ReadCompletionEvents | library/src/main/java/com/github/qindachang/library/BleManager.java:1096-1158 | defines what a completed read reports: success for any read but the 0x2A04 parameter read, lost bonding for status 5, a transport error otherwise (no contract of its own; `BleManager.OnCharacteristicRead` uses it) |
| Manager.WriteCompletionEvents | library/src/main/java/com/github/qindachang/library/BleManager.java:1161-1206 | defines what a completed write reports: success, lost bonding for status 5, a transport error otherwise (no contract of its own; `BleManager.OnCharacteristicWrite` uses it) |
| Manager.ConnectRejection | library/src/main/java/com/github/qindachang/library/BleManager.java:420-440 | defines the failure a rejected `connect` reports: code 233 for a null device (425), code 0 for an existing link (437) (no contract of its own; `ConnectDid` uses it) |
| Manager.ConnectDid | library/src/main/java/com/github/qindachang/library/BleManager.java:418-464 | defines the whole effect of `connect`: a null device or a live link gives one failure and changes nothing else; otherwise any held session is closed, the new one opened, connecting reported and the watchdog posted when `Arms` holds (a predicate; `BleManager.Connect` and both watchdog methods state their new state by it) |
| Manager.ParameterReadPacesNext | library/src/main/java/com/github/qindachang/library/BleManager.java:1113 | after the parameter read, automatic pacing waits at least 50 ms |
| Manager.ResumeAfterHead | library/src/main/java/com/github/qindachang/library/BleManager.java:1328-1373 | one dispatch of the head, followed by `next()` on rejection, completes the drain or leaves the rest of it to the tail |
| Manager.HeadStepEnds | library/src/main/java/com/github/qindachang/library/BleManager.java:1328-1373 | a round that stops `startExecutor` leaves the queue and the logs exactly as the whole drain says |
| Manager.HeadPassed | library/src/main/java/com/github/qindachang/library/BleManager.java:1328-1344 | a passing head ends the drain with the queue unchanged |
| Manager.HeadPaced | library/src/main/java/com/github/qindachang/library/BleManager.java:1346-1361 | a rejected head in the paced mode ends the drain with one `runQueue` posted |
| Manager.HeadEmptied | library/src/main/java/com/github/qindachang/library/BleManager.java:1368-1373 | a rejected last request in the immediate mode ends the drain with the queue empty |
| Manager.HeadStepResumes | library/src/main/java/com/github/qindachang/library/BleManager.java:1368-1373 | a round that does not stop leaves a shorter queue from which the rest of the drain follows |
| Manager.EnableStep | library/src/main/java/com/github/qindachang/library/BleManager.java:574-588 | defines one UUID of an enable operation: a missing-characteristic failure, or `addRequest` of its request on the queue as it stands (no contract of its own; `EnableStepWhileBusy`, `EnabledMissing` and `EnabledFound` state what it does) |
| Manager.EnableRun | library/src/main/java/com/github/qindachang/library/BleManager.java:574-588 | defines the loop over the UUIDs as the `EnableStep`s in order (no contract of its own; `EnableRunWhileBusy` and `EnableRunFromIdle` give its closed forms) |
| Manager.EnableStepWhileBusy | library/src/main/java/com/github/qindachang/library/BleManager.java:574-588 | while the queue is busy, one UUID appends its request or reports its failure and dispatches nothing |
| Manager.EnableRunWhileBusy | library/src/main/java/com/github/qindachang/library/BleManager.java:561-598 | an enable operation on a busy queue appends the found requests in order, reports one failure per missing UUID, and makes no transport call and posts nothing |
| Manager.EnableRunFromIdle | library/src/main/java/com/github/qindachang/library/BleManager.java:561-598 | an enable operation of kind k on an idle queue leaves queued a suffix of its requests in order, and every request dropped before that suffix was rejected by its checks. Every event is a failure of kind k, and the failures plus the queued requests number the UUIDs plus the scheduled `runQueue`s. At most one `runQueue` is scheduled, and only with a request left queued. Exactly one operation is in flight when requests are left queued and nothing is scheduled, and then the head passed its checks; otherwise none |
| Manager.EnabledMissing | library/src/main/java/com/github/qindachang/library/BleManager.java:576-584 | a UUID the service lacks adds exactly its failure to what the operation has done |
| Manager.EnabledFound | library/src/main/java/com/github/qindachang/library/BleManager.java:585-587 | a UUID the service holds adds exactly what `addRequest` of its request does |
| Manager.BleManager.constructor | library/src/main/java/com/github/qindachang/library/BleManager.java:76-112 | the initial state: retry off with budget 1, no timeouts, no pacing, 1000 ms RSSI interval, automatic delay 400, no session, empty queue, registry and logs |
| Manager.BleManager.SetConfig | library/src/main/java/com/github/qindachang/library/BleManager.java:115-119 | sets the queue delay time and whether pacing is on |
| Manager.BleManager.SetRetryConnectEnable | library/src/main/java/com/github/qindachang/library/BleManager.java:394-397 | sets whether retry is on |
| Manager.BleManager.SetConnectTimeoutMillis | library/src/main/java/com/github/qindachang/library/BleManager.java:400-403 | sets the connect watchdog's timeout |
| Manager.BleManager.SetServiceTimeoutMillis | library/src/main/java/com/github/qindachang/library/BleManager.java:406-409 | sets the discovery watchdog's timeout |
| Manager.BleManager.SetRetryConnectCount | library/src/main/java/com/github/qindachang/library/BleManager.java:412-415 | sets the shared retry budget |
| Manager.BleManager.SetReadRssiIntervalMillisecond | library/src/main/java/com/github/qindachang/library/BleManager.java:923-925 | sets the RSSI polling period |
| Manager.BleManager.Emit | library/src/main/java/com/github/qindachang/library/BleManager.java:1012-1016 | a callback round appends one delivery to exactly the listeners implementing the event's interface |
| Manager.BleManager.AddLeListener | library/src/main/java/com/github/qindachang/library/BleManager.java:216-218 | adds the listener to the set; the result says whether it was new |
| Manager.BleManager.CancelTag | library/src/main/java/com/github/qindachang/library/BleManager.java:1280-1290 | removes exactly the listeners with the tag and keeps all others |
| Manager.BleManager.CancelTagList | library/src/main/java/com/github/qindachang/library/BleManager.java:1292-1300 | removes exactly the listeners in the list |
| Manager.BleManager.Destroy | library/src/main/java/com/github/qindachang/library/BleManager.java:1276-1278 | removes exactly the tag's listeners |
| Manager.BleManager.CancelAllTag | library/src/main/java/com/github/qindachang/library/BleManager.java:1303-1307 | empties the registry |
| Manager.BleManager.Write2Characteristic | library/src/main/java/com/github/qindachang/library/BleManager.java:789-830 | reports and calls what `DispatchEffect` of a write says, and passes exactly when it does |
| Manager.BleManager.Read2Characteristic | library/src/main/java/com/github/qindachang/library/BleManager.java:872-913 | reports and calls what `DispatchEffect` of a read says, and passes exactly when it does |
| Manager.BleManager.EnableNotification | library/src/main/java/com/github/qindachang/library/BleManager.java:503-558 | reports and calls what `DispatchEffect` of a notification enable says |
| Manager.BleManager.EnableIndication | library/src/main/java/com/github/qindachang/library/BleManager.java:600-655 | reports and calls what `DispatchEffect` of an indication enable says |
| Manager.BleManager.EnableConfiguration | library/src/main/java/com/github/qindachang/library/BleManager.java:503-558 | the shared body of the two enable dispatchers, as `DispatchEffect` says |
| Manager.BleManager.Dispatch | library/src/main/java/com/github/qindachang/library/BleManager.java:1330-1342 | dispatches by kind, with the effect `DispatchEffect` gives the request |
| Manager.BleManager.StartExecutor | library/src/main/java/com/github/qindachang/library/BleManager.java:1328-1344 | the queue, the listener log, the transport calls and the posted actions end exactly as `QueueSpec.Drain` of the old queue says |
| Manager.BleManager.ExecuteHead | library/src/main/java/com/github/qindachang/library/BleManager.java:1328-1344 | a round either completes the drain or shortens the queue and keeps the rest of the drain ahead |
| Manager.BleManager.Advance | library/src/main/java/com/github/qindachang/library/BleManager.java:1346-1373 | after a rejection: posts `runQueue` in the paced mode, otherwise pops the head; after a pass: nothing |
| Manager.BleManager.AddRequest | library/src/main/java/com/github/qindachang/library/BleManager.java:1320-1326 | the new state is as `QueueSpec.AddRequest` says |
| Manager.BleManager.RunQueue | library/src/main/java/com/github/qindachang/library/BleManager.java:1368-1373 | the new state is as `QueueSpec.RunQueue` says |
| Manager.BleManager.Next | library/src/main/java/com/github/qindachang/library/BleManager.java:1346-1366 | the new state is as `QueueSpec.Next` says |
| Manager.BleManager.CancelAll | library/src/main/java/com/github/qindachang/library/BleManager.java:1310-1314 | empties the queue and reports, calls and posts nothing |
| Manager.BleManager.EnqueueOrReport | library/src/main/java/com/github/qindachang/library/BleManager.java:745-758 | an unresolved operation reports one failure of its kind and leaves the queue; a resolved one is `addRequest` |
| Manager.BleManager.WriteBytesToCharacteristic | library/src/main/java/com/github/qindachang/library/BleManager.java:701-759 | the checks of `ResolveWrite` in order, then one failure or `addRequest` of the write carrying the new bytes |
| Manager.BleManager.WriteCharacteristic | library/src/main/java/com/github/qindachang/library/BleManager.java:775-786 | a missing characteristic is reported; otherwise its write is added. No session check happens here |
| Manager.BleManager.ReadCharacteristic | library/src/main/java/com/github/qindachang/library/BleManager.java:833-870 | the checks of `ResolveInService`, then one failure or `addRequest` of the read |
| Manager.BleManager.EnableNotifications | library/src/main/java/com/github/qindachang/library/BleManager.java:561-598 | no session or no service gives one failure and nothing else; otherwise the state is as the fold `EnableRun` over the UUIDs says, which `EnableRunWhileBusy` (busy queue) and `EnableRunFromIdle` (idle queue) give in closed form |
| Manager.BleManager.EnableIndicates | library/src/main/java/com/github/qindachang/library/BleManager.java:658-698 | the same for indications, with the same closed forms |
| Manager.BleManager.EnableAll | library/src/main/java/com/github/qindachang/library/BleManager.java:561-598 | the shared body of the two enable operations, with the same contract |
| Manager.BleManager.EnableEach | library/src/main/java/com/github/qindachang/library/BleManager.java:574-588 | the loop over the UUIDs ends in the state `EnableRun` gives |
| Manager.BleManager.EnableOne | library/src/main/java/com/github/qindachang/library/BleManager.java:575-587 | one UUID extends the state by `EnableStep` |
| Manager.BleManager.CheckConnected | library/src/main/java/com/github/qindachang/library/BleManager.java:478-491 | posts the connect watchdog exactly when retry is on, the budget is positive and a connect timeout is set |
| Manager.BleManager.CheckServiceDiscover | library/src/main/java/com/github/qindachang/library/BleManager.java:972-984 | posts the discovery watchdog under the same conditions with the service timeout |
| Manager.BleManager.Connect | library/src/main/java/com/github/qindachang/library/BleManager.java:418-464 | by `ConnectDid`: fails with one event on a null device or an existing link, changing nothing else. Otherwise it closes any held session, opens the new one, reports connecting and posts the watchdog exactly when `Arms` holds; the result is true exactly then |
| Manager.BleManager.Disconnect | library/src/main/java/com/github/qindachang/library/BleManager.java:953-961 | acts only when connected with a session: disconnects it, clears both flags, stops the RSSI timer and drops the session without closing it; otherwise nothing changes |
| Manager.BleManager.Close | library/src/main/java/com/github/qindachang/library/BleManager.java:963-970 | acts exactly when a session is held: closes it and clears both flags |
| Manager.BleManager.ReadRssi | library/src/main/java/com/github/qindachang/library/BleManager.java:915-921 | starts a poller when connected, otherwise only remembers to start on connection |
| Manager.BleManager.ReadRssiTimerTask | library/src/main/java/com/github/qindachang/library/BleManager.java:938-951 | starts one more timer and tracks it; a timer already running stays running |
| Manager.BleManager.CancelReadRssiTimerTask | library/src/main/java/com/github/qindachang/library/BleManager.java:927-936 | stops the tracked timer if there is one; untracked timers keep running |
| Manager.BleManager.FireRssiTimer | library/src/main/java/com/github/qindachang/library/BleManager.java:942-948 | a timer tick reads the RSSI only while a session is held |
| Manager.BleManager.OnConnectionStateChange | library/src/main/java/com/github/qindachang/library/BleManager.java:1000-1066 | connected: set the flag, report, post discovery after 600 ms, restart a requested poller; disconnected: clear both flags and report; other: report the status |
| Manager.BleManager.ReadConnectionParameters | library/src/main/java/com/github/qindachang/library/BleManager.java:986-991 | with a session, the 0x2A04 read in the 0x1800 service goes through `readCharacteristic`; without one nothing happens |
| Manager.BleManager.OnServicesDiscovered | library/src/main/java/com/github/qindachang/library/BleManager.java:1069-1093 | success sets the flag, enqueues the parameter read, then reports discovery; failure clears the flag and does nothing else |
| Manager.BleManager.OnCharacteristicRead | library/src/main/java/com/github/qindachang/library/BleManager.java:1096-1158 | a successful parameter read sets the parameters and the automatic delay silently; any other read is reported; then the queue advances by `next()` |
| Manager.BleManager.OnCharacteristicWrite | library/src/main/java/com/github/qindachang/library/BleManager.java:1161-1206 | the write's outcome is reported (success, lost bonding, transport error) and the queue advances by `next()` |
| Manager.BleManager.OnCharacteristicChanged | library/src/main/java/com/github/qindachang/library/BleManager.java:1209-1234 | a value goes to the notification listeners if the classifier says notification, otherwise to the indication listeners |
| Manager.BleManager.OnDescriptorWrite | library/src/main/java/com/github/qindachang/library/BleManager.java:1242-1245 | the queue advances by `next()` and nothing is reported |
| Manager.BleManager.OnReadRemoteRssi | library/src/main/java/com/github/qindachang/library/BleManager.java:1253-1267 | a successful RSSI read is reported, a failed one is not |
| Manager.BleManager.FireRunQueue | library/src/main/java/com/github/qindachang/library/BleManager.java:1349-1354 | a posted `runQueue` fires, is removed from the pending actions, and acts as `QueueSpec.RunQueue` |
| Manager.BleManager.FireConnectWatchdog | library/src/main/java/com/github/qindachang/library/BleManager.java:480-489 | the budget, the re-armed watchdog and whether a reconnect happened are those of `Retry.WatchdogStep`, with the link as the awaited state. Once connected nothing else changes; otherwise the whole link and log state is `connect`'s (`ConnectDid`) |
| Manager.BleManager.FireServiceWatchdog | library/src/main/java/com/github/qindachang/library/BleManager.java:974-982 | the same with service discovery as the awaited state. Once discovered nothing else changes; otherwise `connect`'s full effect follows, which on a live link is the already-connected rejection while a unit is still spent |
| Manager.BleManager.FireDiscovery | library/src/main/java/com/github/qindachang/library/BleManager.java:1020-1030 | unless bonding, and while a session is held, starts discovery and may arm the discovery watchdog |

## Left out

- Scanning (`startScan`, `stopScan`, scan filters and callbacks), adapter control (`isSupportBluetooth`, `isBluetoothOpen`, `enableBluetooth`) and `clearDeviceCache` belong to the scanning side, not the connection core. The stop-scan-after-connect flag is therefore not modelled.
- Time is not modelled. Delays and periods are recorded as values in `pending`, and the environment chooses when and in which order posted actions fire. The RSSI timer's 100 ms warm-up and its period are not modelled.
- Concurrency and the UI-thread marshalling (`runOnUiThread`) are not modelled. Callbacks are delivered synchronously, in program order. The `synchronized` blocks have no counterpart.
- `BleLogger`, `enableLogger` and the logger flag of `setConfig` produce no observable state.
- `BluetoothUtils.bytes2IntegerList` and `getDistance` are not part of this model. The characteristic value arrives already as a list of octets, and the RSSI event carries only the RSSI value.
- The Android version branch in `connect` (whether `TRANSPORT_LE` is passed) is not modelled; both branches open one session.
- The bond state that the discovery kick reads is an input of `FireDiscovery`.
- What the transport does with a call is not modelled, and neither is the boolean it returns. The source ignores that boolean, so a refused operation stalls the queue, and the model reproduces this.
- Characteristic objects are values. In the source, `setValue` mutates an object that the service shares with every holder. The model keeps only the written copy in the queued request.
- GattChecks.ClassifierAfterEnable: no state links an enable dispatch to the descriptor value that `OnCharacteristicChanged` later receives; that value is an input. In the source the dispatcher sets the shared descriptor object and the classifier reads that same object, so the classifier sees whatever the last enable on that characteristic wrote.
- Manager.BleManager.Write2Characteristic: each queued write sends its own bytes. In the source, two writes queued to one characteristic both send the bytes set last, because `writeBytesToCharacteristic` calls `setValue` on the shared characteristic object before enqueueing.
- Listeners are values, and the registry compares whole values (id, tag, interfaces). The source compares object identity. The model assumes that one listener object always has the same tag and interfaces.
- Getters (`getConnected`, `getServicesDiscovered`, `getBluetoothDevice`, `getBluetoothGatt`, `getConnParameters`, `getCharacteristic`) only read fields.
- `onMtuChanged`, `onDescriptorRead` and `onReliableWriteCompleted` only call the platform's default, which has no effect here.
- Manager.BleManager.constructor: the source starts the connection parameters as an empty, non-null parameters object (BleManager.java:103). The model starts them as `None`, the state before any parameter read, so it does not model reading the empty object's default fields.
- A null `characteristicUUIDs` array in the enable operations would throw. UUID lists are always present in the model.
- Manager.BleManager.EnableNotifications: a null service UUID finds no service and the source then throws on a null dereference (BleManager.java:594 calls `serviceUUID.toString()` in the failure message) as soon as one notification listener is registered. UUIDs are values in the model, never null, so it reports one `NoService` failure instead.
- Manager.BleManager.EnableIndicates: the same null-service-UUID crash, at BleManager.java:692, when an indication listener is registered.
- Manager.BleManager.EnableAll: the shared body of the two operations above, with the same null-service-UUID gap.
- Listeners are passive recipients. A listener whose callback calls back into the manager during a synchronous dispatch failure is not modelled. For example, `writeCharacteristic` called from `onFailed` in the middle of a drain appends behind a head that has not yet been polled. Each delivery is recorded in the log and has no further effect.
- Java `int` overflow is not modelled. The retry budget is decremented without bound and wraps only after 2^31 watchdog firings. The automatic queue delay of real octets is at most 5468 and cannot overflow.
- ConnParams.Decode: requires at least eight octets. The source would throw on a shorter 0x2A04 value, and that exception is not modelled.
- Manager.BleManager.OnCharacteristicRead: requires at least eight octets on a successful 0x2A04 read, for the same reason.
