# Verified model of the mesh client's stateful core

This project models, in Dafny 4.11, the parts of the desktop mesh client whose correctness depends on order: who
owns a Bluetooth peripheral while connects, socket closes, process exits and teardown retries interleave; how the
MeshCore MQTT adapter reconnects; how the message store's SQL statements act on whole tables; two small compilers
(glob to regular expression, table-driven CRC-32); and the budgets and passes of the live feed and the link preview.
Every statement below is for all inputs, all runs or all reachable states of the model.

`dafny verify dfyconfig.toml` checks the whole project.

## How the model is built

- **Bluetooth** (`Coexistence`, `GattProtocol`, `GattInvariants`, `GattSteps`, `GattProperties`, `GattOutcomes`,
  `GattTrace`, `GattProgress`, `GattSidecarProxy`). One step is one stretch of code between two awaits.
  `GattProtocol.Step` gives each step as a function of the whole state; every suspended `connect` and every suspended
  teardown has a program counter; the environment chooses replies of the sidecar, socket events, timers and calls. The
  class `GattSidecarProxy` is the object wired to its coordinator: maps and counters are updated in place, every
  method's `ensures` ties the new state to the step it performs, and every method that performs an event keeps
  `Valid()`, which says that some run of the protocol leads to the fields as they are. So what is proved of reachable
  states holds of the object between any two calls. The address normalisation is an arbitrary function and the empty
  key is not tracked. `GattProperties` holds what no run may break; `GattOutcomes`, `GattTrace` and `GattProgress`
  what every event must bring about, both directions of each.
- **MQTT** (`MqttReconnect`, `MeshcoreMqttAdapter`) has the same shape: a state machine over events and a class whose
  handlers refine it and keep the object in a reachable state.
- **Tables** (`MessageStore`, `NodeRenumber`, `SchemaDedupe`, `ContactPrune`, `HashCasing`). A table is a map from row
  key to row. A statement is a method that visits the rows in an arbitrary scan order and is proved equal to one
  function of the old table, which is what makes it independent of that order. `MessageStore` and `SchemaDedupe` share
  the message row.
- **Translations** (`SourceGlob`, `BadgeCrc`) and **budgets and passes** (`FeedBudget`, `RateLimit`, `EntityDecoder`)
  compare the loop in the code with an independent definition.

Properties that turned out not to hold everywhere are stated with the condition under which they do, beside a lemma
that exhibits the failing case:

- `GattProperties.LiveSessionReserved` and `GattProperties.OneOwnerWithLive`: an empty session id
  (`EmptyIdFreesTheMac`, `TwoProfilesOnOneMac`).
- `GattProperties.ReleaseClearsExactly`: a hold that was set directly (`DirectHoldLetsSessionsLive`).
- `GattProperties.StrayReleaseLetsReticulumIn`: a scan release that no lease stands behind (`StrayReleaseHappens`).
- `MqttReconnect.AckTimeoutStrands`: a CONNACK timeout of the connecting client (`FirstTimeoutStrands`).
- `MessageStore.FailsOnlyOnRepair`: a repaired recipient that collides (`RepairCollides`).
- `NodeRenumber.KeyArrives`: a malformed stored key (`MalformedKeyStays`, `MalformedKeyExists`).
- `HashCasing.FastPathIsExact`: hashes padded with white space (`PaddedHashStays`). The comment above
  `repairReticulumDestinationHashCasing` promises a canonical key for every case variant; the model follows the code.
- `SourceGlob.TranslationIsFaithful`: paths with line terminators (`LineTerminatorStopsDeep`).

## Model

| member | source | states |
|---|---|---|
| Coexistence.OverlayNamesAHolder | src/main/ble-coexistence-coordinator.ts:66-77 | The merged view of registry and proxy links names a holder of a tracked key exactly when one exists, and whom it names does hold the key. |
| Coexistence.FreeMeansNoOtherHolder | src/main/ble-coexistence-coordinator.ts:104-120 | With one owner per key, the guard admits an owner exactly when every holder of the key, registered or linked, is that owner. |
| Coexistence.GuardExactly | src/main/ble-coexistence-coordinator.ts:104-120 | The guard refuses a LoRa owner while Reticulum scans, and otherwise exactly a tracked address that another owner holds. |
| Coexistence.RegistryKeepsOneOwner | src/main/ble-coexistence-coordinator.ts:84-102 | Registering and withdrawing a peripheral keep every tracked key under one owner, whatever links the proxy reports. |
| Coexistence.RegistryChangesExactly | src/main/ble-coexistence-coordinator.ts:84-102 | A registration makes its owner the holder exactly when every holder is that owner, a withdrawal removes exactly its owner's own entry, and every other key stands. |
| Coexistence.BleCoexistenceCoordinator.GetState | src/main/ble-coexistence-coordinator.ts:66-77 | The loop over the proxy's links computes the overlay in which later links win and untracked addresses are skipped. |
| Coexistence.BleCoexistenceCoordinator.CanConnect | src/main/ble-coexistence-coordinator.ts:104-120 | Refuses a LoRa owner while Reticulum scans, admits an untracked address, and otherwise decides by the overlay. |
| Coexistence.BleCoexistenceCoordinator.Register | src/main/ble-coexistence-coordinator.ts:84-94 | Succeeds exactly for an untracked or free key, and changes the registry for that key only. |
| Coexistence.BleCoexistenceCoordinator.Unregister | src/main/ble-coexistence-coordinator.ts:96-102 | Removes the entry only for the owner that holds it. |
| Coexistence.BleCoexistenceCoordinator.AcquireScan | src/main/ble-coexistence-coordinator.ts:122-147 | Nested grants to one owner raise the depth, another owner is refused and nothing changes, and no caller sees a half-made grant. |
| Coexistence.BleCoexistenceCoordinator.ReleaseScan | src/main/ble-coexistence-coordinator.ts:158-166 | Only the owner's release counts, and the lock falls free at depth one. |
| GattSteps.StepKeeps | src/main/gatt-sidecar-proxy.ts:133-826 | Every stretch of code between two awaits, with every outcome of request, socket or timer, keeps the invariant of all maps, calls and the event log. |
| GattSteps.RunKeeps | src/main/gatt-sidecar-proxy.ts:133-826 | The invariant holds at the end of every interleaving. |
| GattSteps.GuardAdmits | src/main/gatt-sidecar-proxy.ts:358-380 | What the guard lets through holds the MAC alone: all reservations of the key are the caller's own, and so is the registry entry. |
| GattSteps.RejectedKeeps | src/main/gatt-sidecar-proxy.ts:433-447 | The catch block clears the session it installed, starts one teardown and ends the call without touching a successor. |
| GattSteps.CallStepKeeps | src/main/gatt-sidecar-proxy.ts:358-448 | Every resumption of a suspended connect keeps the invariant, cancelled or not. |
| GattSteps.TeardownStepKeeps | src/main/gatt-sidecar-proxy.ts:628-724 | Disconnects, sidecar exit and every teardown reply or timer keep the invariant. |
| GattProperties.OneOwnerPerMac | src/main/gatt-sidecar-proxy.ts:212-217 | In every reachable state all holders of one tracked MAC by registration or reservation (running or cancelled attempts, reserved sessions, teardowns) have one owner. |
| GattProperties.OneOwnerWithLive | src/main/gatt-sidecar-proxy.ts:358-446 | Counting the peripherals of live sessions as held too, each tracked MAC still has one owner exactly when the guard, told of the other profile's session, would admit every live session that lost its reservation to an empty id. |
| GattProperties.TwoProfilesOnOneMac | src/main/gatt-sidecar-proxy.ts:401-446 | Otherwise it fails: after an empty session id a run reaches a state in which both profiles are live on one peripheral. |
| GattProperties.ExactlyOnePhase | src/main/gatt-sidecar-proxy.ts:401-447 | Every reservation is in exactly one phase: owned by a running connect, backing a live session, or torn down with exactly one request or timer pending. |
| GattProperties.LiveSessionReserved | src/main/gatt-sidecar-proxy.ts:401-446 | A live session keeps its MAC reserved exactly when its session id is not empty or its connect call has not returned. |
| GattProperties.EmptyIdFreesTheMac | src/main/gatt-sidecar-proxy.ts:401-446 | A run in which the sidecar answers an empty id reaches a live session whose MAC is reserved by nobody. |
| GattProperties.StepRank | src/main/gatt-sidecar-proxy.ts:652-724 | No event of any other attempt, profile or caller disturbs a teardown, and each of its own replies uses up rank or frees the MAC. |
| GattProperties.CleanupIsBounded | src/main/gatt-sidecar-proxy.ts:74-74 | Over any run, whatever the sidecar answers, 23 replies and timers of one teardown (eight rounds) release its MAC. |
| GattProperties.CleanupNeverStuck | src/main/gatt-sidecar-proxy.ts:689-724 | A teardown always has its one reply or its timer still to come. |
| GattProperties.ReleasedStays | src/main/gatt-sidecar-proxy.ts:639-643 | A released reservation never comes back in any run. |
| GattProperties.RequestsReachTheirMaker | src/main/gatt-sidecar-proxy.ts:652-703 | Every DELETE, probe, write and event socket ever issued went to the sidecar process that made the session it names, and all ids at hand are of the running process. |
| GattProperties.DeadSessionsStayDead | src/main/gatt-sidecar-proxy.ts:247-258 | After a sidecar exit no run brings back a reservation or a session of an attempt begun before it, even through calls that were awaiting. |
| GattProperties.LiveIsLatest | src/main/gatt-sidecar-proxy.ts:367-381 | A live session belongs to the newest attempt of its profile. |
| GattProperties.CancelledIsInert | src/main/gatt-sidecar-proxy.ts:402-447 | A resumed connect that is no longer current installs no session, clears none and signals nothing. |
| GattProperties.StaleSocketIsInert | src/main/gatt-sidecar-proxy.ts:538-568 | Events of a socket that is not the profile's current one change no session, reservation or teardown and signal nothing. |
| GattProperties.ConnectedAlternates | src/main/gatt-sidecar-proxy.ts:428-431 | In every trace two connected events of a profile have a disconnected between them. |
| GattProperties.HoldExcludesLoRa | src/main/gatt-sidecar-proxy.ts:803-812 | Under a hold entered through releaseBleCentral there is no LoRa session and no attempt that can still install one. |
| GattProperties.ReleaseClearsExactly | src/main/gatt-sidecar-proxy.ts:803-810 | releaseBleCentral leaves no LoRa session or attempt exactly when the latch was not set before or nothing was there. |
| GattProperties.DirectHoldLetsSessionsLive | src/main/gatt-sidecar-proxy.ts:167-183 | A run in which a directly set hold lets a waiting attempt go live, and releaseBleCentral then keeps it. |
| GattProperties.ConnectExcludesReticulumScan | src/main/index.ts:2876-2878 | While a connect is in flight under its scan lease, the GATT side owns the lock and Reticulum is refused. |
| GattProperties.ScanDepthCountsLeases | src/main/ble-coexistence-coordinator.ts:122-166 | Under balanced acquire and release the depth is the number of outstanding leases, all of the lock's owner. |
| GattProperties.StrayReleaseLetsReticulumIn | src/main/index.ts:2809-2816 | In a reachable state with a connect in flight, a GATT release that no lease stands behind lets Reticulum acquire the scan exactly when one lease was out. |
| GattProperties.StrayReleaseHappens | src/main/index.ts:2809-2816 | A reachable state with a connect in flight in which it does. |
| GattOutcomes.MacFreedExactly | src/main/gatt-sidecar-proxy.ts:639-724 | In every reachable state an event frees a reserved MAC exactly when it ends its teardown (confirmed DELETE, failed DELETE while quitting, gone link, eighth round, sidecar exit) or returns the call of an attempt that no session id ever reached; a refused DELETE keeps it. |
| GattOutcomes.TeardownEndsOnlySo | src/main/gatt-sidecar-proxy.ts:669-724 | Over any run a torn-down MAC is free at the end exactly if one of those five endings met it while it was held. |
| GattProgress.RoundsAreCounted | src/main/gatt-sidecar-proxy.ts:652-657 | The rounds of a teardown are counted one by one: the first when it begins, one more with each firing of its timer, none otherwise. |
| GattTrace.SaysExactly | src/main/gatt-sidecar-proxy.ts:133-826 | The whole trace: which signals and requests every event adds, in order. A session that ends is announced and its id deleted once, a failing current connect aborts, a succeeding one is announced, and nothing else is said. |
| GattTrace.SessionsExactly | src/main/gatt-sidecar-proxy.ts:401-447 | A session goes live exactly when the sidecar accepts the profile's current call, and is dropped exactly when its profile is given up, its own socket ends or its current call fails late. |
| GattTrace.CallsExactly | src/main/gatt-sidecar-proxy.ts:358-447 | A connect call runs exactly from its admission to the event that ends it. |
| GattTrace.CurrentExactly | src/main/gatt-sidecar-proxy.ts:358-447 | An attempt is current exactly from its admission until it ends, is given up or is replaced. |
| GattTrace.ConnectStartsExactly | src/main/gatt-sidecar-proxy.ts:358-389 | A connect begins exactly when no hold is on and every holder of the tracked address is the profile itself; it then holds the address as the current attempt, and a refused one changes nothing. |
| GattTrace.PortArrives | src/main/gatt-sidecar-proxy.ts:219-232 | A call that waits for the port gets it exactly if the sidecar has not exited since; a stale port is forgotten. |
| GattTrace.PortIsUsed | src/main/gatt-sidecar-proxy.ts:389-400 | A current call with a port asks the sidecar and pins port and token for its teardown. |
| GattProgress.SurroundingsExactly | src/main/gatt-sidecar-proxy.ts:167-183 | The hold lasts from its entry to its release or the end of its time, the token is the last one given while the sidecar runs, each exit begins a generation, quitting is for good. |
| GattProgress.HoldKeepsLoRaOut | src/main/gatt-sidecar-proxy.ts:803-812 | Once releaseBleCentral has entered the hold, no run that does not end it has a LoRa session or a current attempt again. |
| GattProgress.ReleaseHolds | src/main/gatt-sidecar-proxy.ts:803-810 | Where the latch was not set, releaseBleCentral enters that hold. |
| GattProgress.SocketsExactly | src/main/gatt-sidecar-proxy.ts:553-573 | A socket is made when its session goes live; its first opening or breaking settles its promise, and nothing else does. |
| GattProgress.CallNeverStuck | src/main/gatt-sidecar-proxy.ts:358-447 | A running connect call always has an event of its own to come, a rejection at the least. |
| GattProgress.RegistryExactly | src/main/ble-coexistence-coordinator.ts:84-102 | A registration takes a tracked key exactly if every holder, linked or registered, is the one who asks; only its owner's withdrawal gives it up; no other event, a sidecar exit included, touches it. |
| GattProgress.ScanGrantedExactly | src/main/ble-coexistence-coordinator.ts:122-156 | A scan is granted, as one more lease, exactly while no other side has a lease out; otherwise nothing changes. |
| GattProgress.UndisturbedConnect | src/main/gatt-sidecar-proxy.ts:358-447 | From every reachable state, whatever else is under way, a run of the attempt's own events takes an admitted connect to a live, announced session whose MAC is reserved exactly if its id is not empty. |
| GattSidecarProxyObject.GattSidecarProxy.GetConnections | src/main/gatt-sidecar-proxy.ts:212-217 | Lists every reservation's address and profile, oldest attempt first. |
| GattSidecarProxyObject.GattSidecarProxy.Connect | src/main/gatt-sidecar-proxy.ts:358-389 | Under a scan lease, starts exactly when neither hold nor guard refuses; otherwise nothing changes. Guard, disconnect and reservation are one step. |
| GattSidecarProxyObject.GattSidecarProxy.EnsurePortResumed | src/main/gatt-sidecar-proxy.ts:219-232 | An endpoint of a process that died meanwhile is rejected and forgotten. |
| GattSidecarProxyObject.GattSidecarProxy.ConnectWithPort | src/main/gatt-sidecar-proxy.ts:389-400 | A current attempt pins port and token on its reservation and posts; a cancelled one only ends. |
| GattSidecarProxyObject.GattSidecarProxy.ConnectAnswered | src/main/gatt-sidecar-proxy.ts:401-428 | The whole state after each outcome of the create-session request. |
| GattSidecarProxyObject.GattSidecarProxy.FollowAnswer | src/main/gatt-sidecar-proxy.ts:402-428 | The whole state for a cancelled attempt, a refusal, a missing token, a throwing socket and a success. |
| GattSidecarProxyObject.GattSidecarProxy.ConnectReady | src/main/gatt-sidecar-proxy.ts:428-447 | Announces the session only if the attempt and its session are still current. |
| GattSidecarProxyObject.GattSidecarProxy.ConnectRejected | src/main/gatt-sidecar-proxy.ts:433-447 | The whole state after the catch and finally blocks. |
| GattSidecarProxyObject.GattSidecarProxy.ConnectFinally | src/main/gatt-sidecar-proxy.ts:442-447 | Clears only its own attempt, and frees the MAC when no session id was recorded. |
| GattSidecarProxyObject.GattSidecarProxy.SettleReady | src/main/gatt-sidecar-proxy.ts:553-573 | Only the first event of a socket settles its promise. |
| GattSidecarProxyObject.GattSidecarProxy.SocketBroke | src/main/gatt-sidecar-proxy.ts:548-568 | An error or close settles the promise and drops the session if it is current. |
| GattSidecarProxyObject.GattSidecarProxy.SocketOpened | src/main/gatt-sidecar-proxy.ts:559-562 | An opening settles the promise and nothing else. |
| GattSidecarProxyObject.GattSidecarProxy.SocketSaidGone | src/main/gatt-sidecar-proxy.ts:595-596 | A disconnected message drops the session if the socket is current. |
| GattSidecarProxyObject.GattSidecarProxy.AskSession | src/main/gatt-sidecar-proxy.ts:726-778 | Writes, probes and RSSI reads go out only for a live session, to the process that made it. |
| GattSidecarProxyObject.GattSidecarProxy.SocketDisconnected | src/main/gatt-sidecar-proxy.ts:539-545 | The closure acts only for the profile's current socket. |
| GattSidecarProxyObject.GattSidecarProxy.Disconnect | src/main/gatt-sidecar-proxy.ts:628-637 | Cancels the attempt and turns a live session into a teardown in one step. |
| GattSidecarProxyObject.GattSidecarProxy.BeginRemoteCleanup | src/main/gatt-sidecar-proxy.ts:645-650 | Starts at most one teardown of a reservation. |
| GattSidecarProxyObject.GattSidecarProxy.ReconcileRemoteSession | src/main/gatt-sidecar-proxy.ts:652-668 | Counts a round, then releases without a token or sends one DELETE. |
| GattSidecarProxyObject.GattSidecarProxy.DeleteAnswered | src/main/gatt-sidecar-proxy.ts:669-695 | Releases on confirmation or on a failure while quitting, otherwise keeps the MAC and probes if it is still held. |
| GattSidecarProxyObject.GattSidecarProxy.ProbeAnswered | src/main/gatt-sidecar-proxy.ts:696-724 | Releases on a gone link or after the eighth round, otherwise arms the retry timer. |
| GattSidecarProxyObject.GattSidecarProxy.CleanupTimerFired | src/main/gatt-sidecar-proxy.ts:719-722 | The timer starts the next round. |
| GattSidecarProxyObject.GattSidecarProxy.InvalidateAfterSidecarExit | src/main/gatt-sidecar-proxy.ts:247-258 | Forgets endpoint, attempts, reservations and sessions, announces every dropped session and begins a new generation. |
| GattSidecarProxyObject.GattSidecarProxy.DisconnectAll | src/main/gatt-sidecar-proxy.ts:781-797 | Drops both profiles' sessions and attempts before its first await. |
| GattSidecarProxyObject.GattSidecarProxy.SetRnodeBondRecoveryExclusive | src/main/gatt-sidecar-proxy.ts:167-183 | Sets or clears the hold. |
| GattSidecarProxyObject.GattSidecarProxy.ReleaseBleCentral | src/main/gatt-sidecar-proxy.ts:803-812 | Entering the hold drops all LoRa sessions and attempts; refreshing it drops nothing. |
| GattSidecarProxyObject.GattSidecarProxy.AcquireScan | src/main/ble-coexistence-coordinator.ts:149-156 | A granted scan is a new outstanding lease of its owner; a refused one changes nothing. |
| GattSidecarProxyObject.GattSidecarProxy.ReleaseScan | src/main/ble-coexistence-coordinator.ts:149-156 | Ends one lease that no connect runs under. |
| GattSidecarProxyObject.GattSidecarProxy.RegisterPeripheral | src/main/ble-coexistence-coordinator.ts:59-94 | Registers against the proxy's own links. |
| GattSidecarProxyObject.GattSidecarProxy.UnregisterPeripheral | src/main/ble-coexistence-coordinator.ts:96-102 | Withdraws an owner's own entry. |
| MqttReconnect.NeverTwoPaths | src/main/meshcore-mqtt-adapter.ts:483-586 | In every reachable state at most one of unclosed current client, armed reconnect timer and pending token refresh holds, and connecting or connected means a live client. |
| MqttReconnect.DisconnectIsQuiet | src/main/meshcore-mqtt-adapter.ts:223-242 | After disconnect no reconnect path holds. |
| MqttReconnect.DisconnectIsFinal | src/main/meshcore-mqtt-adapter.ts:223-257 | From there no run without connect opens a client or makes the status connecting or connected. |
| MqttReconnect.RetryCountFallsOnlyOnReset | src/main/meshcore-mqtt-adapter.ts:494-534 | The retry count falls only on connect, disconnect (also of an oversized packet), power resume, or the close of a session whose own CONNACK came at least 30 s before. |
| MqttReconnect.StaleStableCloseResetsNothing | src/main/meshcore-mqtt-adapter.ts:494-517 | A stale CONNACK time that makes a close look stable finds no spent budget to give back. |
| MqttReconnect.RetryBudget | src/main/meshcore-mqtt-adapter.ts:494-585 | Over any run without connect, disconnect, power resume or a stable close of an acknowledged session, at most the clamped retries plus one clients are opened, whatever a stale CONNACK time makes other closes look like. |
| MqttReconnect.AckTimeoutStrands | src/main/meshcore-mqtt-adapter.ts:357-369 | With settings and some path left, a CONNACK timeout takes the last path away exactly when it hits the connecting current client; the settings stay. |
| MqttReconnect.FirstTimeoutStrands | src/main/meshcore-mqtt-adapter.ts:357-369 | It happens to the first connect of any settings that is never acknowledged. |
| MqttReconnect.FollowsPaths | src/main/meshcore-mqtt-adapter.ts:483-713 | The adapter refines a machine of four paths (nowhere, client, timer of a kind, token refresh): every event moves it exactly where that machine says, so a reconnect is lost only there. |
| MqttReconnect.CloseSchedules | src/main/meshcore-mqtt-adapter.ts:519-585 | A close of the current client arms a reconnect exactly while the budget, given back by a stable session, lasts; by way of a token refresh exactly when the token expires; otherwise the status is an error. |
| MqttReconnect.OpensExactly | src/main/meshcore-mqtt-adapter.ts:244-369 | A client is opened exactly by a connect, a due plain reconnect, a token that was waited for or timed out, and a power resume without token; it is then current and connecting under its watchdog. |
| MqttReconnect.OnlineExactly | src/main/meshcore-mqtt-adapter.ts:370-388 | The adapter is online exactly from a CONNACK of its current client to that client's end or a restart. |
| MqttReconnect.ConnectingExactly | src/main/meshcore-mqtt-adapter.ts:259-388 | The adapter is connecting exactly from the opening of a client to its CONNACK, an error, its offline event, its timeout or its end. |
| MqttReconnect.WatchdogExactly | src/main/meshcore-mqtt-adapter.ts:340-388 | The CONNACK watchdog is armed with the opened client and stopped by its CONNACK, an error or its end. |
| MqttReconnect.RefreshIsTimed | src/main/meshcore-mqtt-adapter.ts:552-567 | A token refresh has its timeout running from its beginning until it is over or the power is suspended. |
| MqttReconnect.WakeServesOnce | src/main/meshcore-mqtt-adapter.ts:493-548 | The shorter delay after a power resume serves exactly the first scheduled token refresh; each close of a current client is counted once. |
| MqttReconnect.ConnectingIsWatched | src/main/meshcore-mqtt-adapter.ts:357-369 | A connecting client is never without its CONNACK watchdog, so an unanswered connect always ends. |
| MqttReconnect.NewBudget | src/main/meshcore-mqtt-adapter.ts:519-524 | A connect and a power resume begin with all retries asked for: five by default, at least one, at most twelve. |
| MqttReconnect.LongSessionRestores | src/main/meshcore-mqtt-adapter.ts:494-517 | A close has its budget back exactly when the session was acknowledged 30 s before, at a time other than zero. |
| MqttReconnect.SettingsStay | src/main/meshcore-mqtt-adapter.ts:114-257 | The settings of the last connect stay, with the newest token, until a disconnect or an oversized packet. |
| MqttReconnect.StepKeeps | src/main/meshcore-mqtt-adapter.ts:114-713 | Every handler keeps the adapter's invariant. |
| MeshcoreMqttAdapterObject.MeshcoreMqttAdapter.Connect | src/main/meshcore-mqtt-adapter.ts:244-257 | Replaces the client, or ends in an error for a wildcard topic prefix. |
| MeshcoreMqttAdapterObject.MeshcoreMqttAdapter.Disconnect | src/main/meshcore-mqtt-adapter.ts:223-242 | Clears client, settings, timers and budget, not the CONNACK time. |
| MeshcoreMqttAdapterObject.MeshcoreMqttAdapter.DoConnect | src/main/meshcore-mqtt-adapter.ts:259-369 | Opens one client and arms its CONNACK watchdog. |
| MeshcoreMqttAdapterObject.MeshcoreMqttAdapter.UpdateToken | src/main/meshcore-mqtt-adapter.ts:114-132 | A token that a reconnect waits for triggers it once. |
| MeshcoreMqttAdapterObject.MeshcoreMqttAdapter.OnError | src/main/meshcore-mqtt-adapter.ts:340-356 | A stale client's error is ignored, an oversized packet ends the adapter in an error. |
| MeshcoreMqttAdapterObject.MeshcoreMqttAdapter.OnOversizedMessage | src/main/meshcore-mqtt-adapter.ts:458-463 | An oversized message of the current client disconnects. |
| MeshcoreMqttAdapterObject.MeshcoreMqttAdapter.OnConnack | src/main/meshcore-mqtt-adapter.ts:370-388 | The CONNACK of the current client stops the watchdog and stamps the session. |
| MeshcoreMqttAdapterObject.MeshcoreMqttAdapter.OnConnackTimeout | src/main/meshcore-mqtt-adapter.ts:357-369 | The watchdog drops only the client it was armed for, while connecting. |
| MeshcoreMqttAdapterObject.MeshcoreMqttAdapter.OnClose | src/main/meshcore-mqtt-adapter.ts:483-586 | The whole retry decision of a close. |
| MeshcoreMqttAdapterObject.MeshcoreMqttAdapter.ScheduleReconnect | src/main/meshcore-mqtt-adapter.ts:519-585 | Gives up at the clamped retry count, otherwise spends one retry on exactly one timer. |
| MeshcoreMqttAdapterObject.MeshcoreMqttAdapter.OnReconnectDue | src/main/meshcore-mqtt-adapter.ts:552-585 | The timer reconnects or asks for a token. |
| MeshcoreMqttAdapterObject.MeshcoreMqttAdapter.OnPendingDue | src/main/meshcore-mqtt-adapter.ts:558-567 | A token refresh that timed out reconnects with the old token. |
| MeshcoreMqttAdapterObject.MeshcoreMqttAdapter.OnOffline | src/main/meshcore-mqtt-adapter.ts:587-593 | Only the current client's offline event changes the status. |
| MeshcoreMqttAdapterObject.MeshcoreMqttAdapter.HandlePowerSuspend | src/main/meshcore-mqtt-adapter.ts:665-672 | Stops the two reconnect timers. |
| MeshcoreMqttAdapterObject.MeshcoreMqttAdapter.HandlePowerResume | src/main/meshcore-mqtt-adapter.ts:675-713 | With settings, starts over with a full budget on exactly one path. |
| MessageStore.NormalizedIsClassified | src/main/index.ts:5618-5626 | What the save handler stores as channel is the row's class: minus two exactly for room traffic, minus one for what goes to a peer, else the channel; classifying again changes nothing. |
| MessageStore.MatchedTakesKey | src/main/meshcoreMessageChannel.ts:78-107 | Every row the update touches ends up under the message's own natural key with its channel still its class. |
| MessageStore.PersistKeeps | src/main/meshcoreMessageChannel.ts:64-116 | A save fails with the table unchanged, or keeps both partial unique indexes and the classes and leaves a row with the message's key. |
| MessageStore.FailsOnlyOnRepair | src/main/meshcoreMessageChannel.ts:97-101 | It fails exactly when a matching row whose recipient is being repaired meets another matching row or a holder of the key. |
| MessageStore.RepairCollides | src/main/meshcoreMessageChannel.ts:97-101 | A consistent table of two direct-message rows on which the repair fails. |
| MessageStore.PersistIsIdempotent | src/main/meshcoreMessageChannel.ts:64-116 | Saving the same message again changes nothing. |
| MessageStore.PersistConserves | src/main/meshcoreMessageChannel.ts:80-95 | No row is lost, at most one old row changes, and an acknowledged row becomes only acked or, on request, failed. |
| MessageStore.SaveReachesRow | src/main/meshcoreMessageChannel.ts:78-95 | What a save brings to the row it hits: its status, unless that is neither acked nor failed and the row was acked; every detail, recipient and room it knows; what it does not know stays, and local order and channel key keep the row's value. |
| MessageStore.RepeatIsHit | src/main/meshcoreMessageChannel.ts:98-105 | A message saved again with the same columns reaches its row exactly if it has a usable sender or a local order, an anonymous one its own. |
| MessageStore.RecipientIsRepaired | src/main/meshcoreMessageChannel.ts:97-104 | A recipient reaches a row of the same text without one exactly as a direct message, to a peer, of the same observation. |
| MessageStore.SaveInserts | src/main/meshcoreMessageChannel.ts:108-116 | A message that reaches no row and whose key is free is stored whole, but for a radio number below one. |
| MessageStore.MessagesAreStable | src/main/meshcoreMessageChannel.ts:64-116 | Over any history of saves the indexes hold and every stored message stays itself: never lost, same sender, text, time, channel, radio and recipient, and nothing known about it is forgotten. |
| MessageStore.MessageTable.UpdateMatching | src/main/meshcoreMessageChannel.ts:76-105 | The row-by-row update with its unique checks and rollback succeeds exactly without a clash, and equals one table function for every scan order. |
| MessageStore.MessageTable.InsertOrIgnore | src/main/meshcoreMessageChannel.ts:108-116 | Inserts under a new id unless the key is taken. |
| MessageStore.MessageTable.Persist | src/main/meshcoreMessageChannel.ts:64-116 | The statement pair equals the table function, on success and on failure. |
| NodeRenumber.NoRowNamesOld | src/main/meshtasticNodeRenumber.ts:60-72 | After the migration no message names the old number as sender, recipient or radio. |
| NodeRenumber.OnlyRenamed | src/main/meshtasticNodeRenumber.ts:60-72 | Every message of another sender is kept, and every kept message is its old self with the number replaced. |
| NodeRenumber.DroppedHasTwin | src/main/meshtasticNodeRenumber.ts:61-64 | A message is dropped exactly when a kept message of the new number has its packet id or its reaction. |
| NodeRenumber.IndexesKept | src/main/db-schema-sync.ts:402-407 | Both partial unique message indexes survive. |
| NodeRenumber.NodeMoves | src/main/meshtasticNodeRenumber.ts:74-85 | One node row is left under the new number, with the columns of the row that was there or else of the moved one, favourite exactly if either row was; other nodes are untouched. |
| NodeRenumber.KeyArrives | src/main/meshtasticNodeRenumber.ts:74-85 | The row under the new number carries the key exactly when it held no malformed key before. |
| NodeRenumber.MalformedKeyStays | src/main/meshtasticNodeRenumber.ts:54-85 | A malformed key under the new number neither refuses the migration nor is replaced by it. |
| NodeRenumber.MalformedKeyExists | src/main/meshtasticNodeRenumber.ts:10-16 | Well-formed and malformed keys as that needs them exist. |
| NodeRenumber.HistoryFollows | src/main/meshtasticNodeRenumber.ts:87-102 | Notes and positions move to the new number whole unless MeshCore owns either id, the new number's note wins, only Meshtastic telemetry moves, and every other row stands. |
| NodeRenumber.OnlyOnce | src/main/meshtasticNodeRenumber.ts:47-57 | A second migration of the same numbers is refused. |
| NodeRenumber.AcceptedExactly | src/main/meshtasticNodeRenumber.ts:42-57 | A node that stores a well-formed key moves exactly to the number derived from that key, for any spelling of it, unless its stored copy is padded or another key is stored under the new number. |
| NodeRenumber.NeedsStoredKey | src/main/meshtasticNodeRenumber.ts:47-52 | Nothing moves unless the old row stores the very key presented. |
| NodeRenumber.OneTarget | src/main/meshtasticNodeRenumber.ts:45-57 | A node has at most one number to move to, whatever keys and numbers callers present. |
| NodeRenumber.NodeDb.MoveSenders | src/main/meshtasticNodeRenumber.ts:61-63 | UPDATE OR IGNORE gives the same table for every scan order and reports the messages that stay. |
| NodeRenumber.NodeDb.MoveMessages | src/main/meshtasticNodeRenumber.ts:61-72 | The four message statements together, with the count they report. |
| NodeRenumber.NodeDb.MoveNode | src/main/meshtasticNodeRenumber.ts:74-85 | Merges into or renames to the new number's row. |
| NodeRenumber.NodeDb.MoveHistory | src/main/meshtasticNodeRenumber.ts:87-102 | Notes, positions and telemetry. |
| NodeRenumber.NodeDb.Migrate | src/main/meshtasticNodeRenumber.ts:35-104 | Migrates exactly when numbers, key and stored rows agree, otherwise changes nothing; counts moved and readdressed messages. |
| SchemaDedupe.AllIndexesTogether | src/main/db-schema-sync.ts:402-425 | From any tables the startup dedupes leave all four unique indexes satisfied together, and a second run changes nothing. |
| SchemaDedupe.UnchangedWhenUnique | src/main/db-schema-sync.ts:713-731 | A dedupe leaves a table as it is exactly when no two rows share a key. |
| SchemaDedupe.GroupKeepsOne | src/main/db-schema-sync.ts:758-766 | Every deleted row has an older kept row of its group. |
| SchemaDedupe.DeleteDuplicates | src/main/db-schema-sync.ts:713-731 | Deleting all but the least id of each group keeps exactly the rows with no older row of their key, for every scan order. |
| SchemaDedupe.ChainToKept | src/main/db-schema-sync.ts:1055-1070 | Every row the RF sweep deletes is linked to a kept row of the same talk by steps to older rows at most 120 s away. |
| SchemaDedupe.SweepSettles | src/main/db-schema-sync.ts:1055-1070 | No two kept rows repeat each other within 120 s, and a second sweep deletes nothing. |
| SchemaDedupe.PacketDuplicatesGo | src/main/db-schema-sync.ts:758-766 | A row is deleted exactly when an older one has the same sender, null or not, and the same packet id. |
| SchemaDedupe.ReactionDuplicatesGo | src/main/db-schema-sync.ts:790-798 | A reaction is deleted exactly when an older one has the same sender, null or not, the same message and the same emoji. |
| SchemaDedupe.MeshcoreDuplicatesGo | src/main/db-schema-sync.ts:713-731 | A MeshCore row is deleted exactly when an older one has the same sender, null or not, time, channel, text and recipient, no recipient counting as minus one; each delete keeps to its side. |
| SchemaDedupe.RepeatedDirectGoes | src/main/db-schema-sync.ts:1055-1070 | The sweep deletes a row exactly when an older RF direct message has the same known sender, text and recipient at most 120 s away. |
| SchemaDedupe.SchemaSync.EnsureMessagesPacketDedup | src/main/db-schema-sync.ts:749-773 | Runs only while its index is missing, and leaves the index satisfied. |
| SchemaDedupe.SchemaSync.EnsureMessagesReactionDedup | src/main/db-schema-sync.ts:780-802 | The same for reactions, with the packet index still satisfied. |
| SchemaDedupe.SchemaSync.EnsureMeshcoreMessagesDedupIndex | src/main/db-schema-sync.ts:695-742 | Both MeshCore deletes in sequence leave both indexes satisfied. |
| SchemaDedupe.SchemaSync.DedupeMeshcoreRfDirectMessagesOnce | src/main/db-schema-sync.ts:1055-1070 | Deletes exactly the rows with a lower-id twin and breaks no index. |
| ContactPrune.PruneOrphansNothing | src/main/database.ts:338-348 | Removing deletable contacts orphans no post that was not an orphan before. |
| ContactPrune.PruneSpares | src/main/database.ts:351-366 | Favourites, rooms with posts and rooms with misfiled posts survive, with every post and every direct message. |
| ContactPrune.UnprotectedGo | src/main/database.ts:351-404 | In plain columns, who goes: a contact that is no favourite, holds no posts and, as a Room, no misfiled traffic goes in the one prune exactly without an advert, in the other exactly with a plausible advert before the cutoff. |
| ContactPrune.RoomlessGo | src/main/database.ts:303-312 | A message stays exactly if it is no room post or its room is stored as a Room contact. |
| ContactPrune.CountPruneIsExact | src/main/database.ts:418-431 | The count prune removes exactly min(total - max, deletable) contacts, none of them protected. |
| ContactPrune.CountPruneTakesOldest | src/main/database.ts:432-440 | No contact that stays had its turn before one that goes, in plain columns: plausible clocks go first, and of either kind the oldest advert. |
| ContactPrune.ContactStore.DeleteNeverAdvertised | src/main/database.ts:368-384 | Removes exactly the deletable contacts without an advert and exactly the posts that were orphans. |
| ContactPrune.ContactStore.DeleteByAge | src/main/database.ts:391-408 | Removes exactly the deletable contacts with a plausible advert before the cutoff and exactly the posts that were orphans. |
| ContactPrune.ContactStore.PruneByCount | src/main/database.ts:418-453 | Removes its quota and the old orphans, or nothing at all. |
| ContactPrune.ContactStore.DeleteWithCascade | src/main/database.ts:338-348 | Deleting contacts inside the cascade removes the doomed contacts and exactly the posts that were orphans before, and leaves no orphan. |
| ContactPrune.ContactStore.DeleteOrphanRoomMessages | src/main/database.ts:303-312 | Visiting the rows in any order removes exactly the posts whose room is no Room contact. |
| ContactPrune.ContactStore.DeleteMessagesForRoomServerIds | src/main/database.ts:289-300 | Deletes exactly the posts of the given rooms and counts them. |
| HashCasing.RepairedIsCanonical | src/main/db-schema-sync.ts:1094-1186 | After the repair each valid destination has exactly one row, under its lowercase key; malformed rows are untouched. |
| HashCasing.NamedMeans | src/main/db-schema-sync.ts:1168-1168 | A display name counts exactly if some character of it is no white space. |
| HashCasing.OrderDoesNotMatter | src/main/db-schema-sync.ts:1156-1185 | Keys, latest contact and flags are the same for every row order. |
| HashCasing.RepairIsIdempotent | src/main/db-schema-sync.ts:1094-1186 | A second run changes nothing. |
| HashCasing.FastPathIsExact | src/main/db-schema-sync.ts:1096-1102 | All valid rows end under their canonical key exactly when some hash has an upper-case letter or none is padded. |
| HashCasing.PaddedHashStays | src/main/db-schema-sync.ts:1096-1102 | A lone padded lowercase hash is left under its padded key. |
| HashCasing.DestinationTable.FoldGroup | src/main/db-schema-sync.ts:1160-1179 | The fold yields the group's latest contact, the OR of its flags, and a non-blank name and icons of members whenever some member has them. |
| HashCasing.DestinationTable.RewriteGroup | src/main/db-schema-sync.ts:1156-1185 | One group becomes one canonical row; all other rows stand. |
| HashCasing.DestinationTable.GroupRows | src/main/db-schema-sync.ts:1119-1128 | Every well-formed hash is in the group of its key, once. |
| HashCasing.DestinationTable.CollapseGroups | src/main/db-schema-sync.ts:1156-1185 | The loop over groups repairs the whole table. |
| HashCasing.DestinationTable.Repair | src/main/db-schema-sync.ts:1094-1186 | The whole repair, fast path included, meets the specification for every row order. |
| SourceGlob.GlobToRegExp | src/architecture/sourcePolicy.ts:41-82 | The index-advancing loop emits the anchored text of the pattern's constructs, one after the other. |
| SourceGlob.HeadAt | src/architecture/sourcePolicy.ts:44-72 | Which construct stands at a position, by the characters the loop inspects. |
| SourceGlob.SplitRoundTrips | src/architecture/sourcePolicy.ts:72-73 | The alternatives of a brace set hold no comma and, joined by commas, are the text between the braces. |
| SourceGlob.SplitIsOnly | src/architecture/sourcePolicy.ts:72-73 | No other comma-free alternatives are. |
| SourceGlob.CompiledTextParses | src/architecture/sourcePolicy.ts:41-82 | For every pattern the text is a well-formed regular expression and reads back as the pattern's translation: no literal character becomes an operator. |
| SourceGlob.TranslationIsFaithful | src/architecture/sourcePolicy.ts:34-82 | On every one-line path the expression accepts exactly what the glob's direct reading matches. |
| SourceGlob.MatchSimpleGlob | src/architecture/sourcePolicy.ts:34-39 | Compile, parse and match decide exactly the glob after both separators are normalised. |
| SourceGlob.SeparatorsAreOne | src/architecture/sourcePolicy.ts:35-36 | Two paths or patterns are normalised alike exactly when they differ only in which separator they use. |
| SourceGlob.LineTerminatorStopsDeep | src/architecture/sourcePolicy.ts:47-54 | A path with a line terminator is matched by the direct reading of the deep wildcard but not by its expression. |
| BadgeCrc.MakeTable | src/main/index.ts:611-616 | Entry i of the table is eight single-bit shifts of i. |
| BadgeCrc.LookUp | src/main/index.ts:619-619 | One table look-up does the work of eight single-bit shifts of the whole register. |
| BadgeCrc.FeedBitsIsShifts | src/main/index.ts:613-619 | Feeding a byte bit by bit equals mixing it in at once and shifting. |
| BadgeCrc.Crc32 | src/main/index.ts:617-621 | The table-driven loop equals the bit-by-bit reflected checksum (section 3.4 of RFC 2083) for every byte sequence. |
| BadgeCrc.KnownChecksum | src/main/index.ts:617-621 | The checksum of the IEND chunk is the one every PNG file carries (the chunk of section 4.1.4 of RFC 2083). |
| BadgeCrc.BurstsAreDetected | src/main/index.ts:611-621 | Messages that differ only within four consecutive bytes, so also in exactly one byte, have equal checksums only if they are equal. |
| FeedBudget.SecondsAreBounded | src/main/beacon-feed.ts:400-425 | In any half-open second of a generation at most 200 updates are forwarded, 512 frames and 16 control notices parsed, and twice the byte budgets handed to the parser. |
| FeedBudget.TwiceTheBudget | src/main/beacon-feed.ts:405-411 | Whatever no tumbling window exceeds, no second exceeds twice. |
| FeedBudget.UseKeeps | src/main/beacon-feed.ts:415-425 | The counters are the sums of what the window's messages used, within budget. |
| FeedBudget.LastIsEarned | src/main/beacon-feed.ts:400-425 | For every history, a message is parsed, taken as a control notice, forwarded or dropped exactly as the sums over its tumbling window allow, so the log is determined by the messages alone. |
| FeedBudget.BeaconFeedClient.OnMessage | src/main/beacon-feed.ts:400-475 | Over any history of a monotone clock a message is forwarded exactly when it is traffic and, in its tumbling window, fewer than 256 frames were parsed, its bytes fit the budget and fewer than 100 updates were forwarded; it is discarded exactly when neither budget nor control reserve takes it. |
| FeedBudget.BeaconFeedClient.EmitTraffic | src/main/beacon-feed.ts:215-219 | Forwards and counts only below the packet budget. |
| FeedBudget.BeaconFeedClient.Disconnect | src/main/beacon-feed.ts:528-534 | Begins a new generation with empty counters. |
| RateLimit.SpanIsBounded | src/main/ipcRateLimit.ts:19-40 | Over any history of a monotone clock every closed span of one window length holds at most max accepted calls. |
| RateLimit.RefusesOnlyWhenFull | src/main/fetchLinkPreview.ts:264-276 | A call is refused exactly when max accepted calls lie in the window that ends with it. |
| RateLimit.SlidingWindow.Take | src/main/ipcRateLimit.ts:24-36 | The shift loop and the push keep the stored timestamps equal to those of the call history. |
| RateLimit.SlidingWindow.LinkPreview | src/main/fetchLinkPreview.ts:29-30 | The link-preview limiter starts empty with 20 calls a minute. |
| EntityDecoder.PassesMerge | src/main/fetchLinkPreview.ts:518-523 | Two replace-all passes are one pass over both entity lists when the first writes nothing an entity is spelled with. |
| EntityDecoder.FivePassesAreOne | src/main/fetchLinkPreview.ts:516-524 | For every string the five passes equal a single left-to-right pass that never reads its own output. |
| EntityDecoder.EntityIsDecoded | src/main/fetchLinkPreview.ts:518-523 | Each of the six entities, in any case, becomes its character and the text behind it is decoded on its own. |
| EntityDecoder.OthersAreCopied | src/main/fetchLinkPreview.ts:518-523 | Every other character is copied, an ampersand that begins no entity included. |
| EntityDecoder.DecodeUndoesEscape | src/main/fetchLinkPreview.ts:516-524 | Decoding escaped text gives back the text: no character is decoded twice. |

## Assumptions about the environment

- `mqtt.js` with `reconnectPeriod: 0`: a client closes at most once, sends no CONNACK after its close, and a forced end
  closes it in a later event. No token-refresh listener calls `updateToken` synchronously.
- The connection guard is wired and `connect` runs under a GATT scan lease, as `src/main/index.ts` does (lines 383 and 2876).
- Scan releases are balanced: each ends a lease. `src/main/index.ts` (lines 2809-2816) lets a caller release without one;
  `GattProperties.StrayReleaseLetsReticulumIn` says what that does.
- A reply to a create-session request comes from the sidecar process it was sent to.
- SQLite checks a unique index row by row, undoes a failed statement as a whole, and visits rows in any order. The
  answer to the ordered query of the count prune is a parameter that is ordered as the query says, ties in any order.
- JavaScript's `test` on the emitted regular expressions decides membership in their language (they hold no back
  reference or look-around); strings are sequences of code units. Lower-casing is ASCII: no other character lower-cases
  to a hex digit.
- `performance.now()` and, for the limiters, the clock passed in do not go back.

## Left out

- GattProtocol.DisconnectAll: joins the code after the race to the step before it; the raced promises are settled at that point, and both profiles are visited in a fixed order.
- GattProtocol.Finish: works on the map's reservation; the object that a released reservation leaves in a suspended call is not observable.
- GattProtocol.AfterExit: announces dropped sessions in a fixed profile order.
- GattProtocol.Step: listeners that call back into the proxy from within an emitted event are not modelled.
- GattSidecarProxyObject.GattSidecarProxy.Connect: symbols, session objects and sockets are the attempt's number, so identity of objects is equality of numbers.
- MqttReconnect.AckTimedOut: no liveness is claimed; how long a timer runs, the connection watchdog, pings, delayed subscribe, publish and the token-refresh schedule are not modelled.
- MqttReconnect.MaxRetries: the retry setting is an integer.
- MessageStore.Persisted: rows whose stored channel is missing or differs from their class are excluded; for them the index and the classifier disagree.
- NodeRenumber.Accepts: the number derived from the key is an arbitrary function of the key.
- NodeRenumber.NodeDb.Migrate: a failing statement inside the transaction (an I/O error) is not modelled.
- ContactPrune.ContactStore.DeleteByAge: the cutoff in seconds is a parameter.
- SchemaDedupe.SchemaSync.DedupeMeshcoreRfDirectMessagesOnce: the schema version that makes it run once is not modelled.
- HashCasing.DestinationTable.Repair: which member's display name and icon a collapsed group takes depends on the row order; that it takes one whenever some member has one is stated.
- FeedBudget.Receive: parsing and validation of a message are its kind; messages of other generations or sockets and binary ones never reach it.
- RateLimit.SlidingWindow.Take: a clock that goes back is outside the bounds.
- Scanning, pairing, the RSSI polling timer, the results of writes and reads, and the bodies of HTTP requests.
- FTS triggers, column addition, backups, retention by count, position-history pruning and PNG assembly around the checksum.
