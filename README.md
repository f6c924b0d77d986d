# Ledger BLE transport for Android, modelled in Dafny

This project models the core of `hw-transport-android-ble`, the Android library that talks to
Ledger Nano X and Nano FTS devices over Bluetooth Low Energy. It covers four pieces:

- **BleServiceStateMachine**: the per-connection handshake
  `Created -> WaitingServices -> WaitingNotificationEnable -> WaitingMtu -> Ready <-> WaitingResponse`,
  driven by normalised GATT events, with `Error` reachable from every state. The emitted state
  stream and the GATT requests are ghost logs. The sender is an abstract queue, and the connect
  timer is an explicit `Timeout` step (`StateMachine.dfy`).
- **BleService**: the inline "one command in flight" send discipline (`pendingApdu`,
  `commandQueue`, `pendingCommand`), the multi-frame answer reassembly (`handleAnswer`), the MTU
  handshake, and the connection teardown. Calls on `BluetoothGatt` and emitted service events
  are ghost logs. A ghost history of queued and sent frames carries the frame-ordering invariant
  (`BleService.dfy`, `Frames.dfy`, `MtuHandshake.dfy`, `Gatt.dfy`).
- **BleManager**: scan-list deduplication and removal, device resolution (scanned devices
  first, then bonded ones), the single-flight disconnect guard, per-request callback dispatch
  and the teardown in `disconnected()`. Platform calls, published states and events, and user
  callback invocations are ghost logs; a user callback is named by a token (`BleManager.dfy`).
- **BleGattCallbackFlow**: the five GATT callback overrides as a total function to at most one
  `GattCallbackEvent` (`GattCallbackFlow.dfy`).

Kotlin exceptions the code can raise are values: `Outcome.Threw(e)` or `Result.Failure(e)`.
They cover `!!` on null, `first()`/`removeFirst()` on an empty list, a `lateinit` property read
before it is set, `toInt(16)` on bad text, and `substring` past the end. Bytes are a `Byte`
newtype; UUIDs are their 128-bit values, which is what `java.util.UUID` equality compares.
Answers are carried as bytes instead of hex text.

Behaviours of the code that the model keeps:

- `Error` is not terminal. Every event in `Error` pushes an `Error` again, and a `ServicesDiscovered`
  event with no usable service leaves it unchanged. The model proves that `Error` is never left,
  but it does not ignore events there.
- `handleAnswer` does not reset on an index-0 frame. Frames left over from an unfinished answer
  are joined in front of the next one (`Frames.StaleFrameIsJoined`). A frame's request id is not
  compared with anything.
- `onBatchScanResults` does not deduplicate (`Manager.BatchResultsMayDuplicate`); only
  `onScanResult` does.
- `disconnectService` drops queued and in-flight APDUs without reporting an error for them.
- A failed write ack reports the frame in flight and forgets it, but leaves that APDU's remaining
  frames queued; the next successful ack sends them.
- The state machine's error messages are the literal strings of the code.
- An exception in the state machine's event collector (an unreadable MTU echo) is not caught. It cancels the machine's coroutine scope, so no later event is handled and the connect timer stops. The model records this in `scopeActive`.

## Model

Source paths are under `transport-ble/src/main/java/com/ledger/live/ble/`.

| member | source | states |
|---|---|---|
| MtuHandshake.ParseMtu | transport-ble/src/main/java/com/ledger/live/ble/service/BleService.kt:200-204 | The MTU is the unsigned big-endian value of the bytes after the 5-byte handshake prefix; parsing fails exactly when no byte follows the prefix or the value exceeds Int.MAX_VALUE, and a parsed MTU is in 0..Int.MAX_VALUE |
| MtuHandshake.ParseMtuOfEcho | transport-ble/src/main/java/com/ledger/live/ble/service/BleService.kt:357 | Round trip: any 5-byte prefix followed by an MTU written big-endian in one or more bytes parses back to that MTU |
| MtuHandshake.ParseMtuInjective | transport-ble/src/main/java/com/ledger/live/ble/service/BleServiceStateMachine.kt:142 | A successfully parsed echo is exactly its prefix followed by the big-endian encoding of the parsed MTU, so distinct payloads give distinct MTUs |
| Gatt.LastWithIsLast | transport-ble/src/main/java/com/ledger/live/ble/service/BleServiceStateMachine.kt:192-207 | The builder slot for a characteristic kind holds the last characteristic of that kind in discovery order, and is empty exactly when the service has none |
| Gatt.LastLedgerServiceIsLast | transport-ble/src/main/java/com/ledger/live/ble/service/BleServiceStateMachine.kt:184-210 | The service kept is the last one with the Nano X or Nano FTS UUID, and there is none exactly when no discovered service has either UUID |
| Gatt.BuildDeviceService | transport-ble/src/main/java/com/ledger/live/ble/service/BleServiceStateMachine.kt:190-208 | The builder loop over the characteristics yields the write, write-without-response and notify slots of DeviceServiceOf |
| Gatt.ParseServices | transport-ble/src/main/java/com/ledger/live/ble/service/BleServiceStateMachine.kt:182-216 | The services loop returns the resolved service of the last Ledger service, and null exactly when no service has a Ledger UUID |
| Gatt.WriteTarget | transport-ble/src/main/java/com/ledger/live/ble/service/BleService.kt:345-353 | A frame has no target exactly when the device service has neither write characteristic |
| Gatt.WriteTargetOfService | transport-ble/src/main/java/com/ledger/live/ble/service/BleService.kt:345-353 | For a service resolved by the builder, the frame target is missing exactly when no discovered characteristic has a write UUID; otherwise it is one of the service's characteristics with a write UUID, and a write-without-response one whenever the service has one |
| Gatt.DeviceServiceSlots | transport-ble/src/main/java/com/ledger/live/ble/service/BleServiceStateMachine.kt:192-207 | A resolved device service keeps the service UUID, and each slot only holds a characteristic whose UUID is of that slot's kind |
| GattCallbackFlow.EventOf | transport-ble/src/main/java/com/ledger/live/ble/service/BleGattCallbackFlow.kt:27-80 | Each callback yields at most one event. No event comes only from a connection-state change other than connected/disconnected. Connected comes only from STATE_CONNECTED. Disconnected comes from STATE_DISCONNECTED or a failed discovery. Acks carry `status == GATT_SUCCESS`. Notifications carry their bytes unchanged. Each direction of each equivalence is stated |
| GattCallbackFlow.EventsOf | transport-ble/src/main/java/com/ledger/live/ble/service/BleGattCallbackFlow.kt:21-25 | A sequence of callbacks never yields more events than callbacks |
| GattCallbackFlow.EventsOfCount | transport-ble/src/main/java/com/ledger/live/ble/service/BleGattCallbackFlow.kt:39-80 | Callbacks other than connection-state changes each contribute exactly one event |
| GattCallbackFlow.NotificationsPassThrough | transport-ble/src/main/java/com/ledger/live/ble/service/BleGattCallbackFlow.kt:74-80 | A run of notifications becomes the same run of CharacteristicChanged events with the same bytes, in order |
| Frames.Accumulate | transport-ble/src/main/java/com/ledger/live/ble/service/BleService.kt:231-249 | The frame is appended. An answer is returned exactly when the completion test holds on the list with the new frame; it is the payloads joined in arrival order and empties the list. Otherwise the list is kept with the frame appended |
| Frames.JoinedLength | transport-ble/src/main/java/com/ledger/live/ble/service/BleService.kt:238-243 | The joined answer is as long as the summed payload sizes the completion test compares |
| Frames.FreshAnswerHasDeclaredSize | transport-ble/src/main/java/com/ledger/live/ble/service/BleService.kt:235-245 | An answer completed from an empty list or by a later frame is as long as the size declared by the first pending frame, and is the earlier payloads followed by the new one |
| Frames.StaleFrameIsJoined | transport-ble/src/main/java/com/ledger/live/ble/service/BleService.kt:231-249 | For every pending list, a complete index-0 frame delivers the pending payloads in front of its own and empties the list: nothing is reset |
| Frames.SumPayloads | transport-ble/src/main/java/com/ledger/live/ble/service/BleService.kt:238 | The `sumOf` loop computes the total payload size of the pending frames |
| Frames.JoinPayloads | transport-ble/src/main/java/com/ledger/live/ble/service/BleService.kt:243 | The `joinToString` loop computes the payloads in arrival order, whose length is the total payload size |
| Frames.BleReceiver.constructor | transport-ble/src/main/java/com/ledger/live/ble/service/BleServiceStateMachine.kt:26 | A new receiver has no pending frames and uses the given frame decoder |
| Frames.BleReceiver.HandleAnswer | transport-ble/src/main/java/com/ledger/live/ble/service/BleServiceStateMachine.kt:147 | The receiver's answer and pending list after a notification are those of Accumulate on the decoded frame |
| ServiceStateMachine.BleSender.constructor | transport-ble/src/main/java/com/ledger/live/ble/service/BleServiceStateMachine.kt:60-64 | The lazily created sender starts with no queued APDU, nothing in flight, and not initialised |
| ServiceStateMachine.BleSender.QueuApdu | transport-ble/src/main/java/com/ledger/live/ble/service/BleServiceStateMachine.kt:67 | The APDU joins the back of the queue under its id, and the id is returned |
| ServiceStateMachine.BleSender.DequeuApdu | transport-ble/src/main/java/com/ledger/live/ble/service/BleServiceStateMachine.kt:178 | The head of the queue is promoted to in flight only when the queue is non-empty and nothing is in flight; otherwise nothing changes |
| ServiceStateMachine.BleSender.ClearCommand | transport-ble/src/main/java/com/ledger/live/ble/service/BleServiceStateMachine.kt:149 | After an answer nothing is in flight |
| ServiceStateMachine.BleSender.Initialized | transport-ble/src/main/java/com/ledger/live/ble/service/BleServiceStateMachine.kt:175-177 | The sender records the MTU and the device service and is initialised |
| ServiceStateMachine.BleServiceStateMachine.constructor | transport-ble/src/main/java/com/ledger/live/ble/service/BleServiceStateMachine.kt:23-48 | A new machine is Created with mtuSize -1, no device service, its scope alive, the 5 s timer running, and nothing emitted |
| ServiceStateMachine.BleServiceStateMachine.PushState | transport-ble/src/main/java/com/ledger/live/ble/service/BleServiceStateMachine.kt:166-180 | A pushed state is assigned and emitted. Pushing Ready initialises the sender at most once, requests a dequeue, and, when an APDU is queued, promotes it and moves on to WaitingResponse for it |
| ServiceStateMachine.BleServiceStateMachine.Timeout | transport-ble/src/main/java/com/ledger/live/ble/service/BleServiceStateMachine.kt:44-47 | The firing timer emits the timeout Error once without assigning currentState |
| ServiceStateMachine.BleServiceStateMachine.SendApdu | transport-ble/src/main/java/com/ledger/live/ble/service/BleServiceStateMachine.kt:66-76 | The APDU is always queued and its id returned. In Ready it is put in flight and the machine waits for its response. In WaitingResponse it waits behind the one in flight. In every other state discovery is requested and the state is not assigned |
| ServiceStateMachine.BleServiceStateMachine.OnConnected | transport-ble/src/main/java/com/ledger/live/ble/service/BleServiceStateMachine.kt:80-91 | In Created the timer is cancelled, WaitingServices is emitted and discovery is requested; in any other state the machine moves to Error |
| ServiceStateMachine.BleServiceStateMachine.OnServicesDiscovered | transport-ble/src/main/java/com/ledger/live/ble/service/BleServiceStateMachine.kt:92-109 | A usable service overwrites deviceService whatever the state. In WaitingServices notification enabling is requested for it, otherwise the machine moves to Error. Without a usable service only "No usable service found for device" is emitted, and neither currentState nor deviceService changes |
| ServiceStateMachine.BleServiceStateMachine.OnWriteDescriptorAck | transport-ble/src/main/java/com/ledger/live/ble/service/BleServiceStateMachine.kt:110-120 | In WaitingNotificationEnable the machine moves to WaitingMtu and asks for the MTU; otherwise it moves to Error |
| ServiceStateMachine.BleServiceStateMachine.OnWriteCharacteristicAck | transport-ble/src/main/java/com/ledger/live/ble/service/BleServiceStateMachine.kt:121-138 | In WaitingMtu nothing changes. In Ready or WaitingResponse the sender is asked for its next frame and the state is kept. Elsewhere the machine moves to Error |
| ServiceStateMachine.BleServiceStateMachine.OnCharacteristicChanged | transport-ble/src/main/java/com/ledger/live/ble/service/BleServiceStateMachine.kt:139-159 | In WaitingMtu the parsed MTU is stored and Ready(deviceService, mtu, none) is pushed, or the parse throws and nothing changes. In WaitingResponse a complete answer clears the command in flight and pushes Ready with the answer, and an incomplete one changes only the receiver. Elsewhere the machine moves to Error |
| ServiceStateMachine.BleServiceStateMachine.OnDisconnected | transport-ble/src/main/java/com/ledger/live/ble/service/BleServiceStateMachine.kt:160-162 | From every state, Error included, the machine moves to Error("Unexpected disconnection happened") |
| ServiceStateMachine.BleServiceStateMachine.HandleGattCallbackEvent | transport-ble/src/main/java/com/ledger/live/ble/service/BleServiceStateMachine.kt:37-164 | Once the scope is cancelled no event is handled and nothing changes. Otherwise every event keeps the machine's invariant. The machine moves along the handshake by at most one step or into Error, and never leaves Error. Only a bad MTU echo throws; it leaves the state unchanged and cancels the scope and the timer. Only discovery changes deviceService and only the MTU echo changes mtuSize |
| ServiceStateMachine.BleServiceStateMachine.CollectEvents | transport-ble/src/main/java/com/ledger/live/ble/service/BleServiceStateMachine.kt:37-47 | Over any run of events: a run starting in Error ends in Error; unless it ends in Error, n events move the handshake at most n steps; a cancelled scope changes nothing; a run that cancels the scope ends in WaitingMtu with the timer stopped |
| ServiceStateMachine.NanoXHandshake | transport-ble/src/main/java/com/ledger/live/ble/service/BleServiceStateMachine.kt:80-145 | A Nano X connecting, discovering its service, acknowledging both writes and echoing MTU 0x99 leaves the machine Ready with that MTU, after emitting WaitingServices, WaitingNotificationEnable, WaitingMtu and Ready |
| TransportService.SendId | transport-ble/src/main/java/com/ledger/live/ble/service/BleService.kt:367-369 | An id is the device address, "_send_" and the clock reading |
| TransportService.SendIdInjective | transport-ble/src/main/java/com/ledger/live/ble/service/BleService.kt:367-369 | Two ids for one device are equal only when the clock readings are |
| TransportService.LedgerServices | transport-ble/src/main/java/com/ledger/live/ble/service/BleService.kt:112-147 | Discovery adds at most one device service per discovered service |
| TransportService.LedgerServicesEndWithResolved | transport-ble/src/main/java/com/ledger/live/ble/service/BleService.kt:112-147 | The inline service adds no service exactly when the state machine resolves none, and otherwise the last service it adds is the one the state machine keeps |
| TransportService.NotificationCallsTargets | transport-ble/src/main/java/com/ledger/live/ble/service/BleService.kt:220-228 | Notifications are enabled on the notify characteristic of every added service, in order |
| TransportService.MtuCallsTargets | transport-ble/src/main/java/com/ledger/live/ble/service/BleService.kt:286-293 | The handshake command is written to the write-with-response characteristic of every device service, in order |
| TransportService.FrameWritesTargets | transport-ble/src/main/java/com/ledger/live/ble/service/BleService.kt:345-353 | Each frame is written once per device service, in order: to write-without-response when the service has it, otherwise to write-with-response |
| TransportService.BleService.constructor | transport-ble/src/main/java/com/ledger/live/ble/service/BleService.kt:33-59 | A new service is unbound, has no connection, address or device services, is DISCONNECTED with MTU 0, and has empty queues |
| TransportService.BleService.Initialize | transport-ble/src/main/java/com/ledger/live/ble/service/BleService.kt:61-70 | Initialisation succeeds exactly when an adapter is available, and then the state is CONNECTING |
| TransportService.BleService.OnBind | transport-ble/src/main/java/com/ledger/live/ble/service/BleService.kt:36-40 | Binding marks the service bound and initialises it |
| TransportService.BleService.OnUnbind | transport-ble/src/main/java/com/ledger/live/ble/service/BleService.kt:42-47 | Unbinding has the full teardown effect of disconnectService (`TornDown`), then marks the service unbound; connectionState and the timer are kept |
| TransportService.BleService.DisconnectService | transport-ble/src/main/java/com/ledger/live/ble/service/BleService.kt:72-86 | `TornDown`: CloseAndDisconnect is issued when the connection was open, and it is closed. deviceServices, commandQueue, pendingAnswers and pendingApdu are emptied, pendingCommand is cleared, the MTU is set to 0 and BleDeviceDisconnected is emitted. The address, the notification flag and the frames sent are kept, and nothing else is touched |
| TransportService.BleService.Connect | transport-ble/src/main/java/com/ledger/live/ble/service/BleService.kt:251-279 | `ConnectEffect`: with an open connection to the same address, the connection is reused (Reconnect, timer untouched) and the platform's answer is returned. Otherwise connectGatt is asked for a connection to the address; the connection is held only when the platform returns one, so after a null answer a later connect to the same address asks for a new connection instead of reusing one. In that branch the address is recorded, the timer started and true returned. CONNECTING is set exactly when true is returned, and the queues, MTU, device services and logs are untouched |
| TransportService.BleService.Timeout | transport-ble/src/main/java/com/ledger/live/ble/service/BleService.kt:272-275 | The firing connect timer tears the connection down as disconnectService does: closed, every queue and the answer buffer empty, MTU 0, the disconnection reported, CloseAndDisconnect issued when open; the address and connectionState are kept. A timer not running changes nothing at all |
| TransportService.BleService.OnConnectionStateChange | transport-ble/src/main/java/com/ledger/live/ble/service/BleService.kt:89-104 | Connected sets CONNECTED and requests discovery, and leaves every queue, the MTU, the device services and the connection unchanged. Disconnected sets DISCONNECTED and tears down as disconnectService does, MTU and device services included. Any other state changes nothing at all |
| TransportService.BleService.OnServicesDiscovered | transport-ble/src/main/java/com/ledger/live/ble/service/BleService.kt:106-156 | On success every Ledger service is built, has notifications enabled and is appended in order, the timer is cancelled and BleDeviceConnected is emitted. Any other status changes nothing |
| TransportService.BleService.AddLedgerServices | transport-ble/src/main/java/com/ledger/live/ble/service/BleService.kt:112-148 | The services loop appends LedgerServices(services) and enables notifications on each one |
| TransportService.BleService.AddLedgerServiceAt | transport-ble/src/main/java/com/ledger/live/ble/service/BleService.kt:112-147 | One iteration of the services loop extends the added services and the notification requests from the first `i` discovered services to the first `i + 1` |
| TransportService.BleService.AddLedgerService | transport-ble/src/main/java/com/ledger/live/ble/service/BleService.kt:115-146 | A Ledger service is built, has notifications enabled on its notify characteristic and is appended; any other service changes nothing |
| TransportService.BleService.InitNotification | transport-ble/src/main/java/com/ledger/live/ble/service/BleService.kt:220-228 | Notifications are enabled only when a connection is open |
| TransportService.BleService.OnDescriptorWrite | transport-ble/src/main/java/com/ledger/live/ble/service/BleService.kt:158-171 | Notifications are marked enabled, and the MTU handshake is sent exactly when no MTU is known |
| TransportService.BleService.SendMtuMessage | transport-ble/src/main/java/com/ledger/live/ble/service/BleService.kt:286-293 | The MTU is reset to 0 and the handshake is written to every device service |
| TransportService.BleService.OnCharacteristicWrite | transport-ble/src/main/java/com/ledger/live/ble/service/BleService.kt:173-191 | A successful ack sends exactly the head of commandQueue (FIFO) or does nothing when it is empty. A failed ack emits ErrorSend for the frame in flight and clears it, and does nothing more when nothing is in flight. Frames leave the queue in the order they entered it |
| TransportService.BleService.OnCharacteristicChanged | transport-ble/src/main/java/com/ledger/live/ble/service/BleService.kt:193-215 | Without an MTU the echo sets the MTU and READY, or throws before anything changes: the queues, pending frames, frame logs, calls and events all keep their values. With a command in flight a complete answer emits SendAnswer(id, answer) and frees the sender. In every non-throwing case a queued APDU then gets its turn |
| TransportService.BleService.HandleAnswer | transport-ble/src/main/java/com/ledger/live/ble/service/BleService.kt:231-249 | The imperative accumulator gives the answer and pending list of Accumulate |
| TransportService.BleService.SendApdu | transport-ble/src/main/java/com/ledger/live/ble/service/BleService.kt:301-318 | `SendApduEffect`: without an address it has the full teardown effect and throws NullPointerException. Otherwise the APDU is queued under its id, the connection, the device services, the MTU, the answer buffer and the events are kept. When READY, the queue is served as dequeuApdu does. Otherwise notifications are re-enabled on the first device service, and the call throws NoSuchElementException when there is none. isBound, connectionState and the timer are kept on every path; a returned id is the generated one |
| TransportService.BleService.DequeuApdu | transport-ble/src/main/java/com/ledger/live/ble/service/BleService.kt:320-331 | The head APDU is promoted only when nothing is in flight; its frames join the queue and the first queued frame is put in flight, so at most one command is in flight |
| TransportService.BleService.SendCommands | transport-ble/src/main/java/com/ledger/live/ble/service/BleService.kt:333-339 | All frames of a command are appended to commandQueue in order and the queue's first frame is sent; an empty queue throws NoSuchElementException |
| TransportService.BleService.SendCommand | transport-ble/src/main/java/com/ledger/live/ble/service/BleService.kt:341-354 | The frame becomes the one in flight before it is written to the write target of every device service |
| Manager.ServiceIdOf | transport-ble/src/main/java/com/ledger/live/ble/BleManager.kt:96 | The service id is the first advertised UUID. With no UUID array it is the text "null", and an empty array throws NoSuchElementException |
| Manager.BatchServiceIdOf | transport-ble/src/main/java/com/ledger/live/ble/BleManager.kt:69 | In the batch handler a missing UUID array throws NullPointerException and an empty one throws NoSuchElementException |
| Manager.FirstWithKey | transport-ble/src/main/java/com/ledger/live/ble/BleManager.kt:91 | Nothing is found exactly when no element has the key; a found element is listed and has the key |
| Manager.FirstWithKeyIsEarliest | transport-ble/src/main/java/com/ledger/live/ble/BleManager.kt:355 | The element found is the earliest one with the key |
| Manager.WithoutId | transport-ble/src/main/java/com/ledger/live/ble/BleManager.kt:106 | The devices kept are exactly those with another id. The list shrinks exactly when some device had the id |
| Manager.WithoutIdKeepsUnique | transport-ble/src/main/java/com/ledger/live/ble/BleManager.kt:104-109 | Removing devices keeps ids unique |
| Manager.AddAbsentKeepsUnique | transport-ble/src/main/java/com/ledger/live/ble/BleManager.kt:91-99 | Adding a device whose id is not listed keeps ids unique |
| Manager.ModelOf | transport-ble/src/main/java/com/ledger/live/ble/BleManager.kt:88-98 | A built model has the result's address as id, its rssi, and a service id |
| Manager.BatchAdded | transport-ble/src/main/java/com/ledger/live/ble/BleManager.kt:60-75 | A batch adds at most one device per result, and one per result when none throws |
| Manager.BatchAddedStops | transport-ble/src/main/java/com/ledger/live/ble/BleManager.kt:62-73 | Once a result throws, the later results are never looked at |
| Manager.BatchResultsMayDuplicate | transport-ble/src/main/java/com/ledger/live/ble/BleManager.kt:60-75 | For every result whose model can be built, a batch reporting it twice lists that device twice under one id |
| Manager.ResolveDevice | transport-ble/src/main/java/com/ledger/live/ble/BleManager.kt:236-245 | A resolved device has the requested address as its id |
| Manager.ResolveDeviceOrder | transport-ble/src/main/java/com/ledger/live/ble/BleManager.kt:236-254 | A scanned device wins over a bonded one. Only a bonded device advertising an empty UUID array throws. Nothing is found exactly when neither list has the address |
| Manager.BleManager.constructor | transport-ble/src/main/java/com/ledger/live/ble/BleManager.kt:35-58 | A new manager is not scanning, connecting or connected, lists no device, has no service attached and no callbacks |
| Manager.BleManager.OnScanResult | transport-ble/src/main/java/com/ledger/live/ble/BleManager.kt:82-112 | A match adds a device only when its address is not listed, and reports the list only then. A lost match removes every device with that address and reports the list only when something was removed. Other types change nothing. Unique ids stay unique |
| Manager.BleManager.OnBatchScanResults | transport-ble/src/main/java/com/ledger/live/ble/BleManager.kt:60-75 | A null batch changes nothing. Otherwise the devices of BatchAdded are appended in order, and the first result that cannot be modelled throws |
| Manager.BleManager.StartScanning | transport-ble/src/main/java/com/ledger/live/ble/BleManager.kt:126-181 | The scan callback is registered when given, any scan is stopped, the list is emptied, scanning starts and a polling job runs |
| Manager.BleManager.StopScanning | transport-ble/src/main/java/com/ledger/live/ble/BleManager.kt:183-191 | Afterwards scanning and polling are off whatever the state before, so stopping twice leaves the same flags |
| Manager.BleManager.PollingTick | transport-ble/src/main/java/com/ledger/live/ble/BleManager.kt:171-178 | While the polling job runs each tick publishes the current list |
| Manager.BleManager.InternalDisconnect | transport-ble/src/main/java/com/ledger/live/ble/BleManager.kt:280-293 | An unbind starts exactly when no disconnection is pending (no deferred, or it is completed or cancelled) and a bound service is attached; the new deferred is then active |
| Manager.BleManager.Disconnect | transport-ble/src/main/java/com/ledger/live/ble/BleManager.kt:259-277 | The disconnection callback is registered when given, then the guarded disconnection runs |
| Manager.BleManager.InternalConnect | transport-ble/src/main/java/com/ledger/live/ble/BleManager.kt:225-255 | Scanning stops, a disconnection may start and the callback is registered. A device found by ResolveDevice is remembered and the service bound. No device reports "Device not found" to the callback and on the event flow without binding |
| Manager.BleManager.ConnectResolved | transport-ble/src/main/java/com/ledger/live/ble/BleManager.kt:247-254 | A found device is remembered and the service bound; otherwise "Device not found" is reported |
| Manager.BleManager.ServiceConnected | transport-ble/src/main/java/com/ledger/live/ble/BleManager.kt:329-338 | When initialisation fails, the connection callback hears of it and the service has the full teardown effect, with its state, binding and timer kept. Otherwise the service is CONNECTING. A device never set throws, and nothing else in the service changes. A remembered device makes the service connect to its id with the full `ConnectEffect`, under the platform answers passed in |
| Manager.BleManager.Send | transport-ble/src/main/java/com/ledger/live/ble/BleManager.kt:295-301 | Without an attached service it throws IllegalStateException; otherwise the attached service has the full effect of sendApdu (`SendApduEffect`) and the call ends as sendApdu does |
| Manager.BleManager.SendWithCallbacks | transport-ble/src/main/java/com/ledger/live/ble/BleManager.kt:304-320 | Without a service it throws IllegalStateException. Otherwise the service has the full effect of sendApdu (`SendApduEffect`). The callbacks are registered under exactly the generated id sendApdu returned, and only when it returned one |
| Manager.BleManager.OnServiceEvent | transport-ble/src/main/java/com/ledger/live/ble/BleManager.kt:340-369 | Connected ends connecting, tells the callback and publishes Connected. Disconnected has the full effect of `disconnected()` and publishes Disconnected. An answer or an error goes to the first request registered under its id, and an error is also published. Each branch states the fields it keeps: only Disconnected touches the service, the callbacks, the deferred and the platform calls. Pending requests are never removed |
| Manager.BleManager.Disconnected | transport-ble/src/main/java/com/ledger/live/ble/BleManager.kt:380-395 | A still-bound service is unbound and nothing else changes. Otherwise the disconnection callback is preferred over the connection-lost error, both callbacks and the service are cleared, isConnected is false and a pending disconnection is completed |

## Left out

- Android plumbing. Not modelled: the Service lifecycle beyond the bound flag, `stopSelf`, the binder, `serviceConnection` and `onServiceDisconnected`, `BluetoothAdapter` and scan settings and filters, and `writeType` settings. The platform side is represented by recorded calls and by parameters: whether an adapter is available, whether a reconnect succeeds, whether connectGatt returns a connection, and the bonded devices.
- Coroutines, flows and timers. Each 5 s connect timer is an explicit `Timeout` step, and the 1 s polling loop is a `PollingTick` step. Flows are ghost logs: buffering, `tryEmit` drops and the aliasing of the emitted scanned-device list are not modelled. A coroutine launched by `connect`, `disconnect` or `internalStartScanning` is a separate step the caller takes; the `await` on the disconnection deferred is not modelled.
- TransportService.BleService.Connect: a new connect does not cancel an earlier connect timer; the model keeps one timer flag, so it does not tell two running timers apart.
- BleSender, BleReceiver, FrameCommand, BleCommand and BleDeviceService.Builder are not part of this model. The sender is an abstract queue following the dequeue discipline of the inline service. The receiver is given the rule of the inline `handleAnswer`. Frame decoding and fragmentation are function parameters; the wire layout and a fragment/reassemble round trip are not modelled. The builder's own checks in `build()` are not modelled either.
- The hex helpers (`toHexString`, `fromHexStringToBytes`, `toUUID`) are not part of this model: bytes and UUID values are used directly, and answers are bytes instead of hex text.
- `generateId` reads the wall clock; the reading is a parameter.
- GattInteractor.kt is a thin wrapper over `BluetoothGatt`; its calls are recorded as intents of the state machine.
- `build` and `clear` of the state machine open and close the platform connection and are not modelled.
- The state machine's uncaught exception is modelled only as the cancelled scope; what the platform does with the exception afterwards is not modelled.
- `onScanFailed` only logs. `device.name` may be null on the platform and is a plain string here.
- The sample app (screens, view models, activity), the singleton `getInstance`, and logging.
- The state machine test file targets another version of the state machine (other states and events); it is not modelled.
