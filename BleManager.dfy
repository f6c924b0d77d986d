/**
 * BleManager: the session object an app talks to. It keeps the list of scanned
 * devices, resolves a device to connect to, guards against overlapping disconnections,
 * forwards APDUs to the bound BleService and routes its events to the callbacks
 * registered per request id. Platform calls and callback invocations are ghost logs;
 * a callback is named by a token.
 */
module Manager {
  import opened Common
  import TransportService
  import opened Frames

  const CallbackTypeAllMatches: int := 1
  const CallbackTypeFirstMatch: int := 2
  const CallbackTypeMatchLost: int := 4

  const DeviceNotFound := "Device not found"
  const ConnectionLostMessage := "Device connection lost"
  const InitializationFailed := "Couldn't initialize the BLE service"
  const ServiceNotConnected := "Bluetooth service not connected, please use connect before"

  datatype BleDeviceModel = BleDeviceModel(id: string, name: string, serviceId: Option<string>, rssi: int)

  /** What a scan result (or a bonded device) offers: its address, name, advertised UUIDs as text, and signal. */
  datatype ScanResult = ScanResult(address: string, name: string, uuids: Option<seq<string>>, rssi: int)

  datatype BleState =
    | Idle
    | Scanning(scannedDevices: seq<BleDeviceModel>)
    | Connected(connectedDevice: BleDeviceModel)
    | Disconnected

  datatype BleEvent =
    | SendError(error: string)
    | ConnectionError(error: string)
    | BluetoothActivated
    | BluetoothDeactivated
    | ConnectionLost
    | SendSuccess(id: string)
    | SendAnswer(id: string, answer: seq<Byte>)

  /** A BleManagerSendCallback: the request id and the token of its onSuccess/onError pair. */
  datatype SendRequest = SendRequest(id: string, token: nat)

  /** The state of a CompletableDeferred: active, completed or cancelled. */
  datatype DeferredState = Active | Done | Cancelled

  /** A user callback invoked by the manager. */
  datatype Invocation =
    | ScanDevices(token: nat, devices: seq<BleDeviceModel>)
    | ConnectionSuccess(token: nat, device: BleDeviceModel)
    | ConnectionFailure(token: nat, message: string)
    | DisconnectionSuccess(token: nat)
    | RequestSuccess(token: nat, answer: seq<Byte>)
    | RequestError(token: nat, error: string)

  /** A call on the Android platform. */
  datatype PlatformCall = StartScan | StopScan | BindService | UnbindService

  /**
   * `device.uuids?.first()?.uuid.toString()`: the first advertised UUID; a device
   * advertising none (null) gives the text "null", an empty array makes first() throw.
   */
  function ServiceIdOf(uuids: Option<seq<string>>): (r: Result<string>)
    ensures r.Failure? <==> uuids == Some([])
    ensures r.Failure? ==> r.exception == NoSuchElement
    ensures r.Success? ==> r.value == if uuids.None? then "null" else uuids.value[0]
  {
    match uuids
    case None => Success("null")
    case Some(u) => if u == [] then Failure(NoSuchElement) else Success(u[0])
  }

  /** `device.uuids.first().uuid.toString()` of the batch handler: a null array throws too. */
  function BatchServiceIdOf(uuids: Option<seq<string>>): (r: Result<string>)
    ensures r.Failure? <==> uuids.None? || uuids == Some([])
    ensures uuids.None? ==> r == Failure(NullPointer)
    ensures r.Success? ==> r.value == uuids.value[0]
  {
    match uuids
    case None => Failure(NullPointer)
    case Some(u) => if u == [] then Failure(NoSuchElement) else Success(u[0])
  }

  /** The first element whose key is `k` (Kotlin's `find` / `firstOrNull`). */
  function FirstWithKey<T>(xs: seq<T>, key: T -> string, k: string): (r: Option<T>)
    ensures r.None? <==> forall i :: 0 <= i < |xs| ==> key(xs[i]) != k
    ensures r.Some? ==> r.value in xs && key(r.value) == k
  {
    if xs == [] then None
    else if key(xs[0]) == k then Some(xs[0])
    else
      var r := FirstWithKey(xs[1..], key, k);
      assert forall i :: 1 <= i < |xs| ==> xs[1..][i - 1] == xs[i];
      r
  }

  /** The element found is the earliest one with the key. */
  lemma {:induction false} FirstWithKeyIsEarliest<T>(xs: seq<T>, key: T -> string, k: string)
    requires FirstWithKey(xs, key, k).Some?
    ensures exists i :: 0 <= i < |xs| && xs[i] == FirstWithKey(xs, key, k).value
                        && forall j :: 0 <= j < i ==> key(xs[j]) != k
  {
    if key(xs[0]) != k {
      FirstWithKeyIsEarliest(xs[1..], key, k);
      var i :| 0 <= i < |xs[1..]| && xs[1..][i] == FirstWithKey(xs[1..], key, k).value
               && forall j :: 0 <= j < i ==> key(xs[1..][j]) != k;
      assert xs[i + 1] == FirstWithKey(xs, key, k).value;
      forall j | 0 <= j < i + 1 ensures key(xs[j]) != k {
        if j > 0 {
          assert xs[j] == xs[1..][j - 1];
        }
      }
    } else {
      assert xs[0] == FirstWithKey(xs, key, k).value;
    }
  }

  function DeviceId(d: BleDeviceModel): string { d.id }

  function RequestId(r: SendRequest): string { r.id }

  function ResultAddress(r: ScanResult): string { r.address }

  /** `removeIf { it.id == id }`: the devices with another id, in their order. */
  function WithoutId(devices: seq<BleDeviceModel>, id: string): (r: seq<BleDeviceModel>)
    ensures forall d :: d in r <==> d in devices && d.id != id
    ensures |r| <= |devices|
    ensures |r| == |devices| <==> forall i :: 0 <= i < |devices| ==> devices[i].id != id
  {
    if devices == [] then []
    else
      var rest := WithoutId(devices[1..], id);
      assert forall i :: 1 <= i < |devices| ==> devices[1..][i - 1] == devices[i];
      if devices[0].id == id then rest else [devices[0]] + rest
  }

  /** No two listed devices share an id. */
  predicate IdsUnique(devices: seq<BleDeviceModel>) {
    forall i, j :: 0 <= i < j < |devices| ==> devices[i].id != devices[j].id
  }

  lemma {:induction false} WithoutIdKeepsUnique(devices: seq<BleDeviceModel>, id: string)
    requires IdsUnique(devices)
    ensures IdsUnique(WithoutId(devices, id))
  {
    if devices != [] {
      var tail := devices[1..];
      TailKeepsUnique(devices);
      WithoutIdKeepsUnique(tail, id);
      var rest := WithoutId(tail, id);
      if devices[0].id != id {
        forall d | d in rest ensures d.id != devices[0].id {
          var k :| 0 <= k < |tail| && tail[k] == d;
          assert d == devices[k + 1];
        }
        ConsKeepsUnique(devices[0], rest);
      }
    }
  }

  lemma TailKeepsUnique(devices: seq<BleDeviceModel>)
    requires IdsUnique(devices) && devices != []
    ensures IdsUnique(devices[1..])
  {
    var tail := devices[1..];
    forall i, j | 0 <= i < j < |tail| ensures tail[i].id != tail[j].id {
      assert tail[i] == devices[i + 1] && tail[j] == devices[j + 1];
    }
  }

  lemma ConsKeepsUnique(d: BleDeviceModel, rest: seq<BleDeviceModel>)
    requires IdsUnique(rest) && forall x :: x in rest ==> x.id != d.id
    ensures IdsUnique([d] + rest)
  {
    var r := [d] + rest;
    forall i, j | 0 <= i < j < |r| ensures r[i].id != r[j].id {
      if i == 0 {
        assert r[j] == rest[j - 1] && r[j] in rest;
      } else {
        assert r[i] == rest[i - 1] && r[j] == rest[j - 1];
      }
    }
  }

  /** Adding a device whose id is not listed keeps the ids unique. */
  lemma AddAbsentKeepsUnique(devices: seq<BleDeviceModel>, d: BleDeviceModel)
    requires IdsUnique(devices) && FirstWithKey(devices, DeviceId, d.id).None?
    ensures IdsUnique(devices + [d])
  {
    var r := devices + [d];
    forall i, j | 0 <= i < j < |r| ensures r[i].id != r[j].id {
      if j == |devices| {
        assert DeviceId(devices[i]) != d.id;
      }
    }
  }

  /** The device model a scan result gives, or the exception building it throws. */
  function ModelOf(r: ScanResult, batch: bool): (m: Result<BleDeviceModel>)
    ensures m.Success? ==> m.value.id == r.address && m.value.rssi == r.rssi && m.value.serviceId.Some?
  {
    var sid := if batch then BatchServiceIdOf(r.uuids) else ServiceIdOf(r.uuids);
    match sid
    case Failure(e) => Failure(e)
    case Success(s) => Success(BleDeviceModel(r.address, r.name, Some(s), r.rssi))
  }

  /**
   * onBatchScanResults over `results`: the devices added, in order, up to the first
   * result whose model cannot be built, and whether that happened.
   */
  function BatchAdded(results: seq<ScanResult>): (r: (seq<BleDeviceModel>, Outcome))
    ensures |r.0| <= |results|
    ensures r.1 == Completed ==> |r.0| == |results|
  {
    if results == [] then ([], Completed)
    else
      var prev := BatchAdded(results[..|results| - 1]);
      if prev.1.Threw? then prev
      else match ModelOf(results[|results| - 1], true)
        case Failure(e) => (prev.0, Threw(e))
        case Success(d) => (prev.0 + [d], Completed)
  }

  /** Once a result throws, the later results are never looked at. */
  lemma {:induction false} BatchAddedStops(results: seq<ScanResult>, i: nat)
    requires i <= |results| && BatchAdded(results[..i]).1.Threw?
    ensures BatchAdded(results) == BatchAdded(results[..i])
  {
    if i < |results| {
      var init := results[..|results| - 1];
      assert init[..i] == results[..i];
      BatchAddedStops(init, i);
    } else {
      assert results[..i] == results;
    }
  }

  /** The batch handler does not look for the address first: one device reported twice is listed twice. */
  lemma BatchResultsMayDuplicate(r: ScanResult)
    requires ModelOf(r, true).Success?
    ensures var added := BatchAdded([r, r]).0;
            |added| == 2 && added[0] == added[1] == ModelOf(r, true).value && !IdsUnique(added)
  {
    var d := ModelOf(r, true).value;
    assert [r, r][..1] == [r];
    assert [r][..0] == [];
    assert ModelOf(r, true) == Success(d);
    assert BatchAdded([r]) == ([] + [d], Completed);
    assert [] + [d] == [d];
    assert [r, r][1] == r;
    assert BatchAdded([r, r]) == ([d] + [d], Completed);
    assert [d] + [d] == [d, d];
  }

  /**
   * The device internalConnect connects to: the first scanned device with that id,
   * else a model of the first bonded device with that address (whose service id may
   * throw), else none.
   */
  function ResolveDevice(scanned: seq<BleDeviceModel>, bonded: seq<ScanResult>, address: string)
    : (r: Result<Option<BleDeviceModel>>)
    ensures r.Success? && r.value.Some? ==> r.value.value.id == address
  {
    var fromScan := FirstWithKey(scanned, DeviceId, address);
    if fromScan.Some? then Success(fromScan)
    else
      var fromBond := FirstWithKey(bonded, ResultAddress, address);
      if fromBond.None? then Success(None)
      else
        var d := fromBond.value;
        match ServiceIdOf(d.uuids)
        case Failure(e) => Failure(e)
        case Success(sid) => Success(Some(BleDeviceModel(d.address, d.name, Some(sid), 0)))
  }

  /**
   * Scanned devices win over bonded ones; only a bonded device advertising an empty
   * UUID array makes the lookup throw; and nothing is found exactly when neither list
   * has the address.
   */
  lemma ResolveDeviceOrder(scanned: seq<BleDeviceModel>, bonded: seq<ScanResult>, address: string)
    ensures var r := ResolveDevice(scanned, bonded, address);
            && (FirstWithKey(scanned, DeviceId, address).Some? ==> r == Success(FirstWithKey(scanned, DeviceId, address)))
            && (r.Failure? ==> FirstWithKey(scanned, DeviceId, address).None? && r.exception == NoSuchElement)
            && (r == Success(None) <==>
                  (forall i :: 0 <= i < |scanned| ==> scanned[i].id != address)
                  && (forall i :: 0 <= i < |bonded| ==> bonded[i].address != address))
  {
  }

  class BleManager {
    var isScanning: bool
    var scannedDevices: seq<BleDeviceModel>
    /** pollingJob != null */
    var pollingJob: bool
    var onScanDevicesCallback: Option<nat>
    var connectionCallback: Option<nat>
    var disconnectionCallback: Option<nat>
    var isConnecting: bool
    var isConnected: bool
    var disconnectingDeferred: Option<DeferredState>
    var bluetoothService: TransportService.BleService?
    /** `lateinit var connectedDevice` */
    var connectedDevice: Option<BleDeviceModel>
    var pendingSendRequest: seq<SendRequest>
    ghost var states: seq<BleState>
    ghost var events: seq<BleEvent>
    ghost var invocations: seq<Invocation>
    ghost var platformCalls: seq<PlatformCall>

    /** Scanning and the polling job go together; an attached service keeps its own invariant. */
    ghost predicate Valid()
      reads this, bluetoothService
    {
      && isScanning == pollingJob
      && (bluetoothService != null ==> bluetoothService.Valid())
    }

    /** No disconnection is pending and a bound service is attached. */
    ghost predicate CanStartUnbind()
      reads this, bluetoothService
    {
      disconnectingDeferred != Some(Active) && bluetoothService != null && bluetoothService.isBound
    }

    constructor ()
      ensures Valid()
      ensures !isScanning && !pollingJob && scannedDevices == [] && pendingSendRequest == []
      ensures bluetoothService == null && connectedDevice == None && disconnectingDeferred == None
      ensures !isConnecting && !isConnected
      ensures onScanDevicesCallback == None && connectionCallback == None && disconnectionCallback == None
      ensures states == [] && events == [] && invocations == [] && platformCalls == []
    {
      isScanning, scannedDevices, pollingJob := false, [], false;
      onScanDevicesCallback, connectionCallback, disconnectionCallback := None, None, None;
      isConnecting, isConnected, disconnectingDeferred := false, false, None;
      bluetoothService, connectedDevice, pendingSendRequest := null, None, [];
      states, events, invocations, platformCalls := [], [], [], [];
    }

    /**
     * onScanResult: a match lists a device only when its address is not listed yet and
     * then reports the list; a lost match removes every device with that address and
     * reports the list only when something was removed. Other callback types are ignored.
     */
    method OnScanResult(callbackType: int, result: ScanResult) returns (outcome: Outcome)
      modifies this`scannedDevices, this`invocations
      ensures callbackType == CallbackTypeAllMatches || callbackType == CallbackTypeFirstMatch ==>
                if FirstWithKey(old(scannedDevices), DeviceId, result.address).Some? then
                  outcome == Completed && scannedDevices == old(scannedDevices) && invocations == old(invocations)
                else match ModelOf(result, false)
                  case Failure(e) =>
                    outcome == Threw(e) && scannedDevices == old(scannedDevices) && invocations == old(invocations)
                  case Success(d) =>
                    && outcome == Completed && scannedDevices == old(scannedDevices) + [d]
                    && invocations == old(invocations) + (if onScanDevicesCallback.Some?
                                                          then [ScanDevices(onScanDevicesCallback.value, scannedDevices)]
                                                          else [])
      ensures callbackType == CallbackTypeMatchLost ==>
                && outcome == Completed && scannedDevices == WithoutId(old(scannedDevices), result.address)
                && invocations == old(invocations) + (if |scannedDevices| < |old(scannedDevices)| && onScanDevicesCallback.Some?
                                                      then [ScanDevices(onScanDevicesCallback.value, scannedDevices)]
                                                      else [])
      ensures callbackType !in {CallbackTypeAllMatches, CallbackTypeFirstMatch, CallbackTypeMatchLost} ==>
                outcome == Completed && scannedDevices == old(scannedDevices) && invocations == old(invocations)
      ensures IdsUnique(old(scannedDevices)) ==> IdsUnique(scannedDevices)
    {
      outcome := Completed;
      if callbackType == CallbackTypeAllMatches || callbackType == CallbackTypeFirstMatch {
        if FirstWithKey(scannedDevices, DeviceId, result.address).None? {
          var m := ModelOf(result, false);
          if m.Failure? {
            return Threw(m.exception);
          }
          if IdsUnique(scannedDevices) {
            AddAbsentKeepsUnique(scannedDevices, m.value);
          }
          scannedDevices := scannedDevices + [m.value];
          if onScanDevicesCallback.Some? {
            invocations := invocations + [ScanDevices(onScanDevicesCallback.value, scannedDevices)];
          }
        }
      } else if callbackType == CallbackTypeMatchLost {
        var before := |scannedDevices|;
        if IdsUnique(scannedDevices) {
          WithoutIdKeepsUnique(scannedDevices, result.address);
        }
        scannedDevices := WithoutId(scannedDevices, result.address);
        if |scannedDevices| < before && onScanDevicesCallback.Some? {
          invocations := invocations + [ScanDevices(onScanDevicesCallback.value, scannedDevices)];
        }
      }
    }

    /** onBatchScanResults: every result is appended, with no check for an address already listed. */
    method OnBatchScanResults(results: Option<seq<ScanResult>>) returns (outcome: Outcome)
      modifies this`scannedDevices
      ensures results.None? ==> outcome == Completed && scannedDevices == old(scannedDevices)
      ensures results.Some? ==>
                scannedDevices == old(scannedDevices) + BatchAdded(results.value).0
                && outcome == BatchAdded(results.value).1
    {
      outcome := Completed;
      if results.Some? {
        var rs := results.value;
        var i := 0;
        while i < |rs|
          invariant 0 <= i <= |rs|
          invariant BatchAdded(rs[..i]).1 == Completed
          invariant scannedDevices == old(scannedDevices) + BatchAdded(rs[..i]).0
        {
          assert rs[..i + 1][..i] == rs[..i];
          var m := ModelOf(rs[i], true);
          if m.Failure? {
            BatchAddedStops(rs, i + 1);
            return Threw(m.exception);
          }
          scannedDevices := scannedDevices + [m.value];
          i := i + 1;
        }
        assert rs[..i] == rs;
      }
    }

    /**
     * internalStartScanning, optionally registering the scan callback first: any scan
     * is stopped, the list is reset, scanning starts and the polling job is started if
     * none runs. The disconnection it launches is a separate step (InternalDisconnect).
     */
    method StartScanning(onScanDevices: Option<nat>) returns (started: bool)
      requires Valid()
      modifies this`onScanDevicesCallback, this`isScanning, this`pollingJob, this`scannedDevices, this`platformCalls
      ensures Valid() && started
      ensures isScanning && pollingJob && scannedDevices == []
      ensures onScanDevicesCallback == if onScanDevices.Some? then onScanDevices else old(onScanDevicesCallback)
      ensures platformCalls == old(platformCalls) + [StopScan, StartScan]
    {
      if onScanDevices.Some? {
        onScanDevicesCallback := onScanDevices;
      }
      StopScanning();
      isScanning := true;
      scannedDevices := [];
      platformCalls := platformCalls + [StartScan];
      if !pollingJob {
        pollingJob := true;
      }
      started := true;
    }

    /** stopScanning: whatever the state before, scanning and polling are off afterwards. */
    method StopScanning()
      modifies this`pollingJob, this`isScanning, this`platformCalls
      ensures !pollingJob && !isScanning
      ensures platformCalls == old(platformCalls) + [StopScan]
    {
      pollingJob := false;
      platformCalls := platformCalls + [StopScan];
      isScanning := false;
    }

    /** One tick of the polling job: the current list is published while the job runs. */
    method PollingTick()
      modifies this`states
      ensures states == old(states) + (if pollingJob then [Scanning(scannedDevices)] else [])
    {
      if pollingJob {
        states := states + [Scanning(scannedDevices)];
      }
    }

    /**
     * internalDisconnect: an unbind starts only when no disconnection is pending (no
     * deferred, or it is completed or cancelled) and a bound service is attached.
     */
    method InternalDisconnect() returns (unbinding: bool)
      modifies this`disconnectingDeferred, this`platformCalls
      ensures unbinding <==> old(CanStartUnbind())
      ensures unbinding ==> disconnectingDeferred == Some(Active) && platformCalls == old(platformCalls) + [UnbindService]
      ensures !unbinding ==> disconnectingDeferred == old(disconnectingDeferred) && platformCalls == old(platformCalls)
    {
      unbinding := false;
      if disconnectingDeferred.None? || disconnectingDeferred.value == Done || disconnectingDeferred.value == Cancelled {
        if bluetoothService != null && bluetoothService.isBound {
          disconnectingDeferred := Some(Active);
          platformCalls := platformCalls + [UnbindService];
          unbinding := true;
        }
      }
    }

    /** disconnect(onDisconnectSuccess): the callback is registered, then internalDisconnect runs. */
    method Disconnect(onDisconnectSuccess: Option<nat>) returns (unbinding: bool)
      modifies this`disconnectionCallback, this`disconnectingDeferred, this`platformCalls
      ensures disconnectionCallback == if onDisconnectSuccess.Some? then onDisconnectSuccess else old(disconnectionCallback)
      ensures unbinding <==> old(CanStartUnbind())
      ensures unbinding ==> disconnectingDeferred == Some(Active) && platformCalls == old(platformCalls) + [UnbindService]
      ensures !unbinding ==> disconnectingDeferred == old(disconnectingDeferred) && platformCalls == old(platformCalls)
    {
      if onDisconnectSuccess.Some? {
        disconnectionCallback := onDisconnectSuccess;
      }
      unbinding := InternalDisconnect();
    }

    /**
     * What the end of internalConnect leaves after the lookup gave `resolved`, from the
     * logs `calls`, `invs`, `evs` and the device `device` it started with: a lookup that
     * threw changes nothing more; a device found is remembered and the service bound;
     * no device is reported as "Device not found" to the callback and on the event flow.
     */
    ghost predicate ConnectedOrReported(resolved: Result<Option<BleDeviceModel>>, calls: seq<PlatformCall>,
                                        device: Option<BleDeviceModel>, invs: seq<Invocation>,
                                        evs: seq<BleEvent>, outcome: Outcome)
      reads this
    {
      match resolved
      case Failure(e) =>
        outcome == Threw(e) && connectedDevice == device && platformCalls == calls
        && invocations == invs && events == evs
      case Success(Some(d)) =>
        outcome == Completed && connectedDevice == Some(d) && platformCalls == calls + [BindService]
        && invocations == invs && events == evs
      case Success(None) =>
        && outcome == Completed && connectedDevice == device && platformCalls == calls
        && invocations == invs + (if connectionCallback.Some?
                                  then [ConnectionFailure(connectionCallback.value, DeviceNotFound)]
                                  else [])
        && events == evs + [ConnectionError(DeviceNotFound)]
    }

    /**
     * internalConnect: scanning stops, a pending disconnection may start and the
     * callback is registered; then the device is looked up among the scanned devices
     * by id and, failing that, among the bonded devices by address.
     */
    method InternalConnect(address: string, callback: Option<nat>, bondedDevices: seq<ScanResult>)
      returns (outcome: Outcome)
      requires Valid()
      modifies this`isConnecting, this`pollingJob, this`isScanning, this`platformCalls
      modifies this`disconnectingDeferred, this`connectionCallback, this`connectedDevice
      modifies this`invocations, this`events
      ensures Valid() && isConnecting && !isScanning && connectionCallback == callback
      ensures ConnectedOrReported(ResolveDevice(old(scannedDevices), bondedDevices, address),
                                  old(platformCalls) + [StopScan] + (if old(CanStartUnbind()) then [UnbindService] else []),
                                  old(connectedDevice), old(invocations), old(events), outcome)
    {
      ghost var calls := platformCalls + [StopScan] + (if CanStartUnbind() then [UnbindService] else []);
      var resolved := ResolveDevice(scannedDevices, bondedDevices, address);
      isConnecting := true;
      StopScanning();
      var _ := InternalDisconnect();
      connectionCallback := callback;
      assert platformCalls == calls;
      outcome := ConnectResolved(resolved);
    }

    /** The `device?.let { ... } ?: run { ... }` step of internalConnect. */
    method ConnectResolved(resolved: Result<Option<BleDeviceModel>>) returns (outcome: Outcome)
      modifies this`connectedDevice, this`platformCalls, this`invocations, this`events
      ensures ConnectedOrReported(resolved, old(platformCalls), old(connectedDevice),
                                  old(invocations), old(events), outcome)
    {
      if resolved.Failure? {
        return Threw(resolved.exception);
      }
      outcome := Completed;
      var device := resolved.value;
      if device.Some? {
        connectedDevice := device;
        platformCalls := platformCalls + [BindService];
      } else {
        if connectionCallback.Some? {
          invocations := invocations + [ConnectionFailure(connectionCallback.value, DeviceNotFound)];
        }
        events := events + [ConnectionError(DeviceNotFound)];
      }
    }

    /**
     * onServiceConnected: the bound service is attached and initialised; if that fails the
     * connection callback hears of it and the service is torn down, otherwise the service
     * connects to the remembered device.
     */
    method ServiceConnected(service: TransportService.BleService, adapterAvailable: bool, reconnected: bool,
                            gattReturned: bool)
      returns (outcome: Outcome)
      requires Valid() && service.Valid()
      modifies this`bluetoothService, this`invocations, service
      ensures Valid() && bluetoothService == service
      ensures !adapterAvailable ==>
                && outcome == Completed
                && invocations == old(invocations) + (if connectionCallback.Some?
                                                      then [ConnectionFailure(connectionCallback.value, InitializationFailed)]
                                                      else [])
                && service.TornDown() && service.isBound == old(service.isBound)
                && service.connectionState == old(service.connectionState)
                && service.timeoutPending == old(service.timeoutPending)
      ensures adapterAvailable ==> service.connectionState == TransportService.BleStateConnecting
      ensures adapterAvailable && connectedDevice.None? ==>
                && outcome == Threw(UninitializedProperty) && invocations == old(invocations)
                && unchanged(service`isBound, service`gattOpen, service`bluetoothDeviceAddress, service`deviceServices)
                && unchanged(service`mtuSize, service`isNotificationEnabled, service`timeoutPending, service`pendingAnswers)
                && unchanged(service`pendingApdu, service`commandQueue, service`pendingCommand, service`events)
                && unchanged(service`gattCalls, service`framesQueued, service`framesSent)
      ensures adapterAvailable && connectedDevice.Some? ==>
                && outcome == Completed && invocations == old(invocations)
                && service.ConnectEffect(connectedDevice.value.id, reconnected, gattReturned)
    {
      bluetoothService := service;
      var ok := service.Initialize(adapterAvailable);
      if !ok {
        if connectionCallback.Some? {
          invocations := invocations + [ConnectionFailure(connectionCallback.value, InitializationFailed)];
        }
        service.DisconnectService();
        return Completed;
      }
      if connectedDevice.None? {
        return Threw(UninitializedProperty);
      }
      var _ := service.Connect(connectedDevice.value.id, reconnected, gattReturned);
      outcome := Completed;
    }

    /** send(apdu): forwarded to the attached service; without one it throws IllegalStateException. */
    method Send(apdu: seq<Byte>, now: string) returns (outcome: Outcome)
      requires Valid()
      modifies bluetoothService
      ensures Valid() && bluetoothService == old(bluetoothService)
      ensures bluetoothService == null ==> outcome == Threw(IllegalState(ServiceNotConnected))
      ensures bluetoothService != null ==> bluetoothService.SendApduEffect(apdu, now, outcome)
    {
      if bluetoothService == null {
        return Threw(IllegalState(ServiceNotConnected));
      }
      var r := bluetoothService.SendApdu(apdu, now);
      outcome := TransportService.OutcomeOf(r);
    }

    /**
     * send(apduHex, onSuccess, onError): as send, and the callbacks are registered
     * under the id the service returned.
     */
    method SendWithCallbacks(apdu: seq<Byte>, token: nat, now: string) returns (r: Result<string>)
      requires Valid()
      modifies bluetoothService, this`pendingSendRequest
      ensures Valid()
      ensures bluetoothService == null ==>
                r == Failure(IllegalState(ServiceNotConnected)) && pendingSendRequest == old(pendingSendRequest)
      ensures r.Success? ==> pendingSendRequest == old(pendingSendRequest) + [SendRequest(r.value, token)]
      ensures r.Failure? ==> pendingSendRequest == old(pendingSendRequest)
      ensures bluetoothService != null ==> bluetoothService.SendApduEffect(apdu, now, TransportService.OutcomeOf(r))
      ensures r.Success? ==>
                old(bluetoothService.bluetoothDeviceAddress).Some?
                && r.value == TransportService.SendId(old(bluetoothService.bluetoothDeviceAddress).value, now)
    {
      if bluetoothService == null {
        return Failure(IllegalState(ServiceNotConnected));
      }
      r := bluetoothService.SendApdu(apdu, now);
      if r.Success? {
        pendingSendRequest := pendingSendRequest + [SendRequest(r.value, token)];
      }
    }

    /**
     * The collector of the service's events: connected and disconnected are reported,
     * an answer or an error goes to the callbacks of the first request registered under
     * its id, and a send error is also published on the event flow.
     */
    method OnServiceEvent(event: TransportService.BleServiceEvent) returns (outcome: Outcome)
      requires Valid()
      modifies this`isConnecting, this`isConnected, this`states, this`events, this`invocations
      modifies this`platformCalls, this`disconnectionCallback, this`connectionCallback
      modifies this`bluetoothService, this`disconnectingDeferred
      ensures Valid()
      ensures pendingSendRequest == old(pendingSendRequest) && scannedDevices == old(scannedDevices)
      ensures !event.BleDeviceDisconnected? ==>
                unchanged(this`platformCalls, this`disconnectionCallback, this`connectionCallback,
                          this`bluetoothService, this`disconnectingDeferred)
      ensures !event.BleDeviceConnected? ==> isConnecting == old(isConnecting)
      ensures !event.BleDeviceConnected? && !event.BleDeviceDisconnected? ==>
                isConnected == old(isConnected) && states == old(states)
      ensures event.BleDeviceConnected? ==>
                && !isConnecting && events == old(events)
                && (connectedDevice.None? ==>
                      outcome == Threw(UninitializedProperty) && states == old(states)
                      && invocations == old(invocations) && isConnected == old(isConnected))
                && (connectedDevice.Some? ==>
                      && outcome == Completed && states == old(states) + [Connected(connectedDevice.value)]
                      && isConnected == (old(isConnected) || connectionCallback.Some?)
                      && invocations == old(invocations) + (if connectionCallback.Some?
                                                            then [ConnectionSuccess(connectionCallback.value, connectedDevice.value)]
                                                            else []))
      ensures event.BleDeviceDisconnected? ==>
                && outcome == Completed && states == old(states) + [BleState.Disconnected]
                && isConnecting == old(isConnecting) && events == old(events) && DisconnectedEffect()
      ensures event.SuccessSend? ==>
                outcome == Completed && events == old(events) + [SendSuccess(event.sendId)]
                && invocations == old(invocations)
      ensures event.SendAnswer? ==>
                var request := FirstWithKey(pendingSendRequest, RequestId, event.sendId);
                && outcome == Completed && events == old(events)
                && invocations == old(invocations) + (if request.Some?
                                                      then [RequestSuccess(request.value.token, event.answer)]
                                                      else [])
      ensures event.ErrorSend? ==>
                var request := FirstWithKey(pendingSendRequest, RequestId, event.sendId);
                && outcome == Completed && events == old(events) + [SendError(event.error)]
                && invocations == old(invocations) + (if request.Some?
                                                      then [RequestError(request.value.token, event.error)]
                                                      else [])
    {
      outcome := Completed;
      match event {
        case BleDeviceConnected =>
          isConnecting := false;
          if connectedDevice.None? {
            return Threw(UninitializedProperty);
          }
          if connectionCallback.Some? {
            isConnected := true;
            invocations := invocations + [ConnectionSuccess(connectionCallback.value, connectedDevice.value)];
          }
          states := states + [Connected(connectedDevice.value)];
        case BleDeviceDisconnected =>
          Disconnected();
          states := states + [BleState.Disconnected];
        case SuccessSend(id) =>
          events := events + [SendSuccess(id)];
        case SendAnswer(id, answer) =>
          var request := FirstWithKey(pendingSendRequest, RequestId, id);
          if request.Some? {
            invocations := invocations + [RequestSuccess(request.value.token, answer)];
          }
        case ErrorSend(id, error) =>
          events := events + [SendError(error)];
          var request := FirstWithKey(pendingSendRequest, RequestId, id);
          if request.Some? {
            invocations := invocations + [RequestError(request.value.token, error)];
          }
      }
    }

    /**
     * The effect of disconnected() between the state before the call and now: while the
     * service is still bound only the unbind is requested; otherwise the disconnection
     * callback is told or, when there is none, the connection callback hears the
     * connection was lost, both callbacks and the service are cleared, and an active
     * deferred disconnection is completed.
     */
    twostate predicate DisconnectedEffect()
      reads this
    {
      if old(bluetoothService) != null && old(bluetoothService.isBound) then
        && platformCalls == old(platformCalls) + [UnbindService] && invocations == old(invocations)
        && bluetoothService == old(bluetoothService) && isConnected == old(isConnected)
        && disconnectionCallback == old(disconnectionCallback) && connectionCallback == old(connectionCallback)
        && disconnectingDeferred == old(disconnectingDeferred)
      else
        && invocations == old(invocations) + (
             if old(disconnectionCallback).Some? then [DisconnectionSuccess(old(disconnectionCallback).value)]
             else if old(connectionCallback).Some? then [ConnectionFailure(old(connectionCallback).value, ConnectionLostMessage)]
             else [])
        && disconnectionCallback == None && connectionCallback == None
        && bluetoothService == null && !isConnected && platformCalls == old(platformCalls)
        && disconnectingDeferred == (if old(disconnectingDeferred) == Some(Active) then Some(Done)
                                     else old(disconnectingDeferred))
    }

    /**
     * disconnected: while the service is still bound it is unbound; otherwise the
     * disconnection callback is told or, when there is none, the connection callback
     * hears the connection was lost; both are cleared with the service, and a pending
     * disconnection is completed.
     */
    method Disconnected()
      requires Valid()
      modifies this`platformCalls, this`invocations, this`disconnectionCallback, this`connectionCallback
      modifies this`bluetoothService, this`isConnected, this`disconnectingDeferred
      ensures Valid() && DisconnectedEffect()
    {
      if bluetoothService != null && bluetoothService.isBound {
        platformCalls := platformCalls + [UnbindService];
      } else {
        if disconnectionCallback.Some? {
          invocations := invocations + [DisconnectionSuccess(disconnectionCallback.value)];
        } else if connectionCallback.Some? {
          invocations := invocations + [ConnectionFailure(connectionCallback.value, ConnectionLostMessage)];
        }
        disconnectionCallback := None;
        connectionCallback := None;
        bluetoothService := null;
        isConnected := false;
        if disconnectingDeferred == Some(Active) {
          disconnectingDeferred := Some(Done);
        }
      }
    }
  }
}
