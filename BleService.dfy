/**
 * BleService: the Android service that owns the GATT connection and, inline, the
 * one-command-in-flight send discipline: APDUs wait in `pendingApdu`, the frames of the
 * APDU being sent wait in `commandQueue`, the frame on the wire is `pendingCommand`,
 * and notification frames are reassembled in `pendingAnswers`.
 * Calls on BluetoothGatt are recorded in a ghost log; emitted service events likewise.
 */
module TransportService {
  import opened Common
  import opened Gatt
  import opened Frames
  import GattCallbackFlow
  import MtuHandshake

  const BleStateDisconnected: int := 0
  const BleStateConnecting: int := 1
  const BleStateConnected: int := 2
  const BleStateConnectedReady: int := 3

  const SendErrorMessage := "Problem occured while sending APDU"

  /** Events on the service's flow; an answer is carried as bytes rather than hex text. */
  datatype BleServiceEvent =
    | BleDeviceConnected
    | BleDeviceDisconnected
    | SuccessSend(sendId: string)
    | SendAnswer(sendId: string, answer: seq<Byte>)
    | ErrorSend(sendId: string, error: string)

  /** A call on the platform's BluetoothGatt (or on the device behind it). */
  datatype GattCall =
    | ConnectGatt(address: string)
    | Reconnect
    | CloseAndDisconnect
    | DiscoverServices
    | EnableNotification(notify: Option<GattCharacteristic>)
    | WriteMtuHandshake(target: Option<GattCharacteristic>)
    | WriteFrame(target: Option<GattCharacteristic>, frame: FrameCommand)

  /** generateId: the device address, "_send_" and the wall-clock reading as text. */
  function SendId(address: string, now: string): (id: string)
    ensures |id| == |address| + 6 + |now|
  {
    address + "_send_" + now
  }

  /** Two ids for the same device are equal only when the clock readings are. */
  lemma SendIdInjective(address: string, now1: string, now2: string)
    requires SendId(address, now1) == SendId(address, now2)
    ensures now1 == now2
  {
    var k := |address| + 6;
    assert SendId(address, now1)[k..] == now1;
    assert SendId(address, now2)[k..] == now2;
  }

  /** The device services onServicesDiscovered adds: one per Ledger service, in discovery order. */
  function LedgerServices(services: seq<GattService>): (dss: seq<BleDeviceService>)
    ensures |dss| <= |services|
  {
    if services == [] then []
    else
      var s := services[|services| - 1];
      LedgerServices(services[..|services| - 1]) + (if IsLedgerService(s.uuid) then [DeviceServiceOf(s)] else [])
  }

  /**
   * The inline service and the state machine agree on which service to use when
   * there is one: the state machine keeps the last one the inline service adds.
   */
  lemma {:induction false} LedgerServicesEndWithResolved(services: seq<GattService>)
    ensures ResolvedService(services).None? <==> LedgerServices(services) == []
    ensures ResolvedService(services).Some? ==>
              var dss := LedgerServices(services); ResolvedService(services).value == dss[|dss| - 1]
  {
    if services != [] {
      var init := services[..|services| - 1];
      LedgerServicesEndWithResolved(init);
      if !IsLedgerService(services[|services| - 1].uuid) {
        assert LastLedgerService(services) == LastLedgerService(init);
      }
    }
  }

  /** The notification requests of onServicesDiscovered: one per Ledger service, when the connection is open. */
  function NotificationLog(open: bool, services: seq<GattService>): seq<GattCall> {
    if open then NotificationCalls(LedgerServices(services)) else []
  }

  /** initNotification for each device service, when the GATT connection is open. */
  function NotificationCalls(dss: seq<BleDeviceService>): (calls: seq<GattCall>)
    ensures |calls| == |dss|
  {
    if dss == [] then []
    else NotificationCalls(dss[..|dss| - 1]) + [EnableNotification(dss[|dss| - 1].notifyCharacteristic)]
  }

  /** sendMtuMessage's writes: the handshake goes to each service's write-with-response slot. */
  function MtuCalls(dss: seq<BleDeviceService>): (calls: seq<GattCall>)
    ensures |calls| == |dss|
  {
    if dss == [] then []
    else MtuCalls(dss[..|dss| - 1]) + [WriteMtuHandshake(dss[|dss| - 1].writeCharacteristic)]
  }

  /** sendCommand's writes: the frame goes to each service's WriteTarget. */
  function FrameWrites(dss: seq<BleDeviceService>, frame: FrameCommand): (calls: seq<GattCall>)
    ensures |calls| == |dss|
  {
    if dss == [] then []
    else FrameWrites(dss[..|dss| - 1], frame) + [WriteFrame(WriteTarget(dss[|dss| - 1]), frame)]
  }

  /** initNotification is issued for every device service, in order. */
  lemma {:induction false} NotificationCallsTargets(dss: seq<BleDeviceService>)
    ensures forall i :: 0 <= i < |dss| ==> NotificationCalls(dss)[i] == EnableNotification(dss[i].notifyCharacteristic)
  {
    if dss != [] {
      NotificationCallsTargets(dss[..|dss| - 1]);
    }
  }

  /** The MTU handshake is written to the write-with-response slot of every device service, in order. */
  lemma {:induction false} MtuCallsTargets(dss: seq<BleDeviceService>)
    ensures forall i :: 0 <= i < |dss| ==> MtuCalls(dss)[i] == WriteMtuHandshake(dss[i].writeCharacteristic)
  {
    if dss != [] {
      MtuCallsTargets(dss[..|dss| - 1]);
    }
  }

  /**
   * A frame is written once to every device service, in order, each time to
   * write-without-response when the service has it and to write-with-response otherwise.
   */
  lemma {:induction false} FrameWritesTargets(dss: seq<BleDeviceService>, frame: FrameCommand)
    ensures forall i :: 0 <= i < |dss| ==>
              FrameWrites(dss, frame)[i] == WriteFrame(WriteTarget(dss[i]), frame)
              && (dss[i].writeNoAnswerCharacteristic.Some? ==>
                    FrameWrites(dss, frame)[i].target == dss[i].writeNoAnswerCharacteristic)
              && (dss[i].writeNoAnswerCharacteristic.None? ==>
                    FrameWrites(dss, frame)[i].target == dss[i].writeCharacteristic)
  {
    if dss != [] {
      FrameWritesTargets(dss[..|dss| - 1], frame);
    }
  }

  class BleService {
    var isBound: bool
    /** bluetoothGATT != null */
    var gattOpen: bool
    var bluetoothDeviceAddress: Option<string>
    var connectionState: int
    var deviceServices: seq<BleDeviceService>
    var mtuSize: int
    var isNotificationEnabled: bool
    /** The 5 s connect timer launched by connect is still running. */
    var timeoutPending: bool
    var pendingAnswers: seq<FrameCommand>
    var pendingApdu: seq<BlePendingRequest>
    var commandQueue: seq<FrameCommand>
    var pendingCommand: Option<FrameCommand>
    const decodeFrame: FrameDecoder
    const fragment: Fragmenter
    ghost var events: seq<BleServiceEvent>
    ghost var gattCalls: seq<GattCall>
    /** Every frame put in commandQueue since the last disconnection, in order. */
    ghost var framesQueued: seq<FrameCommand>
    /** Every frame handed to sendCommand, in order. */
    ghost var framesSent: seq<FrameCommand>

    /**
     * Frames leave commandQueue in the order they entered it, and each one leaves by
     * being sent; the frame in flight is the last one sent.
     */
    ghost predicate Valid()
      reads this
    {
      && framesQueued == framesSent + commandQueue
      && (pendingCommand.Some? ==> framesSent != [] && pendingCommand.value == framesSent[|framesSent| - 1])
      && mtuSize >= 0
    }

    /**
     * The effect of dequeuApdu from the queues `queue`, `command` and `frames`: the head
     * of the APDU queue is promoted only when no frame is in flight; its frames join the
     * frame queue and the first frame of the queue is sent, or removeFirst throws when
     * there is none.
     */
    ghost predicate DequeuedFrom(queue: seq<BlePendingRequest>, command: Option<FrameCommand>,
                                 frames: seq<FrameCommand>, sent: seq<FrameCommand>,
                                 calls: seq<GattCall>, outcome: Outcome)
      reads this
    {
      if queue != [] && command.None? then
        var request := queue[0];
        var all := frames + fragment(request.id, request.apdu, mtuSize);
        && pendingApdu == queue[1..]
        && if all == [] then
             outcome == Threw(NoSuchElement) && commandQueue == [] && pendingCommand == None
             && framesSent == sent && gattCalls == calls
           else
             outcome == Completed && commandQueue == all[1..] && pendingCommand == Some(all[0])
             && framesSent == sent + [all[0]]
             && gattCalls == calls + (if gattOpen then FrameWrites(deviceServices, all[0]) else [])
      else
        && outcome == Completed && pendingApdu == queue && pendingCommand == command
        && commandQueue == frames && framesSent == sent && gattCalls == calls
    }

    /**
     * The effect of disconnectService between the state before the call and now: the
     * connection is closed (CloseAndDisconnect is issued when it was open), the device
     * services, every queue and the partial answer are dropped, the MTU is reset and the
     * disconnection is reported; the address, the notification flag and the frames sent
     * so far are kept. isBound, connectionState and the timer are left to the caller.
     */
    twostate predicate TornDown()
      reads this
    {
      && !gattOpen && mtuSize == 0 && deviceServices == [] && commandQueue == []
      && pendingCommand == None && pendingAnswers == [] && pendingApdu == []
      && events == old(events) + [BleDeviceDisconnected]
      && gattCalls == old(gattCalls) + (if old(gattOpen) then [CloseAndDisconnect] else [])
      && framesSent == old(framesSent) && framesQueued == old(framesSent)
      && bluetoothDeviceAddress == old(bluetoothDeviceAddress)
      && isNotificationEnabled == old(isNotificationEnabled)
    }

    /**
     * The effect of connect(address), connectionState aside: an open connection to the
     * same address is reused (Reconnect, timer untouched); otherwise connectGatt is asked
     * for a connection to the address, which is held only when the platform returns one
     * (`gattReturned`), the address is recorded and the connect timer started. Nothing
     * else changes.
     */
    twostate predicate ConnectEffect(address: string, reconnected: bool, gattReturned: bool)
      reads this
    {
      && bluetoothDeviceAddress == Some(address)
      && (if old(bluetoothDeviceAddress) == Some(address) && old(gattOpen) then
            gattOpen && timeoutPending == old(timeoutPending) && gattCalls == old(gattCalls) + [Reconnect]
          else
            gattOpen == gattReturned && timeoutPending && gattCalls == old(gattCalls) + [ConnectGatt(address)])
      && isBound == old(isBound) && deviceServices == old(deviceServices) && mtuSize == old(mtuSize)
      && isNotificationEnabled == old(isNotificationEnabled) && pendingAnswers == old(pendingAnswers)
      && pendingApdu == old(pendingApdu) && commandQueue == old(commandQueue)
      && pendingCommand == old(pendingCommand) && events == old(events)
      && framesQueued == old(framesQueued) && framesSent == old(framesSent)
    }

    /**
     * The effect of sendApdu(apdu) with the clock reading `now`, ending in `outcome`.
     * Without a device address the connection is torn down and `!!` throws. Otherwise the
     * APDU joins the queue under its id; when ready the queue is served as DequeuedFrom
     * says; otherwise notifications are enabled on the first device service, and
     * `first()` throws when there is none. isBound, connectionState and the timer are
     * kept on every path, and the connection and device services on every path with an
     * address.
     */
    twostate predicate SendApduEffect(apdu: seq<Byte>, now: string, outcome: Outcome)
      reads this
    {
      && isBound == old(isBound) && connectionState == old(connectionState)
      && timeoutPending == old(timeoutPending)
      && if old(bluetoothDeviceAddress).None? then
           outcome == Threw(NullPointer) && TornDown()
         else
           var queue := old(pendingApdu) + [BlePendingRequest(SendId(old(bluetoothDeviceAddress).value, now), apdu)];
           && bluetoothDeviceAddress == old(bluetoothDeviceAddress) && gattOpen == old(gattOpen)
           && deviceServices == old(deviceServices) && mtuSize == old(mtuSize)
           && isNotificationEnabled == old(isNotificationEnabled) && pendingAnswers == old(pendingAnswers)
           && events == old(events)
           && if old(connectionState) == BleStateConnectedReady then
                DequeuedFrom(queue, old(pendingCommand), old(commandQueue), old(framesSent), old(gattCalls), outcome)
              else
                && pendingApdu == queue && commandQueue == old(commandQueue) && pendingCommand == old(pendingCommand)
                && framesSent == old(framesSent) && framesQueued == old(framesQueued)
                && if old(deviceServices) == [] then
                     outcome == Threw(NoSuchElement) && gattCalls == old(gattCalls)
                   else
                     && outcome == Completed
                     && gattCalls == old(gattCalls) + (if gattOpen then [EnableNotification(old(deviceServices)[0].notifyCharacteristic)] else [])
    }

    constructor (decodeFrame: FrameDecoder, fragment: Fragmenter)
      ensures Valid()
      ensures !isBound && !gattOpen && bluetoothDeviceAddress == None
      ensures connectionState == BleStateDisconnected && mtuSize == 0 && !timeoutPending
      ensures deviceServices == [] && pendingAnswers == [] && pendingApdu == [] && commandQueue == []
      ensures pendingCommand == None && events == [] && gattCalls == []
      ensures this.decodeFrame == decodeFrame && this.fragment == fragment
    {
      isBound, gattOpen, bluetoothDeviceAddress := false, false, None;
      connectionState, deviceServices, mtuSize := BleStateDisconnected, [], 0;
      isNotificationEnabled, timeoutPending := false, false;
      pendingAnswers, pendingApdu, commandQueue, pendingCommand := [], [], [], None;
      this.decodeFrame, this.fragment := decodeFrame, fragment;
      events, gattCalls, framesQueued, framesSent := [], [], [], [];
    }

    /**
     * initialize: `adapterAvailable` is whether the platform hands out a Bluetooth adapter;
     * without one the call reports failure and changes nothing.
     */
    method Initialize(adapterAvailable: bool) returns (ok: bool)
      modifies this`connectionState
      ensures ok == adapterAvailable
      ensures connectionState == if ok then BleStateConnecting else old(connectionState)
    {
      if adapterAvailable {
        connectionState := BleStateConnecting;
      }
      ok := adapterAvailable;
    }

    /** onBind: the service is bound, then initialised. */
    method OnBind(adapterAvailable: bool)
      modifies this`isBound, this`connectionState
      ensures isBound
      ensures connectionState == if adapterAvailable then BleStateConnecting else old(connectionState)
    {
      isBound := true;
      var _ := Initialize(adapterAvailable);
    }

    /** onUnbind: the connection is torn down, then the service is no longer bound. */
    method OnUnbind()
      requires Valid()
      modifies this`isBound, this`gattOpen, this`mtuSize, this`deviceServices, this`commandQueue
      modifies this`pendingCommand, this`pendingAnswers, this`pendingApdu, this`events, this`gattCalls
      modifies this`framesQueued
      ensures Valid() && !isBound && TornDown()
      ensures connectionState == old(connectionState) && timeoutPending == old(timeoutPending)
    {
      DisconnectService();
      isBound := false;
    }

    /**
     * disconnectService: closes the GATT connection, forgets the device services, drops
     * every queued APDU, frame and partial answer, resets the MTU and reports the
     * disconnection. The device address and connectionState are kept.
     */
    method DisconnectService()
      requires Valid()
      modifies this`gattOpen, this`mtuSize, this`deviceServices, this`commandQueue, this`pendingCommand
      modifies this`pendingAnswers, this`pendingApdu, this`events, this`gattCalls, this`framesQueued
      ensures Valid() && TornDown()
    {
      CloseConnection();
      DropPending();
      events := events + [BleDeviceDisconnected];
    }

    /** The first half of disconnectService: close, disconnect, forget the connection and its services. */
    method CloseConnection()
      modifies this`gattOpen, this`mtuSize, this`deviceServices, this`gattCalls
      ensures !gattOpen && mtuSize == 0 && deviceServices == []
      ensures gattCalls == old(gattCalls) + (if old(gattOpen) then [CloseAndDisconnect] else [])
    {
      gattCalls := gattCalls + (if gattOpen then [CloseAndDisconnect] else []);
      gattOpen, mtuSize, deviceServices := false, 0, [];
    }

    /** The second half of disconnectService: every queued frame and APDU and the partial answer are dropped. */
    method DropPending()
      modifies this`commandQueue, this`pendingCommand, this`pendingAnswers, this`pendingApdu, this`framesQueued
      ensures commandQueue == [] && pendingCommand == None && pendingAnswers == [] && pendingApdu == []
      ensures framesQueued == framesSent
    {
      commandQueue, framesQueued, pendingCommand := [], framesSent, None;
      pendingAnswers, pendingApdu := [], [];
    }

    /**
     * connect: reuses the open connection to the same address (its outcome is the
     * platform's answer `reconnected`), or asks for a new one (held when the platform's
     * connectGatt returns one, `gattReturned`) and starts the connect timer.
     */
    method Connect(address: string, reconnected: bool, gattReturned: bool) returns (ok: bool)
      modifies this`gattOpen, this`bluetoothDeviceAddress, this`timeoutPending, this`connectionState, this`gattCalls
      ensures ConnectEffect(address, reconnected, gattReturned)
      ensures ok == (old(bluetoothDeviceAddress) != Some(address) || !old(gattOpen) || reconnected)
      ensures connectionState == if ok then BleStateConnecting else old(connectionState)
    {
      if bluetoothDeviceAddress == Some(address) && gattOpen {
        gattCalls := gattCalls + [Reconnect];
        if reconnected {
          connectionState := BleStateConnecting;
        }
        return reconnected;
      }
      gattCalls := gattCalls + [ConnectGatt(address)];
      gattOpen := gattReturned;
      bluetoothDeviceAddress := Some(address);
      timeoutPending := true;
      connectionState := BleStateConnecting;
      ok := true;
    }

    /**
     * The connect timer firing: the connection is torn down as by disconnectService; the
     * device address and connectionState are kept. A timer no longer running does nothing.
     */
    method Timeout()
      requires Valid()
      modifies this`timeoutPending, this`gattOpen, this`mtuSize, this`deviceServices, this`commandQueue
      modifies this`pendingCommand, this`pendingAnswers, this`pendingApdu, this`events, this`gattCalls
      modifies this`framesQueued
      ensures Valid() && !timeoutPending
      ensures connectionState == old(connectionState)
      ensures old(timeoutPending) ==> TornDown()
      ensures !old(timeoutPending) ==> unchanged(this)
    {
      if timeoutPending {
        timeoutPending := false;
        DisconnectService();
      }
    }

    /**
     * onConnectionStateChange: connected asks for discovery and changes nothing else;
     * disconnected tears down as disconnectService does; any other state is ignored.
     */
    method OnConnectionStateChange(status: int, newState: int)
      requires Valid()
      modifies this`connectionState, this`gattOpen, this`mtuSize, this`deviceServices, this`commandQueue
      modifies this`pendingCommand, this`pendingAnswers, this`pendingApdu, this`events, this`gattCalls
      modifies this`framesQueued
      ensures Valid()
      ensures newState == GattCallbackFlow.StateConnected ==>
                && connectionState == BleStateConnected && gattCalls == old(gattCalls) + [DiscoverServices]
                && unchanged(this`gattOpen, this`mtuSize, this`deviceServices, this`commandQueue, this`pendingCommand)
                && unchanged(this`pendingAnswers, this`pendingApdu, this`events, this`framesQueued)
      ensures newState == GattCallbackFlow.StateDisconnected ==>
                connectionState == BleStateDisconnected && TornDown()
      ensures newState != GattCallbackFlow.StateConnected && newState != GattCallbackFlow.StateDisconnected ==>
                unchanged(this)
    {
      if newState == GattCallbackFlow.StateConnected {
        connectionState := BleStateConnected;
        gattCalls := gattCalls + [DiscoverServices];
      } else if newState == GattCallbackFlow.StateDisconnected {
        connectionState := BleStateDisconnected;
        DisconnectService();
      }
    }

    /**
     * onServicesDiscovered: on success every Ledger service is built, has its
     * notifications enabled and is added; then the timer is cancelled and the device
     * reported connected. Any other status is ignored.
     */
    method OnServicesDiscovered(status: int, services: seq<GattService>)
      requires Valid()
      modifies this`deviceServices, this`gattCalls, this`timeoutPending, this`events
      ensures Valid()
      ensures status == GattCallbackFlow.GattSuccess ==>
                && deviceServices == old(deviceServices) + LedgerServices(services)
                && gattCalls == old(gattCalls) + NotificationLog(gattOpen, services)
                && !timeoutPending && events == old(events) + [BleDeviceConnected]
      ensures status != GattCallbackFlow.GattSuccess ==>
                deviceServices == old(deviceServices) && gattCalls == old(gattCalls)
                && timeoutPending == old(timeoutPending) && events == old(events)
    {
      if status == GattCallbackFlow.GattSuccess {
        AddLedgerServices(services);
        timeoutPending := false;
        events := events + [BleDeviceConnected];
      }
    }

    /** The services loop of onServicesDiscovered: each Ledger service is built, enabled and added. */
    method AddLedgerServices(services: seq<GattService>)
      modifies this`deviceServices, this`gattCalls
      ensures deviceServices == old(deviceServices) + LedgerServices(services)
      ensures gattCalls == old(gattCalls) + NotificationLog(gattOpen, services)
    {
      var i := 0;
      while i < |services|
        invariant 0 <= i <= |services|
        invariant deviceServices == old(deviceServices) + LedgerServices(services[..i])
        invariant gattCalls == old(gattCalls) + NotificationLog(gattOpen, services[..i])
      {
        AddLedgerServiceAt(services, i, old(deviceServices), old(gattCalls));
        i := i + 1;
      }
      assert services[..i] == services;
    }

    /**
     * One iteration of the services loop: a Ledger service is built, has notifications
     * enabled and is added, which extends the loop's progress from `i` to `i + 1`.
     */
    method AddLedgerServiceAt(services: seq<GattService>, i: nat,
                              ghost servicesBefore: seq<BleDeviceService>, ghost callsBefore: seq<GattCall>)
      requires i < |services|
      requires deviceServices == servicesBefore + LedgerServices(services[..i])
      requires gattCalls == callsBefore + NotificationLog(gattOpen, services[..i])
      modifies this`deviceServices, this`gattCalls
      ensures deviceServices == servicesBefore + LedgerServices(services[..i + 1])
      ensures gattCalls == callsBefore + NotificationLog(gattOpen, services[..i + 1])
    {
      LedgerServicesStep(services, i);
      NotificationCallsStep(services, i, gattOpen);
      AddLedgerService(services[i]);
    }

    /** A Ledger service is built, has notifications enabled and is added; any other is skipped. */
    method AddLedgerService(service: GattService)
      modifies this`deviceServices, this`gattCalls
      ensures deviceServices == old(deviceServices) + (if IsLedgerService(service.uuid) then [DeviceServiceOf(service)] else [])
      ensures gattCalls == old(gattCalls) + (if gattOpen && IsLedgerService(service.uuid)
                                             then [EnableNotification(DeviceServiceOf(service).notifyCharacteristic)]
                                             else [])
    {
      if IsLedgerService(service.uuid) {
        var ds := BuildDeviceService(service);
        InitNotification(ds.notifyCharacteristic);
        deviceServices := deviceServices + [ds];
      }
    }

    /** initNotification: enables notifications on the characteristic when the connection is open. */
    method InitNotification(notify: Option<GattCharacteristic>)
      modifies this`gattCalls
      ensures gattCalls == old(gattCalls) + (if gattOpen then [EnableNotification(notify)] else [])
    {
      if gattOpen {
        gattCalls := gattCalls + [EnableNotification(notify)];
      }
    }

    /** onDescriptorWrite: notifications are on; without an MTU yet the handshake is sent. */
    method OnDescriptorWrite(status: int)
      requires Valid()
      modifies this`isNotificationEnabled, this`mtuSize, this`gattCalls
      ensures Valid() && isNotificationEnabled && mtuSize == old(mtuSize)
      ensures old(mtuSize) == 0 ==>
                gattCalls == old(gattCalls) + (if gattOpen then MtuCalls(deviceServices) else [])
      ensures old(mtuSize) != 0 ==> gattCalls == old(gattCalls)
    {
      isNotificationEnabled := true;
      if mtuSize == 0 {
        SendMtuMessage();
      }
    }

    /** sendMtuMessage: resets the MTU and writes the handshake command to every device service. */
    method SendMtuMessage()
      modifies this`mtuSize, this`gattCalls
      ensures mtuSize == 0
      ensures gattCalls == old(gattCalls) + (if gattOpen then MtuCalls(deviceServices) else [])
    {
      mtuSize := 0;
      var i := 0;
      while i < |deviceServices|
        invariant 0 <= i <= |deviceServices|
        invariant gattCalls == old(gattCalls) + (if gattOpen then MtuCalls(deviceServices[..i]) else [])
        invariant mtuSize == 0
      {
        assert deviceServices[..i + 1][..i] == deviceServices[..i];
        if gattOpen {
          gattCalls := gattCalls + [WriteMtuHandshake(deviceServices[i].writeCharacteristic)];
        }
        i := i + 1;
      }
      assert deviceServices[..i] == deviceServices;
    }

    /**
     * onCharacteristicWrite: a successful write sends the next queued frame, if any; a
     * failed one reports the frame in flight as failed and forgets it, while its
     * remaining frames stay queued.
     */
    method OnCharacteristicWrite(status: int)
      requires Valid()
      modifies this`commandQueue, this`pendingCommand, this`events, this`gattCalls, this`framesSent
      ensures Valid()
      ensures status == GattCallbackFlow.GattSuccess && old(commandQueue) != [] ==>
                var next := old(commandQueue)[0];
                commandQueue == old(commandQueue)[1..] && pendingCommand == Some(next)
                && framesSent == old(framesSent) + [next] && events == old(events)
                && gattCalls == old(gattCalls) + (if gattOpen then FrameWrites(deviceServices, next) else [])
      ensures status == GattCallbackFlow.GattSuccess && old(commandQueue) == [] ==>
                commandQueue == [] && pendingCommand == old(pendingCommand) && events == old(events)
                && gattCalls == old(gattCalls) && framesSent == old(framesSent)
      ensures status != GattCallbackFlow.GattSuccess ==>
                && commandQueue == old(commandQueue) && pendingCommand == None
                && gattCalls == old(gattCalls) && framesSent == old(framesSent)
                && events == old(events) + (if old(pendingCommand).Some?
                                             then [ErrorSend(old(pendingCommand).value.id, SendErrorMessage)]
                                             else [])
    {
      if status == GattCallbackFlow.GattSuccess {
        if commandQueue != [] {
          var next := commandQueue[0];
          commandQueue := commandQueue[1..];
          SendCommand(next);
        }
      } else if pendingCommand.Some? {
        events := events + [ErrorSend(pendingCommand.value.id, SendErrorMessage)];
        pendingCommand := None;
      }
    }

    /**
     * onCharacteristicChanged: while no MTU is known the notification is the handshake
     * echo (an unreadable one throws before anything changes); otherwise it is a frame
     * of the answer to the command in flight, and a complete answer is reported and
     * frees the sender. Either way a queued APDU is then given its turn.
     */
    method OnCharacteristicChanged(value: seq<Byte>) returns (outcome: Outcome)
      requires Valid()
      modifies this`mtuSize, this`connectionState, this`pendingAnswers, this`events
      modifies this`pendingApdu, this`commandQueue, this`pendingCommand, this`gattCalls
      modifies this`framesQueued, this`framesSent
      ensures Valid()
      ensures old(mtuSize) == 0 && MtuHandshake.ParseMtu(value).Failure? ==>
                outcome == Threw(MtuHandshake.ParseMtu(value).exception)
                && mtuSize == 0 && connectionState == old(connectionState) && events == old(events)
                && pendingApdu == old(pendingApdu) && commandQueue == old(commandQueue)
                && pendingCommand == old(pendingCommand) && gattCalls == old(gattCalls)
                && pendingAnswers == old(pendingAnswers) && framesSent == old(framesSent)
                && framesQueued == old(framesQueued)
      ensures old(mtuSize) == 0 && MtuHandshake.ParseMtu(value).Success? ==>
                mtuSize == MtuHandshake.ParseMtu(value).value && connectionState == BleStateConnectedReady
                && events == old(events) && pendingAnswers == old(pendingAnswers)
                && DequeuedFrom(old(pendingApdu), old(pendingCommand), old(commandQueue),
                                old(framesSent), old(gattCalls), outcome)
      ensures old(mtuSize) != 0 && old(pendingCommand).None? ==>
                mtuSize == old(mtuSize) && connectionState == old(connectionState)
                && events == old(events) && pendingAnswers == old(pendingAnswers)
                && DequeuedFrom(old(pendingApdu), None, old(commandQueue), old(framesSent), old(gattCalls), outcome)
      ensures old(mtuSize) != 0 && old(pendingCommand).Some? ==>
                var id := old(pendingCommand).value.id;
                var r := Accumulate(old(pendingAnswers), decodeFrame(id, value));
                && mtuSize == old(mtuSize) && connectionState == old(connectionState)
                && pendingAnswers == r.pending
                && events == old(events) + (if r.answer.Some? then [SendAnswer(id, r.answer.value)] else [])
                && DequeuedFrom(old(pendingApdu), if r.answer.Some? then None else old(pendingCommand),
                                old(commandQueue), old(framesSent), old(gattCalls), outcome)
    {
      if mtuSize == 0 {
        var parsed := MtuHandshake.ParseMtu(value);
        if parsed.Failure? {
          return Threw(parsed.exception);
        }
        mtuSize := parsed.value;
        connectionState := BleStateConnectedReady;
      } else if pendingCommand.Some? {
        var id := pendingCommand.value.id;
        var answer := HandleAnswer(id, value);
        if answer.Some? {
          events := events + [SendAnswer(id, answer.value)];
          pendingCommand := None;
        }
      }
      outcome := DequeuApdu();
    }

    /**
     * handleAnswer: the decoded frame is appended; a complete answer is the payloads of
     * all pending frames in arrival order, and it empties the pending list.
     */
    method HandleAnswer(id: string, value: seq<Byte>) returns (answer: Option<seq<Byte>>)
      modifies this`pendingAnswers
      ensures Accumulated(answer, pendingAnswers) == Accumulate(old(pendingAnswers), decodeFrame(id, value))
    {
      var command := decodeFrame(id, value);
      pendingAnswers := pendingAnswers + [command];
      var isAnswerComplete;
      if command.index == 0 {
        isAnswerComplete := command.size == |command.apdu|;
      } else {
        var totalReceivedSize := SumPayloads(pendingAnswers);
        isAnswerComplete := pendingAnswers[0].size == totalReceivedSize;
      }
      if isAnswerComplete {
        var completeApdu := JoinPayloads(pendingAnswers);
        pendingAnswers := [];
        answer := Some(completeApdu);
      } else {
        answer := None;
      }
    }

    /**
     * sendApdu: without a device address the connection is torn down and `!!` throws;
     * otherwise the APDU is queued under a new id, which is returned. When the service
     * is ready the queue is served at once; otherwise notifications are (re)enabled on
     * the first device service, and `first()` throws when there is none.
     */
    method SendApdu(apdu: seq<Byte>, now: string) returns (r: Result<string>)
      requires Valid()
      modifies this
      ensures Valid() && SendApduEffect(apdu, now, OutcomeOf(r))
      ensures r.Success? ==> old(bluetoothDeviceAddress).Some? && r.value == SendId(old(bluetoothDeviceAddress).value, now)
    {
      if bluetoothDeviceAddress.None? {
        DisconnectService();
        return Failure(NullPointer);
      }
      var id := SendId(bluetoothDeviceAddress.value, now);
      pendingApdu := pendingApdu + [BlePendingRequest(id, apdu)];
      if connectionState == BleStateConnectedReady {
        var dequeued := DequeuApdu();
        if dequeued.Threw? {
          return Failure(dequeued.exception);
        }
      } else {
        if deviceServices == [] {
          return Failure(NoSuchElement);
        }
        InitNotification(deviceServices[0].notifyCharacteristic);
      }
      r := Success(id);
    }

    /** dequeuApdu: promote the head of the APDU queue when no frame is in flight. */
    method DequeuApdu() returns (outcome: Outcome)
      requires Valid()
      modifies this`pendingApdu, this`commandQueue, this`pendingCommand, this`gattCalls
      modifies this`framesQueued, this`framesSent
      ensures Valid()
      ensures DequeuedFrom(old(pendingApdu), old(pendingCommand), old(commandQueue),
                           old(framesSent), old(gattCalls), outcome)
    {
      if pendingApdu != [] && pendingCommand.None? {
        var pendingRequest := pendingApdu[0];
        pendingApdu := pendingApdu[1..];
        outcome := SendCommands(fragment(pendingRequest.id, pendingRequest.apdu, mtuSize));
      } else {
        outcome := Completed;
      }
    }

    /** sendCommands: queue all frames of a command, then send the first queued frame. */
    method SendCommands(frames: seq<FrameCommand>) returns (outcome: Outcome)
      requires Valid()
      modifies this`commandQueue, this`pendingCommand, this`gattCalls, this`framesQueued, this`framesSent
      ensures Valid()
      ensures var all := old(commandQueue) + frames;
              if all == [] then
                outcome == Threw(NoSuchElement) && commandQueue == [] && pendingCommand == old(pendingCommand)
                && framesSent == old(framesSent) && gattCalls == old(gattCalls)
              else
                outcome == Completed && commandQueue == all[1..] && pendingCommand == Some(all[0])
                && framesSent == old(framesSent) + [all[0]]
                && gattCalls == old(gattCalls) + (if gattOpen then FrameWrites(deviceServices, all[0]) else [])
    {
      commandQueue := commandQueue + frames;
      framesQueued := framesQueued + frames;
      if commandQueue == [] {
        return Threw(NoSuchElement);
      }
      var command := commandQueue[0];
      commandQueue := commandQueue[1..];
      SendCommand(command);
      outcome := Completed;
    }

    /** sendCommand: the frame becomes the one in flight and is written to every device service. */
    method SendCommand(command: FrameCommand)
      requires framesQueued == framesSent + [command] + commandQueue && mtuSize >= 0
      modifies this`pendingCommand, this`gattCalls, this`framesSent
      ensures Valid()
      ensures pendingCommand == Some(command) && framesSent == old(framesSent) + [command]
      ensures gattCalls == old(gattCalls) + (if gattOpen then FrameWrites(deviceServices, command) else [])
    {
      pendingCommand := Some(command);
      framesSent := framesSent + [command];
      var i := 0;
      while i < |deviceServices|
        invariant 0 <= i <= |deviceServices|
        invariant gattCalls == old(gattCalls) + (if gattOpen then FrameWrites(deviceServices[..i], command) else [])
        invariant pendingCommand == Some(command) && framesSent == old(framesSent) + [command]
      {
        assert deviceServices[..i + 1][..i] == deviceServices[..i];
        if gattOpen {
          gattCalls := gattCalls + [WriteFrame(WriteTarget(deviceServices[i]), command)];
        }
        i := i + 1;
      }
      assert deviceServices[..i] == deviceServices;
    }
  }

  /** The outcome a Result stands for. */
  function OutcomeOf(r: Result<string>): Outcome {
    if r.Success? then Completed else Threw(r.exception)
  }

  lemma LedgerServicesStep(services: seq<GattService>, i: nat)
    requires i < |services|
    ensures LedgerServices(services[..i + 1]) ==
              LedgerServices(services[..i])
              + (if IsLedgerService(services[i].uuid) then [DeviceServiceOf(services[i])] else [])
  {
    assert services[..i + 1][..i] == services[..i];
  }

  /** The notification requests of the services loop grow by the request for the next Ledger service. */
  lemma NotificationCallsStep(services: seq<GattService>, i: nat, open: bool)
    requires i < |services|
    ensures NotificationLog(open, services[..i + 1])
            == NotificationLog(open, services[..i])
               + (if open && IsLedgerService(services[i].uuid)
                  then [EnableNotification(DeviceServiceOf(services[i]).notifyCharacteristic)]
                  else [])
  {
    LedgerServicesStep(services, i);
    var added := LedgerServices(services[..i]);
    if IsLedgerService(services[i].uuid) {
      NotificationCallsSnoc(added, DeviceServiceOf(services[i]));
    } else {
      assert LedgerServices(services[..i + 1]) == added;
    }
  }

  lemma NotificationCallsSnoc(dss: seq<BleDeviceService>, ds: BleDeviceService)
    ensures NotificationCalls(dss + [ds]) == NotificationCalls(dss) + [EnableNotification(ds.notifyCharacteristic)]
  {
    assert (dss + [ds])[..|dss|] == dss;
  }
}
