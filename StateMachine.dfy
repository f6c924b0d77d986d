/**
 * BleServiceStateMachine: the per-connection handshake
 *   Created -> WaitingServices -> WaitingNotificationEnable -> WaitingMtu -> Ready <-> WaitingResponse
 * driven by the normalised GATT events, with Error reachable from every state.
 * GATT calls are recorded as intents; the emitted state stream is a ghost log.
 */
module ServiceStateMachine {
  import opened Common
  import opened Gatt
  import opened GattCallbackFlow
  import opened Frames
  import MtuHandshake

  datatype BleServiceState =
    | Created
    | WaitingServices
    | WaitingNotificationEnable
    | WaitingMtu
    | Ready(deviceService: BleDeviceService, mtu: int, answer: Option<seq<Byte>>)
    | WaitingResponse(sendId: string)
    | Error(error: string)

  /** A request of the state machine to the GATT layer (GattInteractor) or to its sender. */
  datatype GattIntent =
    | DiscoverServices
    | EnableNotification(service: BleDeviceService)
    | AskMtu(service: BleDeviceService)
    | NextFrame
    | Dequeue

  const TimeoutError := "Connection timeout error"
  const NoServiceError := "No usable service found for device"
  const ConnectedError := "Connected event should only be received when current state is Created"
  const ServicesError := "ServicesDiscovered event should only be received when current state is WaitingServices"
  const DescriptorError := "WriteDescriptorAck event should only be received when current state is WaitingNotificationEnable"
  const WriteAckError := "WriteCharacteristicAck event should only be received when current state is WaitingMtu or WaitingResponse"
  const ChangedError := "CharacteristicChanged event should only be received when current state is WaitingMtu or WaitingResponse"
  const DisconnectedError := "Unexpected disconnection happened"

  /** The position of a state along the handshake; Ready and WaitingResponse share the last step. */
  function HandshakeStep(s: BleServiceState): nat {
    match s
    case Created => 0
    case WaitingServices => 1
    case WaitingNotificationEnable => 2
    case WaitingMtu => 3
    case Ready(_, _, _) => 4
    case WaitingResponse(_) => 4
    case Error(_) => 5
  }

  /**
   * An allowed move: to Error, or along the handshake by at most one step.
   * From Error the only allowed move is to Error.
   */
  predicate Advances(before: BleServiceState, after: BleServiceState) {
    after.Error? || HandshakeStep(after) == HandshakeStep(before) || HandshakeStep(after) == HandshakeStep(before) + 1
  }

  /**
   * BleSender as an abstract queue: APDUs wait in `pendingApdu`; at most one of them,
   * `pendingCommand`, is on the wire. Fragmentation and frame writes are not modelled.
   */
  class BleSender {
    var pendingApdu: seq<BlePendingRequest>
    var pendingCommand: Option<string>
    var isInitialized: bool
    var mtu: int
    var deviceService: Option<BleDeviceService>

    constructor ()
      ensures pendingApdu == [] && pendingCommand == None && !isInitialized && deviceService == None
    {
      pendingApdu, pendingCommand, isInitialized := [], None, false;
      mtu, deviceService := 0, None;
    }

    method QueuApdu(apdu: seq<Byte>, id: string) returns (r: string)
      modifies this`pendingApdu
      ensures r == id && pendingApdu == old(pendingApdu) + [BlePendingRequest(id, apdu)]
    {
      pendingApdu := pendingApdu + [BlePendingRequest(id, apdu)];
      r := id;
    }

    /** Promotes the head of the queue only when no command is in flight. */
    method DequeuApdu() returns (promoted: Option<string>)
      modifies this`pendingApdu, this`pendingCommand
      ensures old(pendingApdu) != [] && old(pendingCommand).None? ==>
                promoted == Some(old(pendingApdu)[0].id) && pendingCommand == promoted
                && pendingApdu == old(pendingApdu)[1..]
      ensures !(old(pendingApdu) != [] && old(pendingCommand).None?) ==>
                promoted == None && pendingCommand == old(pendingCommand) && pendingApdu == old(pendingApdu)
    {
      if pendingApdu != [] && pendingCommand.None? {
        promoted := Some(pendingApdu[0].id);
        pendingCommand := promoted;
        pendingApdu := pendingApdu[1..];
      } else {
        promoted := None;
      }
    }

    method ClearCommand()
      modifies this`pendingCommand
      ensures pendingCommand == None
    {
      pendingCommand := None;
    }

    method Initialized(mtu: int, deviceService: BleDeviceService)
      modifies this`isInitialized, this`mtu, this`deviceService
      ensures isInitialized && this.mtu == mtu && this.deviceService == Some(deviceService)
    {
      isInitialized, this.mtu, this.deviceService := true, mtu, Some(deviceService);
    }
  }

  class BleServiceStateMachine {
    var currentState: BleServiceState
    /** `lateinit var deviceService`: None until the first usable service is parsed. */
    var deviceService: Option<BleDeviceService>
    var mtuSize: int
    /** The 5 s connect timer is still running. */
    var timeoutPending: bool
    /**
     * The coroutine scope is alive. The scope has a plain Job, so an exception escaping
     * the event collector cancels the scope: the collector and the timer stop for good.
     */
    var scopeActive: bool
    const sender: BleSender
    const receiver: BleReceiver
    /** Every state emitted on stateFlow, in order. */
    ghost var emitted: seq<BleServiceState>
    /** Every GATT or sender request issued, in order. */
    ghost var intents: seq<GattIntent>

    /**
     * The object invariant: the device service exists once services are parsed; the
     * sender is untouched before Ready; in Ready nothing is queued or in flight and the
     * sender works with the negotiated MTU and the resolved service; WaitingResponse
     * names the one command in flight.
     */
    ghost predicate Valid()
      reads this, sender
    {
      && (currentState.WaitingNotificationEnable? || currentState.WaitingMtu? ==> deviceService.Some?)
      && (HandshakeStep(currentState) < 4 ==> sender.pendingCommand.None? && !sender.isInitialized)
      && (currentState.Ready? ==>
            && sender.pendingCommand.None? && sender.pendingApdu == []
            && deviceService == Some(currentState.deviceService) && currentState.mtu == mtuSize)
      && (currentState.WaitingResponse? ==> sender.pendingCommand == Some(currentState.sendId))
      && (currentState.Ready? || currentState.WaitingResponse? ==>
            && deviceService.Some? && sender.isInitialized
            && sender.mtu == mtuSize && sender.deviceService == deviceService)
    }

    /**
     * The effect of pushState(Ready(deviceService, mtuSize, answer)) from a queue `queue`:
     * the sender is initialised, a dequeue is requested, and if a request was waiting it
     * is promoted and the state moves on to WaitingResponse for it.
     */
    ghost predicate PushedReady(answer: Option<seq<Byte>>, queue: seq<BlePendingRequest>,
                                emittedBefore: seq<BleServiceState>, intentsBefore: seq<GattIntent>)
      reads this, sender
    {
      && deviceService.Some?
      && var ready := Ready(deviceService.value, mtuSize, answer);
      && sender.isInitialized && sender.mtu == mtuSize && sender.deviceService == deviceService
      && intents == intentsBefore + [Dequeue]
      && if queue == [] then
           currentState == ready && emitted == emittedBefore + [ready]
           && sender.pendingApdu == [] && sender.pendingCommand == None
         else
           currentState == WaitingResponse(queue[0].id)
           && emitted == emittedBefore + [ready, WaitingResponse(queue[0].id)]
           && sender.pendingApdu == queue[1..] && sender.pendingCommand == Some(queue[0].id)
    }

    constructor (decode: FrameDecoder)
      ensures Valid()
      ensures currentState == Created && deviceService == None && mtuSize == -1 && timeoutPending
      ensures scopeActive && emitted == [] && intents == []
      ensures fresh(sender) && fresh(receiver) && receiver.pendingAnswers == [] && receiver.decode == decode
      ensures sender.pendingApdu == [] && sender.pendingCommand == None && !sender.isInitialized
    {
      currentState := Created;
      deviceService := None;
      mtuSize := -1;
      timeoutPending := true;
      scopeActive := true;
      sender := new BleSender();
      receiver := new BleReceiver(decode);
      emitted, intents := [], [];
    }

    /**
     * pushState: records and emits `state`; for Ready it initialises the sender once
     * and asks it to dequeue, whose callback pushes WaitingResponse for a promoted command.
     */
    method PushState(state: BleServiceState)
      requires state.Ready? ==>
                 && deviceService == Some(state.deviceService) && state.mtu == mtuSize
                 && sender.pendingCommand.None?
                 && (sender.isInitialized ==> sender.mtu == mtuSize && sender.deviceService == deviceService)
      modifies this`currentState, this`emitted, this`intents, if state.Ready? then {sender} else {}
      ensures !state.Ready? ==>
                currentState == state && emitted == old(emitted) + [state] && intents == old(intents)
      ensures state.Ready? ==> PushedReady(state.answer, old(sender.pendingApdu), old(emitted), old(intents))
      decreases if state.Ready? then 1 else 0
    {
      currentState := state;
      emitted := emitted + [state];
      if currentState.Ready? {
        if !sender.isInitialized {
          sender.Initialized(mtuSize, state.deviceService);
        }
        intents := intents + [Dequeue];
        var promoted := sender.DequeuApdu();
        if promoted.Some? {
          PushState(WaitingResponse(promoted.value));
        }
      }
    }

    /** The connect timer firing: an Error is emitted but currentState is not assigned. */
    method Timeout()
      modifies this`emitted, this`timeoutPending
      ensures old(timeoutPending) ==> emitted == old(emitted) + [Error(TimeoutError)] && !timeoutPending
      ensures !old(timeoutPending) ==> emitted == old(emitted) && !timeoutPending
    {
      if timeoutPending {
        emitted := emitted + [Error(TimeoutError)];
        timeoutPending := false;
      }
    }

    /**
     * sendApdu: the APDU is always queued and its id returned. In Ready or
     * WaitingResponse the sender is asked to dequeue; otherwise service discovery is
     * requested and the state is left alone.
     */
    method SendApdu(apdu: seq<Byte>, id: string) returns (r: string)
      requires Valid()
      modifies this`currentState, this`emitted, this`intents, sender
      ensures Valid() && r == id
      ensures old(currentState).Ready? ==>
                currentState == WaitingResponse(id) && emitted == old(emitted) + [WaitingResponse(id)]
                && intents == old(intents) + [Dequeue]
                && sender.pendingApdu == [] && sender.pendingCommand == Some(id)
      ensures old(currentState).WaitingResponse? ==>
                currentState == old(currentState) && emitted == old(emitted)
                && intents == old(intents) + [Dequeue]
                && sender.pendingApdu == old(sender.pendingApdu) + [BlePendingRequest(id, apdu)]
                && sender.pendingCommand == old(sender.pendingCommand)
      ensures !old(currentState).Ready? && !old(currentState).WaitingResponse? ==>
                currentState == old(currentState) && emitted == old(emitted)
                && intents == old(intents) + [DiscoverServices]
                && sender.pendingApdu == old(sender.pendingApdu) + [BlePendingRequest(id, apdu)]
                && sender.pendingCommand == old(sender.pendingCommand)
    {
      r := sender.QueuApdu(apdu, id);
      if currentState.Ready? || currentState.WaitingResponse? {
        intents := intents + [Dequeue];
        var promoted := sender.DequeuApdu();
        if promoted.Some? {
          PushState(WaitingResponse(promoted.value));
        }
      } else {
        intents := intents + [DiscoverServices];
      }
    }

    /** Connected: only expected in Created, where the timer is cancelled and discovery requested. */
    method OnConnected()
      requires Valid() && scopeActive
      modifies this`currentState, this`emitted, this`intents, this`timeoutPending
      ensures Valid()
      ensures old(currentState).Created? ==>
                currentState == WaitingServices && !timeoutPending
                && emitted == old(emitted) + [WaitingServices] && intents == old(intents) + [DiscoverServices]
      ensures !old(currentState).Created? ==>
                currentState == Error(ConnectedError) && emitted == old(emitted) + [Error(ConnectedError)]
                && intents == old(intents) && timeoutPending == old(timeoutPending)
    {
      if currentState.Created? {
        timeoutPending := false;
        PushState(WaitingServices);
        intents := intents + [DiscoverServices];
      } else {
        PushState(Error(ConnectedError));
      }
    }

    /**
     * ServicesDiscovered: a usable service overwrites deviceService before the state is
     * looked at; without one an Error is emitted and nothing else changes.
     */
    method OnServicesDiscovered(services: seq<GattService>)
      requires Valid() && scopeActive
      modifies this`currentState, this`emitted, this`intents, this`deviceService
      ensures Valid()
      ensures ResolvedService(services).None? ==>
                currentState == old(currentState) && deviceService == old(deviceService)
                && emitted == old(emitted) + [Error(NoServiceError)] && intents == old(intents)
      ensures ResolvedService(services).Some? ==> deviceService == ResolvedService(services)
      ensures ResolvedService(services).Some? && old(currentState).WaitingServices? ==>
                currentState == WaitingNotificationEnable
                && emitted == old(emitted) + [WaitingNotificationEnable]
                && intents == old(intents) + [EnableNotification(ResolvedService(services).value)]
      ensures ResolvedService(services).Some? && !old(currentState).WaitingServices? ==>
                currentState == Error(ServicesError) && emitted == old(emitted) + [Error(ServicesError)]
                && intents == old(intents)
    {
      var parsed := ParseServices(services);
      if parsed.None? {
        emitted := emitted + [Error(NoServiceError)];
      } else {
        deviceService := parsed;
        if currentState.WaitingServices? {
          PushState(WaitingNotificationEnable);
          intents := intents + [EnableNotification(parsed.value)];
        } else {
          PushState(Error(ServicesError));
        }
      }
    }

    /** WriteDescriptorAck (success or not): notifications enabled, so the MTU is asked. */
    method OnWriteDescriptorAck(isSuccess: bool)
      requires Valid() && scopeActive
      modifies this`currentState, this`emitted, this`intents
      ensures Valid()
      ensures old(currentState).WaitingNotificationEnable? ==>
                currentState == WaitingMtu && emitted == old(emitted) + [WaitingMtu]
                && intents == old(intents) + [AskMtu(deviceService.value)]
      ensures !old(currentState).WaitingNotificationEnable? ==>
                currentState == Error(DescriptorError) && emitted == old(emitted) + [Error(DescriptorError)]
                && intents == old(intents)
    {
      if currentState.WaitingNotificationEnable? {
        PushState(WaitingMtu);
        intents := intents + [AskMtu(deviceService.value)];
      } else {
        PushState(Error(DescriptorError));
      }
    }

    /**
     * WriteCharacteristicAck (success or not): the MTU probe's ack is ignored; in Ready
     * and WaitingResponse the sender moves to its next frame; elsewhere it is an error.
     */
    method OnWriteCharacteristicAck(isSuccess: bool)
      requires Valid() && scopeActive
      modifies this`currentState, this`emitted, this`intents
      ensures Valid()
      ensures old(currentState).WaitingMtu? ==>
                currentState == old(currentState) && emitted == old(emitted) && intents == old(intents)
      ensures old(currentState).Ready? || old(currentState).WaitingResponse? ==>
                currentState == old(currentState) && emitted == old(emitted) && intents == old(intents) + [NextFrame]
      ensures !old(currentState).WaitingMtu? && !old(currentState).Ready? && !old(currentState).WaitingResponse? ==>
                currentState == Error(WriteAckError) && emitted == old(emitted) + [Error(WriteAckError)]
                && intents == old(intents)
    {
      match currentState {
        case WaitingMtu =>
        case Ready(_, _, _) =>
          intents := intents + [NextFrame];
        case WaitingResponse(_) =>
          intents := intents + [NextFrame];
        case _ =>
          PushState(Error(WriteAckError));
      }
    }

    /**
     * CharacteristicChanged: in WaitingMtu the echo gives the MTU and the machine becomes
     * Ready; in WaitingResponse the bytes go to the receiver and a complete answer frees
     * the sender and makes the machine Ready with it; elsewhere it is an error.
     * An echo whose MTU cannot be read throws, and nothing changes.
     */
    method OnCharacteristicChanged(value: seq<Byte>) returns (outcome: Outcome)
      requires Valid() && scopeActive
      modifies this`currentState, this`emitted, this`intents, this`mtuSize, sender, receiver
      ensures Valid()
      ensures outcome.Threw? <==> old(currentState).WaitingMtu? && MtuHandshake.ParseMtu(value).Failure?
      ensures outcome.Threw? ==>
                currentState == old(currentState) && emitted == old(emitted) && intents == old(intents)
                && mtuSize == old(mtuSize) && unchanged(sender) && unchanged(receiver)
      ensures old(currentState).WaitingMtu? && MtuHandshake.ParseMtu(value).Success? ==>
                mtuSize == MtuHandshake.ParseMtu(value).value && unchanged(receiver)
                && PushedReady(None, old(sender.pendingApdu), old(emitted), old(intents))
      ensures old(currentState).WaitingResponse? ==>
                var r := Accumulate(old(receiver.pendingAnswers), receiver.decode(old(currentState).sendId, value));
                && receiver.pendingAnswers == r.pending && mtuSize == old(mtuSize)
                && (r.answer.Some? ==> PushedReady(r.answer, old(sender.pendingApdu), old(emitted), old(intents)))
                && (r.answer.None? ==>
                      currentState == old(currentState) && emitted == old(emitted) && intents == old(intents)
                      && unchanged(sender))
      ensures !old(currentState).WaitingMtu? && !old(currentState).WaitingResponse? ==>
                currentState == Error(ChangedError) && emitted == old(emitted) + [Error(ChangedError)]
                && intents == old(intents) && mtuSize == old(mtuSize) && unchanged(sender) && unchanged(receiver)
    {
      outcome := Completed;
      match currentState {
        case WaitingMtu =>
          var parsed := MtuHandshake.ParseMtu(value);
          if parsed.Failure? {
            outcome := Threw(parsed.exception);
          } else {
            mtuSize := parsed.value;
            PushState(Ready(deviceService.value, mtuSize, None));
          }
        case WaitingResponse(sendId) =>
          var answer := receiver.HandleAnswer(sender.pendingCommand.value, value);
          if answer.Some? {
            sender.ClearCommand();
            PushState(Ready(deviceService.value, mtuSize, answer));
          }
        case _ =>
          PushState(Error(ChangedError));
      }
    }

    /** Disconnected: Error from every state, Error included. */
    method OnDisconnected()
      requires Valid() && scopeActive
      modifies this`currentState, this`emitted, this`intents
      ensures Valid()
      ensures currentState == Error(DisconnectedError) && emitted == old(emitted) + [Error(DisconnectedError)]
      ensures intents == old(intents)
    {
      PushState(Error(DisconnectedError));
    }

    /**
     * handleGattCallbackEvent, as run by the collector: once the scope is cancelled no
     * event is handled. Otherwise every event keeps the invariant and moves the handshake
     * forward by at most one step or into Error, and once in Error the machine stays in
     * Error. Only an unreadable MTU echo throws; it cancels the scope with the timer.
     */
    method HandleGattCallbackEvent(event: GattCallbackEvent) returns (outcome: Outcome)
      requires Valid()
      modifies this, sender, receiver
      ensures Valid()
      ensures !old(scopeActive) ==> outcome == Completed && unchanged(this, sender, receiver)
      ensures scopeActive == (old(scopeActive) && outcome == Completed)
      ensures Advances(old(currentState), currentState)
      ensures old(currentState).Error? ==> currentState.Error?
      ensures outcome.Threw? ==>
                event.CharacteristicChanged? && old(currentState).WaitingMtu?
                && currentState == old(currentState) && mtuSize == old(mtuSize) && !timeoutPending
      ensures !event.ServicesDiscovered? ==> deviceService == old(deviceService)
      ensures !(event.CharacteristicChanged? && old(currentState).WaitingMtu?) ==> mtuSize == old(mtuSize)
    {
      outcome := Completed;
      if !scopeActive {
        return;
      }
      match event {
        case Connected => OnConnected();
        case ServicesDiscovered(services) => OnServicesDiscovered(services);
        case WriteDescriptorAck(ok) => OnWriteDescriptorAck(ok);
        case WriteCharacteristicAck(ok) => OnWriteCharacteristicAck(ok);
        case CharacteristicChanged(value) => outcome := OnCharacteristicChanged(value);
        case Disconnected => OnDisconnected();
      }
      if outcome.Threw? {
        scopeActive := false;
        timeoutPending := false;
      }
    }

    /**
     * The collector launched at construction (`onEach { handleGattCallbackEvent(it) }`
     * then `launchIn(scope)`), fed the events in order. A run that starts in Error ends
     * in Error; a run of n events moves the handshake forward by at most n steps unless
     * it ends in Error; and a run that cancels the scope leaves the machine waiting for
     * the MTU for good.
     */
    method CollectEvents(events: seq<GattCallbackEvent>)
      requires Valid()
      modifies this, sender, receiver
      ensures Valid()
      ensures old(currentState).Error? ==> currentState.Error?
      ensures currentState.Error? || HandshakeStep(currentState) <= HandshakeStep(old(currentState)) + |events|
      ensures !old(scopeActive) ==> unchanged(this, sender, receiver)
      ensures old(scopeActive) && !scopeActive ==> currentState.WaitingMtu? && !timeoutPending
    {
      var i := 0;
      while i < |events|
        invariant 0 <= i <= |events| && Valid()
        invariant old(currentState).Error? ==> currentState.Error?
        invariant currentState.Error? || HandshakeStep(currentState) <= HandshakeStep(old(currentState)) + i
        invariant !old(scopeActive) ==> unchanged(this, sender, receiver)
        invariant old(scopeActive) && !scopeActive ==> currentState.WaitingMtu? && !timeoutPending
      {
        var _ := HandleGattCallbackEvent(events[i]);
        i := i + 1;
      }
    }
  }

  /** A decoder that reads a notification as one complete first frame. */
  function SingleFrame(id: string, value: seq<Byte>): FrameCommand {
    FrameCommand(id, 0, |value|, value)
  }

  /**
   * The handshake with a Nano X, event by event: discovery finds its service, the
   * notification and MTU-probe acks arrive, and the echo carries an MTU of 0x99.
   */
  method NanoXHandshake() returns (machine: BleServiceStateMachine)
    ensures fresh(machine) && fresh(machine.sender) && fresh(machine.receiver) && machine.Valid()
    ensures machine.currentState.Ready? && machine.currentState.mtu == 0x99 && machine.mtuSize == 0x99
    ensures machine.currentState.answer == None && machine.scopeActive
    ensures machine.sender.pendingApdu == [] && machine.receiver.pendingAnswers == []
    ensures machine.receiver.decode == SingleFrame
    ensures machine.emitted == [WaitingServices, WaitingNotificationEnable, WaitingMtu, machine.currentState]
  {
    var notify := GattCharacteristic(NanoXNotifyUuid);
    var write := GattCharacteristic(NanoXWriteWithResponseUuid);
    var service := GattService(NanoXServiceUuid, [notify, write]);
    machine := new BleServiceStateMachine(SingleFrame);

    machine.OnConnected();
    assert [service][..0] == [];
    machine.OnServicesDiscovered([service]);
    machine.OnWriteDescriptorAck(true);
    machine.OnWriteCharacteristicAck(true);
    assert machine.currentState == WaitingMtu;

    var echo: seq<Byte> := [8, 0, 0, 0, 0, 0, 0x99];
    assert echo[5..] == [0, 0x99] && [0, 0x99][..1] == [0];
    assert MtuHandshake.BigEndian([0, 0x99]) == 0x99;
    var outcome := machine.OnCharacteristicChanged(echo);
  }

  /**
   * After the handshake, an APDU sent in Ready is put in flight at once, and a
   * single-frame answer makes the machine Ready again with that answer.
   */
  method NanoXExchange()
  {
    var machine := NanoXHandshake();
    var id := machine.SendApdu([0xE0, 0x01], "AA_send_1");
    assert id == "AA_send_1" && machine.currentState == WaitingResponse("AA_send_1");
    assert machine.sender.pendingCommand == Some("AA_send_1");

    var answer: seq<Byte> := [0x90, 0x00];
    var outcome := machine.OnCharacteristicChanged(answer);
    var frame := SingleFrame("AA_send_1", answer);
    assert [] + [frame] == [frame] && [frame][..0] == [];
    assert IsAnswerComplete([frame]) && Joined([frame]) == Joined([]) + answer;
    assert Joined([frame]) == answer;
    assert IsAnswerComplete([] + [frame]);
    assert Accumulate([], frame).answer == Some(answer);
    assert outcome == Completed;
    assert machine.currentState == Ready(machine.deviceService.value, 0x99, Some(answer));
    assert machine.sender.pendingCommand == None;
  }
}
