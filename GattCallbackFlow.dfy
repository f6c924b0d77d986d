/**
 * BleGattCallbackFlow: the platform's GATT callbacks normalised into one stream of
 * GattCallbackEvent values, the input of BleServiceStateMachine. Each override
 * pushes at most one event and has no other effect, so the mapping is a function
 * from the callback and its arguments to an optional event.
 */
module GattCallbackFlow {
  import opened Common
  import opened Gatt

  /** android.bluetooth.BluetoothProfile.STATE_DISCONNECTED / STATE_CONNECTED. */
  const StateDisconnected: int := 0
  const StateConnected: int := 2
  /** android.bluetooth.BluetoothGatt.GATT_SUCCESS. */
  const GattSuccess: int := 0

  datatype GattCallbackEvent =
    | Connected
    | Disconnected
    | ServicesDiscovered(services: seq<GattService>)
    | CharacteristicChanged(value: seq<Byte>)
    | WriteDescriptorAck(isSuccess: bool)
    | WriteCharacteristicAck(isSuccess: bool)

  /** One invocation of a BluetoothGattCallback override, with the arguments it reads. */
  datatype GattCallback =
    | OnConnectionStateChange(status: int, newState: int)
    | OnServicesDiscovered(status: int, services: seq<GattService>)
    | OnDescriptorWrite(status: int)
    | OnCharacteristicWrite(status: int)
    | OnCharacteristicChanged(value: seq<Byte>)

  /**
   * The event pushed by one callback, or None when the callback pushes nothing.
   * Read in reverse, each event names the only callbacks that can produce it.
   */
  function EventOf(cb: GattCallback): (r: Option<GattCallbackEvent>)
    ensures r.None? <==> cb.OnConnectionStateChange? && cb.newState != StateConnected && cb.newState != StateDisconnected
    ensures r == Some(Connected) <==> cb.OnConnectionStateChange? && cb.newState == StateConnected
    ensures r == Some(Disconnected) <==>
              (cb.OnConnectionStateChange? && cb.newState == StateDisconnected)
              || (cb.OnServicesDiscovered? && cb.status != GattSuccess)
    ensures (r.Some? && r.value.ServicesDiscovered?) <==> cb.OnServicesDiscovered? && cb.status == GattSuccess
    ensures r.Some? && r.value.ServicesDiscovered? ==> r.value.services == cb.services
    ensures (r.Some? && r.value.WriteDescriptorAck?) <==> cb.OnDescriptorWrite?
    ensures (r.Some? && r.value.WriteCharacteristicAck?) <==> cb.OnCharacteristicWrite?
    ensures r.Some? && (r.value.WriteDescriptorAck? || r.value.WriteCharacteristicAck?) ==>
              r.value.isSuccess == (cb.status == GattSuccess)
    ensures (r.Some? && r.value.CharacteristicChanged?) <==> cb.OnCharacteristicChanged?
    ensures r.Some? && r.value.CharacteristicChanged? ==> r.value.value == cb.value
  {
    match cb
    case OnConnectionStateChange(_, newState) =>
      if newState == StateConnected then Some(Connected)
      else if newState == StateDisconnected then Some(Disconnected)
      else None
    case OnServicesDiscovered(status, services) =>
      if status == GattSuccess then Some(ServicesDiscovered(services)) else Some(Disconnected)
    case OnDescriptorWrite(status) =>
      Some(WriteDescriptorAck(status == GattSuccess))
    case OnCharacteristicWrite(status) =>
      Some(WriteCharacteristicAck(status == GattSuccess))
    case OnCharacteristicChanged(value) =>
      Some(CharacteristicChanged(value))
  }

  /** The event stream a sequence of callbacks produces, in callback order. */
  function EventsOf(cbs: seq<GattCallback>): (events: seq<GattCallbackEvent>)
    ensures |events| <= |cbs|
  {
    if cbs == [] then []
    else
      var last := EventOf(cbs[|cbs| - 1]);
      EventsOf(cbs[..|cbs| - 1]) + (if last.Some? then [last.value] else [])
  }

  /**
   * Only a connection-state change to a state other than connected or disconnected
   * is dropped; every other callback contributes exactly one event to the stream.
   */
  lemma {:induction false} EventsOfCount(cbs: seq<GattCallback>)
    ensures (forall i :: 0 <= i < |cbs| ==> !cbs[i].OnConnectionStateChange?) ==> |EventsOf(cbs)| == |cbs|
  {
    if cbs != [] {
      var init := cbs[..|cbs| - 1];
      assert forall i :: 0 <= i < |init| ==> init[i] == cbs[i];
      EventsOfCount(init);
    }
  }

  /** A characteristic notification reaches the stream carrying its bytes unchanged. */
  lemma {:induction false} NotificationsPassThrough(values: seq<seq<Byte>>)
    ensures EventsOf(seq(|values|, i requires 0 <= i < |values| => OnCharacteristicChanged(values[i])))
            == seq(|values|, i requires 0 <= i < |values| => CharacteristicChanged(values[i]))
  {
    if values != [] {
      var init := values[..|values| - 1];
      var cbs := seq(|values|, i requires 0 <= i < |values| => OnCharacteristicChanged(values[i]));
      assert cbs[..|cbs| - 1] == seq(|init|, i requires 0 <= i < |init| => OnCharacteristicChanged(init[i]));
      NotificationsPassThrough(init);
    }
  }
}
