/**
 * GATT services of the two Ledger product lines and the resolution of a discovered
 * service into a BleDeviceService, as done by parseServices (BleServiceStateMachine)
 * and onServicesDiscovered (BleService) with BleDeviceService.Builder.
 */
module Gatt {
  import opened Common

  /** A UUID is its 128-bit value: java.util.UUID compares values, not spellings. */
  type Uuid = nat

  const NanoXServiceUuid: Uuid := 0x13d63400_2c97_0004_0000_4c6564676572
  const NanoFtsServiceUuid: Uuid := 0x13d63400_2c97_6004_0000_4c6564676572

  const NanoXNotifyUuid: Uuid := 0x13d63400_2c97_0004_0001_4c6564676572
  const NanoXWriteWithResponseUuid: Uuid := 0x13d63400_2c97_0004_0002_4c6564676572
  const NanoXWriteWithoutResponseUuid: Uuid := 0x13d63400_2c97_0004_0003_4c6564676572

  const NanoFtsNotifyUuid: Uuid := 0x13d63400_2c97_6004_0001_4c6564676572
  const NanoFtsWriteWithResponseUuid: Uuid := 0x13d63400_2c97_6004_0002_4c6564676572
  const NanoFtsWriteWithoutResponseUuid: Uuid := 0x13d63400_2c97_6004_0003_4c6564676572

  const WriteUuids: set<Uuid> := {NanoXWriteWithResponseUuid, NanoFtsWriteWithResponseUuid}
  const WriteNoAnswerUuids: set<Uuid> := {NanoXWriteWithoutResponseUuid, NanoFtsWriteWithoutResponseUuid}
  const NotifyUuids: set<Uuid> := {NanoXNotifyUuid, NanoFtsNotifyUuid}

  datatype GattCharacteristic = GattCharacteristic(uuid: Uuid)

  datatype GattService = GattService(uuid: Uuid, characteristics: seq<GattCharacteristic>)

  /**
   * What BleDeviceService.Builder collects from one service. The builder's own
   * checks in build() are not part of this model, so every slot may be empty.
   */
  datatype BleDeviceService = BleDeviceService(
    uuid: Uuid,
    writeCharacteristic: Option<GattCharacteristic>,
    writeNoAnswerCharacteristic: Option<GattCharacteristic>,
    notifyCharacteristic: Option<GattCharacteristic>)

  predicate IsLedgerService(uuid: Uuid) {
    uuid == NanoXServiceUuid || uuid == NanoFtsServiceUuid
  }

  /** The last characteristic of `cs` whose UUID is in `uuids`: the builder's setters overwrite. */
  function LastWith(cs: seq<GattCharacteristic>, uuids: set<Uuid>): Option<GattCharacteristic> {
    if cs == [] then None
    else if cs[|cs| - 1].uuid in uuids then Some(cs[|cs| - 1])
    else LastWith(cs[..|cs| - 1], uuids)
  }

  /**
   * A slot is empty exactly when no characteristic of its kind was discovered; otherwise
   * it holds one of that kind after which no other of that kind comes.
   */
  lemma {:induction false} LastWithIsLast(cs: seq<GattCharacteristic>, uuids: set<Uuid>)
    ensures LastWith(cs, uuids).None? <==> forall i :: 0 <= i < |cs| ==> cs[i].uuid !in uuids
    ensures LastWith(cs, uuids).Some? ==>
              exists i :: 0 <= i < |cs| && cs[i] == LastWith(cs, uuids).value && cs[i].uuid in uuids
                          && forall j :: i < j < |cs| ==> cs[j].uuid !in uuids
  {
    if cs != [] && cs[|cs| - 1].uuid !in uuids {
      var init := cs[..|cs| - 1];
      LastWithIsLast(init, uuids);
      assert forall i :: 0 <= i < |init| ==> init[i] == cs[i];
      if LastWith(cs, uuids).Some? {
        var i :| 0 <= i < |init| && init[i] == LastWith(init, uuids).value && init[i].uuid in uuids
                 && forall j :: i < j < |init| ==> init[j].uuid !in uuids;
        assert cs[i] == LastWith(cs, uuids).value;
      }
    }
  }

  lemma LastWithSnoc(cs: seq<GattCharacteristic>, c: GattCharacteristic, uuids: set<Uuid>)
    ensures LastWith(cs + [c], uuids) == if c.uuid in uuids then Some(c) else LastWith(cs, uuids)
  {
    assert (cs + [c])[..|cs|] == cs;
  }

  /** The device service the builder produces from `s`, slot by slot. */
  function DeviceServiceOf(s: GattService): BleDeviceService {
    BleDeviceService(
      s.uuid,
      LastWith(s.characteristics, WriteUuids),
      LastWith(s.characteristics, WriteNoAnswerUuids),
      LastWith(s.characteristics, NotifyUuids))
  }

  /** The last discovered service with a Ledger UUID: parseServices reassigns its result per match. */
  function LastLedgerService(services: seq<GattService>): Option<GattService> {
    if services == [] then None
    else if IsLedgerService(services[|services| - 1].uuid) then Some(services[|services| - 1])
    else LastLedgerService(services[..|services| - 1])
  }

  /**
   * No service is kept exactly when none has a Ledger UUID; otherwise the one kept has a
   * Ledger UUID and no later service has one.
   */
  lemma {:induction false} LastLedgerServiceIsLast(services: seq<GattService>)
    ensures LastLedgerService(services).None? <==> forall i :: 0 <= i < |services| ==> !IsLedgerService(services[i].uuid)
    ensures LastLedgerService(services).Some? ==>
              exists i :: 0 <= i < |services| && services[i] == LastLedgerService(services).value
                          && IsLedgerService(services[i].uuid)
                          && forall j :: i < j < |services| ==> !IsLedgerService(services[j].uuid)
  {
    if services != [] && !IsLedgerService(services[|services| - 1].uuid) {
      var init := services[..|services| - 1];
      LastLedgerServiceIsLast(init);
      assert forall i :: 0 <= i < |init| ==> init[i] == services[i];
      if LastLedgerService(services).Some? {
        var i :| 0 <= i < |init| && init[i] == LastLedgerService(init).value && IsLedgerService(init[i].uuid)
                 && forall j :: i < j < |init| ==> !IsLedgerService(init[j].uuid);
        assert services[i] == LastLedgerService(services).value;
      }
    }
  }

  /** The device service parseServices resolves from a discovery result, if any. */
  function ResolvedService(services: seq<GattService>): Option<BleDeviceService> {
    match LastLedgerService(services)
    case None => None
    case Some(s) => Some(DeviceServiceOf(s))
  }

  /**
   * BleDeviceService.Builder fed every characteristic of `s` in order: the `when`
   * on the characteristic UUID picks the write, write-without-response or notify slot.
   */
  method BuildDeviceService(s: GattService) returns (ds: BleDeviceService)
    ensures ds == DeviceServiceOf(s)
  {
    var write, writeNoAnswer, notify := None, None, None;
    var cs := s.characteristics;
    var i := 0;
    while i < |cs|
      invariant 0 <= i <= |cs|
      invariant write == LastWith(cs[..i], WriteUuids)
      invariant writeNoAnswer == LastWith(cs[..i], WriteNoAnswerUuids)
      invariant notify == LastWith(cs[..i], NotifyUuids)
    {
      var c := cs[i];
      assert cs[..i + 1] == cs[..i] + [c];
      LastWithSnoc(cs[..i], c, WriteUuids);
      LastWithSnoc(cs[..i], c, WriteNoAnswerUuids);
      LastWithSnoc(cs[..i], c, NotifyUuids);
      if c.uuid in WriteUuids {
        write := Some(c);
      } else if c.uuid in WriteNoAnswerUuids {
        writeNoAnswer := Some(c);
      } else if c.uuid in NotifyUuids {
        notify := Some(c);
      }
      i := i + 1;
    }
    assert cs[..i] == cs;
    ds := BleDeviceService(s.uuid, write, writeNoAnswer, notify);
  }

  /**
   * The service loop of parseServices (and of onServicesDiscovered for one service):
   * every service with a Ledger UUID is built and replaces the previous result.
   */
  method ParseServices(services: seq<GattService>) returns (r: Option<BleDeviceService>)
    ensures r == ResolvedService(services)
    ensures r.None? <==> forall i :: 0 <= i < |services| ==> !IsLedgerService(services[i].uuid)
  {
    r := None;
    var i := 0;
    while i < |services|
      invariant 0 <= i <= |services|
      invariant r == ResolvedService(services[..i])
    {
      assert services[..i + 1][..i] == services[..i];
      if IsLedgerService(services[i].uuid) {
        var ds := BuildDeviceService(services[i]);
        r := Some(ds);
      }
      i := i + 1;
    }
    assert services[..i] == services;
    LastLedgerServiceIsLast(services);
  }

  /**
   * The characteristic a frame is written to (sendCommand, GattInteractor.sendBytes):
   * write-without-response when the device has it, else write-with-response.
   */
  function WriteTarget(ds: BleDeviceService): (c: Option<GattCharacteristic>)
    ensures c.None? <==> ds.writeNoAnswerCharacteristic.None? && ds.writeCharacteristic.None?
  {
    if ds.writeNoAnswerCharacteristic.Some? then ds.writeNoAnswerCharacteristic else ds.writeCharacteristic
  }

  /**
   * For a service resolved by the builder, a frame has somewhere to go exactly when the
   * service has a write characteristic of either kind; the target is one of the
   * service's characteristics with a write UUID, and it is a write-without-response one
   * whenever the service has one.
   */
  lemma WriteTargetOfService(s: GattService)
    ensures var c := WriteTarget(DeviceServiceOf(s));
            && (c.None? <==> forall i :: 0 <= i < |s.characteristics| ==>
                               s.characteristics[i].uuid !in WriteUuids + WriteNoAnswerUuids)
            && (c.Some? ==> c.value in s.characteristics && c.value.uuid in WriteUuids + WriteNoAnswerUuids)
            && ((exists i :: 0 <= i < |s.characteristics| && s.characteristics[i].uuid in WriteNoAnswerUuids) ==>
                  c.Some? && c.value.uuid in WriteNoAnswerUuids)
  {
    LastWithIsLast(s.characteristics, WriteUuids);
    LastWithIsLast(s.characteristics, WriteNoAnswerUuids);
  }

  /** The slots of a resolved service only ever hold characteristics of their own kind. */
  lemma {:induction false} DeviceServiceSlots(s: GattService)
    ensures var ds := DeviceServiceOf(s);
            ds.uuid == s.uuid
            && (ds.writeCharacteristic.Some? ==> ds.writeCharacteristic.value.uuid in WriteUuids)
            && (ds.writeNoAnswerCharacteristic.Some? ==> ds.writeNoAnswerCharacteristic.value.uuid in WriteNoAnswerUuids)
            && (ds.notifyCharacteristic.Some? ==> ds.notifyCharacteristic.value.uuid in NotifyUuids)
  {
    LastWithIsLast(s.characteristics, WriteUuids);
    LastWithIsLast(s.characteristics, WriteNoAnswerUuids);
    LastWithIsLast(s.characteristics, NotifyUuids);
  }
}
