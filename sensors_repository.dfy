/** The cached sensor-telemetry repository of repositories/sensors.repository.ts.
    Unlike the device repository it replaces the cached record wholesale. */
module SensorsRepo {
  import opened Types
  import opened Stores
  import Ble
  import DeviceRepo

  class SensorsRepository {
    const ble: Ble.BleService
    const store: SensorsStore
    const serviceUuid: Ble.Uuid
    const characteristicUuid: Ble.Uuid

    constructor (ble: Ble.BleService, store: SensorsStore, serviceUuid: Ble.Uuid, characteristicUuid: Ble.Uuid)
      ensures this.ble == ble && this.store == store
      ensures this.serviceUuid == serviceUuid && this.characteristicUuid == characteristicUuid
    {
      this.ble := ble;
      this.store := store;
      this.serviceUuid := serviceUuid;
      this.characteristicUuid := characteristicUuid;
    }

    /** Fields missing from `d` do not survive from the previous record. */
    method SetData(d: SensorData, now: int)
      modifies store
      ensures store.data == Some(d) && store.lastUpdated == now
    {
      store.SetData(d, now);
    }

    method FetchData(outcome: Ble.ReadOutcome, decode: string -> Option<SensorData>, now: int) returns (success: bool)
      modifies ble`log, store
      ensures ble.log == old(ble.log) + [Ble.GatewayRead(serviceUuid, characteristicUuid)]
      ensures var p := DeviceRepo.Parsed(Ble.ReadResult(ble.connectedDevice.Some?, outcome), decode);
        && success == p.Some?
        && (success ==> store.data == p && store.lastUpdated == now)
        && (!success ==> store.data == old(store.data) && store.lastUpdated == old(store.lastUpdated))
    {
      var response := ble.ReadCharacteristic(serviceUuid, characteristicUuid, outcome);
      var parsed := DeviceRepo.Parsed(response, decode);
      if parsed.Some? {
        SetData(parsed.value, now);
        return true;
      }
      return false;
    }

    method GetData(fetch: bool, now: int, outcome: Ble.ReadOutcome, decode: string -> Option<SensorData>)
      returns (r: Option<SensorData>)
      modifies ble`log, store
      ensures !fetch && CacheFresh(old(store.lastUpdated), now) ==>
        && r == old(store.data) && ble.log == old(ble.log)
        && store.data == old(store.data) && store.lastUpdated == old(store.lastUpdated)
      ensures fetch || !CacheFresh(old(store.lastUpdated), now) ==>
        var p := DeviceRepo.Parsed(Ble.ReadResult(ble.connectedDevice.Some?, outcome), decode);
        && ble.log == old(ble.log) + [Ble.GatewayRead(serviceUuid, characteristicUuid)]
        && r == store.data
        && (p.Some? ==> r == p && store.lastUpdated == now)
        && (p.None? ==> r == old(store.data) && store.lastUpdated == old(store.lastUpdated))
    {
      var data := store.data;
      if !fetch && CacheFresh(store.lastUpdated, now) {
        return data;
      }
      var success := FetchData(outcome, decode, now);
      if !success {
        return data;
      }
      return store.data;
    }

    /** After a fetch at `t` that stored a record, an unforced `getData` within the next
        ten seconds returns that record without a second read. */
    method CachedAfterFetch(outcome: Ble.ReadOutcome, laterOutcome: Ble.ReadOutcome,
                            decode: string -> Option<SensorData>, t: int, later: int)
      returns (success: bool, r: Option<SensorData>)
      requires t <= later < t + CacheTtl
      modifies ble`log, store
      ensures var p := DeviceRepo.Parsed(Ble.ReadResult(ble.connectedDevice.Some?, outcome), decode);
        && success == p.Some?
        && (success ==>
              && r == p && r == store.data && store.lastUpdated == t
              && ble.log == old(ble.log) + [Ble.GatewayRead(serviceUuid, characteristicUuid)])
    {
      success := FetchData(outcome, decode, t);
      r := GetData(false, later, laterOutcome, decode);
    }

    method HandleLiveDataUpdate(d: SensorData, now: int)
      modifies store
      ensures store.data == Some(d) && store.lastUpdated == now
    {
      SetData(d, now);
    }
  }
}
