/** The cached device-configuration repository of repositories/device.repository.ts.
    JSON parsing and printing are parameters: `decode` is `JSON.parse` followed by the
    truthiness test (it yields `None` for a falsy result), `encode` is `JSON.stringify`. */
module DeviceRepo {
  import opened Types
  import opened Stores
  import Ble

  /** The record with every field `null`: the bottom layer of the merge. */
  const NullConfig := DeviceConfig(None, None, None, None, None)

  /** The all-null record, overlaid by the cached record, overlaid by the patch; a missing
      cache contributes no keys. */
  function Merge(cached: Option<DeviceConfig>, patch: DevicePatch): (r: DeviceConfig)
    ensures patch.deviceName.Present? ==> r.deviceName == patch.deviceName.value
    ensures patch.powerMode.Present? ==> r.powerMode == patch.powerMode.value
    ensures patch.wifiSsid.Present? ==> r.wifiSsid == patch.wifiSsid.value
    ensures patch.wifiPassword.Present? ==> r.wifiPassword == patch.wifiPassword.value
    ensures patch.apiKey.Present? ==> r.apiKey == patch.apiKey.value
    ensures patch.deviceName.Absent? ==> r.deviceName == (if cached.Some? then cached.value.deviceName else None)
    ensures patch.powerMode.Absent? ==> r.powerMode == (if cached.Some? then cached.value.powerMode else None)
    ensures patch.wifiSsid.Absent? ==> r.wifiSsid == (if cached.Some? then cached.value.wifiSsid else None)
    ensures patch.wifiPassword.Absent? ==> r.wifiPassword == (if cached.Some? then cached.value.wifiPassword else None)
    ensures patch.apiKey.Absent? ==> r.apiKey == (if cached.Some? then cached.value.apiKey else None)
  {
    var base := if cached.Some? then cached.value else NullConfig;
    DeviceConfig(
      Spread(base.deviceName, patch.deviceName),
      Spread(base.powerMode, patch.powerMode),
      Spread(base.wifiSsid, patch.wifiSsid),
      Spread(base.wifiPassword, patch.wifiPassword),
      Spread(base.apiKey, patch.apiKey))
  }

  /** The patch that spreads `second` over `first`. */
  function Then(first: DevicePatch, second: DevicePatch): DevicePatch
  {
    DevicePatch(
      if second.deviceName.Present? then second.deviceName else first.deviceName,
      if second.powerMode.Present? then second.powerMode else first.powerMode,
      if second.wifiSsid.Present? then second.wifiSsid else first.wifiSsid,
      if second.wifiPassword.Present? then second.wifiPassword else first.wifiPassword,
      if second.apiKey.Present? then second.apiKey else first.apiKey)
  }

  /** Merging the same patch twice is merging it once. */
  lemma MergeIdempotent(cached: Option<DeviceConfig>, patch: DevicePatch)
    ensures Merge(Some(Merge(cached, patch)), patch) == Merge(cached, patch)
  {
  }

  /** A patch without keys keeps a cached record and fills a missing one with nulls. */
  lemma MergeEmpty(cached: Option<DeviceConfig>)
    ensures cached.Some? ==> Merge(cached, EmptyPatch) == cached.value
    ensures cached.None? ==> Merge(cached, EmptyPatch) == NullConfig
  {
  }

  /** Two successive merges are one merge of the combined patch. */
  lemma MergeThen(cached: Option<DeviceConfig>, first: DevicePatch, second: DevicePatch)
    ensures Merge(Some(Merge(cached, first)), second) == Merge(cached, Then(first, second))
  {
  }

  /** What `fetchData` hands to `setData`: the parse of a non-empty response, when truthy. */
  function Parsed<T>(response: Option<string>, decode: string -> Option<T>): (p: Option<T>)
    ensures response.None? || response == Some("") ==> p.None?
    ensures response.Some? && response.value != "" ==> p == decode(response.value)
  {
    if response.Some? && response.value != "" then decode(response.value) else None
  }

  /** A read resolves to something to parse only on a connected device with a non-empty value. */
  lemma ParsedRead(connected: bool, outcome: Ble.ReadOutcome, decode: string -> Option<DevicePatch>)
    ensures Parsed(Ble.ReadResult(connected, outcome), decode).Some? ==>
      connected && outcome.ReadValue? && outcome.value.Some? && outcome.value.value != ""
      && Parsed(Ble.ReadResult(connected, outcome), decode) == decode(outcome.value.value)
  {
  }

  class DeviceRepository {
    const ble: Ble.BleService
    const store: DeviceStore
    const serviceUuid: Ble.Uuid
    const characteristicUuid: Ble.Uuid

    constructor (ble: Ble.BleService, store: DeviceStore, serviceUuid: Ble.Uuid, characteristicUuid: Ble.Uuid)
      ensures this.ble == ble && this.store == store
      ensures this.serviceUuid == serviceUuid && this.characteristicUuid == characteristicUuid
    {
      this.ble := ble;
      this.store := store;
      this.serviceUuid := serviceUuid;
      this.characteristicUuid := characteristicUuid;
    }

    method SetData(patch: DevicePatch, now: int)
      modifies store
      ensures store.data == Some(Merge(old(store.data), patch)) && store.lastUpdated == now
    {
      store.SetData(Merge(store.data, patch), now);
    }

    /** One read of the device characteristic; the cache changes only on a truthy parse. */
    method FetchData(outcome: Ble.ReadOutcome, decode: string -> Option<DevicePatch>, now: int) returns (success: bool)
      modifies ble`log, store
      ensures ble.log == old(ble.log) + [Ble.GatewayRead(serviceUuid, characteristicUuid)]
      ensures var p := Parsed(Ble.ReadResult(ble.connectedDevice.Some?, outcome), decode);
        && success == p.Some?
        && (success ==> store.data == Some(Merge(old(store.data), p.value)) && store.lastUpdated == now)
        && (!success ==> store.data == old(store.data) && store.lastUpdated == old(store.lastUpdated))
    {
      var response := ble.ReadCharacteristic(serviceUuid, characteristicUuid, outcome);
      var parsed := Parsed(response, decode);
      if parsed.Some? {
        SetData(parsed.value, now);
        return true;
      }
      return false;
    }

    /** `getData(fetch)`: the cache while it is fresh and no fetch is forced; otherwise one
        read, then the store's new record, or the previous one when the read gave nothing. */
    method GetData(fetch: bool, now: int, outcome: Ble.ReadOutcome, decode: string -> Option<DevicePatch>)
      returns (r: Option<DeviceConfig>)
      modifies ble`log, store
      ensures !fetch && CacheFresh(old(store.lastUpdated), now) ==>
        && r == old(store.data) && ble.log == old(ble.log)
        && store.data == old(store.data) && store.lastUpdated == old(store.lastUpdated)
      ensures fetch || !CacheFresh(old(store.lastUpdated), now) ==>
        var p := Parsed(Ble.ReadResult(ble.connectedDevice.Some?, outcome), decode);
        && ble.log == old(ble.log) + [Ble.GatewayRead(serviceUuid, characteristicUuid)]
        && r == store.data
        && (p.Some? ==> r == Some(Merge(old(store.data), p.value)) && store.lastUpdated == now)
        && (p.None? ==> r == old(store.data) && store.lastUpdated == old(store.lastUpdated))
    {
      var data := store.data;
      if !fetch && CacheFresh(store.lastUpdated, now) {
        return data;
      }
      var success := FetchData(outcome, decode, now);
      if !success {
        return data;
      }
      return store.data;
    }

    /** The ten-second window: after a fetch at `t` that stored a record, a later unforced
        `getData` within the window is answered from the cache with no second read. */
    method CachedAfterFetch(outcome: Ble.ReadOutcome, laterOutcome: Ble.ReadOutcome,
                            decode: string -> Option<DevicePatch>, t: int, later: int)
      returns (success: bool, r: Option<DeviceConfig>)
      requires t <= later < t + CacheTtl
      modifies ble`log, store
      ensures var p := Parsed(Ble.ReadResult(ble.connectedDevice.Some?, outcome), decode);
        && success == p.Some?
        && (success ==>
              && r == Some(Merge(old(store.data), p.value)) && r == store.data && store.lastUpdated == t
              && ble.log == old(ble.log) + [Ble.GatewayRead(serviceUuid, characteristicUuid)])
    {
      success := FetchData(outcome, decode, t);
      r := GetData(false, later, laterOutcome, decode);
    }

    /** Writes the encoded patch; only an acknowledged write merges it into the cache. */
    method UpdateData(patch: DevicePatch, encode: DevicePatch -> string, outcome: Ble.WriteOutcome, now: int)
      returns (success: bool)
      modifies ble`log, store
      ensures ble.log == old(ble.log) + [Ble.GatewayWrite(serviceUuid, characteristicUuid, encode(patch))]
      ensures success == Ble.WriteResult(ble.connectedDevice.Some?, outcome).Some?
      ensures success ==> store.data == Some(Merge(old(store.data), patch)) && store.lastUpdated == now
      ensures !success ==> store.data == old(store.data) && store.lastUpdated == old(store.lastUpdated)
    {
      var response := ble.WriteCharacteristicWithResponse(serviceUuid, characteristicUuid, encode(patch), outcome);
      if response.Some? {
        SetData(patch, now);
        return true;
      }
      return false;
    }
  }
}
