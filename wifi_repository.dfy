/** The Wi-Fi scan repository of repositories/wifi.repository.ts.  The device streams one
    JSON network per notification, then the sentinel `"done"` or `"fail"`. */
module WiFiRepo {
  import opened Types
  import opened Stores
  import Ble

  /** The first entry of the scan list with SSID `ssid`, as its index. */
  function FindSsid(data: seq<WiFiNetwork>, ssid: string): (r: Option<nat>)
    ensures r.Some? ==> r.value < |data| && data[r.value].ssid == ssid
    ensures r.Some? ==> forall j :: 0 <= j < r.value ==> data[j].ssid != ssid
    ensures r.None? <==> forall j :: 0 <= j < |data| ==> data[j].ssid != ssid
  {
    if data == [] then None
    else if data[0].ssid == ssid then Some(0)
    else match FindSsid(data[1..], ssid)
      case None => None
      case Some(i) => Some(i + 1)
  }

  /** No two entries share an SSID. */
  predicate UniqueSsids(data: seq<WiFiNetwork>)
  {
    forall i, j :: 0 <= i < j < |data| ==> data[i].ssid != data[j].ssid
  }

  /** The scan list after network `n` arrives: a known SSID keeps its entry and takes the
      smaller of the two readings (`Math.min`); an unknown one is appended. */
  function FoldNetwork(data: seq<WiFiNetwork>, n: WiFiNetwork): (r: seq<WiFiNetwork>)
    ensures |data| <= |r| <= |data| + 1
    ensures FindSsid(r, n.ssid).Some?
  {
    match FindSsid(data, n.ssid)
    case None =>
      var r := data + [n];
      assert r[|data|] == n;
      r
    case Some(i) =>
      var r := data[i := WiFiNetwork(data[i].ssid, if data[i].rssi <= n.rssi then data[i].rssi else n.rssi)];
      assert r[i].ssid == n.ssid;
      r
  }

  /** An unknown SSID is appended at the end and nothing before it changes. */
  lemma FoldNewSsid(data: seq<WiFiNetwork>, n: WiFiNetwork)
    requires forall j :: 0 <= j < |data| ==> data[j].ssid != n.ssid
    ensures |FoldNetwork(data, n)| == |data| + 1
    ensures FoldNetwork(data, n)[..|data|] == data && FoldNetwork(data, n)[|data|] == n
  {
    assert FindSsid(data, n.ssid).None?;
  }

  /** A known SSID keeps the list's length, keeps the weaker (smaller) reading in its first
      entry, and leaves every other entry alone. */
  lemma FoldKnownSsid(data: seq<WiFiNetwork>, n: WiFiNetwork, i: nat)
    requires i < |data| && data[i].ssid == n.ssid
    requires forall j :: 0 <= j < i ==> data[j].ssid != n.ssid
    ensures |FoldNetwork(data, n)| == |data|
    ensures FoldNetwork(data, n)[i] == WiFiNetwork(n.ssid, if data[i].rssi < n.rssi then data[i].rssi else n.rssi)
    ensures forall j :: 0 <= j < |data| && j != i ==> FoldNetwork(data, n)[j] == data[j]
  {
    assert FindSsid(data, n.ssid) == Some(i);
  }

  /** SSIDs that are unique before an update are unique after it. */
  lemma FoldKeepsUnique(data: seq<WiFiNetwork>, n: WiFiNetwork)
    requires UniqueSsids(data)
    ensures UniqueSsids(FoldNetwork(data, n))
  {
    var r := FoldNetwork(data, n);
    match FindSsid(data, n.ssid)
    case None =>
      forall i, j | 0 <= i < j < |r|
        ensures r[i].ssid != r[j].ssid
      {
        if j == |data| {
          assert r[i] == data[i];
        }
      }
    case Some(k) =>
      forall i, j | 0 <= i < j < |r|
        ensures r[i].ssid != r[j].ssid
      {
        assert r[i].ssid == data[i].ssid && r[j].ssid == data[j].ssid;
      }
  }

  /** Two readings of one network leave the weaker of them. */
  lemma WeakerReadingKept()
    ensures FoldNetwork([WiFiNetwork("garden", -60)], WiFiNetwork("garden", -80)) == [WiFiNetwork("garden", -80)]
    ensures FoldNetwork([WiFiNetwork("garden", -80)], WiFiNetwork("garden", -60)) == [WiFiNetwork("garden", -80)]
  {
    assert FindSsid([WiFiNetwork("garden", -60)], "garden") == Some(0);
    assert FindSsid([WiFiNetwork("garden", -80)], "garden") == Some(0);
  }

  /** The payloads that end a scan. */
  predicate Sentinel(raw: string)
  {
    raw == "done" || raw == "fail"
  }

  class WiFiRepository {
    const ble: Ble.BleService
    const store: WiFiScanStore
    const serviceUuid: Ble.Uuid
    const characteristicUuid: Ble.Uuid
    var currentLiveSubscription: Option<Ble.SubscriptionId>

    constructor (ble: Ble.BleService, store: WiFiScanStore, serviceUuid: Ble.Uuid, characteristicUuid: Ble.Uuid)
      ensures this.ble == ble && this.store == store
      ensures this.serviceUuid == serviceUuid && this.characteristicUuid == characteristicUuid
      ensures currentLiveSubscription == None
    {
      this.ble := ble;
      this.store := store;
      this.serviceUuid := serviceUuid;
      this.characteristicUuid := characteristicUuid;
      currentLiveSubscription := None;
    }

    /** Refuses while a scan is running; otherwise clears the list and asks the device to
        scan, and reports success whatever the write resolves to. */
    method StartScan(outcome: Ble.WriteOutcome) returns (started: bool)
      modifies ble`log, store
      ensures old(store.status) == Some(Scanning) ==>
        && !started && ble.log == old(ble.log)
        && store.status == old(store.status) && store.data == old(store.data)
      ensures old(store.status) != Some(Scanning) ==>
        && started && store.status == Some(Scanning) && store.data == []
        && ble.log == old(ble.log) + [Ble.GatewayWrite(serviceUuid, characteristicUuid, "scan")]
    {
      if store.status == Some(Scanning) {
        return false;
      }
      store.SetStatus(Scanning);
      store.ResetData();
      var _ := ble.WriteCharacteristicWithResponse(serviceUuid, characteristicUuid, "scan", outcome);
      return true;
    }

    /** One payload from the monitor.  A network's reading is lowered in place, on the
        entry the store already holds, without going through the store's setters. */
    method HandleLiveDataUpdate(raw: string, decode: string -> Option<WiFiNetwork>)
      requires !Sentinel(raw) ==> decode(raw).Some?
      modifies store
      ensures raw == "done" ==> store.status == Some(Scanned) && store.data == old(store.data)
      ensures raw == "fail" ==> store.status == Some(Failed) && store.data == old(store.data)
      ensures !Sentinel(raw) ==>
        store.status == old(store.status) && store.data == FoldNetwork(old(store.data), decode(raw).value)
    {
      if raw == "done" {
        store.SetStatus(Scanned);
        return;
      }
      if raw == "fail" {
        store.SetStatus(Failed);
        return;
      }
      var n := decode(raw).value;
      var found := FindSsid(store.data, n.ssid);
      if found.Some? {
        var i := found.value;
        var rssi := if store.data[i].rssi <= n.rssi then store.data[i].rssi else n.rssi;
        store.data := store.data[i := WiFiNetwork(store.data[i].ssid, rssi)];
        return;
      }
      store.AddData(n);
    }

    /** The monitor callback bound to `handleLiveDataUpdate`: what the gateway forwards of
        notification `n` is handled, and everything else is dropped. */
    method OnNotification(n: Ble.Notification, decode: string -> Option<WiFiNetwork>)
      requires Ble.Forwarded(n).Some? && !Sentinel(Ble.Forwarded(n).value) ==> decode(Ble.Forwarded(n).value).Some?
      modifies store
      ensures Ble.Forwarded(n).None? ==> store.status == old(store.status) && store.data == old(store.data)
      ensures Ble.Forwarded(n) == Some("done") ==> store.status == Some(Scanned) && store.data == old(store.data)
      ensures Ble.Forwarded(n) == Some("fail") ==> store.status == Some(Failed) && store.data == old(store.data)
      ensures Ble.Forwarded(n).Some? && !Sentinel(Ble.Forwarded(n).value) ==>
        store.status == old(store.status) && store.data == FoldNetwork(old(store.data), decode(Ble.Forwarded(n).value).value)
    {
      var v := Ble.Forwarded(n);
      if v.Some? {
        HandleLiveDataUpdate(v.value, decode);
      }
    }

    /** Removes the previous monitor subscription, if any, then opens and keeps a new one. */
    method StartLiveListening() returns (r: Option<Ble.SubscriptionId>)
      requires ble.Valid()
      modifies this`currentLiveSubscription, ble`log, ble`monitors, ble`nextSubscription
      ensures ble.Valid()
      ensures r == currentLiveSubscription
      ensures ble.connectedDevice.None? ==> r == None
      ensures var removed := if old(currentLiveSubscription).Some? then old(ble.monitors) - {old(currentLiveSubscription).value} else old(ble.monitors);
        && ble.log == old(ble.log) + Ble.RemovalEvents(old(currentLiveSubscription)) + [Ble.GatewayMonitor(serviceUuid, characteristicUuid)]
        && (r.None? ==> ble.monitors == removed)
        && (r.Some? ==> r.value !in removed && ble.monitors == removed + {r.value})
    {
      if currentLiveSubscription.Some? {
        ble.RemoveMonitor(currentLiveSubscription.value);
      }
      r := ble.MonitorCharacteristic(serviceUuid, characteristicUuid);
      currentLiveSubscription := r;
    }
  }
}
