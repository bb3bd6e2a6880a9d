/** The three Zustand stores that back the repositories (hooks/useDeviceStore.ts,
    hooks/useSensorsStore.ts, hooks/useWiFiScanStore.ts).  Each store is one shared object
    whose fields its setters overwrite; the current time is a parameter. */
module Stores {
  import opened Types

  /** How long, in milliseconds, the repositories trust a cached record. */
  const CacheTtl := 10000

  /** The repositories' freshness test: a record is fresh while fewer than `CacheTtl`
      milliseconds have passed since it was stored. */
  predicate CacheFresh(lastUpdated: int, now: int)
  {
    lastUpdated + CacheTtl > now
  }

  /** `useDeviceStore` */
  class DeviceStore {
    var data: Option<DeviceConfig>
    var lastUpdated: int

    constructor ()
      ensures data == None && lastUpdated == 0
      ensures forall now :: now >= CacheTtl ==> !CacheFresh(lastUpdated, now)
    {
      data := None;
      lastUpdated := 0;
    }

    method SetData(d: DeviceConfig, now: int)
      modifies this
      ensures data == Some(d) && lastUpdated == now
    {
      data := Some(d);
      lastUpdated := now;
    }
  }

  /** `useSensorStore` */
  class SensorsStore {
    var data: Option<SensorData>
    var lastUpdated: int

    constructor ()
      ensures data == None && lastUpdated == 0
      ensures forall now :: now >= CacheTtl ==> !CacheFresh(lastUpdated, now)
    {
      data := None;
      lastUpdated := 0;
    }

    method SetData(d: SensorData, now: int)
      modifies this
      ensures data == Some(d) && lastUpdated == now
    {
      data := Some(d);
      lastUpdated := now;
    }
  }

  /** `useWiFiScanStore`, extended with the `status` field and its setter that the Wi-Fi
      repository reads and writes; the status starts out missing. */
  class WiFiScanStore {
    var data: seq<WiFiNetwork>
    var status: Option<WiFiScanStatus>

    constructor ()
      ensures data == [] && status == None
    {
      data := [];
      status := None;
    }

    method ResetData()
      modifies this`data
      ensures data == []
    {
      data := [];
    }

    /** Appends without looking for an entry with the same SSID. */
    method AddData(n: WiFiNetwork)
      modifies this`data
      ensures data == old(data) + [n]
      ensures |data| == |old(data)| + 1 && data[..|old(data)|] == old(data) && data[|old(data)|] == n
    {
      data := data + [n];
    }

    method SetStatus(s: WiFiScanStatus)
      modifies this`status
      ensures status == Some(s)
    {
      status := Some(s);
    }
  }
}
