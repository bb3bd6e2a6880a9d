/** The device list of app/scan/ScanScreen.tsx: the `handleScan` updater, the scanning
    guard, `onStop` and `handleScanReset`.  The native scan is an event source: each device
    it reports is an `OnDeviceFound` call, its timeout an `OnStop` call. */
module ScanScreen {
  import opened Types
  import Ble

  datatype ScanState = Default | Scanning | Scanned

  /** The label a falsy device name is replaced by. */
  const UnnamedDevice := "Unnamed Device"

  predicate Listed(devices: seq<Ble.StrippedDevice>, id: Ble.DeviceId)
  {
    exists k :: 0 <= k < |devices| && devices[k].id == id
  }

  /** No two listed devices share an id. */
  predicate UniqueIds(devices: seq<Ble.StrippedDevice>)
  {
    forall i, j :: 0 <= i < j < |devices| ==> devices[i].id != devices[j].id
  }

  /** `name || 'Unnamed Device'` */
  function DisplayName(name: Option<string>): (n: string)
    ensures n != ""
    ensures name.Some? && name.value != "" ==> n == name.value
  {
    if name.Some? && name.value != "" then name.value else UnnamedDevice
  }

  /** The `setDevices` updater: a listed id leaves the list as it is; a new device is
      appended, with its name made truthy and its other fields kept. */
  function AddDevice(prev: seq<Ble.StrippedDevice>, d: Ble.StrippedDevice): (next: seq<Ble.StrippedDevice>)
    ensures Listed(prev, d.id) ==> next == prev
    ensures !Listed(prev, d.id) ==>
      next == prev + [Ble.StrippedDevice(d.id, Some(DisplayName(d.name)), d.isConnectable)]
  {
    if exists k :: 0 <= k < |prev| && prev[k].id == d.id then prev
    else prev + [d.(name := Some(if d.name.Some? && d.name.value != "" then d.name.value else UnnamedDevice))]
  }

  /** Ids stay unique whatever the scan reports. */
  lemma AddDeviceKeepsUnique(prev: seq<Ble.StrippedDevice>, d: Ble.StrippedDevice)
    requires UniqueIds(prev)
    ensures UniqueIds(AddDevice(prev, d))
    ensures Listed(AddDevice(prev, d), d.id)
  {
    if !Listed(prev, d.id) {
      var next := AddDevice(prev, d);
      assert next[|prev|].id == d.id;
      forall i, j | 0 <= i < j < |next|
        ensures next[i].id != next[j].id
      {
        if j == |prev| {
          assert next[i] == prev[i];
        }
      }
    }
  }

  class ScanScreen {
    var state: ScanState
    var devices: seq<Ble.StrippedDevice>

    ghost predicate Valid()
      reads this
    {
      UniqueIds(devices)
    }

    constructor ()
      ensures Valid() && state == ScanState.Default && devices == []
    {
      state := ScanState.Default;
      devices := [];
    }

    /** Does nothing while a scan is running; otherwise clears the list and starts one. */
    method HandleScan()
      requires Valid()
      modifies this
      ensures Valid()
      ensures old(state) == ScanState.Scanning ==> state == ScanState.Scanning && devices == old(devices)
      ensures old(state) != ScanState.Scanning ==> state == ScanState.Scanning && devices == []
    {
      if state == ScanState.Scanning {
        return;
      }
      devices := [];
      state := ScanState.Scanning;
    }

    /** The scan callback: a device that says it is not connectable is skipped. */
    method OnDeviceFound(d: Ble.StrippedDevice)
      requires Valid()
      modifies this`devices
      ensures Valid()
      ensures d.isConnectable == Some(false) ==> devices == old(devices)
      ensures d.isConnectable != Some(false) ==> devices == AddDevice(old(devices), d)
    {
      if d.isConnectable == Some(false) {
        return;
      }
      AddDeviceKeepsUnique(devices, d);
      devices := AddDevice(devices, d);
    }

    method OnStop()
      modifies this`state
      ensures state == ScanState.Scanned
    {
      state := ScanState.Scanned;
    }

    method HandleScanReset()
      modifies this
      ensures Valid() && state == ScanState.Default && devices == []
    {
      devices := [];
      state := ScanState.Default;
    }
  }
}
