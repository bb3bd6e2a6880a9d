/** Value types shared by the connection manager, the stores and the repositories
    (types/device.ts, types/sensors.ts, types/wifi.ts, services/ble.service.ts). */
module Types {

  /** JavaScript's `null`/`undefined` for a value that may be missing. */
  datatype Option<+T> = None | Some(value: T)

  /** A key of a `Partial<...>` object: absent, or present with a value.
      Spreading a present key overrides the base; spreading an absent one keeps it. */
  datatype Field<+T> = Absent | Present(value: T)

  function Spread<T>(base: T, f: Field<T>): T
  {
    match f
    case Absent => base
    case Present(v) => v
  }

  /** The connection-manager states (services/ble.service.ts:11). */
  datatype ConnectionState = Connecting | Connected | Disconnected | Reconnecting

  /** The device configuration record with its five nullable fields
      (`device_name`, `power_mode`, `wifi_ssid`, `wifi_password`, `api_key`). */
  datatype DeviceConfig = DeviceConfig(
    deviceName: Option<string>,
    powerMode: Option<string>,
    wifiSsid: Option<string>,
    wifiPassword: Option<string>,
    apiKey: Option<string>)

  /** `Partial<DeviceConfig>`: each key absent, or present with a value that may itself be `null`. */
  datatype DevicePatch = DevicePatch(
    deviceName: Field<Option<string>>,
    powerMode: Field<Option<string>>,
    wifiSsid: Field<Option<string>>,
    wifiPassword: Field<Option<string>>,
    apiKey: Field<Option<string>>)

  /** The patch with no keys at all. */
  const EmptyPatch := DevicePatch(Absent, Absent, Absent, Absent, Absent)

  /** Wi-Fi link state reported by the device's sensor characteristic. */
  datatype WifiStatus = WifiDisconnected | WifiConnecting | WifiConnected

  /** `SensorData`: every telemetry field is optional. */
  datatype SensorData = SensorData(
    wifi: Option<WifiStatus>,
    battery: Option<string>,
    charger: Option<string>,
    airTemp: Option<string>,
    airHum: Option<string>,
    airPress: Option<string>,
    soil: Option<string>,
    light: Option<string>)

  /** One network reported by a Wi-Fi scan; `rssi` is a signed dBm reading. */
  datatype WiFiNetwork = WiFiNetwork(ssid: string, rssi: int)

  datatype WiFiScanStatus = Scanning | Scanned | Failed
}
