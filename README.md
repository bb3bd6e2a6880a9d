# Smart-garden mobile app: a Dafny model of its BLE core

The app is a React Native client. It drives a garden controller over Bluetooth Low
Energy. This project models the app's core in Dafny and proves properties of that model.

- **Connection manager** (`BLEService`). This is a state machine over `connecting`,
  `connected`, `disconnected` and `reconnecting`. It has the following parts:
  - a registry of state listeners;
  - the connect, disconnect and reconnect-once-after-a-drop protocol;
  - a disconnect subscription, which is re-armed on every successful connection;
  - the read, write and monitor gateway to GATT characteristics.
- **Cached repositories**:
  - device configuration: a three-layer merge with a ten-second freshness window;
  - sensor telemetry: replaced wholesale on every update;
  - Wi-Fi scan results: a scan guard, the `"done"`/`"fail"` sentinels, and results
    folded by SSID.
- **Zustand stores** behind the repositories.
- **Pure helpers of the UI**:
  - the command encoder;
  - `hexToRGBA` and palette selection;
  - the scan-list updater;
  - the configuration form's `hasChanges`;
  - the colour and label of each connection state.

Each source file is one module:

| module | source |
|---|---|
| `Types` | `types/*.ts` |
| `Ble` | `services/ble.service.ts` |
| `Stores` | `hooks/use*Store.ts` |
| `DeviceRepo` | `repositories/device.repository.ts` |
| `SensorsRepo` | `repositories/sensors.repository.ts` |
| `WiFiRepo` | `repositories/wifi.repository.ts` |
| `Controller` | `controllers/device.controller.ts` |
| `Theme` | `hooks/useTheme.ts` |
| `ScanScreen` | `app/scan/ScanScreen.tsx` |
| `DeviceScreens` | `app/device/DeviceConfigScreen.tsx` and `app/device/DeviceScreen.tsx` |

Objects whose fields the source overwrites are classes. These are the connection
manager, the stores, the repositories and the scan screen's component state.

Each transport call completes atomically, and its outcome is a parameter of the method
that makes it:
- a connect yields a device, no device, a connect error, or an error in service discovery;
- a read or write yields a decoded value or an error;
- a monitor yields a stream of notifications.

Other inputs are parameters too:
- the clock is a `now` argument;
- JSON parsing and printing are function arguments.

The connection manager keeps ghost state recording what an observer can see:
- `trace`: every broadcast state, in order;
- `log`: every listener call, transport call and gateway call;
- `armed`: the disconnect subscriptions that are still live;
- `monitors`: the monitor subscriptions that are still live.

The model reproduces the following behaviour of the code as written:
- An `OperationCancelled` or `DeviceDisconnected` error during connect leaves
  `connecting` set.
- A removed disconnect subscription is never nulled.
- `Math.min` keeps the *weaker* RSSI reading.
- `replace('#', '')` strips only the first `#`.
- Three-digit colours are not expanded: `#fff` is `rgb(0, 15, 255)`.

One invariant one might expect does not hold for the code, and the model follows the
code. The expected invariant is that a `disconnected` broadcast means no connection is
held. But when service discovery throws a non-silent error, `connectToDevice` broadcasts
`disconnected` and keeps the device handle. In the model, `Ble.BleService.ConnectFailed`
ends with `connectedDevice == Some(deviceId)` for a `DiscoveryError`.

## Model

| member | source | states |
|---|---|---|
| Ble.BleService.constructor | services/ble.service.ts:14-38 | the manager starts with no device, no remembered id, no listeners, not connecting, no subscription, and nothing broadcast or armed |
| Ble.BleService.AddConnectionStateListener | services/ble.service.ts:187-189 | registering appends the listener at the end |
| Ble.BleService.RemoveConnectionStateListener | services/ble.service.ts:191-193 | the registry becomes the filtered one, `Without(old, l)` |
| Ble.Without | services/ble.service.ts:192 | the filtered registry is never longer than the old one; its membership, counts and order are the three lemmas below |
| Ble.WithoutMembers | services/ble.service.ts:191-193 | after removal `l` is nowhere in the registry, and every other listener is still there (both directions) |
| Ble.WithoutCounts | services/ble.service.ts:191-193 | removal keeps each other listener's number of registrations and drops all of `l`'s |
| Ble.WithoutAppend | services/ble.service.ts:191-193 | removal distributes over concatenation, so the remaining listeners keep their order |
| Ble.WithoutAbsent | services/ble.service.ts:191-193 | removing an unregistered listener changes nothing |
| Ble.BleService.NotifyStateChange | services/ble.service.ts:195-197 | a broadcast appends the state to the trace and calls every listener once, in registration order, with that same state |
| Ble.Deliveries | services/ble.service.ts:196 | one listener call per registration, each delivering the broadcast state to a registered listener |
| Ble.BleService.RemoveDisconnectSubscription | services/ble.service.ts:136 | the stored subscription, if any, is disarmed and its removal logged; the field keeps the handle |
| Ble.BleService.ArmDisconnectSubscription | services/ble.service.ts:109 | exactly one fresh subscription is armed and stored |
| Ble.BleService.Established | services/ble.service.ts:103-109 | after a successful link `connected` is broadcast, then the old subscription is removed and exactly one new one is armed |
| Ble.BleService.ConnectToDevice | services/ble.service.ts:78-128 | a pending connect is first cancelled by a full disconnect; `connecting` is broadcast before the transport connect; the result and the new state for each of the four outcomes |
| Ble.BleService.OpenConnection | services/ble.service.ts:82-127 | success: `connected` is the last broadcast, one new subscription is armed, the remembered id is the device's, `connecting` is cleared and the device is returned |
| Ble.BleService.ConnectFailed | services/ble.service.ts:110-127 | no device: `disconnected` is broadcast, the remembered id is nulled and `connecting` is cleared; a silent error returns with no broadcast and `connecting` still set; any other error broadcasts `disconnected` and clears `connecting` |
| Ble.SilentConnectError | services/ble.service.ts:119-120 | the connect errors swallowed without a broadcast are exactly `DeviceDisconnected` and `OperationCancelled`; `ConnectFailed` broadcasts for every other code |
| Ble.BleService.DisconnectFromDevice | services/ble.service.ts:130-152 | with no device it is a no-op with no broadcast; otherwise the subscription is removed before the transport cancel, the device is dropped, and `disconnected` is broadcast last; the subscription field is not nulled |
| Ble.BleService.DisconnectHandler | services/ble.service.ts:72-76 | a drop records the time and broadcasts `disconnected`, then makes at most one reconnect attempt, after which `connecting` is false |
| Ble.BleService.AttemptReconnect | services/ble.service.ts:154-185 | with no remembered id nothing happens; otherwise `reconnecting` is broadcast and exactly one connect is made, ending in `connected` with the subscription re-armed or in `disconnected` with no device; `connecting` is false afterwards |
| Ble.BleService.ReconnectFailed | services/ble.service.ts:174-181 | every failed reconnect broadcasts `disconnected` and leaves no device |
| Ble.ReadResult | services/ble.service.ts:223-247 | a read gives nothing without a device, on an error of any code, or on a missing or empty value; otherwise it gives the value (both directions) |
| Ble.BleService.ReadCharacteristic | services/ble.service.ts:223-247 | the read is logged and resolves to `ReadResult` |
| Ble.WriteResult | services/ble.service.ts:249-266 | a write gives nothing without a device, on any error, or on an empty response; otherwise it gives the response |
| Ble.BleService.WriteCharacteristicWithResponse | services/ble.service.ts:249-266 | the write of exactly `value` is logged and resolves to `WriteResult` |
| Ble.Forwarded | services/ble.service.ts:205-218 | a monitor callback drops every error and every notification without a value, and hands on the value otherwise |
| Ble.BleService.MonitorCharacteristic | services/ble.service.ts:199-219 | without a device it returns null; otherwise it returns a fresh monitor subscription and tracks it as live |
| Ble.BleService.RemoveMonitor | repositories/wifi.repository.ts:60 | removing a monitor subscription makes it no longer live |
| Stores.CacheFresh | repositories/device.repository.ts:57 | the freshness test itself: a record stamped `lastUpdated` is trusted while fewer than 10000 ms have passed; `CachedAfterFetch` below is what it promises a caller |
| Stores.DeviceStore.constructor | hooks/useDeviceStore.ts:10-12 | the store starts with no data and `lastUpdated == 0`, so any time `now >= 10000` fails the freshness check |
| Stores.DeviceStore.SetData | hooks/useDeviceStore.ts:13-16 | the data becomes exactly the record, and `lastUpdated` the current time |
| Stores.SensorsStore.constructor | hooks/useSensorsStore.ts:10-12 | the store starts with no data and `lastUpdated == 0`, so any time `now >= 10000` fails the freshness check |
| Stores.SensorsStore.SetData | hooks/useSensorsStore.ts:13-16 | the data becomes exactly the record, and `lastUpdated` the current time |
| Stores.WiFiScanStore.constructor | hooks/useWiFiScanStore.ts:10-11 | the scan list starts empty; the status, which the model adds to this store, starts out missing |
| Stores.WiFiScanStore.ResetData | hooks/useWiFiScanStore.ts:12 | the list is empty whatever it held |
| Stores.WiFiScanStore.AddData | hooks/useWiFiScanStore.ts:13 | the list is the old one plus `n` at the end, with no SSID check: it always grows by one and keeps its prefix |
| Stores.WiFiScanStore.SetStatus | repositories/wifi.repository.ts:32 | the status the repository writes becomes `s` (a setter the model adds to this store) |
| DeviceRepo.Merge | repositories/device.repository.ts:27-38 | each of the five fields comes from the update if the key is present, else from the cached record if there is one, else is null |
| DeviceRepo.MergeIdempotent | repositories/device.repository.ts:27-38 | merging the same update twice is merging it once |
| DeviceRepo.MergeEmpty | repositories/device.repository.ts:27-38 | an update without keys keeps the cached record, or yields the all-null record when nothing is cached |
| DeviceRepo.MergeThen | repositories/device.repository.ts:27-38 | two successive merges are one merge of the combined update |
| DeviceRepo.Parsed | repositories/device.repository.ts:41-44 | a missing or empty response parses to nothing; any other response to its parse |
| DeviceRepo.ParsedRead | repositories/device.repository.ts:41-46 | something reaches `setData` only from a connected device whose read returned a non-empty value |
| DeviceRepo.DeviceRepository.SetData | repositories/device.repository.ts:27-38 | the store holds the merge of the cached record and the update, stamped now |
| DeviceRepo.DeviceRepository.FetchData | repositories/device.repository.ts:40-52 | exactly one read is made; success exactly when a truthy record was parsed, which is then merged into the cache; otherwise the cache is untouched |
| DeviceRepo.DeviceRepository.GetData | repositories/device.repository.ts:54-66 | without `fetch` and with a fresh cache, the cache is returned with no read; otherwise exactly one read is made, and the result is the new merged record or, when the read gave nothing, the previous cached data |
| DeviceRepo.DeviceRepository.CachedAfterFetch | repositories/device.repository.ts:54-66 | after a fetch at `t` that stored a record, an unforced `getData` at any time in `[t, t + 10000)` makes no second read and returns exactly the merged record the fetch stored |
| DeviceRepo.DeviceRepository.UpdateData | repositories/device.repository.ts:68-76 | the encoded update is written once; an acknowledged write merges the update and returns true; a null response returns false and leaves data and `lastUpdated` unchanged |
| DeviceRepo.DeviceRepository.constructor | repositories/device.repository.ts:14-19 | the repository keeps the one connection manager, its store and the device characteristic's UUIDs |
| SensorsRepo.SensorsRepository.SetData | repositories/sensors.repository.ts:26-28 | the store holds exactly the new record, with no field kept from the old one |
| SensorsRepo.SensorsRepository.FetchData | repositories/sensors.repository.ts:30-42 | exactly one read; success exactly when a truthy record was parsed, which then replaces the cache; otherwise the cache is untouched |
| SensorsRepo.SensorsRepository.GetData | repositories/sensors.repository.ts:44-56 | a fresh cache is returned with no read unless `fetch`; otherwise one read, and the result is exactly the store's new data, or the previous data when the read gave nothing |
| SensorsRepo.SensorsRepository.CachedAfterFetch | repositories/sensors.repository.ts:44-56 | after a fetch at `t` that stored a record, an unforced `getData` at any time in `[t, t + 10000)` makes no second read and returns exactly the record the fetch stored |
| SensorsRepo.SensorsRepository.HandleLiveDataUpdate | repositories/sensors.repository.ts:58-60 | the cache becomes exactly the pushed record, stamped now |
| SensorsRepo.SensorsRepository.constructor | repositories/sensors.repository.ts:14-18 | the repository keeps the one connection manager, its store and the sensor characteristic's UUIDs |
| WiFiRepo.FindSsid | repositories/wifi.repository.ts:52 | the result is the first entry with the SSID, and nothing means no entry has it (both directions) |
| WiFiRepo.FoldNetwork | repositories/wifi.repository.ts:51-56 | the list grows by at most one entry and always holds the reported SSID afterwards; the three lemmas below give the exact new list |
| WiFiRepo.FoldNewSsid | repositories/wifi.repository.ts:52-56 | an unknown SSID is appended at the end, and the entries before it are unchanged |
| WiFiRepo.FoldKnownSsid | repositories/wifi.repository.ts:52-55 | a known SSID keeps the list length, sets its entry's RSSI to the minimum of the old and new readings, and leaves every other entry unchanged |
| WiFiRepo.FoldKeepsUnique | repositories/wifi.repository.ts:51-56 | SSIDs that are unique before an update are unique after it |
| WiFiRepo.WeakerReadingKept | repositories/wifi.repository.ts:54 | readings of -60 and -80 dBm for one network leave -80, in either order |
| WiFiRepo.WiFiRepository.constructor | repositories/wifi.repository.ts:12-19 | the repository starts with no live subscription |
| WiFiRepo.WiFiRepository.StartScan | repositories/wifi.repository.ts:27-38 | during a scan: false, no write, nothing changed; otherwise status `scanning`, an empty list, exactly one write of `"scan"`, and true whatever the write gave |
| WiFiRepo.WiFiRepository.HandleLiveDataUpdate | repositories/wifi.repository.ts:40-57 | `"done"` sets `scanned` and `"fail"` sets `failed`, with the list unchanged; any other payload folds its network into the list and leaves the status |
| WiFiRepo.WiFiRepository.OnNotification | services/ble.service.ts:205-218 | an error or a notification without a value changes nothing; a forwarded `"done"` sets `scanned` and `"fail"` sets `failed` with the list unchanged; any other forwarded payload folds its network into the list |
| WiFiRepo.WiFiRepository.StartLiveListening | repositories/wifi.repository.ts:59-63 | the previous subscription is removed before the monitor is opened; the new one is stored and returned, and it is null without a connected device |
| Controller.CommandText | controllers/device.controller.ts:22 | only `"sleep"` and `"restart"` can be sent, `"sleep"` exactly for the sleep command |
| Controller.CommandTextInjective | controllers/device.controller.ts:22 | the two commands are sent as different texts |
| Controller.DeviceController.constructor | controllers/device.controller.ts:10-15 | the controller keeps the one connection manager and the system characteristic's UUIDs |
| Controller.DeviceController.SendCommand | controllers/device.controller.ts:22-24 | exactly one write of the command text to the system characteristic; resolves to the write's result, so to null without a device |
| Controller.DeviceController.Restart | controllers/device.controller.ts:26-28 | writes exactly `"restart"` and returns the write's result |
| Controller.DeviceController.Sleep | controllers/device.controller.ts:30-32 | writes exactly `"sleep"` and returns the write's result |
| Theme.DigitRun | hooks/useTheme.ts:5 | the digits `parseInt` reads are all hex digits |
| Theme.DigitRunLongest | hooks/useTheme.ts:5 | they are a prefix of the input, and the character after them is not a hex digit |
| Theme.HexValueBound | hooks/useTheme.ts:5 | `n` hex digits parse to a number below 16^n |
| Theme.ParseInt16 | hooks/useTheme.ts:5 | `parseInt(s, 16)` is NaN exactly when no hex digit follows the white space, sign and `0x` |
| Theme.ToInt32 | hooks/useTheme.ts:6-8 | NaN becomes 0; an integer becomes the one in [-2^31, 2^31) that is congruent to it modulo 2^32 |
| Theme.LowByte | hooks/useTheme.ts:6-8 | `& 255` gives a value in 0..255 congruent to its operand modulo 256 |
| Theme.StripFirstHash | hooks/useTheme.ts:5 | the colour loses exactly one character or is returned unchanged |
| Theme.ShiftRight | hooks/useTheme.ts:6-7 | `>>` rounds towards minus infinity: the result times 2^bits is at most the operand and within 2^bits of it |
| Theme.Bytes | hooks/useTheme.ts:6-8 | each channel taken from an integer lies in 0..255 |
| Theme.StripFirstHashSpec | hooks/useTheme.ts:5 | `replace('#', '')` deletes the first `#` and keeps everything before and after it |
| Theme.StripFirstHashNone | hooks/useTheme.ts:5 | a colour without `#` is left as it is |
| Theme.Channels | hooks/useTheme.ts:5-8 | each of r, g and b lies in 0..255 |
| Theme.WrappedBytes | hooks/useTheme.ts:5-8 | for every parsed integer, negative or wrapped by ToInt32, the channels are its bytes 2, 1 and 0 |
| Theme.ChannelsRecombine | hooks/useTheme.ts:5-8 | for a parsed value in 0 .. 2^24 - 1, `r*65536 + g*256 + b` is that value |
| Theme.ShortColorRecombines | hooks/useTheme.ts:5-8 | for `#` and one to six hex digits, the channels recombine into the number the digits spell |
| Theme.Decimal | hooks/useTheme.ts:9 | an integer prints as a non-empty string of decimal digits |
| Theme.DecimalRoundTrip | hooks/useTheme.ts:9 | the printed digits read back as the number |
| Theme.DecimalNoLeadingZero | hooks/useTheme.ts:9 | the printed digits have no leading zero |
| Theme.RgbaText | hooks/useTheme.ts:9 | the text starts with `rgba(` and ends with the alpha text and `)` |
| Theme.HexToRgba | hooks/useTheme.ts:4-10 | `hexToRGBA` yields text that starts with `rgba(` and ends with the alpha and `)`; its channels are `Channels(color)`, described by the lemmas above and below |
| Theme.ShortWhiteParse | hooks/useTheme.ts:5 | `"#fff"` parses as 0xfff |
| Theme.ShortWhiteChannels | hooks/useTheme.ts:5-8 | `"#fff"` gives r = 0, g = 15, b = 255 (not white) |
| Theme.ShortWhite | hooks/useTheme.ts:4-9 | with the default alpha, `"#fff"` prints as `rgba(0, 15, 255, 1)` |
| Theme.PrintedChannels | hooks/useTheme.ts:9 | the template prints the channels 0, 15, 255 and alpha 1 as `rgba(0, 15, 255, 1)` |
| Theme.DoubleHash | hooks/useTheme.ts:5-8 | `"##fff"` keeps its second `#`, so it parses to NaN and gives all-zero channels |
| Theme.UseTheme | hooks/useTheme.ts:16-30 | the dark palette exactly when the scheme is `'dark'`; the light one otherwise, including a missing scheme |
| ScanScreen.DisplayName | app/scan/ScanScreen.tsx:60 | displayed names are never empty; a truthy name is kept |
| ScanScreen.AddDevice | app/scan/ScanScreen.tsx:58-61 | a listed id leaves the list identical; a new device is appended at the end with a truthy name and its other fields kept |
| ScanScreen.AddDeviceKeepsUnique | app/scan/ScanScreen.tsx:58-61 | device ids stay unique, and the reported device is listed afterwards |
| ScanScreen.ScanScreen.constructor | app/scan/ScanScreen.tsx:9-10 | the screen starts in `default` with no devices |
| ScanScreen.ScanScreen.HandleScan | app/scan/ScanScreen.tsx:49-53 | a no-op while scanning; otherwise the list is emptied and the state becomes `scanning` |
| ScanScreen.ScanScreen.OnDeviceFound | app/scan/ScanScreen.tsx:55-61 | a device reporting `isConnectable === false` is never added; any other goes through `AddDevice` |
| ScanScreen.ScanScreen.OnStop | app/scan/ScanScreen.tsx:62-64 | the state becomes `scanned` |
| ScanScreen.ScanScreen.HandleScanReset | app/scan/ScanScreen.tsx:68-72 | the list is emptied and the state becomes `default` |
| DeviceScreens.HasChanges | app/device/DeviceConfigScreen.tsx:25-32 | false without a truthy power mode or with an empty name; otherwise true exactly when the name or the mode differs from the cache, and always true when nothing is cached |
| DeviceScreens.NoChangeWhenCached | app/device/DeviceConfigScreen.tsx:25-32 | the cached name and mode themselves are never a change |
| DeviceScreens.StateColor | app/device/DeviceScreen.tsx:13-23 | `connecting` and `reconnecting` map to `#FACC15`, `disconnected` to `#EF4444`, `connected` to the primary colour |
| DeviceScreens.StateLabel | app/device/DeviceScreen.tsx:32-37 | every state has a non-empty label |
| DeviceScreens.StateLabelsDistinct | app/device/DeviceScreen.tsx:32-37 | the four labels are distinct |

## Left out

- Permissions, alerts, `isBluetoothEnabled` and the device scan with its timeout
  (`services/ble.service.ts:40-70`, `276-303`) are OS and native calls. The scan screen
  receives the scan's results through `OnDeviceFound`/`OnStop`.
- Concurrency is not modelled. Each method is atomic, and the transport's outcome is an
  argument.
  - So `disconnecting` is never set between calls.
  - The `if (this.disconnecting)` waits and repeated broadcasts are unreachable and are
    not modelled (`services/ble.service.ts:85-88`, `160-164`).
  - Overlapping connects, and a reconnect racing a manual connect, are not modelled.
- The two ways `connectToDevice` obtains a device (`isDeviceConnected` plus `devices`, or
  `connectToDevice`) are one transport connect event. Only their outcome is modelled.
- The value-emptiness tests use the decoded text. The source tests the base64 text. The
  two agree for well-formed base64. Base64/UTF-8 conversion is library code.
- JSON parsing and printing are function arguments. `DeviceRepo` parses a record into a
  patch of the five known keys.
  - Keys outside the record are not modelled.
  - A key present with the value `undefined` is not modelled; it overrides the old value
    in a JavaScript spread.
- WiFiRepo.WiFiRepository.HandleLiveDataUpdate requires that a non-sentinel payload
  parses, because malformed JSON throws uncaught in the source.
- DeviceRepo.DeviceRepository.FetchData: `decode` stands for `JSON.parse` on well-formed
  text; the rejection that malformed text causes (`repositories/device.repository.ts:42`)
  is not modelled.
- DeviceRepo.DeviceRepository.GetData: the same; the promise rejected by a malformed
  response is not modelled.
- SensorsRepo.SensorsRepository.FetchData: `decode` stands for `JSON.parse` on well-formed
  text; the rejection on malformed text (`repositories/sensors.repository.ts:32`) is not
  modelled.
- SensorsRepo.SensorsRepository.GetData: the same; the promise rejected by a malformed
  response is not modelled.
- Stores.WiFiScanStore.SetStatus: `hooks/useWiFiScanStore.ts` declares neither a `status`
  field nor `setStatus`, so the repository's `setStatus('scanning')`
  (`repositories/wifi.repository.ts:32`) calls an undefined function as written. The model
  adds the field and its setter to the store, so that the scan status can work at all.
- `WiFiNetwork.rssi` is an integer. A payload without a numeric `rssi`, which the source
  folds through `Math.min` into a `NaN` that then sticks to the entry, is not modelled:
  `decode` is taken to give a network with an integer reading.
- WiFiRepo.WiFiRepository.HandleLiveDataUpdate writes the lowered reading into the
  store's list in place, as the source does. The source does not notify the store's
  subscribers of this change; the model has no subscribers.
- The singleton `getInstance` accessors are left out. The repositories and the
  controller hold a reference to one `Ble.BleService` and to their store. The scan screen
  creates a second `BLEService` of its own (`app/scan/ScanScreen.tsx:6`); the model's scan
  screen uses only the scan results and takes no connection manager.
- Service and characteristic UUIDs are opaque constructor arguments.
  - `constants/config.ts` has no `bleServices`.
  - The sensors repository calls `readCharacteristicForService`, which `BLEService` does
    not define; the model uses `readCharacteristic`.
  - The scan screen passes `startScan` arguments that do not fit its signature.
- The unused `bleReconnect` attempts and delay (`constants/config.ts:9-12`) are not
  modelled. The code reconnects exactly once.
- `destroy()` and the screens' effects and rendering are not modelled.
  `constants/colors` is not part of this model, so `StateColor` takes the primary colour
  as an argument.
- Theme.ParseInt16: parses at most 13 hex digits (`ExactParse`). Up to 13 digits a double
  holds the value exactly. Longer runs would need IEEE double rounding before ToInt32.
- Theme.HexToRgba: takes `alpha` as the text the number prints as, "1" by default.
  Floating-point formatting is not modelled.
- The `useColorScheme` hook is an argument of `UseTheme`. The `rgba` member that both
  palettes carry is `HexToRgba`.
