/** The presentation logic of app/device/DeviceConfigScreen.tsx (`hasChanges`) and
    app/device/DeviceScreen.tsx (`getStateColor`, `dynamicText`). */
module DeviceScreens {
  import opened Types

  /** Whether the configuration form may be saved: a power mode is chosen, the name is not
      empty, and one of the two differs from the cached record.  With no cached record,
      `data?.device_name` is `undefined`, which no string equals, so the short-circuit
      never reaches `data.power_mode`. */
  function HasChanges(name: string, powerMode: Option<string>, data: Option<DeviceConfig>): (r: bool)
    ensures powerMode.None? || powerMode == Some("") ==> !r
    ensures name == "" ==> !r
    ensures powerMode.Some? && powerMode.value != "" && name != "" ==>
      (r <==> data.None? || data.value.deviceName != Some(name) || data.value.powerMode != powerMode)
    ensures powerMode.Some? && powerMode.value != "" && name != "" && data.None? ==> r
  {
    if powerMode.None? || powerMode.value == "" then false
    else if |name| < 1 then false
    else match data
      case None => true
      case Some(d) => d.deviceName != Some(name) || d.powerMode != powerMode
  }

  /** Saving what is already cached is no change. */
  lemma NoChangeWhenCached(d: DeviceConfig)
    ensures d.deviceName.Some? ==> !HasChanges(d.deviceName.value, d.powerMode, Some(d))
  {
  }

  const Amber := "#FACC15"
  const Red := "#EF4444"

  /** `getStateColor`; `primary` is `colors.primary`. */
  function StateColor(s: ConnectionState, primary: string): (c: string)
    ensures s.Connecting? || s.Reconnecting? ==> c == Amber
    ensures s.Disconnected? ==> c == Red
    ensures s.Connected? ==> c == primary
  {
    match s
    case Connecting => Amber
    case Reconnecting => Amber
    case Disconnected => Red
    case _ => primary
  }

  /** `dynamicText` */
  function StateLabel(s: ConnectionState): (text: string)
    ensures text != ""
  {
    match s
    case Connecting => "Connecting..."
    case Reconnecting => "Reconnecting..."
    case Disconnected => "Disconnected"
    case Connected => "Connected"
  }

  /** Every state has its own label. */
  lemma StateLabelsDistinct(a: ConnectionState, b: ConnectionState)
    ensures StateLabel(a) == StateLabel(b) ==> a == b
  {
  }
}
