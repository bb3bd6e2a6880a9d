/** The connection manager and characteristic gateway of services/ble.service.ts.

    Every transport call (connect, service discovery, read, write) is atomic here: its
    outcome is a parameter of the method that makes it.  Ghost state records what an
    observer of the manager can see:
      - `trace`: every `notifyStateChange` broadcast, in order;
      - `log`: every listener call, transport call and gateway call, in order;
      - `armed`: the disconnect-notification subscriptions the transport still honours;
      - `monitors`: the characteristic-monitor subscriptions that are still live. */
module Ble {
  import opened Types

  type DeviceId = string
  type Uuid = string

  /** A registered listener; JavaScript compares listener functions by reference, here by id. */
  type ListenerId = nat

  /** A transport `Subscription` handle. */
  type SubscriptionId = nat

  /** What a scan hands to its caller (`IStrippedDevice`). */
  datatype StrippedDevice = StrippedDevice(id: DeviceId, name: Option<string>, isConnectable: Option<bool>)

  /** The `BleErrorCode`s the manager distinguishes; every other error is `OtherError`. */
  datatype BleErrorCode = OperationCancelled | DeviceDisconnected | DeviceNotConnected | OtherError

  /** What the transport does when the manager connects to a device:
      `Linked`: a device came back and service discovery succeeded;
      `NoDevice`: the transport came back without a device;
      `ConnectError`: looking up or connecting to the device threw;
      `DiscoveryError`: a device came back, then service discovery threw. */
  datatype ConnectOutcome = Linked | NoDevice | ConnectError(code: BleErrorCode) | DiscoveryError(code: BleErrorCode)

  /** The characteristic a read or write resolved to (its decoded text value, which may be
      missing), or the error it threw. */
  datatype ReadOutcome = ReadValue(value: Option<string>) | ReadError(code: BleErrorCode)
  datatype WriteOutcome = WriteValue(value: Option<string>) | WriteError(code: BleErrorCode)

  /** One callback of a characteristic monitor: a characteristic or an error. */
  datatype Notification = NotifyValue(value: Option<string>) | NotifyError(code: BleErrorCode)

  datatype Event =
    | Delivered(listener: ListenerId, state: ConnectionState)
    | TransportConnect(deviceId: DeviceId)
    | TransportCancel(deviceId: DeviceId)
    | SubscriptionArmed(sub: SubscriptionId)
    | SubscriptionRemoved(sub: SubscriptionId)
    | GatewayRead(service: Uuid, characteristic: Uuid)
    | GatewayWrite(service: Uuid, characteristic: Uuid, value: string)
    | GatewayMonitor(service: Uuid, characteristic: Uuid)

  /** The two error codes `connectToDevice` swallows without a broadcast. */
  predicate SilentConnectError(code: BleErrorCode)
  {
    code == OperationCancelled || code == DeviceDisconnected
  }

  /** The listener calls of one broadcast of `s` to the registry `ls`: each listener once,
      in registration order, with the same state. */
  function Deliveries(ls: seq<ListenerId>, s: ConnectionState): (d: seq<Event>)
    ensures |d| == |ls|
    ensures forall e :: e in d ==> e.Delivered? && e.state == s && e.listener in ls
  {
    seq(|ls|, i requires 0 <= i < |ls| => Delivered(ls[i], s))
  }

  /** Removing a subscription handle, when there is one. */
  function RemovalEvents(sub: Option<SubscriptionId>): seq<Event>
  {
    if sub.Some? then [SubscriptionRemoved(sub.value)] else []
  }

  /** Removing the old disconnect subscription, then arming a new one. */
  function RearmEvents(previous: Option<SubscriptionId>, next: SubscriptionId): seq<Event>
  {
    RemovalEvents(previous) + [SubscriptionArmed(next)]
  }

  /** What a manual disconnect of `device` shows: the subscription is removed before the
      transport is asked to cancel the connection, and `disconnected` is broadcast last. */
  function DisconnectEvents(device: DeviceId, sub: Option<SubscriptionId>, ls: seq<ListenerId>): seq<Event>
  {
    RemovalEvents(sub) + [TransportCancel(device)] + Deliveries(ls, Disconnected)
  }

  /** The registry with every registration of `l` filtered out. */
  function Without(ls: seq<ListenerId>, l: ListenerId): (r: seq<ListenerId>)
    ensures |r| <= |ls|
  {
    if ls == [] then []
    else if ls[0] == l then Without(ls[1..], l)
    else [ls[0]] + Without(ls[1..], l)
  }

  /** Removing a listener deletes every occurrence of it and keeps every other listener. */
  lemma {:induction false} WithoutMembers(ls: seq<ListenerId>, l: ListenerId)
    ensures l !in Without(ls, l)
    ensures forall x :: x in Without(ls, l) <==> x in ls && x != l
  {
    if ls != [] {
      WithoutMembers(ls[1..], l);
    }
  }

  /** ... with the same number of registrations each. */
  lemma {:induction false} WithoutCounts(ls: seq<ListenerId>, l: ListenerId)
    ensures multiset(Without(ls, l)) == multiset(ls)[l := 0]
  {
    if ls != [] {
      WithoutCounts(ls[1..], l);
      assert ls == [ls[0]] + ls[1..];
    }
  }

  /** ... and in the same order: the filter distributes over concatenation and leaves
      a registry without `l` as it is. */
  lemma {:induction false} WithoutAppend(a: seq<ListenerId>, b: seq<ListenerId>, l: ListenerId)
    ensures Without(a + b, l) == Without(a, l) + Without(b, l)
  {
    if a == [] {
      assert a + b == b;
    } else {
      assert (a + b)[0] == a[0];
      assert (a + b)[1..] == a[1..] + b;
      WithoutAppend(a[1..], b, l);
      if a[0] != l {
        assert Without(a + b, l) == [a[0]] + (Without(a[1..], l) + Without(b, l));
        assert [a[0]] + (Without(a[1..], l) + Without(b, l)) == ([a[0]] + Without(a[1..], l)) + Without(b, l);
      }
    }
  }

  lemma {:induction false} WithoutAbsent(ls: seq<ListenerId>, l: ListenerId)
    requires l !in ls
    ensures Without(ls, l) == ls
  {
    if ls != [] {
      WithoutAbsent(ls[1..], l);
    }
  }

  /** What `readCharacteristic` resolves to: nothing without a connected device, on an
      empty or missing value, or on any error; otherwise the value. */
  function ReadResult(connected: bool, outcome: ReadOutcome): (r: Option<string>)
    ensures !connected ==> r == None
    ensures outcome.ReadError? ==> r == None
    ensures r.Some? <==> connected && outcome.ReadValue? && outcome.value.Some? && outcome.value.value != ""
    ensures r.Some? ==> r == outcome.value
  {
    if !connected then None
    else match outcome
      case ReadError(_) => None
      case ReadValue(v) => if v.Some? && v.value != "" then v else None
  }

  /** What `writeCharacteristicWithResponse` resolves to, with the same contract. */
  function WriteResult(connected: bool, outcome: WriteOutcome): (r: Option<string>)
    ensures !connected ==> r == None
    ensures outcome.WriteError? ==> r == None
    ensures r.Some? <==> connected && outcome.WriteValue? && outcome.value.Some? && outcome.value.value != ""
    ensures r.Some? ==> r == outcome.value
  {
    if !connected then None
    else match outcome
      case WriteError(_) => None
      case WriteValue(v) => if v.Some? && v.value != "" then v else None
  }

  /** What a monitor callback hands on to `onData`: errors of every code are dropped, and so
      are notifications without a value. */
  function Forwarded(n: Notification): (r: Option<string>)
    ensures n.NotifyError? ==> r == None
    ensures r.Some? <==> n.NotifyValue? && n.value.Some? && n.value.value != ""
    ensures r.Some? ==> r == n.value
  {
    match n
    case NotifyError(_) => None
    case NotifyValue(v) => if v.Some? && v.value != "" then v else None
  }

  class BleService {
    var connectedDevice: Option<DeviceId>
    var lastConnectedDeviceId: Option<DeviceId>
    var listeners: seq<ListenerId>
    /** Whether the `disconnecting` promise is set. */
    var disconnecting: bool
    var lastDisconnect: int
    var connecting: bool
    var disconnectSubscription: Option<SubscriptionId>
    /** The transport's allocation of subscription handles: the next one it hands out. */
    var nextSubscription: SubscriptionId

    ghost var trace: seq<ConnectionState>
    ghost var log: seq<Event>
    ghost var armed: set<SubscriptionId>
    ghost var monitors: set<SubscriptionId>

    /** At most the stored disconnect subscription is armed, and handles are allocated fresh. */
    ghost predicate SubscriptionsValid()
      reads this`disconnectSubscription, this`armed, this`nextSubscription, this`monitors
    {
      && (disconnectSubscription.None? ==> armed == {})
      && (disconnectSubscription.Some? ==>
            armed <= {disconnectSubscription.value} && disconnectSubscription.value < nextSubscription)
      && (forall s :: s in monitors ==> s < nextSubscription)
    }

    /** A last broadcast of `connected` means a device is connected. */
    ghost predicate TraceValid()
      reads this`trace, this`connectedDevice
    {
      trace != [] && trace[|trace| - 1] == Connected ==> connectedDevice.Some?
    }

    /** The manager's invariant; no teardown is pending between calls. */
    ghost predicate Valid()
      reads this
    {
      !disconnecting && SubscriptionsValid() && TraceValid()
    }

    constructor ()
      ensures Valid()
      ensures connectedDevice == None && lastConnectedDeviceId == None && listeners == []
      ensures !connecting && disconnectSubscription == None && lastDisconnect == 0
      ensures trace == [] && log == [] && armed == {} && monitors == {}
    {
      connectedDevice := None;
      lastConnectedDeviceId := None;
      listeners := [];
      disconnecting := false;
      lastDisconnect := 0;
      connecting := false;
      disconnectSubscription := None;
      nextSubscription := 0;
      trace := [];
      log := [];
      armed := {};
      monitors := {};
    }

    method AddConnectionStateListener(listener: ListenerId)
      modifies this`listeners
      ensures listeners == old(listeners) + [listener]
    {
      listeners := listeners + [listener];
    }

    method RemoveConnectionStateListener(listener: ListenerId)
      modifies this`listeners
      ensures listeners == Without(old(listeners), listener)
    {
      listeners := Without(listeners, listener);
    }

    /** Calls every listener, in registration order, with `state`. */
    method NotifyStateChange(state: ConnectionState)
      modifies this`trace, this`log
      ensures trace == old(trace) + [state]
      ensures log == old(log) + Deliveries(listeners, state)
      ensures state != Connected || connectedDevice.Some? ==> TraceValid()
    {
      trace := trace + [state];
      for i := 0 to |listeners|
        invariant trace == old(trace) + [state]
        invariant log == old(log) + Deliveries(listeners[..i], state)
      {
        assert listeners[..i + 1][..i] == listeners[..i];
        log := log + [Delivered(listeners[i], state)];
      }
      assert listeners[..|listeners|] == listeners;
    }

    /** Removes the stored disconnect subscription, if there is one; the field keeps the
        removed handle. */
    method RemoveDisconnectSubscription()
      modifies this`armed, this`log
      ensures log == old(log) + RemovalEvents(disconnectSubscription)
      ensures armed == if disconnectSubscription.Some? then old(armed) - {disconnectSubscription.value} else old(armed)
      ensures old(SubscriptionsValid()) ==> SubscriptionsValid() && armed == {}
    {
      if disconnectSubscription.Some? {
        armed := armed - {disconnectSubscription.value};
        log := log + [SubscriptionRemoved(disconnectSubscription.value)];
      }
    }

    /** Subscribes the disconnect handler to the connected device's disconnect
        notification and stores the new handle. */
    method ArmDisconnectSubscription()
      modifies this`armed, this`log, this`disconnectSubscription, this`nextSubscription
      ensures disconnectSubscription == Some(old(nextSubscription))
      ensures nextSubscription == old(nextSubscription) + 1
      ensures armed == old(armed) + {old(nextSubscription)}
      ensures log == old(log) + [SubscriptionArmed(old(nextSubscription))]
      ensures old(SubscriptionsValid()) && old(armed) == {} ==> SubscriptionsValid()
    {
      disconnectSubscription := Some(nextSubscription);
      armed := armed + {nextSubscription};
      log := log + [SubscriptionArmed(nextSubscription)];
      nextSubscription := nextSubscription + 1;
    }

    /** The success path shared by `connectToDevice` (lines 103-109) and `attemptReconnect`
        (lines 168-173): broadcast `connected`, then replace the disconnect subscription. */
    method Established(id: DeviceId)
      requires Valid()
      modifies this`connectedDevice, this`trace, this`log, this`armed, this`disconnectSubscription, this`nextSubscription
      ensures Valid()
      ensures connectedDevice == Some(id) && trace == old(trace) + [Connected]
      ensures log == old(log) + Deliveries(listeners, Connected) + RearmEvents(old(disconnectSubscription), old(nextSubscription))
      ensures disconnectSubscription == Some(old(nextSubscription)) && nextSubscription == old(nextSubscription) + 1
      ensures armed == {old(nextSubscription)}
    {
      connectedDevice := Some(id);
      NotifyStateChange(Connected);
      ghost var log1 := log;
      RemoveDisconnectSubscription();
      ArmDisconnectSubscription();
      assert log == log1 + RearmEvents(old(disconnectSubscription), old(nextSubscription));
    }

    method ConnectToDevice(deviceId: DeviceId, outcome: ConnectOutcome) returns (r: Option<DeviceId>)
      requires Valid()
      modifies this`connecting, this`disconnecting, this`trace, this`log, this`connectedDevice, this`lastConnectedDeviceId
      modifies this`armed, this`disconnectSubscription, this`nextSubscription
      ensures Valid()
      ensures
        // lines 80-81: a connect left pending by a swallowed error is cancelled first
        var cancelled := old(connecting) && old(connectedDevice).Some?;
        var trace0 := (if cancelled then old(trace) + [Disconnected] else old(trace)) + [Connecting];
        var log0 := (if cancelled
                     then old(log) + DisconnectEvents(old(connectedDevice).value, old(disconnectSubscription), listeners)
                     else old(log))
                    + Deliveries(listeners, Connecting) + [TransportConnect(deviceId)];
        var armed0 := if cancelled then {} else old(armed);
        if outcome.Linked? then
          && r == Some(deviceId) && connectedDevice == r && lastConnectedDeviceId == r && !connecting
          && trace == trace0 + [Connected]
          && log == log0 + Deliveries(listeners, Connected) + RearmEvents(old(disconnectSubscription), old(nextSubscription))
          && disconnectSubscription == Some(old(nextSubscription)) && nextSubscription == old(nextSubscription) + 1
          && armed == {old(nextSubscription)}
        else
          && r == None
          && disconnectSubscription == old(disconnectSubscription) && nextSubscription == old(nextSubscription)
          && armed == armed0
          && connectedDevice == (if outcome.DiscoveryError? then Some(deviceId) else None)
          && lastConnectedDeviceId == (if outcome.NoDevice? then None else old(lastConnectedDeviceId))
          && (if !outcome.NoDevice? && SilentConnectError(outcome.code)
              then connecting && trace == trace0 && log == log0
              else !connecting && trace == trace0 + [Disconnected] && log == log0 + Deliveries(listeners, Disconnected))
    {
      if connecting {
        DisconnectFromDevice();
      }
      r := OpenConnection(deviceId, outcome);
    }

    /** Lines 82-127 of `connectToDevice`, once a pending connect has been cancelled. */
    method OpenConnection(deviceId: DeviceId, outcome: ConnectOutcome) returns (r: Option<DeviceId>)
      requires Valid()
      modifies this`connecting, this`trace, this`log, this`connectedDevice, this`lastConnectedDeviceId
      modifies this`armed, this`disconnectSubscription, this`nextSubscription
      ensures Valid()
      ensures
        var trace0 := old(trace) + [Connecting];
        var log0 := old(log) + Deliveries(listeners, Connecting) + [TransportConnect(deviceId)];
        if outcome.Linked? then
          && r == Some(deviceId) && connectedDevice == r && lastConnectedDeviceId == r && !connecting
          && trace == trace0 + [Connected]
          && log == log0 + Deliveries(listeners, Connected) + RearmEvents(old(disconnectSubscription), old(nextSubscription))
          && disconnectSubscription == Some(old(nextSubscription)) && nextSubscription == old(nextSubscription) + 1
          && armed == {old(nextSubscription)}
        else
          && r == None
          && disconnectSubscription == old(disconnectSubscription) && nextSubscription == old(nextSubscription)
          && armed == old(armed)
          && connectedDevice == (if outcome.DiscoveryError? then Some(deviceId) else None)
          && lastConnectedDeviceId == (if outcome.NoDevice? then None else old(lastConnectedDeviceId))
          && (if !outcome.NoDevice? && SilentConnectError(outcome.code)
              then connecting && trace == trace0 && log == log0
              else !connecting && trace == trace0 + [Disconnected] && log == log0 + Deliveries(listeners, Disconnected))
    {
      connecting := true;
      NotifyStateChange(Connecting);
      connectedDevice := None;
      log := log + [TransportConnect(deviceId)];
      if outcome.Linked? {
        Established(deviceId);
        lastConnectedDeviceId := connectedDevice;
        connecting := false;
        r := connectedDevice;
      } else {
        ConnectFailed(deviceId, outcome);
        r := None;
      }
    }

    /** Lines 110-127 of `connectToDevice`: the transport gave no device, or threw. */
    method ConnectFailed(deviceId: DeviceId, outcome: ConnectOutcome)
      requires Valid() && !outcome.Linked? && connectedDevice == None && connecting
      modifies this`connecting, this`trace, this`log, this`connectedDevice, this`lastConnectedDeviceId
      ensures Valid()
      ensures connectedDevice == (if outcome.DiscoveryError? then Some(deviceId) else None)
      ensures lastConnectedDeviceId == (if outcome.NoDevice? then None else old(lastConnectedDeviceId))
      ensures if !outcome.NoDevice? && SilentConnectError(outcome.code)
              then connecting && trace == old(trace) && log == old(log)
              else !connecting && trace == old(trace) + [Disconnected] && log == old(log) + Deliveries(listeners, Disconnected)
    {
      if outcome.NoDevice? {
        NotifyStateChange(Disconnected);
        lastConnectedDeviceId := None;
        connecting := false;
      } else {
        // the catch of lines 117-127; a discovery error leaves the device handle assigned
        if outcome.DiscoveryError? {
          connectedDevice := Some(deviceId);
        }
        if !SilentConnectError(outcome.code) {
          NotifyStateChange(Disconnected);
          connecting := false;
        }
      }
    }

    method DisconnectFromDevice()
      requires Valid()
      modifies this`connectedDevice, this`disconnecting, this`trace, this`log, this`armed
      ensures Valid()
      ensures connectedDevice == None
      ensures old(connectedDevice).None? ==> trace == old(trace) && log == old(log) && armed == old(armed)
      ensures old(connectedDevice).Some? ==>
        && trace == old(trace) + [Disconnected]
        && log == old(log) + DisconnectEvents(old(connectedDevice).value, disconnectSubscription, listeners)
        && armed == {}
    {
      if connectedDevice.None? {
        return;
      }
      var device := connectedDevice.value;
      RemoveDisconnectSubscription();
      disconnecting := true;
      // the transport's cancellation outcome is swallowed either way; `finally` always runs
      log := log + [TransportCancel(device)];
      connectedDevice := None;
      disconnecting := false;
      NotifyStateChange(Disconnected);
    }

    /** The transport reports that the link behind the armed subscription `sub` dropped. */
    method DisconnectHandler(sub: SubscriptionId, now: int, outcome: ConnectOutcome)
      requires Valid()
      requires sub in armed
      modifies this`lastDisconnect, this`connecting, this`trace, this`log, this`connectedDevice
      modifies this`armed, this`disconnectSubscription, this`nextSubscription
      ensures Valid()
      ensures lastDisconnect == now
      ensures old(lastConnectedDeviceId).None? ==>
        && trace == old(trace) + [Disconnected] && log == old(log) + Deliveries(listeners, Disconnected)
        && connectedDevice == old(connectedDevice) && connecting == old(connecting)
        && disconnectSubscription == old(disconnectSubscription) && nextSubscription == old(nextSubscription)
        && armed == old(armed)
      ensures old(lastConnectedDeviceId).Some? ==>
        var id := old(lastConnectedDeviceId).value;
        var log0 := old(log) + Deliveries(listeners, Disconnected) + Deliveries(listeners, Reconnecting) + [TransportConnect(id)];
        && !connecting
        && (if outcome.Linked? then
              && connectedDevice == Some(id)
              && trace == old(trace) + [Disconnected, Reconnecting, Connected]
              && log == log0 + Deliveries(listeners, Connected) + RearmEvents(old(disconnectSubscription), old(nextSubscription))
              && disconnectSubscription == Some(old(nextSubscription)) && nextSubscription == old(nextSubscription) + 1
              && armed == {old(nextSubscription)}
            else
              && connectedDevice == None
              && trace == old(trace) + [Disconnected, Reconnecting, Disconnected]
              && log == log0 + Deliveries(listeners, Disconnected)
              && disconnectSubscription == old(disconnectSubscription) && nextSubscription == old(nextSubscription)
              && armed == old(armed))
    {
      lastDisconnect := now;
      NotifyStateChange(Disconnected);
      AttemptReconnect(outcome);
    }

    /** One reconnect to the remembered device; the `finally` clears `connecting` whatever the outcome. */
    method AttemptReconnect(outcome: ConnectOutcome)
      requires Valid()
      modifies this`connecting, this`trace, this`log, this`connectedDevice
      modifies this`armed, this`disconnectSubscription, this`nextSubscription
      ensures Valid()
      ensures old(lastConnectedDeviceId).None? ==>
        && trace == old(trace) && log == old(log)
        && connectedDevice == old(connectedDevice) && connecting == old(connecting)
        && disconnectSubscription == old(disconnectSubscription) && nextSubscription == old(nextSubscription)
        && armed == old(armed)
      ensures old(lastConnectedDeviceId).Some? ==>
        var id := old(lastConnectedDeviceId).value;
        var log0 := old(log) + Deliveries(listeners, Reconnecting) + [TransportConnect(id)];
        && !connecting
        && (if outcome.Linked? then
              && connectedDevice == Some(id)
              && trace == old(trace) + [Reconnecting, Connected]
              && log == log0 + Deliveries(listeners, Connected) + RearmEvents(old(disconnectSubscription), old(nextSubscription))
              && disconnectSubscription == Some(old(nextSubscription)) && nextSubscription == old(nextSubscription) + 1
              && armed == {old(nextSubscription)}
            else
              && connectedDevice == None
              && trace == old(trace) + [Reconnecting, Disconnected]
              && log == log0 + Deliveries(listeners, Disconnected)
              && disconnectSubscription == old(disconnectSubscription) && nextSubscription == old(nextSubscription)
              && armed == old(armed))
    {
      if lastConnectedDeviceId.None? {
        return;
      }
      var id := lastConnectedDeviceId.value;
      NotifyStateChange(Reconnecting);
      log := log + [TransportConnect(id)];
      if outcome.Linked? {
        Established(id);
      } else {
        ReconnectFailed(id, outcome);
      }
      connecting := false;
    }

    /** The catch of `attemptReconnect`: no device, a connect error, or a discovery error
        after `connectedDevice` was set; the handle is dropped after the broadcast. */
    method ReconnectFailed(id: DeviceId, outcome: ConnectOutcome)
      requires Valid()
      modifies this`trace, this`log, this`connectedDevice
      ensures Valid()
      ensures connectedDevice == None
      ensures trace == old(trace) + [Disconnected] && log == old(log) + Deliveries(listeners, Disconnected)
    {
      if outcome.DiscoveryError? {
        connectedDevice := Some(id);
      }
      NotifyStateChange(Disconnected);
      connectedDevice := None;
    }

    method ReadCharacteristic(service: Uuid, characteristic: Uuid, outcome: ReadOutcome) returns (r: Option<string>)
      modifies this`log
      ensures log == old(log) + [GatewayRead(service, characteristic)]
      ensures r == ReadResult(connectedDevice.Some?, outcome)
    {
      log := log + [GatewayRead(service, characteristic)];
      if connectedDevice.None? {
        return None;
      }
      match outcome
      case ReadError(_) =>
        r := None;
      case ReadValue(v) =>
        r := if v.Some? && v.value != "" then v else None;
    }

    method WriteCharacteristicWithResponse(service: Uuid, characteristic: Uuid, value: string, outcome: WriteOutcome)
      returns (r: Option<string>)
      modifies this`log
      ensures log == old(log) + [GatewayWrite(service, characteristic, value)]
      ensures r == WriteResult(connectedDevice.Some?, outcome)
    {
      log := log + [GatewayWrite(service, characteristic, value)];
      if connectedDevice.None? {
        return None;
      }
      match outcome
      case WriteError(_) =>
        r := None;
      case WriteValue(v) =>
        r := if v.Some? && v.value != "" then v else None;
    }

    /** Opens a monitor; its callback forwards `Forwarded(n)` for each notification `n`. */
    method MonitorCharacteristic(service: Uuid, characteristic: Uuid) returns (r: Option<SubscriptionId>)
      requires Valid()
      modifies this`log, this`monitors, this`nextSubscription
      ensures Valid()
      ensures log == old(log) + [GatewayMonitor(service, characteristic)]
      ensures connectedDevice.None? ==> r == None && monitors == old(monitors) && nextSubscription == old(nextSubscription)
      ensures connectedDevice.Some? ==>
        && r == Some(old(nextSubscription)) && old(nextSubscription) !in old(monitors)
        && monitors == old(monitors) + {old(nextSubscription)} && nextSubscription == old(nextSubscription) + 1
    {
      log := log + [GatewayMonitor(service, characteristic)];
      if connectedDevice.None? {
        return None;
      }
      r := Some(nextSubscription);
      monitors := monitors + {nextSubscription};
      nextSubscription := nextSubscription + 1;
    }

    /** `Subscription.remove()` on a monitor subscription. */
    method RemoveMonitor(sub: SubscriptionId)
      requires Valid()
      modifies this`log, this`monitors
      ensures Valid()
      ensures monitors == old(monitors) - {sub}
      ensures log == old(log) + [SubscriptionRemoved(sub)]
    {
      monitors := monitors - {sub};
      log := log + [SubscriptionRemoved(sub)];
    }
  }
}
