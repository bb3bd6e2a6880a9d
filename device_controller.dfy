/** The command sender of controllers/device.controller.ts: each command is one write of
    its text to the device's system characteristic. */
module Controller {
  import opened Types
  import Ble

  /** The two values of the `'sleep' | 'restart'` parameter. */
  datatype Command = Sleep | Restart

  function CommandText(c: Command): (text: string)
    ensures text == "sleep" || text == "restart"
    ensures c.Sleep? <==> text == "sleep"
  {
    match c
    case Sleep => "sleep"
    case Restart => "restart"
  }

  /** Distinct commands are sent as distinct texts. */
  lemma CommandTextInjective(a: Command, b: Command)
    ensures CommandText(a) == CommandText(b) ==> a == b
  {
  }

  class DeviceController {
    const ble: Ble.BleService
    const serviceUuid: Ble.Uuid
    const characteristicUuid: Ble.Uuid

    constructor (ble: Ble.BleService, serviceUuid: Ble.Uuid, characteristicUuid: Ble.Uuid)
      ensures this.ble == ble && this.serviceUuid == serviceUuid && this.characteristicUuid == characteristicUuid
    {
      this.ble := ble;
      this.serviceUuid := serviceUuid;
      this.characteristicUuid := characteristicUuid;
    }

    /** Resolves to whatever the write resolves to. */
    method SendCommand(c: Command, outcome: Ble.WriteOutcome) returns (r: Option<string>)
      modifies ble`log
      ensures ble.log == old(ble.log) + [Ble.GatewayWrite(serviceUuid, characteristicUuid, CommandText(c))]
      ensures r == Ble.WriteResult(ble.connectedDevice.Some?, outcome)
      ensures ble.connectedDevice.None? ==> r == None
    {
      r := ble.WriteCharacteristicWithResponse(serviceUuid, characteristicUuid, CommandText(c), outcome);
    }

    method Restart(outcome: Ble.WriteOutcome) returns (r: Option<string>)
      modifies ble`log
      ensures ble.log == old(ble.log) + [Ble.GatewayWrite(serviceUuid, characteristicUuid, "restart")]
      ensures r == Ble.WriteResult(ble.connectedDevice.Some?, outcome)
    {
      r := SendCommand(Command.Restart, outcome);
    }

    method Sleep(outcome: Ble.WriteOutcome) returns (r: Option<string>)
      modifies ble`log
      ensures ble.log == old(ble.log) + [Ble.GatewayWrite(serviceUuid, characteristicUuid, "sleep")]
      ensures r == Ble.WriteResult(ble.connectedDevice.Some?, outcome)
    {
      r := SendCommand(Command.Sleep, outcome);
    }
  }
}
