/** The status of one device of a presence publisher (PresenceDeviceStatus.cs). */
module PresenceDeviceStatusModel {
  import opened Wrappers
  import opened Json

  datatype PresenceDeviceStatusValue = PresenceDeviceStatusValue(deviceId: NString, status: int)

  /** `FromJsonObject`: the device id comes from `device`, the status from `status`. */
  function DecodePresenceDeviceStatus(jo: JsonObject): PresenceDeviceStatusValue
  {
    PresenceDeviceStatusValue(Str(Get(jo, "device")), AsNum(Get(jo, "status")))
  }

  /** `ToJsonObject`. */
  function EncodePresenceDeviceStatus(s: PresenceDeviceStatusValue): JsonObject
  {
    PutStr(map[], "device", s.deviceId)["status" := JNum(s.status)]
  }

  /** The encoding holds `device` (unless the id is null) and `status`, and decodes back to the same status. */
  lemma PresenceDeviceStatusRoundTrip(s: PresenceDeviceStatusValue)
    ensures DecodePresenceDeviceStatus(EncodePresenceDeviceStatus(s)) == s
    ensures EncodePresenceDeviceStatus(s).Keys == {"status"} + (if s.deviceId.Some? then {"device"} else {})
  {
  }

  class PresenceDeviceStatus {
    var deviceId: NString
    var status: int

    function Value(): PresenceDeviceStatusValue
      reads this
    {
      PresenceDeviceStatusValue(deviceId, status)
    }

    constructor ()
      ensures Value() == PresenceDeviceStatusValue(None, 0)
    {
      deviceId, status := None, 0;
    }

    method FromJsonObject(jo: JsonObject)
      modifies this
      ensures Value() == DecodePresenceDeviceStatus(jo)
    {
      deviceId := Str(Get(jo, "device"));
      status := AsNum(Get(jo, "status"));
    }

    function ToJsonObject(): JsonObject
      reads this
    {
      EncodePresenceDeviceStatus(Value())
    }
  }
}
