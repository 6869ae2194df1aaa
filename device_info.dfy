/** One device logged in to the current account (DeviceInfo.cs). */
module DeviceInfoModel {
  import opened Wrappers
  import opened Json

  datatype DeviceInfoValue = DeviceInfoValue(resource: NString, deviceUuid: NString, deviceName: NString)

  function DecodeDeviceInfo(jo: JsonObject): DeviceInfoValue
  {
    DeviceInfoValue(Str(Get(jo, "resource")), Str(Get(jo, "deviceUUID")), Str(Get(jo, "deviceName")))
  }

  function EncodeDeviceInfo(d: DeviceInfoValue): JsonObject
  {
    PutStr(PutStr(PutStr(map[], "resource", d.resource), "deviceUUID", d.deviceUuid), "deviceName", d.deviceName)
  }

  /** The encoding holds exactly the non-null ones of the three keys, and decodes back to the same device. */
  lemma DeviceInfoRoundTrip(d: DeviceInfoValue)
    ensures DecodeDeviceInfo(EncodeDeviceInfo(d)) == d
    ensures EncodeDeviceInfo(d).Keys ==
      (if d.resource.Some? then {"resource"} else {})
      + (if d.deviceUuid.Some? then {"deviceUUID"} else {})
      + (if d.deviceName.Some? then {"deviceName"} else {})
  {
  }

  class DeviceInfo {
    var resource: NString
    var deviceUuid: NString
    var deviceName: NString

    function Value(): DeviceInfoValue
      reads this
    {
      DeviceInfoValue(resource, deviceUuid, deviceName)
    }

    constructor ()
      ensures Value() == DeviceInfoValue(None, None, None)
    {
      resource, deviceUuid, deviceName := None, None, None;
    }

    method FromJsonObject(jo: JsonObject)
      modifies this
      ensures Value() == DecodeDeviceInfo(jo)
    {
      resource := Str(Get(jo, "resource"));
      deviceUuid := Str(Get(jo, "deviceUUID"));
      deviceName := Str(Get(jo, "deviceName"));
    }

    function ToJsonObject(): JsonObject
      reads this
    {
      EncodeDeviceInfo(Value())
    }
  }
}
