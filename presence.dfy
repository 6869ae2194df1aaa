/** A user's published presence (Presence.cs): who, how long, and the status of each device. */
module PresenceModel {
  import opened Wrappers
  import opened Json
  import opened PresenceDeviceStatusModel

  datatype PresenceValue = PresenceValue(
    publisher: NString,
    statusList: seq<PresenceDeviceStatusValue>,
    statusDescription: NString,
    latestTime: int,
    expiryTime: int)

  /** `FromJsonObject`: `desc` is the description, `lastTime` the latest time, `detail` the device list. */
  function DecodePresence(jo: JsonObject): PresenceValue
  {
    PresenceValue(
      Str(Get(jo, "publisher")),
      ModelList(Get(jo, "detail"), DecodePresenceDeviceStatus),
      Str(Get(jo, "desc")),
      AsNum(Get(jo, "lastTime")),
      AsNum(Get(jo, "expiryTime")))
  }

  /** `ToJsonObject`. */
  function EncodePresence(p: PresenceValue): JsonObject
  {
    PutStr(PutStr(map[], "publisher", p.publisher), "desc", p.statusDescription)
      ["lastTime" := JNum(p.latestTime)]
      ["expiryTime" := JNum(p.expiryTime)]
      ["detail" := ModelArray(p.statusList, EncodePresenceDeviceStatus)]
  }

  /** Decoding an encoded presence gives it back, device statuses included, in order. */
  lemma PresenceRoundTrip(p: PresenceValue)
    ensures DecodePresence(EncodePresence(p)) == p
  {
    StatusListRoundTrip(p.statusList);
    var jo := EncodePresence(p);
    assert Get(jo, "detail") == Some(ModelArray(p.statusList, EncodePresenceDeviceStatus));
  }

  /** The device list survives its own round trip, in order. */
  lemma StatusListRoundTrip(statusList: seq<PresenceDeviceStatusValue>)
    ensures ModelList(Some(ModelArray(statusList, EncodePresenceDeviceStatus)), DecodePresenceDeviceStatus) == statusList
  {
    forall i | 0 <= i < |statusList|
      ensures DecodePresenceDeviceStatus(EncodePresenceDeviceStatus(statusList[i])) == statusList[i]
    {
      PresenceDeviceStatusRoundTrip(statusList[i]);
    }
    ModelListRoundTrip(statusList, EncodePresenceDeviceStatus, DecodePresenceDeviceStatus);
  }

  /** The encoding writes the five keys the decoding reads, the two strings only when not null. */
  lemma PresenceKeys(p: PresenceValue)
    ensures EncodePresence(p).Keys ==
      {"lastTime", "expiryTime", "detail"}
      + (if p.publisher.Some? then {"publisher"} else {})
      + (if p.statusDescription.Some? then {"desc"} else {})
  {
  }

  class Presence {
    var publisher: NString
    var statusList: seq<PresenceDeviceStatusValue>
    var statusDescription: NString
    var latestTime: int
    var expiryTime: int

    function Value(): PresenceValue
      reads this
    {
      PresenceValue(publisher, statusList, statusDescription, latestTime, expiryTime)
    }

    constructor ()
      ensures Value() == PresenceValue(None, [], None, 0, 0)
    {
      publisher, statusList, statusDescription, latestTime, expiryTime := None, [], None, 0, 0;
    }

    method FromJsonObject(jo: JsonObject)
      modifies this
      ensures Value() == DecodePresence(jo)
    {
      publisher := Str(Get(jo, "publisher"));
      statusDescription := Str(Get(jo, "desc"));
      latestTime := AsNum(Get(jo, "lastTime"));
      expiryTime := AsNum(Get(jo, "expiryTime"));
      statusList := ModelList(Get(jo, "detail"), DecodePresenceDeviceStatus);
    }

    function ToJsonObject(): JsonObject
      reads this
    {
      EncodePresence(Value())
    }
  }
}
