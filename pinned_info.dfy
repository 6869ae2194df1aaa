/** Who pinned a message and when (PinnedInfo.cs); there is no pin flag on the wire. */
module PinnedInfoModel {
  import opened Wrappers
  import opened Json

  datatype PinnedInfoValue = PinnedInfoValue(pinnedBy: NString, pinnedAt: int)

  function DecodePinnedInfo(jo: JsonObject): PinnedInfoValue
  {
    PinnedInfoValue(Str(Get(jo, "pinnedBy")), AsNum(Get(jo, "pinnedAt")))
  }

  function EncodePinnedInfo(p: PinnedInfoValue): JsonObject
  {
    PutStr(map[], "pinnedBy", p.pinnedBy)["pinnedAt" := JNum(p.pinnedAt)]
  }

  /** The encoding holds `pinnedBy` (unless null) and `pinnedAt`, never `isPinned`, and decodes back to the same record. */
  lemma PinnedInfoRoundTrip(p: PinnedInfoValue)
    ensures DecodePinnedInfo(EncodePinnedInfo(p)) == p
    ensures EncodePinnedInfo(p).Keys == {"pinnedAt"} + (if p.pinnedBy.Some? then {"pinnedBy"} else {})
    ensures "isPinned" !in EncodePinnedInfo(p)
  {
  }

  /** An `isPinned` key in the input has no effect on the decoded record. */
  lemma PinnedInfoIgnoresIsPinned(jo: JsonObject, j: Json)
    ensures DecodePinnedInfo(jo["isPinned" := j]) == DecodePinnedInfo(jo)
  {
    assert Get(jo["isPinned" := j], "pinnedBy") == Get(jo, "pinnedBy");
    assert Get(jo["isPinned" := j], "pinnedAt") == Get(jo, "pinnedAt");
  }

  /** The documented "no pinning information": an object without either key decodes to a null pinner at time 0. */
  lemma NoPinningInformation()
    ensures DecodePinnedInfo(map[]) == PinnedInfoValue(None, 0)
  {
  }

  class PinnedInfo {
    var pinnedBy: NString
    var pinnedAt: int

    function Value(): PinnedInfoValue
      reads this
    {
      PinnedInfoValue(pinnedBy, pinnedAt)
    }

    constructor ()
      ensures Value() == PinnedInfoValue(None, 0)
    {
      pinnedBy, pinnedAt := None, 0;
    }

    method FromJsonObject(jo: JsonObject)
      modifies this
      ensures Value() == DecodePinnedInfo(jo)
    {
      pinnedBy := Str(Get(jo, "pinnedBy"));
      pinnedAt := AsNum(Get(jo, "pinnedAt"));
    }

    function ToJsonObject(): JsonObject
      reads this
    {
      EncodePinnedInfo(Value())
    }
  }
}
