/** The id and name of a group, as the public group listing returns them (GroupInfo.cs). */
module GroupInfoModel {
  import opened Wrappers
  import opened Json

  datatype GroupInfoValue = GroupInfoValue(groupId: NString, groupName: NString)

  /** `FromJsonObject`: the name comes from `name`. */
  function DecodeGroupInfo(jo: JsonObject): GroupInfoValue
  {
    GroupInfoValue(Str(Get(jo, "groupId")), Str(Get(jo, "name")))
  }

  function EncodeGroupInfo(g: GroupInfoValue): JsonObject
  {
    PutStr(PutStr(map[], "groupId", g.groupId), "name", g.groupName)
  }

  /** The encoding holds exactly the non-null ones of `groupId` and `name`, and decodes back to the same record. */
  lemma GroupInfoRoundTrip(g: GroupInfoValue)
    ensures DecodeGroupInfo(EncodeGroupInfo(g)) == g
    ensures EncodeGroupInfo(g).Keys == (if g.groupId.Some? then {"groupId"} else {}) + (if g.groupName.Some? then {"name"} else {})
  {
  }

  class GroupInfo {
    var groupId: NString
    var groupName: NString

    function Value(): GroupInfoValue
      reads this
    {
      GroupInfoValue(groupId, groupName)
    }

    constructor ()
      ensures Value() == GroupInfoValue(None, None)
    {
      groupId, groupName := None, None;
    }

    method FromJsonObject(jo: JsonObject)
      modifies this
      ensures Value() == DecodeGroupInfo(jo)
    {
      groupId := Str(Get(jo, "groupId"));
      groupName := Str(Get(jo, "name"));
    }

    function ToJsonObject(): JsonObject
      reads this
    {
      EncodeGroupInfo(Value())
    }
  }
}
