/** A file shared in a group (GroupSharedFile.cs). */
module GroupSharedFileModel {
  import opened Wrappers
  import opened Json

  datatype GroupSharedFileValue = GroupSharedFileValue(
    fileName: NString,
    fileId: NString,
    fileOwner: NString,
    createTime: int,
    fileSize: int)

  /** `FromJsonObject`: the name comes from `name`, the owner from `owner`. */
  function DecodeGroupSharedFile(jo: JsonObject): GroupSharedFileValue
  {
    GroupSharedFileValue(
      Str(Get(jo, "name")),
      Str(Get(jo, "fileId")),
      Str(Get(jo, "owner")),
      AsNum(Get(jo, "createTime")),
      AsNum(Get(jo, "fileSize")))
  }

  function EncodeGroupSharedFile(f: GroupSharedFileValue): JsonObject
  {
    PutStr(PutStr(PutStr(map[], "name", f.fileName), "fileId", f.fileId), "owner", f.fileOwner)
      ["createTime" := JNum(f.createTime)]
      ["fileSize" := JNum(f.fileSize)]
  }

  /** The encoding holds the five keys (the strings only when not null), and decodes back to the same file. */
  lemma GroupSharedFileRoundTrip(f: GroupSharedFileValue)
    ensures DecodeGroupSharedFile(EncodeGroupSharedFile(f)) == f
    ensures EncodeGroupSharedFile(f).Keys ==
      {"createTime", "fileSize"}
      + (if f.fileName.Some? then {"name"} else {})
      + (if f.fileId.Some? then {"fileId"} else {})
      + (if f.fileOwner.Some? then {"owner"} else {})
  {
  }

  class GroupSharedFile {
    var fileName: NString
    var fileId: NString
    var fileOwner: NString
    var createTime: int
    var fileSize: int

    function Value(): GroupSharedFileValue
      reads this
    {
      GroupSharedFileValue(fileName, fileId, fileOwner, createTime, fileSize)
    }

    constructor ()
      ensures Value() == GroupSharedFileValue(None, None, None, 0, 0)
    {
      fileName, fileId, fileOwner, createTime, fileSize := None, None, None, 0, 0;
    }

    method FromJsonObject(jo: JsonObject)
      modifies this
      ensures Value() == DecodeGroupSharedFile(jo)
    {
      fileName := Str(Get(jo, "name"));
      fileId := Str(Get(jo, "fileId"));
      fileOwner := Str(Get(jo, "owner"));
      createTime := AsNum(Get(jo, "createTime"));
      fileSize := AsNum(Get(jo, "fileSize"));
    }

    function ToJsonObject(): JsonObject
      reads this
    {
      EncodeGroupSharedFile(Value())
    }
  }
}
