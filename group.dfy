/**
 * A chat group as the SDK describes it (Group.cs). Decoding and encoding do not use the same
 * keys: five fields are read but never written, and the creation options are neither.
 */
module GroupModel {
  import opened Wrappers
  import opened Json
  import opened Enumerations
  import opened GroupOptionsModel

  datatype GroupValue = GroupValue(
    groupId: NString,
    name: NString,
    description: NString,
    owner: NString,
    announcement: NString,
    memberCount: int,
    memberList: seq<string>,
    adminList: seq<string>,
    blockList: seq<string>,
    muteList: seq<string>,
    noticeEnabled: bool,
    messageBlocked: bool,
    isAllMemberMuted: bool,
    options: Option<GroupOptionsValue>,
    /** The integer the enum cast leaves: a code that names no role is kept as it is. */
    permissionType: int,
    isMemberOnly: bool,
    isMemberAllowToInvite: bool,
    maxUserCount: int,
    isDisabled: bool,
    ext: NString)

  /** The internal constructor: every field at its zero value. */
  function NewGroup(): GroupValue
  {
    GroupValue(None, None, None, None, None, 0, [], [], [], [], false, false, false, None, Member.Code(), false, false, 0, false, None)
  }

  /**
   * `FromJsonObject`: `desc` is the description, `block` the message-block flag and `isMuteAll`
   * the all-muted flag. The notice flag and the options are not read, so they keep what they were.
   */
  function DecodeGroup(prev: GroupValue, jo: JsonObject): (g: GroupValue)
    ensures g.noticeEnabled == prev.noticeEnabled && g.options == prev.options
  {
    GroupValue(
      Str(Get(jo, "groupId")),
      Str(Get(jo, "name")),
      Str(Get(jo, "desc")),
      Str(Get(jo, "owner")),
      Str(Get(jo, "announcement")),
      AsNum(Get(jo, "memberCount")),
      StringList(Get(jo, "memberList")),
      StringList(Get(jo, "adminList")),
      StringList(Get(jo, "blockList")),
      StringList(Get(jo, "muteList")),
      prev.noticeEnabled,
      AsBool(Get(jo, "block")),
      AsBool(Get(jo, "isMuteAll")),
      prev.options,
      AsNum(Get(jo, "permissionType")),
      AsBool(Get(jo, "isMemberOnly")),
      AsBool(Get(jo, "isMemberAllowToInvite")),
      AsNum(Get(jo, "maxUserCount")),
      AsBool(Get(jo, "isDisabled")),
      Str(Get(jo, "ext")))
  }

  /** The five strings `ToJsonObject` writes first. */
  function EncodeGroupNames(g: GroupValue): JsonObject
  {
    PutStr(PutStr(PutStr(PutStr(PutStr(map[], "groupId", g.groupId), "name", g.name), "desc", g.description), "owner", g.owner), "announcement", g.announcement)
  }

  /** The names, the count and the four lists, in the order `ToJsonObject` writes them. */
  function EncodeGroupHead(g: GroupValue): JsonObject
  {
    EncodeGroupNames(g)
      ["memberCount" := JNum(g.memberCount)]
      ["memberList" := StringArray(g.memberList)]
      ["adminList" := StringArray(g.adminList)]
      ["blockList" := StringArray(g.blockList)]
      ["muteList" := StringArray(g.muteList)]
  }

  /** `ToJsonObject`: the names, the count, the four lists, the two flags and the role code; nothing else. */
  function EncodeGroup(g: GroupValue): JsonObject
  {
    EncodeGroupHead(g)
      ["block" := JBool(g.messageBlocked)]
      ["isMuteAll" := JBool(g.isAllMemberMuted)]
      ["permissionType" := JNum(g.permissionType)]
  }

  /** Every key an encoded group can hold. */
  const WrittenKeys: set<string> := {"groupId", "name", "desc", "owner", "announcement", "memberCount",
    "memberList", "adminList", "blockList", "muteList", "block", "isMuteAll", "permissionType"}

  /** An encoded group holds only written keys. */
  lemma GroupKeys(g: GroupValue)
    ensures EncodeGroup(g).Keys <= WrittenKeys
  {
    EncodeGroupHeadKeys(g);
  }

  /** None of the read-only keys, nor the options, appear in an encoded group. */
  lemma GroupOmits(g: GroupValue)
    ensures "maxUserCount" !in EncodeGroup(g) && "isMemberOnly" !in EncodeGroup(g)
    ensures "isMemberAllowToInvite" !in EncodeGroup(g) && "ext" !in EncodeGroup(g)
    ensures "isDisabled" !in EncodeGroup(g) && "options" !in EncodeGroup(g)
  {
    GroupKeys(g);
    NotWritten(g, "maxUserCount");
    NotWritten(g, "isMemberOnly");
    NotWritten(g, "isMemberAllowToInvite");
    NotWritten(g, "ext");
    NotWritten(g, "isDisabled");
    NotWritten(g, "options");
  }

  lemma NotWritten(g: GroupValue, k: string)
    requires EncodeGroup(g).Keys <= WrittenKeys
    requires k !in WrittenKeys
    ensures k !in EncodeGroup(g)
  {
  }

  lemma EncodeGroupHeadKeys(g: GroupValue)
    ensures EncodeGroupHead(g).Keys <= {"groupId", "name", "desc", "owner", "announcement", "memberCount",
      "memberList", "adminList", "blockList", "muteList"}
  {
    EncodeGroupNamesKeys(g);
  }

  lemma EncodeGroupNamesKeys(g: GroupValue)
    ensures EncodeGroupNames(g).Keys <= {"groupId", "name", "desc", "owner", "announcement"}
  {
    var m1 := PutStr(map[], "groupId", g.groupId);
    var m2 := PutStr(m1, "name", g.name);
    var m3 := PutStr(m2, "desc", g.description);
    var m4 := PutStr(m3, "owner", g.owner);
    PutStrKeys(map[], "groupId", g.groupId);
    PutStrKeys(m1, "name", g.name);
    PutStrKeys(m2, "desc", g.description);
    PutStrKeys(m3, "owner", g.owner);
    PutStrKeys(m4, "announcement", g.announcement);
  }

  /**
   * Decoding an encoded group restores every field both directions share; the five read-only
   * fields come back as their zero values, and the notice flag and options are those of the target.
   */
  lemma GroupRoundTrip(prev: GroupValue, g: GroupValue)
    ensures DecodeGroup(prev, EncodeGroup(g)) ==
      g.(noticeEnabled := prev.noticeEnabled, options := prev.options,
         isMemberOnly := false, isMemberAllowToInvite := false, maxUserCount := 0, isDisabled := false, ext := None)
  {
    GroupNamesFacts(g);
    GroupHeadFacts(g);
    GroupTailFacts(g);
    GroupOmits(g);
    DecodeGroupFromFacts(prev, EncodeGroup(g), g);
  }

  lemma GroupNamesFacts(g: GroupValue)
    ensures Str(Get(EncodeGroupNames(g), "groupId")) == g.groupId
    ensures Str(Get(EncodeGroupNames(g), "name")) == g.name
    ensures Str(Get(EncodeGroupNames(g), "desc")) == g.description
    ensures Str(Get(EncodeGroupNames(g), "owner")) == g.owner
    ensures Str(Get(EncodeGroupNames(g), "announcement")) == g.announcement
  {
  }

  /** The later keys never overwrite the names. */
  lemma EncodeKeepsNames(g: GroupValue, k: string)
    requires k in {"groupId", "name", "desc", "owner", "announcement"}
    ensures Get(EncodeGroup(g), k) == Get(EncodeGroupNames(g), k)
  {
  }

  lemma GroupHeadFacts(g: GroupValue)
    ensures Get(EncodeGroup(g), "memberCount") == Some(JNum(g.memberCount))
    ensures Get(EncodeGroup(g), "memberList") == Some(StringArray(g.memberList))
    ensures Get(EncodeGroup(g), "adminList") == Some(StringArray(g.adminList))
    ensures Get(EncodeGroup(g), "blockList") == Some(StringArray(g.blockList))
    ensures Get(EncodeGroup(g), "muteList") == Some(StringArray(g.muteList))
  {
  }

  lemma GroupTailFacts(g: GroupValue)
    ensures Str(Get(EncodeGroup(g), "groupId")) == g.groupId
    ensures Str(Get(EncodeGroup(g), "name")) == g.name
    ensures Str(Get(EncodeGroup(g), "desc")) == g.description
    ensures Str(Get(EncodeGroup(g), "owner")) == g.owner
    ensures Str(Get(EncodeGroup(g), "announcement")) == g.announcement
    ensures Get(EncodeGroup(g), "block") == Some(JBool(g.messageBlocked))
    ensures Get(EncodeGroup(g), "isMuteAll") == Some(JBool(g.isAllMemberMuted))
    ensures Get(EncodeGroup(g), "permissionType") == Some(JNum(g.permissionType))
  {
    GroupNamesFacts(g);
    EncodeKeepsNames(g, "groupId");
    EncodeKeepsNames(g, "name");
    EncodeKeepsNames(g, "desc");
    EncodeKeepsNames(g, "owner");
    EncodeKeepsNames(g, "announcement");
  }

  /** Any object holding the written keys as the encoder writes them, and none of the read-only ones, decodes this way. */
  lemma DecodeGroupFromFacts(prev: GroupValue, jo: JsonObject, g: GroupValue)
    requires Str(Get(jo, "groupId")) == g.groupId
    requires Str(Get(jo, "name")) == g.name
    requires Str(Get(jo, "desc")) == g.description
    requires Str(Get(jo, "owner")) == g.owner
    requires Str(Get(jo, "announcement")) == g.announcement
    requires Get(jo, "memberCount") == Some(JNum(g.memberCount))
    requires Get(jo, "memberList") == Some(StringArray(g.memberList))
    requires Get(jo, "adminList") == Some(StringArray(g.adminList))
    requires Get(jo, "blockList") == Some(StringArray(g.blockList))
    requires Get(jo, "muteList") == Some(StringArray(g.muteList))
    requires Get(jo, "block") == Some(JBool(g.messageBlocked))
    requires Get(jo, "isMuteAll") == Some(JBool(g.isAllMemberMuted))
    requires Get(jo, "permissionType") == Some(JNum(g.permissionType))
    requires "maxUserCount" !in jo && "isMemberOnly" !in jo && "isMemberAllowToInvite" !in jo
    requires "ext" !in jo && "isDisabled" !in jo
    ensures DecodeGroup(prev, jo) ==
      g.(noticeEnabled := prev.noticeEnabled, options := prev.options,
         isMemberOnly := false, isMemberAllowToInvite := false, maxUserCount := 0, isDisabled := false, ext := None)
  {
    StringListRoundTrip(g.memberList);
    StringListRoundTrip(g.adminList);
    StringListRoundTrip(g.blockList);
    StringListRoundTrip(g.muteList);
  }

  /** A group whose read-only fields are at their zero values survives a round trip unchanged. */
  lemma GroupRoundTripExact(g: GroupValue)
    requires !g.isMemberOnly && !g.isMemberAllowToInvite && g.maxUserCount == 0 && !g.isDisabled && g.ext.None?
    ensures DecodeGroup(g, EncodeGroup(g)) == g
  {
    GroupRoundTrip(g, g);
  }

  /** A named role written by the encoder reads back as the same role. */
  lemma NamedPermissionRoundTrip(prev: GroupValue, g: GroupValue, p: GroupPermissionType)
    requires g.permissionType == p.Code()
    ensures ToPermissionType(DecodeGroup(prev, EncodeGroup(g)).permissionType) == p
  {
    GroupRoundTrip(prev, g);
    PermissionTypeCodeRoundTrip(p);
  }

  class Group {
    var groupId: NString
    var name: NString
    var description: NString
    var owner: NString
    var announcement: NString
    var memberCount: int
    var memberList: seq<string>
    var adminList: seq<string>
    var blockList: seq<string>
    var muteList: seq<string>
    var noticeEnabled: bool
    var messageBlocked: bool
    var isAllMemberMuted: bool
    var options: Option<GroupOptionsValue>
    var permissionType: int
    var isMemberOnly: bool
    var isMemberAllowToInvite: bool
    var maxUserCount: int
    var isDisabled: bool
    var ext: NString

    function Value(): GroupValue
      reads this
    {
      GroupValue(groupId, name, description, owner, announcement, memberCount, memberList, adminList, blockList, muteList,
        noticeEnabled, messageBlocked, isAllMemberMuted, options, permissionType, isMemberOnly, isMemberAllowToInvite,
        maxUserCount, isDisabled, ext)
    }

    constructor ()
      ensures Value() == NewGroup()
    {
      groupId, name, description, owner, announcement := None, None, None, None, None;
      memberCount, memberList, adminList, blockList, muteList := 0, [], [], [], [];
      noticeEnabled, messageBlocked, isAllMemberMuted, options := false, false, false, None;
      permissionType, isMemberOnly, isMemberAllowToInvite, maxUserCount, isDisabled, ext := 0, false, false, 0, false, None;
    }

    /** `FromJsonObject`: every field but the notice flag and the options, which keep their values. */
    method FromJsonObject(jo: JsonObject)
      modifies this
      ensures Value() == DecodeGroup(old(Value()), jo)
    {
      Assign(DecodeGroup(Value(), jo));
    }

    /** Overwrites every field with `g`. */
    method Assign(g: GroupValue)
      modifies this
      ensures Value() == g
    {
      AssignNames(g);
      AssignLists(g);
      AssignFlags(g);
    }

    method AssignNames(g: GroupValue)
      modifies this`groupId, this`name, this`description, this`owner, this`announcement, this`memberCount, this`noticeEnabled
      ensures groupId == g.groupId && name == g.name && description == g.description && owner == g.owner
      ensures announcement == g.announcement && memberCount == g.memberCount && noticeEnabled == g.noticeEnabled
    {
      groupId := g.groupId;
      name := g.name;
      description := g.description;
      owner := g.owner;
      announcement := g.announcement;
      memberCount := g.memberCount;
      noticeEnabled := g.noticeEnabled;
    }

    method AssignLists(g: GroupValue)
      modifies this`memberList, this`adminList, this`blockList, this`muteList, this`messageBlocked, this`isAllMemberMuted, this`options
      ensures memberList == g.memberList && adminList == g.adminList && blockList == g.blockList && muteList == g.muteList
      ensures messageBlocked == g.messageBlocked && isAllMemberMuted == g.isAllMemberMuted && options == g.options
    {
      memberList := g.memberList;
      adminList := g.adminList;
      blockList := g.blockList;
      muteList := g.muteList;
      messageBlocked := g.messageBlocked;
      isAllMemberMuted := g.isAllMemberMuted;
      options := g.options;
    }

    method AssignFlags(g: GroupValue)
      modifies this`maxUserCount, this`isMemberOnly, this`isMemberAllowToInvite, this`ext, this`permissionType, this`isDisabled
      ensures maxUserCount == g.maxUserCount && isMemberOnly == g.isMemberOnly && isMemberAllowToInvite == g.isMemberAllowToInvite
      ensures ext == g.ext && permissionType == g.permissionType && isDisabled == g.isDisabled
    {
      maxUserCount := g.maxUserCount;
      isMemberOnly := g.isMemberOnly;
      isMemberAllowToInvite := g.isMemberAllowToInvite;
      ext := g.ext;
      permissionType := g.permissionType;
      isDisabled := g.isDisabled;
    }

    function ToJsonObject(): JsonObject
      reads this
    {
      EncodeGroup(Value())
    }
  }
}
