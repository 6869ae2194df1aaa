/**
 * The options a group is created with (GroupOptions.cs). The style is kept as the integer the
 * enum cast leaves, so a code that names no style survives a decode and an encode unchanged.
 */
module GroupOptionsModel {
  import opened Wrappers
  import opened Json
  import opened Enumerations

  datatype GroupOptionsValue = GroupOptionsValue(
    style: int,
    maxCount: int,
    inviteNeedConfirm: bool,
    ext: NString)

  /** `FromJsonObject`: `ext` is taken unless it is a JSON null, in which case the previous one stays. */
  function DecodeGroupOptions(prev: GroupOptionsValue, jo: JsonObject): (o: GroupOptionsValue)
    ensures IsNull(Get(jo, "ext")) ==> o.ext == prev.ext
    ensures !IsNull(Get(jo, "ext")) ==> o.ext == Str(Get(jo, "ext"))
  {
    GroupOptionsValue(
      AsNum(Get(jo, "style")),
      AsNum(Get(jo, "maxCount")),
      AsBool(Get(jo, "inviteNeedConfirm")),
      if IsNull(Get(jo, "ext")) then prev.ext else Str(Get(jo, "ext")))
  }

  /** `ToJsonObject`: the style code, the count and the confirmation flag; `ext` only when it is not null. */
  function EncodeGroupOptions(o: GroupOptionsValue): JsonObject
  {
    PutStr(map["style" := JNum(o.style), "maxCount" := JNum(o.maxCount), "inviteNeedConfirm" := JBool(o.inviteNeedConfirm)], "ext", o.ext)
  }

  /** The encoding holds `ext` exactly when the options carry one, and no other key beyond the three fixed ones. */
  lemma GroupOptionsKeys(o: GroupOptionsValue)
    ensures "ext" in EncodeGroupOptions(o) <==> o.ext.Some?
    ensures EncodeGroupOptions(o).Keys <= {"style", "maxCount", "inviteNeedConfirm", "ext"}
    ensures {"style", "maxCount", "inviteNeedConfirm"} <= EncodeGroupOptions(o).Keys
  {
  }

  /** Decoding the encoding gives the options back, style code and null `ext` included, whatever was there before. */
  lemma GroupOptionsRoundTrip(prev: GroupOptionsValue, o: GroupOptionsValue)
    ensures DecodeGroupOptions(prev, EncodeGroupOptions(o)) == o
  {
    var jo := EncodeGroupOptions(o);
    assert Get(jo, "style") == Some(JNum(o.style));
    assert Get(jo, "maxCount") == Some(JNum(o.maxCount));
    assert Get(jo, "inviteNeedConfirm") == Some(JBool(o.inviteNeedConfirm));
  }

  /** A style written through the public constructor reads back as the same named style. */
  lemma NamedStyleRoundTrip(prev: GroupOptionsValue, s: GroupStyle, count: int)
    ensures ToGroupStyle(DecodeGroupOptions(prev, EncodeGroupOptions(GroupOptionsValue(s.Code(), count, false, None))).style) == s
  {
    GroupOptionsRoundTrip(prev, GroupOptionsValue(s.Code(), count, false, None));
    GroupStyleCodeRoundTrip(s);
  }

  class GroupOptions {
    var style: int
    var maxCount: int
    var inviteNeedConfirm: bool
    var ext: NString

    function Value(): GroupOptionsValue
      reads this
    {
      GroupOptionsValue(style, maxCount, inviteNeedConfirm, ext)
    }

    /** The public constructor: at most 200 members, no confirmation and no extension unless given. */
    constructor (style: GroupStyle, count: int := 200, inviteNeedConfirm: bool := false, ext: NString := None)
      ensures Value() == GroupOptionsValue(style.Code(), count, inviteNeedConfirm, ext)
    {
      this.style, maxCount, this.inviteNeedConfirm, this.ext := style.Code(), count, inviteNeedConfirm, ext;
    }

    /** The internal empty constructor leaves every field at its zero value. */
    constructor Empty()
      ensures Value() == GroupOptionsValue(0, 0, false, None)
    {
      style, maxCount, inviteNeedConfirm, ext := 0, 0, false, None;
    }

    method FromJsonObject(jo: JsonObject)
      modifies this
      ensures Value() == DecodeGroupOptions(old(Value()), jo)
    {
      style := AsNum(Get(jo, "style"));
      maxCount := AsNum(Get(jo, "maxCount"));
      inviteNeedConfirm := AsBool(Get(jo, "inviteNeedConfirm"));
      if !IsNull(Get(jo, "ext")) {
        ext := Str(Get(jo, "ext"));
      }
    }

    function ToJsonObject(): JsonObject
      reads this
    {
      EncodeGroupOptions(Value())
    }
  }
}
