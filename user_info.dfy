/**
 * A user's public profile (UserInfo.cs). Decoding keeps a field only when its key holds a JSON
 * null; a key that is missing altogether reads as "" (or 0 for the gender) and overwrites it.
 */
module UserInfoModel {
  import opened Wrappers
  import opened Json
  import J = Json

  datatype UserInfoValue = UserInfoValue(
    nickName: NString,
    avatarUrl: NString,
    email: NString,
    phoneNumber: NString,
    signature: NString,
    birth: NString,
    userId: NString,
    ext: NString,
    gender: int)

  /** `new UserInfo()`: every string "" and the gender 0 (unknown). */
  function NewUserInfo(): UserInfoValue
  {
    UserInfoValue(Some(""), Some(""), Some(""), Some(""), Some(""), Some(""), Some(""), Some(""), 0)
  }

  /** One `if (!node.IsNull) field = node.Value;` step. */
  function Overwrite(prev: NString, n: Node): (s: NString)
    ensures IsNull(n) ==> s == prev
    ensures !IsNull(n) ==> s == Some(Value(n))
  {
    if IsNull(n) then prev else Some(Value(n))
  }

  /** `FromJsonObject`: `mail` is the email, `phone` the phone number and `sign` the signature. */
  function DecodeUserInfo(prev: UserInfoValue, jo: JsonObject): UserInfoValue
  {
    UserInfoValue(
      Overwrite(prev.nickName, Get(jo, "nickName")),
      Overwrite(prev.avatarUrl, Get(jo, "avatarUrl")),
      Overwrite(prev.email, Get(jo, "mail")),
      Overwrite(prev.phoneNumber, Get(jo, "phone")),
      Overwrite(prev.signature, Get(jo, "sign")),
      Overwrite(prev.birth, Get(jo, "birth")),
      Overwrite(prev.userId, Get(jo, "userId")),
      Overwrite(prev.ext, Get(jo, "ext")),
      if IsNull(Get(jo, "gender")) then prev.gender else AsNum(Get(jo, "gender")))
  }

  /** The six strings `ToJsonObject` writes first. */
  function EncodeProfile(u: UserInfoValue): JsonObject
  {
    PutStr(PutStr(PutStr(PutStr(PutStr(PutStr(map[], "nickName", u.nickName), "avatarUrl", u.avatarUrl),
      "mail", u.email), "phone", u.phoneNumber), "sign", u.signature), "birth", u.birth)
  }

  /** `ToJsonObject`: all nine keys, a null string left out. */
  function EncodeUserInfo(u: UserInfoValue): JsonObject
  {
    PutStr(PutStr(EncodeProfile(u)["gender" := JNum(u.gender)], "userId", u.userId), "ext", u.ext)
  }

  /** A string as it reads back after a round trip: a null one was not written and reads as "". */
  function Filled(s: NString): (r: NString)
    ensures r.Some? && (s.Some? ==> r == s)
  {
    Some(s.GetOr(""))
  }

  /** Decoding an encoded profile restores every field; only a null string comes back as "". */
  lemma UserInfoRoundTrip(prev: UserInfoValue, u: UserInfoValue)
    ensures DecodeUserInfo(prev, EncodeUserInfo(u)) ==
      UserInfoValue(Filled(u.nickName), Filled(u.avatarUrl), Filled(u.email), Filled(u.phoneNumber),
        Filled(u.signature), Filled(u.birth), Filled(u.userId), Filled(u.ext), u.gender)
  {
    ProfileReadBackHead(prev, u);
    ProfileReadBackTail(prev, u);
    TailFacts(prev, u);
  }

  lemma ProfileReadBackHead(prev: UserInfoValue, u: UserInfoValue)
    ensures Overwrite(prev.nickName, Get(EncodeUserInfo(u), "nickName")) == Filled(u.nickName)
    ensures Overwrite(prev.avatarUrl, Get(EncodeUserInfo(u), "avatarUrl")) == Filled(u.avatarUrl)
    ensures Overwrite(prev.email, Get(EncodeUserInfo(u), "mail")) == Filled(u.email)
  {
    ProfileHeadFacts(prev, u);
    KeepsProfile(u, "nickName");
    KeepsProfile(u, "avatarUrl");
    KeepsProfile(u, "mail");
  }

  lemma ProfileReadBackTail(prev: UserInfoValue, u: UserInfoValue)
    ensures Overwrite(prev.phoneNumber, Get(EncodeUserInfo(u), "phone")) == Filled(u.phoneNumber)
    ensures Overwrite(prev.signature, Get(EncodeUserInfo(u), "sign")) == Filled(u.signature)
    ensures Overwrite(prev.birth, Get(EncodeUserInfo(u), "birth")) == Filled(u.birth)
  {
    ProfileTailFacts(prev, u);
    KeepsProfile(u, "phone");
    KeepsProfile(u, "sign");
    KeepsProfile(u, "birth");
  }

  /** A profile whose strings are all set survives a round trip exactly. */
  lemma UserInfoRoundTripExact(prev: UserInfoValue, u: UserInfoValue)
    requires u.nickName.Some? && u.avatarUrl.Some? && u.email.Some? && u.phoneNumber.Some?
    requires u.signature.Some? && u.birth.Some? && u.userId.Some? && u.ext.Some?
    ensures DecodeUserInfo(prev, EncodeUserInfo(u)) == u
  {
    UserInfoRoundTrip(prev, u);
  }

  /** A JSON null keeps what the profile had; a missing key does not, and reads as the default. */
  lemma NullKeepsAbsentResets(prev: UserInfoValue)
    ensures DecodeUserInfo(prev, map["nickName" := JNull, "gender" := JNull]).nickName == prev.nickName
    ensures DecodeUserInfo(prev, map["nickName" := JNull, "gender" := JNull]).gender == prev.gender
    ensures DecodeUserInfo(prev, map[]) == NewUserInfo()
  {
  }

  /** Overwrite of a key just written by `AddWithoutNull`. */
  lemma OverwriteOfPut(prev: NString, o: JsonObject, k: string, s: NString)
    requires k !in o
    ensures Overwrite(prev, Get(PutStr(o, k, s), k)) == Filled(s)
  {
  }

  lemma ProfileHeadFacts(prev: UserInfoValue, u: UserInfoValue)
    ensures Overwrite(prev.nickName, Get(EncodeProfile(u), "nickName")) == Filled(u.nickName)
    ensures Overwrite(prev.avatarUrl, Get(EncodeProfile(u), "avatarUrl")) == Filled(u.avatarUrl)
    ensures Overwrite(prev.email, Get(EncodeProfile(u), "mail")) == Filled(u.email)
  {
  }

  lemma ProfileTailFacts(prev: UserInfoValue, u: UserInfoValue)
    ensures Overwrite(prev.phoneNumber, Get(EncodeProfile(u), "phone")) == Filled(u.phoneNumber)
    ensures Overwrite(prev.signature, Get(EncodeProfile(u), "sign")) == Filled(u.signature)
    ensures Overwrite(prev.birth, Get(EncodeProfile(u), "birth")) == Filled(u.birth)
  {
  }

  lemma TailFacts(prev: UserInfoValue, u: UserInfoValue)
    ensures Get(EncodeUserInfo(u), "gender") == Some(JNum(u.gender))
    ensures Overwrite(prev.userId, Get(EncodeUserInfo(u), "userId")) == Filled(u.userId)
    ensures Overwrite(prev.ext, Get(EncodeUserInfo(u), "ext")) == Filled(u.ext)
  {
    ProfileKeys(u);
    var withGender := EncodeProfile(u)["gender" := JNum(u.gender)];
    OverwriteOfPut(prev.userId, withGender, "userId", u.userId);
    OverwriteOfPut(prev.ext, PutStr(withGender, "userId", u.userId), "ext", u.ext);
  }

  lemma ProfileKeys(u: UserInfoValue)
    ensures EncodeProfile(u).Keys <= {"nickName", "avatarUrl", "mail", "phone", "sign", "birth"}
  {
  }

  /** The gender, the user id and the extension never overwrite the six profile strings. */
  lemma KeepsProfile(u: UserInfoValue, k: string)
    requires k in {"nickName", "avatarUrl", "mail", "phone", "sign", "birth"}
    ensures Get(EncodeUserInfo(u), k) == Get(EncodeProfile(u), k)
  {
  }

  class UserInfo {
    var nickName: NString
    var avatarUrl: NString
    var email: NString
    var phoneNumber: NString
    var signature: NString
    var birth: NString
    var userId: NString
    var ext: NString
    var gender: int

    function Value(): UserInfoValue
      reads this
    {
      UserInfoValue(nickName, avatarUrl, email, phoneNumber, signature, birth, userId, ext, gender)
    }

    constructor ()
      ensures Value() == NewUserInfo()
    {
      nickName, avatarUrl, email, phoneNumber, signature := Some(""), Some(""), Some(""), Some(""), Some("");
      birth, userId, ext, gender := Some(""), Some(""), Some(""), 0;
    }

    /** `FromJsonObject`: nine guarded assignments, in the source's order. */
    method FromJsonObject(jo: JsonObject)
      modifies this
      ensures Value() == DecodeUserInfo(old(Value()), jo)
    {
      AssignProfile(jo);
      AssignRest(jo);
    }

    method AssignProfile(jo: JsonObject)
      modifies this`nickName, this`avatarUrl, this`email, this`phoneNumber, this`signature
      ensures nickName == Overwrite(old(nickName), Get(jo, "nickName"))
      ensures avatarUrl == Overwrite(old(avatarUrl), Get(jo, "avatarUrl"))
      ensures email == Overwrite(old(email), Get(jo, "mail"))
      ensures phoneNumber == Overwrite(old(phoneNumber), Get(jo, "phone"))
      ensures signature == Overwrite(old(signature), Get(jo, "sign"))
    {
      if !IsNull(Get(jo, "nickName")) {
        nickName := Some(J.Value(Get(jo, "nickName")));
      }
      if !IsNull(Get(jo, "avatarUrl")) {
        avatarUrl := Some(J.Value(Get(jo, "avatarUrl")));
      }
      if !IsNull(Get(jo, "mail")) {
        email := Some(J.Value(Get(jo, "mail")));
      }
      if !IsNull(Get(jo, "phone")) {
        phoneNumber := Some(J.Value(Get(jo, "phone")));
      }
      if !IsNull(Get(jo, "sign")) {
        signature := Some(J.Value(Get(jo, "sign")));
      }
    }

    method AssignRest(jo: JsonObject)
      modifies this`birth, this`userId, this`gender, this`ext
      ensures birth == Overwrite(old(birth), Get(jo, "birth"))
      ensures userId == Overwrite(old(userId), Get(jo, "userId"))
      ensures gender == if IsNull(Get(jo, "gender")) then old(gender) else AsNum(Get(jo, "gender"))
      ensures ext == Overwrite(old(ext), Get(jo, "ext"))
    {
      if !IsNull(Get(jo, "birth")) {
        birth := Some(J.Value(Get(jo, "birth")));
      }
      if !IsNull(Get(jo, "userId")) {
        userId := Some(J.Value(Get(jo, "userId")));
      }
      if !IsNull(Get(jo, "gender")) {
        gender := AsNum(Get(jo, "gender"));
      }
      if !IsNull(Get(jo, "ext")) {
        ext := Some(J.Value(Get(jo, "ext")));
      }
    }

    function ToJsonObject(): JsonObject
      reads this
    {
      EncodeUserInfo(Value())
    }
  }
}
