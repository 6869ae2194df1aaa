/**
 * The message bodies (MessageBody.cs). The body class hierarchy is a datatype: a variant per
 * body class, each carrying that class's fields; the file-backed bodies (image, voice, video)
 * share the FileBody fields. A body travels as `{"type": <MessageBodyType code>, "body": {...}}`.
 */
module MessageBodyModel {
  import opened Wrappers
  import opened Json
  import opened Enumerations

  /** The fields FileBody declares and ImageBody, VoiceBody and VideoBody inherit. */
  datatype FileInfo = FileInfo(
    localPath: NString,
    displayName: NString,
    secret: NString,
    remotePath: NString,
    fileSize: int,
    downStatus: DownLoadStatus)

  /**
   * The read-only edit record every body carries (`OperationTime`, `OperatorId`,
   * `OperationCount`), filled by `FromJsonObjectToIMessageBody`.
   */
  datatype Operation = Operation(operationTime: int, operatorId: NString, operationCount: int)

  /** The edit record of a body nobody has modified: what a new body holds. */
  const NoOperation := Operation(0, None, 0)

  /**
   * `FromJsonObjectToIMessageBody`: the three edit keys, read as numbers and a string. An
   * absent `operatorId` and a JSON null one both read as null.
   */
  function DecodeOperation(jo: JsonObject): (op: Operation)
    ensures op.operatorId.None? <==> IsNullish(Get(jo, "operatorId"))
    ensures IsNumber(Get(jo, "operationTime")) ==> op.operationTime == Get(jo, "operationTime").value.n
    ensures IsNumber(Get(jo, "operationCount")) ==> op.operationCount == Get(jo, "operationCount").value.n
  {
    Operation(AsNum(Get(jo, "operationTime")), Str(Get(jo, "operatorId")), AsNum(Get(jo, "operationCount")))
  }

  datatype Body =
    | TextBody(text: NString, targetLanguages: Option<seq<string>>, translations: Option<map<string, string>>)
    | LocationBody(address: NString, buildingName: NString)
    | FileBody(file: FileInfo)
    | ImageBody(
        file: FileInfo,
        thumbnailLocalPath: NString,
        thumbnailRemotePath: NString,
        thumbnailSecret: NString,
        thumbnailDownStatus: DownLoadStatus,
        original: bool)
    | VoiceBody(file: FileInfo, duration: int)
    | VideoBody(
        file: FileInfo,
        thumbnaiLocationPath: NString,
        thumbnailRemotePath: NString,
        thumbnailSecret: NString,
        thumbnailDownStatus: DownLoadStatus,
        duration: int)
    | CmdBody(action: NString, deliverOnlineOnly: bool)
    | CustomBody(customEvent: NString, customParams: Option<map<string, string>>)
    | CombineBody(
        title: NString,
        summary: NString,
        compatibleText: NString,
        messageList: Option<seq<string>>,
        remotePath: NString,
        secret: NString,
        localPath: NString)
  {
    /** The `Type` tag every constructor of the body class sets. */
    function Type(): MessageBodyType
    {
      match this
      case TextBody(_, _, _) => TXT
      case LocationBody(_, _) => LOCATION
      case FileBody(_) => FILE
      case ImageBody(_, _, _, _, _, _) => IMAGE
      case VoiceBody(_, _) => VOICE
      case VideoBody(_, _, _, _, _, _) => VIDEO
      case CmdBody(_, _) => CMD
      case CustomBody(_, _) => CUSTOM
      case CombineBody(_, _, _, _, _, _, _) => COMBINE
    }

    predicate IsFileBacked()
    {
      FileBody? || ImageBody? || VoiceBody? || VideoBody?
    }
  }

  // ----- public constructors -----

  /** `TextBody(text)` sets only the text: the target languages and translations stay null. */
  function NewTextBody(text: NString): (b: Body)
    ensures b.Type() == TXT && b.text == text
    ensures b.targetLanguages.None? && b.translations.None?
  {
    TextBody(text, None, None)
  }

  function NewLocationBody(address: NString, buildName: NString): (b: Body)
    ensures b.Type() == LOCATION && b.address == address && b.buildingName == buildName
  {
    LocationBody(address, buildName)
  }

  /** The FileBody constructor; the download status starts PENDING and nothing is uploaded yet. */
  function NewFileInfo(localPath: NString, displayName: NString, fileSize: int): (f: FileInfo)
    ensures f.downStatus == PENDING && f.remotePath.None? && f.secret.None?
  {
    FileInfo(localPath, displayName, None, None, fileSize, PENDING)
  }

  function NewFileBody(localPath: NString, displayName: NString, fileSize: int): (b: Body)
    ensures b.Type() == FILE && b.file == NewFileInfo(localPath, displayName, fileSize)
  {
    FileBody(NewFileInfo(localPath, displayName, fileSize))
  }

  /** An image body is tagged IMAGE although its class derives from FileBody. */
  function NewImageBody(localPath: NString, displayName: NString, fileSize: int, original: bool): (b: Body)
    ensures b.Type() == IMAGE && b.Type() != FILE && b.IsFileBacked()
    ensures b.file == NewFileInfo(localPath, displayName, fileSize) && b.original == original
    ensures b.thumbnailDownStatus == PENDING
  {
    ImageBody(NewFileInfo(localPath, displayName, fileSize), None, None, None, PENDING, original)
  }

  function NewVoiceBody(localPath: NString, displayName: NString, duration: int, fileSize: int): (b: Body)
    ensures b.Type() == VOICE && b.IsFileBacked()
    ensures b.file == NewFileInfo(localPath, displayName, fileSize) && b.duration == duration
  {
    VoiceBody(NewFileInfo(localPath, displayName, fileSize), duration)
  }

  function NewVideoBody(localPath: NString, displayName: NString, duration: int, fileSize: int, thumbnailLocalPath: NString): (b: Body)
    ensures b.Type() == VIDEO && b.IsFileBacked()
    ensures b.file == NewFileInfo(localPath, displayName, fileSize) && b.duration == duration
    ensures b.thumbnaiLocationPath == thumbnailLocalPath && b.thumbnailDownStatus == PENDING
  {
    VideoBody(NewFileInfo(localPath, displayName, fileSize), thumbnailLocalPath, None, None, PENDING, duration)
  }

  function NewCmdBody(action: NString, deliverOnlineOnly: bool): (b: Body)
    ensures b.Type() == CMD && b.action == action && b.deliverOnlineOnly == deliverOnlineOnly
  {
    CmdBody(action, deliverOnlineOnly)
  }

  /** `CustomBody(customEvent, customParams = null)`: the parameters are null unless given. */
  function NewCustomBody(customEvent: NString, customParams: Option<map<string, string>>): (b: Body)
    ensures b.Type() == CUSTOM && b.customEvent == customEvent && b.customParams == customParams
  {
    CustomBody(customEvent, customParams)
  }

  function NewCombineBody(title: NString, summary: NString, compatibleText: NString, messageList: Option<seq<string>>): (b: Body)
    ensures b.Type() == COMBINE && b.title == title && b.summary == summary
    ensures b.compatibleText == compatibleText && b.messageList == messageList
    ensures b.remotePath.None? && b.secret.None? && b.localPath.None?
  {
    CombineBody(title, summary, compatibleText, messageList, None, None, None)
  }

  // ----- ToJsonObject -----

  /** The `?? ""` the encoders apply to some strings. */
  function OrEmpty(s: NString): string
  {
    s.GetOr("")
  }

  function EncodeFile(f: FileInfo): (jo: JsonObject)
  {
    map[
      "localPath" := JStr(OrEmpty(f.localPath)),
      "displayName" := JStr(OrEmpty(f.displayName)),
      "fileSize" := JNum(f.fileSize),
      "remotePath" := JStr(OrEmpty(f.remotePath)),
      "secret" := JStr(OrEmpty(f.secret)),
      "fileStatus" := JNum(f.downStatus.Code())]
  }

  function EncodeText(text: NString, langs: Option<seq<string>>, translations: Option<map<string, string>>): JsonObject
  {
    PutNode(PutNode(PutStr(map[], "content", text),
      "targetLanguages", NullableStringArray(langs)), "translations", NullableStringDictObject(translations))
  }

  function EncodeLocation(address: NString, building: NString): JsonObject
  {
    map["address" := JStr(OrEmpty(address)), "buildingName" := JStr(OrEmpty(building))]
  }

  function EncodeImage(f: FileInfo, tl: NString, tr: NString, ts: NString, tst: DownLoadStatus, original: bool): JsonObject
  {
    EncodeFile(f)[
      "thumbnailLocalPath" := JStr(OrEmpty(tl))][
      "thumbnailRemotePath" := JStr(OrEmpty(tr))][
      "thumbnailSecret" := JStr(OrEmpty(ts))][
      "thumbnailStatus" := JNum(tst.Code())][
      "sendOriginalImage" := JBool(original)]
  }

  function EncodeVoice(f: FileInfo, duration: int): JsonObject
  {
    EncodeFile(f)["duration" := JNum(duration)]
  }

  function EncodeVideo(f: FileInfo, tl: NString, tr: NString, ts: NString, tst: DownLoadStatus, duration: int): JsonObject
  {
    EncodeFile(f)[
      "thumbnailRemotePath" := JStr(OrEmpty(tr))][
      "thumbnailSecret" := JStr(OrEmpty(ts))][
      "thumbnailLocalPath" := JStr(OrEmpty(tl))][
      "thumbnailStatus" := JNum(tst.Code())][
      "duration" := JNum(duration)]
  }

  function EncodeCmd(action: NString, deliverOnlineOnly: bool): JsonObject
  {
    map["deliverOnlineOnly" := JBool(deliverOnlineOnly), "action" := JStr(OrEmpty(action))]
  }

  function EncodeCustom(customEvent: NString, params: Option<map<string, string>>): JsonObject
  {
    PutNode(PutStr(map[], "event", customEvent), "params", NullableStringDictObject(params))
  }

  /** The paths and secret of a combined body, written first, each left out when null. */
  function EncodeCombinePaths(remote: NString, secret: NString, local: NString): JsonObject
  {
    PutStr(PutStr(PutStr(map[], "remotePath", remote), "secret", secret), "localPath", local)
  }

  /** The six strings of a combined body, each left out when null. */
  function EncodeCombineStrings(title: NString, summary: NString, compat: NString,
                                remote: NString, secret: NString, local: NString): JsonObject
  {
    PutStr(PutStr(PutStr(EncodeCombinePaths(remote, secret, local), "title", title), "summary", summary), "compatibleText", compat)
  }

  function EncodeCombine(title: NString, summary: NString, compat: NString, list: Option<seq<string>>,
                         remote: NString, secret: NString, local: NString): JsonObject
  {
    PutNode(EncodeCombineStrings(title, summary, compat, remote, secret, local), "messageList", NullableStringArray(list))
  }

  /** The inner `body` object of each variant. */
  function EncodeFields(b: Body): JsonObject
  {
    match b
    case TextBody(text, langs, translations) => EncodeText(text, langs, translations)
    case LocationBody(address, building) => EncodeLocation(address, building)
    case FileBody(f) => EncodeFile(f)
    case ImageBody(f, tl, tr, ts, tst, original) => EncodeImage(f, tl, tr, ts, tst, original)
    case VoiceBody(f, duration) => EncodeVoice(f, duration)
    case VideoBody(f, tl, tr, ts, tst, duration) => EncodeVideo(f, tl, tr, ts, tst, duration)
    case CmdBody(action, deliverOnlineOnly) => EncodeCmd(action, deliverOnlineOnly)
    case CustomBody(customEvent, params) => EncodeCustom(customEvent, params)
    case CombineBody(title, summary, compat, list, remote, secret, local) =>
      EncodeCombine(title, summary, compat, list, remote, secret, local)
  }

  /** `IMessageBody.ToJsonObject` and its overrides: the type tag beside the variant's fields. */
  function EncodeBody(b: Body): (jo: JsonObject)
    ensures jo.Keys == {"type", "body"}
    ensures jo["type"] == JNum(b.Type().Code()) && jo["body"].JObj?
  {
    map["type" := JNum(b.Type().Code()), "body" := JObj(EncodeFields(b))]
  }

  // ----- FromJsonObject -----

  function DecodeFile(jo: JsonObject): FileInfo
  {
    FileInfo(
      Str(Get(jo, "localPath")),
      Str(Get(jo, "displayName")),
      Str(Get(jo, "secret")),
      Str(Get(jo, "remotePath")),
      AsNum(Get(jo, "fileSize")),
      ToDownLoadStatus(AsNum(Get(jo, "fileStatus"))))
  }

  function DecodeText(jo: JsonObject): Body
  {
    TextBody(Str(Get(jo, "content")), Some(StringList(Get(jo, "targetLanguages"))), Some(StringDict(Get(jo, "translations"))))
  }

  function DecodeLocation(jo: JsonObject): Body
  {
    LocationBody(Some(Value(Get(jo, "address"))), Some(Value(Get(jo, "buildingName"))))
  }

  function DecodeVoice(jo: JsonObject): Body
  {
    VoiceBody(DecodeFile(jo), AsNum(Get(jo, "duration")))
  }

  function DecodeCmd(jo: JsonObject): Body
  {
    CmdBody(Some(Value(Get(jo, "action"))), AsBool(Get(jo, "deliverOnlineOnly")))
  }

  function DecodeCustom(jo: JsonObject): Body
  {
    CustomBody(Some(Value(Get(jo, "event"))), Some(StringDict(Get(jo, "params"))))
  }

  function DecodeImage(jo: JsonObject): Body
  {
    ImageBody(DecodeFile(jo),
      Some(Value(Get(jo, "thumbnailLocalPath"))),
      Some(Value(Get(jo, "thumbnailRemotePath"))),
      Some(Value(Get(jo, "thumbnailSecret"))),
      ToDownLoadStatus(AsNum(Get(jo, "thumbnailStatus"))),
      AsBool(Get(jo, "sendOriginalImage")))
  }

  function DecodeVideo(jo: JsonObject): Body
  {
    VideoBody(DecodeFile(jo),
      Str(Get(jo, "thumbnailLocalPath")),
      Str(Get(jo, "thumbnailRemotePath")),
      Str(Get(jo, "thumbnailSecret")),
      ToDownLoadStatus(AsNum(Get(jo, "thumbnailStatus"))),
      AsNum(Get(jo, "duration")))
  }

  function DecodeCombine(jo: JsonObject): Body
  {
    CombineBody(
      Str(Get(jo, "title")), Str(Get(jo, "summary")), Str(Get(jo, "compatibleText")),
      Some(StringList(Get(jo, "messageList"))),
      Str(Get(jo, "remotePath")), Str(Get(jo, "secret")), Str(Get(jo, "localPath")))
  }

  /** Each body class's `FromJsonObject`, chosen by the type tag; derived bodies read the FileBody keys first. */
  function DecodeFields(t: MessageBodyType, jo: JsonObject): (b: Body)
    ensures b.Type() == t
  {
    match t
    case TXT => DecodeText(jo)
    case LOCATION => DecodeLocation(jo)
    case FILE => FileBody(DecodeFile(jo))
    case IMAGE => DecodeImage(jo)
    case VOICE => DecodeVoice(jo)
    case VIDEO => DecodeVideo(jo)
    case CMD => DecodeCmd(jo)
    case CUSTOM => DecodeCustom(jo)
    case COMBINE => DecodeCombine(jo)
  }

  /** The fields object under `body`; a missing or malformed one reads as empty. */
  function InnerFields(n: Node): JsonObject
  {
    match n
    case Some(JObj(m)) => m
    case _ => map[]
  }

  /**
   * Building a body from a message's `body` node: an object whose type code names a body type
   * gives that body, decoded from the object under its `body` key; anything else gives no body.
   */
  function CreateBody(n: Node): (r: Option<Body>)
    ensures r.Some? ==> IsObject(n) && ToMessageBodyType(AsNum(Get(n.value.fields, "type"))) == Some(r.value.Type())
    ensures IsObject(n) && 0 <= AsNum(Get(n.value.fields, "type")) <= 8 ==> r.Some?
  {
    match n
    case Some(JObj(o)) =>
      (match ToMessageBodyType(AsNum(Get(o, "type")))
       case Some(t) => Some(DecodeFields(t, InnerFields(Get(o, "body"))))
       case None => None)
    case _ => None
  }

  // ----- round trip -----

  function FileOrEmpty(f: FileInfo): FileInfo
  {
    f.(localPath := Some(OrEmpty(f.localPath)), displayName := Some(OrEmpty(f.displayName)),
       secret := Some(OrEmpty(f.secret)), remotePath := Some(OrEmpty(f.remotePath)))
  }

  /** A null list as the list helpers read it back: empty. */
  function ListOrEmpty(l: Option<seq<string>>): Option<seq<string>>
  {
    Some(l.GetOr([]))
  }

  /** A null dictionary as the dictionary helpers read it back: empty. */
  function DictOrEmpty(d: Option<map<string, string>>): Option<map<string, string>>
  {
    Some(d.GetOr(map[]))
  }

  /**
   * What a body looks like after a trip through JSON: the strings the encoder writes with `?? ""`,
   * and the ones the decoder reads with `.Value`, come back as "" where they were null; a null
   * list or dictionary is left out by the encoder and comes back empty.
   */
  function AfterRoundTrip(b: Body): Body
  {
    match b
    case TextBody(t, l, tr) => TextBody(t, ListOrEmpty(l), DictOrEmpty(tr))
    case LocationBody(a, bn) => LocationBody(Some(OrEmpty(a)), Some(OrEmpty(bn)))
    case FileBody(f) => FileBody(FileOrEmpty(f))
    case ImageBody(f, tl, tr, ts, tst, o) =>
      ImageBody(FileOrEmpty(f), Some(OrEmpty(tl)), Some(OrEmpty(tr)), Some(OrEmpty(ts)), tst, o)
    case VoiceBody(f, d) => VoiceBody(FileOrEmpty(f), d)
    case VideoBody(f, tl, tr, ts, tst, d) =>
      VideoBody(FileOrEmpty(f), Some(OrEmpty(tl)), Some(OrEmpty(tr)), Some(OrEmpty(ts)), tst, d)
    case CmdBody(a, d) => CmdBody(Some(OrEmpty(a)), d)
    case CustomBody(e, p) => CustomBody(Some(OrEmpty(e)), DictOrEmpty(p))
    case CombineBody(t, s, c, l, r, sc, lp) => CombineBody(t, s, c, ListOrEmpty(l), r, sc, lp)
  }

  /** No string, list or dictionary field of the body is null. */
  predicate NoNulls(b: Body)
  {
    match b
    case TextBody(t, l, tr) => t.Some? && l.Some? && tr.Some?
    case LocationBody(a, bn) => a.Some? && bn.Some?
    case FileBody(f) => FileOrEmpty(f) == f
    case ImageBody(f, tl, tr, ts, _, _) => FileOrEmpty(f) == f && tl.Some? && tr.Some? && ts.Some?
    case VoiceBody(f, _) => FileOrEmpty(f) == f
    case VideoBody(f, tl, tr, ts, _, _) => FileOrEmpty(f) == f && tl.Some? && tr.Some? && ts.Some?
    case CmdBody(a, _) => a.Some?
    case CustomBody(e, p) => e.Some? && p.Some?
    case CombineBody(t, s, c, list, r, sc, l) =>
      t.Some? && s.Some? && c.Some? && list.Some? && r.Some? && sc.Some? && l.Some?
  }

  lemma DecodeEncodeFile(f: FileInfo)
    ensures DecodeFile(EncodeFile(f)) == FileOrEmpty(f)
  {
    DownLoadStatusCodeRoundTrip(f.downStatus);
  }

  /** Writing a key the FileBody decoder does not read leaves the decoded file fields alone. */
  lemma DecodeFileSkips(m: JsonObject, k: string, v: Json)
    requires k !in {"localPath", "displayName", "secret", "remotePath", "fileSize", "fileStatus"}
    ensures DecodeFile(m[k := v]) == DecodeFile(m)
  {
  }

  /** A body read back from its own JSON is the body, with null strings turned to "" where the encoder or decoder does that. */
  lemma BodyRoundTrip(b: Body)
    ensures CreateBody(Some(JObj(EncodeBody(b)))) == Some(AfterRoundTrip(b))
  {
    MessageBodyTypeCodeRoundTrip(b.Type());
    assert CreateBody(Some(JObj(EncodeBody(b)))) == Some(DecodeFields(b.Type(), EncodeFields(b)));
    FieldsRoundTrip(b);
  }

  lemma FieldsRoundTrip(b: Body)
    ensures DecodeFields(b.Type(), EncodeFields(b)) == AfterRoundTrip(b)
  {
    if b.TextBody? || b.LocationBody? || b.FileBody? || b.CmdBody? {
      PlainFieldsRoundTrip(b);
    } else if b.ImageBody? || b.VoiceBody? || b.VideoBody? {
      MediaFieldsRoundTrip(b);
    } else {
      CustomFieldsRoundTrip(b);
    }
  }

  /** The round trip of the text, location, file and command bodies. */
  lemma PlainFieldsRoundTrip(b: Body)
    requires b.TextBody? || b.LocationBody? || b.FileBody? || b.CmdBody?
    ensures DecodeFields(b.Type(), EncodeFields(b)) == AfterRoundTrip(b)
  {
    match b
    case TextBody(t, langs, tr) => TextRoundTrip(t, langs, tr);
    case LocationBody(a, bn) => LocationRoundTrip(a, bn);
    case FileBody(f) => DecodeEncodeFile(f);
    case CmdBody(a, d) => CmdRoundTrip(a, d);
  }

  /** The round trip of the image, voice and video bodies. */
  lemma MediaFieldsRoundTrip(b: Body)
    requires b.ImageBody? || b.VoiceBody? || b.VideoBody?
    ensures DecodeFields(b.Type(), EncodeFields(b)) == AfterRoundTrip(b)
  {
    match b
    case ImageBody(f, tl, tr, ts, tst, o) => ImageRoundTrip(f, tl, tr, ts, tst, o);
    case VoiceBody(f, d) => VoiceRoundTrip(f, d);
    case VideoBody(f, tl, tr, ts, tst, d) => VideoRoundTrip(f, tl, tr, ts, tst, d);
  }

  /** The round trip of the custom and combined bodies. */
  lemma CustomFieldsRoundTrip(b: Body)
    requires b.CustomBody? || b.CombineBody?
    ensures DecodeFields(b.Type(), EncodeFields(b)) == AfterRoundTrip(b)
  {
    match b
    case CustomBody(e, p) => CustomRoundTrip(e, p);
    case CombineBody(t, s, c, list, r, sc, l) => CombineRoundTrip(t, s, c, list, r, sc, l);
  }

  lemma TextRoundTrip(t: NString, langs: Option<seq<string>>, tr: Option<map<string, string>>)
    ensures DecodeText(EncodeText(t, langs, tr)) == TextBody(t, ListOrEmpty(langs), DictOrEmpty(tr))
  {
    StringListRoundTrip(langs.GetOr([]));
    StringDictRoundTrip(tr.GetOr(map[]));
  }

  lemma LocationRoundTrip(a: NString, bn: NString)
    ensures DecodeLocation(EncodeLocation(a, bn)) == LocationBody(Some(OrEmpty(a)), Some(OrEmpty(bn)))
  {
  }

  lemma VoiceRoundTrip(f: FileInfo, d: int)
    ensures DecodeVoice(EncodeVoice(f, d)) == VoiceBody(FileOrEmpty(f), d)
  {
    DecodeEncodeFile(f);
    DecodeFileSkips(EncodeFile(f), "duration", JNum(d));
  }

  lemma CmdRoundTrip(a: NString, d: bool)
    ensures DecodeCmd(EncodeCmd(a, d)) == CmdBody(Some(OrEmpty(a)), d)
  {
  }

  lemma CustomRoundTrip(e: NString, p: Option<map<string, string>>)
    ensures DecodeCustom(EncodeCustom(e, p)) == CustomBody(Some(OrEmpty(e)), DictOrEmpty(p))
  {
    StringDictRoundTrip(p.GetOr(map[]));
  }

  lemma CombineRoundTrip(t: NString, s: NString, c: NString, list: Option<seq<string>>, r: NString, sc: NString, l: NString)
    ensures DecodeCombine(EncodeCombine(t, s, c, list, r, sc, l)) == CombineBody(t, s, c, ListOrEmpty(list), r, sc, l)
  {
    var m := EncodeCombine(t, s, c, list, r, sc, l);
    CombineStringsRoundTrip(t, s, c, r, sc, l);
    assert Get(m, "messageList") == NullableStringArray(list);
    StringListRoundTrip(list.GetOr([]));
  }

  /** The six strings read back as written; `messageList` is not among the keys they use. */
  lemma CombineStringsRoundTrip(t: NString, s: NString, c: NString, r: NString, sc: NString, l: NString)
    ensures var m := EncodeCombineStrings(t, s, c, r, sc, l);
      "messageList" !in m &&
      Str(Get(m, "title")) == t && Str(Get(m, "summary")) == s && Str(Get(m, "compatibleText")) == c &&
      Str(Get(m, "remotePath")) == r && Str(Get(m, "secret")) == sc && Str(Get(m, "localPath")) == l
  {
    var p := EncodeCombinePaths(r, sc, l);
    CombinePathsRoundTrip(r, sc, l);
    CombineTitlesOver(p, t, s, c);
  }

  lemma CombinePathsRoundTrip(r: NString, sc: NString, l: NString)
    ensures EncodeCombinePaths(r, sc, l).Keys <= {"remotePath", "secret", "localPath"}
    ensures var m := EncodeCombinePaths(r, sc, l);
      Str(Get(m, "remotePath")) == r && Str(Get(m, "secret")) == sc && Str(Get(m, "localPath")) == l
  {
    var m1 := PutStr(map[], "remotePath", r);
    StrOfPutStr(map[], "remotePath", r);
    var m2 := PutStr(m1, "secret", sc);
    StrOfPutStr(m1, "secret", sc);
    PutStrOther(m1, "secret", sc, "remotePath");
    StrOfPutStr(m2, "localPath", l);
    PutStrOther(m2, "localPath", l, "remotePath");
    PutStrOther(m2, "localPath", l, "secret");
  }

  /** Writing the title, summary and compatible text over the paths reads back all six. */
  lemma CombineTitlesOver(p: JsonObject, t: NString, s: NString, c: NString)
    requires p.Keys <= {"remotePath", "secret", "localPath"}
    ensures var m := PutStr(PutStr(PutStr(p, "title", t), "summary", s), "compatibleText", c);
      "messageList" !in m &&
      Str(Get(m, "title")) == t && Str(Get(m, "summary")) == s && Str(Get(m, "compatibleText")) == c &&
      Get(m, "remotePath") == Get(p, "remotePath") && Get(m, "secret") == Get(p, "secret") &&
      Get(m, "localPath") == Get(p, "localPath")
  {
    var m1 := PutStr(p, "title", t);
    StrOfPutStr(p, "title", t);
    PutStrKeys(p, "title", t);
    var m2 := PutStr(m1, "summary", s);
    StrOfPutStr(m1, "summary", s);
    PutStrKeys(m1, "summary", s);
    PutStrOther(m1, "summary", s, "title");
    StrOfPutStr(m2, "compatibleText", c);
    PutStrKeys(m2, "compatibleText", c);
    PutStrOther(m2, "compatibleText", c, "title");
    PutStrOther(m2, "compatibleText", c, "summary");
  }

  lemma ImageRoundTrip(f: FileInfo, tl: NString, tr: NString, ts: NString, tst: DownLoadStatus, o: bool)
    ensures DecodeImage(EncodeImage(f, tl, tr, ts, tst, o))
         == ImageBody(FileOrEmpty(f), Some(OrEmpty(tl)), Some(OrEmpty(tr)), Some(OrEmpty(ts)), tst, o)
  {
    var m := EncodeImage(f, tl, tr, ts, tst, o);
    assert Get(m, "thumbnailLocalPath") == Some(JStr(OrEmpty(tl)));
    assert Get(m, "thumbnailRemotePath") == Some(JStr(OrEmpty(tr)));
    assert Get(m, "thumbnailSecret") == Some(JStr(OrEmpty(ts)));
    assert Get(m, "thumbnailStatus") == Some(JNum(tst.Code()));
    assert Get(m, "sendOriginalImage") == Some(JBool(o));
    DownLoadStatusCodeRoundTrip(tst);
    ImageFileRoundTrip(f, tl, tr, ts, tst, o);
  }

  /** The image keys are written over the FileBody keys without touching them. */
  lemma ImageFileRoundTrip(f: FileInfo, tl: NString, tr: NString, ts: NString, tst: DownLoadStatus, o: bool)
    ensures DecodeFile(EncodeImage(f, tl, tr, ts, tst, o)) == FileOrEmpty(f)
  {
    var m0 := EncodeFile(f);
    DecodeEncodeFile(f);
    var m1 := m0["thumbnailLocalPath" := JStr(OrEmpty(tl))];
    DecodeFileSkips(m0, "thumbnailLocalPath", JStr(OrEmpty(tl)));
    var m2 := m1["thumbnailRemotePath" := JStr(OrEmpty(tr))];
    DecodeFileSkips(m1, "thumbnailRemotePath", JStr(OrEmpty(tr)));
    var m3 := m2["thumbnailSecret" := JStr(OrEmpty(ts))];
    DecodeFileSkips(m2, "thumbnailSecret", JStr(OrEmpty(ts)));
    var m4 := m3["thumbnailStatus" := JNum(tst.Code())];
    DecodeFileSkips(m3, "thumbnailStatus", JNum(tst.Code()));
    DecodeFileSkips(m4, "sendOriginalImage", JBool(o));
  }

  lemma VideoRoundTrip(f: FileInfo, tl: NString, tr: NString, ts: NString, tst: DownLoadStatus, d: int)
    ensures DecodeVideo(EncodeVideo(f, tl, tr, ts, tst, d))
         == VideoBody(FileOrEmpty(f), Some(OrEmpty(tl)), Some(OrEmpty(tr)), Some(OrEmpty(ts)), tst, d)
  {
    var m := EncodeVideo(f, tl, tr, ts, tst, d);
    assert Get(m, "thumbnailRemotePath") == Some(JStr(OrEmpty(tr)));
    assert Get(m, "thumbnailSecret") == Some(JStr(OrEmpty(ts)));
    assert Get(m, "thumbnailLocalPath") == Some(JStr(OrEmpty(tl)));
    assert Get(m, "thumbnailStatus") == Some(JNum(tst.Code()));
    assert Get(m, "duration") == Some(JNum(d));
    DownLoadStatusCodeRoundTrip(tst);
    VideoFileRoundTrip(f, tl, tr, ts, tst, d);
  }

  /** The video keys are written over the FileBody keys without touching them. */
  lemma VideoFileRoundTrip(f: FileInfo, tl: NString, tr: NString, ts: NString, tst: DownLoadStatus, d: int)
    ensures DecodeFile(EncodeVideo(f, tl, tr, ts, tst, d)) == FileOrEmpty(f)
  {
    var m0 := EncodeFile(f);
    DecodeEncodeFile(f);
    var m1 := m0["thumbnailRemotePath" := JStr(OrEmpty(tr))];
    DecodeFileSkips(m0, "thumbnailRemotePath", JStr(OrEmpty(tr)));
    var m2 := m1["thumbnailSecret" := JStr(OrEmpty(ts))];
    DecodeFileSkips(m1, "thumbnailSecret", JStr(OrEmpty(ts)));
    var m3 := m2["thumbnailLocalPath" := JStr(OrEmpty(tl))];
    DecodeFileSkips(m2, "thumbnailLocalPath", JStr(OrEmpty(tl)));
    var m4 := m3["thumbnailStatus" := JNum(tst.Code())];
    DecodeFileSkips(m3, "thumbnailStatus", JNum(tst.Code()));
    DecodeFileSkips(m4, "duration", JNum(d));
  }

  /** A body without null fields survives the trip unchanged. */
  lemma AfterRoundTripKeepsComplete(b: Body)
    requires NoNulls(b)
    ensures AfterRoundTrip(b) == b
  {
  }

  /**
   * `ToJsonObject` never writes the edit record, so a body read back from its own JSON carries
   * the record of an unmodified body, whatever record it had.
   */
  lemma OperationNotWritten(b: Body)
    ensures "operationTime" !in EncodeBody(b) && "operatorId" !in EncodeBody(b) && "operationCount" !in EncodeBody(b)
    ensures DecodeOperation(EncodeBody(b)) == NoOperation
  {
  }
}
