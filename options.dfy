/**
 * The SDK's start-up options (Options.cs). They are only ever sent to the native layer: the
 * encoder writes the settings, the data path and the optional server overrides, and decoding
 * does nothing. The platform's persistent-data directory is a parameter of the encoder.
 */
module OptionsModel {
  import opened Wrappers
  import opened Json
  import opened Enumerations

  datatype OptionsValue = OptionsValue(
    appKey: NString,
    dnsUrl: NString,
    imServer: NString,
    restServer: NString,
    imPort: int,
    enableDnsConfig: bool,
    debugMode: bool,
    autoLogin: bool,
    acceptInvitationAlways: bool,
    autoAcceptGroupInvitation: bool,
    requireAck: bool,
    requireDeliveryAck: bool,
    deleteMessagesAsExitGroup: bool,
    deleteMessagesAsExitRoom: bool,
    isRoomOwnerLeaveAllowed: bool,
    sortMessageByServerTime: bool,
    usingHttpsOnly: bool,
    serverTransfer: bool,
    isAutoDownload: bool,
    enableEmptyConversation: bool,
    useReplacedMessageContents: bool,
    includeSendMessageInMessageListener: bool,
    customOSType: int,
    customDeviceName: NString,
    loginCustomExt: NString,
    areaCode: AreaCode,
    myUUID: NString,
    regardImportMsgAsRead: bool,
    sdkDataPath: NString)

  /** `new Options(appKey)`: the key given, every other field at its declared default. */
  function NewOptions(appKey: NString): (o: OptionsValue)
    ensures o.appKey == appKey && o.areaCode == GLOB && o.imPort == 0 && o.customOSType == -1
    ensures o.dnsUrl == Some("") && o.imServer == Some("") && o.restServer == Some("") && o.sdkDataPath == Some("")
    ensures o.enableDnsConfig && o.requireAck && !o.requireDeliveryAck && !o.debugMode && !o.autoLogin
  {
    OptionsValue(appKey, Some(""), Some(""), Some(""), 0, true, false, false, false, false,
      true, false, true, true, true, true, true, true, true, false, false, false,
      -1, Some(""), Some(""), GLOB, Some(""), false, Some(""))
  }

  /** The app key and the first seven flags. */
  function EncodeLogin(o: OptionsValue): JsonObject
  {
    PutStr(map[], "appKey", o.appKey)
      ["debugMode" := JBool(o.debugMode)]
      ["autoLogin" := JBool(o.autoLogin)]
      ["acceptInvitationAlways" := JBool(o.acceptInvitationAlways)]
      ["autoAcceptGroupInvitation" := JBool(o.autoAcceptGroupInvitation)]
      ["requireAck" := JBool(o.requireAck)]
      ["requireDeliveryAck" := JBool(o.requireDeliveryAck)]
  }

  /** The four message-retention flags. */
  function EncodeRetention(o: OptionsValue): JsonObject
  {
    EncodeLogin(o)
      ["deleteMessagesAsExitGroup" := JBool(o.deleteMessagesAsExitGroup)]
      ["deleteMessagesAsExitRoom" := JBool(o.deleteMessagesAsExitRoom)]
      ["isRoomOwnerLeaveAllowed" := JBool(o.isRoomOwnerLeaveAllowed)]
      ["sortMessageByServerTime" := JBool(o.sortMessageByServerTime)]
  }

  /** The flags written up to `enableDnsConfig`, the area code among them. */
  function EncodeFlags(o: OptionsValue): JsonObject
  {
    EncodeRetention(o)
      ["usingHttpsOnly" := JBool(o.usingHttpsOnly)]
      ["serverTransfer" := JBool(o.serverTransfer)]
      ["isAutoDownload" := JBool(o.isAutoDownload)]
      ["areaCode" := JNum(o.areaCode.Code())]
      ["enableDnsConfig" := JBool(o.enableDnsConfig)]
  }

  /** The device keys written after the flags. */
  function EncodeDevice(o: OptionsValue): JsonObject
  {
    PutStr(EncodeFlags(o), "myUUID", o.myUUID)
      ["enableEmptyConversation" := JBool(o.enableEmptyConversation)]
      ["useReplacedMessageContents" := JBool(o.useReplacedMessageContents)]
      ["customOSType" := JNum(o.customOSType)]
  }

  /** Every key `ToJsonObject` writes unconditionally (a null string excepted). */
  function EncodeSettings(o: OptionsValue): JsonObject
  {
    PutStr(PutStr(EncodeDevice(o), "customDeviceName", o.customDeviceName), "loginCustomExt", o.loginCustomExt)
      ["regardImportMsgAsRead" := JBool(o.regardImportMsgAsRead)]
      ["includeSendMessageInMessageListener" := JBool(o.includeSendMessageInMessageListener)]
  }

  /**
   * The data path sent: the platform's persistent-data directory when `SDKDataPath` is empty
   * (None on a build that has none), the configured path otherwise.
   */
  function DataPath(o: OptionsValue, platformDataPath: NString): (p: NString)
    requires o.sdkDataPath.Some?
    ensures o.sdkDataPath.value != "" ==> p == o.sdkDataPath
  {
    if |o.sdkDataPath.value| == 0 then platformDataPath else o.sdkDataPath
  }

  /**
   * `ToJsonObject`: the settings, the data path, and the server overrides only when set (the
   * port only when it is not 0). `SDKDataPath.Length` is read, so a null data path throws.
   */
  function EncodeOptions(o: OptionsValue, platformDataPath: NString): JsonObject
    requires o.sdkDataPath.Some?
  {
    EncodeServers(PutStr(EncodeSettings(o), "sdkDataPath", DataPath(o, platformDataPath)), o)
  }

  /** The server overrides, each only when set. */
  function EncodeServers(base: JsonObject, o: OptionsValue): JsonObject
  {
    var withServers := PutStr(PutStr(base, "restServer", o.restServer), "imServer", o.imServer);
    var withPort := if o.imPort != 0 then withServers["imPort" := JNum(o.imPort)] else withServers;
    PutStr(withPort, "dnsUrl", o.dnsUrl)
  }

  /** The keys `ToJsonObject` writes only under a condition. */
  const TailKeys: set<string> := {"sdkDataPath", "restServer", "imServer", "imPort", "dnsUrl"}

  lemma LoginOmitsTail(o: OptionsValue, k: string)
    requires k in TailKeys
    ensures k !in EncodeLogin(o)
  {
    PutStrKeys(map[], "appKey", o.appKey);
  }

  lemma RetentionOmitsTail(o: OptionsValue, k: string)
    requires k in TailKeys
    ensures k !in EncodeRetention(o)
  {
    LoginOmitsTail(o, k);
  }

  lemma FlagsOmitTail(o: OptionsValue, k: string)
    requires k in TailKeys
    ensures k !in EncodeFlags(o)
  {
    RetentionOmitsTail(o, k);
  }

  lemma DeviceOmitsTail(o: OptionsValue, k: string)
    requires k in TailKeys
    ensures k !in EncodeDevice(o)
  {
    FlagsOmitTail(o, k);
    PutStrOther(EncodeFlags(o), "myUUID", o.myUUID, k);
  }

  /** None of the conditional keys is written with the settings. */
  lemma SettingsOmitTail(o: OptionsValue, k: string)
    requires k in TailKeys
    ensures k !in EncodeSettings(o)
  {
    DeviceOmitsTail(o, k);
    PutStrOther(EncodeDevice(o), "customDeviceName", o.customDeviceName, k);
    PutStrOther(PutStr(EncodeDevice(o), "customDeviceName", o.customDeviceName), "loginCustomExt", o.loginCustomExt, k);
  }

  /**
   * The conditional keys: the port exactly when it is not 0, each server override exactly when
   * it is not null, and the configured data path whenever it is not empty.
   */
  lemma OptionsConditionalKeys(o: OptionsValue, platformDataPath: NString)
    requires o.sdkDataPath.Some?
    ensures "imPort" in EncodeOptions(o, platformDataPath) <==> o.imPort != 0
    ensures o.imPort != 0 ==> EncodeOptions(o, platformDataPath)["imPort"] == JNum(o.imPort)
    ensures Str(Get(EncodeOptions(o, platformDataPath), "restServer")) == o.restServer
    ensures Str(Get(EncodeOptions(o, platformDataPath), "imServer")) == o.imServer
    ensures Str(Get(EncodeOptions(o, platformDataPath), "dnsUrl")) == o.dnsUrl
    ensures Str(Get(EncodeOptions(o, platformDataPath), "sdkDataPath")) == DataPath(o, platformDataPath)
    ensures o.sdkDataPath.value != "" ==> Get(EncodeOptions(o, platformDataPath), "sdkDataPath") == Some(JStr(o.sdkDataPath.value))
  {
    SettingsOmitTail(o, "sdkDataPath");
    SettingsOmitTail(o, "restServer");
    SettingsOmitTail(o, "imServer");
    SettingsOmitTail(o, "imPort");
    SettingsOmitTail(o, "dnsUrl");
    var withPath := PutStr(EncodeSettings(o), "sdkDataPath", DataPath(o, platformDataPath));
    PutStrOther(EncodeSettings(o), "sdkDataPath", DataPath(o, platformDataPath), "restServer");
    PutStrOther(EncodeSettings(o), "sdkDataPath", DataPath(o, platformDataPath), "imServer");
    PutStrOther(EncodeSettings(o), "sdkDataPath", DataPath(o, platformDataPath), "imPort");
    PutStrOther(EncodeSettings(o), "sdkDataPath", DataPath(o, platformDataPath), "dnsUrl");
    StrOfPutStr(EncodeSettings(o), "sdkDataPath", DataPath(o, platformDataPath));
    ServersFacts(withPath, o);
    ServersKeep(withPath, o, "sdkDataPath");
  }

  /** The overrides as written on any object that does not hold them yet. */
  lemma ServersFacts(base: JsonObject, o: OptionsValue)
    requires "restServer" !in base && "imServer" !in base && "imPort" !in base && "dnsUrl" !in base
    ensures "imPort" in EncodeServers(base, o) <==> o.imPort != 0
    ensures o.imPort != 0 ==> EncodeServers(base, o)["imPort"] == JNum(o.imPort)
    ensures Str(Get(EncodeServers(base, o), "restServer")) == o.restServer
    ensures Str(Get(EncodeServers(base, o), "imServer")) == o.imServer
    ensures Str(Get(EncodeServers(base, o), "dnsUrl")) == o.dnsUrl
  {
  }

  /** The overrides leave every other key alone. */
  lemma ServersKeep(base: JsonObject, o: OptionsValue, k: string)
    requires k != "restServer" && k != "imServer" && k != "imPort" && k != "dnsUrl"
    ensures Get(EncodeServers(base, o), k) == Get(base, k)
  {
    var a := PutStr(base, "restServer", o.restServer);
    PutStrOther(base, "restServer", o.restServer, k);
    var withServers := PutStr(a, "imServer", o.imServer);
    PutStrOther(a, "imServer", o.imServer, k);
    var withPort := if o.imPort != 0 then withServers["imPort" := JNum(o.imPort)] else withServers;
    PutStrOther(withPort, "dnsUrl", o.dnsUrl, k);
  }

  /** The tail never overwrites a setting. */
  lemma EncodeKeepsSettings(o: OptionsValue, platformDataPath: NString, k: string)
    requires o.sdkDataPath.Some?
    requires k != "sdkDataPath" && k != "restServer" && k != "imServer" && k != "imPort" && k != "dnsUrl"
    ensures Get(EncodeOptions(o, platformDataPath), k) == Get(EncodeSettings(o), k)
  {
    PutStrOther(EncodeSettings(o), "sdkDataPath", DataPath(o, platformDataPath), k);
    ServersKeep(PutStr(EncodeSettings(o), "sdkDataPath", DataPath(o, platformDataPath)), o, k);
  }

  /** The area is written as its integer value, so `GLOB` goes out as -1. */
  lemma OptionsAreaCode(o: OptionsValue, platformDataPath: NString)
    requires o.sdkDataPath.Some?
    ensures Get(EncodeOptions(o, platformDataPath), "areaCode") == Some(JNum(o.areaCode.Code()))
    ensures o.areaCode == GLOB ==> Get(EncodeOptions(o, platformDataPath), "areaCode") == Some(JNum(-1))
  {
    EncodeKeepsSettings(o, platformDataPath, "areaCode");
    AreaCodeSetting(o);
  }

  lemma AreaCodeSetting(o: OptionsValue)
    ensures Get(EncodeSettings(o), "areaCode") == Some(JNum(o.areaCode.Code()))
  {
    var d := EncodeDevice(o);
    PutStrOther(EncodeFlags(o), "myUUID", o.myUUID, "areaCode");
    PutStrOther(d, "customDeviceName", o.customDeviceName, "areaCode");
    PutStrOther(PutStr(d, "customDeviceName", o.customDeviceName), "loginCustomExt", o.loginCustomExt, "areaCode");
  }

  /** With the declared defaults nothing optional is sent but the data path, which is the platform's. */
  lemma DefaultOptionsEncoding(appKey: NString, platformDataPath: NString)
    ensures "imPort" !in EncodeOptions(NewOptions(appKey), platformDataPath)
    ensures Get(EncodeOptions(NewOptions(appKey), platformDataPath), "restServer") == Some(JStr(""))
    ensures Str(Get(EncodeOptions(NewOptions(appKey), platformDataPath), "sdkDataPath")) == platformDataPath
  {
    OptionsConditionalKeys(NewOptions(appKey), platformDataPath);
  }

  /** `FromJsonObject` is empty: whatever object is handed over, the options stay as they were. */
  function DecodeOptions(prev: OptionsValue, jo: JsonObject): (o: OptionsValue)
    ensures o == prev
  {
    prev
  }
}
