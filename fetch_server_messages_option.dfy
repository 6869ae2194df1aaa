/**
 * The filter for pulling historical messages from the server (FetchServerMessagesOption.cs).
 * It is only ever sent: decoding one does nothing.
 */
module FetchServerMessagesOptionModel {
  import opened Wrappers
  import opened Json
  import opened Enumerations

  datatype FetchServerMessagesOptionValue = FetchServerMessagesOptionValue(
    isSave: bool,
    direction: MessageSearchDirection,
    from: NString,
    /** None is the null list, which asks for every type. */
    msgTypes: Option<seq<MessageBodyType>>,
    startTime: int,
    endTime: int)

  /** `new FetchServerMessagesOption()`: not saved, searching up, no sender or type filter, both times -1. */
  function NewFetchServerMessagesOption(): FetchServerMessagesOptionValue
  {
    FetchServerMessagesOptionValue(false, UP, None, None, -1, -1)
  }

  /** The wire codes of the requested types, in order; none for a null list. */
  function TypeCodes(msgTypes: Option<seq<MessageBodyType>>): (codes: seq<int>)
    ensures msgTypes.None? ==> codes == []
    ensures msgTypes.Some? ==> |codes| == |msgTypes.value|
  {
    match msgTypes
    case None => []
    case Some(ts) => seq(|ts|, i requires 0 <= i < |ts| => ts[i].Code())
  }

  /** Every code in the list names the type it came from, at the same position. */
  lemma TypeCodesDecode(ts: seq<MessageBodyType>)
    ensures |TypeCodes(Some(ts))| == |ts|
    ensures forall i :: 0 <= i < |ts| ==> ToMessageBodyType(TypeCodes(Some(ts))[i]) == Some(ts[i])
  {
    forall i | 0 <= i < |ts|
      ensures ToMessageBodyType(TypeCodes(Some(ts))[i]) == Some(ts[i])
    {
      MessageBodyTypeCodeRoundTrip(ts[i]);
    }
  }

  /** `ToJsonObject`: every field, the sender only when set and the types as their code list. */
  function EncodeFetchServerMessagesOption(o: FetchServerMessagesOptionValue): JsonObject
  {
    PutStr(map["isSave" := JBool(o.isSave), "direction" := JNum(o.direction.Code())], "from", o.from)
      ["types" := IntArray(TypeCodes(o.msgTypes))]
      ["startTime" := JNum(o.startTime)]
      ["endTime" := JNum(o.endTime)]
  }

  /** What the native layer receives: the filter as set, `from` exactly when a sender is named. */
  lemma FetchServerMessagesOptionEncoding(o: FetchServerMessagesOptionValue)
    ensures Get(EncodeFetchServerMessagesOption(o), "isSave") == Some(JBool(o.isSave))
    ensures Get(EncodeFetchServerMessagesOption(o), "direction") == Some(JNum(if o.direction == UP then 0 else 1))
    ensures Str(Get(EncodeFetchServerMessagesOption(o), "from")) == o.from
    ensures Get(EncodeFetchServerMessagesOption(o), "types") == Some(IntArray(TypeCodes(o.msgTypes)))
    ensures Get(EncodeFetchServerMessagesOption(o), "startTime") == Some(JNum(o.startTime))
    ensures Get(EncodeFetchServerMessagesOption(o), "endTime") == Some(JNum(o.endTime))
    ensures EncodeFetchServerMessagesOption(o).Keys <= {"isSave", "direction", "from", "types", "startTime", "endTime"}
  {
  }

  class FetchServerMessagesOption {
    var isSave: bool
    var direction: MessageSearchDirection
    var from: NString
    var msgTypes: Option<seq<MessageBodyType>>
    var startTime: int
    var endTime: int

    function Value(): FetchServerMessagesOptionValue
      reads this
    {
      FetchServerMessagesOptionValue(isSave, direction, from, msgTypes, startTime, endTime)
    }

    constructor ()
      ensures Value() == NewFetchServerMessagesOption()
    {
      isSave, direction, from, msgTypes, startTime, endTime := false, UP, None, None, -1, -1;
    }

    /** `FromJsonObject` is empty: the option is never read back. */
    method FromJsonObject(jo: JsonObject)
      ensures Value() == old(Value())
    {
    }

    /** `GetListFromMsgTypes`: the codes of the requested types, appended one by one. */
    method GetListFromMsgTypes() returns (list: seq<int>)
      ensures list == TypeCodes(msgTypes)
    {
      list := [];
      if msgTypes.Some? {
        var ts := msgTypes.value;
        var i := 0;
        while i < |ts|
          invariant 0 <= i <= |ts|
          invariant list == TypeCodes(Some(ts[..i]))
        {
          list := list + [ts[i].Code()];
          i := i + 1;
        }
        assert ts[..i] == ts;
      }
    }

    function ToJsonObject(): JsonObject
      reads this
    {
      EncodeFetchServerMessagesOption(Value())
    }
  }
}
