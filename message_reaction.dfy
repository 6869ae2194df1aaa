/** One reaction on a message: the emoji, how many users chose it, and who (MessageReaction.cs). */
module MessageReactionModel {
  import opened Wrappers
  import opened Json

  datatype MessageReactionValue = MessageReactionValue(reaction: NString, count: int, userList: seq<string>, state: bool)

  /** `FromJsonObject`: `isAddedBySelf` is the state. */
  function DecodeMessageReaction(jo: JsonObject): MessageReactionValue
  {
    MessageReactionValue(
      Str(Get(jo, "reaction")),
      AsNum(Get(jo, "count")),
      StringList(Get(jo, "userList")),
      AsBool(Get(jo, "isAddedBySelf")))
  }

  function EncodeMessageReaction(r: MessageReactionValue): JsonObject
  {
    PutStr(map[], "reaction", r.reaction)
      ["count" := JNum(r.count)]
      ["userList" := StringArray(r.userList)]
      ["isAddedBySelf" := JBool(r.state)]
  }

  /** The encoding holds the four keys the decoding reads, and decodes back to the same reaction. */
  lemma MessageReactionRoundTrip(r: MessageReactionValue)
    ensures DecodeMessageReaction(EncodeMessageReaction(r)) == r
    ensures EncodeMessageReaction(r).Keys == {"count", "userList", "isAddedBySelf"} + (if r.reaction.Some? then {"reaction"} else {})
  {
    StringListRoundTrip(r.userList);
  }

  class MessageReaction {
    var reaction: NString
    var count: int
    var userList: seq<string>
    var state: bool

    function Value(): MessageReactionValue
      reads this
    {
      MessageReactionValue(reaction, count, userList, state)
    }

    constructor ()
      ensures Value() == MessageReactionValue(None, 0, [], false)
    {
      reaction, count, userList, state := None, 0, [], false;
    }

    method FromJsonObject(jo: JsonObject)
      modifies this
      ensures Value() == DecodeMessageReaction(jo)
    {
      reaction := Str(Get(jo, "reaction"));
      count := AsNum(Get(jo, "count"));
      userList := StringList(Get(jo, "userList"));
      state := AsBool(Get(jo, "isAddedBySelf"));
    }

    function ToJsonObject(): JsonObject
      reads this
    {
      EncodeMessageReaction(Value())
    }
  }
}
