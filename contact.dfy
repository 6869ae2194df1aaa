/** A contact and the remark the current user gave it (Contact.cs). */
module ContactModel {
  import opened Wrappers
  import opened Json

  datatype ContactValue = ContactValue(userId: NString, remark: NString)

  function DecodeContact(jo: JsonObject): ContactValue
  {
    ContactValue(Str(Get(jo, "userId")), Str(Get(jo, "remark")))
  }

  function EncodeContact(c: ContactValue): JsonObject
  {
    PutStr(PutStr(map[], "userId", c.userId), "remark", c.remark)
  }

  /** The encoding holds exactly the non-null ones of `userId` and `remark`, and decodes back to the same contact. */
  lemma ContactRoundTrip(c: ContactValue)
    ensures DecodeContact(EncodeContact(c)) == c
    ensures EncodeContact(c).Keys == (if c.userId.Some? then {"userId"} else {}) + (if c.remark.Some? then {"remark"} else {})
  {
  }

  /** The setters are private: after construction only a decode changes a contact. */
  class Contact {
    var userId: NString
    var remark: NString

    function Value(): ContactValue
      reads this
    {
      ContactValue(userId, remark)
    }

    constructor ()
      ensures Value() == ContactValue(None, None)
    {
      userId, remark := None, None;
    }

    method FromJsonObject(jo: JsonObject)
      modifies this
      ensures Value() == DecodeContact(jo)
    {
      userId := Str(Get(jo, "userId"));
      remark := Str(Get(jo, "remark"));
    }

    function ToJsonObject(): JsonObject
      reads this
    {
      EncodeContact(Value())
    }
  }
}
