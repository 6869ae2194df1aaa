/**
 * The small `Process` lambdas the managers use to turn a native result node into a plain
 * value: the result is taken only when the node has the expected kind, and a fixed fallback
 * is returned otherwise.
 */
module NativeResults {
  import opened Wrappers
  import opened Json

  /** `node.IsBoolean ? node.AsBool : false`: only a JSON `true` reads as true. */
  function BooleanResult(n: Node): (b: bool)
    ensures b <==> n == Some(JBool(true))
  {
    if IsBoolean(n) then AsBool(n) else false
  }

  /** `node.IsNumber ? node.AsInt : -1`: a number is taken as it is, anything else reads as -1. */
  function NumberResult(n: Node): (k: int)
    ensures IsNumber(n) ==> k == n.value.n
    ensures !IsNumber(n) ==> k == -1
  {
    if IsNumber(n) then AsNum(n) else -1
  }

  /** `node.IsString ? node.Value : null`: a string is taken as it is, anything else reads as null. */
  function StringResult(n: Node): (s: NString)
    ensures s.Some? <==> IsString(n)
    ensures IsString(n) ==> s == Some(n.value.s)
  {
    if IsString(n) then Some(Value(n)) else None
  }

  /**
   * The announcement lambda `GetGroupAnnouncementFromServer` and `FetchRoomAnnouncement` share:
   * the string under `ret`, or null when `ret` holds anything else.
   */
  function AnnouncementResult(payload: Json): (announcement: NString)
    ensures announcement.Some? <==> IsString(Field(payload, "ret"))
    ensures IsString(Field(payload, "ret")) ==> announcement == Some(Field(payload, "ret").value.s)
  {
    StringResult(Field(payload, "ret"))
  }

  /** `ModelHelper.CreateWithJsonObject<T>`: a model for an object node, null for anything else. */
  function ModelOf<T>(n: Node, decode: JsonObject -> T): (m: Option<T>)
    ensures m.Some? <==> IsObject(n)
    ensures IsObject(n) ==> m == Some(decode(n.value.fields))
  {
    if IsObject(n) then Some(decode(n.value.fields)) else None
  }
}
