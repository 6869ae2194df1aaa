/**
 * The paged answers of the fetch calls (CursorResult.cs, PageResult.cs): a cursor or a page
 * count, and the items of the answer's `list` array that the caller's item decoder accepts.
 */
module PagedResults {
  import opened Wrappers
  import opened Json
  import opened Collections

  /**
   * The `foreach` both `FromJsonObject`s run over the `list` array: every item goes through the
   * decoder, and the non-null results are appended in array order.
   */
  method CollectItems<T>(items: seq<Json>, decode: Json -> Option<T>) returns (data: seq<T>)
    ensures data == FilterMap(items, decode)
    ensures |data| <= |items|
  {
    data := [];
    var i := 0;
    while i < |items|
      invariant 0 <= i <= |items|
      invariant data == FilterMap(items[..i], decode)
    {
      assert items[..i + 1][..i] == items[..i];
      var ret := decode(items[i]);
      if ret.Some? {
        data := data + [ret.value];
      }
      i := i + 1;
    }
    assert items[..i] == items;
    FilterMapLength(items, decode);
  }

  /** The `Data` a decode leaves: rebuilt from `list` when it is an array, otherwise the previous one. */
  function DecodedData<T>(prev: Option<seq<T>>, jo: JsonObject, decode: Json -> Option<T>): (d: Option<seq<T>>)
    ensures !IsArray(Get(jo, "list")) ==> d == prev
  {
    match Get(jo, "list")
    case Some(JArr(items)) => Some(FilterMap(items, decode))
    case _ => prev
  }

  /** What an array `list` decodes to: the accepted items, in order, none invented. */
  lemma DecodedDataOfArray<T>(prev: Option<seq<T>>, jo: JsonObject, decode: Json -> Option<T>, items: seq<Json>)
    requires Get(jo, "list") == Some(JArr(items))
    ensures DecodedData(prev, jo, decode).Some?
    ensures |DecodedData(prev, jo, decode).value| <= |items|
    ensures forall y :: y in DecodedData(prev, jo, decode).value ==> exists i :: 0 <= i < |items| && decode(items[i]) == Some(y)
    ensures (forall i :: 0 <= i < |items| ==> decode(items[i]).Some?) ==> |DecodedData(prev, jo, decode).value| == |items|
  {
    FilterMapLength(items, decode);
    forall y | y in FilterMap(items, decode)
      ensures exists i :: 0 <= i < |items| && decode(items[i]) == Some(y)
    {
      FilterMapOrigin(items, decode, y);
    }
  }

  /** `CursorResult.ToJsonObject`: only the cursor, and only when it is not null. */
  function EncodeCursor(cursor: NString): JsonObject
  {
    PutStr(map[], "cursor", cursor)
  }

  /** The encoding holds the cursor and nothing else, so decoding it restores the cursor and leaves `Data` alone. */
  lemma CursorRoundTrip<T>(cursor: NString, prev: Option<seq<T>>, decode: Json -> Option<T>)
    ensures Str(Get(EncodeCursor(cursor), "cursor")) == cursor
    ensures EncodeCursor(cursor).Keys <= {"cursor"}
    ensures DecodedData(prev, EncodeCursor(cursor), decode) == prev
  {
    StrOfPutStr(map[], "cursor", cursor);
  }

  class CursorResult<T> {
    var cursor: NString
    var data: Option<seq<T>>
    /** The item decoder; cleared once a decode has used it. */
    var callback: Option<Json -> Option<T>>

    /** Every constructor keeps only the item decoder; the string or object it is handed is not read. */
    constructor (callback: Option<Json -> Option<T>>)
      ensures this.cursor == None && data == None && this.callback == callback
    {
      this.cursor, data, this.callback := None, None, callback;
    }

    /** An array `list` needs the decoder, which a second decode no longer has. */
    method FromJsonObject(jo: JsonObject)
      requires IsArray(Get(jo, "list")) ==> callback.Some?
      modifies this
      ensures cursor == Str(Get(jo, "cursor"))
      ensures old(callback).Some? ==> data == DecodedData(old(data), jo, old(callback).value)
      ensures old(callback).None? ==> data == old(data)
      ensures callback == None
    {
      cursor := Str(Get(jo, "cursor"));
      var jn := Get(jo, "list");
      if jn.Some? && jn.value.JArr? {
        var items := CollectItems(jn.value.items, callback.value);
        data := Some(items);
      }
      callback := None;
    }

    function ToJsonObject(): JsonObject
      reads this
    {
      EncodeCursor(cursor)
    }
  }

  class PageResult<T> {
    var pageCount: int
    var data: Option<seq<T>>
    var callback: Option<Json -> Option<T>>

    constructor (callback: Option<Json -> Option<T>>)
      ensures pageCount == 0 && data == None && this.callback == callback
    {
      pageCount, data, this.callback := 0, None, callback;
    }

    method FromJsonObject(jo: JsonObject)
      requires IsArray(Get(jo, "list")) ==> callback.Some?
      modifies this
      ensures pageCount == AsNum(Get(jo, "count"))
      ensures old(callback).Some? ==> data == DecodedData(old(data), jo, old(callback).value)
      ensures old(callback).None? ==> data == old(data)
      ensures callback == None
    {
      pageCount := AsNum(Get(jo, "count"));
      var jn := Get(jo, "list");
      if jn.Some? && jn.value.JArr? {
        var items := CollectItems(jn.value.items, callback.value);
        data := Some(items);
      }
      callback := None;
    }

    /** A page result never encodes: its `ToJsonObject` is null. */
    function ToJsonObject(): (jo: Option<JsonObject>)
      ensures jo.None?
    {
      None
    }
  }
}
