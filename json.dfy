/**
 * The JSON nodes the binding reads and writes (SimpleJSON's JSONNode family), and the
 * behaviour of the accessors and of the list and dictionary helpers that every
 * `FromJsonObject` and `ToJsonObject` uses. Numbers are integers.
 */
module Json {
  import opened Wrappers
  import opened Collections

  datatype Json =
    | JNull
    | JBool(b: bool)
    | JNum(n: int)
    | JStr(s: string)
    | JArr(items: seq<Json>)
    | JObj(fields: map<string, Json>)

  /** A JSONObject: its keys and their nodes. */
  type JsonObject = map<string, Json>

  /** A C# string that may be null. */
  type NString = Option<string>

  /**
   * The node an indexer read returns: `None` is the placeholder SimpleJSON hands out for a
   * key the object does not hold.
   */
  type Node = Option<Json>

  function Get(o: JsonObject, key: string): Node
  {
    if key in o then Some(o[key]) else None
  }

  /** Reads a key off any payload node; a node that is not an object holds no keys. */
  function Field(payload: Json, key: string): Node
  {
    if payload.JObj? then Get(payload.fields, key) else None
  }

  /** `node == null`: true for the absent-key placeholder and for a JSON null. */
  predicate IsNullish(n: Node) { n.None? || n == Some(JNull) }

  /** `node.IsNull`: true only for a JSON null (the absent-key placeholder is not a null node). */
  predicate IsNull(n: Node) { n == Some(JNull) }

  predicate IsObject(n: Node) { n.Some? && n.value.JObj? }
  predicate IsArray(n: Node) { n.Some? && n.value.JArr? }
  predicate IsString(n: Node) { n.Some? && n.value.JStr? }
  predicate IsBoolean(n: Node) { n.Some? && n.value.JBool? }
  predicate IsNumber(n: Node) { n.Some? && n.value.JNum? }

  /** Decimal text of a natural number. */
  function NatToString(k: nat): (s: string)
    decreases k
  {
    if k < 10 then [DigitChar(k)] else NatToString(k / 10) + [DigitChar(k % 10)]
  }

  function DigitChar(d: nat): char
    requires d < 10
  {
    "0123456789"[d]
  }

  predicate IsDigit(c: char) { '0' <= c <= '9' }

  /** The value of a string of decimal digits. */
  function DigitsValue(s: string): nat
    requires forall i :: 0 <= i < |s| ==> IsDigit(s[i])
  {
    if s == [] then 0
    else
      assert IsDigit(s[|s| - 1]);
      DigitsValue(s[..|s| - 1]) * 10 + (s[|s| - 1] as int - '0' as int)
  }

  function IntToString(i: int): string
  {
    if i < 0 then "-" + NatToString(-i) else NatToString(i)
  }

  /** An optionally signed decimal numeral; anything else does not parse. */
  function ParseInt(s: string): Option<int>
  {
    var r: Option<int> :=
    if |s| > 0 && forall i :: 0 <= i < |s| ==> IsDigit(s[i]) then Some(DigitsValue(s))
    else if |s| > 1 && s[0] == '-' && forall i :: 1 <= i < |s| ==> IsDigit(s[i]) then Some(0 - DigitsValue(s[1..]))
    else None;
    r
  }

  lemma {:induction false} NatToStringDigits(k: nat)
    ensures |NatToString(k)| > 0
    ensures forall i :: 0 <= i < |NatToString(k)| ==> IsDigit(NatToString(k)[i])
    ensures DigitsValue(NatToString(k)) == k
    decreases k
  {
    DigitCharValue(k % 10);
    if k >= 10 {
      NatToStringDigits(k / 10);
      var p := NatToString(k / 10);
      var s := NatToString(k);
      assert s == p + [DigitChar(k % 10)];
      assert s[..|s| - 1] == p;
      assert DigitsValue(s) == DigitsValue(p) * 10 + k % 10;
    }
  }

  lemma DigitCharValue(d: nat)
    requires d < 10
    ensures IsDigit(DigitChar(d)) && DigitChar(d) as int - '0' as int == d
  {
  }

  /** The text of a number reads back as that number. */
  lemma ParseIntOfIntToString(i: int)
    ensures ParseInt(IntToString(i)) == Some(i)
  {
    if i < 0 {
      var k: nat := -i;
      assert IntToString(i) == "-" + NatToString(k);
      ParseIntOfNegative(k);
    } else {
      assert IntToString(i) == NatToString(i);
      ParseIntOfNatural(i);
    }
  }

  lemma ParseIntOfNatural(k: nat)
    ensures ParseInt(NatToString(k)) == Some(k as int)
  {
    NatToStringDigits(k);
  }

  lemma ParseIntOfNegative(k: nat)
    requires k > 0
    ensures ParseInt("-" + NatToString(k)) == Some(0 - k as int)
  {
    NatToStringDigits(k);
    var d := NatToString(k);
    var s := "-" + d;
    assert s[1..] == d;
    assert !IsDigit(s[0]);
    assert forall j :: 1 <= j < |s| ==> IsDigit(s[j]) by {
      forall j | 1 <= j < |s| ensures IsDigit(s[j]) {
        assert s[j] == d[j - 1];
      }
    }
  }

  /** ASCII lower case, for the case-insensitive boolean parse. */
  function Lower(s: string): string
  {
    seq(|s|, i requires 0 <= i < |s| => if 'A' <= s[i] <= 'Z' then (s[i] as int + 32) as char else s[i])
  }

  /** `node.Value`: "" for the absent-key placeholder, arrays and objects; "null" for a JSON null. */
  function Value(n: Node): string
  {
    match n
    case None => ""
    case Some(JNull) => "null"
    case Some(JBool(b)) => if b then "True" else "False"
    case Some(JNum(k)) => IntToString(k)
    case Some(JStr(s)) => s
    case Some(_) => ""
  }

  /** The implicit conversion of a node to `string`: null when the node `== null`. */
  function Str(n: Node): NString
  {
    if IsNullish(n) then None else Some(Value(n))
  }

  /** `AsInt`, `AsLong`, `AsDouble` and the implicit numeric conversions. */
  function AsNum(n: Node): int
  {
    match n
    case Some(JNum(k)) => k
    case Some(JStr(s)) => ParseInt(s).GetOr(0)
    case _ => 0
  }

  /** `AsBool` and the implicit conversion to `bool`. */
  function AsBool(n: Node): bool
  {
    match n
    case None => false
    case Some(JNull) => false
    case Some(JBool(b)) => b
    case Some(_) =>
      var v := Value(n);
      if Lower(v) == "true" then true else if Lower(v) == "false" then false else v != ""
  }

  /** `AsObject`: a JSON object's fields; the absent-key placeholder becomes a new empty object. */
  function AsObject(n: Node): Option<JsonObject>
  {
    match n
    case None => Some(map[])
    case Some(JObj(m)) => Some(m)
    case Some(_) => None
  }

  /** `AddWithoutNull` for a string: a null string writes nothing. */
  function PutStr(o: JsonObject, key: string, s: NString): JsonObject
  {
    match s
    case Some(v) => o[key := JStr(v)]
    case None => o
  }

  /** `AddWithoutNull` for a node: a null node writes nothing. */
  function PutNode(o: JsonObject, key: string, n: Option<Json>): JsonObject
  {
    match n
    case Some(j) => o[key := j]
    case None => o
  }

  /** `List.StringListFromJsonArray`: the `Value` of each item; a node that is not an array gives an empty list. */
  function StringList(n: Node): seq<string>
  {
    match n
    case Some(JArr(items)) => seq(|items|, i requires 0 <= i < |items| => Value(Some(items[i])))
    case _ => []
  }

  /** `JsonArrayFromStringList`. */
  function StringArray(l: seq<string>): Json
  {
    JArr(seq(|l|, i requires 0 <= i < |l| => JStr(l[i])))
  }

  /** `JsonArrayFromIntList`. */
  function IntArray(l: seq<int>): Json
  {
    JArr(seq(|l|, i requires 0 <= i < |l| => JNum(l[i])))
  }

  /** `JsonArrayFromStringList` on a list that may be null: a null list gives a null node. */
  function NullableStringArray(l: Option<seq<string>>): Option<Json>
  {
    match l
    case Some(v) => Some(StringArray(v))
    case None => None
  }

  /** `StringDictionaryFromJsonObject`: the `Value` of each entry; a node that is not an object gives an empty dictionary. */
  function StringDict(n: Node): map<string, string>
  {
    match n
    case Some(JObj(m)) => map k | k in m :: Value(Some(m[k]))
    case _ => map[]
  }

  /** `JsonObjectFromDictionary`. */
  function StringDictObject(d: map<string, string>): Json
  {
    JObj(map k | k in d :: JStr(d[k]))
  }

  /** `JsonObjectFromDictionary` on a dictionary that may be null: a null dictionary gives a null node. */
  function NullableStringDictObject(d: Option<map<string, string>>): Option<Json>
  {
    match d
    case Some(v) => Some(StringDictObject(v))
    case None => None
  }

  /** The item decoder the model-list helper applies: objects are decoded, other items skipped. */
  function DecodeObjects<T>(decode: JsonObject -> T): Json -> Option<T>
  {
    (j: Json) => if j.JObj? then Some(decode(j.fields)) else None
  }

  /** `List.BaseModelListFromJsonArray`: the objects of an array, decoded in order. */
  function ModelList<T>(n: Node, decode: JsonObject -> T): seq<T>
  {
    match n
    case Some(JArr(items)) => FilterMap(items, DecodeObjects(decode))
    case _ => []
  }

  /** `JsonArrayFromList`: each model's `ToJsonObject`, in order. */
  function ModelArray<T>(xs: seq<T>, encode: T -> JsonObject): Json
  {
    JArr(seq(|xs|, i requires 0 <= i < |xs| => JObj(encode(xs[i]))))
  }

  /** A string written with `AddWithoutNull` reads back with the implicit conversion, null included. */
  lemma StrOfPutStr(o: JsonObject, key: string, s: NString)
    requires key !in o
    ensures Str(Get(PutStr(o, key, s), key)) == s
  {
  }

  /** `AddWithoutNull` adds at most its own key. */
  lemma PutStrKeys(o: JsonObject, key: string, s: NString)
    ensures PutStr(o, key, s).Keys <= o.Keys + {key}
  {
  }

  /** `AddWithoutNull` leaves every other key as it was. */
  lemma PutStrOther(o: JsonObject, key: string, s: NString, k: string)
    requires k != key
    ensures Get(PutStr(o, key, s), k) == Get(o, k)
    ensures k in PutStr(o, key, s) <==> k in o
  {
  }

  lemma {:induction false} StringListRoundTrip(l: seq<string>)
    ensures StringList(Some(StringArray(l))) == l
  {
    var r := StringList(Some(StringArray(l)));
    assert |r| == |l|;
    forall i | 0 <= i < |l| ensures r[i] == l[i] {
      assert StringArray(l).items[i] == JStr(l[i]);
    }
  }

  lemma StringDictRoundTrip(d: map<string, string>)
    ensures StringDict(Some(StringDictObject(d))) == d
  {
    var r := StringDict(Some(StringDictObject(d)));
    assert r.Keys == d.Keys;
    forall k | k in d ensures r[k] == d[k] {
      assert StringDictObject(d).fields[k] == JStr(d[k]);
    }
  }

  /** Decoding an encoded list gives the list back when each model survives its own round trip. */
  lemma {:induction false} ModelListRoundTrip<T>(xs: seq<T>, encode: T -> JsonObject, decode: JsonObject -> T)
    requires forall i :: 0 <= i < |xs| ==> decode(encode(xs[i])) == xs[i]
    ensures ModelList(Some(ModelArray(xs, encode)), decode) == xs
  {
    var items := ModelArray(xs, encode).items;
    assert forall i :: 0 <= i < |items| ==> items[i] == JObj(encode(xs[i]));
    FilterMapAllSome(items, DecodeObjects(decode));
  }

  /** The lookup results that an absent key and a JSON null share and do not share. */
  lemma AbsentAndNullDiffer(o: JsonObject, key: string)
    requires key !in o
    ensures IsNullish(Get(o, key)) && IsNullish(Get(o[key := JNull], key))
    ensures !IsNull(Get(o, key)) && IsNull(Get(o[key := JNull], key))
    ensures Value(Get(o, key)) == "" && Value(Get(o[key := JNull], key)) == "null"
    ensures AsObject(Get(o, key)) == Some(map[]) && AsObject(Get(o[key := JNull], key)) == None
  {
  }
}
