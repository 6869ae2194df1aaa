/** A language the translation service offers (SupportLanguage.cs). */
module SupportLanguageModel {
  import opened Wrappers
  import opened Json

  datatype SupportLanguageValue = SupportLanguageValue(languageCode: NString, languageName: NString, languageNativeName: NString)

  /** `FromJsonObject`: the code comes from `code`, the names from `name` and `nativeName`. */
  function DecodeSupportLanguage(jo: JsonObject): SupportLanguageValue
  {
    SupportLanguageValue(Str(Get(jo, "code")), Str(Get(jo, "name")), Str(Get(jo, "nativeName")))
  }

  function EncodeSupportLanguage(l: SupportLanguageValue): JsonObject
  {
    PutStr(PutStr(PutStr(map[], "code", l.languageCode), "name", l.languageName), "nativeName", l.languageNativeName)
  }

  /** The encoding holds exactly the non-null ones of the three keys, and decodes back to the same language. */
  lemma SupportLanguageRoundTrip(l: SupportLanguageValue)
    ensures DecodeSupportLanguage(EncodeSupportLanguage(l)) == l
    ensures EncodeSupportLanguage(l).Keys ==
      (if l.languageCode.Some? then {"code"} else {})
      + (if l.languageName.Some? then {"name"} else {})
      + (if l.languageNativeName.Some? then {"nativeName"} else {})
  {
  }

  class SupportLanguage {
    var languageCode: NString
    var languageName: NString
    var languageNativeName: NString

    function Value(): SupportLanguageValue
      reads this
    {
      SupportLanguageValue(languageCode, languageName, languageNativeName)
    }

    constructor ()
      ensures Value() == SupportLanguageValue(None, None, None)
    {
      languageCode, languageName, languageNativeName := None, None, None;
    }

    method FromJsonObject(jo: JsonObject)
      modifies this
      ensures Value() == DecodeSupportLanguage(jo)
    {
      languageCode := Str(Get(jo, "code"));
      languageName := Str(Get(jo, "name"));
      languageNativeName := Str(Get(jo, "nativeName"));
    }

    function ToJsonObject(): JsonObject
      reads this
    {
      EncodeSupportLanguage(Value())
    }
  }
}
