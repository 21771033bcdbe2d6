/**
 * The front end's language table (`config/LanguageConfig.js`): the 46
 * languages with their display data, the code list in declaration order,
 * the display-name formats, and the UI categories.
 *
 * Names, flags and native names are kept as written, with non-ASCII
 * characters as Unicode escapes.
 */
module LanguageConfig {
  import opened Wrappers
  import opened Strings
  import opened Tables

  datatype Language = Language(name: string, flag: string, native: string, region: string)

  /** `LANGUAGES`, as (code, entry) pairs in declaration order. */
  const Languages: seq<(string, Language)> := MajorLanguages + MoreLanguages + FurtherLanguages + IndicAndRegionalLanguages

  const MajorLanguages: seq<(string, Language)> := [
      ("en", Language("English", "\U{1F1FA}\U{1F1F8}", "English", "United States")),
      ("es", Language("Spanish", "\U{1F1EA}\U{1F1F8}", "Espa\U{F1}ol", "Spain")),
      ("fr", Language("French", "\U{1F1EB}\U{1F1F7}", "Fran\U{E7}ais", "France")),
      ("de", Language("German", "\U{1F1E9}\U{1F1EA}", "Deutsch", "Germany")),
      ("it", Language("Italian", "\U{1F1EE}\U{1F1F9}", "Italiano", "Italy")),
      ("pt", Language("Portuguese", "\U{1F1F5}\U{1F1F9}", "Portugu\U{EA}s", "Portugal")),
      ("ru", Language("Russian", "\U{1F1F7}\U{1F1FA}", "\U{420}\U{443}\U{441}\U{441}\U{43A}\U{438}\U{439}", "Russia")),
      ("ja", Language("Japanese", "\U{1F1EF}\U{1F1F5}", "\U{65E5}\U{672C}\U{8A9E}", "Japan")),
      ("ko", Language("Korean", "\U{1F1F0}\U{1F1F7}", "\U{D55C}\U{AD6D}\U{C5B4}", "South Korea")),
      ("zh", Language("Chinese", "\U{1F1E8}\U{1F1F3}", "\U{4E2D}\U{6587}", "China")),
      ("ar", Language("Arabic", "\U{1F1F8}\U{1F1E6}", "\U{627}\U{644}\U{639}\U{631}\U{628}\U{64A}\U{629}", "Saudi Arabia")),
      ("hi", Language("Hindi", "\U{1F1EE}\U{1F1F3}", "\U{939}\U{93F}\U{928}\U{94D}\U{926}\U{940}", "India"))
    ]

  const MoreLanguages: seq<(string, Language)> := [
      ("tr", Language("Turkish", "\U{1F1F9}\U{1F1F7}", "T\U{FC}rk\U{E7}e", "Turkey")),
      ("nl", Language("Dutch", "\U{1F1F3}\U{1F1F1}", "Nederlands", "Netherlands")),
      ("pl", Language("Polish", "\U{1F1F5}\U{1F1F1}", "Polski", "Poland")),
      ("sv", Language("Swedish", "\U{1F1F8}\U{1F1EA}", "Svenska", "Sweden")),
      ("da", Language("Danish", "\U{1F1E9}\U{1F1F0}", "Dansk", "Denmark")),
      ("no", Language("Norwegian", "\U{1F1F3}\U{1F1F4}", "Norsk", "Norway")),
      ("fi", Language("Finnish", "\U{1F1EB}\U{1F1EE}", "Suomi", "Finland")),
      ("th", Language("Thai", "\U{1F1F9}\U{1F1ED}", "\U{E44}\U{E17}\U{E22}", "Thailand")),
      ("uk", Language("Ukrainian", "\U{1F1FA}\U{1F1E6}", "\U{423}\U{43A}\U{440}\U{430}\U{457}\U{43D}\U{441}\U{44C}\U{43A}\U{430}", "Ukraine")),
      ("cs", Language("Czech", "\U{1F1E8}\U{1F1FF}", "\U{10C}e\U{161}tina", "Czech Republic")),
      ("he", Language("Hebrew", "\U{1F1EE}\U{1F1F1}", "\U{5E2}\U{5D1}\U{5E8}\U{5D9}\U{5EA}", "Israel")),
      ("hu", Language("Hungarian", "\U{1F1ED}\U{1F1FA}", "Magyar", "Hungary"))
    ]

  const FurtherLanguages: seq<(string, Language)> := [
      ("ro", Language("Romanian", "\U{1F1F7}\U{1F1F4}", "Rom\U{E2}n\U{103}", "Romania")),
      ("sk", Language("Slovak", "\U{1F1F8}\U{1F1F0}", "Sloven\U{10D}ina", "Slovakia")),
      ("bg", Language("Bulgarian", "\U{1F1E7}\U{1F1EC}", "\U{411}\U{44A}\U{43B}\U{433}\U{430}\U{440}\U{441}\U{43A}\U{438}", "Bulgaria")),
      ("hr", Language("Croatian", "\U{1F1ED}\U{1F1F7}", "Hrvatski", "Croatia")),
      ("ca", Language("Catalan", "\U{1F1EA}\U{1F1F8}", "Catal\U{E0}", "Catalonia")),
      ("vi", Language("Vietnamese", "\U{1F1FB}\U{1F1F3}", "Ti\U{1EBF}ng Vi\U{1EC7}t", "Vietnam")),
      ("id", Language("Indonesian", "\U{1F1EE}\U{1F1E9}", "Bahasa Indonesia", "Indonesia")),
      ("ms", Language("Malay", "\U{1F1F2}\U{1F1FE}", "Bahasa Malaysia", "Malaysia")),
      ("tl", Language("Filipino", "\U{1F1F5}\U{1F1ED}", "Filipino", "Philippines")),
      ("bn", Language("Bengali", "\U{1F1E7}\U{1F1E9}", "\U{9AC}\U{9BE}\U{982}\U{9B2}\U{9BE}", "Bangladesh")),
      ("ta", Language("Tamil", "\U{1F1EE}\U{1F1F3}", "\U{BA4}\U{BAE}\U{BBF}\U{BB4}\U{BCD}", "Tamil Nadu")),
      ("te", Language("Telugu", "\U{1F1EE}\U{1F1F3}", "\U{C24}\U{C46}\U{9B2}\U{9C1}\U{997}\U{9C1}", "Andhra Pradesh"))
    ]

  const IndicAndRegionalLanguages: seq<(string, Language)> := [
      ("mr", Language("Marathi", "\U{1F1EE}\U{1F1F3}", "\U{92E}\U{930}\U{93E}\U{920}\U{940}", "Maharashtra")),
      ("gu", Language("Gujarati", "\U{1F1EE}\U{1F1F3}", "\U{A97}\U{AC1}\U{A9C}\U{AB0}\U{ABE}\U{AA4}\U{AC0}", "Gujarat")),
      ("kn", Language("Kannada", "\U{1F1EE}\U{1F1F3}", "\U{C95}\U{CA8}\U{CCD}\U{CA8}\U{CA1}", "Karnataka")),
      ("ml", Language("Malayalam", "\U{1F1EE}\U{1F1F3}", "\U{D2E}\U{D32}\U{D2F}\U{D3E}\U{D33}\U{D02}", "Kerala")),
      ("pt-br", Language("Portuguese (Brazil)", "\U{1F1E7}\U{1F1F7}", "Portugu\U{EA}s (Brasil)", "Brazil")),
      ("en-gb", Language("English (UK)", "\U{1F1EC}\U{1F1E7}", "English (UK)", "United Kingdom")),
      ("en-au", Language("English (Australia)", "\U{1F1E6}\U{1F1FA}", "English (Australia)", "Australia")),
      ("zh-tw", Language("Chinese (Traditional)", "\U{1F1F9}\U{1F1FC}", "\U{7E41}\U{9AD4}\U{4E2D}\U{6587}", "Taiwan")),
      ("es-mx", Language("Spanish (Mexico)", "\U{1F1F2}\U{1F1FD}", "Espa\U{F1}ol (M\U{E9}xico)", "Mexico")),
      ("fr-ca", Language("French (Canada)", "\U{1F1E8}\U{1F1E6}", "Fran\U{E7}ais (Canada)", "Canada"))
    ]

  /** `LANGUAGE_CODES`. */
  const LanguageCodes: seq<string> := Keys(Languages)

  /** `LANGUAGE_CODES` lists the 46 codes of `LANGUAGES` in declaration order, each with an entry. */
  lemma LanguageCodesAreKeys()
    ensures |LanguageCodes| == |Languages| == 46
    ensures forall i :: 0 <= i < |Languages| ==> LanguageCodes[i] == Languages[i].0
    ensures forall code :: Get(Languages, code).Some? <==> code in LanguageCodes
  {
    forall code
      ensures Get(Languages, code).Some? <==> code in LanguageCodes
    {
      GetFindsKeys(Languages, code);
    }
  }

  // ----------------------------------------------------------- formats

  /** `getLanguageDisplayName(code, format)`, given what `LANGUAGES[code]` holds. */
  function DisplayNameOf(code: string, entry: Option<Language>, format: string): (s: string)
    ensures entry.None? ==> s == Upper(code)
    ensures entry.Some? && format !in Formats ==> s == entry.value.name
  {
    match entry
    case None => Upper(code)
    case Some(lang) =>
      if format == "name" then lang.name
      else if format == "native" then lang.native
      else if format == "flag" then lang.flag
      else if format == "flag-name" then lang.flag + " " + lang.name
      else if format == "flag-code" then lang.flag + " " + Upper(code)
      else if format == "name-native" then (if lang.native != lang.name then lang.name + " (" + lang.native + ")" else lang.name)
      else if format == "full" then lang.flag + " " + lang.name + " (" + lang.native + ")"
      else lang.name
  }

  /** `getLanguageDisplayName(code, format)` over the table. */
  function DisplayName(code: string, format: string): (s: string)
  {
    DisplayNameOf(code, Get(Languages, code), format)
  }

  /** The formats the switch knows; any other falls back to the name, like the default `name`. */
  const Formats: seq<string> := ["name", "native", "flag", "flag-name", "flag-code", "name-native", "full"]

  /** An unknown code is shown upper-cased whatever the format. */
  lemma UnknownCodeUpperCased(code: string, format: string)
    requires code !in LanguageCodes
    ensures DisplayName(code, format) == Upper(code)
  {
    GetFindsKeys(Languages, code);
  }

  /** The composite formats are the simple ones put together. */
  lemma {:induction false} CompositeFormats(code: string)
    requires code in LanguageCodes
    ensures DisplayName(code, "flag-name") == DisplayName(code, "flag") + " " + DisplayName(code, "name")
    ensures DisplayName(code, "flag-code") == DisplayName(code, "flag") + " " + Upper(code)
    ensures DisplayName(code, "full") == DisplayName(code, "flag-name") + " (" + DisplayName(code, "native") + ")"
  {
    GetFindsKeys(Languages, code);
    CompositeFormatsOf(code, Get(Languages, code).value);
  }

  lemma CompositeFormatsOf(code: string, lang: Language)
    ensures DisplayNameOf(code, Some(lang), "flag-name") == DisplayNameOf(code, Some(lang), "flag") + " " + DisplayNameOf(code, Some(lang), "name")
    ensures DisplayNameOf(code, Some(lang), "flag-code") == DisplayNameOf(code, Some(lang), "flag") + " " + Upper(code)
    ensures DisplayNameOf(code, Some(lang), "full") == DisplayNameOf(code, Some(lang), "flag-name") + " (" + DisplayNameOf(code, Some(lang), "native") + ")"
  {
  }

  /** For a known code, `name-native` is the plain name exactly when the native name is the same. */
  lemma {:induction false} NameNativeCollapses(code: string)
    requires code in LanguageCodes
    ensures DisplayName(code, "name-native") == DisplayName(code, "name") <==> DisplayName(code, "native") == DisplayName(code, "name")
    ensures DisplayName(code, "native") != DisplayName(code, "name") ==>
      DisplayName(code, "name-native") == DisplayName(code, "name") + " (" + DisplayName(code, "native") + ")"
  {
    GetFindsKeys(Languages, code);
    var lang := Get(Languages, code).value;
    if lang.native != lang.name {
      assert DisplayName(code, "name-native") == lang.name + " (" + lang.native + ")";
      assert |DisplayName(code, "name-native")| > |lang.name|;
    }
  }

  /** Any format outside the switch gives the same text as the default format `name`. */
  lemma UnrecognisedFormatIsName(code: string, format: string)
    requires format !in Formats
    ensures DisplayName(code, format) == DisplayName(code, "name")
  {
  }

  // ---------------------------------------------------------- categories

  /** `LANGUAGE_CATEGORIES`. */
  const LanguageCategories: seq<(string, seq<string>)> := [
    ("popular", ["en", "es", "fr", "de", "it", "pt", "ru", "ja", "ko", "zh"]),
    ("european", ["en", "es", "fr", "de", "it", "pt", "ru", "nl", "pl", "sv", "da", "no", "fi", "uk", "cs", "he", "hu", "ro", "sk", "bg", "hr", "ca"]),
    ("asian", ["ja", "ko", "zh", "hi", "th", "vi", "id", "ms", "tl", "bn", "ta", "te", "mr", "gu", "kn", "ml"]),
    ("african", ["ar"]),
    ("americas", ["en", "es", "pt", "fr"])
  ]

  /** The codes listed under `category`, or none when there is no such category. */
  function CategoryCodes(category: string): (codes: seq<string>)
    ensures category !in CategoryNames ==> codes == []
  {
    if category == "popular" then LanguageCategories[0].1
    else if category == "european" then LanguageCategories[1].1
    else if category == "asian" then LanguageCategories[2].1
    else if category == "african" then LanguageCategories[3].1
    else if category == "americas" then LanguageCategories[4].1
    else []
  }

  const CategoryNames: seq<string> := ["popular", "european", "asian", "african", "americas"]

  lemma PopularKnown()
    ensures forall code :: code in LanguageCategories[0].1 ==> code in LanguageCodes
  {
    assert LanguageCategories[0].1 == [LanguageCodes[0], LanguageCodes[1], LanguageCodes[2], LanguageCodes[3], LanguageCodes[4], LanguageCodes[5], LanguageCodes[6], LanguageCodes[7], LanguageCodes[8], LanguageCodes[9]];
  }

  lemma EuropeanKnown()
    ensures forall code :: code in LanguageCategories[1].1 ==> code in LanguageCodes
  {
    assert LanguageCategories[1].1 == [LanguageCodes[0], LanguageCodes[1], LanguageCodes[2], LanguageCodes[3], LanguageCodes[4], LanguageCodes[5], LanguageCodes[6], LanguageCodes[13], LanguageCodes[14], LanguageCodes[15], LanguageCodes[16], LanguageCodes[17], LanguageCodes[18], LanguageCodes[20], LanguageCodes[21], LanguageCodes[22], LanguageCodes[23], LanguageCodes[24], LanguageCodes[25], LanguageCodes[26], LanguageCodes[27], LanguageCodes[28]];
  }

  lemma AsianKnown()
    ensures forall code :: code in LanguageCategories[2].1 ==> code in LanguageCodes
  {
    assert LanguageCategories[2].1 == [LanguageCodes[7], LanguageCodes[8], LanguageCodes[9], LanguageCodes[11], LanguageCodes[19], LanguageCodes[29], LanguageCodes[30], LanguageCodes[31], LanguageCodes[32], LanguageCodes[33], LanguageCodes[34], LanguageCodes[35], LanguageCodes[36], LanguageCodes[37], LanguageCodes[38], LanguageCodes[39]];
  }

  lemma AfricanKnown()
    ensures forall code :: code in LanguageCategories[3].1 ==> code in LanguageCodes
  {
    assert LanguageCategories[3].1 == [LanguageCodes[10]];
  }

  lemma AmericasKnown()
    ensures forall code :: code in LanguageCategories[4].1 ==> code in LanguageCodes
  {
    assert LanguageCategories[4].1 == [LanguageCodes[0], LanguageCodes[1], LanguageCodes[5], LanguageCodes[2]];
  }

  /** Every code a category lists has an entry in `LANGUAGES`, so it has a display name of its own. */
  lemma {:induction false} CategoriesListKnownCodes(category: string, code: string)
    requires code in CategoryCodes(category)
    ensures code in LanguageCodes
    ensures Get(Languages, code).Some?
  {
    GetFindsKeys(Languages, code);
    if category == "popular" {
      PopularKnown();
    } else if category == "european" {
      EuropeanKnown();
    } else if category == "asian" {
      AsianKnown();
    } else if category == "african" {
      AfricanKnown();
    } else {
      AmericasKnown();
    }
  }
}
