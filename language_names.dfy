/**
 * The code-to-name dictionaries of the translation services and the
 * lookups done on them: `LANGUAGE_NAMES` (`services/constants.py`, repeated
 * verbatim in the backend `translation_service.py`) and the standalone
 * service's extended table.
 */
module LanguageNames {
  import opened Wrappers
  import opened Tables

  /** A dictionary from codes to names, in insertion order. */
  type NameTable = seq<(string, string)>

  /** `table.get(code, code)`: the name, or the code itself when it has none. */
  function NameOr(table: NameTable, code: string): (name: string)
    ensures Get(table, code).Some? ==> name == Get(table, code).value
    ensures Get(table, code).None? ==> name == code
  {
    match Get(table, code)
    case Some(n) => n
    case None => code
  }

  /** `LANGUAGE_NAMES`: 20 codes. */
  const BackendNames: NameTable := [
    ("en", "English"),
    ("es", "Spanish"),
    ("fr", "French"),
    ("de", "German"),
    ("it", "Italian"),
    ("pt", "Portuguese"),
    ("ru", "Russian"),
    ("ja", "Japanese"),
    ("ko", "Korean"),
    ("zh", "Chinese")
  ] + [
    ("ar", "Arabic"),
    ("hi", "Hindi"),
    ("nl", "Dutch"),
    ("sv", "Swedish"),
    ("no", "Norwegian"),
    ("da", "Danish"),
    ("fi", "Finnish"),
    ("pl", "Polish"),
    ("tr", "Turkish"),
    ("he", "Hebrew")
  ]

  /** The standalone service's `language_names`: 38 codes, including `zh-cn` and `zh-tw`. */
  const StandaloneNames: NameTable := [
    ("en", "English"),
    ("es", "Spanish"),
    ("fr", "French"),
    ("de", "German"),
    ("it", "Italian"),
    ("pt", "Portuguese"),
    ("ru", "Russian"),
    ("ja", "Japanese"),
    ("ko", "Korean"),
    ("zh", "Chinese"),
    ("zh-cn", "Chinese (Simplified)"),
    ("zh-tw", "Chinese (Traditional)"),
    ("ar", "Arabic")
  ] + [
    ("hi", "Hindi"),
    ("nl", "Dutch"),
    ("sv", "Swedish"),
    ("no", "Norwegian"),
    ("da", "Danish"),
    ("fi", "Finnish"),
    ("pl", "Polish"),
    ("tr", "Turkish"),
    ("he", "Hebrew"),
    ("th", "Thai"),
    ("vi", "Vietnamese"),
    ("uk", "Ukrainian"),
    ("cs", "Czech")
  ] + [
    ("hu", "Hungarian"),
    ("ro", "Romanian"),
    ("bg", "Bulgarian"),
    ("hr", "Croatian"),
    ("sk", "Slovak"),
    ("sl", "Slovenian"),
    ("et", "Estonian"),
    ("lv", "Latvian"),
    ("lt", "Lithuanian"),
    ("is", "Icelandic"),
    ("mt", "Maltese"),
    ("cy", "Welsh")
  ]
}
