/**
 * Language lookups of the backend translation core
 * (`services/language_manager.py`) over `LANGUAGE_NAMES`.
 */
module LanguageManager {
  import opened Wrappers
  import opened LanguageNames
  import opened Tables

  /** `validate_language_code(code)`: the code is a key of `LANGUAGE_NAMES`. */
  predicate ValidateLanguageCode(code: string) {
    code in Keys(BackendNames)
  }

  /** `get_language_name(code)`: the table's name, or `None`. */
  function GetLanguageName(code: string): (name: Option<string>)
    ensures name.Some? ==> (code, name.value) in BackendNames
  {
    Get(BackendNames, code)
  }

  /** `get_available_languages()`: the whole table, so every lookup through it agrees with `get_language_name`. */
  function GetAvailableLanguages(): (table: NameTable)
    ensures |table| == 20
    ensures forall code :: Get(table, code) == GetLanguageName(code)
  {
    BackendNames
  }

  /** A code is valid exactly when it has a name. */
  lemma ValidIffNamed(code: string)
    ensures ValidateLanguageCode(code) <==> GetLanguageName(code).Some?
  {
    GetFindsKeys(BackendNames, code);
  }

  /** `LANGUAGE_NAMES` has 20 codes, `en` among them and the empty code not. */
  lemma TwentyCodes()
    ensures |Keys(BackendNames)| == 20
    ensures ValidateLanguageCode("en") && GetLanguageName("en") == Some("English")
    ensures !ValidateLanguageCode("")
  {
    assert Keys(BackendNames)[0] == "en";
    ValidIffNamed("");
    assert forall i :: 0 <= i < |BackendNames| ==> BackendNames[i].0 != "";
  }
}
