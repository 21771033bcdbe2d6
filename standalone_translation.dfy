/**
 * The standalone translation service (`translation-service/translation_service.py`):
 * the backend service's validation and rate-limit loop, plus language-code
 * normalisation, the extended name table, and a mock translation returned
 * instead of an error when the failure is an SSL certificate error.
 *
 * The SSL monkey-patching done while loading the translator is left out;
 * whether the translator loaded is the flag `loaded`.
 */
module StandaloneTranslation {
  import opened Wrappers
  import opened Strings
  import opened Http
  import opened TranslationErrors
  import opened LanguageNames
  import opened Tables
  import opened TranslationService

  // ------------------------------------------------------------ normalisation

  /** `language_code_mapping`: the Chinese aliases all become Simplified Chinese. */
  function CodeMapping(code: string): (mapped: Option<string>)
    ensures mapped.Some? ==> mapped.value == "zh-cn"
  {
    if code == "zh" || code == "chinese" || code == "mandarin" then Some("zh-cn") else None
  }

  /** `_normalize_language_code(code)`: empty stays empty; otherwise lower-case, strip, then map. */
  function NormalizeLanguageCode(code: string): (n: string)
  {
    if code == [] then code
    else
      var normalized := Strip(Lower(code));
      match CodeMapping(normalized)
      case Some(mapped) => mapped
      case None => normalized
  }

  /**
   * A non-empty code becomes its lower-cased, stripped form, except that the
   * three Chinese aliases become `zh-cn`.
   */
  lemma NormalizeShape(code: string)
    ensures code == [] ==> NormalizeLanguageCode(code) == []
    ensures code != [] && CodeMapping(Strip(Lower(code))).None? ==> NormalizeLanguageCode(code) == Strip(Lower(code))
    ensures code != [] && Strip(Lower(code)) in ["zh", "chinese", "mandarin"] ==> NormalizeLanguageCode(code) == "zh-cn"
  {
  }

  /** Normalising twice is normalising once: `zh-cn` is not a mapping key, and lower-casing and stripping settle. */
  lemma {:induction false} NormalizeIdempotent(code: string)
    ensures NormalizeLanguageCode(NormalizeLanguageCode(code)) == NormalizeLanguageCode(code)
  {
    if code != [] {
      var n := Strip(Lower(code));
      if CodeMapping(n).Some? {
        SimplifiedChineseSettles();
      } else if n != [] {
        StripLowerSettles(code);
        assert NormalizeLanguageCode(n) == n;
      }
    }
  }

  lemma SimplifiedChineseSettles()
    ensures NormalizeLanguageCode("zh-cn") == "zh-cn"
  {
    var z := "zh-cn";
    assert forall i :: 0 <= i < |z| ==> !('A' <= z[i] <= 'Z');
    assert Lower(z) == z;
    assert z[0] == 'z' && z[|z| - 1] == 'n';
    TrimStartOfTrimmed(z, Python);
    TrimEndOfTrimmed(z, Python);
    assert Strip(z) == z;
    assert CodeMapping(z).None?;
  }

  lemma {:induction false} StripLowerSettles(code: string)
    ensures Strip(Lower(Strip(Lower(code)))) == Strip(Lower(code))
  {
    calc {
      Strip(Lower(Strip(Lower(code))));
      { LowerStripCommute(Strip(Lower(code))); }
      Lower(Strip(Strip(Lower(code))));
      { StripIdempotent(Lower(code)); }
      Lower(Strip(Lower(code)));
      { LowerStripCommute(Lower(code)); }
      Strip(Lower(Lower(code)));
      { LowerIdempotent(code); }
      Strip(Lower(code));
    }
  }

  // ------------------------------------------------------------------- mock

  /** `mock_translations`: canned answers for a few (text, target) pairs. */
  const MockTranslations: seq<((string, string), string)> := [
    (("Hello world", "es"), "Hola mundo"),
    (("Hello world", "fr"), "Bonjour le monde"),
    (("Hello world", "de"), "Hallo Welt"),
    (("Hello world", "it"), "Ciao mondo"),
    (("Hello world", "pt"), "Ol\U{E1} mundo"),
    (("Hello", "es"), "Hola"),
    (("Thank you", "es"), "Gracias"),
    (("Good morning", "es"), "Buenos d\U{ED}as"),
    (("How are you?", "es"), "\U{BF}C\U{F3}mo est\U{E1}s?")
  ]

  const MockService := "mock_translator_ssl_fallback"
  const GoogleService := "google_translate"

  /** `mock_translations.get((text, target), f"[MOCK] {text} -> {target}")`. */
  function MockAnswer(text: string, targetLanguage: string): (answer: string)
    ensures Get(MockTranslations, (text, targetLanguage)).Some? ==>
      answer == Get(MockTranslations, (text, targetLanguage)).value
    ensures Get(MockTranslations, (text, targetLanguage)).None? ==>
      answer == "[MOCK] " + text + " -> " + targetLanguage
  {
    match Get(MockTranslations, (text, targetLanguage))
    case Some(t) => t
    case None => "[MOCK] " + text + " -> " + targetLanguage
  }

  /** `_mock_translate(text, target, source)`: the canned answer or `[MOCK] <text> -> <target>`, from `en` by default. */
  function MockTranslate(text: string, targetLanguage: string, sourceLanguage: Option<string>): (r: map<string, J>)
    ensures "original_text" in r && r["original_text"] == JStr(text)
    ensures "target_language" in r && r["target_language"] == JStr(targetLanguage)
    ensures "service" in r && r["service"] == JStr(MockService)
    ensures "confidence" in r && r["confidence"] == JNum(0.9)
    ensures "translated_text" in r && r["translated_text"] == JStr(MockAnswer(text, targetLanguage))
    ensures "source_language" in r && r["source_language"] == JStr(if Given(sourceLanguage) then sourceLanguage.value else "en")
    ensures r.Keys == {"original_text", "translated_text", "source_language", "target_language",
                       "source_language_name", "target_language_name", "confidence", "service"}
  {
    var translated := MockAnswer(text, targetLanguage);
    var source := if Given(sourceLanguage) then sourceLanguage.value else "en";
    map["original_text" := JStr(text),
        "translated_text" := JStr(translated),
        "source_language" := JStr(source),
        "target_language" := JStr(targetLanguage),
        "source_language_name" := JStr(NameOr(StandaloneNames, source)),
        "target_language_name" := JStr(NameOr(StandaloneNames, targetLanguage)),
        "confidence" := JNum(0.9),
        "service" := JStr(MockService)]
  }

  // --------------------------------------------------------- translate_text

  /** The failure that triggers the mock: both `SSL` and `CERTIFICATE_VERIFY_FAILED` in the message. */
  predicate IsSslCertificateError(message: string) {
    Contains(message, "SSL") && Contains(message, "CERTIFICATE_VERIFY_FAILED")
  }

  /** The success response, with the normalised target and `service` = `google_translate`. */
  function GoogleResponse(text: string, targetLanguage: string, t: Translated): (r: map<string, J>)
    ensures "original_text" in r && r["original_text"] == JStr(text)
    ensures "target_language" in r && r["target_language"] == JStr(targetLanguage)
    ensures "translated_text" in r && r["translated_text"] == JStr(t.text)
    ensures "service" in r && r["service"] == JStr(GoogleService)
    ensures r.Keys == {"original_text", "translated_text", "source_language", "target_language",
                       "source_language_name", "target_language_name", "confidence", "service"}
  {
    map["original_text" := JStr(text),
        "translated_text" := JStr(t.text),
        "source_language" := JStr(t.src),
        "target_language" := JStr(targetLanguage),
        "source_language_name" := JStr(NameOr(StandaloneNames, t.src)),
        "target_language_name" := JStr(NameOr(StandaloneNames, targetLanguage)),
        "confidence" := t.confidence,
        "service" := JStr(GoogleService)]
  }

  /** The codes the translator is given: the normalised target, and the normalised source when one is given. */
  function NormalizedRequest(text: string, targetLanguage: string, sourceLanguage: Option<string>): (c: TranslatorCall)
    ensures c.dest == NormalizeLanguageCode(targetLanguage)
    ensures c.src.Some? <==> Given(sourceLanguage) && NormalizeLanguageCode(sourceLanguage.value) != []
  {
    var source := if Given(sourceLanguage) then Some(NormalizeLanguageCode(sourceLanguage.value)) else None;
    TranslatorRequest(text, NormalizeLanguageCode(targetLanguage), source)
  }

  /** `translate_text(text, target_language, source_language)` in the standalone service. */
  function TranslateText(loaded: bool, text: string, targetLanguage: string, sourceLanguage: Option<string>,
                         call: nat -> Outcome<Translated>): (run: TranslateRun)
  {
    var invalid := ValidateTranslationInput(loaded, text, targetLanguage);
    var request := NormalizedRequest(text, targetLanguage, sourceLanguage);
    if invalid.Some? then TranslateRun(Raised(invalid.value), request, 0, [])
    else
      var a := RateLimitRetry(call);
      TranslateRun(Settle(text, request, a.result), request, a.calls, a.waits)
  }

  /** The `try` block's end and its handlers, once the translator has been called with `request`. */
  function Settle(text: string, request: TranslatorCall, result: Outcome<Translated>): (r: Outcome<map<string, J>>)
  {
    match result
    case Returned(t) => Returned(GoogleResponse(text, request.dest, t))
    case Raised(e) =>
      if e.cls == ServiceNotLoadedError || e.cls == InvalidInputError then Raised(e)
      else if IsSslCertificateError(e.message) then Returned(MockTranslate(text, request.dest, request.src))
      else Raised(Exc(TranslationError, TranslationFailedMsg + ": " + e.message))
  }

  /** Validation runs first, on the raw target, with the backend's order; nothing is called for invalid input. */
  lemma StandaloneValidatesFirst(loaded: bool, text: string, targetLanguage: string, sourceLanguage: Option<string>,
                                 call: nat -> Outcome<Translated>)
    requires ValidateTranslationInput(loaded, text, targetLanguage).Some?
    ensures var run := TranslateText(loaded, text, targetLanguage, sourceLanguage, call);
      run.result == Raised(ValidateTranslationInput(loaded, text, targetLanguage).value) && run.calls == 0
  {
  }

  /** After validation the translator is called one to three times, with the normalised target. */
  lemma {:induction false} StandaloneCallsTranslator(loaded: bool, text: string, targetLanguage: string,
                                                     sourceLanguage: Option<string>, call: nat -> Outcome<Translated>)
    requires ValidateTranslationInput(loaded, text, targetLanguage).None?
    ensures var run := TranslateText(loaded, text, targetLanguage, sourceLanguage, call);
      1 <= run.calls <= MaxRetries && run.calls == RateLimitRetry(call).calls &&
      run.request.dest == NormalizeLanguageCode(targetLanguage)
  {
    RateLimitBounded(call);
  }

  /** A translation reports the normalised target and `google_translate`. */
  lemma StandaloneSuccess(loaded: bool, text: string, targetLanguage: string,
                          sourceLanguage: Option<string>, call: nat -> Outcome<Translated>)
    requires ValidateTranslationInput(loaded, text, targetLanguage).None?
    requires RateLimitRetry(call).result.Returned?
    ensures var r := TranslateText(loaded, text, targetLanguage, sourceLanguage, call).result;
      r.Returned? && r.value["original_text"] == JStr(text) &&
      r.value["target_language"] == JStr(NormalizeLanguageCode(targetLanguage)) &&
      r.value["translated_text"] == JStr(RateLimitRetry(call).result.value.text) &&
      r.value["service"] == JStr(GoogleService)
  {
  }

  /**
   * A final translator failure other than a validation error returns the
   * mock translation for the normalised codes when it is an SSL certificate
   * error, and otherwise raises `TranslationError("Translation failed: …")`.
   */
  lemma StandaloneFailure(loaded: bool, text: string, targetLanguage: string,
                          sourceLanguage: Option<string>, call: nat -> Outcome<Translated>)
    requires ValidateTranslationInput(loaded, text, targetLanguage).None?
    requires RateLimitRetry(call).result.Raised?
    requires RateLimitRetry(call).result.error.cls != ServiceNotLoadedError
    requires RateLimitRetry(call).result.error.cls != InvalidInputError
    ensures var e := RateLimitRetry(call).result.error;
      var request := NormalizedRequest(text, targetLanguage, sourceLanguage);
      var r := TranslateText(loaded, text, targetLanguage, sourceLanguage, call).result;
      (IsSslCertificateError(e.message) ==> r == Returned(MockTranslate(text, NormalizeLanguageCode(targetLanguage), request.src))) &&
      (!IsSslCertificateError(e.message) ==> r == Raised(Exc(TranslationError, "Translation failed: " + e.message)))
  {
    var request := NormalizedRequest(text, targetLanguage, sourceLanguage);
    SettleFailure(text, request, RateLimitRetry(call).result.error);
  }

  lemma SettleFailure(text: string, request: TranslatorCall, e: Exc)
    requires e.cls != ServiceNotLoadedError && e.cls != InvalidInputError
    ensures IsSslCertificateError(e.message) ==> Settle(text, request, Raised(e)) == Returned(MockTranslate(text, request.dest, request.src))
    ensures !IsSslCertificateError(e.message) ==> Settle(text, request, Raised(e)) == Raised(Exc(TranslationError, "Translation failed: " + e.message))
  {
    FailedPrefixJoin("Translation failed");
  }

  /** The standalone table has 38 codes; an unloaded service lists them all. */
  lemma StandaloneListsTable(library: Option<seq<string>>)
    ensures |GetSupportedLanguages(StandaloneNames, false, library)| == 38
  {
  }
}
