/**
 * The backend's Google-Translate service (`services/translation_service.py`):
 * ordered input validation, the rate-limit retry loop around the
 * translator, the response it builds, the wrapping of failures, and
 * language detection. The standalone service repeats the validation and
 * the retry loop verbatim; it reuses them from here.
 *
 * The translator is an oracle: `call(attempt)` is what its `translate`
 * gives on that attempt, `detect` what its `detect` gives. Whether the
 * translator loaded is the flag `loaded`. Sleeps are recorded by length.
 */
module TranslationService {
  import opened Wrappers
  import opened Strings
  import opened Http
  import opened TranslationErrors
  import opened LanguageNames
  import opened Tables

  /** What the translator's `translate` returns: `text`, `src`, and the `confidence` attribute (`null` when absent). */
  datatype Translated = Translated(text: string, src: string, confidence: J)

  /** What the translator's `detect` returns. */
  datatype Detected = Detected(lang: string, confidence: J)

  /** A Python `Optional[str]` read for truthiness: present and non-empty. */
  predicate Given(s: Option<string>) {
    s.Some? && s.value != []
  }

  // ------------------------------------------------------------ validation

  /** `_validate_translation_input(text, target_language)`: the first failed check, if any. */
  function ValidateTranslationInput(loaded: bool, text: string, targetLanguage: string): (err: Option<Exc>)
    ensures err.Some? ==> err.value.cls == ServiceNotLoadedError || err.value.cls == InvalidInputError
    ensures err.None? <==> loaded && !IsBlank(text) && targetLanguage != []
  {
    if !loaded then Some(Exc(ServiceNotLoadedError, ServiceNotLoadedMsg))
    else if text == [] || Strip(text) == [] then Some(Exc(InvalidInputError, NoTextProvidedMsg + " for translation"))
    else if targetLanguage == [] then Some(Exc(InvalidInputError, "Target language not specified"))
    else None
  }

  /** A missing translator is reported before blank text, and blank text before a missing target. */
  lemma ValidationOrder(loaded: bool, text: string, targetLanguage: string)
    ensures !loaded ==> ValidateTranslationInput(loaded, text, targetLanguage) == Some(Exc(ServiceNotLoadedError, ServiceNotLoadedMsg))
    ensures loaded && IsBlank(text) ==>
      ValidateTranslationInput(loaded, text, targetLanguage) == Some(Exc(InvalidInputError, "No text provided for translation"))
    ensures loaded && !IsBlank(text) && targetLanguage == [] ==>
      ValidateTranslationInput(loaded, text, targetLanguage) == Some(Exc(InvalidInputError, "Target language not specified"))
  {
    assert NoTextProvidedMsg + " for translation" == "No text provided for translation";
  }

  // -------------------------------------------------------- rate-limit retry

  const MaxRetries := 3

  /** `_is_rate_limit_error(e)`: `too many requests` occurs in the lower-cased message. */
  predicate IsRateLimitError(e: Exc) {
    Contains(Lower(e.message), "too many requests")
  }

  /** The request the translator receives: `src` only when a source language is given. */
  datatype TranslatorCall = TranslatorCall(text: string, dest: string, src: Option<string>)

  function TranslatorRequest(text: string, targetLanguage: string, sourceLanguage: Option<string>): (c: TranslatorCall)
    ensures c.src.Some? <==> Given(sourceLanguage)
  {
    TranslatorCall(text, targetLanguage, if Given(sourceLanguage) then sourceLanguage else None)
  }

  /** The loop's outcome, its number of translator calls and the waits (`2 ** attempt` seconds) between them. */
  datatype Attempted = Attempted(result: Outcome<Translated>, calls: nat, waits: seq<nat>)

  /** An attempt that the loop retries: a rate-limit error before the last attempt. */
  predicate RetriedAt(call: nat -> Outcome<Translated>, attempt: nat) {
    call(attempt).Raised? && IsRateLimitError(call(attempt).error) && attempt < MaxRetries - 1
  }

  /** The loop of `_perform_translation_with_retry` from `attempt` on. */
  function RateLimitFrom(call: nat -> Outcome<Translated>, attempt: nat): (a: Attempted)
    requires attempt < MaxRetries
    decreases MaxRetries - attempt
  {
    if RetriedAt(call, attempt) then
      var rest := RateLimitFrom(call, attempt + 1);
      Attempted(rest.result, rest.calls + 1, [Pow2(attempt)] + rest.waits)
    else Attempted(call(attempt), 1, [])
  }

  function Pow2(n: nat): (p: nat)
    ensures p >= 1
  {
    if n == 0 then 1 else 2 * Pow2(n - 1)
  }

  /** `_perform_translation_with_retry(...)`. */
  function RateLimitRetry(call: nat -> Outcome<Translated>): Attempted {
    RateLimitFrom(call, 0)
  }

  /** The loop as written: three attempts at most, `continue` after a rate-limit wait. */
  method PerformTranslationWithRetry(call: nat -> Outcome<Translated>) returns (result: Outcome<Translated>, calls: nat, waits: seq<nat>)
    ensures Attempted(result, calls, waits) == RateLimitRetry(call)
  {
    calls, waits := 0, [];
    var attempt: nat := 0;
    while attempt < MaxRetries
      invariant attempt < MaxRetries && calls == attempt
      invariant var rest := RateLimitFrom(call, attempt);
        RateLimitRetry(call) == Attempted(rest.result, rest.calls + calls, waits + rest.waits)
      decreases MaxRetries - attempt
    {
      var outcome := call(attempt);
      calls := calls + 1;
      if outcome.Raised? && IsRateLimitError(outcome.error) && attempt < MaxRetries - 1 {
        waits := waits + [Pow2(attempt)];
        attempt := attempt + 1;
        continue;
      }
      return outcome, calls, waits;
    }
    assert false;
  }

  /**
   * The first attempt that is not a retried rate-limit error decides the
   * loop: its outcome is the result, after `k + 1` calls and the waits
   * 1, 2, … seconds before each retry. There are at most three calls.
   */
  lemma {:induction false} RateLimitDecides(call: nat -> Outcome<Translated>, k: nat)
    requires k < MaxRetries
    requires forall j :: 0 <= j < k ==> RetriedAt(call, j)
    requires !RetriedAt(call, k)
    ensures RateLimitRetry(call) == Attempted(call(k), k + 1, [1, 2][..k])
  {
    if k == 0 {
    } else if k == 1 {
      assert RetriedAt(call, 0);
    } else {
      assert RetriedAt(call, 0) && RetriedAt(call, 1);
    }
  }

  /** Whatever the translator does, the loop makes one to three calls and waits 1 s then 2 s between them. */
  lemma {:induction false} RateLimitBounded(call: nat -> Outcome<Translated>)
    ensures var a := RateLimitRetry(call);
      1 <= a.calls <= MaxRetries && a.waits == [1, 2][..a.calls - 1] &&
      (a.result.Raised? && a.calls < MaxRetries ==> !IsRateLimitError(a.result.error))
  {
    if !RetriedAt(call, 0) {
      RateLimitDecides(call, 0);
    } else if !RetriedAt(call, 1) {
      RateLimitDecides(call, 1);
    } else {
      assert !RetriedAt(call, 2);
      RateLimitDecides(call, 2);
    }
  }

  // ------------------------------------------------------------ translate_text

  /** The failure handlers of `translate_text`: validation errors pass through, anything else is wrapped. */
  function WrapFailure(e: Exc, prefix: string): (w: Exc)
    ensures e.cls == ServiceNotLoadedError || e.cls == InvalidInputError ==> w == e
    ensures !(e.cls == ServiceNotLoadedError || e.cls == InvalidInputError) ==>
      w == Exc(TranslationError, prefix + ": " + e.message)
  {
    if e.cls == ServiceNotLoadedError || e.cls == InvalidInputError then e
    else Exc(TranslationError, prefix + ": " + e.message)
  }

  /** The success response of `translate_text`. */
  function TranslationResponse(names: NameTable, text: string, targetLanguage: string, t: Translated): (r: map<string, J>)
    ensures "original_text" in r && r["original_text"] == JStr(text)
    ensures "target_language" in r && r["target_language"] == JStr(targetLanguage)
    ensures "translated_text" in r && r["translated_text"] == JStr(t.text)
    ensures "source_language" in r && r["source_language"] == JStr(t.src)
    ensures r.Keys == {"original_text", "translated_text", "source_language", "target_language",
                       "source_language_name", "target_language_name", "confidence"}
  {
    map["original_text" := JStr(text),
        "translated_text" := JStr(t.text),
        "source_language" := JStr(t.src),
        "target_language" := JStr(targetLanguage),
        "source_language_name" := JStr(NameOr(names, t.src)),
        "target_language_name" := JStr(NameOr(names, targetLanguage)),
        "confidence" := t.confidence]
  }

  /** What `translate_text` returns or raises, with the translator calls and waits it made. */
  datatype TranslateRun = TranslateRun(result: Outcome<map<string, J>>, request: TranslatorCall, calls: nat, waits: seq<nat>)

  /** `translate_text(text, target_language, source_language)` on the backend. */
  function TranslateText(loaded: bool, text: string, targetLanguage: string, sourceLanguage: Option<string>,
                         call: nat -> Outcome<Translated>): (run: TranslateRun)
  {
    var request := TranslatorRequest(text, targetLanguage, sourceLanguage);
    var invalid := ValidateTranslationInput(loaded, text, targetLanguage);
    if invalid.Some? then TranslateRun(Raised(invalid.value), request, 0, [])
    else
      var a := RateLimitRetry(call);
      match a.result
      case Returned(t) => TranslateRun(Returned(TranslationResponse(BackendNames, text, targetLanguage, t)), request, a.calls, a.waits)
      case Raised(e) => TranslateRun(Raised(WrapFailure(e, TranslationFailedMsg)), request, a.calls, a.waits)
  }

  /**
   * Invalid input is rejected, unwrapped, before the translator is called.
   * Otherwise the translator is called one to three times; a final error is
   * re-raised as `TranslationError("Translation failed: …")` (or unchanged
   * if it is itself a validation error), and success yields the response
   * for the input text and target, with names looked up in `LANGUAGE_NAMES`
   * and falling back to the code.
   */
  lemma {:induction false} TranslateTextOutcome(loaded: bool, text: string, targetLanguage: string,
                                                sourceLanguage: Option<string>, call: nat -> Outcome<Translated>)
    ensures var run := TranslateText(loaded, text, targetLanguage, sourceLanguage, call);
      var invalid := ValidateTranslationInput(loaded, text, targetLanguage);
      var a := RateLimitRetry(call);
      (invalid.Some? ==> run.result == Raised(invalid.value) && run.calls == 0) &&
      (invalid.None? ==> 1 <= run.calls <= MaxRetries && run.calls == a.calls) &&
      (invalid.None? && a.result.Raised? ==> run.result == Raised(WrapFailure(a.result.error, "Translation failed"))) &&
      (invalid.None? && a.result.Returned? ==>
        run.result.Returned? &&
        run.result.value["original_text"] == JStr(text) &&
        run.result.value["target_language"] == JStr(targetLanguage) &&
        run.result.value["target_language_name"] == JStr(NameOr(BackendNames, targetLanguage)) &&
        run.result.value["translated_text"] == JStr(a.result.value.text))
  {
    RateLimitBounded(call);
  }

  // ------------------------------------------------------------- other calls

  /** `get_supported_languages()`: the library's codes when loaded and importable, else the table's. */
  function GetSupportedLanguages(names: NameTable, loaded: bool, library: Option<seq<string>>): (codes: seq<string>)
    ensures !loaded || library.None? ==> codes == Keys(names)
    ensures loaded && library.Some? ==> codes == library.value
  {
    if !loaded then Keys(names)
    else if library.Some? then library.value
    else Keys(names)
  }

  /** Without a translator the backend lists the 20 codes of `LANGUAGE_NAMES`. */
  lemma UnloadedListsTable(library: Option<seq<string>>)
    ensures |GetSupportedLanguages(BackendNames, false, library)| == 20
  {
  }

  /** `detect_language(text)`: the same two checks, then the detector's answer or a wrapped failure. */
  function DetectLanguage(names: NameTable, loaded: bool, text: string, detect: Outcome<Detected>): (r: Outcome<map<string, J>>)
  {
    if !loaded then Raised(Exc(ServiceNotLoadedError, ServiceNotLoadedMsg))
    else if text == [] || Strip(text) == [] then Raised(Exc(InvalidInputError, NoTextProvidedMsg + " for language detection"))
    else match detect
      case Raised(e) => Raised(WrapFailure(e, "Language detection failed"))
      case Returned(d) => Returned(DetectionReport(names, d))
  }

  /** The detection response: the code, its name from the table, and the detector's confidence. */
  function DetectionReport(names: NameTable, d: Detected): (r: map<string, J>)
    ensures "language" in r && r["language"] == JStr(d.lang)
    ensures "language_name" in r && r["language_name"] == JStr(NameOr(names, d.lang))
    ensures "confidence" in r && r["confidence"] == d.confidence
  {
    var name := JStr(NameOr(names, d.lang));
    map["language" := JStr(d.lang), "language_name" := name, "confidence" := d.confidence]
  }

  /** Detection needs a translator and non-blank text, checked in that order before the detector is consulted. */
  lemma DetectLanguageChecks(names: NameTable, loaded: bool, text: string, detect: Outcome<Detected>)
    ensures !loaded ==> DetectLanguage(names, loaded, text, detect) == Raised(Exc(ServiceNotLoadedError, ServiceNotLoadedMsg))
    ensures loaded && IsBlank(text) ==>
      DetectLanguage(names, loaded, text, detect) == Raised(Exc(InvalidInputError, "No text provided for language detection"))
  {
    assert NoTextProvidedMsg + " for language detection" == "No text provided for language detection";
  }

  /**
   * Past the checks, the detector's answer is reported with its name from
   * the table (falling back to the code), and any failure other than a
   * validation error becomes `TranslationError("Language detection failed: …")`.
   */
  lemma DetectLanguageReports(names: NameTable, loaded: bool, text: string, detect: Outcome<Detected>)
    requires loaded && !IsBlank(text)
    ensures var r := DetectLanguage(names, loaded, text, detect);
      (r.Returned? <==> detect.Returned?) &&
      (r.Returned? ==> r.value["language"] == JStr(detect.value.lang) &&
                       r.value["language_name"] == JStr(NameOr(names, detect.value.lang))) &&
      (detect.Raised? && detect.error.cls != ServiceNotLoadedError && detect.error.cls != InvalidInputError ==>
        r == Raised(Exc(TranslationError, "Language detection failed: " + detect.error.message)))
  {
    assert text != [];
    if detect.Returned? {
      assert DetectLanguage(names, loaded, text, detect) == Returned(DetectionReport(names, detect.value));
    } else {
      assert DetectLanguage(names, loaded, text, detect) == Raised(WrapFailure(detect.error, "Language detection failed"));
      FailedPrefixJoin("Language detection failed");
    }
  }

  /** `f"{prefix}: {message}"` for the two prefixes the services use. */
  lemma FailedPrefixJoin(prefix: string)
    requires prefix == "Language detection failed" || prefix == "Translation failed"
    ensures prefix == "Language detection failed" ==> prefix + ": " == "Language detection failed: "
    ensures prefix == "Translation failed" ==> prefix + ": " == "Translation failed: "
  {
  }
}
