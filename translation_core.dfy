/**
 * The backend's core translation service (`services/translation_core.py`):
 * `load_model` sets the model, and `translate`, decorated with `with_retry`,
 * checks the model, the text and the target code in that order.
 *
 * Because `ServiceNotLoadedError` and `InvalidInputError` are subclasses of
 * `TranslationError`, the decorator retries them: a rejected call is made
 * three times, with two sleeps, before the error surfaces.
 */
module TranslationCore {
  import opened Wrappers
  import opened TranslationErrors
  import opened LanguageManager
  import opened RetryManager

  /** The placeholder `load_model` stores. */
  const LoadedModel := "loaded_model"

  /** One run of the undecorated `translate(text, target_language)`. */
  function TranslateOnce(model: Option<string>, text: string, targetLanguage: string): (o: Outcome<string>)
  {
    if model.None? || model.value == [] then Raised(Exc(ServiceNotLoadedError, ServiceNotLoadedMsg))
    else if text == [] then Raised(Exc(InvalidInputError, NoTextProvidedMsg))
    else if !ValidateLanguageCode(targetLanguage) then Raised(Exc(InvalidInputError, "Invalid language code: " + targetLanguage))
    else Returned("Translated(" + text + ", " + targetLanguage + ")")
  }

  /** Every attempt of the decorated call runs the same checks on the same state. */
  function Attempts(model: Option<string>, text: string, targetLanguage: string): nat -> Outcome<string> {
    _ => TranslateOnce(model, text, targetLanguage)
  }

  /** `translate` as decorated: `with_retry` with its defaults (three attempts, `TranslationError`). */
  function TranslateSpec(model: Option<string>, text: string, targetLanguage: string): Run<string> {
    WithRetry(3, DefaultClasses, Attempts(model, text, targetLanguage))
  }

  /**
   * The call succeeds exactly when a model is loaded, the text is non-empty
   * and the target is one of the 20 codes; the result is then
   * `Translated(<text>, <target>)` after a single call.
   */
  lemma {:induction false} TranslateSucceeds(model: Option<string>, text: string, targetLanguage: string)
    ensures var run := TranslateSpec(model, text, targetLanguage);
      (run.result.Returned? <==> model.Some? && model.value != [] && text != [] && ValidateLanguageCode(targetLanguage)) &&
      (run.result.Returned? ==>
        run == Run(Returned("Translated(" + text + ", " + targetLanguage + ")"), 1, 0))
  {
    var call := Attempts(model, text, targetLanguage);
    if call(0).Returned? {
      FirstDecidingAttempt(3, DefaultClasses, call, 0);
    } else {
      RejectionRetried(model, text, targetLanguage);
    }
  }

  /**
   * A rejected call raises its first failing check (model, then text, then
   * target code), and raises it only after three calls and two sleeps.
   */
  lemma {:induction false} RejectionRetried(model: Option<string>, text: string, targetLanguage: string)
    requires TranslateOnce(model, text, targetLanguage).Raised?
    ensures var run := TranslateSpec(model, text, targetLanguage);
      run.calls == 3 && run.sleeps == 2 &&
      run.result == Raised(
        if model.None? || model.value == [] then Exc(ServiceNotLoadedError, ServiceNotLoadedMsg)
        else if text == [] then Exc(InvalidInputError, NoTextProvidedMsg)
        else Exc(InvalidInputError, "Invalid language code: " + targetLanguage))
  {
    var call := Attempts(model, text, targetLanguage);
    var e := call(0).error;
    assert e.cls == ServiceNotLoadedError || e.cls == InvalidInputError;
    assert SubclassOf(e.cls, DefaultClasses[0]);
    forall j | 0 <= j < 3
      ensures Retried(call(j), DefaultClasses)
    {
      assert call(j) == call(0);
    }
    AllAttemptsFail(3, DefaultClasses, call);
  }

  class TranslationService {
    var model: Option<string>

    /** `__init__`: no model yet. */
    constructor ()
      ensures model == None
    {
      model := None;
    }

    /** `load_model()`: the placeholder assignment cannot fail. */
    method LoadModel()
      modifies this
      ensures model == Some(LoadedModel)
    {
      model := Some(LoadedModel);
    }

    /** `translate(text, target_language)` through the decorator. */
    method Translate(text: string, targetLanguage: string) returns (result: Outcome<string>, calls: nat, sleeps: nat)
      ensures Run(result, calls, sleeps) == TranslateSpec(model, text, targetLanguage)
    {
      result, calls, sleeps := Wrapper(3, DefaultClasses, Attempts(model, text, targetLanguage));
    }
  }

  /** Before `load_model` every call fails with `ServiceNotLoadedError`, whatever the input. */
  lemma NotLoadedFails(text: string, targetLanguage: string)
    ensures TranslateSpec(None, text, targetLanguage) == Run(Raised(Exc(ServiceNotLoadedError, ServiceNotLoadedMsg)), 3, 2)
  {
    RejectionRetried(None, text, targetLanguage);
  }

  /** After `load_model` the model check passes, so only the input decides. */
  lemma LoadedTranslates(text: string, targetLanguage: string)
    requires text != [] && ValidateLanguageCode(targetLanguage)
    ensures TranslateSpec(Some(LoadedModel), text, targetLanguage)
      == Run(Returned("Translated(" + text + ", " + targetLanguage + ")"), 1, 0)
  {
    TranslateSucceeds(Some(LoadedModel), text, targetLanguage);
  }
}
