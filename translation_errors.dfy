/**
 * The translation services' exception hierarchy (`services/errors.py`, and
 * the identical classes at the top of both `translation_service.py`
 * files), the message constants (`services/constants.py`), and the
 * outcome of a call that may raise.
 */
module TranslationErrors {

  /** The exception classes the services raise or catch. */
  datatype ExcClass =
    | Exception                 // Python's base class
    | TranslationError
    | ServiceNotLoadedError     // subclass of TranslationError
    | InvalidInputError         // subclass of TranslationError
    | Builtin(name: string)     // any other class, e.g. ValueError, TypeError, ConnectionError

  /** A raised exception: its class and `str(e)`. */
  datatype Exc = Exc(cls: ExcClass, message: string)

  /** `issubclass(k, base)`: every class is an `Exception`; the two service errors are `TranslationError`s. */
  predicate SubclassOf(k: ExcClass, base: ExcClass) {
    k == base || base == Exception ||
    (base == TranslationError && (k == ServiceNotLoadedError || k == InvalidInputError))
  }

  /** `except classes as e`: the exception is an instance of one of the listed classes. */
  predicate CaughtBy(e: Exc, classes: seq<ExcClass>) {
    exists i :: 0 <= i < |classes| && SubclassOf(e.cls, classes[i])
  }

  /** Validation errors are translation errors, so a handler for `TranslationError` catches them too. */
  lemma ValidationErrorsAreTranslationErrors(message: string)
    ensures CaughtBy(Exc(ServiceNotLoadedError, message), [TranslationError])
    ensures CaughtBy(Exc(InvalidInputError, message), [TranslationError])
    ensures !CaughtBy(Exc(Builtin("ValueError"), message), [TranslationError])
  {
    assert SubclassOf(ServiceNotLoadedError, [TranslationError][0]);
    assert SubclassOf(InvalidInputError, [TranslationError][0]);
  }

  /** What a call gives back: a value or a raised exception. */
  datatype Outcome<T> = Returned(value: T) | Raised(error: Exc)

  const ServiceNotLoadedMsg := "Translation service is not loaded"
  const NoTextProvidedMsg := "No text provided"
  const TranslationFailedMsg := "Translation failed"
}
