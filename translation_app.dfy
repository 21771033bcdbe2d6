/**
 * The standalone translation service's routes (`translation-service/app.py`).
 *
 * A handler is a function from the HTTP method, the decoded JSON body
 * (`JNull` for none) and the translator's state to the reply; the service's
 * calls are oracles giving a value or the exception raised.
 */
module TranslationApp {
  import opened Http
  import opened TranslationErrors
  import opened Handlers

  /** The codes `/languages` falls back to when the service raises. */
  const FallbackLanguages: seq<string> := ["en", "es", "fr", "de", "it", "ja", "ko", "zh"]

  /** The arguments `translation_service.translate_text` receives, as found in the body. */
  datatype TranslateCall = TranslateCall(text: J, targetLanguage: J, sourceLanguage: J)

  /** A failure reply of this service: `{success: False, error: message}`. */
  function Unsuccessful(status: nat, message: string): (r: Reply)
    ensures IsError(r, status, message) && "success" in r.body && r.body["success"] == JBool(false)
  {
    JsonReply(status, map["success" := JBool(false), "error" := JStr(message)])
  }

  /** The body passes `/translate`'s three checks: an object with a truthy `text` and `target_language`. */
  predicate TranslateInputGiven(data: J) {
    PyTruthy(data) && data.JObj? && PyTruthy(Field(data, "text")) && PyTruthy(Field(data, "target_language"))
  }

  /** `/translate`: a CORS pre-flight, else the checks on the body, then the translator state. */
  function Translate(verb: string, data: J, loaded: bool, translate: TranslateCall -> Outcome<J>): (r: Reply)
    ensures verb == "OPTIONS" ==> r == EmptyReply(200)
    ensures verb != "OPTIONS" ==> r.JsonReply?
    ensures verb != "OPTIONS" ==> (r.status == 503 <==> TranslateInputGiven(data) && !loaded)
    ensures verb != "OPTIONS" ==> (
      r.status == 200 <==> (
        TranslateInputGiven(data) && loaded &&
        translate(TranslateCall(Field(data, "text"), Field(data, "target_language"), Field(data, "source_language"))).Returned?))
  {
    if verb == "OPTIONS" then EmptyReply(200)
    else if !PyTruthy(data) then ErrorReply(400, "No JSON data provided")
    else match GetField(data, "text")
      case Raised(e) => Unsuccessful(500, e.message)
      case Returned(text) =>
        var target := Field(data, "target_language");
        if !PyTruthy(text) then ErrorReply(400, "No text provided for translation")
        else if !PyTruthy(target) then ErrorReply(400, "Target language not specified")
        else if !loaded then Unsuccessful(503, "Translation service not available")
        else match translate(TranslateCall(text, target, Field(data, "source_language")))
          case Raised(e) => Unsuccessful(500, e.message)
          case Returned(result) => Success(map["result" := result])
  }

  /**
   * The body is checked before the translator: a missing body, text or
   * target gives 400 even while the translator is not loaded; a successful
   * translation is wrapped as `{success: True, result}` and a raised one
   * gives 500 with `success: False`.
   */
  lemma TranslateChecksBodyFirst(data: J, loaded: bool, translate: TranslateCall -> Outcome<J>)
    ensures var r := Translate("POST", data, loaded, translate);
      var call := TranslateCall(Field(data, "text"), Field(data, "target_language"), Field(data, "source_language"));
      (!PyTruthy(data) ==> IsError(r, 400, "No JSON data provided")) &&
      (PyTruthy(data) && data.JObj? && !PyTruthy(Field(data, "text")) ==>
        IsError(r, 400, "No text provided for translation")) &&
      (PyTruthy(data) && data.JObj? && PyTruthy(Field(data, "text")) && !PyTruthy(Field(data, "target_language")) ==>
        IsError(r, 400, "Target language not specified")) &&
      (TranslateInputGiven(data) && loaded && translate(call).Returned? ==>
        r == Success(map["result" := translate(call).value])) &&
      (TranslateInputGiven(data) && loaded && translate(call).Raised? ==>
        r == Unsuccessful(500, translate(call).error.message))
  {
  }

  /** `/languages`: the service's list; when it raises, still a success with the fixed 8 codes and the error. */
  function Languages(verb: string, languages: Outcome<J>): (r: Reply)
    ensures verb == "OPTIONS" ==> r == EmptyReply(200)
    ensures verb != "OPTIONS" ==> r.JsonReply? && r.status == 200 && "success" in r.body && r.body["success"] == JBool(true)
    ensures verb != "OPTIONS" && languages.Returned? ==> r == Success(map["languages" := languages.value])
    ensures verb != "OPTIONS" && languages.Raised? ==>
      r == Success(map["languages" := StrList(FallbackLanguages), "error" := JStr(languages.error.message)])
  {
    if verb == "OPTIONS" then EmptyReply(200)
    else match languages
      case Raised(e) => Success(map["languages" := StrList(FallbackLanguages), "error" := JStr(e.message)])
      case Returned(value) => Success(map["languages" := value])
  }

  /** `/health`: always healthy; `translator_status` reports whether the translator loaded. */
  function Health(verb: string, loaded: bool, pid: int): (r: Reply)
    ensures verb == "OPTIONS" ==> r == EmptyReply(200)
    ensures verb != "OPTIONS" ==> (
      r.JsonReply? && r.status == 200 && "translator_status" in r.body &&
      (r.body["translator_status"] == JStr("loaded") <==> loaded) &&
      (r.body["translator_status"] == JStr("not_loaded") <==> !loaded))
  {
    if verb == "OPTIONS" then EmptyReply(200)
    else
      JsonReply(200, map["status" := JStr("healthy"), "service" := JStr("translation-service"),
                         "version" := JStr("1.0.0"), "pid" := JInt(pid),
                         "translator_status" := JStr(if loaded then "loaded" else "not_loaded")])
  }

  /** `/detect`: the body checks, then the service's detection (which checks the translator itself). */
  function Detect(verb: string, data: J, detect: J -> Outcome<J>): (r: Reply)
    ensures verb == "OPTIONS" ==> r == EmptyReply(200)
    ensures verb != "OPTIONS" ==> r.JsonReply?
    ensures verb != "OPTIONS" ==> (r.status == 400 <==> !PyTruthy(data) || (data.JObj? && !PyTruthy(Field(data, "text"))))
    ensures verb != "OPTIONS" ==> (
      r.status == 200 <==> (
        PyTruthy(data) && data.JObj? && PyTruthy(Field(data, "text")) && detect(Field(data, "text")).Returned?))
  {
    if verb == "OPTIONS" then EmptyReply(200)
    else if !PyTruthy(data) then ErrorReply(400, "No JSON data provided")
    else match GetField(data, "text")
      case Raised(e) => Unsuccessful(500, e.message)
      case Returned(text) =>
        if !PyTruthy(text) then ErrorReply(400, "No text provided for language detection")
        else match detect(text)
          case Raised(e) => Unsuccessful(500, e.message)
          case Returned(result) => Success(map["result" := result])
  }

  /** `/detect` rejects a missing body before a missing text, and reports a failed detection as 500. */
  lemma DetectRejections(data: J, detect: J -> Outcome<J>)
    ensures var r := Detect("POST", data, detect);
      (!PyTruthy(data) ==> IsError(r, 400, "No JSON data provided")) &&
      (PyTruthy(data) && data.JObj? && !PyTruthy(Field(data, "text")) ==>
        IsError(r, 400, "No text provided for language detection")) &&
      (PyTruthy(data) && data.JObj? && PyTruthy(Field(data, "text")) && detect(Field(data, "text")).Raised? ==>
        r == Unsuccessful(500, detect(Field(data, "text")).error.message))
  {
  }
}
