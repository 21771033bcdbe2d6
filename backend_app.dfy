/**
 * The backend's main application (`backend/src/app.py`): the lazily created
 * Whisper service shared by all requests, the routes that report on it, the
 * transcription route with its mock fallback, and the two proxies to the
 * translation service.
 *
 * The process id, `secure_filename`, the temporary directory and the
 * upstream replies of `requests.post`/`requests.get` are parameters.
 */
module BackendApp {
  import opened Wrappers
  import opened Strings
  import opened Http
  import opened TranslationErrors
  import opened WhisperService
  import TranscriptionRoutes

  /** The codes `/api/v1/languages` lists when the handler itself fails. */
  const MinimalLanguages: seq<string> := ["en", "es", "fr", "de"]

  /** The codes `/api/v1/translation-languages` lists when the translation service does not answer 200. */
  const TranslationFallback: seq<string> := ["en", "es", "fr", "de", "it", "ja", "ko", "zh", "ar", "hi"]

  /** A reply body of this backend: the given fields with the process id. */
  function WithPid(fields: map<string, J>, pid: int): (body: map<string, J>)
    ensures body.Keys == fields.Keys + {"pid"} && body["pid"] == JInt(pid)
    ensures forall k :: k in fields && k != "pid" ==> body[k] == fields[k]
  {
    fields["pid" := JInt(pid)]
  }

  /** `{success: False, error: message, pid}` with the given status. */
  function Refusal(status: nat, message: string, pid: int): (r: Reply)
    ensures IsError(r, status, message)
    ensures "success" in r.body && r.body["success"] == JBool(false)
  {
    JsonReply(status, WithPid(map["success" := JBool(false), "error" := JStr(message)], pid))
  }

  // ------------------------------------------------------------ singleton

  /** The module-level `_whisper_service`, and how many times it has been created. */
  class Backend {
    var whisperService: SimpleWhisperService?
    ghost var created: nat

    /** The service is created once at most: it exists exactly when it has been created once. */
    ghost predicate Valid()
      reads this
    {
      created == (if whisperService == null then 0 else 1)
    }

    /** Module load: no service yet. */
    constructor ()
      ensures Valid() && whisperService == null
    {
      whisperService := null;
      created := 0;
    }

    /**
     * `get_whisper_service()`: the existing instance, or a new one built
     * with the environment's model size and the given load outcome.
     */
    method GetWhisperService(env: Option<string>, load: Outcome<Model>) returns (s: SimpleWhisperService)
      requires Valid()
      modifies this
      ensures Valid() && whisperService == s && created == 1
      ensures old(whisperService) != null ==> s == old(whisperService)
      ensures old(whisperService) == null ==> (
        fresh(s) && s.modelSize == ChooseModelSize(None, env) &&
        (s.model, s.isLoading) == LoadSpec(None, false, load))
    {
      if whisperService == null {
        whisperService := new SimpleWhisperService(None, env, load);
        created := created + 1;
      }
      s := whisperService;
    }

    /**
     * `GET /health`: the service is fetched (created if need be) and its
     * state reported; `now` is `datetime.utcnow().isoformat()`.
     */
    method Health(verb: string, env: Option<string>, load: Outcome<Model>, now: string, pid: int) returns (r: Reply)
      requires Valid()
      modifies this
      ensures Valid()
      ensures verb == "OPTIONS" ==> r == EmptyReply(200) && whisperService == old(whisperService)
      ensures verb != "OPTIONS" ==> whisperService != null && r == HealthReply(whisperService, now, pid)
    {
      if verb == "OPTIONS" {
        return EmptyReply(200);
      }
      var s := GetWhisperService(env, load);
      r := HealthReply(s, now, pid);
    }

    /** `GET /api/v1/languages`; `fault` is an exception raised inside the handler, if any. */
    method Languages(verb: string, env: Option<string>, load: Outcome<Model>, library: Option<seq<string>>,
                     fault: Option<Exc>, pid: int) returns (r: Reply)
      requires Valid()
      modifies this
      ensures Valid()
      ensures verb == "OPTIONS" ==> r == EmptyReply(200) && whisperService == old(whisperService)
      ensures verb != "OPTIONS" ==> whisperService != null && r == LanguagesReply(whisperService, library, fault, pid)
    {
      if verb == "OPTIONS" {
        return EmptyReply(200);
      }
      var s := GetWhisperService(env, load);
      r := LanguagesReply(s, library, fault, pid);
    }

    /** `GET /api/v1/model-info`. */
    method ModelInfo(verb: string, env: Option<string>, load: Outcome<Model>, pid: int) returns (r: Reply)
      requires Valid()
      modifies this
      ensures Valid()
      ensures verb == "OPTIONS" ==> r == EmptyReply(200) && whisperService == old(whisperService)
      ensures verb != "OPTIONS" ==> whisperService != null && r == ModelInfoReply(whisperService, pid)
    {
      if verb == "OPTIONS" {
        return EmptyReply(200);
      }
      var s := GetWhisperService(env, load);
      r := ModelInfoReply(s, pid);
    }

    /**
     * `POST /api/v1/transcribe`: the upload checks come before the service
     * is fetched, so a rejected request never creates it.
     */
    method Transcribe(verb: string, form: TranscriptionRoutes.TranscribeForm, env: Option<string>, load: Outcome<Model>,
                      secureFilename: string -> string, tempDir: string, transcribe: ModelCall, pid: int)
      returns (r: Reply)
      requires Valid()
      modifies this
      ensures Valid()
      ensures verb == "OPTIONS" ==> r == EmptyReply(200) && whisperService == old(whisperService)
      ensures verb != "OPTIONS" && UploadRejection(form).Some? ==>
        r == Refusal(400, UploadRejection(form).value, pid) && whisperService == old(whisperService)
      ensures verb != "OPTIONS" && UploadRejection(form).None? ==> (
        whisperService != null && form.audio.Some? &&
        r == TranscribeReply(whisperService, form, secureFilename, tempDir, transcribe, pid))
    {
      if verb == "OPTIONS" {
        return EmptyReply(200);
      }
      var rejection := UploadRejection(form);
      if rejection.Some? {
        return Refusal(400, rejection.value, pid);
      }
      var s := GetWhisperService(env, load);
      r := TranscribeReply(s, form, secureFilename, tempDir, transcribe, pid);
    }
  }

  // ------------------------------------------------------ service reports

  /**
   * The `/health` body: `whisper_model` follows `loaded`, then `loading`,
   * then `not_loaded`; `timestamp` is the clock's reading `now`.
   */
  function HealthReply(s: SimpleWhisperService, now: string, pid: int): (r: Reply)
    reads s
    ensures r.JsonReply? && r.status == 200 && "whisper_model" in r.body && "status" in r.body
    ensures r.body["status"] == JStr("healthy")
    ensures r.body["whisper_model"] == JStr(ModelStatus(s.model, s.isLoading))
    ensures "timestamp" in r.body && r.body["timestamp"] == JStr(now)
  {
    var whisperStatus := if s.IsModelLoaded() then "loaded" else if s.isLoading then "loading" else "not_loaded";
    JsonReply(200, WithPid(map["status" := JStr("healthy"), "timestamp" := JStr(now),
                               "service" := JStr("whisper-voice-to-text"),
                               "version" := JStr("1.0.0"), "whisper_model" := JStr(whisperStatus)], pid))
  }

  /** `/health` and the service's `get_model_info()` report the same status. */
  lemma HealthAgreesWithModelInfo(s: SimpleWhisperService, now: string, pid: int)
    ensures HealthReply(s, now, pid).body["whisper_model"] == s.GetModelInfo()["status"]
  {
  }

  /** The `/api/v1/languages` body: always a success, whatever happens. */
  function LanguagesReply(s: SimpleWhisperService, library: Option<seq<string>>, fault: Option<Exc>, pid: int)
    : (r: Reply)
    reads s
    ensures r.JsonReply? && r.status == 200 && "success" in r.body && "languages" in r.body
    ensures r.body["success"] == JBool(true)
    ensures fault.Some? ==> r.body["languages"] == StrList(MinimalLanguages)
    ensures fault.None? && s.IsModelLoaded() ==> r.body["languages"] == StrList(s.GetSupportedLanguages(library))
    ensures fault.None? && !s.IsModelLoaded() ==> r.body["languages"] == StrList(FallbackLanguages)
  {
    var languages :=
      if fault.Some? then MinimalLanguages
      else if s.IsModelLoaded() then s.GetSupportedLanguages(library)
      else ["en", "es", "fr", "de", "it", "pt", "ru", "ja", "ko", "zh", "ar", "hi"];
    JsonReply(200, WithPid(map["success" := JBool(true), "languages" := StrList(languages)], pid))
  }

  /**
   * Without a fault the route lists exactly what the service's own
   * `get_supported_languages` gives, loaded or not: the route's 12 fixed
   * codes are the service's.
   */
  lemma LanguagesFollowService(s: SimpleWhisperService, library: Option<seq<string>>, pid: int)
    ensures LanguagesReply(s, library, None, pid).body["languages"] == StrList(s.GetSupportedLanguages(library))
  {
  }

  /** The `/api/v1/model-info` body: the service's info when loaded, else a status and message of its own. */
  function ModelInfoReply(s: SimpleWhisperService, pid: int): (r: Reply)
    reads s
    ensures r.JsonReply? && r.status == 200 && "model_info" in r.body
    ensures s.IsModelLoaded() ==> r.body["model_info"] == JObj(s.GetModelInfo())
    ensures !s.IsModelLoaded() ==> (
      r.body["model_info"].JObj? && "status" in r.body["model_info"].fields &&
      r.body["model_info"].fields["status"] == JStr(ModelStatus(s.model, s.isLoading)))
  {
    var info :=
      if s.IsModelLoaded() then s.GetModelInfo()
      else map["message" := JStr(if s.isLoading then "Whisper model loading..."
                                 else "Whisper model not available - using mock mode"),
               "model_size" := JStr(s.modelSize),
               "status" := JStr(if s.isLoading then "loading" else "not_loaded")];
    JsonReply(200, WithPid(map["success" := JBool(true), "model_info" := JObj(info)], pid))
  }

  // ----------------------------------------------------------- transcribe

  /** The upload checks of `/api/v1/transcribe`: the message of the first failing one. */
  function UploadRejection(form: TranscriptionRoutes.TranscribeForm): (m: Option<string>)
    ensures m == None <==> form.audio.Some? && form.audio.value.name != []
    ensures form.audio.None? ==> m == Some("No audio file provided")
    ensures form.audio.Some? && form.audio.value.name == [] ==> m == Some("No file selected")
  {
    if form.audio.None? then Some("No audio file provided")
    else if form.audio.value.name == [] then Some("No file selected")
    else None
  }

  /** `request.form.get('language', '')`. */
  function LanguageOf(form: TranscriptionRoutes.TranscribeForm): string {
    form.language.GetOr("")
  }

  const MockReceived := "File received successfully! The backend is working properly.\n\n"
  const MockPipeline :=
    "This is a test response to verify the upload pipeline. Once the Whisper model is fully loaded, you'll get real transcriptions."

  /** The text of the mock transcription. */
  function MockText(filename: string, isLoading: bool): string {
    "\U{1F3A4} Mock transcription for \"" + filename + "\"\n\n" + MockReceived +
    "Whisper model status: " + (if isLoading then "Loading..." else "Not loaded") + "\n\n" + MockPipeline
  }

  /** The one segment of the mock result. */
  function MockSegment(filename: string): (j: J)
    ensures j.JObj? && j.fields.Keys == {"start", "end", "text"}
  {
    JObj(map["start" := JNum(0.0), "end" := JNum(3.0), "text" := JStr("Mock transcription for \"" + filename + "\"")])
  }

  /** The result reported while no model is loaded. */
  function MockResult(filename: string, language: string, isLoading: bool): (result: map<string, J>)
    ensures "language" in result && result["language"] == JStr(if language != [] then language else "en")
    ensures "model_size" in result && result["model_size"] == JStr("mock")
    ensures "segments" in result && result["segments"] == JList([MockSegment(filename)])
    ensures result.Keys == {"text", "segments", "model_size", "language"}
  {
    var text := MockText(filename, isLoading);
    map["text" := JStr(text), "segments" := JList([MockSegment(filename)]),
        "model_size" := JStr("mock"), "language" := JStr(if language != [] then language else "en")]
  }

  /** Where the upload is saved: `os.path.join(temp_dir, filename)`. */
  function TempPath(tempDir: string, filename: string): string {
    tempDir + "/" + filename
  }

  /** The reply to a real transcription: the service's response, or 500 with `Server error: …`. */
  function Transcribed(outcome: Outcome<map<string, J>>, filename: string, pid: int): (r: Reply)
    ensures r.JsonReply? && (r.status == 200 <==> outcome.Returned?) && (r.status == 200 || r.status == 500)
    ensures outcome.Returned? ==> "result" in r.body && r.body["result"] == JObj(outcome.value)
    ensures outcome.Raised? ==> IsError(r, 500, "Server error: " + outcome.error.message)
  {
    match outcome
    case Raised(e) => Refusal(500, "Server error: " + e.message, pid)
    case Returned(result) =>
      JsonReply(200, WithPid(map["success" := JBool(true), "filename" := JStr(filename), "result" := JObj(result)], pid))
  }

  /** The reply while no model is loaded: the mock result, with a note saying why. */
  function MockReply(filename: string, language: string, isLoading: bool, pid: int): (r: Reply)
    ensures r.JsonReply? && r.status == 200 && "result" in r.body
    ensures r.body["result"] == JObj(MockResult(filename, language, isLoading))
  {
    var note := "Mock response - Whisper model " + (if isLoading then "loading" else "not loaded");
    JsonReply(200, WithPid(map["success" := JBool(true), "filename" := JStr(filename), "note" := JStr(note),
                               "result" := JObj(MockResult(filename, language, isLoading))], pid))
  }

  /**
   * The reply once the upload passed its checks: the real transcription of
   * the saved file when the model is loaded, else the mock result.
   */
  function TranscribeReply(s: SimpleWhisperService, form: TranscriptionRoutes.TranscribeForm,
                           secureFilename: string -> string, tempDir: string,
                           transcribe: ModelCall, pid: int): (r: Reply)
    requires form.audio.Some?
    reads s
    ensures r.JsonReply? && (r.status == 200 || r.status == 500)
    ensures !s.IsModelLoaded() ==> r == MockReply(form.audio.value.name, LanguageOf(form), s.isLoading, pid)
  {
    var name := form.audio.value.name;
    var language := LanguageOf(form);
    if s.IsModelLoaded() then
      var filename := secureFilename(name);
      var path := TempPath(tempDir, filename);
      var outcome := s.TranscribeAudio(path, LanguageArgument(form), form.task.GetOr("transcribe"), {path}, transcribe);
      Transcribed(outcome, filename, pid)
    else MockReply(name, language, s.isLoading, pid)
  }

  /** The language argument: `language if language else None`. */
  function LanguageArgument(form: TranscriptionRoutes.TranscribeForm): (language: Option<string>)
    ensures language.Some? <==> form.language.Some? && form.language.value != []
  {
    if LanguageOf(form) != [] then Some(LanguageOf(form)) else None
  }

  /** With a loaded model the reply is the service's outcome on the saved file. */
  lemma LoadedReply(s: SimpleWhisperService, form: TranscriptionRoutes.TranscribeForm,
                    secureFilename: string -> string, tempDir: string,
                    transcribe: ModelCall, pid: int)
    requires form.audio.Some? && s.IsModelLoaded()
    ensures var filename := secureFilename(form.audio.value.name);
      var path := TempPath(tempDir, filename);
      TranscribeReply(s, form, secureFilename, tempDir, transcribe, pid) ==
      Transcribed(s.TranscribeAudio(path, LanguageArgument(form), form.task.GetOr("transcribe"), {path}, transcribe),
                  filename, pid)
  {
  }

  /**
   * With a loaded model the saved file always exists, so the reply is 200
   * with the shaped transcription exactly when the model call succeeds, and
   * otherwise 500 with `Server error: Transcription failed: …`.
   */
  lemma LoadedTranscription(s: SimpleWhisperService, form: TranscriptionRoutes.TranscribeForm,
                            secureFilename: string -> string, tempDir: string,
                            transcribe: ModelCall, pid: int)
    requires form.audio.Some? && s.IsModelLoaded()
    ensures var r := TranscribeReply(s, form, secureFilename, tempDir, transcribe, pid);
      var path := TempPath(tempDir, secureFilename(form.audio.value.name));
      var call := transcribe(path, TranscribeOptions(LanguageArgument(form), form.task.GetOr("transcribe")));
      (r.status == 200 <==> call.Returned?) &&
      (call.Returned? ==>
        "result" in r.body && r.body["result"] == JObj(TranscriptionResponse(s.modelSize, call.value))) &&
      (call.Raised? ==> IsError(r, 500, "Server error: " + ("Transcription failed: " + call.error.message)))
  {
    LoadedReply(s, form, secureFilename, tempDir, transcribe, pid);
    var path := TempPath(tempDir, secureFilename(form.audio.value.name));
    assert path in {path};
  }

  // --------------------------------------------------------------- proxies

  /** What `requests.post`/`requests.get` gave: a response (status and decoded body) or a `RequestException`. */
  datatype Upstream =
    | Answered(statusCode: nat, json: Result<J, string>)
    | RequestFailed(message: string)

  /**
   * `POST /api/v1/translate`: forwards the body. A 200 whose body decodes is
   * passed through; another status is echoed; a failed connection, or a 200
   * whose body does not decode, gives 503.
   */
  function TranslateProxy(verb: string, data: J, upstream: Upstream, pid: int): (r: Reply)
    ensures verb == "OPTIONS" ==> r == EmptyReply(200)
    ensures verb != "OPTIONS" && !PyTruthy(data) ==> r == Refusal(400, "No JSON data provided", pid)
    ensures verb != "OPTIONS" && PyTruthy(data) && upstream.RequestFailed? ==>
      IsError(r, 503, "Translation service unavailable: " + upstream.message)
    ensures verb != "OPTIONS" && PyTruthy(data) && upstream.Answered? && upstream.statusCode == 200 ==>
      (upstream.json.Ok? ==> r == PassedThrough(upstream.json.value)) &&
      (upstream.json.Err? ==> IsError(r, 503, "Translation service unavailable: " + upstream.json.error))
    ensures verb != "OPTIONS" && PyTruthy(data) && upstream.Answered? && upstream.statusCode != 200 ==>
      IsError(r, upstream.statusCode, "Translation service error: " + NatToString(upstream.statusCode))
  {
    if verb == "OPTIONS" then EmptyReply(200)
    else if !PyTruthy(data) then Refusal(400, "No JSON data provided", pid)
    else match upstream
      case RequestFailed(message) => Refusal(503, "Translation service unavailable: " + message, pid)
      case Answered(code, json) =>
        if code == 200 then
          match json
          case Ok(result) => PassedThrough(result)
          case Err(message) => Refusal(503, "Translation service unavailable: " + message, pid)
        else Refusal(code, "Translation service error: " + NatToString(code), pid)
  }

  /**
   * `GET /api/v1/translation-languages`: a 200 whose body decodes is passed
   * through; anything else gives the 10-code fallback, still as a success.
   */
  function TranslationLanguagesProxy(verb: string, upstream: Upstream, pid: int): (r: Reply)
    ensures r.Status() == 200
    ensures verb != "OPTIONS" && upstream.Answered? && upstream.statusCode == 200 && upstream.json.Ok? ==>
      r == PassedThrough(upstream.json.value)
    ensures verb != "OPTIONS" && !(upstream.Answered? && upstream.statusCode == 200 && upstream.json.Ok?) ==> (
      r.JsonReply? && "success" in r.body && "languages" in r.body &&
      r.body["success"] == JBool(true) && r.body["languages"] == StrList(TranslationFallback))
  {
    if verb == "OPTIONS" then EmptyReply(200)
    else if upstream.Answered? && upstream.statusCode == 200 && upstream.json.Ok? then PassedThrough(upstream.json.value)
    else
      JsonReply(200, WithPid(map["success" := JBool(true), "languages" := StrList(TranslationFallback),
                                 "note" := JStr("Fallback language list - translation service unavailable")], pid))
  }
}
